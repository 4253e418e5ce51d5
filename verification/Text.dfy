/** String helpers with the meaning of the JavaScript built-ins the jukebox code calls:
    `trim`, `toLowerCase`/`toUpperCase` (ASCII part), `includes`, `String(n)` on a
    non-negative integer, `Number` on a digit string, `padStart`/`padEnd`, `join`,
    `parseInt(s, 10)` and the `<`/`<=` comparison of two strings. */
module Text {

  /** The characters JavaScript's `trim` (and `parseInt`) skip: WhiteSpace and LineTerminator. */
  predicate IsSpace(c: char) {
    || c == ' ' || c == '\t' || c == '\n' || c == '\r'
    || c == '\U{000B}' || c == '\U{000C}' || c == '\U{00A0}' || c == '\U{FEFF}'
    || c == '\U{1680}' || ('\U{2000}' <= c <= '\U{200A}')
    || c == '\U{2028}' || c == '\U{2029}' || c == '\U{202F}' || c == '\U{205F}' || c == '\U{3000}'
  }

  predicate AllSpace(s: string) {
    forall i :: 0 <= i < |s| ==> IsSpace(s[i])
  }

  /** Drops leading white space: what remains is a suffix of `s` that does not start with a space. */
  function TrimStart(s: string): (r: string)
    ensures |r| <= |s| && r == s[|s| - |r|..]
    ensures AllSpace(s[..|s| - |r|])
    ensures |r| > 0 ==> !IsSpace(r[0])
    decreases |s|
  {
    if |s| > 0 && IsSpace(s[0]) then TrimStart(s[1..]) else s
  }

  /** Drops trailing white space: what remains is a prefix of `s` that does not end with a space. */
  function TrimEnd(s: string): (r: string)
    ensures |r| <= |s| && r == s[..|r|]
    ensures AllSpace(s[|r|..])
    ensures |r| > 0 ==> !IsSpace(r[|r| - 1])
    decreases |s|
  {
    if |s| > 0 && IsSpace(s[|s| - 1]) then TrimEnd(s[..|s| - 1]) else s
  }

  /** JavaScript's `s.trim()`: empty exactly when `s` is blank, otherwise a slice of `s`
      that neither starts nor ends with white space. */
  function Trim(s: string): (r: string)
    ensures |r| <= |s|
    ensures r == [] <==> AllSpace(s)
    ensures r != [] ==> !IsSpace(r[0]) && !IsSpace(r[|r| - 1])
  {
    var t := TrimStart(s);
    assert s == s[..|s| - |t|] + t;
    TrimEnd(t)
  }

  lemma TrimIdempotent(s: string)
    ensures Trim(Trim(s)) == Trim(s)
  {
  }

  function LowerChar(c: char): char {
    if 'A' <= c <= 'Z' then (c as int + 32) as char else c
  }

  function UpperChar(c: char): char {
    if 'a' <= c <= 'z' then (c as int - 32) as char else c
  }

  /** `toLowerCase` on the ASCII letters; every other character is kept. */
  function ToLower(s: string): string {
    seq(|s|, i requires 0 <= i < |s| => LowerChar(s[i]))
  }

  /** `toUpperCase` on the ASCII letters; every other character is kept. */
  function ToUpper(s: string): string {
    seq(|s|, i requires 0 <= i < |s| => UpperChar(s[i]))
  }

  predicate StartsWith(s: string, prefix: string) {
    |prefix| <= |s| && s[..|prefix|] == prefix
  }

  /** JavaScript's `hay.includes(needle)`. */
  predicate Includes(hay: string, needle: string)
    decreases |hay|
  {
    StartsWith(hay, needle) || (|hay| > 0 && Includes(hay[1..], needle))
  }

  /** `needle` occurs in `hay` starting at position `i`. */
  predicate OccursAt(hay: string, needle: string, i: int) {
    0 <= i <= |hay| - |needle| && hay[i..i + |needle|] == needle
  }

  /** `Includes` holds exactly when the needle occurs at some position of the haystack. */
  lemma {:induction false} IncludesIff(hay: string, needle: string)
    ensures Includes(hay, needle) <==> exists i :: OccursAt(hay, needle, i)
    decreases |hay|
  {
    if StartsWith(hay, needle) {
      assert OccursAt(hay, needle, 0);
    }
    if OccursAt(hay, needle, 0) {
      assert StartsWith(hay, needle);
    }
    if |hay| > 0 {
      IncludesIff(hay[1..], needle);
      if Includes(hay[1..], needle) {
        var i :| OccursAt(hay[1..], needle, i);
        assert hay[i + 1..i + 1 + |needle|] == needle;
        assert OccursAt(hay, needle, i + 1);
      }
      if exists i :: OccursAt(hay, needle, i) {
        var i :| OccursAt(hay, needle, i);
        if i > 0 {
          assert hay[1..][i - 1..i - 1 + |needle|] == needle;
          assert OccursAt(hay[1..], needle, i - 1);
        }
      }
    }
  }

  predicate IsDigit(c: char) {
    '0' <= c <= '9'
  }

  predicate AllDigits(s: string) {
    forall i :: 0 <= i < |s| ==> IsDigit(s[i])
  }

  function DigitValue(c: char): nat
    requires IsDigit(c)
  {
    c as int - '0' as int
  }

  function DigitChar(d: nat): (c: char)
    requires d < 10
    ensures IsDigit(c) && DigitValue(c) == d
  {
    ('0' as int + d) as char
  }

  /** `Number(s)` for a non-empty string of decimal digits (leading zeros allowed). */
  function DecimalValue(s: string): nat
    requires AllDigits(s)
    decreases |s|
  {
    if |s| == 0 then 0 else 10 * DecimalValue(s[..|s| - 1]) + DigitValue(s[|s| - 1])
  }

  /** JavaScript's `String(n)` for a non-negative integer: the shortest decimal numeral,
      which reads back as `n` and has a leading zero only for zero itself. */
  function NatToString(n: nat): (r: string)
    ensures 1 <= |r| && AllDigits(r)
    ensures DecimalValue(r) == n
    ensures r[0] == '0' ==> n == 0 && |r| == 1
    ensures n < 10 ==> |r| == 1
    ensures 10 <= n < 100 ==> |r| == 2
    ensures 100 <= n < 1000 ==> |r| == 3
    decreases n
  {
    if n < 10 then [DigitChar(n)]
    else
      var r := NatToString(n / 10) + [DigitChar(n % 10)];
      assert r[..|r| - 1] == NatToString(n / 10);
      r
  }

  /** A numeral without a leading zero has a positive value. */
  lemma {:induction false} NumeralPositive(s: string)
    requires |s| > 0 && AllDigits(s) && s[0] != '0'
    ensures DecimalValue(s) > 0
    decreases |s|
  {
    if |s| > 1 {
      NumeralPositive(s[..|s| - 1]);
    }
  }

  /** `String(Number(s))` gives `s` back for every numeral without a leading zero (and "0"):
      the decimal form of a number is unique. */
  lemma {:induction false} NatToStringOfNumeral(s: string)
    requires |s| > 0 && AllDigits(s) && (s[0] != '0' || |s| == 1)
    ensures NatToString(DecimalValue(s)) == s
    decreases |s|
  {
    var n := DecimalValue(s);
    if |s| == 1 {
      assert s[..0] == [];
      assert DecimalValue(s[..0]) == 0;
      assert n == DigitValue(s[0]);
      assert [DigitChar(n)] == s;
    } else {
      var init := s[..|s| - 1];
      NumeralPositive(init);
      NatToStringOfNumeral(init);
      assert n / 10 == DecimalValue(init) && n % 10 == DigitValue(s[|s| - 1]);
      assert s == init + [s[|s| - 1]];
    }
  }

  /** Leading zeros do not change the value of a numeral. */
  lemma {:induction false} LeadingZeros(zeros: string, s: string)
    requires forall i :: 0 <= i < |zeros| ==> zeros[i] == '0'
    requires AllDigits(s)
    ensures AllDigits(zeros + s) && DecimalValue(zeros + s) == DecimalValue(s)
    decreases |s|, |zeros|
  {
    if |s| == 0 {
      assert zeros + s == zeros;
      if |zeros| > 0 {
        LeadingZeros(zeros[..|zeros| - 1], s);
        assert zeros[..|zeros| - 1] + s == zeros[..|zeros| - 1];
      }
    } else {
      LeadingZeros(zeros, s[..|s| - 1]);
      assert (zeros + s)[..|zeros + s| - 1] == zeros + s[..|s| - 1];
    }
  }

  /** JavaScript's `s.padStart(width, fill)` with a one-character fill. */
  function PadStart(s: string, width: nat, fill: char): (r: string)
    ensures |r| == if |s| >= width then |s| else width
    ensures r[|r| - |s|..] == s
    ensures forall i :: 0 <= i < |r| - |s| ==> r[i] == fill
  {
    if |s| >= width then s else seq(width - |s|, _ => fill) + s
  }

  /** JavaScript's `s.padEnd(width, fill)` with a one-character fill. */
  function PadEnd(s: string, width: nat, fill: char): (r: string)
    ensures |r| == if |s| >= width then |s| else width
    ensures r[..|s|] == s
    ensures forall i :: |s| <= i < |r| ==> r[i] == fill
  {
    if |s| >= width then s else s + seq(width - |s|, _ => fill)
  }

  /** JavaScript's `parts.join(sep)`. */
  function Join(parts: seq<string>, sep: string): string
    decreases |parts|
  {
    if |parts| == 0 then ""
    else if |parts| == 1 then parts[0]
    else parts[0] + sep + Join(parts[1..], sep)
  }

  /** A JavaScript number as far as `parseInt` can produce one. */
  datatype Numeric = NaN | Num(value: int)

  /** The longest prefix of `s` made of decimal digits. */
  function DigitPrefix(s: string): (r: string)
    ensures AllDigits(r) && StartsWith(s, r)
    ensures |r| < |s| ==> !IsDigit(s[|r|])
    decreases |s|
  {
    if |s| > 0 && IsDigit(s[0]) then [s[0]] + DigitPrefix(s[1..]) else ""
  }

  /** The decimal digits at the start of `u`, read as a number; NaN when there are none. */
  function ParseDigits(u: string): Numeric {
    var digits := DigitPrefix(u);
    if |digits| == 0 then NaN else Num(DecimalValue(digits))
  }

  function Negate(n: Numeric): Numeric {
    match n
    case NaN => NaN
    case Num(v) => Num(-v)
  }

  /** An optional sign followed by digits. */
  function ParseSigned(t: string): Numeric {
    if |t| > 0 && t[0] == '-' then Negate(ParseDigits(t[1..]))
    else if |t| > 0 && t[0] == '+' then ParseDigits(t[1..])
    else ParseDigits(t)
  }

  /** JavaScript's `parseInt(s, 10)`: skip leading white space, read an optional sign and
      then as many decimal digits as follow; with no digit at all the result is NaN. */
  function ParseInt(s: string): Numeric {
    ParseSigned(TrimStart(s))
  }

  /** With no leading space or sign, `parseInt` reads the leading digits, or gives NaN. */
  lemma ParseIntUnsigned(s: string)
    requires |s| > 0 && !IsSpace(s[0]) && s[0] != '-' && s[0] != '+'
    ensures ParseInt(s) == ParseDigits(s)
  {
    assert TrimStart(s) == s;
  }

  lemma {:induction false} DigitPrefixOfDigits(s: string)
    requires AllDigits(s)
    ensures DigitPrefix(s) == s
    decreases |s|
  {
    if |s| > 0 {
      DigitPrefixOfDigits(s[1..]);
    }
  }

  /** `parseInt` of a non-empty digit string is its decimal value. */
  lemma ParseIntOfDigits(s: string)
    requires |s| > 0 && AllDigits(s)
    ensures ParseInt(s) == Num(DecimalValue(s))
  {
    DigitPrefixOfDigits(s);
    ParseIntUnsigned(s);
  }

  lemma TwoDigitValue(a: char, b: char)
    requires IsDigit(a) && IsDigit(b)
    ensures AllDigits([a, b]) && DecimalValue([a, b]) == 10 * DigitValue(a) + DigitValue(b)
  {
    assert [a][..0] == [];
    assert DecimalValue([a]) == DigitValue(a);
    assert [a, b][..1] == [a];
  }

  /** `parseInt` of a two-character string, case by case: a leading space or sign leaves one
      character to read; a leading digit is read with the second one if that is a digit too. */
  function ParseIntTwo(a: char, b: char): Numeric {
    if IsSpace(a) || a == '+' then (if IsDigit(b) then Num(DigitValue(b)) else NaN)
    else if a == '-' then (if IsDigit(b) then Num(-(DigitValue(b) as int)) else NaN)
    else if IsDigit(a) then (if IsDigit(b) then Num(10 * DigitValue(a) + DigitValue(b)) else Num(DigitValue(a)))
    else NaN
  }

  /** The digits of a one-character string. */
  lemma ParseDigitsOne(b: char)
    ensures ParseDigits([b]) == if IsDigit(b) then Num(DigitValue(b)) else NaN
  {
    assert [b][1..] == [];
    if IsDigit(b) {
      assert [b][..0] == [];
      assert DecimalValue([b]) == DigitValue(b);
      assert DigitPrefix([b]) == [b];
    }
  }

  /** The digits of a two-character string. */
  lemma ParseDigitsTwo(a: char, b: char)
    requires !IsSpace(a) && a != '-' && a != '+'
    ensures ParseDigits([a, b]) == ParseIntTwo(a, b)
  {
    assert [a, b][1..] == [b];
    ParseDigitsOne(b);
    if IsDigit(a) {
      assert DigitPrefix([a, b]) == [a] + DigitPrefix([b]);
      if IsDigit(b) {
        TwoDigitValue(a, b);
        assert DigitPrefix([a, b]) == [a, b];
      } else {
        ParseDigitsOne(a);
        assert [a] + DigitPrefix([b]) == [a];
      }
    }
  }

  /** What is left of a two-character string after the leading white space. */
  lemma TrimStartTwo(a: char, b: char)
    ensures TrimStart([a, b]) == if !IsSpace(a) then [a, b] else if !IsSpace(b) then [b] else []
  {
    assert [a, b][1..] == [b];
    assert [b][1..] == [];
  }

  /** A lone character is read only if it is a digit; a lone sign gives NaN. */
  lemma ParseSignedOne(b: char)
    ensures ParseSigned([b]) == if IsDigit(b) then Num(DigitValue(b)) else NaN
  {
    ParseDigitsOne(b);
    assert [b][1..] == [];
    assert DigitPrefix([]) == [];
  }

  /** Two white space characters leave nothing to read. */
  lemma ParseIntSpaces(a: char, b: char)
    requires IsSpace(a) && IsSpace(b)
    ensures ParseInt([a, b]) == NaN
  {
    TrimStartTwo(a, b);
  }

  /** After one white space character, the second character is read on its own. */
  lemma ParseIntAfterSpace(a: char, b: char)
    requires IsSpace(a) && !IsSpace(b)
    ensures ParseInt([a, b]) == ParseSigned([b])
  {
    TrimStartTwo(a, b);
  }

  /** A leading white space character is skipped, leaving at most one digit to read. */
  lemma ParseIntSpaceLead(a: char, b: char)
    requires IsSpace(a)
    ensures ParseInt([a, b]) == ParseIntTwo(a, b)
  {
    if IsSpace(b) {
      ParseIntSpaces(a, b);
    } else {
      ParseIntAfterSpace(a, b);
      ParseSignedOne(b);
    }
  }

  /** A leading sign leaves one character to read. */
  lemma ParseIntSignLead(a: char, b: char)
    requires a == '-' || a == '+'
    ensures ParseInt([a, b]) == ParseIntTwo(a, b)
  {
    var t := [a, b];
    assert !IsSpace(a);
    TrimStartTwo(a, b);
    assert TrimStart(t) == t;
    assert t[1..] == [b];
    ParseDigitsOne(b);
    if a == '-' {
      assert ParseSigned(t) == Negate(ParseDigits([b]));
    } else {
      assert ParseSigned(t) == ParseDigits([b]);
    }
  }

  /** The case-by-case reading agrees with `parseInt` on every two-character string. */
  lemma ParseIntTwoChars(a: char, b: char)
    ensures ParseIntTwo(a, b) == ParseInt([a, b])
  {
    if IsSpace(a) {
      ParseIntSpaceLead(a, b);
    } else if a == '-' || a == '+' {
      ParseIntSignLead(a, b);
    } else {
      ParseIntUnsigned([a, b]);
      ParseDigitsTwo(a, b);
    }
  }

  /** JavaScript's `a < b` on strings: code-unit-wise lexicographic order. */
  predicate LexLess(a: string, b: string)
    decreases |a|
  {
    if |a| == 0 then |b| > 0
    else if |b| == 0 then false
    else if a[0] != b[0] then a[0] < b[0]
    else LexLess(a[1..], b[1..])
  }

  /** JavaScript's `a <= b` on strings. */
  predicate LexLessEq(a: string, b: string) {
    !LexLess(b, a)
  }
}
