/** The live jukebox page: a two-digit keypad that picks a song from a fixed catalogue,
    a searchable flipbook of song cards, a list of up to four performer names, and the
    night's lineup, to which "coin in" prepends a new booking. */
module Lineup {
  import opened Text
  import opened Seqs
  import opened Types

  /** A catalogue row: number, title, artist, duration label and a one-word mood. */
  datatype CatalogueSong = CatalogueSong(no: nat, title: string, artist: string, len: string, vibe: string)

  const Songs: seq<CatalogueSong> := [
    CatalogueSong(11, "Don't Stop Me Now", "Queen", "3:29", "Crowd-pleaser"),
    CatalogueSong(12, "Mr. Brightside", "The Killers", "3:42", "Belter"),
    CatalogueSong(13, "Valerie", "Amy Winehouse", "3:40", "Groove"),
    CatalogueSong(14, "Wonderwall", "Oasis", "4:18", "Singalong"),
    CatalogueSong(15, "Livin' on a Prayer", "Bon Jovi", "4:11", "Hands up"),
    CatalogueSong(16, "Proud Mary", "Tina Turner", "5:26", "Showstopper"),
    CatalogueSong(17, "Superstition", "Stevie Wonder", "4:26", "Funk"),
    CatalogueSong(18, "Rolling in the Deep", "Adele", "3:49", "Power"),
    CatalogueSong(19, "I Wanna Dance with Somebody", "Whitney Houston", "4:52", "Party"),
    CatalogueSong(20, "Take On Me", "a-ha", "3:48", "High notes"),
    CatalogueSong(21, "Free Fallin'", "Tom Petty", "4:16", "Chill"),
    CatalogueSong(22, "Use Somebody", "Kings of Leon", "3:51", "Anthem"),
    CatalogueSong(23, "Shut Up and Dance", "WALK THE MOON", "3:19", "Bounce"),
    CatalogueSong(24, "Zombie", "The Cranberries", "5:06", "Raw"),
    CatalogueSong(25, "I Will Survive", "Gloria Gaynor", "3:17", "Iconic"),
    CatalogueSong(26, "Sweet Child O' Mine", "Guns N' Roses", "5:56", "Guitar"),
    CatalogueSong(27, "Creep", "Radiohead", "3:58", "Feels"),
    CatalogueSong(28, "9 to 5", "Dolly Parton", "2:43", "Joy"),
    CatalogueSong(29, "Dancing Queen", "ABBA", "3:50", "Classic"),
    CatalogueSong(30, "Sex on Fire", "Kings of Leon", "3:24", "Rock")
  ]

  /** The catalogue is numbered 11 to 30 in order, so a number picks at most one song. */
  lemma CatalogueNumbering()
    ensures |Songs| == 20
    ensures forall i :: 0 <= i < |Songs| ==> Songs[i].no == 11 + i
  {
  }

  function Min(a: int, b: int): int { if a <= b then a else b }
  function Max(a: int, b: int): int { if a >= b then a else b }

  /** `clamp(n, lo, hi)`, that is `max(lo, min(hi, n))`: inside a non-empty range the value is
      pulled to the nearer end; with an empty range the lower bound wins. */
  function Clamp(n: int, lo: int, hi: int): (r: int)
    ensures lo <= hi ==> lo <= r <= hi
    ensures lo <= n <= hi ==> r == n
    ensures n < lo ==> r == lo
    ensures lo <= hi < n ==> r == hi
    ensures hi < lo ==> r == lo
  {
    Max(lo, Min(hi, n))
  }

  /** `formatNo`: the number as at least two decimal digits, which reads back as the number. */
  function FormatNo(n: nat): (r: string)
    ensures AllDigits(r) && DecimalValue(r) == n
    ensures n < 100 ==> |r| == 2
    ensures n >= 10 ==> r == NatToString(n)
  {
    var s := NatToString(n);
    var r := PadStart(s, 2, '0');
    LeadingZeros(r[..|r| - |s|], s);
    assert r == r[..|r| - |s|] + s;
    r
  }

  // ----- performer names -----

  /** `names.map(n => n.trim()).filter(Boolean)`: the trimmed names that are not blank. */
  function Clean(names: seq<string>): (r: seq<string>)
    ensures |r| <= |names|
    ensures forall i :: 0 <= i < |r| ==> r[i] != ""
    ensures IsSubsequence(r, Trimmed(names))
    ensures forall s :: multiset(r)[s] == if s != "" then multiset(Trimmed(names))[s] else 0
  {
    FilterSubsequence(Trimmed(names), (s: string) => s != "");
    FilterMultiset(Trimmed(names), (s: string) => s != "");
    Filter(Trimmed(names), (s: string) => s != "")
  }

  /** Every name trimmed, in order. */
  function Trimmed(names: seq<string>): (r: seq<string>)
    ensures |r| == |names| && forall i :: 0 <= i < |r| ==> r[i] == Trim(names[i])
  {
    seq(|names|, i requires 0 <= i < |names| => Trim(names[i]))
  }

  /** `joinNames`: the cleaned names as "A", "A & B" or "A, B & C", and a dash when none is left. */
  function JoinNames(names: seq<string>): string {
    JoinCleaned(Clean(names))
  }

  /** The joining step of `joinNames`, on names already cleaned. */
  function JoinCleaned(cleaned: seq<string>): string {
    if |cleaned| == 0 then "\U{2014}"
    else if |cleaned| == 1 then cleaned[0]
    else if |cleaned| == 2 then cleaned[0] + " & " + cleaned[1]
    else Join(cleaned[..|cleaned| - 1], ", ") + " & " + cleaned[|cleaned| - 1]
  }

  /** How a list of names reads aloud, built from the front: each name but the last two is
      followed by ", ", the last two are joined by " & "; nobody reads as a dash. */
  function Listing(names: seq<string>): string
    decreases |names|
  {
    if |names| == 0 then "\U{2014}"
    else if |names| == 1 then names[0]
    else if |names| == 2 then names[0] + " & " + names[1]
    else names[0] + ", " + Listing(names[1..])
  }

  lemma {:induction false} JoinThenAmpersand(c: seq<string>)
    requires |c| >= 3
    ensures Join(c[..|c| - 1], ", ") + " & " + c[|c| - 1] == Listing(c)
    decreases |c|
  {
    var init := c[..|c| - 1];
    assert init[1..] == c[1..][..|c| - 2];
    if |c| == 3 {
      assert Join(init[1..], ", ") == c[1];
    } else {
      JoinThenAmpersand(c[1..]);
    }
  }

  /** `joinNames` reads the cleaned names exactly as `Listing` does. */
  lemma JoinNamesIsListing(names: seq<string>)
    ensures JoinNames(names) == Listing(Clean(names))
  {
    JoinCleanedIsListing(Clean(names));
  }

  lemma JoinCleanedIsListing(c: seq<string>)
    ensures JoinCleaned(c) == Listing(c)
  {
    if |c| >= 3 {
      JoinThenAmpersand(c);
    }
  }

  /** `setNameAt(i, v)`: slot `i` becomes `v`, every other slot and the count stay as they were. */
  function SetNameAt(names: seq<string>, i: int, v: string): (r: seq<string>)
    ensures |r| == |names|
    ensures forall j :: 0 <= j < |names| && j != i ==> r[j] == names[j]
    ensures 0 <= i < |names| ==> r[i] == v
  {
    seq(|names|, j requires 0 <= j < |names| => if j == i then v else names[j])
  }

  /** `addPerformer`: one more empty slot, unless four are already shown. */
  function AddPerformer(names: seq<string>): (r: seq<string>)
    ensures |names| >= 4 ==> r == names
    ensures |names| < 4 ==> |r| == |names| + 1 && r[..|names|] == names && r[|names|] == ""
    ensures 1 <= |names| <= 4 ==> 1 <= |r| <= 4
  {
    if |names| >= 4 then names else names + [""]
  }

  /** `removePerformer`: drops the last slot, but never the only one. */
  function RemovePerformer(names: seq<string>): (r: seq<string>)
    ensures |names| <= 1 ==> r == names
    ensures |names| > 1 ==> |r| == |names| - 1 && r == names[..|r|]
    ensures 1 <= |names| <= 4 ==> 1 <= |r| <= 4
  {
    if |names| <= 1 then names else names[..|names| - 1]
  }

  /** Removing the slot just added restores the list. */
  lemma RemoveUndoesAdd(names: seq<string>)
    requires 1 <= |names| < 4
    ensures RemovePerformer(AddPerformer(names)) == names
  {
  }

  datatype PerformerEdit = SetName(i: int, v: string) | Add | Remove

  function EditNames(names: seq<string>, e: PerformerEdit): seq<string> {
    match e
    case SetName(i, v) => SetNameAt(names, i, v)
    case Add => AddPerformer(names)
    case Remove => RemovePerformer(names)
  }

  function EditAll(names: seq<string>, edits: seq<PerformerEdit>): seq<string>
    decreases |edits|
  {
    if |edits| == 0 then names else EditAll(EditNames(names, edits[0]), edits[1..])
  }

  /** Starting from one empty slot, any sequence of edits leaves between one and four slots. */
  lemma {:induction false} PerformerCountInRange(names: seq<string>, edits: seq<PerformerEdit>)
    requires 1 <= |names| <= 4
    ensures 1 <= |EditAll(names, edits)| <= 4
    decreases |edits|
  {
    if |edits| > 0 {
      PerformerCountInRange(EditNames(names, edits[0]), edits[1..]);
    }
  }

  // ----- keypad -----

  const LeftArrow: string := "\U{2190}"

  /** The buffer shows at most two decimal digits. */
  predicate IsBuffer(digits: string) {
    |digits| <= 2 && AllDigits(digits)
  }

  /** The key matches `/^[0-9]$/`. */
  predicate IsDigitKey(key: string) {
    |key| == 1 && IsDigit(key[0])
  }

  /** `digits.length ? Number(digits) : NaN`, for the digit strings the buffer holds. */
  function SelectedNo(digits: string): (r: Option<nat>)
    ensures r.Some? <==> |digits| > 0 && AllDigits(digits)
  {
    if |digits| == 0 || !AllDigits(digits) then None else Some(DecimalValue(digits))
  }

  /** `byNo.get(no)`: the song with that number; a Map built from the list keeps the last one. */
  function Lookup(songs: seq<CatalogueSong>, no: nat): (r: Option<CatalogueSong>)
    ensures r.Some? <==> exists i :: 0 <= i < |songs| && songs[i].no == no
    ensures r.Some? ==> r.value in songs && r.value.no == no
    decreases |songs|
  {
    if |songs| == 0 then None
    else if songs[|songs| - 1].no == no then Some(songs[|songs| - 1])
    else Lookup(songs[..|songs| - 1], no)
  }

  /** The song the keypad buffer names: present exactly when the buffer is a non-empty digit
      string whose value is one of the catalogue numbers 11 to 30. */
  function SelectedSong(digits: string): (r: Option<CatalogueSong>)
    ensures r.Some? <==> |digits| > 0 && AllDigits(digits) && 11 <= DecimalValue(digits) <= 30
    ensures r.Some? ==> r.value == Songs[DecimalValue(digits) - 11]
  {
    match SelectedNo(digits)
    case None => None
    case Some(n) =>
      LookupCatalogue(n);
      assert Lookup(Songs, n).Some? <==> 11 <= n <= 30;
      Lookup(Songs, n)
  }

  /** The number `n` finds catalogue position `n - 11` for 11..30, and nothing otherwise. */
  lemma LookupCatalogue(n: nat)
    ensures Lookup(Songs, n) == if 11 <= n <= 30 then Some(Songs[n - 11]) else None
  {
    CatalogueNumbering();
    LookupNumbered(Songs, 11, n);
  }

  /** In a list numbered consecutively from `base`, the number `n` finds position `n - base`,
      and a number outside the range finds nothing. */
  lemma {:induction false} LookupNumbered(songs: seq<CatalogueSong>, base: int, n: nat)
    requires forall i :: 0 <= i < |songs| ==> songs[i].no == base + i
    ensures Lookup(songs, n) == if base <= n < base + |songs| then Some(songs[n - base]) else None
    decreases |songs|
  {
    if |songs| > 0 {
      LookupNumbered(songs[..|songs| - 1], base, n);
    }
  }

  /** A card's own number, written as `String(no)`, selects that very card. */
  lemma CardNumberSelectsCard(i: nat)
    requires i < |Songs|
    ensures SelectedSong(NatToString(Songs[i].no)) == Some(Songs[i])
  {
    CatalogueNumbering();
  }

  /** "05" selects nothing, since the numbers run from 11 to 30; nor does an empty buffer. */
  lemma SelectionOutOfRange()
    ensures SelectedSong("05") == None
    ensures SelectedSong("") == None
  {
    assert DecimalValue("05") == 5;
  }

  /** "12", the buffer of the first render, is Mr. Brightside; the mount effect replaces it
      before the page is seen (see `LineupPage.Start`). */
  lemma SelectionTwelve()
    ensures SelectedSong("12") == Some(Songs[1])
    ensures Songs[1].title == "Mr. Brightside"
  {
    assert Songs[1].title == "Mr. Brightside";
    TwoDigitValue('1', '2');
    assert "12" == ['1', '2'];
  }

  /** `pressKey`: "C" empties the buffer, the left arrow drops its last digit, "#" shows the number
      of the randomly drawn catalogue position `pick`, a digit is appended while fewer than two
      are shown (and ignored after that), and any other key changes nothing. */
  function PressKey(digits: string, key: string, pick: nat): (r: string)
    requires pick < |Songs|
    ensures key == "C" ==> r == ""
    ensures key == LeftArrow ==> |r| == if |digits| == 0 then 0 else |digits| - 1
    ensures key == LeftArrow ==> r == digits[..|r|]
    ensures key == "#" ==> SelectedSong(r) == Some(Songs[pick])
    ensures IsDigitKey(key) && |digits| < 2 ==> r == digits + key
    ensures IsDigitKey(key) && |digits| >= 2 ==> r == digits[..2]
    ensures key != "C" && key != LeftArrow && key != "#" && !IsDigitKey(key) ==> r == digits
    ensures IsBuffer(digits) ==> IsBuffer(r)
  {
    if key == "C" then ""
    else if key == LeftArrow then (if |digits| == 0 then "" else digits[..|digits| - 1])
    else if key == "#" then
      CatalogueNumbering();
      CardNumberSelectsCard(pick);
      NatToString(Songs[pick].no)
    else if !IsDigitKey(key) then digits
    else
      var d := digits + key;
      if |d| <= 2 then d else d[..2]
  }

  datatype KeyPress = KeyPress(key: string, pick: nat)

  function PressAll(digits: string, presses: seq<KeyPress>): string
    requires forall i :: 0 <= i < |presses| ==> presses[i].pick < |Songs|
    decreases |presses|
  {
    if |presses| == 0 then digits
    else PressAll(PressKey(digits, presses[0].key, presses[0].pick), presses[1..])
  }

  /** From any buffer of at most two digits, any sequence of key presses leaves at most two. */
  lemma {:induction false} BufferStaysShort(digits: string, presses: seq<KeyPress>)
    requires IsBuffer(digits)
    requires forall i :: 0 <= i < |presses| ==> presses[i].pick < |Songs|
    ensures IsBuffer(PressAll(digits, presses))
    decreases |presses|
  {
    if |presses| > 0 {
      BufferStaysShort(PressKey(digits, presses[0].key, presses[0].pick), presses[1..]);
    }
  }

  // ----- catalogue search -----

  /** The text a song is searched by: "no title artist vibe". */
  function SearchText(s: CatalogueSong): string {
    NatToString(s.no) + " " + s.title + " " + s.artist + " " + s.vibe
  }

  /** The normalised query: trimmed and lower-cased. */
  function Query(filter: string): string {
    ToLower(Trim(filter))
  }

  predicate Matches(s: CatalogueSong, q: string) {
    Includes(ToLower(SearchText(s)), q)
  }

  /** `filteredSongs`: the whole list for a blank query, otherwise only songs whose search text
      contains the query, ignoring case. */
  function FilteredSongs(songs: seq<CatalogueSong>, filter: string): (r: seq<CatalogueSong>)
    ensures AllSpace(filter) ==> r == songs
    ensures !AllSpace(filter) ==> forall i :: 0 <= i < |r| ==> Matches(r[i], Query(filter))
  {
    var q := Query(filter);
    if q == "" then songs else Filter(songs, s => Matches(s, q))
  }

  /** For a non-blank query the result is the order-preserving selection of every matching song,
      each as often as it occurs in the list. */
  lemma FilteredSongsSelection(songs: seq<CatalogueSong>, filter: string)
    requires !AllSpace(filter)
    ensures forall s :: multiset(FilteredSongs(songs, filter))[s] ==
                       (if Matches(s, Query(filter)) then multiset(songs)[s] else 0)
    ensures IsSubsequence(FilteredSongs(songs, filter), songs)
  {
    var q := Query(filter);
    FilterMultiset(songs, s => Matches(s, q));
    FilterSubsequence(songs, s => Matches(s, q));
  }

  function MapChars(s: string, f: char -> char): string {
    seq(|s|, i requires 0 <= i < |s| => f(s[i]))
  }

  lemma {:induction false} TrimStartCommutes(s: string, f: char -> char)
    requires forall c :: IsSpace(f(c)) == IsSpace(c)
    ensures TrimStart(MapChars(s, f)) == MapChars(TrimStart(s), f)
    decreases |s|
  {
    if |s| > 0 {
      assert MapChars(s, f)[1..] == MapChars(s[1..], f);
      TrimStartCommutes(s[1..], f);
    }
  }

  lemma {:induction false} TrimEndCommutes(s: string, f: char -> char)
    requires forall c :: IsSpace(f(c)) == IsSpace(c)
    ensures TrimEnd(MapChars(s, f)) == MapChars(TrimEnd(s), f)
    decreases |s|
  {
    if |s| > 0 {
      assert MapChars(s, f)[..|s| - 1] == MapChars(s[..|s| - 1], f);
      TrimEndCommutes(s[..|s| - 1], f);
    }
  }

  lemma TrimCommutes(s: string, f: char -> char)
    requires forall c :: IsSpace(f(c)) == IsSpace(c)
    ensures Trim(MapChars(s, f)) == MapChars(Trim(s), f)
  {
    TrimStartCommutes(s, f);
    TrimEndCommutes(TrimStart(s), f);
  }

  /** Case mapping never turns a space into a non-space or back. */
  lemma UpperKeepsSpaces()
    ensures forall c :: IsSpace(UpperChar(c)) == IsSpace(c)
  {
  }

  lemma LowerKeepsSpaces()
    ensures forall c :: IsSpace(LowerChar(c)) == IsSpace(c)
  {
  }

  lemma LowerOfMapped(t: string, f: char -> char)
    requires forall c :: LowerChar(f(c)) == LowerChar(c)
    ensures ToLower(MapChars(t, f)) == ToLower(t)
  {
  }

  lemma LowerOfUpper()
    ensures forall c :: LowerChar(UpperChar(c)) == LowerChar(c)
  {
  }

  lemma LowerTwice()
    ensures forall c :: LowerChar(LowerChar(c)) == LowerChar(c)
  {
  }

  lemma QueryIgnoresUpperCase(filter: string)
    ensures Query(ToUpper(filter)) == Query(filter)
  {
    var t := Trim(filter);
    calc {
      Query(ToUpper(filter));
      ToLower(Trim(ToUpper(filter)));
      { assert ToUpper(filter) == MapChars(filter, UpperChar); }
      ToLower(Trim(MapChars(filter, UpperChar)));
      { UpperKeepsSpaces(); TrimCommutes(filter, UpperChar); }
      ToLower(MapChars(t, UpperChar));
      { LowerOfUpper(); LowerOfMapped(t, UpperChar); }
      ToLower(t);
    }
  }

  lemma QueryIgnoresLowerCase(filter: string)
    ensures Query(ToLower(filter)) == Query(filter)
  {
    var t := Trim(filter);
    calc {
      Query(ToLower(filter));
      ToLower(Trim(ToLower(filter)));
      { assert ToLower(filter) == MapChars(filter, LowerChar); }
      ToLower(Trim(MapChars(filter, LowerChar)));
      { LowerKeepsSpaces(); TrimCommutes(filter, LowerChar); }
      ToLower(MapChars(t, LowerChar));
      { LowerTwice(); LowerOfMapped(t, LowerChar); }
      ToLower(t);
    }
  }

  /** The search ignores the case of the query: upper- or lower-casing it first changes nothing. */
  lemma SearchIgnoresCase(songs: seq<CatalogueSong>, filter: string)
    ensures FilteredSongs(songs, ToUpper(filter)) == FilteredSongs(songs, filter)
    ensures FilteredSongs(songs, ToLower(filter)) == FilteredSongs(songs, filter)
  {
    QueryIgnoresUpperCase(filter);
    QueryIgnoresLowerCase(filter);
  }

  // ----- flipbook -----

  /** `Math.max(0, count - 1)`: the last card position (0 for an empty list). */
  function LastIndex(count: nat): nat {
    if count == 0 then 0 else count - 1
  }

  /** `FlipbookBrowser.go(delta)`: the position handed to `setIndex`, if any. The target is the
      clamped position; no call is made when it equals the current one. */
  function FlipTarget(index: int, delta: int, count: nat): (r: Option<int>)
    ensures r.Some? ==> 0 <= r.value <= LastIndex(count) && r.value != index
    ensures r.None? <==> Clamp(index + delta, 0, LastIndex(count)) == index
    ensures 0 <= index + delta <= LastIndex(count) && delta != 0 ==> r == Some(index + delta)
  {
    var next := Clamp(index + delta, 0, LastIndex(count));
    if next == index then None else Some(next)
  }

  /** The effect run when the filtered list changes length: the position is pulled back into the
      list, and kept when already inside it. */
  function Reclamp(index: int, count: nat): (r: int)
    ensures 0 <= r <= LastIndex(count)
    ensures 0 <= index <= LastIndex(count) ==> r == index
  {
    Clamp(index, 0, LastIndex(count))
  }

  datatype FlipEvent = Go(delta: int) | ListResized(count: nat)

  datatype Flipbook = Flipbook(index: int, count: nat)

  function Flip(b: Flipbook, e: FlipEvent): Flipbook {
    match e
    case Go(delta) =>
      (match FlipTarget(b.index, delta, b.count)
       case None => b
       case Some(next) => b.(index := next))
    case ListResized(count) => Flipbook(Reclamp(b.index, count), count)
  }

  function FlipAll(b: Flipbook, events: seq<FlipEvent>): Flipbook
    decreases |events|
  {
    if |events| == 0 then b else FlipAll(Flip(b, events[0]), events[1..])
  }

  /** From a position inside the list, every sequence of moves and list changes keeps it inside. */
  lemma {:induction false} FlipIndexInRange(b: Flipbook, events: seq<FlipEvent>)
    requires 0 <= b.index <= LastIndex(b.count)
    ensures 0 <= FlipAll(b, events).index <= LastIndex(FlipAll(b, events).count)
    decreases |events|
  {
    if |events| > 0 {
      FlipIndexInRange(Flip(b, events[0]), events[1..]);
    }
  }

  /** The card effect: the buffer takes the number of the card at `index`, which then selects
      that card; no card there leaves the buffer alone. It runs on mount, whenever the position
      changes and whenever the filtered list becomes a new object (see `LineupPage`). */
  function ShowCard(filtered: seq<CatalogueSong>, index: int, digits: string): (r: string)
    ensures !(0 <= index < |filtered|) ==> r == digits
    ensures 0 <= index < |filtered| && filtered[index] in Songs ==> SelectedSong(r) == Some(filtered[index])
  {
    if 0 <= index < |filtered| then
      CatalogueCardSelects(filtered[index]);
      NatToString(filtered[index].no)
    else digits
  }

  /** The number of a catalogue card, as the card effect writes it, is two digits that select
      that card. */
  lemma CatalogueCardSelects(s: CatalogueSong)
    ensures s in Songs ==> IsBuffer(NatToString(s.no)) && SelectedSong(NatToString(s.no)) == Some(s)
  {
    if s in Songs {
      var i :| 0 <= i < |Songs| && Songs[i] == s;
      CatalogueNumbering();
      CardNumberSelectsCard(i);
    }
  }

  // ----- lineup -----

  /** A booking in the lineup: who sings which catalogue number. */
  datatype QueueItem = QueueItem(id: string, names: seq<string>, songNo: nat, createdAt: int)

  const SeedQueue: seq<QueueItem> := [
    QueueItem("seed-1", ["Sam"], 12, -1260000),
    QueueItem("seed-2", ["Priya", "Alex"], 19, -840000),
    QueueItem("seed-3", ["Jamie"], 16, -480000)
  ]

  /** `canAdd`: at least one non-blank name and a song on the keypad. */
  predicate CanAdd(names: seq<string>, digits: string) {
    |Clean(names)| > 0 && SelectedSong(digits).Some?
  }

  function FirstFour(names: seq<string>): (r: seq<string>)
    ensures |r| == Min(4, |names|) && r == names[..|r|]
  {
    if |names| <= 4 then names else names[..4]
  }

  /** `coinInAndLock`: without names or a song nothing happens; otherwise exactly one booking,
      with the first four cleaned names and the selected number, goes to the front of the lineup.
      `id` and `now` stand for the random identifier and the clock. */
  function CoinInAndLock(queue: seq<QueueItem>, names: seq<string>, digits: string, id: string, now: int): (r: seq<QueueItem>)
    ensures !CanAdd(names, digits) ==> r == queue
    ensures CanAdd(names, digits) ==>
      && |r| == |queue| + 1 && r[1..] == queue
      && r[0].id == id && r[0].createdAt == now
      && r[0].names == FirstFour(Clean(names)) && 1 <= |r[0].names| <= 4
      && 11 <= r[0].songNo <= 30 && SelectedSong(digits) == Some(Songs[r[0].songNo - 11])
  {
    if !CanAdd(names, digits) then queue
    else [QueueItem(id, FirstFour(Clean(names)), SelectedSong(digits).value.no, now)] + queue
  }

  /** The lineup's remove button: `queue.filter(x => x.id !== id)`. */
  function RemoveFromQueue(queue: seq<QueueItem>, id: string): (r: seq<QueueItem>)
    ensures forall i :: 0 <= i < |r| ==> r[i].id != id
    ensures |r| <= |queue|
  {
    Filter(queue, (x: QueueItem) => x.id != id)
  }

  /** Removal keeps exactly the bookings with another id, in their order; an absent id changes
      nothing. */
  lemma RemoveFromQueueKeepsOthers(queue: seq<QueueItem>, id: string)
    ensures forall x :: multiset(RemoveFromQueue(queue, id))[x] == if x.id != id then multiset(queue)[x] else 0
    ensures IsSubsequence(RemoveFromQueue(queue, id), queue)
    ensures (forall i :: 0 <= i < |queue| ==> queue[i].id != id) ==> RemoveFromQueue(queue, id) == queue
  {
    FilterMultiset(queue, (x: QueueItem) => x.id != id);
    FilterSubsequence(queue, (x: QueueItem) => x.id != id);
    if forall i :: 0 <= i < |queue| ==> queue[i].id != id {
      FilterKeepsAll(queue, (x: QueueItem) => x.id != id);
    }
  }

  /** Removing a booking just made with a fresh id gives back the lineup as it was. */
  lemma RemoveUndoesCoinIn(queue: seq<QueueItem>, names: seq<string>, digits: string, id: string, now: int)
    requires forall i :: 0 <= i < |queue| ==> queue[i].id != id
    ensures RemoveFromQueue(CoinInAndLock(queue, names, digits, id, now), id) == queue
  {
    var q := CoinInAndLock(queue, names, digits, id, now);
    FilterKeepsAll(queue, (x: QueueItem) => x.id != id);
    if CanAdd(names, digits) {
      assert q == [q[0]] + queue;
      FilterConcat([q[0]], queue, (x: QueueItem) => x.id != id);
    }
  }

  /** Removing the middle of the three seeded bookings leaves the other two in order. */
  lemma RemoveSeedExample()
    ensures RemoveFromQueue(SeedQueue, "seed-2") == [SeedQueue[0], SeedQueue[2]]
  {
  }
}
