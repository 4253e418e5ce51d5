/** The letter+number song selector: eleven letter buttons A-K, seven number buttons 0-6,
    CLR and OK, a three-character LED, and keyboard shortcuts. A code is a letter followed by
    "01".."06"; OK either flashes the LED red (and it returns to normal after a timeout) or
    shows green, reports the code, and clears the input after a second timeout.

    Two defects of the code are modelled side by side with their corrections (`Variant`):
    the keyboard letter test compares whole key names lexicographically, and the range check
    on the numeric part lets a non-numeric tail (NaN) through. */
module ButtonPanel {
  import opened Text
  import opened Types

  const Letters: string := "ABCDEFGHIJK"
  const Numbers: string := "0123456"

  /** Button `i` of the letter row shows the `i`-th letter of the alphabet, and button `i`
      of the number row the digit `i`. */
  lemma ButtonRows()
    ensures forall i :: 0 <= i < |Letters| ==> Letters[i] as int == 'A' as int + i
    ensures forall i :: 0 <= i < |Numbers| ==> Numbers[i] as int == '0' as int + i
  {
  }

  /** The LED colour. */
  datatype Display = Normal | Error | Success

  /** The one pending timeout kept in `timerRef`. */
  datatype Timer = NoTimer | ErrorFlash | SuccessClear

  datatype Panel = Panel(input: string, display: Display, timer: Timer)

  const Initial: Panel := Panel("", Normal, NoTimer)

  /** The code as written, with both defects corrected, or with only the keyboard handler
      corrected and the validation left as written. */
  datatype Variant = AsWritten | Corrected | KeysFixed

  /** The handlers: a letter or number (from a button or a key), CLR, OK, and the pending
      timeout firing. */
  datatype Event = Letter(letter: string) | Number(digit: string) | ClearPress | EnterPress | TimerFires

  /** What a step reports to the parent: the accepted code passed to `onSelectSong`, if any. */
  datatype Outcome = Outcome(panel: Panel, selected: Option<string>)

  /** The LED text: the input padded with "_" to three characters; longer input is shown whole. */
  function LedText(input: string): (r: string)
    ensures |input| <= 3 ==> |r| == 3
    ensures |input| > 3 ==> r == input
    ensures r[..|input|] == input
    ensures forall i :: |input| <= i < |r| ==> r[i] == '_'
  {
    PadEnd(input, 3, '_')
  }

  // ----- handlers -----

  /** A letter replaces the whole input and resets the LED; a pending timeout keeps running. */
  function LetterPress(p: Panel, letter: string): (r: Panel)
    ensures r.input == letter && r.display == Normal && r.timer == p.timer
  {
    Panel(letter, Normal, p.timer)
  }

  /** A number is appended only after a letter and while fewer than three characters are shown;
      the LED resets and a pending timeout keeps running. */
  function NumberPress(p: Panel, digit: string): (r: Panel)
    ensures 0 < |p.input| < 3 ==> r.input == p.input + digit
    ensures |p.input| == 0 || |p.input| >= 3 ==> r.input == p.input
    ensures r.display == Normal && r.timer == p.timer
  {
    var input := if |p.input| == 0 || |p.input| >= 3 then p.input else p.input + digit;
    Panel(input, Normal, p.timer)
  }

  /** CLR empties the input and resets the LED; a pending timeout keeps running. */
  function ClearInput(p: Panel): (r: Panel)
    ensures r.input == "" && r.display == Normal && r.timer == p.timer
  {
    Panel("", Normal, p.timer)
  }

  /** `num < 1` and `num > 6` as JavaScript evaluates them: false when `num` is NaN. */
  predicate Below(n: Numeric, bound: int) { n.Num? && n.value < bound }
  predicate Above(n: Numeric, bound: int) { n.Num? && n.value > bound }

  /** The rejection test as written, on `charCodeAt(0) - 65` and the parsed number. */
  predicate Rejected(letterIndex: int, num: Numeric) {
    letterIndex < 0 || letterIndex > 10 || Below(num, 1) || Above(num, 6)
  }

  /** The validation OK applies, as written: a three-character input is rejected only when its
      first character is outside A-K or `parseInt` of the other two is a number outside 1..6. */
  predicate AcceptedAsWritten(input: string) {
    |input| == 3 && !Rejected(input[0] as int - 65, ParseIntTwo(input[1], input[2]))
  }

  /** The two-character reading above is `parseInt(input.slice(1), 10)`. */
  lemma AcceptedAsWrittenParses(input: string)
    requires |input| == 3
    ensures AcceptedAsWritten(input) <==> !Rejected(input[0] as int - 65, ParseInt(input[1..]))
  {
    assert input[1..] == [input[1], input[2]];
    ParseIntTwoChars(input[1], input[2]);
  }

  /** The letter index lies in 0..10 exactly for the letters A-K. */
  lemma LetterIndex(c: char, num: Numeric)
    ensures Rejected(c as int - 65, num) <==> !('A' <= c <= 'K') || Below(num, 1) || Above(num, 6)
  {
  }

  /** A song code: a letter A-K, then "0", then a digit 1-6. */
  predicate IsSongCode(input: string) {
    |input| == 3 && 'A' <= input[0] <= 'K' && input[1] == '0' && '1' <= input[2] <= '6'
  }

  predicate Accepts(v: Variant, input: string) {
    match v
    case AsWritten => AcceptedAsWritten(input)
    case Corrected => IsSongCode(input)
    case KeysFixed => AcceptedAsWritten(input)
  }

  /** OK cancels the pending timeout. Input that is not three characters long, or fails the
      validation, turns the LED red and schedules it back to normal; an accepted code turns it
      green, is reported once, and schedules the input to be cleared. The input is kept. */
  function EnterPressed(p: Panel, v: Variant): (r: Outcome)
    ensures r.panel.input == p.input
    ensures |p.input| != 3 ==> r.panel.display == Error && r.panel.timer == ErrorFlash && r.selected == None
    ensures |p.input| == 3 && !Accepts(v, p.input) ==>
      r.panel.display == Error && r.panel.timer == ErrorFlash && r.selected == None
    ensures |p.input| == 3 && Accepts(v, p.input) ==>
      r.panel.display == Success && r.panel.timer == SuccessClear && r.selected == Some(p.input)
    ensures v == Corrected && r.selected.Some? ==> IsSongCode(r.selected.value)
  {
    if |p.input| != 3 || !Accepts(v, p.input) then Outcome(Panel(p.input, Error, ErrorFlash), None)
    else Outcome(Panel(p.input, Success, SuccessClear), Some(p.input))
  }

  /** The pending timeout fires: after an error the LED returns to normal; after a success the
      input is cleared as well. With nothing pending nothing happens. */
  function TimerFired(p: Panel): (r: Panel)
    ensures r.timer == NoTimer
    ensures p.timer == NoTimer ==> r == p
    ensures p.timer == ErrorFlash ==> r.input == p.input && r.display == Normal
    ensures p.timer == SuccessClear ==> r.input == "" && r.display == Normal
  {
    match p.timer
    case NoTimer => p
    case ErrorFlash => Panel(p.input, Normal, NoTimer)
    case SuccessClear => Panel("", Normal, NoTimer)
  }

  function Step(p: Panel, e: Event, v: Variant): Outcome {
    match e
    case Letter(letter) => Outcome(LetterPress(p, letter), None)
    case Number(digit) => Outcome(NumberPress(p, digit), None)
    case ClearPress => Outcome(ClearInput(p), None)
    case EnterPress => EnterPressed(p, v)
    case TimerFires => Outcome(TimerFired(p), None)
  }

  // ----- buttons -----

  datatype Button = LetterButton(i: nat) | NumberButton(i: nat) | ClearButton | OkButton

  predicate ValidButton(b: Button) {
    match b
    case LetterButton(i) => i < |Letters|
    case NumberButton(i) => i < |Numbers|
    case _ => true
  }

  function ButtonEvent(b: Button): Event
    requires ValidButton(b)
  {
    match b
    case LetterButton(i) => Letter([Letters[i]])
    case NumberButton(i) => Number([Numbers[i]])
    case ClearButton => ClearPress
    case OkButton => EnterPress
  }

  /** What the buttons can put in the input: nothing, or a letter A-K followed by at most two
      digits 0-6. */
  predicate ButtonInput(input: string) {
    || input == ""
    || (&& 1 <= |input| <= 3
        && 'A' <= input[0] <= 'K'
        && forall i :: 1 <= i < |input| ==> '0' <= input[i] <= '6')
  }

  /** Letters and digits as one-character events, which is all the buttons send. */
  predicate SingleCharEvent(e: Event) {
    match e
    case Letter(l) => |l| == 1 && 'A' <= l[0] <= 'K'
    case Number(d) => |d| == 1 && '0' <= d[0] <= '6'
    case _ => true
  }

  /** Every one-character event keeps the input within what the buttons can produce. */
  lemma StepKeepsButtonInput(p: Panel, e: Event, v: Variant)
    requires ButtonInput(p.input) && SingleCharEvent(e)
    ensures ButtonInput(Step(p, e, v).panel.input)
  {
  }

  /** For inputs the buttons can produce, the validation as written accepts exactly the 66 song
      codes: a two-digit tail of 0-6 digits lies in 1..6 only as "01".."06". */
  lemma ValidationOnButtonInput(input: string)
    requires ButtonInput(input) && |input| == 3
    ensures AcceptedAsWritten(input) <==> IsSongCode(input)
  {
    assert '0' <= input[1] <= '6' && '0' <= input[2] <= '6';
    LetterIndex(input[0], ParseIntTwo(input[1], input[2]));
  }

  /** Finding, as written: a non-numeric tail makes `parseInt` NaN, both range comparisons are
      false, and "END" (what the End key types, see below) is reported as a song code; a tail
      that merely starts with a digit 1-6 passes too. */
  lemma NaNTailAccepted()
    ensures AcceptedAsWritten("END") && !IsSongCode("END")
    ensures AcceptedAsWritten("A1x") && !IsSongCode("A1x")
  {
    LetterIndex('E', NaN);
    LetterIndex('A', Num(1));
  }

  // ----- keyboard -----

  /** The keyboard handler's decision for one key. */
  datatype KeyAction = LetterKey(letter: string) | NumberKey(digit: string) | ClearKey | EnterKey
                     | NavigateUp | NavigateDown | NoAction

  /** The keyboard handler as written: the upper-cased key name is compared with "A".."K" and
      "0".."6" as strings, before the named keys are looked at. */
  function DispatchAsWritten(key: string): (r: KeyAction)
    ensures r.LetterKey? <==> (var up := ToUpper(key); (|up| > 0 && 'A' <= up[0] <= 'J') || up == "K")
    ensures r.LetterKey? ==> r.letter == ToUpper(key)
    ensures r.NumberKey? ==> r.digit == ToUpper(key)
  {
    var up := ToUpper(key);
    AtLeastA(up);
    AtMostK(up);
    if LexLessEq("A", up) && LexLessEq(up, "K") then LetterKey(up)
    else if LexLessEq("0", up) && LexLessEq(up, "6") then NumberKey(up)
    else if key == "Backspace" then ClearKey
    else if key == "Enter" then EnterKey
    else if key == "ArrowUp" then NavigateUp
    else if key == "ArrowDown" then NavigateDown
    else NoAction
  }

  /** The keyboard handler with the evident intent: only a one-character key is a letter or a
      number; Backspace clears, Enter submits, the arrows navigate. */
  function DispatchCorrected(key: string): (r: KeyAction)
    ensures r.LetterKey? <==> |key| == 1 && 'A' <= UpperChar(key[0]) <= 'K'
    ensures r.LetterKey? ==> r.letter == [UpperChar(key[0])]
    ensures r.NumberKey? <==> |key| == 1 && '0' <= key[0] <= '6'
    ensures r.NumberKey? ==> r.digit == key
    ensures r == ClearKey <==> key == "Backspace"
    ensures r == EnterKey <==> key == "Enter"
    ensures r == NavigateUp <==> key == "ArrowUp"
    ensures r == NavigateDown <==> key == "ArrowDown"
  {
    var up := ToUpper(key);
    if |up| == 1 && 'A' <= up[0] <= 'K' then LetterKey(up)
    else if |up| == 1 && '0' <= up[0] <= '6' then NumberKey(up)
    else if key == "Backspace" then ClearKey
    else if key == "Enter" then EnterKey
    else if key == "ArrowUp" then NavigateUp
    else if key == "ArrowDown" then NavigateDown
    else NoAction
  }

  function Dispatch(key: string, v: Variant): KeyAction {
    match v
    case AsWritten => DispatchAsWritten(key)
    case Corrected => DispatchCorrected(key)
    case KeysFixed => DispatchCorrected(key)
  }

  lemma AtLeastA(s: string)
    ensures LexLessEq("A", s) <==> |s| > 0 && s[0] >= 'A'
  {
    assert "A"[1..] == [];
    if |s| > 0 {
      assert LexLess(s, "A") == if s[0] != 'A' then s[0] < 'A' else LexLess(s[1..], []);
    }
  }

  lemma AtMostK(s: string)
    ensures LexLessEq(s, "K") <==> |s| == 0 || s[0] < 'K' || s == "K"
  {
    assert "K"[1..] == [];
    if |s| > 0 {
      assert LexLess("K", s) == if s[0] != 'K' then 'K' < s[0] else LexLess([], s[1..]);
      if s[0] == 'K' && |s| == 1 {
        assert s == "K";
      }
    }
  }

  /** The letter test as written holds exactly for key names whose upper-cased form starts with
      A to J, and for "K" itself: any length, not just one character. */
  lemma KeyboardLetterTest(key: string)
    ensures DispatchAsWritten(key).LetterKey? <==>
      (var up := ToUpper(key); (|up| > 0 && 'A' <= up[0] <= 'J') || up == "K")
  {
    AtLeastA(ToUpper(key));
    AtMostK(ToUpper(key));
  }

  /** Finding, as written: Backspace, Enter, ArrowUp and ArrowDown upper-case to names starting
      with B, E and A, so they are taken for letters, and the branches meant for them are never
      reached by any key. */
  lemma NamedKeysUnreachable(key: string)
    ensures DispatchAsWritten(key).LetterKey? || DispatchAsWritten(key).NumberKey? || DispatchAsWritten(key).NoAction?
    ensures DispatchAsWritten("Enter") == LetterKey("ENTER")
    ensures DispatchAsWritten("Backspace") == LetterKey("BACKSPACE")
    ensures DispatchAsWritten("End") == LetterKey("END")
  {
    assert ToUpper("Enter") == "ENTER";
    assert ToUpper("Backspace") == "BACKSPACE";
    assert ToUpper("ArrowUp") == "ARROWUP";
    assert ToUpper("ArrowDown") == "ARROWDOWN";
    assert ToUpper("End") == "END";
    KeyboardLetterTest(key);
    KeyboardLetterTest("Enter");
    KeyboardLetterTest("Backspace");
    KeyboardLetterTest("End");
  }

  /** Corrected: the named keys reach their handlers. */
  lemma CorrectedNamedKeys()
    ensures DispatchCorrected("Enter") == EnterKey
    ensures DispatchCorrected("Backspace") == ClearKey
    ensures DispatchCorrected("ArrowUp") == NavigateUp
    ensures DispatchCorrected("ArrowDown") == NavigateDown
    ensures DispatchCorrected("End") == NoAction
  {
    assert ToUpper("Enter") == "ENTER";
    assert ToUpper("Backspace") == "BACKSPACE";
    assert ToUpper("ArrowUp") == "ARROWUP";
    assert ToUpper("ArrowDown") == "ARROWDOWN";
    assert ToUpper("End") == "END";
  }

  /** Corrected: letters and numbers arrive as the single characters the buttons send. */
  lemma CorrectedDispatch(key: string)
    ensures DispatchCorrected(key).LetterKey? ==> |DispatchCorrected(key).letter| == 1
    ensures DispatchCorrected(key).LetterKey? ==> DispatchCorrected(key).letter[0] in Letters
    ensures DispatchCorrected(key).NumberKey? ==> DispatchCorrected(key).digit[0] in Numbers
  {
    var up := ToUpper(key);
    if |up| == 1 && 'A' <= up[0] <= 'K' {
      assert up[0] == Letters[up[0] as int - 'A' as int];
    } else if |up| == 1 && '0' <= up[0] <= '6' {
      assert up[0] == Numbers[up[0] as int - '0' as int];
    }
  }

  /** An input event from the keyboard or a button. */
  datatype Input = Key(key: string) | Press(button: Button) | Timeout

  predicate ValidInput(i: Input) {
    !i.Press? || ValidButton(i.button)
  }

  /** One input: a key goes through the keyboard handler (the navigation keys call the parent
      and leave the panel alone), a button through its handler. */
  function Handle(p: Panel, i: Input, v: Variant): Outcome
    requires ValidInput(i)
  {
    match i
    case Timeout => Step(p, TimerFires, v)
    case Press(b) => Step(p, ButtonEvent(b), v)
    case Key(key) =>
      match Dispatch(key, v)
      case LetterKey(l) => Step(p, Letter(l), v)
      case NumberKey(d) => Step(p, Number(d), v)
      case ClearKey => Step(p, ClearPress, v)
      case EnterKey => Step(p, EnterPress, v)
      case _ => Outcome(p, None)
  }

  /** The code a step reports, as a sequence of zero or one codes. */
  function Reported(o: Outcome): seq<string> {
    if o.selected.Some? then [o.selected.value] else []
  }

  /** The final panel and the codes reported along the way. */
  function Run(p: Panel, inputs: seq<Input>, v: Variant): (Panel, seq<string>)
    requires forall k :: 0 <= k < |inputs| ==> ValidInput(inputs[k])
    decreases |inputs|
  {
    if |inputs| == 0 then (p, [])
    else
      var o := Handle(p, inputs[0], v);
      var rest := Run(o.panel, inputs[1..], v);
      (rest.0, Reported(o) + rest.1)
  }

  /** A run that starts with one step. */
  lemma RunCons(p: Panel, i: Input, rest: seq<Input>, v: Variant)
    requires ValidInput(i) && forall k :: 0 <= k < |rest| ==> ValidInput(rest[k])
    ensures Run(p, [i] + rest, v) ==
      (Run(Handle(p, i, v).panel, rest, v).0, Reported(Handle(p, i, v)) + Run(Handle(p, i, v).panel, rest, v).1)
  {
    assert ([i] + rest)[1..] == rest;
  }

  /** A first step that reports nothing only moves the panel on. */
  lemma RunQuiet(p: Panel, i: Input, rest: seq<Input>, v: Variant)
    requires ValidInput(i) && forall k :: 0 <= k < |rest| ==> ValidInput(rest[k])
    requires Handle(p, i, v).selected == None
    ensures Run(p, [i] + rest, v) == Run(Handle(p, i, v).panel, rest, v)
  {
    RunCons(p, i, rest, v);
    assert Reported(Handle(p, i, v)) == [];
    assert [] + Run(Handle(p, i, v).panel, rest, v).1 == Run(Handle(p, i, v).panel, rest, v).1;
  }

  /** A run of one step. */
  lemma RunOne(p: Panel, i: Input, v: Variant)
    requires ValidInput(i)
    ensures Run(p, [i], v) == (Handle(p, i, v).panel, Reported(Handle(p, i, v)))
  {
    RunCons(p, i, [], v);
    assert [i] + [] == [i];
    assert Reported(Handle(p, i, v)) + [] == Reported(Handle(p, i, v));
  }

  /** With the corrections, every key keeps the panel within button-producible input. */
  lemma KeyCorrectedKeepsButtonInput(p: Panel, key: string)
    requires ButtonInput(p.input)
    ensures ButtonInput(Handle(p, Key(key), Corrected).panel.input)
  {
    CorrectedDispatch(key);
    match DispatchCorrected(key)
    case LetterKey(l) => StepKeepsButtonInput(p, Letter(l), Corrected);
    case NumberKey(d) => StepKeepsButtonInput(p, Number(d), Corrected);
    case _ =>
  }

  /** With the corrections, every input keeps the panel within button-producible input. */
  lemma HandleCorrectedKeepsButtonInput(p: Panel, i: Input)
    requires ButtonInput(p.input) && ValidInput(i)
    ensures ButtonInput(Handle(p, i, Corrected).panel.input)
  {
    match i
    case Timeout =>
    case Press(b) => StepKeepsButtonInput(p, ButtonEvent(b), Corrected);
    case Key(key) => KeyCorrectedKeepsButtonInput(p, key);
  }

  /** With the corrections, whatever is typed or pressed, every code reported is a song code. */
  lemma {:induction false} CorrectedReportsOnlySongCodes(p: Panel, inputs: seq<Input>)
    requires ButtonInput(p.input)
    requires forall k :: 0 <= k < |inputs| ==> ValidInput(inputs[k])
    ensures ButtonInput(Run(p, inputs, Corrected).0.input)
    ensures forall k :: 0 <= k < |Run(p, inputs, Corrected).1| ==> IsSongCode(Run(p, inputs, Corrected).1[k])
    decreases |inputs|
  {
    if |inputs| > 0 {
      HandleCorrectedKeepsButtonInput(p, inputs[0]);
      var o := Handle(p, inputs[0], Corrected);
      CorrectedReportsOnlySongCodes(o.panel, inputs[1..]);
    }
  }

  /** On button-producible input, the keyboard fix alone does what both fixes do. */
  lemma KeysFixedAgrees(p: Panel, i: Input)
    requires ButtonInput(p.input) && ValidInput(i)
    ensures Handle(p, i, KeysFixed) == Handle(p, i, Corrected)
  {
    if |p.input| == 3 {
      ValidationOnButtonInput(p.input);
    }
    assert EnterPressed(p, KeysFixed) == EnterPressed(p, Corrected);
  }

  /** The keyboard fix is enough: once only one-character keys type, the input never leaves
      what the buttons can produce, where the validation as written accepts exactly the song
      codes, so every run behaves as with both fixes and reports only song codes. */
  lemma {:induction false} KeyFixAloneSuffices(p: Panel, inputs: seq<Input>)
    requires ButtonInput(p.input)
    requires forall k :: 0 <= k < |inputs| ==> ValidInput(inputs[k])
    ensures Run(p, inputs, KeysFixed) == Run(p, inputs, Corrected)
    ensures forall k :: 0 <= k < |Run(p, inputs, KeysFixed).1| ==> IsSongCode(Run(p, inputs, KeysFixed).1[k])
    decreases |inputs|
  {
    CorrectedReportsOnlySongCodes(p, inputs);
    if |inputs| > 0 {
      KeysFixedAgrees(p, inputs[0]);
      HandleCorrectedKeepsButtonInput(p, inputs[0]);
      KeyFixAloneSuffices(Handle(p, inputs[0], Corrected).panel, inputs[1..]);
    }
  }

  /** On button-producible input, a button does the same in both variants. */
  lemma ButtonAgrees(p: Panel, b: Button)
    requires ButtonInput(p.input) && ValidButton(b)
    ensures Handle(p, Press(b), AsWritten) == Handle(p, Press(b), Corrected)
    ensures ButtonInput(Handle(p, Press(b), Corrected).panel.input)
  {
    match b
    case LetterButton(i) =>
      ButtonRows();
      StepKeepsButtonInput(p, Letter([Letters[i]]), Corrected);
    case NumberButton(i) =>
      ButtonRows();
      StepKeepsButtonInput(p, Number([Numbers[i]]), Corrected);
    case ClearButton =>
    case OkButton =>
      if |p.input| == 3 {
        ValidationOnButtonInput(p.input);
        assert Accepts(AsWritten, p.input) == Accepts(Corrected, p.input);
      }
      assert EnterPressed(p, AsWritten) == EnterPressed(p, Corrected);
  }

  predicate ButtonsOnly(inputs: seq<Input>) {
    forall k :: 0 <= k < |inputs| ==> inputs[k].Press? && ValidButton(inputs[k].button)
  }

  /** With only the buttons, the code as written behaves like the corrected one: the same panel
      and the same reported codes. */
  lemma {:induction false} ButtonsAloneAgree(p: Panel, inputs: seq<Input>)
    requires ButtonInput(p.input) && ButtonsOnly(inputs)
    ensures Run(p, inputs, AsWritten) == Run(p, inputs, Corrected)
    decreases |inputs|
  {
    if |inputs| > 0 {
      ButtonAgrees(p, inputs[0].button);
      ButtonsAloneAgree(Handle(p, inputs[0], Corrected).panel, inputs[1..]);
    }
  }

  /** Finding, both defects together, as written: pressing End and then OK reports "END". */
  lemma EndKeyThenOkReportsEnd()
    ensures Run(Initial, [Key("End"), Press(OkButton)], AsWritten).1 == ["END"]
  {
    NamedKeysUnreachable("End");
    NaNTailAccepted();
    var p1 := Panel("END", Normal, NoTimer);
    assert Handle(Initial, Key("End"), AsWritten) == Outcome(p1, None);
    assert Accepts(AsWritten, p1.input);
    assert EnterPressed(p1, AsWritten).selected == Some("END");
    assert Handle(p1, Press(OkButton), AsWritten) == EnterPressed(p1, AsWritten);
    assert [Key("End"), Press(OkButton)][1..] == [Press(OkButton)];
  }

  /** The keys A, 0 and 1 type "A01" in both variants. */
  lemma TypeA01(v: Variant)
    ensures Handle(Initial, Key("a"), v) == Outcome(Panel("A", Normal, NoTimer), None)
    ensures Handle(Panel("A", Normal, NoTimer), Key("0"), v) == Outcome(Panel("A0", Normal, NoTimer), None)
    ensures Handle(Panel("A0", Normal, NoTimer), Key("1"), v) == Outcome(Panel("A01", Normal, NoTimer), None)
  {
    LetterKeyA();
    DigitKeys();
  }

  /** Three steps and a last one, as a run. */
  lemma RunFour(p: Panel, i1: Input, i2: Input, i3: Input, i4: Input, v: Variant)
    requires ValidInput(i1) && ValidInput(i2) && ValidInput(i3) && ValidInput(i4)
    requires Handle(p, i1, v).selected == None
    requires Handle(Handle(p, i1, v).panel, i2, v).selected == None
    requires Handle(Handle(Handle(p, i1, v).panel, i2, v).panel, i3, v).selected == None
    ensures var q := Handle(Handle(Handle(p, i1, v).panel, i2, v).panel, i3, v).panel;
            Run(p, [i1, i2, i3, i4], v) == (Handle(q, i4, v).panel, Reported(Handle(q, i4, v)))
  {
    var p1 := Handle(p, i1, v).panel;
    var p2 := Handle(p1, i2, v).panel;
    var p3 := Handle(p2, i3, v).panel;
    RunOne(p3, i4, v);
    RunQuiet(p2, i3, [i4], v);
    assert [i3] + [i4] == [i3, i4];
    RunQuiet(p1, i2, [i3, i4], v);
    assert [i2] + [i3, i4] == [i2, i3, i4];
    RunQuiet(p, i1, [i2, i3, i4], v);
    assert [i1] + [i2, i3, i4] == [i1, i2, i3, i4];
  }

  /** As written, typing A, 0, 1 and then Enter replaces the code by "ENTER" and nothing is
      reported. */
  lemma EnterKeyOverwritesCode()
    ensures Run(Initial, [Key("a"), Key("0"), Key("1"), Key("Enter")], AsWritten) == (Panel("ENTER", Normal, NoTimer), [])
  {
    TypeA01(AsWritten);
    NamedKeysUnreachable("Enter");
    RunFour(Initial, Key("a"), Key("0"), Key("1"), Key("Enter"), AsWritten);
  }

  /** With the corrections, the same keys report "A01". */
  lemma EnterKeyReportsCode()
    ensures Run(Initial, [Key("a"), Key("0"), Key("1"), Key("Enter")], Corrected) == (Panel("A01", Success, SuccessClear), ["A01"])
  {
    TypeA01(Corrected);
    CorrectedNamedKeys();
    assert IsSongCode("A01");
    RunFour(Initial, Key("a"), Key("0"), Key("1"), Key("Enter"), Corrected);
  }

  lemma LetterKeyA()
    ensures DispatchAsWritten("a") == LetterKey("A") && DispatchCorrected("a") == LetterKey("A")
  {
    assert ToUpper("a") == "A";
    KeyboardLetterTest("a");
  }

  lemma DigitKeys()
    ensures DispatchAsWritten("0") == NumberKey("0") && DispatchCorrected("0") == NumberKey("0")
    ensures DispatchAsWritten("1") == NumberKey("1") && DispatchCorrected("1") == NumberKey("1")
  {
    assert ToUpper("0") == "0";
    assert ToUpper("1") == "1";
    AtLeastA("0");
    AtLeastA("1");
    assert "0"[1..] == [] && "6"[1..] == [];
    assert LexLessEq("0", "0") && LexLessEq("0", "6") && LexLessEq("0", "1") && LexLessEq("1", "6");
  }

  /** Only OK cancels the success timeout: a letter pressed after an accepted code is wiped when
      that timeout fires. */
  lemma SuccessTimeoutOutlivesLetter(p: Panel, letter: string, v: Variant)
    requires |p.input| == 3 && Accepts(v, p.input)
    ensures var q := EnterPressed(p, v).panel;
            TimerFired(LetterPress(q, letter)) == Panel("", Normal, NoTimer)
  {
  }
}
