/** The record player animation, as both the jukebox component and the standalone page run
    it: Play slides the current record out, and three timeouts then raise the platter, lift the
    record and start playing; Reset returns to idle and moves on to the next of fifteen records.
    The component can also be started by its parent, and tells the parent when a record has
    played for a while. Timeouts are events; their durations only fix their order. */
module Wurlitzer {
  /** The animation stages, in the order they are passed through. */
  datatype Stage = Idle | Sliding | Rising | Lifting | Playing

  function Rank(s: Stage): nat {
    match s
    case Idle => 0
    case Sliding => 1
    case Rising => 2
    case Lifting => 3
    case Playing => 4
  }

  /** The three stage timeouts Play schedules, in the order they fire. */
  const Scheduled: seq<Stage> := [Rising, Lifting, Playing]

  /** The number of records in the stack. */
  const RecordCount: nat := 15

  /** The player: its stage, the current record, the stage timeouts still pending (oldest
      first), and whether the "played" notification timeout is pending. */
  datatype Deck = Deck(stage: Stage, record: int, pending: seq<Stage>, notifyArmed: bool)

  const Initial: Deck := Deck(Idle, 0, [], false)

  /** The inputs: the Play and Reset buttons, the parent's trigger (the component only), a
      stage timeout, and the notification timeout. The trigger is a prop the parent holds, and
      its effect runs again on every stage change while it stays on; `Trigger(true)` stands for
      each such run, so a trigger held on through a reset starts the next play at once. */
  datatype Event = PlayPressed | ResetPressed | Trigger(on: bool) | StageTimeout | NotifyTimeout

  /** `handlePlay`: only when idle, the record starts sliding and the three stage timeouts are
      scheduled. */
  function HandlePlay(d: Deck): (r: Deck)
    ensures d.stage == Idle ==> r.stage == Sliding && r.pending == d.pending + Scheduled
    ensures d.stage != Idle ==> r == d
  {
    if d.stage != Idle then d else d.(stage := Sliding, pending := d.pending + Scheduled)
  }

  /** `handleReset`: back to idle and on to the next record, wrapping after the fifteenth.
      Pending stage timeouts are not cancelled. */
  function HandleReset(d: Deck): (r: Deck)
    ensures r.stage == Idle && r.pending == d.pending
    ensures 0 <= d.record < RecordCount - 1 ==> r.record == d.record + 1
    ensures d.record == RecordCount - 1 ==> r.record == 0
  {
    EnterStage(d, Idle).(record := (d.record + 1) % RecordCount)
  }

  /** A stage change, with the effect that arms the notification on entering playing and
      cancels it on leaving. */
  function EnterStage(d: Deck, s: Stage): (r: Deck)
    ensures r.stage == s && r.record == d.record && r.pending == d.pending
    ensures s == Playing && d.stage != Playing ==> r.notifyArmed
    ensures s == Playing && d.stage == Playing ==> r.notifyArmed == d.notifyArmed
    ensures s != Playing ==> !r.notifyArmed
  {
    var armed := if s != Playing then false else d.notifyArmed || d.stage != Playing;
    d.(stage := s, notifyArmed := armed)
  }

  /** One event, and whether the parent was notified. */
  function Step(d: Deck, e: Event): (Deck, bool) {
    match e
    case PlayPressed => (HandlePlay(d), false)
    case Trigger(on) => (if on then HandlePlay(d) else d, false)
    case ResetPressed => (HandleReset(d), false)
    case StageTimeout =>
      if |d.pending| == 0 then (d, false)
      else (EnterStage(d, d.pending[0]).(pending := d.pending[1..]), false)
    case NotifyTimeout =>
      if d.notifyArmed then (d.(notifyArmed := false), true) else (d, false)
  }

  /** The parent's trigger starts a play exactly as the Play button does, and only while idle;
      with the trigger off nothing happens. */
  lemma TriggerActsAsPlay(d: Deck)
    ensures Step(d, Trigger(true)) == Step(d, PlayPressed)
    ensures Step(d, Trigger(true)).0.stage == Sliding <==> d.stage == Idle || d.stage == Sliding
    ensures Step(d, Trigger(false)) == (d, false)
  {
  }

  /** The stage timeouts still due for a stage, when everything follows the schedule. */
  function DueAfter(s: Stage): (r: seq<Stage>)
    ensures r == Scheduled[(if s == Idle then 3 else Rank(s) - 1)..]
  {
    match s
    case Idle => []
    case Sliding => [Rising, Lifting, Playing]
    case Rising => [Lifting, Playing]
    case Lifting => [Playing]
    case Playing => []
  }

  /** The player follows its schedule: the pending timeouts are exactly the rest of the
      current play, the notification is pending only while playing, and the record is one of
      the fifteen. */
  predicate Consistent(d: Deck) {
    && d.pending == DueAfter(d.stage)
    && (d.notifyArmed ==> d.stage == Playing)
    && 0 <= d.record < RecordCount
  }

  /** The controls offer Reset only while playing (and Play only while idle, which the handler
      checks itself). */
  predicate Offered(d: Deck, e: Event) {
    e.ResetPressed? ==> d.stage == Playing
  }

  lemma InitialConsistent()
    ensures Consistent(Initial)
  {
  }

  /** Every offered event keeps the player on schedule; apart from Reset, which goes from
      playing to idle, the stage only moves forward, one stage at a time. */
  lemma StepForward(d: Deck, e: Event)
    requires Consistent(d) && Offered(d, e)
    ensures Consistent(Step(d, e).0)
    ensures e.ResetPressed? ==> d.stage == Playing && Step(d, e).0.stage == Idle
    ensures !e.ResetPressed? ==> Rank(d.stage) <= Rank(Step(d, e).0.stage) <= Rank(d.stage) + 1
  {
    match e
    case StageTimeout => TimeoutForward(d);
    case _ =>
  }

  /** A stage timeout moves an on-schedule player one stage on, or leaves it alone when nothing
      is pending. */
  lemma TimeoutForward(d: Deck)
    requires Consistent(d)
    ensures Consistent(Step(d, StageTimeout).0)
    ensures Rank(Step(d, StageTimeout).0.stage) == if d.pending == [] then Rank(d.stage) else Rank(d.stage) + 1
  {
    match d.stage
    case Sliding => assert d.pending[1..] == [Lifting, Playing];
    case Rising => assert d.pending[1..] == [Playing];
    case Lifting => assert d.pending[1..] == [];
    case _ =>
  }

  /** Notifications still owed: one for a play that has started but not yet notified. */
  function Credit(d: Deck): nat {
    if d.notifyArmed || d.stage == Sliding || d.stage == Rising || d.stage == Lifting then 1 else 0
  }

  /** 1 when the event starts a play: Play, or the trigger on, pressed while idle. */
  function Starts(d: Deck, e: Event): nat {
    if (e.PlayPressed? || (e.Trigger? && e.on)) && d.stage == Idle then 1 else 0
  }

  /** On schedule, an event counts as a start exactly when it takes the player from idle into
      sliding; an ignored Play or trigger is not a start. */
  lemma StartIsPlayBegun(d: Deck, e: Event)
    requires Consistent(d)
    ensures Starts(d, e) == 1 <==> d.stage == Idle && Step(d, e).0.stage == Sliding
  {
  }

  /** A notification uses up the credit of its play; only a play actually started adds
      credit. */
  lemma StepCredit(d: Deck, e: Event)
    requires Consistent(d) && Offered(d, e)
    ensures (if Step(d, e).1 then 1 else 0) + Credit(Step(d, e).0) <= Credit(d) + Starts(d, e)
  {
  }

  function Run(d: Deck, events: seq<Event>): (Deck, nat)
    decreases |events|
  {
    if |events| == 0 then (d, 0)
    else
      var (d1, told) := Step(d, events[0]);
      var rest := Run(d1, events[1..]);
      (rest.0, rest.1 + if told then 1 else 0)
  }

  predicate AllOffered(d: Deck, events: seq<Event>)
    decreases |events|
  {
    |events| == 0 || (Offered(d, events[0]) && AllOffered(Step(d, events[0]).0, events[1..]))
  }

  /** The number of plays a run of events starts. */
  function CountStarts(d: Deck, events: seq<Event>): nat
    decreases |events|
  {
    if |events| == 0 then 0 else Starts(d, events[0]) + CountStarts(Step(d, events[0]).0, events[1..])
  }

  /** Along any run of offered events the player stays on schedule, and the parent is
      notified at most once per play started (plus once for a play already under way). */
  lemma {:induction false} RunOnSchedule(d: Deck, events: seq<Event>)
    requires Consistent(d) && AllOffered(d, events)
    ensures Consistent(Run(d, events).0)
    ensures Run(d, events).1 + Credit(Run(d, events).0) <= Credit(d) + CountStarts(d, events)
    decreases |events|
  {
    if |events| > 0 {
      StepForward(d, events[0]);
      StepCredit(d, events[0]);
      RunOnSchedule(Step(d, events[0]).0, events[1..]);
    }
  }

  /** From idle, Play and the three stage timeouts reach playing, then the notification fires
      once: a second notification timeout does nothing. */
  lemma PlaySequence(d: Deck)
    requires Consistent(d) && d.stage == Idle
    ensures var d1 := Step(d, PlayPressed).0;
            var d2 := Step(d1, StageTimeout).0;
            var d3 := Step(d2, StageTimeout).0;
            var d4 := Step(d3, StageTimeout).0;
            && d1.stage == Sliding && d2.stage == Rising && d3.stage == Lifting && d4.stage == Playing
            && d4.pending == [] && Step(d4, NotifyTimeout).1
            && !Step(Step(d4, NotifyTimeout).0, NotifyTimeout).1
  {
    var d1 := Step(d, PlayPressed).0;
    assert d1.pending == [Rising, Lifting, Playing];
    assert d1.pending[1..] == [Lifting, Playing];
    assert d1.pending[1..][1..] == [Playing];
  }

  /** Reset before the notification fires cancels it. */
  lemma ResetCancelsNotify(d: Deck)
    requires Consistent(d) && d.stage == Playing
    ensures !Step(Step(d, ResetPressed).0, NotifyTimeout).1
  {
  }

  /** Reset does not cancel the stage timeouts: were it pressed during the animation, the
      pending timeouts would carry the idle player on towards playing. */
  lemma EarlyResetKeepsTimeouts()
    ensures var d := Step(Step(Initial, PlayPressed).0, ResetPressed).0;
            d.stage == Idle && Step(d, StageTimeout).0.stage == Rising
  {
  }

  /** Every reset changes the record, and any multiple of fifteen resets brings it back. */
  lemma RecordCycle(d: Deck, n: nat)
    requires 0 <= d.record < RecordCount && n % RecordCount == 0
    ensures HandleReset(d).record != d.record
    ensures ResetMany(d, n).record == d.record
  {
    ResetsAdd(d, n);
    AddWholeCycles(d.record, n);
  }

  lemma AddWholeCycles(a: int, n: nat)
    requires 0 <= a < RecordCount && n % RecordCount == 0
    ensures (a + n) % RecordCount == a
  {
  }

  function ResetMany(d: Deck, n: nat): Deck
    decreases n
  {
    if n == 0 then d else ResetMany(HandleReset(d), n - 1)
  }

  /** `n` resets advance the record by `n`, wrapping after the fifteenth. */
  lemma {:induction false} ResetsAdd(d: Deck, n: nat)
    requires 0 <= d.record < RecordCount
    ensures ResetMany(d, n).record == (d.record + n) % RecordCount
    decreases n
  {
    if n > 0 {
      ResetsAdd(HandleReset(d), n - 1);
      assert ((d.record + 1) % RecordCount + (n - 1)) % RecordCount == (d.record + n) % RecordCount;
    }
  }

  /** The record's height in the stack: eight units per record above it. */
  function RecordStackY(record: int): (y: int)
    ensures 0 <= record < RecordCount ==> 0 <= y <= 112 && y % 8 == 0
    ensures 0 <= record < RecordCount ==> y / 8 + record == 14
  {
    (14 - record) * 8
  }

  /** The stack as drawn: record `i` sits `(14 - i) * 8` above the bottom. The moving record
      starts from its own slot, the slots are 8 apart with the first record on top, and each
      reset moves down one slot, from the last back up to the first. */
  lemma RecordStackSlots(d: Deck, a: int, b: int)
    requires 0 <= d.record < RecordCount
    requires 0 <= a < b < RecordCount
    ensures RecordStackY(a) - RecordStackY(b) == 8 * (b - a)
    ensures RecordStackY(0) == 112 && RecordStackY(RecordCount - 1) == 0
    ensures d.record < RecordCount - 1 ==> RecordStackY(HandleReset(d).record) == RecordStackY(d.record) - 8
    ensures d.record == RecordCount - 1 ==> RecordStackY(HandleReset(d).record) == RecordStackY(0)
  {
  }

  // ----- controls -----

  /** Which player: the jukebox component or the standalone page. */
  datatype Variant = Component | Page

  /** The controls shown: the Play button, the Reset button, a "<stage>..." label, or nothing. */
  datatype Controls = PlayButton | ResetButton | StageLabel(text: string) | NoControls

  function StageName(s: Stage): string {
    match s
    case Idle => "idle"
    case Sliding => "sliding"
    case Rising => "rising"
    case Lifting => "lifting"
    case Playing => "playing"
  }

  /** Play while idle, Reset while playing; in between the page names the stage and the
      component shows nothing. The component can hide its controls altogether. */
  function ControlsFor(v: Variant, showControls: bool, s: Stage): (r: Controls)
    ensures r == PlayButton <==> (v == Page || showControls) && s == Idle
    ensures r == ResetButton <==> (v == Page || showControls) && s == Playing
    ensures r.StageLabel? <==> v == Page && s != Idle && s != Playing
    ensures r.StageLabel? ==> r.text == StageName(s) + "..."
  {
    if !(v == Page || showControls) then NoControls
    else if s == Idle then PlayButton
    else if s == Playing then ResetButton
    else if v == Page then StageLabel(StageName(s) + "...")
    else NoControls
  }

  /** The controls offer exactly the events `Offered` allows: Reset only while playing. */
  lemma ControlsMatchOffered(v: Variant, showControls: bool, d: Deck)
    ensures ControlsFor(v, showControls, d.stage) == ResetButton ==> Offered(d, ResetPressed)
  {
  }
}
