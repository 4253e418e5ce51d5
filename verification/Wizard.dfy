/** The sign-up flow of the jukebox: the state hook (wizard stage, selected song, name, last
    queue entry, and the queue) and the wizard panel that drives it: pick a song, start the
    sign-up, submit a name through the form, see the ticket, and return to the start
    automatically. */
module Wizard {
  import opened Text
  import opened Types
  import TicketQueue

  /** Everything the state hook holds. */
  datatype State = State(
    wizard: WizardState,
    selected: Option<Song>,
    userName: string,
    lastEntry: Option<QueueEntry>,
    queue: seq<QueueEntry>)

  /** Idle, nothing selected, no name, no entry, and an empty queue. */
  const Initial: State := State(Idle, None, "", None, [])

  /** The hook's actions, plus the wizard's auto-reset timeout. `NameSubmitted` carries the draws
      the queue makes for the new entry: id, ticket letter and number, and timestamp. */
  datatype Event =
    | SongPicked(song: Song)
    | SignUpStarted
    | NameSubmitted(name: string, id: string, letterPick: nat, numberPick: nat, timestamp: int)
    | PlayCompleted
    | PaymentSubmitted
    | ResetCalled
    | EntryRemoved(id: string)
    | QueueCleared
    | AutoResetFires

  /** The ticket draws lie in their ranges. */
  predicate ValidEvent(e: Event) {
    e.NameSubmitted? ==> e.letterPick < |TicketQueue.TicketLetters| && e.numberPick < 900
  }

  /** `selectSong`, from any stage: the song is kept and the stage becomes song-selected. */
  function SelectSong(s: State, song: Song): (r: State)
    ensures r.wizard == SongSelected && r.selected == Some(song)
    ensures r.queue == s.queue && r.lastEntry == s.lastEntry && r.userName == s.userName
  {
    s.(wizard := SongSelected, selected := Some(song))
  }

  /** `startSignUp`: on to the name entry when a song is selected, from any stage; otherwise
      nothing happens. */
  function StartSignUp(s: State): (r: State)
    ensures s.selected.Some? ==> r == s.(wizard := EnterName)
    ensures s.selected.None? ==> r == s
  {
    if s.selected.Some? then s.(wizard := EnterName) else s
  }

  /** `submitName`: the name is stored; with a song selected, one entry for that name and song
      is appended to the queue and becomes the last entry; either way the stage is complete. */
  function SubmitName(s: State, name: string, id: string, letterPick: nat, numberPick: nat, timestamp: int): (r: State)
    requires letterPick < |TicketQueue.TicketLetters| && numberPick < 900
    ensures r.wizard == Complete && r.userName == name && r.selected == s.selected
    ensures s.selected.None? ==> r.queue == s.queue && r.lastEntry == s.lastEntry
    ensures s.selected.Some? ==>
      && |r.queue| == |s.queue| + 1 && r.queue[..|s.queue|] == s.queue
      && r.lastEntry == Some(r.queue[|s.queue|])
      && r.lastEntry.value.name == name && r.lastEntry.value.song == s.selected.value
  {
    var s1 := s.(userName := name);
    var s2 :=
      if s.selected.Some? then
        var (queue, entry) := TicketQueue.AddToQueue(s.queue, name, s.selected.value, id, letterPick, numberPick, timestamp);
        s1.(queue := queue, lastEntry := Some(entry))
      else s1;
    s2.(wizard := Complete)
  }

  /** `reset`: back to idle with nothing selected, no name and no entry; the queue is kept. */
  function ResetState(s: State): (r: State)
    ensures r.wizard == Idle && r.selected == None && r.userName == "" && r.lastEntry == None
    ensures r.queue == s.queue
  {
    State(Idle, None, "", None, s.queue)
  }

  /** The wizard's timeout: armed while the stage is complete, cancelled when it leaves
      complete, and it calls `reset` when it fires. */
  predicate AutoResetArmed(s: State) {
    s.wizard == Complete
  }

  /** One event. `onPlayComplete` and `submitPayment` set the stage to complete whatever it
      was; a timeout that was cancelled does nothing. */
  function Step(s: State, e: Event): State
    requires ValidEvent(e)
  {
    match e
    case SongPicked(song) => SelectSong(s, song)
    case SignUpStarted => StartSignUp(s)
    case NameSubmitted(name, id, l, n, t) => SubmitName(s, name, id, l, n, t)
    case PlayCompleted => s.(wizard := Complete)
    case PaymentSubmitted => s.(wizard := Complete)
    case ResetCalled => ResetState(s)
    case EntryRemoved(id) => s.(queue := TicketQueue.RemoveFromQueue(s.queue, id))
    case QueueCleared => s.(queue := TicketQueue.ClearQueue(s.queue))
    case AutoResetFires => if AutoResetArmed(s) then ResetState(s) else s
  }

  function Run(s: State, events: seq<Event>): State
    requires forall k :: 0 <= k < |events| ==> ValidEvent(events[k])
    decreases |events|
  {
    if |events| == 0 then s else Run(Step(s, events[0]), events[1..])
  }

  /** What every reachable state satisfies: the playing and payment stages never occur; the
      song-selected and name stages always have a song; every ticket is well formed. */
  predicate Good(s: State) {
    && s.wizard != Playing
    && s.wizard != Payment
    && (s.wizard == SongSelected || s.wizard == EnterName ==> s.selected.Some?)
    && (forall k :: 0 <= k < |s.queue| ==> TicketQueue.IsTicketNumber(s.queue[k].ticketNumber))
    && (s.lastEntry.Some? ==> TicketQueue.IsTicketNumber(s.lastEntry.value.ticketNumber))
  }

  /** Removing entries keeps every remaining ticket well formed. */
  lemma RemoveKeepsGood(s: State, id: string)
    requires Good(s)
    ensures Good(s.(queue := TicketQueue.RemoveFromQueue(s.queue, id)))
  {
    var q := TicketQueue.RemoveFromQueue(s.queue, id);
    TicketQueue.RemoveKeepsOthers(s.queue, id);
    forall k | 0 <= k < |q|
      ensures TicketQueue.IsTicketNumber(q[k].ticketNumber)
    {
      assert q[k] in multiset(q);
      assert q[k] in s.queue;
    }
  }

  /** Submitting a name appends only a well-formed ticket. */
  lemma SubmitKeepsGood(s: State, name: string, id: string, l: nat, n: nat, t: int)
    requires Good(s) && l < |TicketQueue.TicketLetters| && n < 900
    ensures Good(SubmitName(s, name, id, l, n, t))
  {
    var r := SubmitName(s, name, id, l, n, t);
    if s.selected.Some? {
      forall k | 0 <= k < |r.queue|
        ensures TicketQueue.IsTicketNumber(r.queue[k].ticketNumber)
      {
        if k < |s.queue| {
          assert r.queue[k] == s.queue[k];
        }
      }
    }
  }

  /** Every event keeps the invariant. */
  lemma StepGood(s: State, e: Event)
    requires Good(s) && ValidEvent(e)
    ensures Good(Step(s, e))
  {
    match e
    case EntryRemoved(id) => RemoveKeepsGood(s, id);
    case NameSubmitted(name, id, l, n, t) => SubmitKeepsGood(s, name, id, l, n, t);
    case _ =>
  }

  /** From the start, no sequence of events reaches the playing or payment stage, or the
      song-selected or name stage without a song. */
  lemma {:induction false} RunGood(s: State, events: seq<Event>)
    requires Good(s)
    requires forall k :: 0 <= k < |events| ==> ValidEvent(events[k])
    ensures Good(Run(s, events))
    decreases |events|
  {
    if |events| > 0 {
      StepGood(s, events[0]);
      RunGood(Step(s, events[0]), events[1..]);
    }
  }

  lemma InitialGood()
    ensures Good(Initial)
  {
  }

  /** The queue grows only by `submitName` with a song selected, by exactly one entry at the
      end; every other event either keeps the queue or only shrinks it. */
  lemma QueueGrowth(s: State, e: Event)
    requires ValidEvent(e)
    ensures |Step(s, e).queue| <= |s.queue| + 1
    ensures |Step(s, e).queue| > |s.queue| <==> e.NameSubmitted? && s.selected.Some?
    ensures e.NameSubmitted? && s.selected.Some? ==>
      Step(s, e).queue[..|s.queue|] == s.queue && Step(s, e).queue[|s.queue|].name == e.name
    ensures !e.NameSubmitted? && !e.EntryRemoved? && !e.QueueCleared? ==> Step(s, e).queue == s.queue
  {
  }

  /** A reset, by the hook or by the timeout, forgets the sign-up but keeps the queue. */
  lemma ResetKeepsQueue(s: State)
    ensures Step(s, ResetCalled).queue == s.queue && Step(s, ResetCalled).wizard == Idle
    ensures AutoResetArmed(s) ==> Step(s, AutoResetFires) == Step(s, ResetCalled)
    ensures !AutoResetArmed(s) ==> Step(s, AutoResetFires) == s
  {
  }

  /** `onPlayComplete` and the legacy `submitPayment` do the same thing: the stage becomes
      complete and nothing else changes, which arms the auto-reset; when it fires, the state is
      what `reset` gives. */
  lemma CompletionEvents(s: State)
    ensures Step(s, PlayCompleted) == Step(s, PaymentSubmitted)
    ensures var r := Step(s, PlayCompleted);
            && r.wizard == Complete && AutoResetArmed(r)
            && r.selected == s.selected && r.userName == s.userName && r.lastEntry == s.lastEntry && r.queue == s.queue
    ensures Step(Step(s, PlayCompleted), AutoResetFires) == ResetState(s)
  {
  }

  /** `clearQueue` empties the queue and touches nothing else: the stage, the selection and the
      last entry, whose ticket is then no longer queued, all stay. */
  lemma ClearKeepsSignUp(s: State)
    ensures var r := Step(s, QueueCleared);
            && r.queue == [] && r.wizard == s.wizard && r.selected == s.selected
            && r.userName == s.userName && r.lastEntry == s.lastEntry
  {
  }

  // ----- the wizard panel -----

  /** The name form: submitted only when the trimmed input is not empty, and then with the
      trimmed input. */
  function FormSubmit(nameInput: string): (r: Option<string>)
    ensures r.None? <==> AllSpace(nameInput)
    ensures r.Some? ==> |r.value| > 0 && !IsSpace(r.value[0]) && !IsSpace(r.value[|r.value| - 1])
    ensures r.Some? ==> r.value == Trim(nameInput)
  {
    var t := Trim(nameInput);
    if t != "" then Some(t) else None
  }

  /** The submit button is disabled while the trimmed input is empty. */
  predicate SubmitDisabled(nameInput: string) {
    Trim(nameInput) == ""
  }

  /** The button is disabled exactly when submitting would do nothing. */
  lemma DisabledIffNoSubmit(nameInput: string)
    ensures SubmitDisabled(nameInput) <==> FormSubmit(nameInput).None?
  {
  }

  /** A name that reaches the hook through the form is never blank, and a trimmed name is
      submitted unchanged when submitted again. */
  lemma FormNameNeverBlank(s: State, nameInput: string, id: string, l: nat, n: nat, t: int)
    requires l < |TicketQueue.TicketLetters| && n < 900
    requires FormSubmit(nameInput).Some?
    ensures !AllSpace(SubmitName(s, FormSubmit(nameInput).value, id, l, n, t).userName)
    ensures FormSubmit(FormSubmit(nameInput).value) == FormSubmit(nameInput)
  {
    TrimIdempotent(nameInput);
  }

  /** What the wizard shows. */
  datatype View =
    | PickPrompt
    | SongCard(song: Song)
    | NameForm
    | AddingToQueue
    | Ticket(entry: QueueEntry)
    | Nothing

  /** The panel for the stage: song-selected needs a song and complete needs an entry, or
      nothing is shown; payment has no panel. */
  function PanelFor(wizard: WizardState, selected: Option<Song>, lastEntry: Option<QueueEntry>): (r: View)
    ensures r.SongCard? <==> wizard == SongSelected && selected.Some?
    ensures r.Ticket? <==> wizard == Complete && lastEntry.Some?
    ensures r == Nothing <==>
      wizard == Payment || (wizard == SongSelected && selected.None?) || (wizard == Complete && lastEntry.None?)
  {
    match wizard
    case Idle => PickPrompt
    case SongSelected => if selected.Some? then SongCard(selected.value) else Nothing
    case EnterName => NameForm
    case Playing => AddingToQueue
    case Payment => Nothing
    case Complete => if lastEntry.Some? then Ticket(lastEntry.value) else Nothing
  }

  /** In every reachable state the panel is the one for its stage, except that a completed
      sign-up without a song shows nothing; the "adding to queue" panel never appears. */
  lemma ReachablePanels(s: State)
    requires Good(s)
    ensures PanelFor(s.wizard, s.selected, s.lastEntry) != AddingToQueue
    ensures s.wizard == SongSelected ==> PanelFor(s.wizard, s.selected, s.lastEntry) == SongCard(s.selected.value)
    ensures PanelFor(s.wizard, s.selected, s.lastEntry) == Nothing ==> s.wizard == Complete && s.lastEntry.None?
  {
  }

  /** Submitting a name with no song selected completes the sign-up without a ticket: the
      wizard then shows nothing until the timeout resets it. */
  lemma SubmitWithoutSong(name: string, id: string, l: nat, n: nat, t: int)
    requires l < |TicketQueue.TicketLetters| && n < 900
    ensures var s := Step(Initial, NameSubmitted(name, id, l, n, t));
            s.wizard == Complete && s.queue == [] && PanelFor(s.wizard, s.selected, s.lastEntry) == Nothing
            && Step(s, AutoResetFires) == Initial
  {
  }

  /** The whole flow: pick a song, start, submit a name, and let the timeout fire. The queue
      then holds one entry for that name and song, and everything else is back to the start. */
  lemma SignUpFlow(song: Song, nameInput: string, id: string, l: nat, n: nat, t: int)
    requires l < |TicketQueue.TicketLetters| && n < 900
    requires FormSubmit(nameInput).Some?
    ensures var name := FormSubmit(nameInput).value;
            var s1 := Step(Step(Initial, SongPicked(song)), SignUpStarted);
            var s2 := Step(s1, NameSubmitted(name, id, l, n, t));
            && s1.wizard == EnterName && PanelFor(s1.wizard, s1.selected, s1.lastEntry) == NameForm
            && s2.wizard == Complete && |s2.queue| == 1
            && s2.queue[0].name == name && s2.queue[0].song == song
            && PanelFor(s2.wizard, s2.selected, s2.lastEntry) == Ticket(s2.queue[0])
            && Step(s2, AutoResetFires) == Initial.(queue := s2.queue)
  {
  }
}
