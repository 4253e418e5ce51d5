/** The jukebox page of App.tsx as one state: the keypad buffer, the performer slots, the
    lineup, the search text, the card position and whether a booking is playing. Two effects
    act on the buffer besides the handlers: whenever the filtered list (as an object) or the
    card position changes, and once on mount, the buffer takes the number of the card shown;
    and while a booking plays, the keypad, the performer slots and the coin slot are disabled. */
module LineupPage {
  import opened Types
  import opened Text
  import opened Seqs
  import opened Lineup

  datatype Page = Page(digits: string, names: seq<string>, queue: seq<QueueItem>, filter: string,
                       flipIndex: int, spinning: bool)

  /** The cards the flipbook shows for the current search text. */
  function Listed(p: Page): seq<CatalogueSong> {
    FilteredSongs(Songs, p.filter)
  }

  /** What every reachable page keeps: at most two digits in the buffer, one to four performer
      slots, and a card position inside the filtered list (0 when it is empty). */
  predicate Good(p: Page) {
    && IsBuffer(p.digits)
    && 1 <= |p.names| <= 4
    && 0 <= p.flipIndex <= LastIndex(|Listed(p)|)
  }

  /** Every card of a filtered list comes from the list searched. */
  lemma FilteredMembers(songs: seq<CatalogueSong>, filter: string)
    ensures forall i :: 0 <= i < |FilteredSongs(songs, filter)| ==> FilteredSongs(songs, filter)[i] in songs
  {
    var q := Query(filter);
    FilterMembers(songs, s => Matches(s, q));
  }

  /** The first render holds "12", no search text and the first card; the mount effect then puts
      the first card's number in the buffer, so the page opens on "Don't Stop Me Now" and not on
      "Mr. Brightside". */
  function Start(): (r: Page)
    ensures Good(r)
    ensures SelectedSong(r.digits) == Some(Songs[0]) && Songs[0].title == "Don't Stop Me Now"
    ensures r.names == [""] && r.queue == SeedQueue && r.filter == "" && r.flipIndex == 0 && !r.spinning
  {
    CatalogueNumbering();
    ShowCardOfCatalogue(Songs, 0, "12");
    Page(ShowCard(Songs, 0, "12"), [""], SeedQueue, "", 0, false)
  }

  /** `ShowCard` on a catalogue card gives a two-digit buffer naming that card. */
  lemma ShowCardOfCatalogue(list: seq<CatalogueSong>, index: int, digits: string)
    requires 0 <= index < |list| && list[index] in Songs
    ensures IsBuffer(ShowCard(list, index, digits))
    ensures SelectedSong(ShowCard(list, index, digits)) == Some(list[index])
  {
    CatalogueCardSelects(list[index]);
  }

  /** The effects once the filtered list is a new object `list`, after a list of `before`
      cards: the length effect pulls the position back into the new list (it runs only when the
      length changed), and the card effect of the same commit still reads the old position;
      when the position did move, the card effect runs once more with it. */
  function Settle(list: seq<CatalogueSong>, before: nat, index: int, digits: string): (r: (int, string))
    ensures |list| != before ==> r.0 == Reclamp(index, |list|)
    ensures |list| == before ==> r.0 == index
    ensures |list| == 0 ==> r.1 == digits
  {
    var next := if |list| != before then Reclamp(index, |list|) else index;
    var shown := ShowCard(list, index, digits);
    (next, if next != index then ShowCard(list, next, shown) else shown)
  }

  /** From a position inside the old list, the effects leave the position inside a non-empty new
      list and the buffer naming the card there, whatever it held before. */
  lemma SettleShowsCard(list: seq<CatalogueSong>, before: nat, index: int, digits: string)
    requires 0 <= index <= LastIndex(before) && |list| > 0
    requires forall i :: 0 <= i < |list| ==> list[i] in Songs
    ensures var r := Settle(list, before, index, digits);
            0 <= r.0 < |list| && IsBuffer(r.1) && SelectedSong(r.1) == Some(list[r.0])
  {
    var r := Settle(list, before, index, digits);
    if r.0 != index {
      ShowCardOfCatalogue(list, r.0, ShowCard(list, index, digits));
    } else {
      ShowCardOfCatalogue(list, index, digits);
    }
  }

  /** Typing in the search box. The memo hands back the same list object when both the old and
      the new query are blank, and then no effect runs; otherwise the effects settle on the new
      list. */
  function EditFilter(p: Page, text: string): (r: Page)
    ensures r.filter == text && r.names == p.names && r.queue == p.queue && r.spinning == p.spinning
    ensures text == p.filter ==> r == p
    ensures AllSpace(text) && AllSpace(p.filter) ==> r.digits == p.digits && r.flipIndex == p.flipIndex
    ensures |FilteredSongs(Songs, text)| != |Listed(p)| ==>
      r.flipIndex == Reclamp(p.flipIndex, |FilteredSongs(Songs, text)|)
  {
    if text == p.filter || (AllSpace(text) && AllSpace(p.filter)) then p.(filter := text)
    else
      var settled := Settle(FilteredSongs(Songs, text), |Listed(p)|, p.flipIndex, p.digits);
      p.(filter := text, flipIndex := settled.0, digits := settled.1)
  }

  /** `go(delta)` through `setIndex`: a move to another card, whose number the card effect then
      puts in the buffer; a move that stays put changes nothing. */
  function MoveCard(p: Page, delta: int): (r: Page)
    ensures r.filter == p.filter && r.names == p.names && r.queue == p.queue && r.spinning == p.spinning
    ensures FlipTarget(p.flipIndex, delta, |Listed(p)|).None? ==> r == p
    ensures FlipTarget(p.flipIndex, delta, |Listed(p)|).Some? ==>
      r.flipIndex == FlipTarget(p.flipIndex, delta, |Listed(p)|).value && r.flipIndex != p.flipIndex
  {
    match FlipTarget(p.flipIndex, delta, |Listed(p)|)
    case None => p
    case Some(i) => p.(flipIndex := i, digits := ShowCard(Listed(p), i, p.digits))
  }

  /** Moving to another card leaves the position inside the list and the buffer selecting the
      card there; either way the page stays good. */
  lemma MoveCardShowsCard(p: Page, delta: int)
    requires Good(p)
    ensures var r := MoveCard(p, delta);
            && Good(r)
            && (r.flipIndex != p.flipIndex ==> 0 <= r.flipIndex < |Listed(r)| && SelectedSong(r.digits) == Some(Listed(r)[r.flipIndex]))
  {
    var t := FlipTarget(p.flipIndex, delta, |Listed(p)|);
    if t.Some? {
      FilteredMembers(Songs, p.filter);
      ShowCardOfCatalogue(Listed(p), t.value, p.digits);
    }
  }

  /** The page's inputs. `pick` stands for the random catalogue position "#" draws, `id` and
      `now` for the booking's random identifier and the clock; `PlaybackEnded` is the timeout
      that ends the fake playback once the progress bar is full. */
  datatype PageEvent =
    | KeyPressed(key: string, pick: nat)
    | NameEdited(edit: PerformerEdit)
    | CoinIn(id: string, now: int)
    | Removed(id: string)
    | Flipped(delta: int)
    | FilterEdited(text: string)
    | PlaybackEnded

  predicate ValidEvent(e: PageEvent) {
    !e.KeyPressed? || e.pick < |Songs|
  }

  /** One input. The keypad, the performer slots and the coin slot do nothing while a booking
      plays; a booking starts the playback. Removing a booking, moving through the cards and the
      search box stay available. A move to another card puts its number in the buffer. */
  function Step(p: Page, e: PageEvent): Page
    requires ValidEvent(e)
  {
    match e
    case KeyPressed(key, pick) => if p.spinning then p else p.(digits := PressKey(p.digits, key, pick))
    case NameEdited(edit) => if p.spinning then p else p.(names := EditNames(p.names, edit))
    case CoinIn(id, now) =>
      if p.spinning || !CanAdd(p.names, p.digits) then p
      else p.(queue := CoinInAndLock(p.queue, p.names, p.digits, id, now), spinning := true)
    case Removed(id) => p.(queue := RemoveFromQueue(p.queue, id))
    case Flipped(delta) => MoveCard(p, delta)
    case FilterEdited(text) => EditFilter(p, text)
    case PlaybackEnded => p.(spinning := false)
  }

  function Run(p: Page, events: seq<PageEvent>): Page
    requires forall k :: 0 <= k < |events| ==> ValidEvent(events[k])
    decreases |events|
  {
    if |events| == 0 then p else Run(Step(p, events[0]), events[1..])
  }

  /** A search edit that hands the effects a new list leaves the position inside it and, when
      the list is not empty, the buffer naming the card at that position, whatever the keypad
      held before. */
  lemma FilterEditShowsCard(p: Page, text: string)
    requires Good(p)
    requires text != p.filter && !(AllSpace(text) && AllSpace(p.filter))
    requires |FilteredSongs(Songs, text)| > 0
    ensures var r := EditFilter(p, text);
            && 0 <= r.flipIndex < |FilteredSongs(Songs, text)|
            && IsBuffer(r.digits)
            && SelectedSong(r.digits) == Some(FilteredSongs(Songs, text)[r.flipIndex])
  {
    FilteredMembers(Songs, text);
    SettleShowsCard(FilteredSongs(Songs, text), |Listed(p)|, p.flipIndex, p.digits);
  }

  /** A search edit keeps the page good. */
  lemma EditFilterGood(p: Page, text: string)
    requires Good(p)
    ensures Good(EditFilter(p, text))
  {
    var list := FilteredSongs(Songs, text);
    if text != p.filter && !(AllSpace(text) && AllSpace(p.filter)) {
      if |list| > 0 {
        FilterEditShowsCard(p, text);
      } else {
        assert EditFilter(p, text).digits == p.digits;
      }
    }
  }

  /** A page with the same search text and position stays good when the buffer stays short and
      one to four names remain. */
  lemma SameCardsGood(p: Page, r: Page)
    requires Good(p) && r.filter == p.filter && r.flipIndex == p.flipIndex
    requires IsBuffer(r.digits) && 1 <= |r.names| <= 4
    ensures Good(r)
  {
  }

  /** What each input does, one event at a time. */
  lemma StepCases(p: Page, e: PageEvent)
    requires ValidEvent(e)
    ensures e.KeyPressed? ==> Step(p, e) == if p.spinning then p else p.(digits := PressKey(p.digits, e.key, e.pick))
    ensures e.NameEdited? ==> Step(p, e) == if p.spinning then p else p.(names := EditNames(p.names, e.edit))
    ensures e.CoinIn? ==>
      Step(p, e) == if p.spinning || !CanAdd(p.names, p.digits) then p
                    else p.(queue := CoinInAndLock(p.queue, p.names, p.digits, e.id, e.now), spinning := true)
    ensures e.Removed? ==> Step(p, e) == p.(queue := RemoveFromQueue(p.queue, e.id))
    ensures e.Flipped? ==> Step(p, e) == MoveCard(p, e.delta)
    ensures e.FilterEdited? ==> Step(p, e) == EditFilter(p, e.text)
    ensures e.PlaybackEnded? ==> Step(p, e) == p.(spinning := false)
  {
  }

  /** The keypad keeps the search text and the position, and the page good. */
  lemma KeyGood(p: Page, key: string, pick: nat)
    requires Good(p) && pick < |Songs|
    ensures Good(Step(p, KeyPressed(key, pick)))
  {
    StepCases(p, KeyPressed(key, pick));
    SameCardsGood(p, Step(p, KeyPressed(key, pick)));
  }

  /** So do the performer slots. */
  lemma NamesGood(p: Page, edit: PerformerEdit)
    requires Good(p)
    ensures Good(Step(p, NameEdited(edit)))
  {
    StepCases(p, NameEdited(edit));
    SameCardsGood(p, Step(p, NameEdited(edit)));
  }

  /** So does the coin slot. */
  lemma CoinGood(p: Page, id: string, now: int)
    requires Good(p)
    ensures Good(Step(p, CoinIn(id, now)))
  {
    StepCases(p, CoinIn(id, now));
    SameCardsGood(p, Step(p, CoinIn(id, now)));
  }

  /** So does removing a booking. */
  lemma RemoveGood(p: Page, id: string)
    requires Good(p)
    ensures Good(Step(p, Removed(id)))
  {
    StepCases(p, Removed(id));
    SameCardsGood(p, Step(p, Removed(id)));
  }

  /** So does the end of the playback. */
  lemma EndGood(p: Page)
    requires Good(p)
    ensures Good(Step(p, PlaybackEnded))
  {
    StepCases(p, PlaybackEnded);
    SameCardsGood(p, Step(p, PlaybackEnded));
  }

  /** Every input keeps the page good. */
  lemma StepGood(p: Page, e: PageEvent)
    requires Good(p) && ValidEvent(e)
    ensures Good(Step(p, e))
  {
    match e
    case KeyPressed(key, pick) => KeyGood(p, key, pick);
    case NameEdited(edit) => NamesGood(p, edit);
    case CoinIn(id, now) => CoinGood(p, id, now);
    case Removed(id) => RemoveGood(p, id);
    case PlaybackEnded => EndGood(p);
    case Flipped(delta) =>
      StepCases(p, e);
      MoveCardShowsCard(p, delta);
    case FilterEdited(text) =>
      StepCases(p, e);
      EditFilterGood(p, text);
  }


  /** From a good page, such as the opening one, every sequence of inputs keeps it good. */
  lemma {:induction false} RunGood(p: Page, events: seq<PageEvent>)
    requires Good(p)
    requires forall k :: 0 <= k < |events| ==> ValidEvent(events[k])
    ensures Good(Run(p, events))
    decreases |events|
  {
    if |events| > 0 {
      StepGood(p, events[0]);
      RunGood(Step(p, events[0]), events[1..]);
    }
  }

  /** A booking starts the playback, and a second coin straight after it does nothing. */
  lemma CoinInLocks(p: Page, id: string, now: int, id2: string, now2: int)
    requires !p.spinning && CanAdd(p.names, p.digits)
    ensures var r := Step(p, CoinIn(id, now));
            && r.spinning && |r.queue| == |p.queue| + 1 && r.queue[1..] == p.queue
            && Step(r, CoinIn(id2, now2)) == r
  {
  }

  /** Until the playback ends, no input adds a booking or changes the performer slots, and the
      page stays locked. */
  lemma {:induction false} LockedWhilePlaying(p: Page, events: seq<PageEvent>)
    requires p.spinning
    requires forall k :: 0 <= k < |events| ==> ValidEvent(events[k]) && !events[k].PlaybackEnded?
    ensures Run(p, events).spinning
    ensures Run(p, events).names == p.names
    ensures |Run(p, events).queue| <= |p.queue|
    decreases |events|
  {
    if |events| > 0 {
      LockedWhilePlaying(Step(p, events[0]), events[1..]);
    }
  }

  /** While a booking plays, the keypad keys, the performer edits and the coin slot change
      nothing at all. */
  lemma LockedInputsIgnored(p: Page, e: PageEvent)
    requires p.spinning && ValidEvent(e)
    requires e.KeyPressed? || e.NameEdited? || e.CoinIn?
    ensures Step(p, e) == p
  {
  }
}
