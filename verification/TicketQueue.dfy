/** The sign-up queue hook: entries are appended in arrival order, each with a ticket number
    of one letter (I and O left out), a dash and a three-digit number; entries can be removed
    by id, or all at once. The random draws, the UUID and the clock come in as parameters. */
module TicketQueue {
  import opened Text
  import opened Seqs
  import opened Types

  /** The ticket letters: the alphabet without I and O. */
  const TicketLetters: string := "ABCDEFGHJKLMNPQRSTUVWXYZ"

  /** Twenty-four distinct capital letters, neither I nor O among them. */
  lemma TicketAlphabet()
    ensures |TicketLetters| == 24
    ensures forall i :: 0 <= i < |TicketLetters| ==> 'A' <= TicketLetters[i] <= 'Z'
    ensures 'I' !in TicketLetters && 'O' !in TicketLetters
    ensures forall i, j :: 0 <= i < j < |TicketLetters| ==> TicketLetters[i] < TicketLetters[j]
  {
    LettersCapital();
    LettersSkipIAndO();
    LettersRise();
    forall i, j | 0 <= i < j < |TicketLetters|
      ensures TicketLetters[i] < TicketLetters[j]
    {
      Ascending(TicketLetters, i, j);
    }
  }

  lemma LettersCapital()
    ensures forall i :: 0 <= i < |TicketLetters| ==> 'A' <= TicketLetters[i] <= 'Z'
  {
  }

  lemma LettersSkipIAndO()
    ensures 'I' !in TicketLetters && 'O' !in TicketLetters
  {
  }

  lemma LettersRise()
    ensures forall k :: 0 <= k < |TicketLetters| - 1 ==> TicketLetters[k] < TicketLetters[k + 1]
  {
  }

  /** In a string that rises from each character to the next, every later character is larger. */
  lemma {:induction false} Ascending(s: string, i: nat, j: nat)
    requires forall k :: 0 <= k < |s| - 1 ==> s[k] < s[k + 1]
    requires i < j < |s|
    ensures s[i] < s[j]
    decreases j - i
  {
    if j > i + 1 {
      Ascending(s, i, j - 1);
    }
  }

  /** A well-formed ticket number: a ticket letter, "-", and a number from 100 to 999. */
  predicate IsTicketNumber(t: string) {
    && |t| == 5
    && t[0] in TicketLetters
    && t[1] == '-'
    && AllDigits(t[2..])
    && t[2] != '0'
  }

  /** `generateTicketNumber`, given its two draws: `letterPick` is `floor(random * 24)` and
      `numberPick` is `floor(random * 900)`. */
  function TicketNumber(letterPick: nat, numberPick: nat): (r: string)
    requires letterPick < |TicketLetters| && numberPick < 900
    ensures IsTicketNumber(r)
    ensures r[0] == TicketLetters[letterPick]
    ensures DecimalValue(r[2..]) == numberPick + 100
  {
    var digits := NatToString(numberPick + 100);
    var r := [TicketLetters[letterPick]] + "-" + digits;
    assert r[2..] == digits;
    r
  }

  /** Every well-formed ticket number can be drawn: the format describes exactly the tickets
      the generator makes. */
  lemma TicketNumberOnto(t: string)
    requires IsTicketNumber(t)
    ensures exists l: nat, n: nat :: l < |TicketLetters| && n < 900 && TicketNumber(l, n) == t
  {
    TicketAlphabet();
    var l :| 0 <= l < |TicketLetters| && TicketLetters[l] == t[0];
    var digits := t[2..];
    NumeralPositive(digits);
    NatToStringOfNumeral(digits);
    var v := DecimalValue(digits);
    ThreeDigitRange(digits);
    var n: nat := v - 100;
    var r := TicketNumber(l, n);
    assert r[2..] == NatToString(v) == digits;
    assert r == [r[0]] + [r[1]] + r[2..];
    assert t == [t[0]] + [t[1]] + t[2..];
  }

  /** Different draws give different ticket numbers. */
  lemma TicketNumberInjective(l1: nat, n1: nat, l2: nat, n2: nat)
    requires l1 < |TicketLetters| && n1 < 900 && l2 < |TicketLetters| && n2 < 900
    requires TicketNumber(l1, n1) == TicketNumber(l2, n2)
    ensures l1 == l2 && n1 == n2
  {
    TicketAlphabet();
  }

  /** A three-digit numeral without a leading zero lies in 100..999. */
  lemma ThreeDigitRange(s: string)
    requires |s| == 3 && AllDigits(s) && s[0] != '0'
    ensures 100 <= DecimalValue(s) <= 999
  {
    assert s[..2][..1] == s[..1];
    assert s[..1][..0] == [];
    assert DecimalValue(s[..1]) == DigitValue(s[0]);
    assert DecimalValue(s[..2]) == 10 * DigitValue(s[0]) + DigitValue(s[1]);
  }

  /** `addToQueue`: a new entry with the caller's name and song, a fresh id, a ticket number
      and a timestamp, appended at the end; the entry is returned as well. */
  function AddToQueue(queue: seq<QueueEntry>, name: string, song: Song, id: string,
                      letterPick: nat, numberPick: nat, timestamp: int): (r: (seq<QueueEntry>, QueueEntry))
    requires letterPick < |TicketLetters| && numberPick < 900
    ensures |r.0| == |queue| + 1 && r.0[..|queue|] == queue && r.0[|queue|] == r.1
    ensures r.1.name == name && r.1.song == song && r.1.id == id && IsTicketNumber(r.1.ticketNumber)
  {
    var entry := QueueEntry(id, name, song, TicketNumber(letterPick, numberPick), timestamp);
    (queue + [entry], entry)
  }

  /** `removeFromQueue`: every entry with that id goes, the others stay in order. */
  function RemoveFromQueue(queue: seq<QueueEntry>, id: string): (r: seq<QueueEntry>)
    ensures |r| <= |queue|
    ensures forall k :: 0 <= k < |r| ==> r[k].id != id
  {
    Filter(queue, (e: QueueEntry) => e.id != id)
  }

  /** Removal keeps every other entry, as often as it occurs, in the original order. */
  lemma RemoveKeepsOthers(queue: seq<QueueEntry>, id: string)
    ensures IsSubsequence(RemoveFromQueue(queue, id), queue)
    ensures forall e :: multiset(RemoveFromQueue(queue, id))[e] == if e.id != id then multiset(queue)[e] else 0
  {
    FilterSubsequence(queue, (e: QueueEntry) => e.id != id);
    FilterMultiset(queue, (e: QueueEntry) => e.id != id);
  }

  /** Removing an id that is not in the queue changes nothing, so removing twice is removing
      once. */
  lemma RemoveAbsentOrTwice(queue: seq<QueueEntry>, id: string)
    ensures (forall k :: 0 <= k < |queue| ==> queue[k].id != id) ==> RemoveFromQueue(queue, id) == queue
    ensures RemoveFromQueue(RemoveFromQueue(queue, id), id) == RemoveFromQueue(queue, id)
  {
    if forall k :: 0 <= k < |queue| ==> queue[k].id != id {
      FilterKeepsAll(queue, (e: QueueEntry) => e.id != id);
    }
    FilterIdempotent(queue, (e: QueueEntry) => e.id != id);
  }

  /** Removing the entry just added under a fresh id gives back the queue from before. */
  lemma RemoveUndoesAdd(queue: seq<QueueEntry>, name: string, song: Song, id: string,
                        letterPick: nat, numberPick: nat, timestamp: int)
    requires letterPick < |TicketLetters| && numberPick < 900
    requires forall k :: 0 <= k < |queue| ==> queue[k].id != id
    ensures RemoveFromQueue(AddToQueue(queue, name, song, id, letterPick, numberPick, timestamp).0, id) == queue
  {
    var keep := (e: QueueEntry) => e.id != id;
    var (q, entry) := AddToQueue(queue, name, song, id, letterPick, numberPick, timestamp);
    assert q == queue + [entry];
    FilterConcat(queue, [entry], keep);
    FilterKeepsAll(queue, keep);
    assert Filter([entry], keep) == [];
  }

  /** `clearQueue`: every entry is gone, whatever the queue held. */
  function ClearQueue(queue: seq<QueueEntry>): (r: seq<QueueEntry>)
    ensures |r| == 0
  {
    []
  }

  /** After clearing, the next entry added is the only one, and removing any id changes
      nothing. */
  lemma ClearThenAdd(queue: seq<QueueEntry>, name: string, song: Song, id: string, letterPick: nat,
                     numberPick: nat, timestamp: int, other: string)
    requires letterPick < |TicketLetters| && numberPick < 900
    ensures var (q, entry) := AddToQueue(ClearQueue(queue), name, song, id, letterPick, numberPick, timestamp);
            q == [entry]
    ensures RemoveFromQueue(ClearQueue(queue), other) == []
  {
    var (q, entry) := AddToQueue(ClearQueue(queue), name, song, id, letterPick, numberPick, timestamp);
    assert q == [] + [entry];
  }

  /** There is no de-duplication: the same name and song added twice give two entries. */
  lemma AddTwiceKeepsBoth(queue: seq<QueueEntry>, name: string, song: Song, id1: string, id2: string,
                          l1: nat, n1: nat, l2: nat, n2: nat, t1: int, t2: int)
    requires l1 < |TicketLetters| && n1 < 900 && l2 < |TicketLetters| && n2 < 900
    ensures var q1 := AddToQueue(queue, name, song, id1, l1, n1, t1).0;
            var q2 := AddToQueue(q1, name, song, id2, l2, n2, t2).0;
            |q2| == |queue| + 2 && q2[|queue|].name == q2[|queue| + 1].name == name
            && q2[|queue|].song == q2[|queue| + 1].song == song
  {
  }
}
