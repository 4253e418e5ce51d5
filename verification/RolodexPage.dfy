/** The standalone card-flipper page: ten catalogue cards in a stack, the current card on top
    and up to three more behind it; the buttons and the arrow or j/k keys move one card at a
    time and remember which way the last move went. */
module RolodexPage {
  import opened Seqs
  import Lineup
  import RolodexPanel

  /** The page's cards: the first ten rows of the jukebox catalogue, numbers 11 to 20. */
  const Cards: seq<Lineup.CatalogueSong> := Lineup.Songs[..10]

  lemma CardsNumbered()
    ensures |Cards| == 10
    ensures forall i :: 0 <= i < |Cards| ==> Cards[i].no == 11 + i
  {
    Lineup.CatalogueNumbering();
  }

  /** Which way the last move went, for the flip animation. */
  datatype Direction = Up | Down

  /** The current card and the last direction. */
  datatype Stack = Stack(index: int, direction: Direction)

  const Initial: Stack := Stack(0, Down)

  /** "Down" moves to the next card and records the direction, unless the last card is shown,
      in which case nothing changes. */
  function GoDown(s: Stack): (r: Stack)
    ensures 0 <= s.index < |Cards| ==> 0 <= r.index < |Cards|
    ensures r != s <==> s.index < |Cards| - 1
    ensures r != s ==> r.index == s.index + 1 && r.direction == Down
  {
    if s.index < |Cards| - 1 then Stack(s.index + 1, Down) else s
  }

  /** "Up" moves to the previous card and records the direction, unless the first card is
      shown, in which case nothing changes. */
  function GoUp(s: Stack): (r: Stack)
    ensures 0 <= s.index < |Cards| ==> 0 <= r.index < |Cards|
    ensures r != s <==> s.index > 0
    ensures r != s ==> r.index == s.index - 1 && r.direction == Up
  {
    if s.index > 0 then Stack(s.index - 1, Up) else s
  }

  /** The Up button is disabled on the first card, the Down button on the last. */
  predicate UpDisabled(s: Stack) { s.index == 0 }
  predicate DownDisabled(s: Stack) { s.index == |Cards| - 1 }

  /** On a card of the stack, a button is disabled exactly when pressing it would change
      nothing. */
  lemma DisabledMeansNoMove(s: Stack)
    requires 0 <= s.index < |Cards|
    ensures UpDisabled(s) <==> GoUp(s) == s
    ensures DownDisabled(s) <==> GoDown(s) == s
  {
    CardsNumbered();
  }

  /** A key press: the same key map as the jukebox browser. */
  function PressKey(s: Stack, key: string): Stack {
    match RolodexPanel.KeyNav(key)
    case Some(Down) => GoDown(s)
    case Some(Up) => GoUp(s)
    case None => s
  }

  /** The stack after a sequence of button presses and keys. */
  function PressKeys(s: Stack, keys: seq<string>): Stack
    decreases |keys|
  {
    if |keys| == 0 then s else PressKeys(PressKey(s, keys[0]), keys[1..])
  }

  /** From any card of the stack, whatever keys follow, the current card exists: the index
      stays in 0..9. */
  lemma {:induction false} IndexInRange(s: Stack, keys: seq<string>)
    requires 0 <= s.index < |Cards|
    ensures 0 <= PressKeys(s, keys).index < |Cards|
    decreases |keys|
  {
    CardsNumbered();
    if |keys| > 0 {
      IndexInRange(PressKey(s, keys[0]), keys[1..]);
    }
  }

  /** A key changes the index by at most one, and any key outside the map changes nothing. */
  lemma PressKeyMoves(s: Stack, key: string)
    ensures -1 <= PressKey(s, key).index - s.index <= 1
    ensures key != "ArrowDown" && key != "j" && key != "ArrowUp" && key != "k" ==> PressKey(s, key) == s
    ensures PressKey(s, key).index != s.index ==>
      PressKey(s, key).direction == (if PressKey(s, key).index > s.index then Down else Up)
  {
  }

  /** The cards drawn: the current one and up to three after it. */
  function VisibleCards(index: nat): (r: seq<Lineup.CatalogueSong>)
    ensures index < |Cards| ==> |r| == Lineup.Min(4, |Cards| - index)
    ensures |r| == 0 || index + |r| <= |Cards|
    ensures forall k :: 0 <= k < |r| ==> r[k] == Cards[index + k]
  {
    Slice(Cards, index, index + 4)
  }

  /** On every card of the stack, the current card is drawn first, with one to four cards in
      view: four up to card 7, then fewer towards the end. */
  lemma VisibleWindow(index: nat)
    requires index < |Cards|
    ensures 1 <= |VisibleCards(index)| <= 4 && VisibleCards(index)[0] == Cards[index]
    ensures index <= 6 ==> |VisibleCards(index)| == 4
    ensures index == 9 ==> |VisibleCards(index)| == 1
  {
    CardsNumbered();
  }

  /** A drawn card: its song, its depth in the stack (0 is the top), and its z-index. */
  datatype Drawn = Drawn(song: Lineup.CatalogueSong, stackIndex: nat, isTop: bool, zIndex: int)

  /** The cards in drawing order: back to front, the deepest card first; each card's z-index
      is the stack size minus its depth. */
  function DrawOrder(cards: seq<Lineup.CatalogueSong>): (r: seq<Drawn>)
  {
    var n := |cards|;
    seq(n, j requires 0 <= j < n =>
      var depth := n - 1 - j;
      Drawn(cards[depth], depth, depth == 0, n - depth))
  }

  /** The drawing puts every card in once, deepest first; the top card is the current one, is
      drawn last, and has the highest z-index; z-indices rise by one in drawing order. */
  lemma DrawOrderStacks(cards: seq<Lineup.CatalogueSong>)
    requires |cards| > 0
    ensures var r := DrawOrder(cards);
      && |r| == |cards|
      && (forall j :: 0 <= j < |r| ==> r[j].song == cards[r[j].stackIndex] && r[j].zIndex == j + 1)
      && (forall j :: 0 <= j < |r| ==> r[j].stackIndex == |r| - 1 - j && r[j].zIndex == |r| - r[j].stackIndex)
      && (forall j :: 0 <= j < |r| ==> (r[j].isTop <==> j == |r| - 1))
      && r[|r| - 1].song == cards[0]
      && (forall j :: 0 <= j < |r| ==> r[j].zIndex <= r[|r| - 1].zIndex)
      && (forall k :: 0 <= k < |cards| ==> r[|cards| - 1 - k].song == cards[k])
  {
    var r := DrawOrder(cards);
    forall k | 0 <= k < |cards|
      ensures r[|cards| - 1 - k].song == cards[k]
    {
      assert r[|cards| - 1 - k].stackIndex == k;
    }
  }
}
