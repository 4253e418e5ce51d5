/** The split-flap song browser of the jukebox: the 66-song catalogue is shown six songs to a
    page, three on the top strip and three on the bottom; the arrow buttons and keys turn the
    pages one at a time, and a click on a card reports that song to the parent. */
module RolodexPanel {
  import opened Text
  import opened Seqs
  import opened Types

  /** A catalogue entry; `no` is its card number. */
  datatype InternalSong = InternalSong(no: nat, title: string, artist: string, year: int)

  /** The catalogue, written in three blocks of 22 songs. */
  const Catalogue: seq<InternalSong> := SongsA + SongsB + SongsC

  const SongsA: seq<InternalSong> := [
    InternalSong(1, "Hard To Handle", "The Black Crowes", 1990),
    InternalSong(2, "In The Morning", "Razorlight", 2006),
    InternalSong(3, "Dakota", "Stereophonics", 2005),
    InternalSong(4, "No One Knows", "Queens of the Stone Age", 2002),
    InternalSong(5, "Hush", "Kula Shaker", 1997),
    InternalSong(6, "The Riverboat Song", "Ocean Colour Scene", 1996),
    InternalSong(7, "Mustang Sally", "The Commitments", 1991),
    InternalSong(8, "Take Me Home, Country Roads", "John Denver", 1971),
    InternalSong(9, "Alright", "Supergrass", 1995),
    InternalSong(10, "Are You Gonna Be My Girl", "Jet", 2003),
    InternalSong(11, "Long Cool Woman (In a Black Dress)", "The Hollies", 1972),
    InternalSong(12, "Heavyweight Champion of the World", "Reverend And The Makers", 2007),
    InternalSong(13, "My Hero", "Foo Fighters", 1997),
    InternalSong(14, "Zombie", "The Cranberries", 1994),
    InternalSong(15, "Jamming", "Bob Marley & The Wailers", 1977),
    InternalSong(16, "I Don't Like Cricket (I Love It)", "10cc", 1979),
    InternalSong(17, "Seventeen Going Under", "Sam Fender", 2021),
    InternalSong(18, "Master Blaster (Jammin')", "Stevie Wonder", 1980),
    InternalSong(19, "Could You Be Loved", "Bob Marley & The Wailers", 1980),
    InternalSong(20, "You Make My Dreams (Come True)", "Hall & Oates", 1980),
    InternalSong(21, "Morning Glory", "Oasis", 1995),
    InternalSong(22, "Summer Of '69", "Bryan Adams", 1984)
  ]

  const SongsB: seq<InternalSong> := [
    InternalSong(23, "Gay Bar", "Electric Six", 2003),
    InternalSong(24, "Sweet Child O' Mine", "Guns N' Roses", 1987),
    InternalSong(25, "Fat Bottomed Girls", "Queen", 1978),
    InternalSong(26, "Don't Stop Believin'", "Journey", 1981),
    InternalSong(27, "Tribute", "Tenacious D", 2001),
    InternalSong(28, "All The Small Things", "blink-182", 1999),
    InternalSong(29, "Sir Duke", "Stevie Wonder", 1976),
    InternalSong(30, "Kids", "MGMT", 2007),
    InternalSong(31, "The Chain", "Fleetwood Mac", 1977),
    InternalSong(32, "Dreams", "Fleetwood Mac", 1977),
    InternalSong(33, "Landslide", "Fleetwood Mac", 1975),
    InternalSong(34, "Lovely Day", "Bill Withers", 1977),
    InternalSong(35, "Paradise City", "Guns N' Roses", 1987),
    InternalSong(36, "Tombstone", "Ocean Alley", 2018),
    InternalSong(37, "Two Princes", "Spin Doctors", 1991),
    InternalSong(38, "Don't Look Back In Anger", "Oasis", 1996),
    InternalSong(39, "All Right Now", "Free", 1970),
    InternalSong(40, "I'm Gonna Be (500 Miles)", "The Proclaimers", 1988),
    InternalSong(41, "Valerie", "The Zutons", 2006),
    InternalSong(42, "The Gambler", "Kenny Rogers", 1978),
    InternalSong(43, "Seven Nation Army", "The White Stripes", 2003),
    InternalSong(44, "Dammit", "blink-182", 1997)
  ]

  const SongsC: seq<InternalSong> := [
    InternalSong(45, "The Middle", "Jimmy Eat World", 2001),
    InternalSong(46, "American Idiot", "Green Day", 2004),
    InternalSong(47, "Everything About You", "Ugly Kid Joe", 1991),
    InternalSong(48, "Figure It Out", "Royal Blood", 2014),
    InternalSong(49, "Black Chandelier", "Biffy Clyro", 2013),
    InternalSong(50, "Holiday", "Green Day", 2004),
    InternalSong(51, "All My Life", "Foo Fighters", 2002),
    InternalSong(52, "Basket Case", "Green Day", 1994),
    InternalSong(53, "Personal Jesus", "Depeche Mode", 1989),
    InternalSong(54, "What's The Frequency, Kenneth?", "R.E.M.", 1994),
    InternalSong(55, "You Really Got Me", "Van Halen", 1978),
    InternalSong(56, "Peaches", "The Presidents Of The USA", 1995),
    InternalSong(57, "My Own Worst Enemy", "Lit", 1999),
    InternalSong(58, "Rock and Roll", "Led Zeppelin", 1971),
    InternalSong(59, "Long Train Runnin'", "The Doobie Brothers", 1973),
    InternalSong(60, "Vertigo", "U2", 2004),
    InternalSong(61, "Plug in Baby", "Muse", 2001),
    InternalSong(62, "Hysteria", "Muse", 2003),
    InternalSong(63, "You're All I Have", "Snow Patrol", 2006),
    InternalSong(64, "Message In A Bottle", "The Police", 1979),
    InternalSong(65, "Sex on Fire", "Kings of Leon", 2008),
    InternalSong(66, "A New Beginning", "Good Charlotte", 2000)
  ]

  /** Songs `start` to `start + |block| - 1`, in order. */
  predicate NumberedFrom(block: seq<InternalSong>, start: nat) {
    forall i :: 0 <= i < |block| ==> block[i].no == start + i
  }

  lemma BlockANumbered()
    ensures |SongsA| == 22 && NumberedFrom(SongsA, 1)
  {
  }

  lemma BlockBNumbered()
    ensures |SongsB| == 22 && NumberedFrom(SongsB, 23)
  {
  }

  lemma BlockCNumbered()
    ensures |SongsC| == 22 && NumberedFrom(SongsC, 45)
  {
  }

  /** The cards are numbered 1 to 66 in catalogue order. */
  lemma CatalogueNumbering()
    ensures |Catalogue| == 66
    ensures forall i :: 0 <= i < |Catalogue| ==> Catalogue[i].no == i + 1
  {
    BlockANumbered();
    BlockBNumbered();
    BlockCNumbered();
    forall i | 0 <= i < |Catalogue|
      ensures Catalogue[i].no == i + 1
    {
      if i < 22 {
        assert Catalogue[i] == SongsA[i];
      } else if i < 44 {
        assert Catalogue[i] == SongsB[i - 22];
      } else {
        assert Catalogue[i] == SongsC[i - 44];
      }
    }
  }

  /** The song handed to the parent: the card number in decimal serves as both id and number;
      title, artist and year are copied. */
  function ToSong(s: InternalSong): (r: Song)
    ensures r.id == r.number && AllDigits(r.number) && DecimalValue(r.number) == s.no
    ensures r.title == s.title && r.artist == s.artist && r.year == Some(s.year)
  {
    Song(NatToString(s.no), NatToString(s.no), s.title, s.artist, Some(s.year))
  }

  /** Different catalogue cards are handed over under different ids. */
  lemma CatalogueIdsDistinct(i: nat, j: nat)
    requires i < |Catalogue| && j < |Catalogue| && i != j
    ensures ToSong(Catalogue[i]).id != ToSong(Catalogue[j]).id
  {
    CatalogueNumbering();
    var a, b := ToSong(Catalogue[i]), ToSong(Catalogue[j]);
    assert DecimalValue(a.id) != DecimalValue(b.id);
  }

  // ----- pages -----

  /** One page of the flap display. */
  datatype Page = Page(top: seq<InternalSong>, bottom: seq<InternalSong>)

  /** Page `p`: the block of six songs from position `6 * p`, its first three on top and the
      next (up to) three below. */
  function PageAt(songs: seq<InternalSong>, p: nat): Page {
    Page(Slice(songs, 6 * p, 6 * p + 3), Slice(songs, 6 * p + 3, 6 * p + 6))
  }

  /** `pages` is the paging of `songs`: one page per started block of six. */
  predicate IsPaging(songs: seq<InternalSong>, pages: seq<Page>) {
    && |pages| == (|songs| + 5) / 6
    && forall p :: 0 <= p < |pages| ==> pages[p] == PageAt(songs, p)
  }

  /** The pages of the display, built block by block. */
  method GetPages(songs: seq<InternalSong>) returns (pages: seq<Page>)
    ensures IsPaging(songs, pages)
  {
    pages := [];
    var i := 0;
    while i < |songs|
      invariant i == 6 * |pages|
      invariant |pages| == 0 || i - 6 < |songs|
      invariant forall p :: 0 <= p < |pages| ==> pages[p] == PageAt(songs, p)
    {
      pages := pages + [Page(Slice(songs, i, i + 3), Slice(songs, i + 3, i + 6))];
      i := i + 6;
    }
    assert |songs| <= 6 * |pages| <= |songs| + 5;
    PageCount(|songs|, |pages|);
    assert |pages| == (|songs| + 5) / 6;
    assert forall p :: 0 <= p < |pages| ==> pages[p] == PageAt(songs, p);
  }

  /** Six times the page count covers the songs, with fewer than six to spare. */
  lemma PageCount(n: nat, k: nat)
    requires n <= 6 * k <= n + 5
    ensures (n + 5) / 6 == k
  {
    var q := (n + 5) / 6;
    assert 6 * q <= n + 5 < 6 * q + 6;
  }

  /** The songs of the pages, top strip then bottom strip, page after page. */
  function Flatten(pages: seq<Page>): seq<InternalSong>
    decreases |pages|
  {
    if |pages| == 0 then []
    else Flatten(pages[..|pages| - 1]) + pages[|pages| - 1].top + pages[|pages| - 1].bottom
  }

  /** The first `k` pages hold exactly the first `6 * k` songs (or all of them). */
  lemma {:induction false} FlattenPrefix(songs: seq<InternalSong>, pages: seq<Page>, k: nat)
    requires IsPaging(songs, pages) && k <= |pages|
    ensures Flatten(pages[..k]) == songs[..if 6 * k <= |songs| then 6 * k else |songs|]
    decreases k
  {
    if k > 0 {
      FlattenPrefix(songs, pages, k - 1);
      assert pages[..k][..k - 1] == pages[..k - 1];
      var pg := pages[k - 1];
      assert pg == PageAt(songs, k - 1);
      var hi := if 6 * k <= |songs| then 6 * k else |songs|;
      assert 6 * (k - 1) < |songs|;
      assert songs[..hi] == songs[..6 * (k - 1)] + pg.top + pg.bottom;
    }
  }

  /** Reading the pages in order gives back the catalogue: nothing lost, repeated or moved. */
  lemma PagingRoundTrip(songs: seq<InternalSong>, pages: seq<Page>)
    requires IsPaging(songs, pages)
    ensures Flatten(pages) == songs
  {
    FlattenPrefix(songs, pages, |pages|);
    assert pages[..|pages|] == pages;
  }

  /** Every strip holds at most three songs; every page but the last is full, and the last one
      is not empty. */
  lemma PageSizes(songs: seq<InternalSong>, pages: seq<Page>)
    requires IsPaging(songs, pages)
    ensures forall p :: 0 <= p < |pages| ==> |pages[p].top| <= 3 && |pages[p].bottom| <= 3
    ensures forall p :: 0 <= p < |pages| - 1 ==> |pages[p].top| == 3 && |pages[p].bottom| == 3
    ensures |pages| > 0 ==> |pages[|pages| - 1].top| > 0
  {
    forall p | 0 <= p < |pages| - 1
      ensures |pages[p].top| == 3 && |pages[p].bottom| == 3
    {
      assert pages[p] == PageAt(songs, p);
      assert 6 * p + 6 <= 6 * (|pages| - 1);
    }
    if |pages| > 0 {
      assert pages[|pages| - 1] == PageAt(songs, |pages| - 1);
      assert 6 * (|pages| - 1) < |songs|;
    }
  }

  /** The catalogue fills eleven full pages; page `p` opens with card `6 * p + 1`. */
  lemma CataloguePages(pages: seq<Page>)
    requires IsPaging(Catalogue, pages)
    ensures |pages| == 11
    ensures forall p :: 0 <= p < 11 ==> |pages[p].top| == 3 && |pages[p].bottom| == 3
    ensures forall p :: 0 <= p < 11 ==> pages[p].top[0].no == 6 * p + 1
  {
    CatalogueNumbering();
    forall p | 0 <= p < 11
      ensures |pages[p].top| == 3 && |pages[p].bottom| == 3 && pages[p].top[0].no == 6 * p + 1
    {
      assert pages[p] == PageAt(Catalogue, p);
      assert 6 * p + 6 <= 66;
    }
  }

  // ----- strips and cards -----

  /** A cell of a strip: a song card, or an empty placeholder. */
  datatype Cell = Card(song: InternalSong) | Blank

  /** A strip shows a card per song, then placeholders up to three cells. */
  function StripCells(songs: seq<InternalSong>): (r: seq<Cell>)
    ensures |r| == if |songs| < 3 then 3 else |songs|
    ensures forall k :: 0 <= k < |songs| ==> r[k] == Card(songs[k])
    ensures forall k :: |songs| <= k < |r| ==> r[k] == Blank
  {
    var cards := seq(|songs|, k requires 0 <= k < |songs| => Card(songs[k]));
    if |songs| < 3 then cards + seq(3 - |songs|, _ => Blank) else cards
  }

  /** Every strip of every page has exactly three cells. */
  lemma StripsHaveThreeCells(songs: seq<InternalSong>, pages: seq<Page>)
    requires IsPaging(songs, pages)
    ensures forall p :: 0 <= p < |pages| ==> |StripCells(pages[p].top)| == 3 && |StripCells(pages[p].bottom)| == 3
  {
    PageSizes(songs, pages);
  }

  /** A click on a card: the song goes to `onSelectSong` when the parent supplied one. */
  function SongClick(hasCallback: bool, s: InternalSong): (r: Option<Song>)
    ensures r.Some? <==> hasCallback
    ensures r.Some? ==> AllDigits(r.value.number) && DecimalValue(r.value.number) == s.no
    ensures r.Some? ==> r.value.title == s.title && r.value.artist == s.artist
  {
    if hasCallback then Some(ToSong(s)) else None
  }

  /** A click on cell `k` of a strip; placeholders do not react. */
  function ClickCell(cells: seq<Cell>, k: nat, hasCallback: bool): Option<Song>
    requires k < |cells|
  {
    match cells[k]
    case Card(s) => SongClick(hasCallback, s)
    case Blank => None
  }

  /** Clicking cell `k` of the top strip of catalogue page `p` reports card `6 * p + k + 1`,
      and the same for the bottom strip with card `6 * p + k + 4`. */
  lemma CatalogueClick(pages: seq<Page>, p: nat, k: nat)
    requires IsPaging(Catalogue, pages) && p < |pages| && k < 3
    ensures ClickCell(StripCells(pages[p].top), k, true) == Some(ToSong(Catalogue[6 * p + k]))
    ensures ClickCell(StripCells(pages[p].bottom), k, true) == Some(ToSong(Catalogue[6 * p + 3 + k]))
    ensures DecimalValue(ToSong(Catalogue[6 * p + k]).number) == 6 * p + k + 1
    ensures ClickCell(StripCells(pages[p].top), k, false) == None
  {
    CataloguePages(pages);
    CatalogueNumbering();
    assert pages[p] == PageAt(Catalogue, p);
  }

  // ----- navigation -----

  /** A page turn: down (forward) or up (back). */
  datatype Nav = Down | Up

  /** The key handler: ArrowDown or j turns down, ArrowUp or k turns up, other keys are ignored. */
  function KeyNav(key: string): (r: Option<Nav>)
    ensures r == Some(Down) <==> key == "ArrowDown" || key == "j"
    ensures r == Some(Up) <==> key == "ArrowUp" || key == "k"
  {
    if key == "ArrowDown" || key == "j" then Some(Down)
    else if key == "ArrowUp" || key == "k" then Some(Up)
    else None
  }

  /** One page turn: down only while a later page exists, up only while an earlier one does;
      either moves by exactly one page. */
  function Turn(index: int, pageCount: nat, n: Nav): (r: int)
    ensures 0 <= index < pageCount ==> 0 <= r < pageCount
    ensures r == index || r == index + 1 || r == index - 1
    ensures r == index + 1 <==> n == Down && index < pageCount - 1
    ensures r == index - 1 <==> n == Up && index > 0
  {
    match n
    case Down => if index < pageCount - 1 then index + 1 else index
    case Up => if index > 0 then index - 1 else index
  }

  /** The page shown after a sequence of keys. */
  function PressKeys(index: int, pageCount: nat, keys: seq<string>): int
    decreases |keys|
  {
    if |keys| == 0 then index
    else
      var next := match KeyNav(keys[0]) case Some(n) => Turn(index, pageCount, n) case None => index;
      PressKeys(next, pageCount, keys[1..])
  }

  /** From a page that exists, no key sequence leads to a page that does not, and each key
      moves at most one page. */
  lemma {:induction false} PageIndexInRange(index: int, pageCount: nat, keys: seq<string>)
    requires 0 <= index < pageCount
    ensures 0 <= PressKeys(index, pageCount, keys) < pageCount
    ensures index - |keys| <= PressKeys(index, pageCount, keys) <= index + |keys|
    decreases |keys|
  {
    if |keys| > 0 {
      var next := match KeyNav(keys[0]) case Some(n) => Turn(index, pageCount, n) case None => index;
      PageIndexInRange(next, pageCount, keys[1..]);
    }
  }
}
