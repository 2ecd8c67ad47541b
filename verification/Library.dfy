/**
 * The library panel's logic (components/LibraryPanel.jsx): the order in which
 * `sortedSongs` lists the favourite songs, the selection toggle of
 * `handleSongClick`, `formatDuration` and the song-count label. All of it is
 * computed from props and state without observable mutation (the sort runs on
 * a copy), so everything here is a function.
 *
 * `localeCompare` is replaced by the lexicographic order on characters, a total
 * order; `new Date(x.dateAdded)` by an integer timestamp.
 */
module Library {
  import opened Wrappers
  import opened Text

  /** A song's `duration` prop: missing, not a number, or a whole number of seconds. */
  datatype DurationValue = Missing | NonNumeric | Seconds(n: int)

  /** The fields of a favourite song the panel reads. */
  datatype Song = Song(
    id: string,
    title: Option<string>,
    artist: Option<string>,
    album: Option<string>,
    dateAdded: int,
    duration: DurationValue)

  // ---------------------------------------------------------------------------
  // The string order standing in for localeCompare

  /** `a` sorts no later than `b`: lexicographic order on characters. */
  predicate StrLe(a: string, b: string) {
    a == [] || (b != [] && (a[0] < b[0] || (a[0] == b[0] && StrLe(a[1..], b[1..]))))
  }

  lemma {:induction false} StrLeTotal(a: string, b: string)
    ensures StrLe(a, b) || StrLe(b, a)
  {
    if a != [] && b != [] && a[0] == b[0] {
      StrLeTotal(a[1..], b[1..]);
    }
  }

  lemma {:induction false} StrLeTransitive(a: string, b: string, c: string)
    requires StrLe(a, b) && StrLe(b, c)
    ensures StrLe(a, c)
  {
    if a != [] && b != [] && c != [] && a[0] == b[0] && b[0] == c[0] {
      StrLeTransitive(a[1..], b[1..], c[1..]);
    }
  }

  // ---------------------------------------------------------------------------
  // The three sort modes

  datatype SortMode = ByTitle | ByArtist | ByDateAdded

  /** The `switch (sortBy)`: `'title'`, `'artist'`, and the default for anything else. */
  function ModeOf(sortBy: string): (m: SortMode)
    ensures m == ByTitle <==> sortBy == "title"
    ensures m == ByArtist <==> sortBy == "artist"
  {
    if sortBy == "title" then ByTitle
    else if sortBy == "artist" then ByArtist
    else ByDateAdded
  }

  /** `a.title || ''`. */
  function TitleKey(s: Song): string {
    if s.title.Some? then s.title.value else ""
  }

  /** `a.artist || ''`. */
  function ArtistKey(s: Song): string {
    if s.artist.Some? then s.artist.value else ""
  }

  /** The comparator of the mode returns at most 0 for `(a, b)`, so `a` may precede `b`. */
  predicate Before(mode: SortMode, a: Song, b: Song) {
    match mode
    case ByTitle => StrLe(TitleKey(a), TitleKey(b))
    case ByArtist => StrLe(ArtistKey(a), ArtistKey(b))
    case ByDateAdded => b.dateAdded - a.dateAdded <= 0
  }

  lemma BeforeTotal(mode: SortMode, a: Song, b: Song)
    ensures Before(mode, a, b) || Before(mode, b, a)
  {
    match mode
    case ByTitle => StrLeTotal(TitleKey(a), TitleKey(b));
    case ByArtist => StrLeTotal(ArtistKey(a), ArtistKey(b));
    case ByDateAdded =>
  }

  lemma BeforeTransitive(mode: SortMode, a: Song, b: Song, c: Song)
    requires Before(mode, a, b) && Before(mode, b, c)
    ensures Before(mode, a, c)
  {
    match mode
    case ByTitle => StrLeTransitive(TitleKey(a), TitleKey(b), TitleKey(c));
    case ByArtist => StrLeTransitive(ArtistKey(a), ArtistKey(b), ArtistKey(c));
    case ByDateAdded =>
  }

  predicate SortedBy(mode: SortMode, s: seq<Song>) {
    forall i, j :: 0 <= i < j < |s| ==> Before(mode, s[i], s[j])
  }

  /** `y` may precede every element of `s`. */
  predicate PrecedesAll(mode: SortMode, y: Song, s: seq<Song>) {
    forall e :: e in s ==> Before(mode, y, e)
  }

  lemma SortedCons(mode: SortMode, y: Song, s: seq<Song>)
    requires PrecedesAll(mode, y, s) && SortedBy(mode, s)
    ensures SortedBy(mode, [y] + s)
  {
    var r := [y] + s;
    forall i, j | 0 <= i < j < |r| ensures Before(mode, r[i], r[j]) {
      if i == 0 {
        assert r[j] == s[j - 1] && s[j - 1] in s;
      } else {
        assert r[i] == s[i - 1] && r[j] == s[j - 1];
      }
    }
  }

  /** An element that may precede the head of a sorted list may precede all of it. */
  lemma PrecedesHead(mode: SortMode, x: Song, s: seq<Song>)
    requires SortedBy(mode, s) && s != [] && Before(mode, x, s[0])
    ensures PrecedesAll(mode, x, s)
  {
    forall e | e in s ensures Before(mode, x, e) {
      var k :| 0 <= k < |s| && s[k] == e;
      if k > 0 { BeforeTransitive(mode, x, s[0], e); }
    }
  }

  /** When `x` may not precede the head, the head may precede `x` and the rest of the list. */
  lemma HeadPrecedes(mode: SortMode, x: Song, s: seq<Song>, rest: seq<Song>)
    requires SortedBy(mode, s) && s != [] && !Before(mode, x, s[0])
    requires multiset(rest) == multiset(s[1..]) + multiset{x}
    ensures PrecedesAll(mode, s[0], rest)
  {
    BeforeTotal(mode, x, s[0]);
    forall e | e in rest ensures Before(mode, s[0], e) {
      assert e in multiset(rest);
      if e != x {
        assert e in multiset(s[1..]);
        var k :| 0 <= k < |s[1..]| && s[1..][k] == e;
        assert s[k + 1] == e;
      }
    }
  }

  /** Insert `x` into a sorted list, before the first element it may precede. */
  function Insert(mode: SortMode, x: Song, s: seq<Song>): (r: seq<Song>)
    requires SortedBy(mode, s)
    ensures SortedBy(mode, r)
    ensures multiset(r) == multiset(s) + multiset{x}
  {
    if s == [] then [x]
    else if Before(mode, x, s[0]) then
      PrecedesHead(mode, x, s);
      SortedCons(mode, x, s);
      [x] + s
    else
      var rest := Insert(mode, x, s[1..]);
      HeadPrecedes(mode, x, s, rest);
      SortedCons(mode, s[0], rest);
      assert s == [s[0]] + s[1..];
      [s[0]] + rest
  }

  /** Insertion sort: a sorted permutation of the input. */
  function SortSongs(mode: SortMode, s: seq<Song>): (r: seq<Song>)
    ensures SortedBy(mode, r)
    ensures multiset(r) == multiset(s)
  {
    if s == [] then []
    else
      assert s == [s[0]] + s[1..];
      Insert(mode, s[0], SortSongs(mode, s[1..]))
  }

  /**
   * `sortedSongs`: a permutation of `favoriteSongs`, ascending by title or by
   * artist (a missing one counting as the empty string), or, for `'dateAdded'`
   * and any other mode, descending by `dateAdded`.
   */
  function SortedSongs(favoriteSongs: seq<Song>, sortBy: string): (r: seq<Song>)
    ensures multiset(r) == multiset(favoriteSongs) && |r| == |favoriteSongs|
    ensures sortBy == "title" ==>
              forall i, j :: 0 <= i < j < |r| ==> StrLe(TitleKey(r[i]), TitleKey(r[j]))
    ensures sortBy == "artist" ==>
              forall i, j :: 0 <= i < j < |r| ==> StrLe(ArtistKey(r[i]), ArtistKey(r[j]))
    ensures sortBy != "title" && sortBy != "artist" ==>
              forall i, j :: 0 <= i < j < |r| ==> r[i].dateAdded >= r[j].dateAdded
  {
    var r := SortSongs(ModeOf(sortBy), favoriteSongs);
    assert |r| == |multiset(r)| == |multiset(favoriteSongs)| == |favoriteSongs|;
    r
  }

  // ---------------------------------------------------------------------------
  // Selection

  /** `handleSongClick`: the next value of `selectedSong`. */
  function SongClick(selected: Option<Song>, song: Song): (r: Option<Song>)
    ensures r == None <==> (selected.Some? && selected.value.id == song.id)
    ensures r.Some? ==> r.value == song
  {
    if selected.Some? && selected.value.id == song.id then None else Some(song)
  }

  /** Clicking the same song twice brings the selection back to nothing, or back to that song if it was selected. */
  lemma SongClickTwice(selected: Option<Song>, song: Song)
    ensures SongClick(SongClick(selected, song), song)
            == if selected.Some? && selected.value.id == song.id then Some(song) else None
  {
  }

  // ---------------------------------------------------------------------------
  // Durations and the count label

  /** `formatDuration`: `"0:00"` for a falsy or non-numeric value, otherwise `M:SS`. */
  function FormatDuration(seconds: DurationValue): string {
    if !seconds.Seconds? || seconds.n == 0 then "0:00"
    else
      var n := seconds.n;
      IntToDecimal(n / 60) + ":" + PadStart(IntToDecimal(JsRem(n, 60)), 2, '0')
  }

  lemma FormatDurationEmpty(seconds: DurationValue)
    requires !seconds.Seconds? || seconds.n == 0
    ensures FormatDuration(seconds) == "0:00"
  {
  }

  /**
   * A positive duration reads `M:SS`: an unpadded minutes field, a colon, two
   * digits below 60, and minutes * 60 + seconds is the duration.
   */
  lemma FormatDurationClock(n: nat)
    requires n > 0
    ensures IsClock(FormatDuration(Seconds(n)), 1)
    ensures ClockSeconds(FormatDuration(Seconds(n))) < 60
    ensures ClockMinutes(FormatDuration(Seconds(n))) * 60 + ClockSeconds(FormatDuration(Seconds(n))) == n
    ensures FormatDuration(Seconds(n))[..|FormatDuration(Seconds(n))| - 3] == NatToDecimal(n / 60)
  {
    var mins, secs := n / 60, n % 60;
    assert JsRem(n, 60) == secs;
    assert IntToDecimal(mins) == NatToDecimal(mins);
    var m := NatToDecimal(mins);
    var sec := PadStart(NatToDecimal(secs), 2, '0');
    ShortDecimal(secs);
    DecimalRoundTrip(mins);
    ZeroPaddedDecimal(secs, 2);
    var r := FormatDuration(Seconds(n));
    assert r == m + ":" + sec;
    JoinClock(m, sec, 1);
  }

  /** The footer text `{n} song{n !== 1 ? 's' : ''}`. */
  function SongCountLabel(count: nat): string {
    NatToDecimal(count) + " song" + (if count != 1 then "s" else "")
  }

  /** The label starts with the count in digits and ends in `s` exactly when the count is not 1. */
  lemma SongCountLabelShape(count: nat)
    ensures var text := SongCountLabel(count);
            var d := NatToDecimal(count);
            && |text| > |d| && text[..|d|] == d && DecimalValue(d) == count
            && (text[|text| - 1] == 's' <==> count != 1)
  {
    DecimalRoundTrip(count);
    var d := NatToDecimal(count);
    assert SongCountLabel(count)[..|d|] == d;
  }
}
