/** The pure list logic of the artist screen: grouping an artist's songs into
    album sections, ordering the songs inside a section and the sections
    themselves, the state published once the artist has loaded, and removing
    a song from that state. `String.lowercase` is a parameter `lower`. */
module ArtistDetail {
  import opened Optional
  import opened Text
  import opened Sorting
  import opened Library

  /** A song, as far as the artist screen reads it. */
  datatype Song = Song(id: string, title: string, albumId: int, album: string,
                       trackNumber: int, year: int, albumArtUriString: Option<string>)

  /** `ArtistAlbumSection`. */
  datatype Section = Section(albumId: int, title: string, year: Option<int>,
                             albumArtUriString: Option<string>, songs: seq<Song>)

  /** `ArtistDetailUiState`. */
  datatype UiState = UiState(artist: Option<Artist>, songs: seq<Song>, albumSections: seq<Section>,
                             effectiveImageUrl: Option<string>, isLoading: bool, error: Option<string>)

  /** `Int.MAX_VALUE` and `Int.MIN_VALUE`. */
  const IntMax: int := 0x7FFF_FFFF
  const IntMin: int := -0x8000_0000

  const UnknownAlbum: string := "Unknown Album"

  // ---------------------------------------------------------------------------
  // Filtering
  // ---------------------------------------------------------------------------

  /** `filter`: the elements satisfying p, in order. */
  function Filter<T(!new)>(s: seq<T>, p: T -> bool): seq<T>
    decreases |s|
  {
    if s == [] then [] else Kept(s[0], p) + Filter(s[1..], p)
  }

  /** x alone when it satisfies p, otherwise nothing. */
  function Kept<T>(x: T, p: T -> bool): seq<T> {
    if p(x) then [x] else []
  }

  /** Filtering keeps exactly the elements satisfying p. */
  lemma {:induction false} FilterMembers<T(!new)>(s: seq<T>, p: T -> bool)
    ensures forall x :: x in Filter(s, p) <==> x in s && p(x)
    decreases |s|
  {
    if s != [] {
      FilterMembers(s[1..], p);
      assert s == [s[0]] + s[1..];
    }
  }

  /** Filtering keeps order: it distributes over concatenation. */
  lemma {:induction false} FilterConcat<T(!new)>(a: seq<T>, b: seq<T>, p: T -> bool)
    ensures Filter(a + b, p) == Filter(a, p) + Filter(b, p)
    decreases |a|
  {
    if a == [] {
      assert a + b == b;
    } else {
      var x, t := a[0], a[1..];
      FilterConcat(t, b, p);
      assert a + b != [] && (a + b)[0] == x && (a + b)[1..] == t + b;
      if p(x) {
        assert Filter(a + b, p) == [x] + (Filter(t, p) + Filter(b, p));
        assert Filter(a, p) == [x] + Filter(t, p);
        assert [x] + (Filter(t, p) + Filter(b, p)) == ([x] + Filter(t, p)) + Filter(b, p);
      } else {
        assert Filter(a + b, p) == Filter(t + b, p);
        assert Filter(a, p) == Filter(t, p);
      }
    }
  }

  lemma FilterSnoc<T(!new)>(s: seq<T>, x: T, p: T -> bool)
    ensures Filter(s + [x], p) == Filter(s, p) + Kept(x, p)
  {
    FilterConcat(s, [x], p);
    assert Filter([x], p) == Kept(x, p) + Filter([], p);
  }

  /** Filtering removes nothing that satisfies p. */
  lemma {:induction false} FilterKeepsAll<T(!new)>(s: seq<T>, p: T -> bool)
    requires forall x :: x in s ==> p(x)
    ensures Filter(s, p) == s
    decreases |s|
  {
    if s != [] {
      assert s == [s[0]] + s[1..];
      FilterKeepsAll(s[1..], p);
    }
  }

  lemma {:induction false} FilterDropsAll<T(!new)>(s: seq<T>, p: T -> bool)
    requires forall x :: x in s ==> !p(x)
    ensures Filter(s, p) == []
    decreases |s|
  {
    if s != [] {
      assert s[0] in s;
      assert forall x :: x in s[1..] ==> x in s;
      FilterDropsAll(s[1..], p);
    }
  }

  /** Filtering two orderings of the same elements keeps them orderings of
      each other. */
  lemma {:induction false} FilterPermutation<T(!new)>(a: seq<T>, b: seq<T>, p: T -> bool)
    requires multiset(a) == multiset(b)
    ensures multiset(Filter(a, p)) == multiset(Filter(b, p))
    decreases |a|
  {
    if a == [] {
      assert |b| == |multiset(b)| == 0;
    } else {
      var x := a[0];
      assert a == [x] + a[1..];
      var j, rest := MatchFirst(a, b);
      var kx := Kept(x, p);
      var u, v := b[..j], b[j + 1..];
      FilterPermutation(a[1..], rest, p);
      FilterConcat(u, [x] + v, p);
      FilterConcat(u, v, p);
      assert ([x] + v)[1..] == v;
      assert Filter([x] + v, p) == kx + Filter(v, p);
      assert Filter(a, p) == kx + Filter(a[1..], p);
      assert multiset(Filter(b, p)) == multiset(Filter(u, p)) + multiset(kx) + multiset(Filter(v, p));
      assert multiset(Filter(rest, p)) == multiset(Filter(u, p)) + multiset(Filter(v, p));
    }
  }

  /** Where the first element of a sits in a permutation b of it, and b
      without it. */
  lemma MatchFirst<T>(a: seq<T>, b: seq<T>) returns (j: nat, rest: seq<T>)
    requires a != [] && multiset(a) == multiset(b)
    ensures j < |b| && b[j] == a[0]
    ensures rest == b[..j] + b[j + 1..] && b == b[..j] + ([a[0]] + b[j + 1..])
    ensures multiset(a[1..]) == multiset(rest)
  {
    assert a[0] in multiset(b);
    j :| 0 <= j < |b| && b[j] == a[0];
    rest := b[..j] + b[j + 1..];
    assert b == b[..j] + ([a[0]] + b[j + 1..]);
    assert a == [a[0]] + a[1..];
    Cancel(multiset(a[1..]), multiset(rest), a[0]);
  }

  lemma Cancel<T>(m1: multiset<T>, m2: multiset<T>, x: T)
    requires multiset{x} + m1 == m2 + multiset{x}
    ensures m1 == m2
  {
    assert m1 == (multiset{x} + m1) - multiset{x};
  }

  // ---------------------------------------------------------------------------
  // Flattening
  // ---------------------------------------------------------------------------

  /** `flatMap { it.songs }`. */
  function Flatten(ss: seq<Section>): seq<Song>
    decreases |ss|
  {
    if ss == [] then [] else ss[0].songs + Flatten(ss[1..])
  }

  lemma {:induction false} FlattenConcat(a: seq<Section>, b: seq<Section>)
    ensures Flatten(a + b) == Flatten(a) + Flatten(b)
    decreases |a|
  {
    if a == [] {
      assert a + b == b;
    } else {
      var t := a[1..];
      FlattenConcat(t, b);
      assert a + b != [] && (a + b)[0] == a[0] && (a + b)[1..] == t + b;
      assert a[0].songs + (Flatten(t) + Flatten(b)) == (a[0].songs + Flatten(t)) + Flatten(b);
    }
  }

  /** Reordering the sections reorders the songs but loses or adds none. */
  lemma {:induction false} FlattenPermutation(a: seq<Section>, b: seq<Section>)
    requires multiset(a) == multiset(b)
    ensures multiset(Flatten(a)) == multiset(Flatten(b))
    decreases |a|
  {
    if a == [] {
      assert |b| == |multiset(b)| == 0;
    } else {
      var x := a[0];
      var j, rest := MatchFirst(a, b);
      var u, v := b[..j], b[j + 1..];
      FlattenPermutation(a[1..], rest);
      FlattenConcat(u, [x] + v);
      FlattenConcat(u, v);
      assert ([x] + v)[1..] == v;
      assert Flatten([x] + v) == x.songs + Flatten(v);
      assert multiset(Flatten(b)) == multiset(Flatten(u)) + multiset(x.songs) + multiset(Flatten(v));
      assert multiset(Flatten(rest)) == multiset(Flatten(u)) + multiset(Flatten(v));
    }
  }

  // ---------------------------------------------------------------------------
  // Song order inside a section
  // ---------------------------------------------------------------------------

  /** `songDisplayComparator`: positive track numbers first, ascending, the
      others as `Int.MAX_VALUE`; ties by lower-cased title. */
  function SongOrder(lower: string -> string): Song -> SortKey {
    (s: Song) => SortKey(if s.trackNumber > 0 then s.trackNumber else IntMax, lower(s.title))
  }

  /** What a section sorted by `songDisplayComparator` guarantees about any
      two of its songs, the earlier one first. */
  lemma SongsInDisplayOrder(lower: string -> string, ss: seq<Song>, i: nat, j: nat)
    requires SortedBy(ss, SongOrder(lower)) && i <= j < |ss|
    ensures ss[i].trackNumber > 0 && ss[j].trackNumber > 0 ==> ss[i].trackNumber <= ss[j].trackNumber
    ensures ss[i].trackNumber <= 0 && ss[j].trackNumber > 0 ==> ss[j].trackNumber >= IntMax
    ensures ss[i].trackNumber == ss[j].trackNumber ==> StrLe(lower(ss[i].title), lower(ss[j].title))
    ensures ss[i].trackNumber <= 0 && ss[j].trackNumber <= 0 ==> StrLe(lower(ss[i].title), lower(ss[j].title))
  {
    SortedPairwise(ss, SongOrder(lower), i, j);
  }

  // ---------------------------------------------------------------------------
  // Grouping
  // ---------------------------------------------------------------------------

  /** The grouping key `albumId to album`. */
  datatype AlbumKey = AlbumKey(albumId: int, album: string)

  function KeyOf(s: Song): AlbumKey {
    AlbumKey(s.albumId, s.album)
  }

  function OfAlbum(k: AlbumKey): Song -> bool {
    (s: Song) => KeyOf(s) == k
  }

  /** One entry of the map `groupBy` builds. */
  datatype Group = Group(key: AlbumKey, songs: seq<Song>)

  /** Where the group with key k is, or -1 when there is none. */
  function FindGroup(g: seq<Group>, k: AlbumKey): (r: int)
    ensures -1 <= r < |g|
    ensures r >= 0 ==> g[r].key == k
    ensures r == -1 ==> forall i :: 0 <= i < |g| ==> g[i].key != k
    decreases |g|
  {
    if g == [] then -1
    else
      var i := FindGroup(g[..|g| - 1], k);
      if i >= 0 then i else if g[|g| - 1].key == k then |g| - 1 else -1
  }

  /** One step of `groupBy`: append the song to its key's group, opening a
      new group at the end for a key not seen before. */
  function AddSong(g: seq<Group>, x: Song): seq<Group> {
    var i := FindGroup(g, KeyOf(x));
    if i >= 0 then g[i := Group(g[i].key, g[i].songs + [x])]
    else g + [Group(KeyOf(x), [x])]
  }

  /** `groupBy { it.albumId to it.album }`: groups in order of first
      occurrence. */
  function GroupBy(songs: seq<Song>): seq<Group>
    decreases |songs|
  {
    if songs == [] then [] else AddSong(GroupBy(songs[..|songs| - 1]), songs[|songs| - 1])
  }

  /** No two groups share a key. */
  predicate DistinctKeys(g: seq<Group>) {
    forall i, j :: 0 <= i < j < |g| ==> g[i].key != g[j].key
  }

  /** Every group is non-empty and holds exactly the songs with its key, in
      input order. */
  predicate GroupsFilter(g: seq<Group>, songs: seq<Song>) {
    forall i :: 0 <= i < |g| ==> g[i].songs != [] && g[i].songs == Filter(songs, OfAlbum(g[i].key))
  }

  /** Every song's key has a group. */
  predicate CoversSongs(g: seq<Group>, songs: seq<Song>) {
    forall x :: x in songs ==> exists i :: 0 <= i < |g| && g[i].key == KeyOf(x)
  }

  /** g groups songs. */
  predicate IsGrouping(g: seq<Group>, songs: seq<Song>) {
    DistinctKeys(g) && GroupsFilter(g, songs) && CoversSongs(g, songs)
  }

  /** All the songs held by the groups, with multiplicity. */
  function Grouped(g: seq<Group>): multiset<Song>
    decreases |g|
  {
    if g == [] then multiset{} else multiset(g[0].songs) + Grouped(g[1..])
  }

  lemma {:induction false} GroupedAppend(g: seq<Group>, i: nat, x: Song)
    requires i < |g|
    ensures Grouped(g[i := Group(g[i].key, g[i].songs + [x])]) == Grouped(g) + multiset{x}
    decreases |g|
  {
    var h := g[i := Group(g[i].key, g[i].songs + [x])];
    if i > 0 {
      assert h[1..] == g[1..][i - 1 := Group(g[i].key, g[i].songs + [x])];
      GroupedAppend(g[1..], i - 1, x);
    } else {
      assert h[1..] == g[1..];
    }
  }

  lemma {:induction false} GroupedSnoc(g: seq<Group>, last: Group)
    ensures Grouped(g + [last]) == Grouped(g) + multiset(last.songs)
    decreases |g|
  {
    if g == [] {
      assert [last][1..] == [];
    } else {
      GroupedSnoc(g[1..], last);
      assert (g + [last])[1..] == g[1..] + [last];
    }
  }

  lemma AddToGroupFilters(g: seq<Group>, p: seq<Song>, x: Song, i: nat)
    requires DistinctKeys(g) && GroupsFilter(g, p) && i < |g| && g[i].key == KeyOf(x)
    ensures GroupsFilter(g[i := Group(g[i].key, g[i].songs + [x])], p + [x])
  {
    var h := g[i := Group(g[i].key, g[i].songs + [x])];
    forall j | 0 <= j < |h|
      ensures h[j].songs != [] && h[j].songs == Filter(p + [x], OfAlbum(h[j].key))
    {
      FilterSnoc(p, x, OfAlbum(g[j].key));
      if j != i {
        assert g[j].key != g[i].key;
      }
    }
  }

  lemma AddToGroupCovers(g: seq<Group>, p: seq<Song>, x: Song, i: nat)
    requires CoversSongs(g, p) && i < |g| && g[i].key == KeyOf(x)
    ensures CoversSongs(g[i := Group(g[i].key, g[i].songs + [x])], p + [x])
  {
    var h := g[i := Group(g[i].key, g[i].songs + [x])];
    forall y | y in p + [x]
      ensures exists j :: 0 <= j < |h| && h[j].key == KeyOf(y)
    {
      if y != x {
        assert y in p;
        var j :| 0 <= j < |g| && g[j].key == KeyOf(y);
        assert h[j].key == KeyOf(y);
      } else {
        assert h[i].key == KeyOf(y);
      }
    }
  }

  /** Appending a song whose key already has a group keeps the grouping. */
  lemma AddToGroup(g: seq<Group>, p: seq<Song>, x: Song, i: nat)
    requires IsGrouping(g, p) && i < |g| && g[i].key == KeyOf(x)
    ensures IsGrouping(g[i := Group(g[i].key, g[i].songs + [x])], p + [x])
  {
    var h := g[i := Group(g[i].key, g[i].songs + [x])];
    assert forall j :: 0 <= j < |h| ==> h[j].key == g[j].key;
    AddToGroupFilters(g, p, x, i);
    AddToGroupCovers(g, p, x, i);
  }

  lemma OpenGroupFilters(g: seq<Group>, p: seq<Song>, x: Song)
    requires GroupsFilter(g, p) && CoversSongs(g, p)
    requires forall j :: 0 <= j < |g| ==> g[j].key != KeyOf(x)
    ensures GroupsFilter(g + [Group(KeyOf(x), [x])], p + [x])
  {
    var k := KeyOf(x);
    var h := g + [Group(k, [x])];
    forall y | y in p
      ensures !OfAlbum(k)(y)
    {
      var j :| 0 <= j < |g| && g[j].key == KeyOf(y);
    }
    FilterDropsAll(p, OfAlbum(k));
    forall j | 0 <= j < |h|
      ensures h[j].songs != [] && h[j].songs == Filter(p + [x], OfAlbum(h[j].key))
    {
      FilterSnoc(p, x, OfAlbum(h[j].key));
      if j < |g| {
        assert h[j] == g[j];
      }
    }
  }

  lemma OpenGroupCovers(g: seq<Group>, p: seq<Song>, x: Song)
    requires CoversSongs(g, p)
    ensures CoversSongs(g + [Group(KeyOf(x), [x])], p + [x])
  {
    var h := g + [Group(KeyOf(x), [x])];
    forall y | y in p + [x]
      ensures exists j :: 0 <= j < |h| && h[j].key == KeyOf(y)
    {
      if y != x {
        assert y in p;
        var j :| 0 <= j < |g| && g[j].key == KeyOf(y);
        assert h[j].key == KeyOf(y);
      } else {
        assert h[|g|].key == KeyOf(y);
      }
    }
  }

  /** Appending a song whose key has no group yet opens a group for it. */
  lemma OpenGroup(g: seq<Group>, p: seq<Song>, x: Song)
    requires IsGrouping(g, p) && forall j :: 0 <= j < |g| ==> g[j].key != KeyOf(x)
    ensures IsGrouping(g + [Group(KeyOf(x), [x])], p + [x])
  {
    OpenGroupFilters(g, p, x);
    OpenGroupCovers(g, p, x);
  }

  /** `groupBy` groups its input. */
  lemma {:induction false} GroupByGroups(songs: seq<Song>)
    ensures IsGrouping(GroupBy(songs), songs)
    decreases |songs|
  {
    if songs != [] {
      var n := |songs| - 1;
      var p, x := songs[..n], songs[n];
      assert songs == p + [x];
      GroupByGroups(p);
      var g := GroupBy(p);
      var i := FindGroup(g, KeyOf(x));
      if i >= 0 {
        AddToGroup(g, p, x, i);
      } else {
        OpenGroup(g, p, x);
      }
    }
  }

  /** `groupBy` loses and duplicates no song. */
  lemma {:induction false} GroupByKeepsSongs(songs: seq<Song>)
    ensures Grouped(GroupBy(songs)) == multiset(songs)
    decreases |songs|
  {
    if songs != [] {
      var n := |songs| - 1;
      var p, x := songs[..n], songs[n];
      assert songs == p + [x];
      GroupByKeepsSongs(p);
      var g := GroupBy(p);
      var i := FindGroup(g, KeyOf(x));
      if i >= 0 {
        GroupedAppend(g, i, x);
      } else {
        GroupedSnoc(g, Group(KeyOf(x), [x]));
      }
    }
  }

  // ---------------------------------------------------------------------------
  // One section
  // ---------------------------------------------------------------------------

  /** `albumSongs.mapNotNull { it.year.takeIf { it > 0 } }.maxOrNull()`. */
  function MaxPositiveYear(ss: seq<Song>): (r: Option<int>)
    ensures r.None? <==> forall s :: s in ss ==> s.year <= 0
    ensures r.Some? ==> r.value > 0 && exists s :: s in ss && s.year == r.value
    ensures r.Some? ==> forall s :: s in ss && s.year > 0 ==> s.year <= r.value
    decreases |ss|
  {
    if ss == [] then None
    else
      assert ss == ss[..|ss| - 1] + [ss[|ss| - 1]];
      var m := MaxPositiveYear(ss[..|ss| - 1]);
      var y := ss[|ss| - 1].year;
      if y > 0 && (m.None? || y > m.value) then Some(y) else m
  }

  /** `albumSongs.firstNotNullOfOrNull { it.albumArtUriString }`. */
  function FirstArt(ss: seq<Song>): (r: Option<string>)
    ensures r.None? <==> forall i :: 0 <= i < |ss| ==> ss[i].albumArtUriString.None?
    decreases |ss|
  {
    if ss == [] then None
    else if ss[0].albumArtUriString.Some? then ss[0].albumArtUriString
    else
      assert forall i :: 1 <= i < |ss| ==> ss[i] == ss[1..][i - 1];
      FirstArt(ss[1..])
  }

  /** A found art URI is that of the first song that has one. */
  lemma {:induction false} FirstArtIsFirst(ss: seq<Song>) returns (i: nat)
    requires FirstArt(ss).Some?
    ensures i < |ss| && ss[i].albumArtUriString == FirstArt(ss)
    ensures forall j :: 0 <= j < i ==> ss[j].albumArtUriString.None?
    decreases |ss|
  {
    if ss[0].albumArtUriString.Some? {
      i := 0;
    } else {
      var k := FirstArtIsFirst(ss[1..]);
      i := k + 1;
      assert forall j :: 1 <= j < i ==> ss[j] == ss[1..][j - 1];
    }
  }

  /** `key.second.takeIf { it.isNotBlank() } ?: "Unknown Album"`. */
  function SectionTitle(album: string): (r: string)
    ensures !IsBlank(album) ==> r == album
    ensures IsBlank(album) ==> r == UnknownAlbum
  {
    Elvis(TakeIfNotBlank(Some(album)), Some(UnknownAlbum)).value
  }

  /** The section built for one group. */
  function MakeSection(lower: string -> string, g: Group): Section {
    Section(g.key.albumId, SectionTitle(g.key.album), MaxPositiveYear(g.songs),
            FirstArt(g.songs), SortBy(g.songs, SongOrder(lower)))
  }

  /** What a section says about the group it was built from: its album, the
      newest positive year of its songs, the first art URI in input order,
      and the group's songs in display order. */
  lemma MakeSectionFacts(lower: string -> string, g: Group)
    requires g.songs != [] && forall s :: s in g.songs ==> KeyOf(s) == g.key
    ensures var sec := MakeSection(lower, g);
      && sec.albumId == g.key.albumId
      && sec.title == (if IsBlank(g.key.album) then UnknownAlbum else g.key.album)
      && sec.songs != [] && multiset(sec.songs) == multiset(g.songs)
      && (forall s :: s in sec.songs ==> s.albumId == sec.albumId && s.album == g.key.album)
      && SortedBy(sec.songs, SongOrder(lower))
      && (sec.year.None? <==> forall s :: s in sec.songs ==> s.year <= 0)
      && (sec.year.Some? ==> sec.year.value > 0 && exists s :: s in sec.songs && s.year == sec.year.value)
      && (sec.year.Some? ==> forall s :: s in sec.songs && s.year > 0 ==> s.year <= sec.year.value)
      && (sec.albumArtUriString.None? <==> forall s :: s in sec.songs ==> s.albumArtUriString.None?)
  {
    var sec := MakeSection(lower, g);
    SortByIsSorted(g.songs, SongOrder(lower));
    SortByIsPermutation(g.songs, SongOrder(lower));
    assert forall s :: s in sec.songs <==> s in g.songs by {
      assert forall s :: s in sec.songs <==> s in multiset(sec.songs);
    }
    if sec.albumArtUriString.Some? {
      var i := FirstArtIsFirst(g.songs);
      assert g.songs[i] in sec.songs;
    }
  }

  function SectionsOf(lower: string -> string, g: seq<Group>): (r: seq<Section>)
    ensures |r| == |g|
  {
    seq(|g|, i requires 0 <= i < |g| => MakeSection(lower, g[i]))
  }

  lemma {:induction false} SectionsKeepSongs(lower: string -> string, g: seq<Group>)
    ensures multiset(Flatten(SectionsOf(lower, g))) == Grouped(g)
    decreases |g|
  {
    if g != [] {
      var ss := SectionsOf(lower, g);
      SectionsKeepSongs(lower, g[1..]);
      SortByIsPermutation(g[0].songs, SongOrder(lower));
      assert ss[1..] == SectionsOf(lower, g[1..]);
      assert Flatten(ss) == ss[0].songs + Flatten(ss[1..]);
    }
  }

  // ---------------------------------------------------------------------------
  // Section order
  // ---------------------------------------------------------------------------

  function HasYear(): Section -> bool {
    (sec: Section) => sec.year.Some?
  }

  function HasNoYear(): Section -> bool {
    Not(HasYear())
  }

  /** `compareByDescending { it.year ?: Int.MIN_VALUE }.thenBy { it.title.lowercase() }`,
      as an ascending key. */
  function DatedOrder(lower: string -> string): Section -> SortKey {
    (sec: Section) => SortKey(-(if sec.year.Some? then sec.year.value else IntMin), lower(sec.title))
  }

  /** `sortedBy { it.title.lowercase() }`. */
  function TitleOrder(lower: string -> string): Section -> SortKey {
    (sec: Section) => SortKey(0, lower(sec.title))
  }

  /** `partition { it.year != null }`, each half sorted, dated first. */
  function OrderSections(lower: string -> string, ss: seq<Section>): seq<Section> {
    SortBy(Filter(ss, HasYear()), DatedOrder(lower)) + SortBy(Filter(ss, HasNoYear()), TitleOrder(lower))
  }

  /** The complement of a predicate. */
  function Not<T>(p: T -> bool): T -> bool {
    (x: T) => !p(x)
  }

  /** Splitting by a predicate and its complement loses and adds nothing. */
  lemma {:induction false} FilterSplitPermutes<T(!new)>(s: seq<T>, p: T -> bool)
    ensures multiset(Filter(s, p)) + multiset(Filter(s, Not(p))) == multiset(s)
    decreases |s|
  {
    if s != [] {
      var x, t := s[0], s[1..];
      FilterSplitPermutes(t, p);
      var a, b := Filter(t, p), Filter(t, Not(p));
      assert multiset(s) == multiset{x} + multiset(t) by {
        assert s == [x] + t;
      }
      if p(x) {
        assert Filter(s, p) == [x] + a && Filter(s, Not(p)) == b;
        assert multiset([x] + a) == multiset{x} + multiset(a);
      } else {
        assert Filter(s, p) == a && Filter(s, Not(p)) == [x] + b;
        assert multiset([x] + b) == multiset{x} + multiset(b);
      }
    }
  }

  /** Ordering the sections loses and adds none. */
  lemma OrderSectionsPermutes(lower: string -> string, ss: seq<Section>)
    ensures multiset(OrderSections(lower, ss)) == multiset(ss)
  {
    FilterSplitPermutes(ss, HasYear());
    SortByIsPermutation(Filter(ss, HasYear()), DatedOrder(lower));
    SortByIsPermutation(Filter(ss, HasNoYear()), TitleOrder(lower));
  }

  /** The elements of a sorted filtered sequence come from the input and satisfy the filter. */
  lemma SortedFilterMembers<T(!new)>(s: seq<T>, p: T -> bool, key: T -> SortKey)
    ensures forall x :: x in SortBy(Filter(s, p), key) ==> x in s && p(x)
  {
    SortByIsPermutation(Filter(s, p), key);
    FilterMembers(s, p);
    forall x | x in SortBy(Filter(s, p), key)
      ensures x in s && p(x)
    {
      assert x in multiset(SortBy(Filter(s, p), key));
    }
  }

  /** The ordered sections: the dated ones first, sorted by descending year
      then title, the others after, sorted by title. */
  lemma OrderSectionsOrders(lower: string -> string, ss: seq<Section>)
    ensures var r := OrderSections(lower, ss);
            var p := |SortBy(Filter(ss, HasYear()), DatedOrder(lower))|;
      && p <= |r|
      && (forall i :: 0 <= i < p ==> r[i].year.Some?)
      && (forall i :: p <= i < |r| ==> r[i].year.None?)
      && SortedBy(r[..p], DatedOrder(lower)) && SortedBy(r[p..], TitleOrder(lower))
  {
    var a := SortBy(Filter(ss, HasYear()), DatedOrder(lower));
    var b := SortBy(Filter(ss, HasNoYear()), TitleOrder(lower));
    var r := a + b;
    SortedFilterMembers(ss, HasYear(), DatedOrder(lower));
    SortedFilterMembers(ss, HasNoYear(), TitleOrder(lower));
    SortByIsSorted(Filter(ss, HasYear()), DatedOrder(lower));
    SortByIsSorted(Filter(ss, HasNoYear()), TitleOrder(lower));
    assert r[..|a|] == a && r[|a|..] == b;
    forall i | 0 <= i < |a|
      ensures r[i].year.Some?
    {
      assert r[i] == a[i] && a[i] in a;
    }
    forall i | |a| <= i < |r|
      ensures r[i].year.None?
    {
      assert r[i] == b[i - |a|] && b[i - |a|] in b;
    }
  }

  /** Two dated sections in order: the newer year first, and for the same
      year the smaller lower-cased title first. */
  lemma DatedInOrder(lower: string -> string, ds: seq<Section>, i: nat, j: nat)
    requires SortedBy(ds, DatedOrder(lower)) && i <= j < |ds| && ds[i].year.Some? && ds[j].year.Some?
    ensures ds[i].year.value >= ds[j].year.value
    ensures ds[i].year.value == ds[j].year.value ==> StrLe(lower(ds[i].title), lower(ds[j].title))
  {
    SortedPairwise(ds, DatedOrder(lower), i, j);
  }

  lemma UndatedInOrder(lower: string -> string, us: seq<Section>, i: nat, j: nat)
    requires SortedBy(us, TitleOrder(lower)) && i <= j < |us|
    ensures StrLe(lower(us[i].title), lower(us[j].title))
  {
    SortedPairwise(us, TitleOrder(lower), i, j);
  }

  // ---------------------------------------------------------------------------
  // buildAlbumSections
  // ---------------------------------------------------------------------------

  /** `buildAlbumSections`. */
  function BuildAlbumSections(lower: string -> string, songs: seq<Song>): (r: seq<Section>)
    ensures songs == [] ==> r == []
  {
    if songs == [] then [] else OrderSections(lower, SectionsOf(lower, GroupBy(songs)))
  }

  /** One section per group, and every song in exactly one section: the
      sections are those of the groups, and their songs together are the
      input songs. */
  lemma BuildAlbumSectionsPartitions(lower: string -> string, songs: seq<Song>)
    ensures multiset(BuildAlbumSections(lower, songs)) == multiset(SectionsOf(lower, GroupBy(songs)))
    ensures |BuildAlbumSections(lower, songs)| == |GroupBy(songs)|
    ensures multiset(Flatten(BuildAlbumSections(lower, songs))) == multiset(songs)
  {
    var g := GroupBy(songs);
    var ss := SectionsOf(lower, g);
    var r := BuildAlbumSections(lower, songs);
    GroupByKeepsSongs(songs);
    SectionsKeepSongs(lower, g);
    if songs != [] {
      OrderSectionsPermutes(lower, ss);
      FlattenPermutation(r, ss);
    }
    assert |r| == |multiset(r)| == |multiset(ss)| == |ss|;
  }

  /** Every section is built from the input songs sharing one album key. */
  lemma SectionOfAlbum(lower: string -> string, songs: seq<Song>, sec: Section) returns (k: AlbumKey)
    requires sec in BuildAlbumSections(lower, songs)
    ensures Filter(songs, OfAlbum(k)) != []
    ensures sec == MakeSection(lower, Group(k, Filter(songs, OfAlbum(k))))
  {
    var g := GroupBy(songs);
    var ss := SectionsOf(lower, g);
    OrderSectionsPermutes(lower, ss);
    assert sec in multiset(ss);
    var i :| 0 <= i < |g| && ss[i] == sec;
    GroupByGroups(songs);
    k := g[i].key;
    assert g[i].songs == Filter(songs, OfAlbum(k));
  }

  /** Dated sections come first, by descending year and then lower-cased
      title; undated ones follow, by lower-cased title. */
  predicate SectionsInOrder(lower: string -> string, r: seq<Section>) {
    && (forall i, j :: 0 <= i < j < |r| && r[i].year.None? ==> r[j].year.None?)
    && (forall i, j :: 0 <= i < j < |r| && r[j].year.Some? ==>
          r[i].year.Some? && r[i].year.value >= r[j].year.value)
    && (forall i, j :: 0 <= i < j < |r| && r[j].year.Some? && r[i].year == r[j].year ==>
          StrLe(lower(r[i].title), lower(r[j].title)))
    && (forall i, j :: 0 <= i < j < |r| && r[i].year.None? ==>
          StrLe(lower(r[i].title), lower(r[j].title)))
  }

  lemma DatedPartInOrder(lower: string -> string, r: seq<Section>, p: nat)
    requires p <= |r| && (forall i :: 0 <= i < p ==> r[i].year.Some?)
    requires forall i :: p <= i < |r| ==> r[i].year.None?
    requires SortedBy(r[..p], DatedOrder(lower))
    ensures forall i, j :: 0 <= i < j < |r| && r[j].year.Some? ==>
              r[i].year.Some? && r[i].year.value >= r[j].year.value
    ensures forall i, j :: 0 <= i < j < |r| && r[j].year.Some? && r[i].year == r[j].year ==>
              StrLe(lower(r[i].title), lower(r[j].title))
  {
    forall i, j | 0 <= i < j < |r| && r[j].year.Some?
      ensures r[i].year.Some? && r[i].year.value >= r[j].year.value
      ensures r[i].year == r[j].year ==> StrLe(lower(r[i].title), lower(r[j].title))
    {
      assert r[..p][i] == r[i] && r[..p][j] == r[j];
      DatedInOrder(lower, r[..p], i, j);
    }
  }

  lemma UndatedPartInOrder(lower: string -> string, r: seq<Section>, p: nat)
    requires p <= |r| && (forall i :: 0 <= i < p ==> r[i].year.Some?)
    requires forall i :: p <= i < |r| ==> r[i].year.None?
    requires SortedBy(r[p..], TitleOrder(lower))
    ensures forall i, j :: 0 <= i < j < |r| && r[i].year.None? ==> r[j].year.None?
    ensures forall i, j :: 0 <= i < j < |r| && r[i].year.None? ==>
              StrLe(lower(r[i].title), lower(r[j].title))
  {
    forall i, j | 0 <= i < j < |r| && r[i].year.None?
      ensures r[j].year.None? && StrLe(lower(r[i].title), lower(r[j].title))
    {
      assert r[p..][i - p] == r[i] && r[p..][j - p] == r[j];
      UndatedInOrder(lower, r[p..], i - p, j - p);
    }
  }

  /** The sections `buildAlbumSections` returns are in order. */
  lemma BuildAlbumSectionsOrder(lower: string -> string, songs: seq<Song>)
    ensures SectionsInOrder(lower, BuildAlbumSections(lower, songs))
  {
    var r := BuildAlbumSections(lower, songs);
    if songs != [] {
      var ss := SectionsOf(lower, GroupBy(songs));
      var p := |SortBy(Filter(ss, HasYear()), DatedOrder(lower))|;
      OrderSectionsOrders(lower, ss);
      DatedPartInOrder(lower, r, p);
      UndatedPartInOrder(lower, r, p);
    }
  }

  /** The state published once the artist and their songs have loaded: the
      songs in section order, and the resolved image recorded as the
      artist's looked-up image unless they have a custom one. */
  function LoadedState(lower: string -> string, artist: Artist, songs: seq<Song>,
                       effectiveUrl: Option<string>): (r: UiState)
    ensures r.songs == Flatten(r.albumSections) && multiset(r.songs) == multiset(songs)
    ensures !r.isLoading && r.error.None? && r.effectiveImageUrl == effectiveUrl
  {
    var sections := BuildAlbumSections(lower, songs);
    BuildAlbumSectionsPartitions(lower, songs);
    var custom := artist.customImageUri;
    UiState(Some(artist.(imageUrl := if custom.None? || IsBlank(custom.value) then effectiveUrl else artist.imageUrl)),
            Flatten(sections), sections, effectiveUrl, false, None)
  }

  /** The published artist shows the resolved image: its own custom image
      when it has one, otherwise the resolved one when that is not blank. */
  lemma LoadedArtistShowsResolvedImage(lower: string -> string, artist: Artist, songs: seq<Song>,
                                       effectiveUrl: Option<string>)
    ensures var a := LoadedState(lower, artist, songs, effectiveUrl).artist;
      && a.Some? && a.value.id == artist.id && a.value.customImageUri == artist.customImageUri
      && (artist.customImageUri.None? || IsBlank(artist.customImageUri.value) ==>
            EffectiveImageUrl(a.value) == TakeIfNotBlank(effectiveUrl))
      && (artist.customImageUri.Some? && !IsBlank(artist.customImageUri.value) ==>
            a.value == artist)
  {
  }

  // ---------------------------------------------------------------------------
  // removeSongFromAlbumSection
  // ---------------------------------------------------------------------------

  /** `filterNot { it.id == songId }`. */
  function Keeps(id: string): Song -> bool {
    (s: Song) => s.id != id
  }

  /** One section without the song, or nothing when no song is left. */
  function Trim(sec: Section, id: string): seq<Section> {
    var kept := Filter(sec.songs, Keeps(id));
    if kept == [] then [] else [sec.(songs := kept)]
  }

  /** The section list after removing a song: each section loses the song,
      and sections left empty are dropped. */
  function RemoveFromSections(ss: seq<Section>, id: string): seq<Section>
    decreases |ss|
  {
    if ss == [] then [] else Trim(ss[0], id) + RemoveFromSections(ss[1..], id)
  }

  /** No remaining section is empty or holds the song. */
  lemma {:induction false} RemovalLeavesNoTrace(ss: seq<Section>, id: string)
    ensures forall i :: 0 <= i < |RemoveFromSections(ss, id)| ==>
              RemoveFromSections(ss, id)[i].songs != [] &&
              forall s :: s in RemoveFromSections(ss, id)[i].songs ==> s.id != id
    decreases |ss|
  {
    if ss != [] {
      var kept := Filter(ss[0].songs, Keeps(id));
      var head := Trim(ss[0], id);
      var q := RemoveFromSections(ss[1..], id);
      var r := RemoveFromSections(ss, id);
      RemovalLeavesNoTrace(ss[1..], id);
      FilterMembers(ss[0].songs, Keeps(id));
      assert r == head + q;
      forall i | 0 <= i < |r|
        ensures r[i].songs != [] && forall s :: s in r[i].songs ==> s.id != id
      {
        if i < |head| {
          assert r[i].songs == kept;
          forall s | s in kept
            ensures s.id != id
          {
            assert Keeps(id)(s);
          }
        } else {
          assert r[i] == q[i - |head|];
        }
      }
    }
  }

  /** Every surviving section is an input section that lost only that song:
      the i-th survivor is the j-th input section, filtered. */
  lemma {:induction false} SurvivorComesFromInput(ss: seq<Section>, id: string, i: nat) returns (j: nat)
    requires i < |RemoveFromSections(ss, id)|
    ensures j < |ss| && RemoveFromSections(ss, id)[i] == ss[j].(songs := Filter(ss[j].songs, Keeps(id)))
    decreases |ss|
  {
    var kept := Filter(ss[0].songs, Keeps(id));
    var head := Trim(ss[0], id);
    var q := RemoveFromSections(ss[1..], id);
    assert RemoveFromSections(ss, id) == head + q;
    if i < |head| {
      j := 0;
    } else {
      var j' := SurvivorComesFromInput(ss[1..], id, i - |head|);
      j := j' + 1;
      assert ss[1..][j'] == ss[j];
    }
  }

  /** The survivors keep their relative order: removal distributes over
      concatenation. */
  lemma {:induction false} RemoveFromSectionsConcat(a: seq<Section>, b: seq<Section>, id: string)
    ensures RemoveFromSections(a + b, id) == RemoveFromSections(a, id) + RemoveFromSections(b, id)
    decreases |a|
  {
    if a == [] {
      assert a + b == b;
    } else {
      var t := a[1..];
      RemoveFromSectionsConcat(t, b, id);
      assert a + b != [] && (a + b)[0] == a[0] && (a + b)[1..] == t + b;
      var h := Trim(a[0], id);
      assert h + (RemoveFromSections(t, id) + RemoveFromSections(b, id)) ==
             (h + RemoveFromSections(t, id)) + RemoveFromSections(b, id);
    }
  }

  /** The songs of the remaining sections are the old ones without the song. */
  lemma {:induction false} FlattenAfterRemove(ss: seq<Section>, id: string)
    ensures Flatten(RemoveFromSections(ss, id)) == Filter(Flatten(ss), Keeps(id))
    decreases |ss|
  {
    if ss != [] {
      var kept := Filter(ss[0].songs, Keeps(id));
      var head := Trim(ss[0], id);
      FlattenAfterRemove(ss[1..], id);
      FlattenConcat(head, RemoveFromSections(ss[1..], id));
      FilterConcat(ss[0].songs, Flatten(ss[1..]), Keeps(id));
      if kept != [] {
        assert Flatten(head) == kept + Flatten([]);
      }
    }
  }

  /** Removing a song no section holds changes nothing. */
  lemma {:induction false} RemoveAbsentSong(ss: seq<Section>, id: string)
    requires forall i :: 0 <= i < |ss| ==> ss[i].songs != [] && forall s :: s in ss[i].songs ==> s.id != id
    ensures RemoveFromSections(ss, id) == ss
    decreases |ss|
  {
    if ss != [] {
      RemoveAbsentSong(ss[1..], id);
      FilterKeepsAll(ss[0].songs, Keeps(id));
      assert ss == [ss[0]] + ss[1..];
    }
  }

  /** The update `removeSongFromAlbumSection` applies to the screen state. */
  function RemoveSong(state: UiState, id: string): (r: UiState)
    ensures forall s :: s in r.songs <==> s in state.songs && s.id != id
    ensures forall i :: 0 <= i < |r.albumSections| ==>
              r.albumSections[i].songs != [] && forall s :: s in r.albumSections[i].songs ==> s.id != id
    ensures r.artist == state.artist && r.effectiveImageUrl == state.effectiveImageUrl
    ensures r.isLoading == state.isLoading && r.error == state.error
  {
    FilterMembers(state.songs, Keeps(id));
    RemovalLeavesNoTrace(state.albumSections, id);
    state.(albumSections := RemoveFromSections(state.albumSections, id),
           songs := Filter(state.songs, Keeps(id)))
  }

  /** When the song list is the sections' songs in order, it stays so. */
  lemma RemoveSongKeepsSongsInSections(state: UiState, id: string)
    requires state.songs == Flatten(state.albumSections)
    ensures RemoveSong(state, id).songs == Flatten(RemoveSong(state, id).albumSections)
  {
    FlattenAfterRemove(state.albumSections, id);
  }

  /** Removing the same song twice is removing it once. */
  lemma RemoveSongIsIdempotent(state: UiState, id: string)
    ensures RemoveSong(RemoveSong(state, id), id) == RemoveSong(state, id)
  {
    var r := RemoveSong(state, id);
    RemoveAbsentSong(r.albumSections, id);
    FilterKeepsAll(r.songs, Keeps(id));
  }

  /** Removing one song from the published state leaves exactly the input
      songs without it, still grouped in section order. */
  lemma RemoveFromLoadedState(lower: string -> string, artist: Artist, songs: seq<Song>,
                              effectiveUrl: Option<string>, id: string)
    ensures var r := RemoveSong(LoadedState(lower, artist, songs, effectiveUrl), id);
      && r.songs == Flatten(r.albumSections)
      && multiset(r.songs) == multiset(Filter(songs, Keeps(id)))
  {
    var st := LoadedState(lower, artist, songs, effectiveUrl);
    RemoveSongKeepsSongsInSections(st, id);
    FilterPermutation(st.songs, songs, Keeps(id));
  }
}
