/** The measures `compareTastes` is built from: cosine similarity of metric
    vectors, shared artists and tracks, the top-five genre comparison, and the
    averaging of several track-metric records. */
module Similarity {
  import opened Common
  import opened Spotify
  import opened GenreTally

  // ---------------------------------------------------------------------------
  // calculateCosineSimilarity

  /** `sqrt` behaves as `Math.sqrt` on the non-negative reals. */
  ghost predicate IsSquareRoot(sqrt: real -> real)
  {
    forall x :: x >= 0.0 ==> sqrt(x) >= 0.0 && sqrt(x) * sqrt(x) == x
  }

  function Dot(v1: seq<real>, v2: seq<real>): real
    requires |v1| == |v2|
  {
    if v1 == [] then 0.0
    else Dot(v1[..|v1| - 1], v2[..|v2| - 1]) + v1[|v1| - 1] * v2[|v2| - 1]
  }

  /** The squared length of a vector. */
  function SquaredNorm(v: seq<real>): (n: real)
    ensures n >= 0.0
  {
    if v == [] then 0.0 else SquaredNorm(v[..|v| - 1]) + v[|v| - 1] * v[|v| - 1]
  }

  const LengthMismatch := "Vectors must have the same length"

  /** `dot / (Math.sqrt(n1) * Math.sqrt(n2))`, for positive squared norms. */
  function Quotient(dot: real, n1: real, n2: real, sqrt: real -> real): real
    requires IsSquareRoot(sqrt) && n1 > 0.0 && n2 > 0.0
  {
    RootProductPositive(sqrt, n1, n2);
    dot / (sqrt(n1) * sqrt(n2))
  }

  /** The cosine of the angle between two vectors; 0 when either is all zeros. */
  function Cosine(v1: seq<real>, v2: seq<real>, sqrt: real -> real): Result<real>
    requires IsSquareRoot(sqrt)
  {
    if |v1| != |v2| then Err(LengthMismatch)
    else
      var n1, n2 := SquaredNorm(v1), SquaredNorm(v2);
      if n1 == 0.0 || n2 == 0.0 then Ok(0.0)
      else Ok(Quotient(Dot(v1, v2), n1, n2, sqrt))
  }

  lemma RootProductPositive(sqrt: real -> real, n1: real, n2: real)
    requires IsSquareRoot(sqrt) && n1 > 0.0 && n2 > 0.0
    ensures sqrt(n1) * sqrt(n2) > 0.0
  {
    var a, b := sqrt(n1), sqrt(n2);
    assert a * a == n1 && b * b == n2;
    assert a > 0.0 && b > 0.0;
  }

  /** The accumulating loop of `calculateCosineSimilarity`. */
  method CalculateCosineSimilarity(vec1: seq<real>, vec2: seq<real>, sqrt: real -> real)
    returns (r: Result<real>)
    requires IsSquareRoot(sqrt)
    ensures r == Cosine(vec1, vec2, sqrt)
  {
    if |vec1| != |vec2| {
      return Err(LengthMismatch);
    }
    var dot, norm1, norm2 := 0.0, 0.0, 0.0;
    for i := 0 to |vec1|
      invariant dot == Dot(vec1[..i], vec2[..i])
      invariant norm1 == SquaredNorm(vec1[..i])
      invariant norm2 == SquaredNorm(vec2[..i])
    {
      assert vec1[..i + 1][..i] == vec1[..i] && vec2[..i + 1][..i] == vec2[..i];
      dot := dot + vec1[i] * vec2[i];
      norm1 := norm1 + vec1[i] * vec1[i];
      norm2 := norm2 + vec2[i] * vec2[i];
    }
    assert vec1[..|vec1|] == vec1 && vec2[..|vec2|] == vec2;
    if norm1 == 0.0 || norm2 == 0.0 {
      return Ok(0.0);
    }
    r := Ok(Quotient(dot, norm1, norm2, sqrt));
  }

  lemma {:induction false} DotSymmetric(v1: seq<real>, v2: seq<real>)
    requires |v1| == |v2|
    ensures Dot(v1, v2) == Dot(v2, v1)
  {
    if v1 != [] {
      DotSymmetric(v1[..|v1| - 1], v2[..|v2| - 1]);
    }
  }

  /** Throws exactly when the lengths differ; otherwise the result does not depend
      on the order of the arguments, and an all-zeros vector gives 0. */
  lemma CosineSpec(v1: seq<real>, v2: seq<real>, sqrt: real -> real)
    requires IsSquareRoot(sqrt)
    ensures Cosine(v1, v2, sqrt).Err? <==> |v1| != |v2|
    ensures Cosine(v1, v2, sqrt) == Cosine(v2, v1, sqrt)
    ensures |v1| == |v2| && (SquaredNorm(v1) == 0.0 || SquaredNorm(v2) == 0.0) ==> Cosine(v1, v2, sqrt) == Ok(0.0)
  {
    if |v1| == |v2| {
      DotSymmetric(v1, v2);
    }
  }

  /** A vector that is not all zeros has cosine 1 with itself. */
  lemma CosineOfSelf(v: seq<real>, sqrt: real -> real)
    requires IsSquareRoot(sqrt) && SquaredNorm(v) != 0.0
    ensures Cosine(v, v, sqrt) == Ok(1.0)
  {
    var n := SquaredNorm(v);
    DotIsSquaredNorm(v);
    var d := sqrt(n) * sqrt(n);
    assert d == n;
    DivSelf(n, d);
  }

  lemma DivSelf(m: real, d: real)
    requires m == d && d != 0.0
    ensures m / d == 1.0
  {
  }

  lemma {:induction false} DotIsSquaredNorm(v: seq<real>)
    ensures Dot(v, v) == SquaredNorm(v)
  {
    if v != [] {
      DotIsSquaredNorm(v[..|v| - 1]);
    }
  }

  // ---------------------------------------------------------------------------
  // findSharedItems

  function ArtistId(a: Artist): string { a.id }

  function TrackId(t: Track): string { t.id }

  function Ids<T>(items: seq<T>, id: T -> string): (ids: seq<string>)
    ensures |ids| == |items| && forall i :: 0 <= i < |items| ==> ids[i] == id(items[i])
  {
    seq(|items|, i requires 0 <= i < |items| => id(items[i]))
  }

  /** The items of the second list whose id is the id of some item of the first. */
  function FindSharedItems<T(==)>(items1: seq<T>, items2: seq<T>, id: T -> string): seq<T>
  {
    if items2 == [] then []
    else
      var last := items2[|items2| - 1];
      FindSharedItems(items1, items2[..|items2| - 1], id) + (if id(last) in Ids(items1, id) then [last] else [])
  }

  /** The shared items keep the second list's order and multiplicity: every item
      of the second list whose id the first list has, as often as it occurs there,
      and nothing else. */
  lemma {:induction false} SharedItemsSpec<T>(items1: seq<T>, items2: seq<T>, id: T -> string)
    ensures IsSubsequence(FindSharedItems(items1, items2, id), items2)
    ensures |FindSharedItems(items1, items2, id)| <= |items2|
    ensures forall x :: x in FindSharedItems(items1, items2, id) <==> x in items2 && id(x) in Ids(items1, id)
    ensures forall x :: Count(FindSharedItems(items1, items2, id), x) ==
                        if id(x) in Ids(items1, id) then Count(items2, x) else 0
  {
    var r := FindSharedItems(items1, items2, id);
    if items2 != [] {
      var init, last := items2[..|items2| - 1], items2[|items2| - 1];
      SharedItemsSpec(items1, init, id);
      var r0 := FindSharedItems(items1, init, id);
      assert items2 == init + [last];
      assert r == r0 + (if id(last) in Ids(items1, id) then [last] else []);
      forall x ensures Count(r, x) == if id(x) in Ids(items1, id) then Count(items2, x) else 0 {
        CountAppend(init, last, x);
        assert Count(r0, x) == if id(x) in Ids(items1, id) then Count(init, x) else 0;
        if id(last) in Ids(items1, id) {
          assert r == r0 + [last];
          CountAppend(r0, last, x);
        } else {
          assert r == r0;
          assert last == x ==> id(x) !in Ids(items1, id);
        }
      }
      if id(last) in Ids(items1, id) {
        assert r[..|r| - 1] == r0;
      } else {
        assert r == r0;
        SubsequenceWeaken(r0, init, last);
      }
    }
  }

  lemma SubsequenceWeaken<T>(r: seq<T>, s: seq<T>, x: T)
    requires IsSubsequence(r, s)
    ensures IsSubsequence(r, s + [x])
    decreases |s|, 1
  {
    assert (s + [x])[..|s|] == s;
    if r != [] && r[|r| - 1] == x {
      SubsequenceDropLast(r, s);
    }
  }

  lemma SubsequenceDropLast<T>(r: seq<T>, s: seq<T>)
    requires r != [] && IsSubsequence(r, s)
    ensures IsSubsequence(r[..|r| - 1], s)
    decreases |s|, 0
  {
    var init, s' := r[..|r| - 1], s[..|s| - 1];
    assert s' + [s[|s| - 1]] == s;
    if r[|r| - 1] == s[|s| - 1] {
      SubsequenceWeaken(init, s', s[|s| - 1]);
    } else {
      SubsequenceDropLast(r, s');
      SubsequenceWeaken(init, s', s[|s| - 1]);
    }
  }

  /** An id is shared exactly when both lists have an item with that id. */
  lemma SharedIds<T>(items1: seq<T>, items2: seq<T>, id: T -> string)
    ensures forall k :: k in Ids(FindSharedItems(items1, items2, id), id) <==>
                        k in Ids(items1, id) && k in Ids(items2, id)
  {
    SharedItemsSpec(items1, items2, id);
    var r := FindSharedItems(items1, items2, id);
    forall k ensures k in Ids(r, id) ==> k in Ids(items1, id) && k in Ids(items2, id) {
      if k in Ids(r, id) {
        var i :| 0 <= i < |r| && Ids(r, id)[i] == k;
        assert r[i] in r;
        var j :| 0 <= j < |items2| && items2[j] == r[i];
        assert Ids(items2, id)[j] == k;
      }
    }
    forall k ensures k in Ids(items1, id) && k in Ids(items2, id) ==> k in Ids(r, id) {
      if k in Ids(items1, id) && k in Ids(items2, id) {
        var j :| 0 <= j < |items2| && Ids(items2, id)[j] == k;
        assert items2[j] in r;
        var m :| 0 <= m < |r| && r[m] == items2[j];
        assert Ids(r, id)[m] == k;
      }
    }
  }

  /** Which ids are shared does not depend on which user comes first. */
  lemma SharedIdsSymmetric<T>(items1: seq<T>, items2: seq<T>, id: T -> string)
    ensures forall k :: k in Ids(FindSharedItems(items1, items2, id), id) <==>
                        k in Ids(FindSharedItems(items2, items1, id), id)
  {
    SharedIds(items1, items2, id);
    SharedIds(items2, items1, id);
  }

  // ---------------------------------------------------------------------------
  // getGenreComparison

  datatype GenreComparison = GenreComparison(user1: seq<GenreCount>, user2: seq<GenreCount>, overlap: seq<string>)

  /** The five most frequent genre tags of a user's top artists, with counts. */
  function TopGenres(artists: seq<Artist>): seq<GenreCount>
  {
    TopFive(Tally(AllGenres(artists)))
  }

  /** The genres of `top1`, in its order, that also occur in `top2`. */
  function Overlap(top1: seq<GenreCount>, top2: seq<GenreCount>): seq<string>
  {
    if top1 == [] then []
    else
      var last := top1[|top1| - 1];
      Overlap(top1[..|top1| - 1], top2) + (if last.genre in Genres(top2) then [last.genre] else [])
  }

  function GenreComparisonOf(artists1: seq<Artist>, artists2: seq<Artist>): GenreComparison
  {
    var top1, top2 := TopGenres(artists1), TopGenres(artists2);
    GenreComparison(top1, top2, Overlap(top1, top2))
  }

  /** Counts both users' genre tags with a Map each, then keeps the top five and
      their overlap. */
  method GetGenreComparison(artists1: seq<Artist>, artists2: seq<Artist>) returns (c: GenreComparison)
    ensures c == GenreComparisonOf(artists1, artists2)
  {
    var counts1 := CountGenres(artists1);
    var counts2 := CountGenres(artists2);
    var top1, top2 := TopFive(counts1), TopFive(counts2);
    c := GenreComparison(top1, top2, Overlap(top1, top2));
  }

  /** Each top genre is one of the user's tags, with its number of occurrences;
      there are five of them, or fewer when the user has fewer distinct genres. */
  lemma TopGenresCounts(artists: seq<Artist>)
    ensures |TopGenres(artists)| == Min(5, |ProfileGenres(artists)|)
    ensures forall e :: e in TopGenres(artists) ==>
              e.genre in AllGenres(artists) && e.count == Count(AllGenres(artists), e.genre)
    ensures SortedByCount(TopGenres(artists))
    ensures NoDuplicates(Genres(TopGenres(artists)))
  {
    var all := AllGenres(artists);
    var tally := Tally(all);
    TallySpec(all);
    TopFiveSpec(tally);
    forall e | e in TopGenres(artists) ensures e.genre in all && e.count == Count(all, e.genre) {
      var i :| 0 <= i < |tally| && tally[i] == e;
      assert Genres(tally)[i] == e.genre;
    }
  }

  /** A genre left out of the top five occurs no more often than any kept one. */
  lemma TopGenresBeatTheRest(artists: seq<Artist>)
    ensures forall g, k :: g in AllGenres(artists) && g !in Genres(TopGenres(artists)) && 0 <= k < |TopGenres(artists)| ==>
              Count(AllGenres(artists), g) <= TopGenres(artists)[k].count
  {
    var all := AllGenres(artists);
    var tally := Tally(all);
    var top := TopGenres(artists);
    TallySpec(all);
    TopFiveSpec(tally);
    forall g, k | g in all && g !in Genres(top) && 0 <= k < |top| ensures Count(all, g) <= top[k].count {
      assert g in Genres(tally);
      var i :| 0 <= i < |tally| && tally[i].genre == g;
      forall m | 0 <= m < |top| ensures top[m] != tally[i] {
        assert Genres(top)[m] != g;
      }
    }
  }

  /** Top genres with equal counts are in the order the genres are first met. */
  lemma TopGenresTies(artists: seq<Artist>)
    ensures TiesInOrder(TopGenres(artists), AllGenres(artists))
  {
    var all := AllGenres(artists);
    var tally := Tally(all);
    var top := TopGenres(artists);
    TallySpec(all);
    TopFiveSpec(tally);
    forall i, j | 0 <= i < j < |top| && top[i].count == top[j].count && top[i].genre in all && top[j].genre in all
      ensures FirstIndex(all, top[i].genre) < FirstIndex(all, top[j].genre)
    {
      var d := Genres(tally);
      assert top[i].genre in d && top[j].genre in d;
      FirstSeenCompare(d, all, top[i].genre, top[j].genre);
    }
  }

  /** A user's top genres: at most five, the largest counts, each count the
      number of the user's artists' tags naming that genre, each genre once,
      highest count first, and equal counts in the order the genres are first met. */
  lemma TopGenresSpec(artists: seq<Artist>)
    ensures var all, top := AllGenres(artists), TopGenres(artists);
            && |top| == Min(5, |ProfileGenres(artists)|)
            && (forall e :: e in top ==> e.genre in all && e.count == Count(all, e.genre))
            && SortedByCount(top)
            && NoDuplicates(Genres(top))
            && (forall g, k :: g in all && g !in Genres(top) && 0 <= k < |top| ==> Count(all, g) <= top[k].count)
            && TiesInOrder(top, all)
  {
    TopGenresCounts(artists);
    TopGenresBeatTheRest(artists);
    TopGenresTies(artists);
  }

  lemma {:induction false} OverlapMembers(top1: seq<GenreCount>, top2: seq<GenreCount>)
    ensures forall g :: g in Overlap(top1, top2) <==> g in Genres(top1) && g in Genres(top2)
  {
    if top1 != [] {
      var init := top1[..|top1| - 1];
      OverlapMembers(init, top2);
      assert Genres(top1) == Genres(init) + [top1[|top1| - 1].genre];
    }
  }

  lemma {:induction false} OverlapOrder(top1: seq<GenreCount>, top2: seq<GenreCount>)
    ensures IsSubsequence(Overlap(top1, top2), Genres(top1))
  {
    if top1 != [] {
      var init, last := top1[..|top1| - 1], top1[|top1| - 1];
      OverlapOrder(init, top2);
      var o := Overlap(init, top2);
      assert Genres(top1) == Genres(init) + [last.genre];
      if last.genre in Genres(top2) {
        assert Overlap(top1, top2) == o + [last.genre];
        assert (o + [last.genre])[..|o|] == o;
        assert (Genres(init) + [last.genre])[..|Genres(init)|] == Genres(init);
      } else {
        assert Overlap(top1, top2) == o;
        SubsequenceWeaken(o, Genres(init), last.genre);
      }
    }
  }

  lemma {:induction false} OverlapDistinct(top1: seq<GenreCount>, top2: seq<GenreCount>)
    requires NoDuplicates(Genres(top1))
    ensures NoDuplicates(Overlap(top1, top2))
  {
    if top1 != [] {
      var init, last := top1[..|top1| - 1], top1[|top1| - 1];
      assert Genres(top1) == Genres(init) + [last.genre];
      assert NoDuplicates(Genres(init));
      OverlapDistinct(init, top2);
      OverlapMembers(init, top2);
      assert last.genre !in Genres(init);
    }
  }

  /** The overlap is the first user's top genres that are also among the second
      user's, in the first user's order, each once; as a set it does not depend
      on which user comes first. */
  lemma GenreComparisonSpec(artists1: seq<Artist>, artists2: seq<Artist>)
    ensures var c := GenreComparisonOf(artists1, artists2);
            && c.user1 == TopGenres(artists1) && c.user2 == TopGenres(artists2)
            && (forall g :: g in c.overlap <==> g in Genres(c.user1) && g in Genres(c.user2))
            && IsSubsequence(c.overlap, Genres(c.user1))
            && NoDuplicates(c.overlap)
            && |c.overlap| <= Min(|c.user1|, |c.user2|)
            && (forall g :: g in c.overlap <==> g in GenreComparisonOf(artists2, artists1).overlap)
  {
    var c := GenreComparisonOf(artists1, artists2);
    TopGenresSpec(artists1);
    TopGenresSpec(artists2);
    OverlapMembers(c.user1, c.user2);
    OverlapMembers(c.user2, c.user1);
    OverlapOrder(c.user1, c.user2);
    OverlapDistinct(c.user1, c.user2);
    SubsequenceLength(c.overlap, Genres(c.user1));
    DistinctIn(c.overlap, Genres(c.user2));
  }

  lemma {:induction false} SubsequenceLength<T>(r: seq<T>, s: seq<T>)
    requires IsSubsequence(r, s)
    ensures |r| <= |s|
  {
    if r != [] && s != [] {
      if r[|r| - 1] == s[|s| - 1] {
        SubsequenceLength(r[..|r| - 1], s[..|s| - 1]);
      } else {
        SubsequenceLength(r, s[..|s| - 1]);
      }
    }
  }

  /** A list without repeats drawn from the elements of `s` is no longer than `s`. */
  lemma DistinctIn<T>(r: seq<T>, s: seq<T>)
    requires NoDuplicates(r) && forall x :: x in r ==> x in s
    ensures |r| <= |s|
  {
    var rs := set x | x in r;
    var ss := set x | x in s;
    assert rs <= ss;
    DistinctCard(r);
    SetOfSeqCard(s);
    SubsetCard(rs, ss);
  }

  lemma SubsetCard<T>(a: set<T>, b: set<T>)
    requires a <= b
    ensures |a| <= |b|
    decreases b
  {
    if b != {} {
      var x :| x in b;
      SubsetCard(a - {x}, b - {x});
    }
  }

  lemma {:induction false} DistinctCard<T>(r: seq<T>)
    requires NoDuplicates(r)
    ensures |set x | x in r| == |r|
  {
    if r != [] {
      var init := r[..|r| - 1];
      DistinctCard(init);
      assert (set x | x in r) == (set x | x in init) + {r[|r| - 1]};
      assert r[|r| - 1] !in init;
    }
  }

  lemma {:induction false} SetOfSeqCard<T>(s: seq<T>)
    ensures |set x | x in s| <= |s|
  {
    if s != [] {
      var init := s[..|s| - 1];
      SetOfSeqCard(init);
      assert (set x | x in s) == (set x | x in init) + {s[|s| - 1]};
    }
  }

  // ---------------------------------------------------------------------------
  // calculateAverageTrackMetrics

  function Averages(metrics: seq<TrackMetrics>): (ps: seq<real>)
    ensures |ps| == |metrics| && forall i :: 0 <= i < |metrics| ==> ps[i] == metrics[i].averagePopularity
  {
    seq(|metrics|, i requires 0 <= i < |metrics| => metrics[i].averagePopularity)
  }

  function TopGenreLabels(metrics: seq<TrackMetrics>): (gs: seq<string>)
    ensures |gs| == |metrics| && forall i :: 0 <= i < |metrics| ==> gs[i] == metrics[i].topGenre
  {
    seq(|metrics|, i requires 0 <= i < |metrics| => metrics[i].topGenre)
  }

  /** `metrics.flatMap(m => m.recentTracks)` */
  function AllRecentTracks(metrics: seq<TrackMetrics>): seq<RecentTrack>
  {
    if metrics == [] then [] else AllRecentTracks(metrics[..|metrics| - 1]) + metrics[|metrics| - 1].recentTracks
  }

  /** The most frequent string of a non-empty list: the head of its tally after
      the stable sort. */
  function MostCommon(s: seq<string>): string
    requires s != []
  {
    TallySpec(s);
    SortPermutes(Tally(s));
    SortByCount(Tally(s))[0].genre
  }

  /** The tally entry of each string of a non-empty list, and the most common one. */
  lemma MostCommonEntry(s: seq<string>, g: string)
    requires s != [] && g in s
    ensures GenreCount(g, Count(s, g)) in Tally(s)
    ensures GenreCount(MostCommon(s), Count(s, MostCommon(s))) == SortByCount(Tally(s))[0]
    ensures MostCommon(s) in s
  {
    var t := Tally(s);
    TallySpec(s);
    SortPermutes(t);
    var a := FirstIndex(Genres(t), g);
    assert t[a] == GenreCount(g, Count(s, g));
    var top := SortByCount(t)[0];
    assert top in multiset(t);
    var b :| 0 <= b < |t| && t[b] == top;
    assert Genres(t)[b] == top.genre;
  }

  /** The most common string occurs in the list, no string occurs more often,
      and of the strings that occur as often it is the one met first. */
  lemma MostCommonSpec(s: seq<string>)
    requires s != []
    ensures MostCommon(s) in s
    ensures forall g :: g in s ==> Count(s, g) <= Count(s, MostCommon(s))
    ensures forall g :: g in s && Count(s, g) == Count(s, MostCommon(s)) ==>
              FirstIndex(s, MostCommon(s)) <= FirstIndex(s, g)
  {
    MostCommonEntry(s, s[0]);
    forall g | g in s
      ensures Count(s, g) <= Count(s, MostCommon(s))
      ensures Count(s, g) == Count(s, MostCommon(s)) ==> FirstIndex(s, MostCommon(s)) <= FirstIndex(s, g)
    {
      MostCommonOver(s, g);
    }
  }

  /** The most common string against one other string of the list. */
  lemma MostCommonOver(s: seq<string>, g: string)
    requires s != [] && g in s
    ensures MostCommon(s) in s
    ensures Count(s, g) <= Count(s, MostCommon(s))
    ensures Count(s, g) == Count(s, MostCommon(s)) ==> FirstIndex(s, MostCommon(s)) <= FirstIndex(s, g)
  {
    TallySpec(s);
    MostCommonEntry(s, g);
    TopOfTally(Tally(s), s, g, MostCommon(s));
  }

  /** The head of a sorted first-seen tally of `s` against another entry. */
  lemma TopOfTally(t: seq<GenreCount>, s: seq<string>, g: string, c: string)
    requires t != [] && NoDuplicates(Genres(t)) && InFirstSeenOrder(Genres(t), s)
    requires g in s && c in s && g in Genres(t) && c in Genres(t)
    requires GenreCount(g, Count(s, g)) in t && GenreCount(c, Count(s, c)) == SortByCount(t)[0]
    ensures Count(s, g) <= Count(s, c)
    ensures Count(s, g) == Count(s, c) ==> FirstIndex(s, c) <= FirstIndex(s, g)
  {
    var e, top := GenreCount(g, Count(s, g)), SortByCount(t)[0];
    MostCommonFirst(t);
    assert e.count <= top.count;
    if e.count == top.count && g != c {
      assert FirstIndex(Genres(t), top.genre) <= FirstIndex(Genres(t), e.genre);
      FirstSeenCompare(Genres(t), s, c, g);
    }
  }

  /** Averages several metric records: the mean of their average popularities,
      the most common top genre (`|| 'Unknown'` turns an empty one into
      'Unknown'), and the first five of all their recent tracks. */
  method CalculateAverageTrackMetrics(metrics: seq<TrackMetrics>) returns (r: TrackMetrics)
    ensures metrics == [] ==> r == TrackMetrics(0.0, "Unknown", [])
    ensures metrics != [] ==>
              && r.averagePopularity == Sum(Averages(metrics)) / (|metrics| as real)
              && r.topGenre == (var g := MostCommon(TopGenreLabels(metrics)); if g == "" then "Unknown" else g)
              && r.recentTracks == AllRecentTracks(metrics)[..Min(5, |AllRecentTracks(metrics)|)]
  {
    if |metrics| == 0 {
      return TrackMetrics(0.0, "Unknown", []);
    }
    var sum := 0.0;
    ghost var ps := Averages(metrics);
    for i := 0 to |metrics|
      invariant sum == Sum(ps[..i])
    {
      assert ps[..i + 1][..i] == ps[..i];
      sum := sum + metrics[i].averagePopularity;
    }
    assert ps[..|metrics|] == ps;
    var all := AllRecentTracks(metrics);
    var labels := TopGenreLabels(metrics);
    var counts := CountOccurrences(labels);
    MostCommonEntry(labels, labels[0]);
    var top := SortByCount(counts)[0].genre;
    r := TrackMetrics(sum / (|metrics| as real), if top == "" then "Unknown" else top, all[..Min(5, |all|)]);
  }

  /** The mean popularity lies between the smallest and the largest averaged one. */
  lemma AverageMetricsWithin(metrics: seq<TrackMetrics>, lo: real, hi: real)
    requires metrics != []
    requires forall i :: 0 <= i < |metrics| ==> lo <= metrics[i].averagePopularity <= hi
    ensures lo <= Sum(Averages(metrics)) / (|metrics| as real) <= hi
  {
    MeanWithin(Averages(metrics), lo, hi);
  }
}
