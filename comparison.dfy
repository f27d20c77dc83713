/** `compareTastes`: the weighted compatibility score of two taste profiles and
    the comparison record built around it. Every ingredient is the function the
    corresponding operation is proved against: `Cosine`, `FindSharedItems`,
    `GenreComparisonOf`, the personality cascade, the rendered taste summary,
    the genre tag and the playful summary. */
module Comparison {
  import opened Common
  import opened Spotify
  import opened GenreTally
  import opened Similarity
  import opened Personality
  import opened Narrative

  datatype ComparisonResult = ComparisonResult(
    compatibilityScore: int,
    metrics1: TrackMetrics,
    metrics2: TrackMetrics,
    sharedArtists: seq<Artist>,
    sharedTracks: seq<Track>,
    genreOverlap: seq<string>,
    genreComparison: GenreComparison,
    tasteSummary: string,
    personality1: string,
    personality2: string,
    genreTag: string,
    user1TopArtists: seq<Artist>,
    user1TopTracks: seq<Track>,
    user2TopArtists: seq<Artist>,
    user2TopTracks: seq<Track>,
    playfulSummary: string)

  /** `Math.round`: the nearest integer, halves rounded up. */
  function Round(x: real): (r: int)
    ensures r as real - 0.5 <= x < r as real + 0.5
  {
    (x + 0.5).Floor
  }

  /** 1 when both users have the same top genre, else 0. */
  function GenreMatch(m1: TrackMetrics, m2: TrackMetrics): real
  {
    if m1.topGenre == m2.topGenre then 1.0 else 0.0
  }

  /** `1 - |r1 - r2| / 3` for the numbers of recent-track samples; it is negative
      when the numbers differ by more than three. */
  function TrackCountSimilarity(m1: TrackMetrics, m2: TrackMetrics): real
  {
    1.0 - Abs(|m1.recentTracks| as real - |m2.recentTracks| as real) / 3.0
  }

  /** `[averagePopularity / 100, genreMatch, trackCountSimilarity]`. */
  function MetricsVector(m: TrackMetrics, genreMatch: real, trackCountSimilarity: real): seq<real>
  {
    [m.averagePopularity / 100.0, genreMatch, trackCountSimilarity]
  }

  /** The cosine of the two users' metric vectors; the vectors have the same
      length, so the cosine never throws here. */
  function MetricsSimilarity(m1: TrackMetrics, m2: TrackMetrics, sqrt: real -> real): real
    requires IsSquareRoot(sqrt)
  {
    var gm, tcs := GenreMatch(m1, m2), TrackCountSimilarity(m1, m2);
    Cosine(MetricsVector(m1, gm, tcs), MetricsVector(m2, gm, tcs), sqrt).value
  }

  /** `shared / Math.max(n1, n2)`; the source divides without a guard, so a zero
      maximum is excluded. */
  function Ratio(shared: nat, n1: nat, n2: nat): real
    requires n1 > 0 || n2 > 0
  {
    shared as real / Max(n1, n2) as real
  }

  /** `Math.round((m * 0.3 + a * 0.25 + t * 0.2 + g * 0.25) * 100)`. */
  function CompatibilityScore(m: real, a: real, t: real, g: real): int
  {
    Round((m * 0.3 + a * 0.25 + t * 0.2 + g * 0.25) * 100.0)
  }

  /** Whether some top artist of the profile has a genre tag. */
  predicate HasGenre(p: TasteProfile)
  {
    AllGenres(p.topArtists) != []
  }

  /** The four similarities the score weighs: of the metric vectors, of the
      artist lists, of the track lists and of the top-genre lists. */
  datatype Similarities = Similarities(metrics: real, artists: real, tracks: real, genres: real)

  /** The similarities of two profiles. The artist, track and genre ratios
      divide by list lengths, so at least one user must have a track and one a
      genre tag (and hence an artist). */
  function SimilaritiesOf(p1: TasteProfile, p2: TasteProfile, sqrt: real -> real): Similarities
    requires IsSquareRoot(sqrt)
    requires p1.topTracks != [] || p2.topTracks != []
    requires HasGenre(p1) || HasGenre(p2)
  {
    var c := GenreComparisonOf(p1.topArtists, p2.topArtists);
    NonEmptyTops(p1.topArtists, p2.topArtists);
    Similarities(
      MetricsSimilarity(p1.trackMetrics, p2.trackMetrics, sqrt),
      Ratio(|FindSharedItems(p1.topArtists, p2.topArtists, ArtistId)|, |p1.topArtists|, |p2.topArtists|),
      Ratio(|FindSharedItems(p1.topTracks, p2.topTracks, TrackId)|, |p1.topTracks|, |p2.topTracks|),
      Ratio(|c.overlap|, |c.user1|, |c.user2|))
  }

  /** The compatibility score of two profiles. */
  function Compatibility(p1: TasteProfile, p2: TasteProfile, sqrt: real -> real): int
    requires IsSquareRoot(sqrt)
    requires p1.topTracks != [] || p2.topTracks != []
    requires HasGenre(p1) || HasGenre(p2)
  {
    var s := SimilaritiesOf(p1, p2, sqrt);
    CompatibilityScore(s.metrics, s.artists, s.tracks, s.genres)
  }

  /** A user with a genre tag has an artist and a non-empty top-genre list. */
  lemma NonEmptyTops(artists1: seq<Artist>, artists2: seq<Artist>)
    requires AllGenres(artists1) != [] || AllGenres(artists2) != []
    ensures |artists1| > 0 || |artists2| > 0
    ensures |TopGenres(artists1)| > 0 || |TopGenres(artists2)| > 0
  {
    if AllGenres(artists1) != [] {
      TopGenresNonEmpty(artists1);
    } else {
      TopGenresNonEmpty(artists2);
    }
  }

  lemma TopGenresNonEmpty(artists: seq<Artist>)
    requires AllGenres(artists) != []
    ensures artists != [] && |TopGenres(artists)| > 0
  {
    TopGenresCounts(artists);
    DedupElements(AllGenres(artists));
    assert AllGenres(artists)[0] in ProfileGenres(artists);
  }

  // ---------------------------------------------------------------------------
  // Ranges

  /** Both metric vectors share their genre-match and track-count components,
      so their dot product is never negative, and it is bounded by the product
      of the lengths (Cauchy-Schwarz): the similarity lies in [0, 1] whenever
      the average popularities are not negative. */
  lemma MetricsSimilarityWithin(m1: TrackMetrics, m2: TrackMetrics, sqrt: real -> real)
    requires IsSquareRoot(sqrt)
    requires m1.averagePopularity >= 0.0 && m2.averagePopularity >= 0.0
    ensures 0.0 <= MetricsSimilarity(m1, m2, sqrt) <= 1.0
  {
    var gm, tcs := GenreMatch(m1, m2), TrackCountSimilarity(m1, m2);
    var v1, v2 := MetricsVector(m1, gm, tcs), MetricsVector(m2, gm, tcs);
    assert v1[0] >= 0.0 && v2[0] >= 0.0;
    SharedTailVectors(v1, v2, sqrt);
  }

  /** Two three-component vectors that differ only in a non-negative first
      component have a cosine in [0, 1]. */
  lemma SharedTailVectors(v1: seq<real>, v2: seq<real>, sqrt: real -> real)
    requires IsSquareRoot(sqrt)
    requires |v1| == 3 && |v2| == 3 && v1[1] == v2[1] && v1[2] == v2[2]
    requires v1[0] >= 0.0 && v2[0] >= 0.0
    ensures Cosine(v1, v2, sqrt).Ok? && 0.0 <= Cosine(v1, v2, sqrt).value <= 1.0
  {
    var k := v1[1] * v1[1] + v1[2] * v1[2];
    ThreeVector(v1);
    ThreeVector(v2);
    ThreeDot(v1, v2);
    var n1, n2 := SquaredNorm(v1), SquaredNorm(v2);
    if n1 != 0.0 && n2 != 0.0 {
      Square(v1[1]);
      Square(v1[2]);
      SharedTailCosine(v1[0], v2[0], k, Dot(v1, v2), n1, n2, sqrt);
    }
  }

  /** Cauchy-Schwarz for `[x1, g, t]` and `[x2, g, t]` with `k = g*g + t*t`. */
  lemma SharedTailCosine(x1: real, x2: real, k: real, dot: real, n1: real, n2: real, sqrt: real -> real)
    requires IsSquareRoot(sqrt)
    requires x1 >= 0.0 && x2 >= 0.0 && k >= 0.0
    requires n1 == x1 * x1 + k && n2 == x2 * x2 + k && dot == x1 * x2 + k
    requires n1 > 0.0 && n2 > 0.0
    ensures 0.0 <= Quotient(dot, n1, n2, sqrt) <= 1.0
  {
    RootProductPositive(sqrt, n1, n2);
    var p := sqrt(n1) * sqrt(n2);
    RootOfProduct(sqrt(n1), sqrt(n2), n1, n2);
    SharedTailGap(x1, x2, k);
    CosineBound(dot, p, n1 * n2);
    assert Quotient(dot, n1, n2, sqrt) == dot / p;
  }

  /** A non-negative dot product whose square is at most the product of the
      squared norms gives a cosine in [0, 1]. */
  lemma CosineBound(dot: real, p: real, nn: real)
    requires dot >= 0.0 && p > 0.0 && p * p == nn && dot * dot <= nn
    ensures 0.0 <= dot / p <= 1.0
  {
    BelowRoot(dot, p);
    UnitQuotient(dot, p);
  }

  lemma RootOfProduct(s1: real, s2: real, n1: real, n2: real)
    requires s1 * s1 == n1 && s2 * s2 == n2
    ensures (s1 * s2) * (s1 * s2) == n1 * n2
  {
    assert (s1 * s2) * (s1 * s2) == (s1 * s1) * (s2 * s2);
  }

  lemma NonNegativeProduct(a: real, b: real)
    requires a >= 0.0 && b >= 0.0
    ensures a * b >= 0.0
  {
  }

  lemma Square(x: real)
    ensures x * x >= 0.0
  {
    if x < 0.0 {
      NonNegativeProduct(-x, -x);
    } else {
      NonNegativeProduct(x, x);
    }
  }

  /** The dot product is not negative, and its square falls short of the
      product of the squared norms by `k * (x1 - x2)^2`. */
  lemma SharedTailGap(x1: real, x2: real, k: real)
    requires x1 >= 0.0 && x2 >= 0.0 && k >= 0.0
    ensures x1 * x2 + k >= 0.0
    ensures (x1 * x2 + k) * (x1 * x2 + k) <= (x1 * x1 + k) * (x2 * x2 + k)
  {
    NonNegativeProduct(x1, x2);
    var d := x1 - x2;
    Square(d);
    NonNegativeProduct(k, d * d);
    assert (x1 * x1 + k) * (x2 * x2 + k) - (x1 * x2 + k) * (x1 * x2 + k) == k * (d * d);
  }

  lemma ThreeVector(v: seq<real>)
    requires |v| == 3
    ensures SquaredNorm(v) == v[0] * v[0] + v[1] * v[1] + v[2] * v[2]
  {
    var a, b := v[..1], v[..2];
    assert b[..1] == a && a[..0] == [];
    assert SquaredNorm(a) == v[0] * v[0];
    assert SquaredNorm(b) == SquaredNorm(a) + v[1] * v[1];
  }

  lemma ThreeDot(v1: seq<real>, v2: seq<real>)
    requires |v1| == 3 && |v2| == 3
    ensures Dot(v1, v2) == v1[0] * v2[0] + v1[1] * v2[1] + v1[2] * v2[2]
  {
    var a1, b1, a2, b2 := v1[..1], v1[..2], v2[..1], v2[..2];
    assert b1[..1] == a1 && a1[..0] == [] && b2[..1] == a2 && a2[..0] == [];
    assert Dot(a1, a2) == v1[0] * v2[0];
    assert Dot(b1, b2) == Dot(a1, a2) + v1[1] * v2[1];
  }

  /** A non-negative number whose square is at most `p * p` is at most `p`. */
  lemma BelowRoot(d: real, p: real)
    requires d >= 0.0 && p > 0.0 && d * d <= p * p
    ensures d <= p
  {
  }

  lemma UnitQuotient(d: real, p: real)
    requires 0.0 <= d <= p && p > 0.0
    ensures 0.0 <= d / p <= 1.0
  {
    assert d / p * p == d;
  }

  lemma RatioWithin(shared: nat, n1: nat, n2: nat)
    requires (n1 > 0 || n2 > 0) && (shared <= n1 || shared <= n2)
    ensures 0.0 <= Ratio(shared, n1, n2) <= 1.0
  {
    Fraction(shared, Max(n1, n2));
  }

  /** With every ingredient in [0, 1] the weights add up to one, so the score is
      a whole percentage. */
  lemma ScoreWithin(m: real, a: real, t: real, g: real)
    requires 0.0 <= m <= 1.0 && 0.0 <= a <= 1.0 && 0.0 <= t <= 1.0 && 0.0 <= g <= 1.0
    ensures 0 <= CompatibilityScore(m, a, t, g) <= 100
  {
  }

  /** The compatibility score is `Math.round(100 * (0.3 m + 0.25 a + 0.2 t + 0.25 g))`
      for the metrics similarity `m`, the shared-artist and shared-track ratios
      `a` and `t` and the genre-overlap ratio `g`; each of them lies in [0, 1],
      and so the score lies in [0, 100]. */
  lemma CompatibilityWithin(p1: TasteProfile, p2: TasteProfile, sqrt: real -> real)
    requires IsSquareRoot(sqrt)
    requires p1.topTracks != [] || p2.topTracks != []
    requires HasGenre(p1) || HasGenre(p2)
    requires p1.trackMetrics.averagePopularity >= 0.0 && p2.trackMetrics.averagePopularity >= 0.0
    ensures var s := SimilaritiesOf(p1, p2, sqrt);
            && 0.0 <= s.metrics <= 1.0 && 0.0 <= s.artists <= 1.0 && 0.0 <= s.tracks <= 1.0 && 0.0 <= s.genres <= 1.0
            && Compatibility(p1, p2, sqrt) == Round((s.metrics * 0.3 + s.artists * 0.25 + s.tracks * 0.2 + s.genres * 0.25) * 100.0)
            && 0 <= Compatibility(p1, p2, sqrt) <= 100
  {
    var c := GenreComparisonOf(p1.topArtists, p2.topArtists);
    NonEmptyTops(p1.topArtists, p2.topArtists);
    MetricsSimilarityWithin(p1.trackMetrics, p2.trackMetrics, sqrt);
    SharedLength(p1.topArtists, p2.topArtists, ArtistId);
    SharedLength(p1.topTracks, p2.topTracks, TrackId);
    OverlapLength(c.user1, c.user2);
    RatioWithin(|FindSharedItems(p1.topArtists, p2.topArtists, ArtistId)|, |p1.topArtists|, |p2.topArtists|);
    RatioWithin(|FindSharedItems(p1.topTracks, p2.topTracks, TrackId)|, |p1.topTracks|, |p2.topTracks|);
    RatioWithin(|c.overlap|, |c.user1|, |c.user2|);
    var s := SimilaritiesOf(p1, p2, sqrt);
    ScoreWithin(s.metrics, s.artists, s.tracks, s.genres);
  }

  lemma {:induction false} SharedLength<T>(items1: seq<T>, items2: seq<T>, id: T -> string)
    ensures |FindSharedItems(items1, items2, id)| <= |items2|
  {
    if items2 != [] {
      SharedLength(items1, items2[..|items2| - 1], id);
    }
  }

  lemma {:induction false} OverlapLength(top1: seq<GenreCount>, top2: seq<GenreCount>)
    ensures |Overlap(top1, top2)| <= |top1|
  {
    if top1 != [] {
      OverlapLength(top1[..|top1| - 1], top2);
    }
  }

  // ---------------------------------------------------------------------------
  // Comparing a profile with itself

  lemma {:induction false} SharedWithSelf<T>(items: seq<T>, id: T -> string)
    ensures FindSharedItems(items, items, id) == items
  {
    SharedWithSuperset(items, items, id);
  }

  lemma {:induction false} SharedWithSuperset<T>(items1: seq<T>, items2: seq<T>, id: T -> string)
    requires forall x :: x in items2 ==> x in items1
    ensures FindSharedItems(items1, items2, id) == items2
  {
    if items2 != [] {
      var init, last := items2[..|items2| - 1], items2[|items2| - 1];
      SharedWithSuperset(items1, init, id);
      assert last in items2;
      var i :| 0 <= i < |items1| && items1[i] == last;
      assert Ids(items1, id)[i] == id(last);
      assert items2 == init + [last];
    }
  }

  lemma {:induction false} OverlapWithSelf(top: seq<GenreCount>, other: seq<GenreCount>)
    requires forall g :: g in Genres(top) ==> g in Genres(other)
    ensures Overlap(top, other) == Genres(top)
  {
    if top != [] {
      var init := top[..|top| - 1];
      assert Genres(top) == Genres(init) + [top[|top| - 1].genre];
      OverlapWithSelf(init, other);
    }
  }

  /** A profile with a track and a genre tag compared with itself scores 100:
      its metrics similarity is 1 and every shared list is the whole list. */
  lemma SelfComparisonScores100(p: TasteProfile, sqrt: real -> real)
    requires IsSquareRoot(sqrt)
    requires p.topTracks != [] && HasGenre(p)
    ensures Compatibility(p, p, sqrt) == 100
  {
    SelfMetrics(p.trackMetrics, sqrt);
    SharedWithSelf(p.topArtists, ArtistId);
    SharedWithSelf(p.topTracks, TrackId);
    var top := TopGenres(p.topArtists);
    OverlapWithSelf(top, top);
    TopGenresNonEmpty(p.topArtists);
    assert |Genres(top)| == |top|;
    SelfRatio(|p.topArtists|);
    SelfRatio(|p.topTracks|);
    SelfRatio(|top|);
    assert SimilaritiesOf(p, p, sqrt) == Similarities(1.0, 1.0, 1.0, 1.0);
  }

  /** Identical metrics have cosine 1: the genre-match component is 1, so the
      vector is never all zeros. */
  lemma SelfMetrics(m: TrackMetrics, sqrt: real -> real)
    requires IsSquareRoot(sqrt)
    ensures MetricsSimilarity(m, m, sqrt) == 1.0
  {
    var gm, tcs := GenreMatch(m, m), TrackCountSimilarity(m, m);
    var v := MetricsVector(m, gm, tcs);
    ThreeVector(v);
    assert gm == 1.0;
    Square(v[0]);
    Square(v[2]);
    CosineOfSelf(v, sqrt);
  }

  lemma SelfRatio(n: nat)
    requires n > 0
    ensures Ratio(n, n, n) == 1.0
  {
    DivSelf(n as real, n as real);
  }

  // ---------------------------------------------------------------------------
  // compareTastes

  /** The numeric half of `compareTastes`: the metric vectors and their cosine,
      the shared artists and tracks, the genre comparison and the score. */
  method CompareScores(p1: TasteProfile, p2: TasteProfile, sqrt: real -> real)
    returns (sharedArtists: seq<Artist>, sharedTracks: seq<Track>, c: GenreComparison, score: int)
    requires IsSquareRoot(sqrt)
    requires p1.topTracks != [] || p2.topTracks != []
    requires HasGenre(p1) || HasGenre(p2)
    ensures sharedArtists == FindSharedItems(p1.topArtists, p2.topArtists, ArtistId)
    ensures sharedTracks == FindSharedItems(p1.topTracks, p2.topTracks, TrackId)
    ensures c == GenreComparisonOf(p1.topArtists, p2.topArtists)
    ensures score == Compatibility(p1, p2, sqrt)
  {
    var m1, m2 := p1.trackMetrics, p2.trackMetrics;
    var genreMatch := if m1.topGenre == m2.topGenre then 1.0 else 0.0;
    var trackCountSimilarity := 1.0 - Abs(|m1.recentTracks| as real - |m2.recentTracks| as real) / 3.0;
    var metricsVec1 := [m1.averagePopularity / 100.0, genreMatch, trackCountSimilarity];
    var metricsVec2 := [m2.averagePopularity / 100.0, genreMatch, trackCountSimilarity];
    var cosine := CalculateCosineSimilarity(metricsVec1, metricsVec2, sqrt);
    var metricsSimilarity := cosine.value;
    assert metricsSimilarity == MetricsSimilarity(m1, m2, sqrt);
    sharedArtists := FindSharedItems(p1.topArtists, p2.topArtists, ArtistId);
    sharedTracks := FindSharedItems(p1.topTracks, p2.topTracks, TrackId);
    c := GetGenreComparison(p1.topArtists, p2.topArtists);
    NonEmptyTops(p1.topArtists, p2.topArtists);
    var artistSimilarity := Ratio(|sharedArtists|, |p1.topArtists|, |p2.topArtists|);
    var trackSimilarity := Ratio(|sharedTracks|, |p1.topTracks|, |p2.topTracks|);
    var genreSimilarity := Ratio(|c.overlap|, |c.user1|, |c.user2|);
    assert Similarities(metricsSimilarity, artistSimilarity, trackSimilarity, genreSimilarity)
           == SimilaritiesOf(p1, p2, sqrt);
    score := Round((metricsSimilarity * 0.3 + artistSimilarity * 0.25 + trackSimilarity * 0.2
                    + genreSimilarity * 0.25) * 100.0);
  }

  /** The comparison of two profiles, calling the operations the source calls;
      `pick` is the random index the genre tag draws its suffix with. */
  method CompareTastes(p1: TasteProfile, p2: TasteProfile, sqrt: real -> real, pick: nat)
    returns (r: ComparisonResult)
    requires IsSquareRoot(sqrt)
    requires p1.topTracks != [] || p2.topTracks != []
    requires HasGenre(p1) || HasGenre(p2)
    requires pick < |TagSuffixes|
    ensures r.compatibilityScore == Compatibility(p1, p2, sqrt)
    ensures r.metrics1 == p1.trackMetrics && r.metrics2 == p2.trackMetrics
    ensures r.sharedArtists == FindSharedItems(p1.topArtists, p2.topArtists, ArtistId)
    ensures r.sharedTracks == FindSharedItems(p1.topTracks, p2.topTracks, TrackId)
    ensures r.genreComparison == GenreComparisonOf(p1.topArtists, p2.topArtists)
    ensures r.genreOverlap == r.genreComparison.overlap
    ensures r.tasteSummary == Render(SummaryOf(p1.user.displayName, p2.user.displayName, r.sharedArtists,
                                               r.genreComparison, r.metrics1, r.metrics2, r.compatibilityScore))
    ensures r.personality1 == Label(Classify(StatsOf(p1.topArtists, p1.trackMetrics.averagePopularity)))
    ensures r.personality2 == Label(Classify(StatsOf(p2.topArtists, p2.trackMetrics.averagePopularity)))
    ensures r.genreTag == GenreTag(r.genreComparison, pick)
    ensures r.playfulSummary == PlayfulGenreLine(r.genreOverlap) + " " + PlayfulArtistLine(r.sharedArtists)
    ensures r.user1TopArtists == p1.topArtists && r.user1TopTracks == p1.topTracks
    ensures r.user2TopArtists == p2.topArtists && r.user2TopTracks == p2.topTracks
  {
    var m1, m2 := p1.trackMetrics, p2.trackMetrics;
    var sharedArtists, sharedTracks, c, score := CompareScores(p1, p2, sqrt);
    var n1, n2 := p1.user.displayName, p2.user.displayName;
    var tasteSummary := GenerateTasteSummary(n1, n2, sharedArtists, sharedTracks, c, m1, m2, score);
    var personality1 := AssignListeningPersonality(p1.topArtists, m1);
    var personality2 := AssignListeningPersonality(p2.topArtists, m2);
    var genreTag := GenreTag(c, pick);
    var playfulSummary := GeneratePlayfulSummary(n1, n2, sharedArtists, sharedTracks, c, m1, m2,
                                                 p1.topArtists, p2.topArtists, p1.topTracks, p2.topTracks);
    PlayfulSummarySpec(n1, n2, sharedArtists, sharedTracks, c, m1, m2,
                       p1.topArtists, p2.topArtists, p1.topTracks, p2.topTracks);
    r := ComparisonResult(
      score, m1, m2, sharedArtists, sharedTracks, c.overlap, c, tasteSummary,
      personality1, personality2, genreTag,
      p1.topArtists, p1.topTracks, p2.topArtists, p2.topTracks, playfulSummary);
  }
}
