/** Genre counting as done in `getGenreComparison`, `assignListeningPersonality`
    and `calculateAverageTrackMetrics`: a JavaScript Map (or plain object) from
    genre to count, filled in one pass so that its entries are in first-seen
    order, then sorted by count, highest first, with `Array.prototype.sort`,
    which is stable. */
module GenreTally {
  import opened Common
  import opened Spotify

  datatype GenreCount = GenreCount(genre: string, count: nat)

  /** The Map's entries after counting `s`: each distinct genre once, in the
      order it is first seen, with the number of times it occurs. */
  function Tally(s: seq<string>): (t: seq<GenreCount>)
    ensures |t| == |Dedup(s)|
    ensures forall i :: 0 <= i < |t| ==> t[i] == GenreCount(Dedup(s)[i], Count(s, Dedup(s)[i]))
  {
    var d := Dedup(s);
    seq(|d|, i requires 0 <= i < |d| => GenreCount(d[i], Count(s, d[i])))
  }

  function Genres(t: seq<GenreCount>): (gs: seq<string>)
    ensures |gs| == |t| && forall i :: 0 <= i < |t| ==> gs[i] == t[i].genre
  {
    seq(|t|, i requires 0 <= i < |t| => t[i].genre)
  }

  /** Counts kept in `counts` are exactly those of `seen`. */
  ghost predicate CountsOf(counts: map<string, nat>, seen: seq<string>)
  {
    && (forall g :: g in counts <==> g in seen)
    && (forall g :: g in counts ==> counts[g] == Count(seen, g))
  }

  /** One Map update `counts.set(g, (counts.get(g) || 0) + 1)`, with the key
      order of the Map kept in `keys`. */
  method Bump(keys: seq<string>, counts: map<string, nat>, g: string, ghost seen: seq<string>)
    returns (keys': seq<string>, counts': map<string, nat>)
    requires keys == Dedup(seen) && CountsOf(counts, seen)
    ensures keys' == Dedup(seen + [g]) && CountsOf(counts', seen + [g])
  {
    DedupAppend(seen, g);
    forall h ensures Count(seen + [g], h) == Count(seen, h) + (if g == h then 1 else 0) {
      CountAppend(seen, g, h);
    }
    if g in counts {
      keys', counts' := keys, counts[g := counts[g] + 1];
    } else {
      CountPositive(seen, g);
      keys', counts' := keys + [g], counts[g := 1];
    }
  }

  /** The Map's entries, in key order. */
  method Entries(keys: seq<string>, counts: map<string, nat>, ghost seen: seq<string>)
    returns (tally: seq<GenreCount>)
    requires keys == Dedup(seen) && CountsOf(counts, seen)
    ensures tally == Tally(seen)
  {
    DedupElements(seen);
    forall k | 0 <= k < |keys| ensures keys[k] in counts {
      DedupMember(seen, k);
    }
    tally := seq(|keys|, k requires 0 <= k < |keys| => GenreCount(keys[k], counts[keys[k]]));
  }

  /** Adds the strings of `tags` to the Map, one after the other. */
  method CountInto(keys: seq<string>, counts: map<string, nat>, tags: seq<string>, ghost seen: seq<string>)
    returns (keys': seq<string>, counts': map<string, nat>)
    requires keys == Dedup(seen) && CountsOf(counts, seen)
    ensures keys' == Dedup(seen + tags) && CountsOf(counts', seen + tags)
  {
    keys', counts' := keys, counts;
    assert seen + tags[..0] == seen;
    for j := 0 to |tags|
      invariant keys' == Dedup(seen + tags[..j])
      invariant CountsOf(counts', seen + tags[..j])
    {
      assert seen + tags[..j + 1] == (seen + tags[..j]) + [tags[j]];
      keys', counts' := Bump(keys', counts', tags[j], seen + tags[..j]);
    }
    assert tags[..|tags|] == tags;
  }

  /** Counts the genre tags of `artists`, artist by artist and tag by tag. */
  method CountGenres(artists: seq<Artist>) returns (tally: seq<GenreCount>)
    ensures tally == Tally(AllGenres(artists))
  {
    var keys: seq<string> := [];
    var counts: map<string, nat> := map[];
    for i := 0 to |artists|
      invariant keys == Dedup(AllGenres(artists[..i]))
      invariant CountsOf(counts, AllGenres(artists[..i]))
    {
      keys, counts := CountInto(keys, counts, artists[i].genres, AllGenres(artists[..i]));
      assert artists[..i + 1] == artists[..i] + [artists[i]];
      AllGenresAppend(artists[..i], artists[i]);
    }
    assert artists[..|artists|] == artists;
    tally := Entries(keys, counts, AllGenres(artists));
  }

  /** Counts the strings of `s` in one pass. */
  method CountOccurrences(s: seq<string>) returns (tally: seq<GenreCount>)
    ensures tally == Tally(s)
  {
    var keys, counts := CountInto([], map[], s, []);
    assert [] + s == s;
    tally := Entries(keys, counts, s);
  }

  /** The tally has each distinct string of `s` once, in first-seen order, and
      its counts add up to the length of `s`. */
  lemma TallySpec(s: seq<string>)
    ensures Genres(Tally(s)) == Dedup(s)
    ensures forall g :: g in Genres(Tally(s)) <==> g in s
    ensures NoDuplicates(Genres(Tally(s)))
    ensures InFirstSeenOrder(Genres(Tally(s)), s)
    ensures TotalCount(Tally(s)) == |s|
  {
    DedupSpec(s);
    assert Genres(Tally(s)) == Dedup(s);
    TallyTotal(s);
  }

  function TotalCount(t: seq<GenreCount>): nat
  {
    if t == [] then 0 else TotalCount(t[..|t| - 1]) + t[|t| - 1].count
  }

  /** Sum, over the strings of `d`, of how often each occurs in `s`. */
  function SumCounts(s: seq<string>, d: seq<string>): nat
  {
    if d == [] then 0 else SumCounts(s, d[..|d| - 1]) + Count(s, d[|d| - 1])
  }

  lemma {:induction false} TallyTotal(s: seq<string>)
    ensures TotalCount(Tally(s)) == |s|
  {
    DedupSpec(s);
    TotalIsSumCounts(s, Tally(s));
    assert Genres(Tally(s)) == Dedup(s);
    SumCountsCoveringAll(s, Dedup(s));
  }

  lemma {:induction false} TotalIsSumCounts(s: seq<string>, t: seq<GenreCount>)
    requires forall i :: 0 <= i < |t| ==> t[i].count == Count(s, t[i].genre)
    ensures TotalCount(t) == SumCounts(s, Genres(t))
  {
    if t != [] {
      TotalIsSumCounts(s, t[..|t| - 1]);
      assert Genres(t)[..|t| - 1] == Genres(t[..|t| - 1]);
    }
  }

  lemma {:induction false} SumCountsAppend(s: seq<string>, y: string, d: seq<string>)
    ensures SumCounts(s + [y], d) == SumCounts(s, d) + Count(d, y)
  {
    if d != [] {
      SumCountsAppend(s, y, d[..|d| - 1]);
      CountAppend(s, y, d[|d| - 1]);
    }
  }

  lemma {:induction false} CountOnce(d: seq<string>, x: string)
    requires NoDuplicates(d) && x in d
    ensures Count(d, x) == 1
  {
    var init := d[..|d| - 1];
    if d[|d| - 1] == x {
      forall i | 0 <= i < |init| ensures init[i] != x {
        assert d[i] != d[|d| - 1];
      }
      CountPositive(init, x);
    } else {
      assert d == init + [d[|d| - 1]];
      CountOnce(init, x);
    }
  }

  /** When `d` lists every string of `s` once, the counts over `d` add up to |s|. */
  lemma {:induction false} SumCountsCoveringAll(s: seq<string>, d: seq<string>)
    requires NoDuplicates(d) && forall x :: x in s ==> x in d
    ensures SumCounts(s, d) == |s|
  {
    if s == [] {
      SumCountsOfEmpty(d);
    } else {
      var init, last := s[..|s| - 1], s[|s| - 1];
      assert s == init + [last];
      SumCountsCoveringAll(init, d);
      SumCountsAppend(init, last, d);
      CountOnce(d, last);
    }
  }

  lemma {:induction false} SumCountsOfEmpty(d: seq<string>)
    ensures SumCounts([], d) == 0
  {
    if d != [] {
      SumCountsOfEmpty(d[..|d| - 1]);
    }
  }

  // ---------------------------------------------------------------------------
  // Stable sort by count, highest first: `sort((a, b) => b[1] - a[1])`.

  /** Places `x` after every entry with a higher count and before the rest, so
      that an entry met earlier stays ahead of later ones with the same count. */
  function InsertByCount(x: GenreCount, s: seq<GenreCount>): seq<GenreCount>
  {
    if s == [] || s[0].count <= x.count then [x] + s
    else [s[0]] + InsertByCount(x, s[1..])
  }

  function SortByCount(s: seq<GenreCount>): seq<GenreCount>
  {
    if s == [] then [] else InsertByCount(s[0], SortByCount(s[1..]))
  }

  ghost predicate SortedByCount(s: seq<GenreCount>)
  {
    forall i, j :: 0 <= i < j < |s| ==> s[i].count >= s[j].count
  }

  /** Entries with equal counts appear in the order their genres have in `gs`. */
  ghost predicate TiesInOrder(s: seq<GenreCount>, gs: seq<string>)
  {
    forall i, j :: 0 <= i < j < |s| && s[i].count == s[j].count && s[i].genre in gs && s[j].genre in gs ==>
      FirstIndex(gs, s[i].genre) < FirstIndex(gs, s[j].genre)
  }

  /** Where `InsertByCount` puts `x`. */
  function InsertPosition(x: GenreCount, s: seq<GenreCount>): (k: nat)
    ensures k <= |s|
  {
    if s == [] || s[0].count <= x.count then 0 else 1 + InsertPosition(x, s[1..])
  }

  /** Inserting splits `s` after its entries with a higher count than `x`. */
  lemma {:induction false} InsertAt(x: GenreCount, s: seq<GenreCount>)
    ensures var k := InsertPosition(x, s);
            InsertByCount(x, s) == s[..k] + [x] + s[k..]
            && forall m :: 0 <= m < k ==> s[m].count > x.count
  {
    if !(s == [] || s[0].count <= x.count) {
      InsertAt(x, s[1..]);
      var k := InsertPosition(x, s[1..]);
      assert s[..k + 1] == [s[0]] + s[1..][..k];
      assert s[k + 1..] == s[1..][k..];
    }
  }

  lemma InsertPermutes(x: GenreCount, s: seq<GenreCount>)
    ensures multiset(InsertByCount(x, s)) == multiset(s) + multiset{x}
  {
    InsertAt(x, s);
    var k := InsertPosition(x, s);
    assert s == s[..k] + s[k..];
  }

  lemma {:induction false} InsertSorted(x: GenreCount, s: seq<GenreCount>)
    requires SortedByCount(s)
    ensures SortedByCount(InsertByCount(x, s))
  {
    var out := InsertByCount(x, s);
    if s == [] || s[0].count <= x.count {
      assert out == [x] + s;
      forall i, j | 0 <= i < j < |out| ensures out[i].count >= out[j].count {
        if i == 0 {
          assert out[j] == s[j - 1];
        } else {
          assert out[i] == s[i - 1] && out[j] == s[j - 1];
        }
      }
    } else {
      var r := InsertByCount(x, s[1..]);
      assert out == [s[0]] + r;
      InsertSorted(x, s[1..]);
      InsertPermutes(x, s[1..]);
      forall j | 0 <= j < |r| ensures s[0].count >= r[j].count {
        assert r[j] in multiset(r);
        assert r[j] in multiset(s[1..]) + multiset{x};
        if r[j] != x {
          var m :| 0 <= m < |s[1..]| && s[1..][m] == r[j];
          assert s[m + 1] == r[j];
        }
      }
      forall i, j | 0 <= i < j < |out| ensures out[i].count >= out[j].count {
        assert out[j] == r[j - 1];
        if i > 0 {
          assert out[i] == r[i - 1];
        }
      }
    }
  }

  lemma {:induction false} SortPermutes(s: seq<GenreCount>)
    ensures multiset(SortByCount(s)) == multiset(s)
    ensures |SortByCount(s)| == |s|
  {
    if s != [] {
      SortPermutes(s[1..]);
      InsertPermutes(s[0], SortByCount(s[1..]));
      assert s == [s[0]] + s[1..];
      assert |SortByCount(s)| == |multiset(SortByCount(s))|;
    }
  }

  lemma {:induction false} SortSorted(s: seq<GenreCount>)
    ensures SortedByCount(SortByCount(s))
  {
    if s != [] {
      SortSorted(s[1..]);
      InsertSorted(s[0], SortByCount(s[1..]));
    }
  }

  lemma FirstIndexCons(a: string, gs: seq<string>, g: string)
    requires g in gs && g != a
    ensures FirstIndex([a] + gs, g) == 1 + FirstIndex(gs, g)
  {
    assert ([a] + gs)[1..] == gs;
  }

  /** No genre occurs in two entries. */
  ghost predicate DistinctGenres(s: seq<GenreCount>)
  {
    forall i, j :: 0 <= i < j < |s| ==> s[i].genre != s[j].genre
  }

  lemma DistinctGenresIff(s: seq<GenreCount>)
    ensures DistinctGenres(s) <==> NoDuplicates(Genres(s))
  {
  }

  /** One step of the sort: the head is inserted into the sorted tail, whose
      genres are the tail's and differ from the head's. */
  lemma SortStep(s: seq<GenreCount>)
    requires s != [] && DistinctGenres(s)
    ensures var r := SortByCount(s[1..]);
            var k := InsertPosition(s[0], r);
            && |SortByCount(s)| == |r| + 1 && k <= |r|
            && (forall i :: 0 <= i < k ==> SortByCount(s)[i] == r[i] && r[i].count > s[0].count)
            && SortByCount(s)[k] == s[0]
            && (forall i :: k < i <= |r| ==> SortByCount(s)[i] == r[i - 1])
            && (forall i :: 0 <= i < |r| ==> r[i].genre in Genres(s[1..]) && r[i].genre != s[0].genre)
  {
    InsertAt(s[0], SortByCount(s[1..]));
    SortedTailGenres(s);
  }

  /** The sorted tail holds the tail's genres, none of them the head's. */
  lemma SortedTailGenres(s: seq<GenreCount>)
    requires s != [] && DistinctGenres(s)
    ensures forall i :: 0 <= i < |SortByCount(s[1..])| ==>
              SortByCount(s[1..])[i].genre in Genres(s[1..]) && SortByCount(s[1..])[i].genre != s[0].genre
  {
    var x, rest := s[0], s[1..];
    var r := SortByCount(rest);
    SortPermutes(rest);
    forall i | 0 <= i < |r| ensures r[i].genre in Genres(rest) && r[i].genre != x.genre {
      assert r[i] in multiset(rest);
      var m :| 0 <= m < |rest| && rest[m] == r[i];
      assert s[m + 1] == r[i];
      assert Genres(rest)[m] == r[i].genre;
    }
  }

  /** With distinct genres, sorting keeps them distinct. */
  lemma {:induction false} SortDistinct(s: seq<GenreCount>)
    requires DistinctGenres(s)
    ensures DistinctGenres(SortByCount(s))
  {
    if s != [] {
      SortDistinct(s[1..]);
      SortStep(s);
    }
  }

  /** With distinct genres, sorting keeps entries of equal count in their
      original order. */
  lemma {:induction false} SortTies(s: seq<GenreCount>)
    requires DistinctGenres(s)
    ensures TiesInOrder(SortByCount(s), Genres(s))
  {
    if s != [] {
      var x, rest := s[0], s[1..];
      assert Genres(s) == [x.genre] + Genres(rest);
      SortTies(rest);
      SortStep(s);
      var r := SortByCount(rest);
      var k := InsertPosition(x, r);
      var out := SortByCount(s);
      forall i, j | 0 <= i < j < |out| && out[i].count == out[j].count
                    && out[i].genre in Genres(s) && out[j].genre in Genres(s)
        ensures FirstIndex(Genres(s), out[i].genre) < FirstIndex(Genres(s), out[j].genre)
      {
        if i == k {
          assert out[j] == r[j - 1];
          FirstIndexCons(x.genre, Genres(rest), out[j].genre);
        } else if j != k {
          var i', j' := if i < k then i else i - 1, if j < k then j else j - 1;
          assert out[i] == r[i'] && out[j] == r[j'] && i' < j';
          assert FirstIndex(Genres(rest), r[i'].genre) < FirstIndex(Genres(rest), r[j'].genre);
          FirstIndexCons(x.genre, Genres(rest), out[i].genre);
          FirstIndexCons(x.genre, Genres(rest), out[j].genre);
        }
      }
    }
  }

  /** The sort orders by count, highest first, and is a permutation; with
      distinct genres, entries with equal counts keep their original order. */
  lemma SortSpec(s: seq<GenreCount>)
    ensures SortedByCount(SortByCount(s))
    ensures multiset(SortByCount(s)) == multiset(s)
    ensures NoDuplicates(Genres(s)) ==>
              NoDuplicates(Genres(SortByCount(s))) && TiesInOrder(SortByCount(s), Genres(s))
  {
    SortSorted(s);
    SortPermutes(s);
    DistinctGenresIff(s);
    DistinctGenresIff(SortByCount(s));
    if NoDuplicates(Genres(s)) {
      SortDistinct(s);
      SortTies(s);
    }
  }

  /** The first entry after sorting has the highest count, and among entries
      with that count it is the one that comes first. */
  lemma MostCommonFirst(t: seq<GenreCount>)
    requires t != [] && NoDuplicates(Genres(t))
    ensures SortByCount(t) != [] && SortByCount(t)[0] in t
    ensures forall e :: e in t ==> e.count <= SortByCount(t)[0].count
    ensures forall e :: e in t && e.count == SortByCount(t)[0].count ==>
              FirstIndex(Genres(t), SortByCount(t)[0].genre) <= FirstIndex(Genres(t), e.genre)
  {
    SortSpec(t);
    var sorted := SortByCount(t);
    SortPermutes(t);
    assert sorted[0] in multiset(t);
    forall e | e in t
      ensures e.count <= sorted[0].count
      ensures e.count == sorted[0].count ==> FirstIndex(Genres(t), sorted[0].genre) <= FirstIndex(Genres(t), e.genre)
    {
      assert e in multiset(sorted);
      var i :| 0 <= i < |sorted| && sorted[i] == e;
      var a :| 0 <= a < |t| && t[a] == e;
      assert Genres(t)[a] == e.genre;
      var b :| 0 <= b < |t| && t[b] == sorted[0];
      assert Genres(t)[b] == sorted[0].genre;
    }
  }

  /** The first five entries after sorting (`slice(0, 5)`). */
  function TopFive(t: seq<GenreCount>): seq<GenreCount>
  {
    var sorted := SortByCount(t);
    SortPermutes(t);
    sorted[..Min(5, |sorted|)]
  }

  /** The five kept entries are the highest counts: every entry of the tally is
      either kept or has no higher count than any kept entry; with distinct
      genres, the kept ones are distinct and ties keep their tally order. */
  lemma TopFiveSpec(t: seq<GenreCount>)
    ensures |TopFive(t)| == Min(5, |t|)
    ensures SortedByCount(TopFive(t))
    ensures forall e :: e in TopFive(t) ==> e in t
    ensures forall e, k :: e in t && e !in TopFive(t) && 0 <= k < |TopFive(t)| ==>
              e.count <= TopFive(t)[k].count
    ensures NoDuplicates(Genres(t)) ==>
              NoDuplicates(Genres(TopFive(t))) && TiesInOrder(TopFive(t), Genres(t))
  {
    SortSpec(t);
    SortPermutes(t);
    var sorted := SortByCount(t);
    var top := TopFive(t);
    assert top == sorted[..Min(5, |sorted|)];
    assert forall m :: 0 <= m < |top| ==> top[m] == sorted[m];
    forall e | e in top ensures e in t {
      assert e in multiset(sorted);
    }
    forall e, k | e in t && e !in top && 0 <= k < |top| ensures e.count <= top[k].count {
      assert e in multiset(sorted);
      var i :| 0 <= i < |sorted| && sorted[i] == e;
    }
    if NoDuplicates(Genres(t)) {
      TopFiveDistinct(t);
    }
  }

  lemma TopFiveDistinct(t: seq<GenreCount>)
    requires NoDuplicates(Genres(t))
    ensures NoDuplicates(Genres(TopFive(t))) && TiesInOrder(TopFive(t), Genres(t))
  {
    SortSpec(t);
    var sorted := SortByCount(t);
    var top := TopFive(t);
    assert forall m :: 0 <= m < |top| ==> top[m] == sorted[m];
    assert forall m :: 0 <= m < |top| ==> Genres(top)[m] == Genres(sorted)[m];
  }
}
