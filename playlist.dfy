/** The track selection of the two playlist routes, apart from the HTTP and
    Spotify calls around it: `POST` keeps the first track of each id from both
    users' top tracks and takes twenty; `POST_blended` puts the tracks of the
    users' shared genres first and fills up with each user's other tracks. */
module Playlist {
  import opened Common
  import opened Spotify
  import opened Similarity

  /** The number of tracks a playlist gets. */
  const PlaylistSize := 20

  // ---------------------------------------------------------------------------
  // Array.prototype.filter and findIndex

  /** `s.filter(p)`. */
  function Filter<T>(s: seq<T>, p: T -> bool): seq<T>
  {
    if s == [] then []
    else Filter(s[..|s| - 1], p) + (if p(s[|s| - 1]) then [s[|s| - 1]] else [])
  }

  /** A filter keeps each element as often as it occurs when the predicate holds
      and drops it otherwise, and keeps the order of what it keeps. */
  lemma FilterSpec<T>(s: seq<T>, p: T -> bool)
    ensures forall x :: Count(Filter(s, p), x) == if p(x) then Count(s, x) else 0
    ensures forall x :: x in Filter(s, p) <==> x in s && p(x)
    ensures IsSubsequence(Filter(s, p), s)
  {
    FilterCount(s, p);
    FilterSubsequence(s, p);
    forall x ensures x in Filter(s, p) <==> x in s && p(x) {
      CountPositive(Filter(s, p), x);
      CountPositive(s, x);
    }
  }

  lemma {:induction false} FilterCount<T>(s: seq<T>, p: T -> bool)
    ensures forall x :: Count(Filter(s, p), x) == if p(x) then Count(s, x) else 0
  {
    if s != [] {
      var init, last := s[..|s| - 1], s[|s| - 1];
      assert s == init + [last];
      FilterCount(init, p);
      var f := Filter(init, p);
      forall x ensures Count(Filter(s, p), x) == if p(x) then Count(s, x) else 0 {
        CountAppend(init, last, x);
        if p(last) {
          assert Filter(s, p) == f + [last];
          CountAppend(f, last, x);
        } else {
          assert Filter(s, p) == f;
        }
      }
    }
  }

  lemma {:induction false} FilterSubsequence<T>(s: seq<T>, p: T -> bool)
    ensures IsSubsequence(Filter(s, p), s)
  {
    if s != [] {
      var init, last := s[..|s| - 1], s[|s| - 1];
      FilterSubsequence(init, p);
      var f := Filter(init, p);
      if p(last) {
        assert Filter(s, p) == f + [last];
        assert Filter(s, p)[..|f|] == f;
      } else {
        assert Filter(s, p) == f;
        SubsequenceWeaken(f, init, last);
        assert init + [last] == s;
      }
    }
  }

  /** `tracks.findIndex(t => t.id === id)`: the first position holding a track
      with that id, or -1 when there is none. */
  function FindIndexById(tracks: seq<Track>, id: string): (i: int)
    ensures -1 <= i < |tracks|
    ensures i >= 0 ==> tracks[i].id == id && forall j :: 0 <= j < i ==> tracks[j].id != id
    ensures i == -1 <==> id !in Ids(tracks, TrackId)
  {
    if tracks == [] then -1
    else if tracks[0].id == id then 0
    else
      var r := FindIndexById(tracks[1..], id);
      assert forall j :: 1 <= j < |tracks| ==> Ids(tracks, TrackId)[j] == Ids(tracks[1..], TrackId)[j - 1];
      if r < 0 then -1 else r + 1
  }

  // ---------------------------------------------------------------------------
  // Removing duplicate ids

  /** `self.filter((track, index, self) => index === self.findIndex(t => t.id === track.id))`
      applied to the first `n` positions of `self`. */
  function KeepFirstIds(self: seq<Track>, n: nat): seq<Track>
    requires n <= |self|
  {
    if n == 0 then []
    else KeepFirstIds(self, n - 1) + (if FindIndexById(self, self[n - 1].id) == n - 1 then [self[n - 1]] else [])
  }

  /** The tracks of a list with duplicate ids removed, as the routes do it. */
  function UniqueTracks(tracks: seq<Track>): seq<Track>
  {
    KeepFirstIds(tracks, |tracks|)
  }

  /** The same list built by scanning: a track is kept when no earlier track has
      its id. */
  function DedupById(tracks: seq<Track>): seq<Track>
  {
    if tracks == [] then []
    else
      var init, last := tracks[..|tracks| - 1], tracks[|tracks| - 1];
      DedupById(init) + (if last.id in Ids(init, TrackId) then [] else [last])
  }

  lemma IdsAppend(a: seq<Track>, b: seq<Track>)
    ensures Ids(a + b, TrackId) == Ids(a, TrackId) + Ids(b, TrackId)
  {
  }

  lemma IdsPrefix(s: seq<Track>, n: nat)
    requires n <= |s|
    ensures Ids(s[..n], TrackId) == Ids(s, TrackId)[..n]
  {
  }

  /** The index test of the filter keeps the track at position `n - 1` exactly
      when no earlier track has its id, so the filter and the scan agree. */
  lemma {:induction false} KeepFirstIsDedup(self: seq<Track>, n: nat)
    requires n <= |self|
    ensures KeepFirstIds(self, n) == DedupById(self[..n])
  {
    if n > 0 {
      var init, x := self[..n - 1], self[n - 1];
      KeepFirstIsDedup(self, n - 1);
      assert DedupById(self[..n]) == DedupById(init) + (if x.id in Ids(init, TrackId) then [] else [x]) by {
        assert self[..n][..n - 1] == init && self[..n][n - 1] == x;
      }
      FirstIdTest(self, n - 1);
    }
  }

  /** The track at position `k` is the first with its id exactly when no
      track before it has that id. */
  lemma FirstIdTest(self: seq<Track>, k: nat)
    requires k < |self|
    ensures FindIndexById(self, self[k].id) == k <==> self[k].id !in Ids(self[..k], TrackId)
  {
    var f := FindIndexById(self, self[k].id);
    IdsPrefix(self, k);
    if f != k {
      assert Ids(self[..k], TrackId)[f] == self[k].id;
    } else {
      forall j | 0 <= j < k ensures Ids(self[..k], TrackId)[j] != self[k].id {
        assert Ids(self[..k], TrackId)[j] == self[j].id;
      }
    }
  }

  lemma UniqueIsDedup(tracks: seq<Track>)
    ensures UniqueTracks(tracks) == DedupById(tracks)
  {
    KeepFirstIsDedup(tracks, |tracks|);
    assert tracks[..|tracks|] == tracks;
  }

  /** The ids left are the distinct ids of the input, once each, in the order
      in which they first occur. */
  lemma {:induction false} DedupByIdIds(tracks: seq<Track>)
    ensures Ids(DedupById(tracks), TrackId) == Dedup(Ids(tracks, TrackId))
  {
    if tracks != [] {
      var init, last := tracks[..|tracks| - 1], tracks[|tracks| - 1];
      assert tracks == init + [last];
      DedupByIdIds(init);
      IdsAppend(init, [last]);
      DedupAppend(Ids(init, TrackId), last.id);
      IdsAppend(DedupById(init), [last]);
    }
  }

  /** Every track left is the first one with its id. */
  lemma {:induction false} DedupByIdFirst(tracks: seq<Track>)
    ensures forall i :: 0 <= i < |DedupById(tracks)| ==>
              0 <= FindIndexById(tracks, DedupById(tracks)[i].id)
              && tracks[FindIndexById(tracks, DedupById(tracks)[i].id)] == DedupById(tracks)[i]
  {
    if tracks != [] {
      var init, last := tracks[..|tracks| - 1], tracks[|tracks| - 1];
      assert tracks == init + [last];
      DedupByIdFirst(init);
      var d := DedupById(init);
      forall i | 0 <= i < |d|
        ensures 0 <= FindIndexById(tracks, d[i].id) && tracks[FindIndexById(tracks, d[i].id)] == d[i]
      {
        FindIndexPrefix(init, [last], d[i].id);
      }
      if last.id !in Ids(init, TrackId) {
        forall j | 0 <= j < |init| ensures tracks[j].id != last.id {
          assert Ids(init, TrackId)[j] == tracks[j].id;
        }
      }
    }
  }

  /** A track found in `a` is found at the same place in `a + b`. */
  lemma FindIndexPrefix(a: seq<Track>, b: seq<Track>, id: string)
    requires FindIndexById(a, id) >= 0
    ensures FindIndexById(a + b, id) == FindIndexById(a, id)
  {
    var f, g := FindIndexById(a, id), FindIndexById(a + b, id);
    assert Ids(a + b, TrackId)[f] == id;
    assert g <= f;
    assert a[g].id == id;
  }

  /** The tracks left have pairwise distinct ids. */
  lemma DistinctIds(tracks: seq<Track>)
    ensures NoDuplicates(Ids(UniqueTracks(tracks), TrackId))
    ensures forall id :: id in Ids(UniqueTracks(tracks), TrackId) <==> id in Ids(tracks, TrackId)
  {
    UniqueIsDedup(tracks);
    DedupByIdIds(tracks);
    DedupSpec(Ids(tracks, TrackId));
  }

  /** Removing duplicates from `a + b` starts with the result for `a`. */
  lemma {:induction false} DedupByIdPrefix(a: seq<Track>, b: seq<Track>)
    ensures |DedupById(a)| <= |DedupById(a + b)|
    ensures DedupById(a + b)[..|DedupById(a)|] == DedupById(a)
  {
    if b != [] {
      var b', last := b[..|b| - 1], b[|b| - 1];
      assert (a + b)[..|a + b| - 1] == a + b';
      DedupByIdPrefix(a, b');
    } else {
      assert a + b == a;
    }
  }

  /** A list whose ids are already distinct is left as it is. */
  lemma {:induction false} DedupByIdDistinct(tracks: seq<Track>)
    requires NoDuplicates(Ids(tracks, TrackId))
    ensures DedupById(tracks) == tracks
  {
    if tracks != [] {
      var init, last := tracks[..|tracks| - 1], tracks[|tracks| - 1];
      assert tracks == init + [last];
      IdsPrefix(tracks, |init|);
      DedupByIdDistinct(init);
      forall j | 0 <= j < |init| ensures Ids(init, TrackId)[j] != last.id {
        assert Ids(tracks, TrackId)[j] == Ids(init, TrackId)[j];
      }
    }
  }

  // ---------------------------------------------------------------------------
  // POST: both users' top tracks, first occurrence of each id, twenty at most

  function SelectTracks(user1Tracks: seq<Track>, user2Tracks: seq<Track>): seq<Track>
  {
    var unique := UniqueTracks(user1Tracks + user2Tracks);
    unique[..Min(PlaylistSize, |unique|)]
  }

  /** The selection holds at most twenty tracks with distinct ids, each the
      first track with its id in user1's then user2's list, in the order of
      those first occurrences; it is the start of the de-duplicated list and,
      when there are at most twenty distinct ids, holds every one of them. */
  lemma SelectTracksSpec(user1Tracks: seq<Track>, user2Tracks: seq<Track>)
    ensures var all, s := user1Tracks + user2Tracks, SelectTracks(user1Tracks, user2Tracks);
            && |s| == Min(PlaylistSize, |Dedup(Ids(all, TrackId))|)
            && NoDuplicates(Ids(s, TrackId))
            && (forall i :: 0 <= i < |s| ==>
                  0 <= FindIndexById(all, s[i].id) && all[FindIndexById(all, s[i].id)] == s[i])
            && (forall i, j :: 0 <= i < j < |s| ==> FindIndexById(all, s[i].id) < FindIndexById(all, s[j].id))
            && (|Dedup(Ids(all, TrackId))| <= PlaylistSize ==>
                  forall id :: id in Ids(s, TrackId) <==> id in Ids(all, TrackId))
  {
    var all := user1Tracks + user2Tracks;
    var u := UniqueTracks(all);
    var s := SelectTracks(user1Tracks, user2Tracks);
    assert s == u[..|s|];
    UniqueTracksSpec(all);
    assert |u| == |Dedup(Ids(all, TrackId))| by {
      assert |Ids(u, TrackId)| == |u|;
    }
    DistinctPrefix(u, |s|);
    if |u| <= PlaylistSize {
      assert s == u;
      DistinctIds(all);
    }
  }

  /** The de-duplicated list: its ids are the distinct ids of the input, once
      each; every track in it is the first track with its id, and the tracks
      come in the order of those first positions. */
  lemma UniqueTracksSpec(tracks: seq<Track>)
    ensures var u := UniqueTracks(tracks);
            && Ids(u, TrackId) == Dedup(Ids(tracks, TrackId))
            && NoDuplicates(Ids(u, TrackId))
            && (forall i :: 0 <= i < |u| ==>
                  0 <= FindIndexById(tracks, u[i].id) && tracks[FindIndexById(tracks, u[i].id)] == u[i])
            && (forall i, j :: 0 <= i < j < |u| ==> FindIndexById(tracks, u[i].id) < FindIndexById(tracks, u[j].id))
  {
    var u := UniqueTracks(tracks);
    var ids := Ids(tracks, TrackId);
    UniqueIsDedup(tracks);
    DedupByIdIds(tracks);
    DedupByIdFirst(tracks);
    DedupSpec(ids);
    forall i, j | 0 <= i < j < |u|
      ensures FindIndexById(tracks, u[i].id) < FindIndexById(tracks, u[j].id)
    {
      assert Dedup(ids)[i] == u[i].id && Dedup(ids)[j] == u[j].id;
      assert u[i].id in ids && u[j].id in ids;
      FindIsFirst(tracks, u[i].id);
      FindIsFirst(tracks, u[j].id);
    }
  }

  /** `findIndex` on tracks is `FirstIndex` on their ids. */
  lemma FindIsFirst(tracks: seq<Track>, id: string)
    requires id in Ids(tracks, TrackId)
    ensures FindIndexById(tracks, id) == FirstIndex(Ids(tracks, TrackId), id)
  {
    var f, g := FindIndexById(tracks, id), FirstIndex(Ids(tracks, TrackId), id);
    assert Ids(tracks, TrackId)[f] == id;
    assert tracks[g].id == id;
  }

  // ---------------------------------------------------------------------------
  // Track URIs and playlist names

  const UriPrefix := "spotify:track:"

  function TrackUri(t: Track): string
  {
    UriPrefix + t.id
  }

  /** `tracks.map(track => `spotify:track:${track.id}`)`. */
  function TrackUris(tracks: seq<Track>): (uris: seq<string>)
    ensures |uris| == |tracks|
  {
    seq(|tracks|, i requires 0 <= i < |tracks| => TrackUri(tracks[i]))
  }

  /** The id can be read back from a track's URI. */
  lemma UriId(t: Track)
    ensures |TrackUri(t)| == |UriPrefix| + |t.id|
    ensures TrackUri(t)[..|UriPrefix|] == UriPrefix && TrackUri(t)[|UriPrefix|..] == t.id
  {
  }

  /** One URI per track, in the same order, each naming that track's id; two
      URIs are equal exactly when the ids are. */
  lemma TrackUrisSpec(tracks: seq<Track>)
    ensures forall i :: 0 <= i < |tracks| ==> TrackUris(tracks)[i][|UriPrefix|..] == tracks[i].id
    ensures NoDuplicates(TrackUris(tracks)) <==> NoDuplicates(Ids(tracks, TrackId))
  {
    var uris := TrackUris(tracks);
    forall i | 0 <= i < |tracks| ensures uris[i][|UriPrefix|..] == tracks[i].id {
      UriId(tracks[i]);
    }
    forall i, j | 0 <= i < j < |tracks| ensures uris[i] == uris[j] <==> tracks[i].id == tracks[j].id {
      UriId(tracks[i]);
      UriId(tracks[j]);
    }
  }

  /** The playlist of `POST` gets one URI per selected track and no URI twice. */
  lemma SelectedUrisDistinct(user1Tracks: seq<Track>, user2Tracks: seq<Track>)
    ensures |TrackUris(SelectTracks(user1Tracks, user2Tracks))| <= PlaylistSize
    ensures NoDuplicates(TrackUris(SelectTracks(user1Tracks, user2Tracks)))
  {
    SelectTracksSpec(user1Tracks, user2Tracks);
    TrackUrisSpec(SelectTracks(user1Tracks, user2Tracks));
  }

  function PlaylistName(name1: string, name2: string): string
  {
    "TasteMatch: " + name1 + " & " + name2
  }

  function BlendedPlaylistName(name1: string, name2: string): string
  {
    "Blended Vibes: " + name1 + " & " + name2
  }

  /** The two routes' playlist names never coincide, whatever the users'
      display names. */
  lemma NamesDiffer(a1: string, a2: string, b1: string, b2: string)
    ensures PlaylistName(a1, a2) != BlendedPlaylistName(b1, b2)
  {
    assert PlaylistName(a1, a2)[0] == 'T';
    assert BlendedPlaylistName(b1, b2)[0] == 'B';
  }

  // ---------------------------------------------------------------------------
  // POST_blended

  /** `user1Genres.filter(g => user2Genres.includes(g))`. */
  function SharedGenres(user1Genres: seq<string>, user2Genres: seq<string>): seq<string>
  {
    Filter(user1Genres, (g: string) => g in user2Genres)
  }

  /** A genre is shared exactly when both users have it; each is listed as
      often as in user1's list, in user1's order. */
  lemma SharedGenresSpec(user1Genres: seq<string>, user2Genres: seq<string>)
    ensures forall g :: g in SharedGenres(user1Genres, user2Genres) <==> g in user1Genres && g in user2Genres
    ensures forall g :: g in user2Genres ==> Count(SharedGenres(user1Genres, user2Genres), g) == Count(user1Genres, g)
    ensures IsSubsequence(SharedGenres(user1Genres, user2Genres), user1Genres)
  {
    FilterSpec(user1Genres, (g: string) => g in user2Genres);
  }

  /** `artist.genres && artist.genres.some(g => genres.includes(g))`: a genre
      list that is present, even an empty one, is truthy. */
  predicate ArtistMatches(artist: TrackArtist, genres: seq<string>)
  {
    artist.genres.Some? && exists g :: g in artist.genres.value && g in genres
  }

  predicate GenreMatched(t: Track, genres: seq<string>)
  {
    exists a :: a in t.artists && ArtistMatches(a, genres)
  }

  /** `filterTracksByGenres`. */
  function FilterTracksByGenres(tracks: seq<Track>, genres: seq<string>): seq<Track>
  {
    Filter(tracks, (t: Track) => GenreMatched(t, genres))
  }

  /** `tracks.filter(t => !blended.some(bt => bt.id === t.id))`. */
  function NotIn(tracks: seq<Track>, blended: seq<Track>): seq<Track>
  {
    Filter(tracks, (t: Track) => t.id !in Ids(blended, TrackId))
  }

  /** The genre filter keeps exactly the genre-matched tracks, in order. */
  lemma FilterTracksByGenresSpec(tracks: seq<Track>, genres: seq<string>)
    ensures forall t :: t in FilterTracksByGenres(tracks, genres) <==> t in tracks && GenreMatched(t, genres)
  {
    FilterSpec(tracks, (t: Track) => GenreMatched(t, genres));
  }

  /** The filler keeps exactly the tracks whose id is not in `blended`, in order. */
  lemma NotInSpec(tracks: seq<Track>, blended: seq<Track>)
    ensures forall t :: t in NotIn(tracks, blended) <==> t in tracks && t.id !in Ids(blended, TrackId)
    ensures IsSubsequence(NotIn(tracks, blended), tracks)
  {
    FilterSpec(tracks, (t: Track) => t.id !in Ids(blended, TrackId));
  }

  /** The genre-matched tracks, user1's then user2's, with duplicate ids removed. */
  function GenrePicks(user1Tracks: seq<Track>, user2Tracks: seq<Track>, shared: seq<string>): seq<Track>
  {
    UniqueTracks(FilterTracksByGenres(user1Tracks, shared) + FilterTracksByGenres(user2Tracks, shared))
  }

  /** The list before it is cut to twenty: both fillers are tested against the
      genre picks only. */
  function BlendedBeforeCut(user1Tracks: seq<Track>, user2Tracks: seq<Track>,
                            user1Genres: seq<string>, user2Genres: seq<string>): seq<Track>
  {
    var picks := GenrePicks(user1Tracks, user2Tracks, SharedGenres(user1Genres, user2Genres));
    picks + NotIn(user1Tracks, picks) + NotIn(user2Tracks, picks)
  }

  function BlendedTracks(user1Tracks: seq<Track>, user2Tracks: seq<Track>,
                         user1Genres: seq<string>, user2Genres: seq<string>): seq<Track>
  {
    var all := BlendedBeforeCut(user1Tracks, user2Tracks, user1Genres, user2Genres);
    all[..Min(PlaylistSize, |all|)]
  }

  /** The genre picks are genre-matched tracks of either user, with distinct
      ids, and every genre-matched track's id is among them. */
  lemma GenrePicksSpec(user1Tracks: seq<Track>, user2Tracks: seq<Track>, shared: seq<string>)
    ensures var picks := GenrePicks(user1Tracks, user2Tracks, shared);
            && NoDuplicates(Ids(picks, TrackId))
            && (forall t :: t in picks ==> GenreMatched(t, shared) && (t in user1Tracks || t in user2Tracks))
            && (forall t :: (t in user1Tracks || t in user2Tracks) && GenreMatched(t, shared) ==> t.id in Ids(picks, TrackId))
  {
    var f1, f2 := FilterTracksByGenres(user1Tracks, shared), FilterTracksByGenres(user2Tracks, shared);
    var picks := GenrePicks(user1Tracks, user2Tracks, shared);
    FilterTracksByGenresSpec(user1Tracks, shared);
    FilterTracksByGenresSpec(user2Tracks, shared);
    DistinctIds(f1 + f2);
    UniqueIsDedup(f1 + f2);
    DedupByIdFirst(f1 + f2);
    forall t: Track | t in picks ensures t in f1 + f2 {
      var i :| 0 <= i < |picks| && picks[i] == t;
    }
    forall t: Track | t in f1 + f2 ensures t.id in Ids(f1 + f2, TrackId) {
      var i :| 0 <= i < |f1 + f2| && (f1 + f2)[i] == t;
      assert Ids(f1 + f2, TrackId)[i] == t.id;
    }
  }

  /** The positions of a cut concatenation, segment by segment. */
  lemma CutSegments(picks: seq<Track>, fill1: seq<Track>, fill2: seq<Track>, n: nat)
    requires n <= |picks| + |fill1| + |fill2|
    ensures var r := (picks + fill1 + fill2)[..n];
            && (forall i :: 0 <= i < n && i < |picks| ==> r[i] == picks[i])
            && (forall i :: |picks| <= i < n && i < |picks| + |fill1| ==> r[i] == fill1[i - |picks|])
            && (forall i :: |picks| + |fill1| <= i < n ==> r[i] == fill2[i - |picks| - |fill1|])
  {
  }

  /** The blend holds at most twenty tracks and starts with the genre picks
      (described by `GenrePicksSpec`), cut to twenty; exactly the entries
      before the end of the picks have a picked id. */
  lemma BlendedSpec(user1Tracks: seq<Track>, user2Tracks: seq<Track>,
                    user1Genres: seq<string>, user2Genres: seq<string>)
    ensures var picks := GenrePicks(user1Tracks, user2Tracks, SharedGenres(user1Genres, user2Genres));
            var r := BlendedTracks(user1Tracks, user2Tracks, user1Genres, user2Genres);
            && |r| == Min(PlaylistSize, |picks| + |NotIn(user1Tracks, picks)| + |NotIn(user2Tracks, picks)|)
            && r[..Min(|r|, |picks|)] == picks[..Min(|r|, |picks|)]
            && (forall i :: 0 <= i < |r| ==> (i < |picks| <==> r[i].id in Ids(picks, TrackId)))
  {
    var picks := GenrePicks(user1Tracks, user2Tracks, SharedGenres(user1Genres, user2Genres));
    var fill1, fill2 := NotIn(user1Tracks, picks), NotIn(user2Tracks, picks);
    var n := Min(PlaylistSize, |picks| + |fill1| + |fill2|);
    assert BlendedTracks(user1Tracks, user2Tracks, user1Genres, user2Genres) == (picks + fill1 + fill2)[..n];
    PicksThenFill(picks, user1Tracks, user2Tracks, n);
  }

  /** In a cut of `picks` followed by the two fillers, the picks come first
      and exactly they have a picked id. */
  lemma PicksThenFill(picks: seq<Track>, user1Tracks: seq<Track>, user2Tracks: seq<Track>, n: nat)
    requires n <= |picks| + |NotIn(user1Tracks, picks)| + |NotIn(user2Tracks, picks)|
    ensures var r := (picks + NotIn(user1Tracks, picks) + NotIn(user2Tracks, picks))[..n];
            && r[..Min(n, |picks|)] == picks[..Min(n, |picks|)]
            && (forall i :: 0 <= i < n ==> (i < |picks| <==> r[i].id in Ids(picks, TrackId)))
  {
    var fill1, fill2 := NotIn(user1Tracks, picks), NotIn(user2Tracks, picks);
    var r := (picks + fill1 + fill2)[..n];
    CutSegments(picks, fill1, fill2, n);
    NotInSpec(user1Tracks, picks);
    NotInSpec(user2Tracks, picks);
    forall i | 0 <= i < n ensures i < |picks| <==> r[i].id in Ids(picks, TrackId) {
      if i < |picks| {
        assert Ids(picks, TrackId)[i] == r[i].id;
      } else if i < |picks| + |fill1| {
        assert fill1[i - |picks|] in fill1;
      } else {
        assert fill2[i - |picks| - |fill1|] in fill2;
      }
    }
  }

  /** After some picked tracks come user1's tracks whose id is not picked, in
      user1's order, and then user2's, in user2's order. */
  lemma FillSegments(picks: seq<Track>, user1Tracks: seq<Track>, user2Tracks: seq<Track>, n: nat)
    requires n <= |picks| + |NotIn(user1Tracks, picks)| + |NotIn(user2Tracks, picks)|
    ensures var fill1, fill2 := NotIn(user1Tracks, picks), NotIn(user2Tracks, picks);
            var r := (picks + fill1 + fill2)[..n];
            && (forall i :: |picks| <= i < n && i < |picks| + |fill1| ==>
                  r[i] == fill1[i - |picks|] && r[i] in user1Tracks)
            && (forall i :: |picks| + |fill1| <= i < n ==>
                  r[i] == fill2[i - |picks| - |fill1|] && r[i] in user2Tracks)
  {
    var fill1, fill2 := NotIn(user1Tracks, picks), NotIn(user2Tracks, picks);
    var r := (picks + fill1 + fill2)[..n];
    CutSegments(picks, fill1, fill2, n);
    NotInSpec(user1Tracks, picks);
    NotInSpec(user2Tracks, picks);
    forall i | |picks| <= i < n && i < |picks| + |fill1| ensures r[i] in user1Tracks {
      assert fill1[i - |picks|] in fill1;
    }
    forall i | |picks| + |fill1| <= i < n ensures r[i] in user2Tracks {
      assert fill2[i - |picks| - |fill1|] in fill2;
    }
  }

  /** After the genre picks come the filler of user1's tracks and then the
      filler of user2's tracks (each described by `NotInSpec`). */
  lemma BlendedFillSpec(user1Tracks: seq<Track>, user2Tracks: seq<Track>,
                        user1Genres: seq<string>, user2Genres: seq<string>)
    ensures var picks := GenrePicks(user1Tracks, user2Tracks, SharedGenres(user1Genres, user2Genres));
            var fill1, fill2 := NotIn(user1Tracks, picks), NotIn(user2Tracks, picks);
            var r := BlendedTracks(user1Tracks, user2Tracks, user1Genres, user2Genres);
            && (forall i :: |picks| <= i < |r| && i < |picks| + |fill1| ==>
                  r[i] == fill1[i - |picks|] && r[i] in user1Tracks)
            && (forall i :: |picks| + |fill1| <= i < |r| ==>
                  r[i] == fill2[i - |picks| - |fill1|] && r[i] in user2Tracks)
  {
    var picks := GenrePicks(user1Tracks, user2Tracks, SharedGenres(user1Genres, user2Genres));
    var fill1, fill2 := NotIn(user1Tracks, picks), NotIn(user2Tracks, picks);
    var n := Min(PlaylistSize, |picks| + |fill1| + |fill2|);
    assert BlendedTracks(user1Tracks, user2Tracks, user1Genres, user2Genres) == (picks + fill1 + fill2)[..n];
    FillSegments(picks, user1Tracks, user2Tracks, n);
  }

  /** When the blend is not cut, every track id of either user is in it. */
  lemma BlendedComplete(user1Tracks: seq<Track>, user2Tracks: seq<Track>,
                        user1Genres: seq<string>, user2Genres: seq<string>)
    requires |BlendedBeforeCut(user1Tracks, user2Tracks, user1Genres, user2Genres)| <= PlaylistSize
    ensures forall t :: t in user1Tracks || t in user2Tracks ==>
              t.id in Ids(BlendedTracks(user1Tracks, user2Tracks, user1Genres, user2Genres), TrackId)
  {
    var before := BlendedBeforeCut(user1Tracks, user2Tracks, user1Genres, user2Genres);
    assert BlendedTracks(user1Tracks, user2Tracks, user1Genres, user2Genres) == before;
    BeforeCutCovers(user1Tracks, user2Tracks, user1Genres, user2Genres);
  }

  /** A track in both users' lists whose id is not among the genre picks goes
      into both fillers, so the list before the cut holds it twice. */
  lemma SharedTrackTwice(user1Tracks: seq<Track>, user2Tracks: seq<Track>,
                         user1Genres: seq<string>, user2Genres: seq<string>, t: Track)
    requires t in user1Tracks && t in user2Tracks
    requires t.id !in Ids(GenrePicks(user1Tracks, user2Tracks, SharedGenres(user1Genres, user2Genres)), TrackId)
    ensures Count(BlendedBeforeCut(user1Tracks, user2Tracks, user1Genres, user2Genres), t) >= 2
  {
    var picks := GenrePicks(user1Tracks, user2Tracks, SharedGenres(user1Genres, user2Genres));
    var fill1, fill2 := NotIn(user1Tracks, picks), NotIn(user2Tracks, picks);
    NotInSpec(user1Tracks, picks);
    NotInSpec(user2Tracks, picks);
    assert t in fill1 && t in fill2;
    CountPositive(fill1, t);
    CountPositive(fill2, t);
    assert BlendedBeforeCut(user1Tracks, user2Tracks, user1Genres, user2Genres) == picks + fill1 + fill2;
    CountConcat(picks + fill1, fill2, t);
    CountConcat(picks, fill1, t);
  }

  lemma {:induction false} CountConcat<T>(a: seq<T>, b: seq<T>, x: T)
    ensures Count(a + b, x) == Count(a, x) + Count(b, x)
    decreases |b|
  {
    if b != [] {
      var b', last := b[..|b| - 1], b[|b| - 1];
      assert a + b == (a + b') + [last];
      assert b == b' + [last];
      CountConcat(a, b', x);
      CountAppend(a + b', last, x);
      CountAppend(b', last, x);
    } else {
      assert a + b == a;
    }
  }

  /** Track artists as the catalog returns them carry no genres. */
  predicate NoTrackGenres(tracks: seq<Track>)
  {
    forall t :: t in tracks ==> forall a :: a in t.artists ==> a.genres.None?
  }

  /** Without genres on the track artists nothing is genre-matched: the blend
      is user1's tracks followed by user2's, cut to twenty, whatever genres the
      users share. */
  lemma CatalogTracksBlend(user1Tracks: seq<Track>, user2Tracks: seq<Track>,
                           user1Genres: seq<string>, user2Genres: seq<string>)
    requires NoTrackGenres(user1Tracks) && NoTrackGenres(user2Tracks)
    ensures BlendedTracks(user1Tracks, user2Tracks, user1Genres, user2Genres)
            == (user1Tracks + user2Tracks)[..Min(PlaylistSize, |user1Tracks| + |user2Tracks|)]
  {
    NoPicks(user1Tracks, user2Tracks, SharedGenres(user1Genres, user2Genres));
    BlendWithoutPicks(user1Tracks, user2Tracks, user1Genres, user2Genres);
  }

  /** With no genre picks the fillers are the users' whole lists. */
  lemma BlendWithoutPicks(user1Tracks: seq<Track>, user2Tracks: seq<Track>,
                          user1Genres: seq<string>, user2Genres: seq<string>)
    requires GenrePicks(user1Tracks, user2Tracks, SharedGenres(user1Genres, user2Genres)) == []
    ensures BlendedBeforeCut(user1Tracks, user2Tracks, user1Genres, user2Genres) == user1Tracks + user2Tracks
  {
    NotInNothing(user1Tracks);
    NotInNothing(user2Tracks);
  }

  lemma NoPicks(user1Tracks: seq<Track>, user2Tracks: seq<Track>, shared: seq<string>)
    requires NoTrackGenres(user1Tracks) && NoTrackGenres(user2Tracks)
    ensures GenrePicks(user1Tracks, user2Tracks, shared) == []
  {
    NothingMatched(user1Tracks, shared);
    NothingMatched(user2Tracks, shared);
    assert FilterTracksByGenres(user1Tracks, shared) + FilterTracksByGenres(user2Tracks, shared) == [];
  }

  lemma {:induction false} NothingMatched(tracks: seq<Track>, genres: seq<string>)
    requires NoTrackGenres(tracks)
    ensures FilterTracksByGenres(tracks, genres) == []
  {
    if tracks != [] {
      var init, last := tracks[..|tracks| - 1], tracks[|tracks| - 1];
      assert last in tracks;
      assert forall t :: t in init ==> t in tracks;
      NothingMatched(init, genres);
    }
  }

  lemma {:induction false} NotInNothing(tracks: seq<Track>)
    ensures NotIn(tracks, []) == tracks
  {
    if tracks != [] {
      assert tracks == tracks[..|tracks| - 1] + [tracks[|tracks| - 1]];
      NotInNothing(tracks[..|tracks| - 1]);
    }
  }

  /** A track in both users' top lists, with no genres on its artists: the
      blended playlist gets it twice, although both users share a genre. */
  lemma BlendedDuplicateExample()
    ensures var x := Track("x", "Song", [TrackArtist("Band", None)], Album("Record", None, "2024"), 50);
            BlendedTracks([x], [x], ["pop"], ["pop"]) == [x, x]
  {
    var x := Track("x", "Song", [TrackArtist("Band", None)], Album("Record", None, "2024"), 50);
    CatalogTracksBlend([x], [x], ["pop"], ["pop"]);
  }

  // ---------------------------------------------------------------------------
  // The blend with one id per track

  /** The blend with duplicate ids removed once more after the fillers are
      added, so that a track in both users' lists is listed once. */
  function BlendedTracksDistinct(user1Tracks: seq<Track>, user2Tracks: seq<Track>,
                                 user1Genres: seq<string>, user2Genres: seq<string>): seq<Track>
  {
    var all := UniqueTracks(BlendedBeforeCut(user1Tracks, user2Tracks, user1Genres, user2Genres));
    all[..Min(PlaylistSize, |all|)]
  }

  /** De-duplicating a list that starts with tracks of distinct ids keeps
      that start. */
  lemma UniqueKeepsStart(start: seq<Track>, rest: seq<Track>)
    requires NoDuplicates(Ids(start, TrackId))
    ensures |start| <= |UniqueTracks(start + rest)|
    ensures UniqueTracks(start + rest)[..|start|] == start
  {
    UniqueIsDedup(start + rest);
    DedupByIdPrefix(start, rest);
    DedupByIdDistinct(start);
  }

  /** The first `n` entries of a list with distinct ids have distinct ids. */
  lemma DistinctPrefix(u: seq<Track>, n: nat)
    requires n <= |u| && NoDuplicates(Ids(u, TrackId))
    ensures NoDuplicates(Ids(u[..n], TrackId))
  {
    IdsPrefix(u, n);
    var ids := Ids(u, TrackId);
    assert forall i, j :: 0 <= i < j < n ==> ids[..n][i] == ids[i] && ids[..n][j] == ids[j];
  }

  /** The corrected blend holds at most twenty tracks with distinct ids; it
      still starts with the genre picks, and when it is not cut it holds every
      track id of either user. */
  lemma BlendedDistinctSpec(user1Tracks: seq<Track>, user2Tracks: seq<Track>,
                            user1Genres: seq<string>, user2Genres: seq<string>)
    ensures var picks := GenrePicks(user1Tracks, user2Tracks, SharedGenres(user1Genres, user2Genres));
            var r := BlendedTracksDistinct(user1Tracks, user2Tracks, user1Genres, user2Genres);
            && |r| <= PlaylistSize
            && NoDuplicates(Ids(r, TrackId))
            && r[..Min(|r|, |picks|)] == picks[..Min(|r|, |picks|)]
            && (|UniqueTracks(BlendedBeforeCut(user1Tracks, user2Tracks, user1Genres, user2Genres))| <= PlaylistSize ==>
                  forall t :: t in user1Tracks || t in user2Tracks ==> t.id in Ids(r, TrackId))
  {
    var shared := SharedGenres(user1Genres, user2Genres);
    var picks := GenrePicks(user1Tracks, user2Tracks, shared);
    var rest := NotIn(user1Tracks, picks) + NotIn(user2Tracks, picks);
    assert BlendedBeforeCut(user1Tracks, user2Tracks, user1Genres, user2Genres) == picks + rest;
    GenrePicksSpec(user1Tracks, user2Tracks, shared);
    CutUnique(picks, rest);
    BeforeCutCovers(user1Tracks, user2Tracks, user1Genres, user2Genres);
  }

  /** Cutting the de-duplicated `start + rest` to twenty keeps distinct ids and
      the start, and loses no id when nothing is cut. */
  lemma CutUnique(start: seq<Track>, rest: seq<Track>)
    requires NoDuplicates(Ids(start, TrackId))
    ensures var u := UniqueTracks(start + rest);
            var r := u[..Min(PlaylistSize, |u|)];
            && |r| <= PlaylistSize
            && NoDuplicates(Ids(r, TrackId))
            && r[..Min(|r|, |start|)] == start[..Min(|r|, |start|)]
            && (|u| <= PlaylistSize ==> forall id :: id in Ids(r, TrackId) <==> id in Ids(start + rest, TrackId))
  {
    var u := UniqueTracks(start + rest);
    var r := u[..Min(PlaylistSize, |u|)];
    DistinctIds(start + rest);
    DistinctPrefix(u, |r|);
    UniqueKeepsStart(start, rest);
    var k := Min(|r|, |start|);
    assert r[..k] == u[..|start|][..k];
    if |u| <= PlaylistSize {
      assert r == u;
    }
  }

  /** Every track id of either user is in the list before the cut. */
  lemma BeforeCutCovers(user1Tracks: seq<Track>, user2Tracks: seq<Track>,
                        user1Genres: seq<string>, user2Genres: seq<string>)
    ensures forall t :: t in user1Tracks || t in user2Tracks ==>
              t.id in Ids(BlendedBeforeCut(user1Tracks, user2Tracks, user1Genres, user2Genres), TrackId)
  {
    var shared := SharedGenres(user1Genres, user2Genres);
    var picks := GenrePicks(user1Tracks, user2Tracks, shared);
    var fill1, fill2 := NotIn(user1Tracks, picks), NotIn(user2Tracks, picks);
    var all := picks + fill1 + fill2;
    NotInSpec(user1Tracks, picks);
    NotInSpec(user2Tracks, picks);
    IdsAppend(picks, fill1);
    IdsAppend(picks + fill1, fill2);
    forall t: Track | t in user1Tracks || t in user2Tracks ensures t.id in Ids(all, TrackId) {
      if t.id !in Ids(picks, TrackId) {
        if t in user1Tracks {
          var i :| 0 <= i < |fill1| && fill1[i] == t;
          assert Ids(fill1, TrackId)[i] == t.id;
        } else {
          var i :| 0 <= i < |fill2| && fill2[i] == t;
          assert Ids(fill2, TrackId)[i] == t.id;
        }
      }
    }
  }
}
