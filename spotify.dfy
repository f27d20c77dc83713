/** The catalog records a taste profile is built from, and the pure parts of
    `SpotifyAPI`: the track-metric aggregation of `calculateTrackMetrics` and the
    genre list of `getUserTasteProfile`. The recently-played list, which the
    source fetches over the network, is a parameter. */
module Spotify {
  import opened Common

  datatype SpotifyUser = SpotifyUser(id: string, displayName: string, images: Option<seq<string>>)

  datatype Artist = Artist(id: string, name: string, genres: seq<string>, images: Option<seq<string>>)

  /** An artist as listed on a track. The declared record has only a name; the
      playlist genre filter also reads a `genres` field, which catalog track
      records do not carry (`None`). */
  datatype TrackArtist = TrackArtist(name: string, genres: Option<seq<string>>)

  datatype Album = Album(name: string, images: Option<seq<string>>, releaseDate: string)

  datatype Track = Track(id: string, name: string, artists: seq<TrackArtist>, album: Album, popularity: int)

  datatype RecentTrack = RecentTrack(name: string, artist: string, popularity: int, albumImage: Option<string>)

  datatype TrackMetrics = TrackMetrics(averagePopularity: real, topGenre: string, recentTracks: seq<RecentTrack>)

  datatype TasteProfile = TasteProfile(
    user: SpotifyUser,
    topArtists: seq<Artist>,
    topTracks: seq<Track>,
    trackMetrics: TrackMetrics,
    genres: seq<string>)

  /** Every genre tag of every artist, artist by artist (`flatMap(a => a.genres)`). */
  function AllGenres(artists: seq<Artist>): seq<string>
  {
    if artists == [] then []
    else AllGenres(artists[..|artists| - 1]) + artists[|artists| - 1].genres
  }

  lemma AllGenresAppend(artists: seq<Artist>, a: Artist)
    ensures AllGenres(artists + [a]) == AllGenres(artists) + a.genres
  {
    assert (artists + [a])[..|artists|] == artists;
  }

  lemma {:induction false} AllGenresMembers(artists: seq<Artist>, g: string)
    ensures g in AllGenres(artists) <==> exists i :: 0 <= i < |artists| && g in artists[i].genres
  {
    if artists != [] {
      var init := artists[..|artists| - 1];
      AllGenresMembers(init, g);
      assert forall i :: 0 <= i < |init| ==> init[i] == artists[i];
    }
  }

  /** `Array.from(new Set(topArtists.flatMap(artist => artist.genres)))`. */
  function ProfileGenres(artists: seq<Artist>): seq<string>
  {
    Dedup(AllGenres(artists))
  }

  /** The profile's genre list holds every genre of every artist, nothing else,
      each once, in the order the genres are first met. */
  lemma ProfileGenresSpec(artists: seq<Artist>)
    ensures forall g :: g in ProfileGenres(artists) <==>
              exists i :: 0 <= i < |artists| && g in artists[i].genres
    ensures NoDuplicates(ProfileGenres(artists))
    ensures InFirstSeenOrder(ProfileGenres(artists), AllGenres(artists))
  {
    DedupSpec(AllGenres(artists));
    forall g ensures g in ProfileGenres(artists) <==>
                 exists i :: 0 <= i < |artists| && g in artists[i].genres
    {
      AllGenresMembers(artists, g);
    }
  }

  /** The pure part of `getUserTasteProfile`: the profile assembled from fetched
      data. Its genres are those of the top artists, each once, in the order
      first met; its average popularity is the mean over the top tracks (0 for
      none); its recent tracks are at most five, taken from the recently played
      list and not from the top tracks. */
  function TasteProfileOf(user: SpotifyUser, topArtists: seq<Artist>, topTracks: seq<Track>,
                          recentlyPlayed: seq<Track>): (p: TasteProfile)
    ensures p.user == user && p.topArtists == topArtists && p.topTracks == topTracks
    ensures forall g :: g in p.genres <==> g in AllGenres(topArtists)
    ensures NoDuplicates(p.genres) && InFirstSeenOrder(p.genres, AllGenres(topArtists))
    ensures p.trackMetrics.averagePopularity * (|topTracks| as real) == Sum(Popularities(topTracks))
    ensures topTracks == [] ==> p.trackMetrics == TrackMetrics(0.0, "Unknown", [])
    ensures topTracks != [] ==>
              |p.trackMetrics.recentTracks| == Min(5, |recentlyPlayed|)
              && forall i :: 0 <= i < |p.trackMetrics.recentTracks| ==>
                   p.trackMetrics.recentTracks[i].name == recentlyPlayed[i].name
                   && p.trackMetrics.recentTracks[i].popularity == recentlyPlayed[i].popularity
  {
    DedupSpec(AllGenres(topArtists));
    var p := TasteProfile(user, topArtists, topTracks, CalculateTrackMetrics(topTracks, recentlyPlayed),
                          ProfileGenres(topArtists));
    if topTracks == [] then
      assert Popularities(topTracks) == [];
      p
    else
      MetricsRecentTracks(topTracks, recentlyPlayed);
      p
  }

  // ---------------------------------------------------------------------------
  // calculateTrackMetrics

  function Popularities(tracks: seq<Track>): (ps: seq<real>)
    ensures |ps| == |tracks| && forall i :: 0 <= i < |tracks| ==> ps[i] == tracks[i].popularity as real
  {
    seq(|tracks|, i requires 0 <= i < |tracks| => tracks[i].popularity as real)
  }

  /** One recent-track sample: the first artist's name, or 'Unknown' when the
      track lists no artist or its name is empty; the first album image. */
  function Sample(t: Track): RecentTrack
  {
    RecentTrack(
      t.name,
      if |t.artists| > 0 && t.artists[0].name != "" then t.artists[0].name else "Unknown",
      t.popularity,
      match t.album.images
      case Some(urls) => if |urls| > 0 then Some(urls[0]) else None
      case None => None)
  }

  /** `recentlyPlayed.slice(0, 5).map(...)`. */
  function RecentSamples(recentlyPlayed: seq<Track>): seq<RecentTrack>
  {
    var n := Min(5, |recentlyPlayed|);
    seq(n, i requires 0 <= i < n => Sample(recentlyPlayed[i]))
  }

  /** `${t.name} ${t.artists.map(a => a.name).join(' ')}` */
  function TrackText(t: Track): string
  {
    t.name + " " + JoinWith(seq(|t.artists|, i requires 0 <= i < |t.artists| => t.artists[i].name), " ")
  }

  /** The lower-cased text the genre keywords are looked for in. */
  function AllText(tracks: seq<Track>): string
  {
    LowerCase(JoinWith(seq(|tracks|, i requires 0 <= i < |tracks| => TrackText(tracks[i])), " "))
  }

  /** The first-match keyword cascade deciding `topGenre`. */
  function KeywordGenre(text: string): string
  {
    if Contains(text, "rock") || Contains(text, "metal") then "Rock"
    else if Contains(text, "hip") || Contains(text, "rap") then "Hip Hop"
    else if Contains(text, "jazz") then "Jazz"
    else if Contains(text, "classical") then "Classical"
    else if Contains(text, "country") then "Country"
    else if Contains(text, "electronic") || Contains(text, "edm") then "Electronic"
    else "Pop"
  }

  const KeywordGenres: seq<string> := ["Rock", "Hip Hop", "Jazz", "Classical", "Country", "Electronic", "Pop"]

  function CalculateTrackMetrics(tracks: seq<Track>, recentlyPlayed: seq<Track>): TrackMetrics
  {
    if tracks == [] then TrackMetrics(0.0, "Unknown", [])
    else
      var ps := Popularities(tracks);
      TrackMetrics(Sum(ps) / (|ps| as real), KeywordGenre(AllText(tracks)), RecentSamples(recentlyPlayed))
  }

  /** No tracks: the fixed fallback, whatever was played recently. */
  lemma MetricsOfNoTracks(recentlyPlayed: seq<Track>)
    ensures CalculateTrackMetrics([], recentlyPlayed) == TrackMetrics(0.0, "Unknown", [])
  {
  }

  /** The average popularity is the mean of the tracks' popularities, so it lies
      within any bounds every track's popularity respects. */
  lemma MetricsAverageWithin(tracks: seq<Track>, recentlyPlayed: seq<Track>, lo: int, hi: int)
    requires tracks != []
    requires forall i :: 0 <= i < |tracks| ==> lo <= tracks[i].popularity <= hi
    ensures var m := CalculateTrackMetrics(tracks, recentlyPlayed);
            m.averagePopularity * (|tracks| as real) == Sum(Popularities(tracks))
            && lo as real <= m.averagePopularity <= hi as real
  {
    MeanWithin(Popularities(tracks), lo as real, hi as real);
  }

  /** The top genre of a non-empty track list is the result of the keyword
      cascade, never the 'Unknown' fallback. */
  lemma MetricsTopGenre(tracks: seq<Track>, recentlyPlayed: seq<Track>)
    requires tracks != []
    ensures var g := CalculateTrackMetrics(tracks, recentlyPlayed).topGenre;
            g == KeywordGenre(AllText(tracks)) && g in KeywordGenres && g != "Unknown"
  {
  }

  /** The cascade's order: rock or metal wins over every later keyword, and the
      default 'Pop' is chosen exactly when no keyword occurs. */
  lemma KeywordGenreOrder(text: string)
    ensures (Contains(text, "rock") || Contains(text, "metal")) ==> KeywordGenre(text) == "Rock"
    ensures KeywordGenre(text) == "Pop" <==>
              !Contains(text, "rock") && !Contains(text, "metal") && !Contains(text, "hip")
              && !Contains(text, "rap") && !Contains(text, "jazz") && !Contains(text, "classical")
              && !Contains(text, "country") && !Contains(text, "electronic") && !Contains(text, "edm")
  {
  }

  /** The recent samples come from the recently-played list only: its first (at
      most) five tracks, in order, one sample each. */
  lemma MetricsRecentTracks(tracks: seq<Track>, recentlyPlayed: seq<Track>)
    requires tracks != []
    ensures var r := CalculateTrackMetrics(tracks, recentlyPlayed).recentTracks;
            |r| == Min(5, |recentlyPlayed|)
            && forall i :: 0 <= i < |r| ==>
                 r[i].name == recentlyPlayed[i].name
                 && r[i].popularity == recentlyPlayed[i].popularity
                 && (r[i].artist == if |recentlyPlayed[i].artists| > 0 && recentlyPlayed[i].artists[0].name != ""
                                    then recentlyPlayed[i].artists[0].name else "Unknown")
  {
  }
}
