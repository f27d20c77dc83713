/** `assignListeningPersonality` and `getPersonalityDescription`: a user's genre
    diversity, dominant-genre share and average popularity pick one of sixteen
    listening personalities by a first-match cascade, and each personality has a
    fixed description. */
module Personality {
  import opened Common
  import opened Spotify
  import opened GenreTally
  import opened Similarity

  datatype Personality = Nomad | Voyager | Adventurer | Devotee | DeepDiver | TopCharter | Specialist | Maverick | Connoisseur | Enthusiast | TimeTraveler | FanClubber | Jukeboxer | Musicologist | Replayer | EarlyAdopter

  function Label(p: Personality): string
  {
    match p
    case Nomad => "The Nomad"
    case Voyager => "The Voyager"
    case Adventurer => "The Adventurer"
    case Devotee => "The Devotee"
    case DeepDiver => "The Deep Diver"
    case TopCharter => "The Top Charter"
    case Specialist => "The Specialist"
    case Maverick => "The Maverick"
    case Connoisseur => "The Connoisseur"
    case Enthusiast => "The Enthusiast"
    case TimeTraveler => "The Time Traveler"
    case FanClubber => "The Fan Clubber"
    case Jukeboxer => "The Jukeboxer"
    case Musicologist => "The Musicologist"
    case Replayer => "The Replayer"
    case EarlyAdopter => "The Early Adopter"
  }

  /** The figures the cascade looks at. `hasTopGenre` is the truthiness of the
      most frequent genre (`sortedGenres[0]?.[0] || null`). */
  datatype ListeningStats = ListeningStats(
    uniqueGenres: nat,
    dominantShare: real,
    hasTopGenre: bool,
    averagePopularity: real)

  /** The first-match cascade; the first rule that holds decides. */
  function Classify(s: ListeningStats): Personality
  {
    var u, d, a := s.uniqueGenres, s.dominantShare, s.averagePopularity;
    if u > 10 then Nomad
    else if u > 6 then Voyager
    else if u > 4 && a < 50.0 then Adventurer
    else if d > 0.7 && s.hasTopGenre then Devotee
    else if a < 30.0 then DeepDiver
    else if a > 80.0 then TopCharter
    else if u <= 2 && s.hasTopGenre then Specialist
    else if u > 4 && a < 40.0 then Maverick
    else if a > 60.0 && a < 80.0 then Connoisseur
    else if u > 3 && u <= 5 then Enthusiast
    else if a < 40.0 then TimeTraveler
    else if d > 0.5 && d <= 0.7 then FanClubber
    else if u > 5 && u <= 7 then Jukeboxer
    else if a > 40.0 && a < 60.0 then Musicologist
    else if u <= 3 then Replayer
    else EarlyAdopter
  }

  /** The statistics of a user's top artists and track metrics: the number of
      distinct genre tags, the share of all tags taken by the most frequent one
      (0 when there are no tags), whether that genre is a non-empty string, and
      the average popularity. */
  function StatsOf(topArtists: seq<Artist>, averagePopularity: real): ListeningStats
  {
    var all := AllGenres(topArtists);
    if all == [] then ListeningStats(0, 0.0, false, averagePopularity)
    else
      var top := MostCommon(all);
      ListeningStats(|ProfileGenres(topArtists)|, Count(all, top) as real / |all| as real, top != "", averagePopularity)
  }

  /** Counts the genre tags of the top artists in a Record, sorts its entries by
      count, sums its values, and runs the cascade. */
  method AssignListeningPersonality(topArtists: seq<Artist>, trackMetrics: TrackMetrics) returns (personality: string)
    ensures personality == Label(Classify(StatsOf(topArtists, trackMetrics.averagePopularity)))
  {
    var counts := CountGenres(topArtists);
    ghost var all := AllGenres(topArtists);
    SortPermutes(counts);
    var sorted := SortByCount(counts);
    var topGenre: Option<string> := if |sorted| > 0 && sorted[0].genre != "" then Some(sorted[0].genre) else None;
    var topGenreCount := if |sorted| > 0 then sorted[0].count else 0;
    var total := 0;
    for i := 0 to |counts|
      invariant total == TotalCount(counts[..i])
    {
      assert counts[..i + 1][..i] == counts[..i];
      total := total + counts[i].count;
    }
    assert counts[..|counts|] == counts;
    TallySpec(all);
    var dominantGenrePercent := if total > 0 then topGenreCount as real / total as real else 0.0;
    var uniqueGenres := |counts|;
    if all != [] {
      MostCommonEntry(all, all[0]);
    }
    var p := Classify(ListeningStats(uniqueGenres, dominantGenrePercent, topGenre.Some?, trackMetrics.averagePopularity));
    personality := Label(p);
  }

  /** The share is a fraction, the diversity is the length of the profile's
      genre list, and there is a top genre only when some tag is non-empty and
      most frequent. */
  lemma StatsSpec(topArtists: seq<Artist>, averagePopularity: real)
    ensures var s := StatsOf(topArtists, averagePopularity);
            && 0.0 <= s.dominantShare <= 1.0
            && s.uniqueGenres == |ProfileGenres(topArtists)|
            && (s.hasTopGenre <==> AllGenres(topArtists) != [] && MostCommon(AllGenres(topArtists)) != "")
  {
    var all := AllGenres(topArtists);
    if all != [] {
      MostCommonSpec(all);
      Fraction(Count(all, MostCommon(all)), |all|);
    }
  }

  lemma Fraction(c: nat, n: nat)
    requires 0 < n && c <= n
    ensures 0.0 <= c as real / n as real <= 1.0
  {
    assert c as real <= n as real;
  }

  /** More than ten distinct genres always gives The Nomad, whatever the
      popularity and the dominant share. */
  lemma ManyGenresMakeANomad(topArtists: seq<Artist>, averagePopularity: real)
    requires |ProfileGenres(topArtists)| > 10
    ensures Classify(StatsOf(topArtists, averagePopularity)) == Nomad
  {
    StatsSpec(topArtists, averagePopularity);
  }

  /** The Maverick rule is shadowed by the Adventurer rule, and The Early Adopter
      is never reached: every user gets one of the other fourteen. */
  lemma UnreachablePersonalities(s: ListeningStats)
    ensures Classify(s) != Maverick
    ensures Classify(s) != EarlyAdopter
  {
  }

  const Fallback := "A unique music listener with their own special taste!"

  // Long texts are written as several literals joined by `+`.
  const Descriptions: map<string, string> := map[
      "The Nomad" :=
        "These \"sonic explorers\" are happy to "
        + "listen to all kinds of music. But the "
        + "handful of artists and songs they love "
        + "will always be with them, \"kind of like "
        + "a musical souvenir.\"",
      "The Voyager" :=
        "Voyagers live and breathe music and "
        + "expand their world \"through sound.\"",
      "The Adventurer" :=
        "A \"seeker of sound,\" Adventurers veer "
        + "out into the \"unknown, searching for "
        + "fresher artists, deeper cuts, newer "
        + "tracks.\"",
      "The Devotee" :=
        "Devoted listeners have an encyclopedic "
        + "knowledge of their most beloved artists. "
        + "They know the words to the deep cuts and "
        + "the hits.",
      "The Deep Diver" :=
        "Deep Divers delve into their favorite "
        + "artists' catalogs to take \"in all the "
        + "sights and sounds\" they discover along "
        + "the way.",
      "The Top Charter" :=
        "While others prefer the obscure, the Top "
        + "Charter is here for the hits only.",
      "The Specialist" :=
        "The most selective of the bunch. "
        + "Specialists are curators, but once they "
        + "fall in love with an artist, they're all "
        + "in.",
      "The Maverick" :=
        "A more rebellious music lover, Mavericks "
        + "are \"frolicking in that sidestream\" "
        + "while the masses flock to the "
        + "mainstream.",
      "The Connoisseur" :=
        "The Connoisseur has \"taste that people "
        + "can get behind.\" The friend whose "
        + "playlist never disappoints.",
      "The Enthusiast" :=
        "Enthusiasts are super fans who always "
        + "know what their idols are doing and are "
        + "always ready to support them.",
      "The Time Traveler" :=
        "Time Travelers seek out music that's new "
        + "to them, \"regardless of whether it's "
        + "new to the rest of the world.\"",
      "The Fan Clubber" :=
        "Every artist's ideal fan, the Fan "
        + "Clubber, supports their fave through and "
        + "through with their \"full heart.\"",
      "The Jukeboxer" :=
        "Jukeboxers act like every song they like "
        + "is one of their favorite songs, and "
        + "they're happy to queue them all up.",
      "The Musicologist" :=
        "Musicologists are more preoccupied with "
        + "the sonic elements of songs, "
        + "\"gravitating towards songs that stand "
        + "the test of time.\"",
      "The Replayer" :=
        "These are \"comfort listeners\" who "
        + "stick to a few core artists on their "
        + "playlists.",
      "The Early Adopter" :=
        "Early Adopters are always on \"the pulse "
        + "of new music\" and are the first to pick "
        + "up on trends."
    ]

  /** `descriptions[personality] || fallback`; no entry of the table is empty,
      so the fallback is used exactly for strings that are not keys. */
  function PersonalityDescription(personality: string): string
  {
    if personality in Descriptions then Descriptions[personality] else Fallback
  }

  /** Every personality label has its own entry in the table. */
  lemma LabelDescription(p: Personality)
    ensures Label(p) in Descriptions && PersonalityDescription(Label(p)) == Descriptions[Label(p)]
  {
  }

  /** Every string gets a non-empty description. */
  lemma DescriptionNonEmpty(personality: string)
    ensures |PersonalityDescription(personality)| > 0
  {
    if personality in Descriptions {
      assert personality in Descriptions.Keys;
      assert forall k :: k in Descriptions ==> |Descriptions[k]| > 0;
    }
  }

  /** Any string that is not a personality label gets the fallback. */
  lemma OtherDescription(other: string)
    ensures (forall q :: Label(q) != other) ==> PersonalityDescription(other) == Fallback
  {
    if (forall q :: Label(q) != other) {
      assert other !in Descriptions by {
        assert Label(Nomad) != other;
        assert Label(Voyager) != other;
        assert Label(Adventurer) != other;
        assert Label(Devotee) != other;
        assert Label(DeepDiver) != other;
        assert Label(TopCharter) != other;
        assert Label(Specialist) != other;
        assert Label(Maverick) != other;
        assert Label(Connoisseur) != other;
        assert Label(Enthusiast) != other;
        assert Label(TimeTraveler) != other;
        assert Label(FanClubber) != other;
        assert Label(Jukeboxer) != other;
        assert Label(Musicologist) != other;
        assert Label(Replayer) != other;
        assert Label(EarlyAdopter) != other;
      }
    }
  }
}
