/** The text produced for a comparison: `capitalize`, the genre tag of
    `assignGenreTag`, the score-banded sentence of `generateTasteSummary` and the
    template pick of `generatePlayfulSummary`. */
module Narrative {
  import opened Common
  import opened Spotify
  import opened GenreTally
  import opened Similarity

  // ---------------------------------------------------------------------------
  // capitalize: split(' '), upper-case each word's first character, join(' ')

  /** `String.prototype.split` on one character: the pieces between separators,
      always one more than there are separators. */
  function Split(s: string, c: char): (ws: seq<string>)
    ensures |ws| >= 1
  {
    if s == [] then [""]
    else
      var ws := Split(s[..|s| - 1], c);
      if s[|s| - 1] == c then ws + [""]
      else ws[..|ws| - 1] + [ws[|ws| - 1] + [s[|s| - 1]]]
  }

  function CapitalizeWord(w: string): string
  {
    if w == "" then "" else [ToUpper(w[0])] + w[1..]
  }

  function CapitalizeWords(ws: seq<string>): (cs: seq<string>)
    ensures |cs| == |ws| && forall i :: 0 <= i < |ws| ==> cs[i] == CapitalizeWord(ws[i])
  {
    seq(|ws|, i requires 0 <= i < |ws| => CapitalizeWord(ws[i]))
  }

  function Capitalize(s: string): string
  {
    JoinWith(CapitalizeWords(Split(s, ' ')), " ")
  }

  /** The intended effect, character by character: a character is upper-cased
      when it starts the string or follows a space, and kept otherwise. */
  ghost function CapitalizedChars(s: string): (r: string)
    ensures |r| == |s|
  {
    seq(|s|, i requires 0 <= i < |s| => if i == 0 || s[i - 1] == ' ' then ToUpper(s[i]) else s[i])
  }

  lemma {:induction false} JoinAppend(ws: seq<string>, w: string, sep: string)
    requires ws != []
    ensures JoinWith(ws + [w], sep) == JoinWith(ws, sep) + sep + w
  {
    if |ws| > 1 {
      assert (ws + [w])[1..] == ws[1..] + [w];
      JoinAppend(ws[1..], w, sep);
    }
  }

  lemma JoinExtendLast(ws: seq<string>, t: string, sep: string)
    requires ws != []
    ensures JoinWith(ws[..|ws| - 1] + [ws[|ws| - 1] + t], sep) == JoinWith(ws, sep) + t
  {
    var init := ws[..|ws| - 1];
    if init != [] {
      JoinAppend(init, ws[|ws| - 1] + t, sep);
      JoinAppend(init, ws[|ws| - 1], sep);
      assert init + [ws[|ws| - 1]] == ws;
    }
  }

  /** The last piece is empty exactly when the string is empty or ends with the
      separator. */
  lemma SplitLastPiece(s: string, c: char)
    ensures var ws := Split(s, c); ws[|ws| - 1] == "" <==> s == [] || s[|s| - 1] == c
  {
  }

  /** Capitalizing is upper-casing the first character of each space-separated
      word and nothing else. */
  lemma {:induction false} CapitalizeSpec(s: string)
    ensures Capitalize(s) == CapitalizedChars(s)
  {
    if s != [] {
      var p, x := s[..|s| - 1], s[|s| - 1];
      assert s == p + [x];
      CapitalizeSpec(p);
      CapitalizeSnoc(p, x);
      CapitalizedCharsSnoc(p, x);
    }
  }

  lemma CapitalizedCharsSnoc(p: string, x: char)
    ensures CapitalizedChars(p + [x])
            == CapitalizedChars(p) + [if |p| == 0 || p[|p| - 1] == ' ' then ToUpper(x) else x]
  {
  }

  /** One more character extends the capitalized text by that character,
      upper-cased when it starts a word. */
  lemma CapitalizeSnoc(p: string, x: char)
    ensures Capitalize(p + [x]) == Capitalize(p) + [if |p| == 0 || p[|p| - 1] == ' ' then ToUpper(x) else x]
  {
    if x == ' ' {
      CapitalizeSpace(p);
    } else {
      CapitalizeNonSpace(p, x);
    }
  }

  lemma CapitalizeSpace(p: string)
    ensures Capitalize(p + [' ']) == Capitalize(p) + [' ']
  {
    var s := p + [' '];
    assert s[..|s| - 1] == p && s[|s| - 1] == ' ';
    var ws := Split(p, ' ');
    var cs := CapitalizeWords(ws);
    SplitLastPiece(p, ' ');
    assert Split(s, ' ') == ws + [""];
    assert CapitalizeWords(Split(s, ' ')) == cs + [""];
    JoinAppend(cs, "", " ");
  }

  lemma CapitalizeNonSpace(p: string, x: char)
    requires x != ' '
    ensures Capitalize(p + [x]) == Capitalize(p) + [if |p| == 0 || p[|p| - 1] == ' ' then ToUpper(x) else x]
  {
    SplitLastPiece(p, ' ');
    SplitExtend(p, x, ' ');
    CapitalizeExtendLast(Split(p, ' '), x);
  }

  /** Extending the last word by one character extends the capitalized text
      by that character, upper-cased when the word was empty. */
  lemma CapitalizeExtendLast(ws: seq<string>, x: char)
    requires ws != []
    ensures var w := ws[|ws| - 1];
            JoinWith(CapitalizeWords(ws[..|ws| - 1] + [w + [x]]), " ")
            == JoinWith(CapitalizeWords(ws), " ") + [if w == "" then ToUpper(x) else x]
  {
    var w := ws[|ws| - 1];
    CapitalizeWordSnoc(w, x);
    CapitalizeLastWord(ws, w + [x]);
    JoinExtendLast(CapitalizeWords(ws), [if w == "" then ToUpper(x) else x], " ");
  }

  /** A character other than the separator extends the last piece. */
  lemma SplitExtend(p: string, x: char, c: char)
    requires x != c
    ensures var ws := Split(p, c); Split(p + [x], c) == ws[..|ws| - 1] + [ws[|ws| - 1] + [x]]
  {
    var s := p + [x];
    assert s[..|s| - 1] == p && s[|s| - 1] == x;
  }

  lemma CapitalizeWordSnoc(w: string, x: char)
    ensures CapitalizeWord(w + [x]) == CapitalizeWord(w) + [if w == "" then ToUpper(x) else x]
  {
    if w != "" {
      assert (w + [x])[1..] == w[1..] + [x];
    }
  }

  lemma CapitalizeLastWord(ws: seq<string>, w: string)
    requires ws != []
    ensures var cs := CapitalizeWords(ws);
            CapitalizeWords(ws[..|ws| - 1] + [w]) == cs[..|cs| - 1] + [CapitalizeWord(w)]
  {
  }

  /** Splitting then joining with the separator gives the string back, and no
      piece holds the separator. */
  lemma {:induction false} SplitJoin(s: string, c: char)
    ensures JoinWith(Split(s, c), [c]) == s
    ensures forall i :: 0 <= i < |Split(s, c)| ==> c !in Split(s, c)[i]
  {
    if s != [] {
      var p, x := s[..|s| - 1], s[|s| - 1];
      SplitJoin(p, c);
      var ws := Split(p, c);
      assert p + [x] == s;
      if x == c {
        JoinAppend(ws, "", [c]);
      } else {
        JoinExtendLast(ws, [x], [c]);
        var ws' := Split(s, c);
        forall i | 0 <= i < |ws'| ensures c !in ws'[i] {
          if i < |ws| - 1 {
            assert ws'[i] == ws[i];
          } else {
            assert ws'[i] == ws[|ws| - 1] + [x];
          }
        }
      }
    }
  }

  // ---------------------------------------------------------------------------
  // assignGenreTag

  const TagSuffixes: seq<string> := [" Twins", " Squad", " Crew", " Vibes", " Lovers", " Heads"]

  /** The genre of the first entry of a top list (`list[0]?.genre`). */
  function FirstGenre(top: seq<GenreCount>): Option<string>
  {
    if |top| > 0 then Some(top[0].genre) else None
  }

  /** The label for a pair of users. `pick` is `Math.floor(Math.random() * 6)`,
      an index into the six suffixes. */
  function GenreTag(c: GenreComparison, pick: nat): string
    requires pick < |TagSuffixes|
  {
    if |c.overlap| >= 2 then Capitalize(c.overlap[0]) + TagSuffixes[pick]
    else if |c.overlap| == 1 then Capitalize(c.overlap[0]) + " Buddies"
    else
      var a, b := FirstGenre(c.user1), FirstGenre(c.user2);
      if Truthy(a) && Truthy(b) then Capitalize(a.value) + " x " + Capitalize(b.value) + " Opposites"
      else "Genre Explorers"
  }

  /** Two or more shared genres: one of six distinct labels on the first shared
      genre, chosen by `pick`; one shared genre: the Buddies label; none: the
      Opposites label when both users have a non-empty top genre, else the
      fixed fallback. Only the first case depends on `pick`. */
  lemma GenreTagSpec(c: GenreComparison, pick: nat)
    requires pick < |TagSuffixes|
    ensures |c.overlap| >= 2 ==>
              GenreTag(c, pick) == Capitalize(c.overlap[0]) + TagSuffixes[pick]
              && forall k :: 0 <= k < |TagSuffixes| && k != pick ==> GenreTag(c, k) != GenreTag(c, pick)
    ensures |c.overlap| == 1 ==> GenreTag(c, pick) == Capitalize(c.overlap[0]) + " Buddies"
    ensures |c.overlap| < 2 ==> forall k :: 0 <= k < |TagSuffixes| ==> GenreTag(c, k) == GenreTag(c, pick)
    ensures GenreTag(c, pick) == "Genre Explorers" <==>
              c.overlap == [] && (c.user1 == [] || c.user2 == [] || c.user1[0].genre == "" || c.user2[0].genre == "")
  {
    if |c.overlap| >= 2 {
      var cap := Capitalize(c.overlap[0]);
      forall k | 0 <= k < |TagSuffixes| && k != pick ensures cap + TagSuffixes[k] != cap + TagSuffixes[pick] {
        SuffixesDiffer(cap, k, pick);
      }
    }
    NotAnExplorer(c, pick);
  }

  lemma SuffixesDiffer(cap: string, k: nat, j: nat)
    requires k < |TagSuffixes| && j < |TagSuffixes| && k != j
    ensures cap + TagSuffixes[k] != cap + TagSuffixes[j]
  {
    // the suffixes already differ in their second character
    assert (cap + TagSuffixes[k])[|cap| + 1] == TagSuffixes[k][1];
    assert (cap + TagSuffixes[j])[|cap| + 1] == TagSuffixes[j][1];
  }

  /** Every label except the fallback ends with a suffix the fallback does not
      end with. */
  lemma NotAnExplorer(c: GenreComparison, pick: nat)
    requires pick < |TagSuffixes|
    ensures GenreTag(c, pick) == "Genre Explorers" ==>
              c.overlap == [] && (c.user1 == [] || c.user2 == [] || c.user1[0].genre == "" || c.user2[0].genre == "")
  {
    var t := GenreTag(c, pick);
    var e := "Genre Explorers";
    if |c.overlap| >= 2 {
      var s := TagSuffixes[pick];
      assert t[|t| - |s|..] == s;
      assert e[|e| - |s|..] != s;
    } else if |c.overlap| == 1 {
      assert t[|t| - 8..] == " Buddies";
      assert e[|e| - 8..] != " Buddies";
    } else if Truthy(FirstGenre(c.user1)) && Truthy(FirstGenre(c.user2)) {
      assert t[|t| - 10..] == " Opposites";
      assert e[|e| - 10..] != " Opposites";
    }
  }

  // ---------------------------------------------------------------------------
  // generateTasteSummary

  /** The five score bands: 80 and up, 60-79, 40-59, 20-39, below 20. */
  datatype Band = Soulmates | Chemistry | SomeOverlap | VeryDifferent | Opposites

  function BandOf(score: int): Band
  {
    if score >= 80 then Soulmates
    else if score >= 60 then Chemistry
    else if score >= 40 then SomeOverlap
    else if score >= 20 then VeryDifferent
    else Opposites
  }

  /** What a summary says: its band, the names it mentions, the shared genres
      and favorite artists it lists, and whether it carries the no-shared-artist
      and popularity-gap sentences. The sentences always come in one order:
      greeting, genres (or the two top genres), artists, no-shared-artist note,
      gap note, closing. */
  datatype Summary = Summary(
    band: Band,
    name1: string, name2: string,
    genre1: string, genre2: string,
    genres: seq<string>,
    favorites: seq<string>,
    noSharedArtist: bool,
    popularityGap: bool)

  function Abs(x: real): (r: real)
    ensures r >= 0.0 && (r == x || r == -x)
  {
    if x < 0.0 then -x else x
  }

  function ArtistNames(artists: seq<Artist>): (ns: seq<string>)
    ensures |ns| == |artists| && forall i :: 0 <= i < |artists| ==> ns[i] == artists[i].name
  {
    seq(|artists|, i requires 0 <= i < |artists| => artists[i].name)
  }

  /** The popularity gap above which a lower band adds its gap sentence. */
  function GapThreshold(b: Band): real
  {
    match b
    case SomeOverlap => 30.0
    case VeryDifferent => 40.0
    case Opposites => 50.0
    case _ => 0.0
  }

  /** The content of the summary for the given comparison. */
  function SummaryOf(name1: string, name2: string, sharedArtists: seq<Artist>, c: GenreComparison,
                     m1: TrackMetrics, m2: TrackMetrics, score: int): Summary
  {
    var b := BandOf(score);
    var names := ArtistNames(sharedArtists);
    var gap := Abs(m1.averagePopularity - m2.averagePopularity);
    Summary(
      b, name1, name2,
      if |c.user1| > 0 then c.user1[0].genre else "",
      if |c.user2| > 0 then c.user2[0].genre else "",
      if b == Opposites then [] else c.overlap[..Min(3, |c.overlap|)],
      if b == Soulmates then names[..Min(2, |names|)]
      else if b == Chemistry then names[..Min(1, |names|)]
      else [],
      b == Opposites && sharedArtists == [],
      b != Soulmates && b != Chemistry && gap > GapThreshold(b))
  }

  // The words of each sentence, by band. A sentence a band never uses is empty.

  function Greeting(b: Band): string
  {
    match b
    case Soulmates => " are musical soulmates! "
    case Chemistry => " have great musical chemistry! "
    case SomeOverlap => " have some musical overlap. "
    case VeryDifferent => " have very different tastes! "
    case Opposites => " are musical opposites! "
  }

  function GenreListLead(b: Band): string
  {
    match b
    case Soulmates => "You both love "
    case Chemistry => "You both enjoy "
    case SomeOverlap => "You both like "
    case VeryDifferent => "You only share "
    case Opposites => ""
  }

  /** The two top genres, said when no genre is shared (lower bands only). */
  function Contrast(b: Band, n1: string, g1: string, n2: string, g2: string): string
  {
    match b
    case SomeOverlap => n1 + " is into " + g1 + " while " + n2 + " prefers " + g2
    case VeryDifferent => n1 + " loves " + g1 + " while " + n2 + " is all about " + g2
    case Opposites => n1 + " is a " + g1 + " fan while " + n2 + " vibes with " + g2 + ". "
    case _ => ""
  }

  function FavoriteLead(b: Band): string
  {
    match b
    case Soulmates => " and share favorite artists like "
    case Chemistry => " and love "
    case _ => ""
  }

  function GapSentence(b: Band): string
  {
    match b
    case SomeOverlap => ". One of you loves the hits, the other digs deeper!"
    case VeryDifferent => ". Your music discovery levels are completely opposite!"
    case Opposites => "Your music discovery levels are polar opposites! "
    case _ => ""
  }

  function NoArtistSentence(): string { "Not a single shared favorite artist! " }

  function ClosingSentence(b: Band): string
  {
    match b
    case Soulmates => ". Your playlists would be practically identical!"
    case Chemistry => ". You'd have a blast sharing music!"
    case SomeOverlap => " You'll discover new music from each other!"
    case VeryDifferent => " But opposites attract, right?"
    case Opposites => "This could be interesting... or chaotic!"
  }

  function Opening(s: Summary): string
  {
    "You and " + s.name2 + Greeting(s.band)
  }

  function GenrePart(s: Summary): string
  {
    if |s.genres| > 0 then GenreListLead(s.band) + JoinWith(s.genres, ", ")
    else Contrast(s.band, s.name1, s.genre1, s.name2, s.genre2)
  }

  function FirstFavoritePart(s: Summary): string
  {
    if |s.favorites| > 0 then FavoriteLead(s.band) + s.favorites[0] else ""
  }

  function SecondFavoritePart(s: Summary): string
  {
    if |s.favorites| > 1 then " and " + s.favorites[1] else ""
  }

  function NoArtistPart(s: Summary): string
  {
    if s.noSharedArtist then NoArtistSentence() else ""
  }

  function GapPart(s: Summary): string
  {
    if s.popularityGap then GapSentence(s.band) else ""
  }

  /** The summary's text, sentence after sentence. */
  function Render(s: Summary): string
  {
    Opening(s) + GenrePart(s) + FirstFavoritePart(s) + SecondFavoritePart(s) + NoArtistPart(s)
    + GapPart(s) + ClosingSentence(s.band)
  }

  /** `generateTasteSummary`: the shared values, then the band's block of
      `summary +=` steps. The shared tracks are not read. */
  method GenerateTasteSummary(user1Name: string, user2Name: string, sharedArtists: seq<Artist>,
                              sharedTracks: seq<Track>, c: GenreComparison,
                              m1: TrackMetrics, m2: TrackMetrics, compatibilityScore: int)
    returns (summary: string)
    ensures summary == Render(SummaryOf(user1Name, user2Name, sharedArtists, c, m1, m2, compatibilityScore))
  {
    var sharedGenres := c.overlap[..Min(3, |c.overlap|)];
    var user1TopGenre := if |c.user1| > 0 then c.user1[0].genre else "";
    var user2TopGenre := if |c.user2| > 0 then c.user2[0].genre else "";
    var popularityDiff := Abs(m1.averagePopularity - m2.averagePopularity);
    ghost var s := SummaryOf(user1Name, user2Name, sharedArtists, c, m1, m2, compatibilityScore);
    if compatibilityScore >= 80 {
      summary := SoulmatesSummary(user2Name, sharedGenres, sharedArtists, s);
    } else if compatibilityScore >= 60 {
      summary := ChemistrySummary(user2Name, sharedGenres, sharedArtists, s);
    } else if compatibilityScore >= 40 {
      summary := OverlapSummary(user1Name, user2Name, sharedGenres, user1TopGenre, user2TopGenre, popularityDiff, s);
    } else if compatibilityScore >= 20 {
      summary := DifferentSummary(user1Name, user2Name, sharedGenres, user1TopGenre, user2TopGenre, popularityDiff, s);
    } else {
      summary := OppositesSummary(user1Name, user2Name, sharedArtists, user1TopGenre, user2TopGenre, popularityDiff, s);
    }
  }

  // One method per band block; `s` is the content the block must render.

  method SoulmatesSummary(user2Name: string, sharedGenres: seq<string>, sharedArtists: seq<Artist>, ghost s: Summary)
    returns (summary: string)
    requires s.band == Soulmates && s.name2 == user2Name && s.genres == sharedGenres
    requires s.favorites == ArtistNames(sharedArtists)[..Min(2, |sharedArtists|)]
    requires !s.noSharedArtist && !s.popularityGap
    ensures summary == Render(s)
  {
    summary := "You and " + user2Name + " are musical soulmates! ";
    if |sharedGenres| > 0 {
      summary := summary + ("You both love " + JoinWith(sharedGenres, ", "));
    }
    assert summary == Opening(s) + GenrePart(s);
    if |sharedArtists| > 0 {
      summary := summary + (" and share favorite artists like " + sharedArtists[0].name);
      if |sharedArtists| > 1 {
        summary := summary + (" and " + sharedArtists[1].name);
      }
    }
    assert summary == Opening(s) + GenrePart(s) + FirstFavoritePart(s) + SecondFavoritePart(s) + NoArtistPart(s) + GapPart(s);
    summary := summary + ". Your playlists would be practically identical!";
  }

  method ChemistrySummary(user2Name: string, sharedGenres: seq<string>, sharedArtists: seq<Artist>, ghost s: Summary)
    returns (summary: string)
    requires s.band == Chemistry && s.name2 == user2Name && s.genres == sharedGenres
    requires s.favorites == ArtistNames(sharedArtists)[..Min(1, |sharedArtists|)]
    requires !s.noSharedArtist && !s.popularityGap
    ensures summary == Render(s)
  {
    summary := "You and " + user2Name + " have great musical chemistry! ";
    if |sharedGenres| > 0 {
      summary := summary + ("You both enjoy " + JoinWith(sharedGenres, ", "));
    }
    assert summary == Opening(s) + GenrePart(s);
    if |sharedArtists| > 0 {
      summary := summary + (" and love " + sharedArtists[0].name);
    }
    assert summary == Opening(s) + GenrePart(s) + FirstFavoritePart(s) + SecondFavoritePart(s) + NoArtistPart(s) + GapPart(s);
    summary := summary + ". You'd have a blast sharing music!";
  }

  method OverlapSummary(user1Name: string, user2Name: string, sharedGenres: seq<string>,
                        user1TopGenre: string, user2TopGenre: string, popularityDiff: real, ghost s: Summary)
    returns (summary: string)
    requires s == Summary(SomeOverlap, user1Name, user2Name, user1TopGenre, user2TopGenre, sharedGenres, [],
                          false, popularityDiff > 30.0)
    ensures summary == Render(s)
  {
    summary := "You and " + user2Name + " have some musical overlap. ";
    if |sharedGenres| > 0 {
      summary := summary + ("You both like " + JoinWith(sharedGenres, ", "));
    } else {
      summary := summary + (user1Name + " is into " + user1TopGenre + " while " + user2Name + " prefers " + user2TopGenre);
    }
    assert summary == Opening(s) + GenrePart(s) + FirstFavoritePart(s) + SecondFavoritePart(s) + NoArtistPart(s);
    if popularityDiff > 30.0 {
      summary := summary + ". One of you loves the hits, the other digs deeper!";
    }
    assert summary == Opening(s) + GenrePart(s) + FirstFavoritePart(s) + SecondFavoritePart(s) + NoArtistPart(s) + GapPart(s);
    summary := summary + " You'll discover new music from each other!";
  }

  method DifferentSummary(user1Name: string, user2Name: string, sharedGenres: seq<string>,
                          user1TopGenre: string, user2TopGenre: string, popularityDiff: real, ghost s: Summary)
    returns (summary: string)
    requires s == Summary(VeryDifferent, user1Name, user2Name, user1TopGenre, user2TopGenre, sharedGenres, [],
                          false, popularityDiff > 40.0)
    ensures summary == Render(s)
  {
    summary := "You and " + user2Name + " have very different tastes! ";
    if |sharedGenres| > 0 {
      summary := summary + ("You only share " + JoinWith(sharedGenres, ", "));
    } else {
      summary := summary + (user1Name + " loves " + user1TopGenre + " while " + user2Name + " is all about " + user2TopGenre);
    }
    assert summary == Opening(s) + GenrePart(s) + FirstFavoritePart(s) + SecondFavoritePart(s) + NoArtistPart(s);
    if popularityDiff > 40.0 {
      summary := summary + ". Your music discovery levels are completely opposite!";
    }
    assert summary == Opening(s) + GenrePart(s) + FirstFavoritePart(s) + SecondFavoritePart(s) + NoArtistPart(s) + GapPart(s);
    summary := summary + " But opposites attract, right?";
  }

  method OppositesSummary(user1Name: string, user2Name: string, sharedArtists: seq<Artist>,
                          user1TopGenre: string, user2TopGenre: string, popularityDiff: real, ghost s: Summary)
    returns (summary: string)
    requires s == Summary(Opposites, user1Name, user2Name, user1TopGenre, user2TopGenre, [], [],
                          sharedArtists == [], popularityDiff > 50.0)
    ensures summary == Render(s)
  {
    summary := "You and " + user2Name + " are musical opposites! ";
    summary := summary + (user1Name + " is a " + user1TopGenre + " fan while " + user2Name + " vibes with " + user2TopGenre + ". ");
    assert summary == Opening(s) + GenrePart(s) + FirstFavoritePart(s) + SecondFavoritePart(s);
    if |sharedArtists| == 0 {
      summary := summary + "Not a single shared favorite artist! ";
    }
    assert summary == Opening(s) + GenrePart(s) + FirstFavoritePart(s) + SecondFavoritePart(s) + NoArtistPart(s);
    if popularityDiff > 50.0 {
      summary := summary + "Your music discovery levels are polar opposites! ";
    }
    assert summary == Opening(s) + GenrePart(s) + FirstFavoritePart(s) + SecondFavoritePart(s) + NoArtistPart(s) + GapPart(s);
    summary := summary + "This could be interesting... or chaotic!";
  }

  /** The band is chosen by the score's thresholds, highest first. */
  lemma BandSpec(score: int)
    ensures BandOf(score) == Soulmates <==> score >= 80
    ensures BandOf(score) == Chemistry <==> 60 <= score < 80
    ensures BandOf(score) == SomeOverlap <==> 40 <= score < 60
    ensures BandOf(score) == VeryDifferent <==> 20 <= score < 40
    ensures BandOf(score) == Opposites <==> score < 20
  {
  }

  /** Every summary starts by greeting the second user in its band's words and
      ends with its band's closing sentence. */
  lemma SummaryFrame(s: Summary)
    ensures |Opening(s)| + |ClosingSentence(s.band)| <= |Render(s)|
    ensures Render(s)[..|Opening(s)|] == Opening(s)
    ensures Render(s)[|Render(s)| - |ClosingSentence(s.band)|..] == ClosingSentence(s.band)
  {
    var o := Opening(s);
    var x1 := o + GenrePart(s);
    var x2 := x1 + FirstFavoritePart(s);
    var x3 := x2 + SecondFavoritePart(s);
    var x4 := x3 + NoArtistPart(s);
    var x5 := x4 + GapPart(s);
    var t := x5 + ClosingSentence(s.band);
    PrefixKept(o, GenrePart(s), |o|);
    PrefixKept(x1, FirstFavoritePart(s), |o|);
    PrefixKept(x2, SecondFavoritePart(s), |o|);
    PrefixKept(x3, NoArtistPart(s), |o|);
    PrefixKept(x4, GapPart(s), |o|);
    PrefixKept(x5, ClosingSentence(s.band), |o|);
    assert t[|x5|..] == ClosingSentence(s.band);
  }

  lemma PrefixKept(a: string, b: string, n: nat)
    requires n <= |a|
    ensures (a + b)[..n] == a[..n]
  {
  }

  /** With the popularity-gap sentence, the summary ends with that sentence
      followed by the closing one. */
  lemma GapSentenceEnds(s: Summary)
    requires s.popularityGap
    ensures var t, e := Render(s), GapSentence(s.band) + ClosingSentence(s.band);
            |e| <= |t| && t[|t| - |e|..] == e
  {
    var t, e := Render(s), GapSentence(s.band) + ClosingSentence(s.band);
    var front := Opening(s) + GenrePart(s) + FirstFavoritePart(s) + SecondFavoritePart(s) + NoArtistPart(s);
    assert t == front + GapSentence(s.band) + ClosingSentence(s.band);
    SuffixAfter(front, GapSentence(s.band), ClosingSentence(s.band));
  }

  lemma SuffixAfter(a: string, b: string, c: string)
    ensures (a + b + c)[|a|..] == b + c
  {
  }

  /** The popularity-gap sentence is said exactly when the gap between the two
      average popularities exceeds 30, 40 or 50 with a score of 40-59, 20-39 or
      below 20, and never with a score of 60 or more. */
  lemma PopularityGapSpec(name1: string, name2: string, sharedArtists: seq<Artist>, c: GenreComparison,
                          m1: TrackMetrics, m2: TrackMetrics, score: int)
    ensures var gap := Abs(m1.averagePopularity - m2.averagePopularity);
            SummaryOf(name1, name2, sharedArtists, c, m1, m2, score).popularityGap <==>
              (40 <= score < 60 && gap > 30.0) || (20 <= score < 40 && gap > 40.0) || (score < 20 && gap > 50.0)
  {
  }

  /** The no-shared-artist sentence is said exactly with a score below 20 and no
      shared artist. */
  lemma NoSharedArtistSpec(name1: string, name2: string, sharedArtists: seq<Artist>, c: GenreComparison,
                           m1: TrackMetrics, m2: TrackMetrics, score: int)
    ensures SummaryOf(name1, name2, sharedArtists, c, m1, m2, score).noSharedArtist <==>
              score < 20 && sharedArtists == []
  {
  }

  /** The listed genres are the first (at most) three of the overlap, and none
      below a score of 20; the named artists are the first two shared artists
      with a score of 80 or more, the first one with 60-79, and none below. */
  lemma SummaryNamesSpec(name1: string, name2: string, sharedArtists: seq<Artist>, c: GenreComparison,
                         m1: TrackMetrics, m2: TrackMetrics, score: int)
    ensures var s := SummaryOf(name1, name2, sharedArtists, c, m1, m2, score);
            && |s.genres| == (if score < 20 then 0 else Min(3, |c.overlap|))
            && (forall i :: 0 <= i < |s.genres| ==> s.genres[i] == c.overlap[i])
            && |s.favorites| == (if score >= 80 then Min(2, |sharedArtists|)
                                 else if score >= 60 then Min(1, |sharedArtists|) else 0)
            && (forall i :: 0 <= i < |s.favorites| ==> s.favorites[i] == sharedArtists[i].name)
  {
  }

  // ---------------------------------------------------------------------------
  // generatePlayfulSummary

  /** The two punctuation marks of the template text as it is stored: a
      right single quote and an em dash, each written as the three characters
      U+201A U+00C4 U+00F4 and U+201A U+00C4 U+00EE (their UTF-8 bytes read as
      Mac Roman). */
  function Apostrophe(): string { "\U{201A}\U{00C4}\U{00F4}" }

  function Dash(): string { "\U{201A}\U{00C4}\U{00EE}" }

  /** Template 1: the first (at most) two shared genres, or the no-overlap line. */
  function PlayfulGenreLine(overlap: seq<string>): string
  {
    var sg := overlap[..Min(2, |overlap|)];
    if |sg| > 0 then
      "You both enjoy " + JoinWith(sg, " and ") + ". Looks like you" + Apostrophe() + "d have a good time swapping playlists."
    else "You each bring something different to the mix" + Dash() + "unique tastes make for interesting listening!"
  }

  /** Template 2: the first shared artist, or the no-shared-artist line. */
  function PlayfulArtistLine(sharedArtists: seq<Artist>): string
  {
    if |sharedArtists| > 0 then "You both have a soft spot for " + sharedArtists[0].name + "."
    else "No shared favorite artists, but plenty of new music to discover from each other!"
  }

  /** Template 3: both below 40, both above 60, a gap above 30, or matched. */
  function PlayfulPopularityLine(avg1: real, avg2: real): string
  {
    if avg1 < 40.0 && avg2 < 40.0 then
      "Both of you dig deep for hidden gems" + Dash() + "perfect for discovering new music together."
    else if avg1 > 60.0 && avg2 > 60.0 then
      "You both love the hits" + Dash() + "your playlists would be full of crowd-pleasers."
    else if Abs(avg1 - avg2) > 30.0 then "One of you loves the hits, the other digs deeper. Nice balance!"
    else "Your music discovery levels are pretty well matched."
  }

  /** `items.find(x => !shared.some(y => y.id === x.id))`. */
  function FirstUnshared<T>(items: seq<T>, shared: seq<T>, id: T -> string): (r: Option<T>)
    ensures r.Some? <==> exists i :: 0 <= i < |items| && id(items[i]) !in Ids(shared, id)
    ensures r.Some? ==> r.value in items && id(r.value) !in Ids(shared, id)
    ensures r.Some? ==> exists i :: 0 <= i < |items| && items[i] == r.value &&
                                    forall j :: 0 <= j < i ==> id(items[j]) in Ids(shared, id)
  {
    if items == [] then None
    else if id(items[0]) !in Ids(shared, id) then Some(items[0])
    else
      var r := FirstUnshared(items[1..], shared, id);
      assert forall i :: 0 <= i < |items| - 1 ==> items[1..][i] == items[i + 1];
      assert r.Some? ==> forall k :: 0 <= k < |items| - 1 && items[1..][k] == r.value &&
                                     (forall j :: 0 <= j < k ==> id(items[1..][j]) in Ids(shared, id))
                                     ==> items[k + 1] == r.value && forall j :: 0 <= j < k + 1 ==> id(items[j]) in Ids(shared, id);
      r
  }

  /** Templates 4 and 5: one artist (track) of each user that is not shared, if
      both users have one. */
  function UniqueArtistLine(name1: string, name2: string, a1: Option<Artist>, a2: Option<Artist>): Option<string>
  {
    if a1.Some? && a2.Some? then
      Some(name1 + " is into " + a1.value.name + ", while " + name2 + " prefers " + a2.value.name + ". Plenty to share!")
    else None
  }

  function UniqueTrackLine(t1: Option<Track>, t2: Option<Track>): Option<string>
  {
    if t1.Some? && t2.Some? then
      Some("Top tracks like \"" + t1.value.name + "\" and \"" + t2.value.name + "\" show off your unique styles.")
    else None
  }

  function Templates(name1: string, name2: string, sharedArtists: seq<Artist>, sharedTracks: seq<Track>,
                     c: GenreComparison, m1: TrackMetrics, m2: TrackMetrics,
                     topArtists1: seq<Artist>, topArtists2: seq<Artist>,
                     topTracks1: seq<Track>, topTracks2: seq<Track>): seq<Option<string>>
  {
    [Some(PlayfulGenreLine(c.overlap)),
     Some(PlayfulArtistLine(sharedArtists)),
     Some(PlayfulPopularityLine(m1.averagePopularity, m2.averagePopularity)),
     UniqueArtistLine(name1, name2, FirstUnshared(topArtists1, sharedArtists, ArtistId),
                      FirstUnshared(topArtists2, sharedArtists, ArtistId)),
     UniqueTrackLine(FirstUnshared(topTracks1, sharedTracks, TrackId),
                     FirstUnshared(topTracks2, sharedTracks, TrackId))]
  }

  /** `filter(Boolean)`: the present, non-empty strings, in order. */
  function KeepTruthy(xs: seq<Option<string>>): (r: seq<string>)
    ensures |r| <= |xs|
  {
    if xs == [] then []
    else (if Truthy(xs[0]) then [xs[0].value] else []) + KeepTruthy(xs[1..])
  }

  /** `chosen.slice(0, 2).join(' ')`. */
  function FirstTwoJoined(chosen: seq<string>): string
  {
    JoinWith(chosen[..Min(2, |chosen|)], " ")
  }

  /** The first two templates that produce text, joined by a space. */
  function GeneratePlayfulSummary(name1: string, name2: string, sharedArtists: seq<Artist>, sharedTracks: seq<Track>,
                                  c: GenreComparison, m1: TrackMetrics, m2: TrackMetrics,
                                  topArtists1: seq<Artist>, topArtists2: seq<Artist>,
                                  topTracks1: seq<Track>, topTracks2: seq<Track>): string
  {
    FirstTwoJoined(KeepTruthy(Templates(name1, name2, sharedArtists, sharedTracks, c, m1, m2,
                                        topArtists1, topArtists2, topTracks1, topTracks2)))
  }

  /** When the first two entries produce text, they are the two kept first. */
  lemma FirstTwoKept(xs: seq<Option<string>>)
    requires |xs| >= 2 && Truthy(xs[0]) && Truthy(xs[1])
    ensures FirstTwoJoined(KeepTruthy(xs)) == xs[0].value + " " + xs[1].value
  {
    var rest := KeepTruthy(xs[1..]);
    assert xs[1..][0] == xs[1] && xs[1..][1..] == xs[2..];
    assert rest == [xs[1].value] + KeepTruthy(xs[2..]);
    var chosen := KeepTruthy(xs);
    assert chosen == [xs[0].value] + rest;
    var two := [xs[0].value, xs[1].value];
    assert chosen[..2] == two && two[1..] == [xs[1].value];
    assert Min(2, |chosen|) == 2;
    assert JoinWith(two, " ") == xs[0].value + " " + JoinWith([xs[1].value], " ");
  }

  lemma GenreLineNonEmpty(overlap: seq<string>)
    ensures |PlayfulGenreLine(overlap)| > 0
  {
  }

  lemma ArtistLineNonEmpty(sharedArtists: seq<Artist>)
    ensures |PlayfulArtistLine(sharedArtists)| > 0
  {
  }

  /** The first two templates always produce text, so the summary is always the
      genre line and the artist line: the popularity, unique-artist and
      unique-track lines are never shown, and the users' top lists, shared tracks
      and metrics do not affect it. */
  lemma PlayfulSummarySpec(name1: string, name2: string, sharedArtists: seq<Artist>, sharedTracks: seq<Track>,
                           c: GenreComparison, m1: TrackMetrics, m2: TrackMetrics,
                           topArtists1: seq<Artist>, topArtists2: seq<Artist>,
                           topTracks1: seq<Track>, topTracks2: seq<Track>)
    ensures GeneratePlayfulSummary(name1, name2, sharedArtists, sharedTracks, c, m1, m2,
                                   topArtists1, topArtists2, topTracks1, topTracks2)
            == PlayfulGenreLine(c.overlap) + " " + PlayfulArtistLine(sharedArtists)
  {
    GenreLineNonEmpty(c.overlap);
    ArtistLineNonEmpty(sharedArtists);
    FirstTwoKept(Templates(name1, name2, sharedArtists, sharedTracks, c, m1, m2,
                           topArtists1, topArtists2, topTracks1, topTracks2));
  }
}
