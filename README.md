# TasteMatch in Dafny

TasteMatch compares the music taste of two Spotify listeners. Each listener's
taste profile holds their top artists, top tracks, a few metrics of those
tracks and their distinct genres. The comparison engine works out a 0–100
compatibility score, the artists and tracks they share, and the top genres
of each listener and where they overlap. It also produces a score-banded
taste summary, a listening personality for each listener, a genre tag and a
playful summary. Around the engine sit:

- an in-memory store of thirty-minute comparison sessions;
- the playlist routes, which pick the tracks of a shared playlist;
- the OAuth callback for share links, which decides where the second
  listener is sent after logging in.

This project models that core in Dafny and proves properties of the model.

The modules follow the source:

| module | file | models |
|---|---|---|
| `Common` | `common.dfy` | `Option` and `Result`, counting, first-seen de-duplication (the order of a `Set` or `Map` filled from a list), joining, sums and means, ASCII case mapping, truthiness, subsequences |
| `Spotify` | `spotify.dfy` | the Spotify records, `calculateTrackMetrics`, and the pure part of `getUserTasteProfile` |
| `GenreTally` | `genre_tally.dfy` | genre counting in first-seen key order (imperative, over a `map` and a key list); the stable sort by descending count; the top five |
| `Similarity` | `similarity.dfy` | `calculateCosineSimilarity` (a loop), `findSharedItems`, `getGenreComparison`, `calculateAverageTrackMetrics` |
| `Personality` | `personality.dfy` | `assignListeningPersonality` and `getPersonalityDescription` |
| `Narrative` | `narrative.dfy` | `capitalize`, `assignGenreTag`, `generateTasteSummary` (string building step by step), `generatePlayfulSummary` |
| `Comparison` | `comparison.dfy` | `compareTastes` and the compatibility score |
| `Storage` | `storage.dfy` | `InMemoryStorage` as a class over a map of `Session` objects, plus an equivalent value model |
| `Playlist` | `playlist.dfy` | the track selection of `POST` and `POST_blended` in the playlist route |
| `ShareCallback` | `share_callback.dfy` | the guards of the share callback, the session-id pattern and the redirect target |

Some inputs that the source gets from the world are parameters here:

- `Math.sqrt` is a parameter `sqrt`, constrained by `IsSquareRoot` (it returns
  the non-negative root of a non-negative argument).
- `Math.random` in the genre tag is an index `pick` into the six labels.
- Each reading of `Date.now()` is an integer parameter. `createSession` reads
  the clock twice: `now` stamps the session and `cleanupNow` is the reading
  taken inside the cleanup that follows.
- The generated session id is a parameter.
- The result of the token exchange is a boolean.

JavaScript numbers are modelled as mathematical reals, and `Math.round(x)` as
`floor(x + 0.5)`.

The comment at src/app/api/playlist/create/route.ts:81-82 announces that the
blended playlist alternates between the two users. The code does not
alternate: it puts the genre-matched tracks first, then user1's other tracks,
then user2's, and cuts the list to 20 (route.ts:97-109). The model follows the
code.

## Model

| member | source | states |
|---|---|---|
| Similarity.CalculateCosineSimilarity | src/lib/similarity.ts:29-47 | The loop computes exactly `Cosine`: an error when the lengths differ, 0 when either squared norm is 0, and otherwise the dot product over the product of the roots of the norms |
| Similarity.CosineSpec | src/lib/similarity.ts:29-47 | The result is an error exactly when the lengths differ; the similarity is symmetric; a zero vector of matching length gives 0 |
| Similarity.CosineOfSelf | src/lib/similarity.ts:29-47 | A non-zero vector has similarity exactly 1 with itself |
| Similarity.DotSymmetric | src/lib/similarity.ts:38-39 | The accumulated dot product does not depend on the order of the two vectors |
| Similarity.DotIsSquaredNorm | src/lib/similarity.ts:38-41 | The dot product of a vector with itself is its accumulated squared norm |
| Similarity.SharedItemsSpec | src/lib/similarity.ts:79-82 | The shared items keep the second list's order; an item is in them exactly when its id occurs in the first list; each such item is kept as often as it occurs in the second list |
| Similarity.SharedIds | src/lib/similarity.ts:79-82 | An id is among the shared items' ids exactly when it occurs in both lists |
| Similarity.SharedIdsSymmetric | src/lib/similarity.ts:79-82 | Swapping the two lists leaves the set of shared ids unchanged |
| Similarity.GetGenreComparison | src/lib/similarity.ts:84-123 | The counting and sorting code returns exactly `GenreComparisonOf` of the two artist lists |
| Similarity.TopGenresSpec | src/lib/similarity.ts:85-111 | Each user's top list has min(5, number of distinct genres) entries. Each entry carries its genre's true count. The list is sorted by descending count and repeats no genre. No genre left out has a higher count than a listed one, and equal counts keep first-seen order |
| Similarity.OverlapMembers | src/lib/similarity.ts:114-116 | A genre is in the overlap exactly when it is in both top lists |
| Similarity.OverlapOrder | src/lib/similarity.ts:114-116 | The overlap follows user1's ranking |
| Similarity.OverlapDistinct | src/lib/similarity.ts:114-116 | The overlap repeats no genre |
| Similarity.GenreComparisonSpec | src/lib/similarity.ts:114-121 | The comparison holds both top lists. Its overlap is their intersection in user1's order, without repeats, no longer than either list, and the same as a set when the users are swapped |
| Similarity.CalculateAverageTrackMetrics | src/lib/similarity.ts:49-77 | No metrics give the fixed fallback. Otherwise: the popularity is the mean of the averages; the genre is the most frequent top genre, with 'Unknown' for an empty one; the recent tracks are the first five of all recent tracks |
| Similarity.MostCommonSpec | src/lib/similarity.ts:62-67 | The chosen genre occurs in the list, no genre occurs more often, and on a tie the one met first wins |
| Similarity.AverageMetricsWithin | src/lib/similarity.ts:54-73 | The mean of the averages lies within any bounds that hold for every average |
| GenreTally.Bump | src/lib/similarity.ts:91 | Counting one more tag keeps the key list first-seen and every count equal to the tag's occurrences |
| GenreTally.CountInto | src/lib/similarity.ts:89-93 | Counting a run of tags extends the key list and the counts to the longer prefix |
| GenreTally.CountGenres | src/lib/similarity.ts:85-100 | Counting the genres of a list of artists gives exactly `Tally` of all their genre tags |
| GenreTally.CountOccurrences | src/lib/similarity.ts:62-65 | Counting a list of labels gives exactly `Tally` of that list |
| GenreTally.TallySpec | src/lib/similarity.ts:85-100 | The tally lists each distinct tag once, in first-seen order, and its counts add up to the number of tags |
| GenreTally.SortSpec | src/lib/similarity.ts:103-104 | The sort orders by descending count and is a permutation. When the genres are distinct it keeps them distinct, and equal counts keep their original order (a stable sort) |
| GenreTally.MostCommonFirst | src/lib/similarity.ts:224-226 | The first entry after sorting belongs to the tally and has the highest count, and it is the earliest of the entries with that count |
| GenreTally.TopFiveSpec | src/lib/similarity.ts:103-111 | The top five are min(5, n) entries of the tally, sorted. No entry left out has a higher count than one kept, and distinct genres stay distinct |
| Common.DedupSpec | src/lib/spotify.ts:261 | `Array.from(new Set(...))` keeps every element and nothing else, once each, in first-seen order |
| Spotify.ProfileGenresSpec | src/lib/spotify.ts:261 | The profile's genres are exactly the genres of some top artist, once each, in the order they are first met |
| Spotify.TasteProfileOf | src/lib/spotify.ts:251-273 | The profile carries the fetched user, artists and tracks. Its genres are exactly the top artists' genres, once each, in first-seen order. Its average popularity times the number of top tracks is their total popularity. With no top tracks the metrics are the fallback; otherwise the recent tracks are the first min(5, n) recently played tracks, with their names and popularities |
| Spotify.MetricsOfNoTracks | src/lib/spotify.ts:154-160 | No tracks give popularity 0, genre 'Unknown' and no recent tracks, whatever was played recently |
| Spotify.MetricsAverageWithin | src/lib/spotify.ts:162-164 | The average popularity times the number of tracks is the total popularity, and it lies within any bounds of the individual popularities |
| Spotify.MetricsTopGenre | src/lib/spotify.ts:190-199 | With tracks, the top genre is the keyword genre of the lower-cased text of names and artists. It is one of the seven keyword genres and never 'Unknown' |
| Spotify.KeywordGenreOrder | src/lib/spotify.ts:192-199 | 'rock' or 'metal' always gives Rock, which is the first rule. 'Pop' comes exactly when none of the nine keywords occurs |
| Spotify.MetricsRecentTracks | src/lib/spotify.ts:166-173 | The recent tracks are the first min(5, n) recently played tracks with their names and popularities. Each artist is the first artist's name, or 'Unknown' when it is missing or empty |
| Personality.AssignListeningPersonality | src/lib/similarity.ts:211-286 | The counting code returns the label that the cascade gives for the genre diversity, the dominant share and the average popularity |
| Personality.StatsSpec | src/lib/similarity.ts:217-231 | The dominant share is a fraction in [0, 1]. The diversity is the number of distinct genres. There is a top genre exactly when some tag exists and the most frequent one is non-empty |
| Personality.ManyGenresMakeANomad | src/lib/similarity.ts:240-242 | More than ten distinct genres always give The Nomad |
| Personality.UnreachablePersonalities | src/lib/similarity.ts:240-285 | No input gives The Maverick, since the Adventurer rule takes its cases first, or The Early Adopter, since the rules before it cover every input |
| Personality.LabelDescription | src/lib/similarity.ts:292-313 | Every one of the sixteen labels has its own entry in the description table |
| Personality.DescriptionNonEmpty | src/lib/similarity.ts:292-313 | Every string gets a non-empty description |
| Personality.OtherDescription | src/lib/similarity.ts:312 | A string that is not a label gets the fallback sentence |
| Narrative.CapitalizeSpec | src/lib/similarity.ts:288-290 | Splitting at spaces, upper-casing the first letter of each word and joining again upper-cases exactly the characters at the start or after a space, and leaves every other character as it was |
| Narrative.SplitJoin | src/lib/similarity.ts:289 | Joining the pieces of a split with the separator gives back the string, and no piece contains the separator |
| Narrative.GenreTagSpec | src/lib/similarity.ts:315-340 | Two or more shared genres give the capitalized first one plus the picked suffix, and different picks give different tags. One shared genre gives "Buddies". With fewer than two the pick does not matter. "Genre Explorers" comes exactly when there is no overlap and one user has no (or an empty) top genre |
| Narrative.GenerateTasteSummary | src/lib/similarity.ts:125-209 | The string built step by step equals `Render` of the summary's ingredients (band, names, top genres, shared genres, favourites, gap and no-artist flags) |
| Narrative.SoulmatesSummary | src/lib/similarity.ts:140-153 | The soulmates text built step by step is the rendering of its ingredients |
| Narrative.ChemistrySummary | src/lib/similarity.ts:156-166 | The chemistry text built step by step is the rendering of its ingredients |
| Narrative.OverlapSummary | src/lib/similarity.ts:169-181 | The some-overlap text is the rendering of its ingredients, with the gap sentence after a difference above 30 |
| Narrative.DifferentSummary | src/lib/similarity.ts:184-196 | The very-different text is the rendering of its ingredients, with the gap sentence after a difference above 40 |
| Narrative.OppositesSummary | src/lib/similarity.ts:199-208 | The opposites text is the rendering of its ingredients, with the no-artist sentence and the gap sentence after a difference above 50 |
| Narrative.BandSpec | src/lib/similarity.ts:140-199 | The five bands are exactly the score ranges [80, ∞), [60, 80), [40, 60), [20, 40) and (−∞, 20) |
| Narrative.SummaryFrame | src/lib/similarity.ts:139-208 | Every summary starts with its band's opening, which names user2, and ends with its band's closing sentence |
| Narrative.PopularityGapSpec | src/lib/similarity.ts:176-205 | The popularity sentence appears exactly for a gap above 30 at scores 40–59, above 40 at 20–39, and above 50 below 20 |
| Narrative.NoSharedArtistSpec | src/lib/similarity.ts:201-203 | "Not a single shared favorite artist" appears exactly below 20 with no shared artist |
| Narrative.SummaryNamesSpec | src/lib/similarity.ts:134-162 | The summary names the first min(3, k) overlapping genres, or none below 20. It names the first two shared artists at 80 and above, the first one at 60–79, and none below 60 |
| Narrative.FirstUnshared | src/lib/similarity.ts:366-369 | `find` returns nothing exactly when every id is among the shared ones; otherwise it returns an element of `items` whose id is not shared, and every element before it has a shared id, so it is the first such element |
| Narrative.GenreLineNonEmpty | src/lib/similarity.ts:376-378 | The shared-genre template always produces a non-empty sentence |
| Narrative.ArtistLineNonEmpty | src/lib/similarity.ts:379-381 | The shared-artist template always produces a non-empty sentence |
| Narrative.FirstTwoKept | src/lib/similarity.ts:398-399 | When the first two candidates are non-empty, they are the two sentences joined |
| Narrative.PlayfulSummarySpec | src/lib/similarity.ts:342-400 | The playful summary is always the genre sentence followed by the artist sentence; the popularity, unique-artist and unique-track templates never appear |
| Comparison.Round | src/lib/similarity.ts:434-436 | The rounded score is within half a point of the weighted sum |
| Comparison.MetricsSimilarityWithin | src/lib/similarity.ts:413-420 | With non-negative popularities the two metric vectors share their last two components. Their cosine is therefore defined and lies in [0, 1] |
| Comparison.SelfMetrics | src/lib/similarity.ts:413-420 | Equal metrics have similarity 1 |
| Comparison.RatioWithin | src/lib/similarity.ts:430-432 | A share no larger than one of the sizes, over the larger size, lies in [0, 1] |
| Comparison.SelfRatio | src/lib/similarity.ts:430-432 | n shared out of n and n is 1 |
| Comparison.ScoreWithin | src/lib/similarity.ts:434-436 | Four similarities in [0, 1] with weights 0.3, 0.25, 0.2 and 0.25 round to a score in 0..100 |
| Comparison.CompatibilityWithin | src/lib/similarity.ts:413-436 | All four similarities lie in [0, 1]. The score is the rounded weighted sum, and it lies in 0..100 |
| Comparison.SelfComparisonScores100 | src/lib/similarity.ts:402-436 | A profile compared with itself scores 100 |
| Comparison.SharedLength | src/lib/similarity.ts:79-82 | There are never more shared items than items in the second list |
| Comparison.SharedWithSelf | src/lib/similarity.ts:79-82 | A list shares all of its items with itself |
| Comparison.SharedWithSuperset | src/lib/similarity.ts:79-82 | When every item of the second list is in the first, all of them are shared |
| Comparison.OverlapLength | src/lib/similarity.ts:114-116 | The overlap is no longer than user1's top list |
| Comparison.OverlapWithSelf | src/lib/similarity.ts:114-116 | When all of user1's top genres are in user2's list, the overlap is all of them |
| Comparison.CompareScores | src/lib/similarity.ts:409-436 | The shared artists, the shared tracks, the genre comparison and the score are the ones the specification functions give |
| Comparison.CompareTastes | src/lib/similarity.ts:402-501 | Every field of the result comes from its specification function: the score, the shared items, the genre comparison and overlap, the taste summary, both personalities, the genre tag, the playful summary, and the pass-through lists |
| Storage.Session.constructor | src/lib/storage.ts:19-24 | A new session has its id, first profile and both timestamps, and no second profile |
| Storage.InMemoryStorage.constructor | src/lib/storage.ts:12 | The store starts empty |
| Storage.InMemoryStorage.CreateSession | src/lib/storage.ts:15-34 | It returns the given id. The store becomes the old one with the new session (stamped with the first clock reading) added and then cleaned up at the second reading, and every session stays under its own id |
| Storage.CreatedSpec | src/lib/storage.ts:15-34 | The new session expires 30 minutes after creation and has no second profile. It survives the cleanup exactly when the cleanup's clock reading is not past its expiry, which always holds when both readings agree, and it is then found at any instant up to its expiry. Exactly the sessions with other ids that are live at the cleanup's reading remain |
| Storage.InMemoryStorage.GetSession | src/lib/storage.ts:36-54 | It returns the stored object itself, or null exactly when the id is unknown or expired. An expired session is removed, and nothing else changes |
| Storage.GetSpec | src/lib/storage.ts:36-54 | A session is found exactly when its id is present and not yet expired. An expired one is removed, and other sessions are untouched |
| Storage.GetAtExpiry | src/lib/storage.ts:46 | A session is still found at its expiry instant and gone one millisecond later |
| Storage.InMemoryStorage.AddUser2ToSession | src/lib/storage.ts:56-63 | The result and the new store are exactly those of `AddUser2` |
| Storage.AddUser2Spec | src/lib/storage.ts:56-63 | It succeeds exactly for a live session. Only that session's second profile changes; its id, first profile and timestamps stay, and no other session is touched |
| Storage.InMemoryStorage.UpdateSessionData | src/lib/storage.ts:65-73 | The result and the new store are exactly those of `Update` |
| Storage.UpdateSpec | src/lib/storage.ts:65-73 | It succeeds exactly for a live session. Both profiles are replaced, the timestamps are kept (the time to live is not refreshed), and no other session is touched |
| Storage.InMemoryStorage.Cleanup | src/lib/storage.ts:79-86 | Whatever order the entries are visited in, the store ends up as exactly the unexpired sessions |
| Storage.LiveSpec | src/lib/storage.ts:79-86 | Cleanup keeps exactly the sessions not past their expiry time and leaves them as they were. A second cleanup at the same time changes nothing |
| Playlist.FilterSpec | src/app/api/playlist/create/route.ts:31-33 | `filter` keeps each element as often as it occurs when the predicate holds and drops it otherwise, in order |
| Playlist.FindIndexById | src/app/api/playlist/create/route.ts:32 | `findIndex` gives the first position with that id, or −1 exactly when no track has it |
| Playlist.KeepFirstIsDedup | src/app/api/playlist/create/route.ts:31-33 | The index test of the filter keeps exactly the tracks that no earlier track shares an id with |
| Playlist.UniqueTracksSpec | src/app/api/playlist/create/route.ts:31-33 | The unique tracks' ids are the input's distinct ids, once each. Every track kept is the first with its id, and the tracks keep the order of those first positions |
| Playlist.DistinctIds | src/app/api/playlist/create/route.ts:31-33 | The unique tracks have pairwise distinct ids and cover every id of the input |
| Playlist.DedupByIdDistinct | src/app/api/playlist/create/route.ts:31-33 | A list whose ids are already distinct is left as it is |
| Playlist.SelectTracksSpec | src/app/api/playlist/create/route.ts:30-36 | The selection holds min(20, distinct ids) tracks with distinct ids. Each is the first track with its id in user1's then user2's list, in the order of those first occurrences. With at most 20 distinct ids every id is selected |
| Playlist.UriId | src/app/api/playlist/create/route.ts:37 | The track id can be read back from its URI after the `spotify:track:` prefix |
| Playlist.TrackUrisSpec | src/app/api/playlist/create/route.ts:37 | There is one URI per track, naming that track's id, and the URIs are distinct exactly when the ids are |
| Playlist.SelectedUrisDistinct | src/app/api/playlist/create/route.ts:30-37 | The playlist of `POST` gets at most 20 URIs and none twice |
| Playlist.NamesDiffer | src/app/api/playlist/create/route.ts:113 | The blended playlist's name never equals the plain playlist's name (line 40), whatever the display names |
| Playlist.SharedGenresSpec | src/app/api/playlist/create/route.ts:87 | A genre is shared exactly when both users have it; it keeps user1's order and multiplicity |
| Playlist.FilterTracksByGenresSpec | src/app/api/playlist/create/route.ts:90-94 | The genre filter keeps exactly the tracks with an artist whose (present) genre list meets the shared genres |
| Playlist.GenrePicksSpec | src/app/api/playlist/create/route.ts:97-102 | The genre picks are genre-matched tracks of either user, with distinct ids, and every genre-matched track's id is among them |
| Playlist.NotInSpec | src/app/api/playlist/create/route.ts:105-106 | A filler keeps exactly the user's tracks whose id is not picked, in the user's order |
| Playlist.BlendedSpec | src/app/api/playlist/create/route.ts:97-109 | The blend holds min(20, picks + both fillers) tracks and starts with the genre picks; exactly the entries before the end of the picks have a picked id |
| Playlist.BlendedFillSpec | src/app/api/playlist/create/route.ts:104-109 | After the picks come user1's unpicked tracks in user1's order, then user2's in user2's order |
| Playlist.BeforeCutCovers | src/app/api/playlist/create/route.ts:97-107 | Before the cut the blend holds every track id of either user |
| Playlist.BlendedComplete | src/app/api/playlist/create/route.ts:97-109 | When nothing is cut, every track id of either user is in the blend |
| Playlist.CatalogTracksBlend | src/app/api/playlist/create/route.ts:90-109 | When the track artists carry no genres, as the catalog returns them, the blend is user1's tracks then user2's, cut to 20, whatever genres the users share |
| Playlist.BlendWithoutPicks | src/app/api/playlist/create/route.ts:104-107 | With no genre picks the fillers are the users' whole lists |
| Playlist.SharedTrackTwice | src/app/api/playlist/create/route.ts:104-107 | A track in both users' lists that is not a genre pick is in the blend twice before the cut |
| Playlist.BlendedDuplicateExample | src/app/api/playlist/create/route.ts:97-109 | Both users with the same single genre-less track get a blend listing it twice |
| Playlist.BlendedDistinctSpec | src/app/api/playlist/create/route.ts:97-109 | The blend de-duplicated after the fill holds at most 20 tracks with distinct ids. It still starts with the genre picks, and when nothing is cut it holds every track id of either user |
| ShareCallback.GuardOrder | src/app/api/auth/callback/spotify/share/route.ts:11-19 | An `error` parameter is reported first, whatever else is given. A missing code is reported exactly when there is no error. A redirect happens exactly when both checks pass and the exchange succeeds |
| ShareCallback.RunLength | src/app/api/auth/callback/spotify/share/route.ts:69 | The greedy `+` takes id characters up to the first `/`, `?` or end of string |
| ShareCallback.FindMatch | src/app/api/auth/callback/spotify/share/route.ts:69 | A reported position is one where the pattern matches |
| ShareCallback.FindMatchSpec | src/app/api/auth/callback/spotify/share/route.ts:69 | The search finds the leftmost match and finds nothing exactly when there is no match |
| ShareCallback.ExtractSpec | src/app/api/auth/callback/spotify/share/route.ts:69-72 | A session id is found exactly when the pattern matches somewhere. It is then the longest non-empty run after the leftmost `/compare/` and holds neither `/` nor `?` |
| ShareCallback.ExtractFromPath | src/app/api/auth/callback/spotify/share/route.ts:87 | Extracting the id from `/compare/<id>` gives the id back |
| ShareCallback.StateBeforeReferer | src/app/api/auth/callback/spotify/share/route.ts:64-84 | A session id in the state wins and the referer is not consulted. Otherwise the referer decides |
| ShareCallback.SessionIdShape | src/app/api/auth/callback/spotify/share/route.ts:69-81 | Whatever its source, a found session id is non-empty and holds no `/` or `?` |
| ShareCallback.CallbackPathSpec | src/app/api/auth/callback/spotify/share/route.ts:87 | The comparison page is chosen exactly when a session id was found, and the id can be read back from that path; otherwise the target is `/dashboard` |

## Left out

- Network I/O is outside the model: the Spotify API calls, axios, the OAuth token exchange, JWT signing and checking, cookies and the Next.js responses. Only the decisions of the routes are modelled.
- HTTP status handling is partial: the outcome of the token exchange in the share callback is a boolean parameter, and its 500 answer is modelled without the error details.
- The 401 and 404 guards of the playlist routes and the JSON they return (`playlistId`, `trackCount`) are not modelled. Both routes are modelled from the point where the two profiles are at hand.
- `Math.sqrt` is a parameter: Dafny has no real square root.
- Floating point is not modelled: JavaScript numbers are reals, so rounding errors and NaN are outside the model.
- `Math.random` in the genre tag is a parameter `pick`. The uniform distribution is not modelled.
- `Date.now()` is a parameter `now`.
- `generateSessionId` (storage.ts:75-77) is left out; the id is a parameter, because it is built from `Math.random` and base-36 text.
- `decodeURIComponent` is not modelled: the state is taken as already decoded, and the `URIError` of a malformed state is not modelled.
- The base URL of the redirect (share/route.ts:23-25) is left out: it comes from request headers, and only the path is modelled.
- Logging (`console.log` and `console.error`) is left out.
- Case mapping is ASCII only, because Dafny strings have no Unicode case tables. This affects `toUpperCase` in `capitalize` and `toLowerCase` in the keyword scan.
- JavaScript objects list integer-like keys first, in numeric order, before the other keys in insertion order. The model uses insertion order for every key of the `Record` in `assignListeningPersonality` and `calculateAverageTrackMetrics`.
- Inherited members of plain JavaScript objects are not modelled. The model treats every tag as an own key that starts from 0. In the source this differs in three places:
  - `getPersonalityDescription` (similarity.ts:312) finds inherited members such as `"constructor"` in its table. The model's table holds only its sixteen keys.
  - The genre counts of `assignListeningPersonality` (similarity.ts:221) behave differently for some tags. A tag such as `"constructor"` or `"toString"` starts from an inherited function, so its count becomes a string and the total becomes string concatenation. A `"__proto__"` tag is never stored as a key, so the number of distinct genres leaves it out.
  - The same holds for the label counts of `calculateAverageTrackMetrics` (similarity.ts:63).
- Values that the source computes and never uses are not modelled: `popularitySimilarity`, `uniqueArtists`, `userTopGenre`, `recentTracksCount`, and the unused `topTracks` and `genres` arguments.
- Storage.InMemoryStorage.Cleanup: visits the keys in an arbitrary order instead of the Map's insertion order, because the outcome does not depend on the order and the postcondition says so.
- Comparison.CompareTastes: requires a non-empty track list and a genre tag on at least one side. Otherwise `Math.max` is 0, the ratio is 0/0 and the score is NaN, which reals cannot express. The same holds for Comparison.CompareScores and Comparison.CompatibilityWithin.
- Comparison.Ratio: requires a non-zero size, for the same NaN reason.
- Comparison.MetricsSimilarityWithin: assumes non-negative popularities, which Spotify guarantees (0–100). The track-count component can be negative when the recent-track counts differ by more than 3; the model keeps that.
- The page components, the charts and the other routes are not part of this model.

## Findings

| source | as written | input that shows it | evidently intended | confidence | as-written member | corrected member |
|---|---|---|---|---|---|---|
| src/app/api/playlist/create/route.ts:104-107 | Both fillers are tested only against the genre picks. A track that is in both users' top lists and is not a genre pick is therefore added twice. | user1Tracks = user2Tracks = [x], where x's artists carry no genres, and shared genre "pop": the blend is [x, x] | Each track once. The comment says the fill uses "unique tracks", and the rest of the route removes duplicates by id. | not executed | Playlist.BlendedDuplicateExample | Playlist.BlendedDistinctSpec |
