# Stream lookup and player-domain discovery

A Dafny model of the two pieces of the streaming API that decide what a caller
gets back:

- **`getM3u8`** (`get_m3u8.dfy`, `playlist.dfy`). It takes a query of an id, an
  optional season, episode and language. It asks the media-info provider for a
  playlist tree and navigates that tree. In series mode it goes season, then
  episode, then language. In movie mode it does one language lookup over the top
  level. It hands the leaf's `file` and the provider's `key` to the stream
  resolver and shapes the final JSON answer. Every failure carries the data its
  message interpolates.
- **`getPlayerUrl`** (`player_url.dfy`). It finds the video front-end's domain in
  three tiers:
  1. The leftmost case-insensitive match of
     `const\s+AwsIndStreamDomain\s*=\s*['"]([^'"]+)['"]` in the whole page, with
     one trailing slash stripped.
  2. Each `<script>` body in order, searched with the same pattern without
     `const\s+`, the capture returned verbatim.
  3. On any error, the configured default, verbatim.

The regular expressions are modelled as anchored matchers (`MatchHere`) under a
leftmost search (`FirstMatch`). The language they accept is given independently:
`Render` builds the text of an assignment from its parts. Two lemmas tie the two
together. `RenderMatches` says every well-formed assignment is matched and its
value is the capture. `MatchIsRendered` says every match is such an assignment.

Shared pieces:

- `wrappers.dfy`: `Option` and `Result`.
- `text.dfy`: ASCII lower-casing and JavaScript truthiness of optional strings.
- `seqs.dfy`: `FindIndex`, the `Array.prototype.find` scan. It is specified by the
  `IsFirst` and `NoneMatch` predicates.

The collaborators are parameters:

- `getInfo` and `getStream` are the functions `GetM3u8` is given.
- For `getPlayerUrl`, the HTTP fetch becomes a success flag and the page text, and
  the DOM becomes the sequence of script bodies. The environment variable
  `DEFAULT_PLAYER_URL` is an optional string.

## Model

| member | source | states |
|---|---|---|
| Seqs.FindIndex | controllers/getM3u8.ts:48-50 | `find` returns the earliest element satisfying the predicate, and returns nothing exactly when no element does |
| Seqs.FindIndexIsFirst | controllers/getM3u8.ts:60-62 | the first match is unique, so any earliest matching position is the one the scan returns |
| Text.Lower | controllers/getM3u8.ts:73 | folding keeps the length and turns each ASCII capital into its small letter, leaving every other character alone |
| Text.LowerIdempotent | controllers/getM3u8.ts:72-74 | folding an already folded key changes nothing |
| Playlist.Titles | controllers/getM3u8.ts:55 | the title list has one entry per item, in order, each that item's title, empty ones included |
| Playlist.NonEmptyTitles | controllers/getM3u8.ts:77-81 | the list of available languages holds exactly the non-empty titles: no empty entry, every non-empty title present, and nothing that is not a child's title |
| Playlist.NonEmptyTitlesAppend | controllers/getM3u8.ts:107-111 | filtering then mapping titles keeps the input order (it distributes over concatenation) |
| Playlist.SeriesLookup | controllers/getM3u8.ts:46-86 | a season failure lists every top-level title. A success is a series match with a non-empty file, whose season title is a top-level title, whose language title folds to the requested language, and whose language title, when non-empty, is among the listed languages |
| Playlist.MovieLookup | controllers/getM3u8.ts:128-137 | the outcome is a match or a language failure. A failure lists every top-level title. A match is a movie match with a non-empty file, whose title folds to the requested language and is among the listed titles, which are every top-level title |
| Playlist.Navigate | controllers/getM3u8.ts:46-86 | a found leaf has a non-empty file and a title that folds to the requested language. The leaf is a series match exactly when both season and episode are truthy. Season and episode failures only happen in series mode. A movie-mode language failure lists every top-level title |
| Playlist.SeasonNotFound | controllers/getM3u8.ts:48-57 | when no season matches by `"Season "+season` or by id, or the first match has no folder, the answer is a season failure listing every top-level title in order, empty ones included |
| Playlist.EpisodeNotFound | controllers/getM3u8.ts:60-69 | inside the first matching season, when no episode matches by label or `season-episode` id, or the first match has no folder, the answer is an episode failure with no alternatives |
| Playlist.SeriesLanguageNotFound | controllers/getM3u8.ts:72-86 | when no child matches the folded language, or the first match has an absent or empty file, the answer lists the episode's non-empty child titles |
| Playlist.SeriesFound | controllers/getM3u8.ts:88-112 | along the first matching season, episode and language with a non-empty file, the answer is that file with the season, episode and language titles verbatim and the non-empty child titles |
| Playlist.SeriesFoundOnlyOnPath | controllers/getM3u8.ts:46-86 | a series lookup succeeds only along such a first-match path |
| Playlist.LoneSelectorIsMovie | controllers/getM3u8.ts:46 | a lone season or lone episode is movie mode: the lookup is the one made with no selectors, and any match is a movie match |
| Playlist.MovieOutcome | controllers/getM3u8.ts:126-137 | in movie mode the first top-level item whose folded title equals the folded language decides. No match, or a match with an absent or empty file, gives a failure listing every top-level title. Otherwise the answer is its file, its title and every top-level title |
| Playlist.LanguageFoldInvariant | controllers/getM3u8.ts:72-74 | two language spellings that fold alike give the same lookup, in both modes |
| Playlist.LookupIgnoresLangCase | controllers/getM3u8.ts:72-74 | looking up the folded language gives the same result as looking up the language as given |
| Playlist.FirstSeasonWins | controllers/getM3u8.ts:48-57 | of two seasons with the same title the earlier one is taken, even when it has no folder and the later one has |
| Playlist.SeasonTitleNotFolded | controllers/getM3u8.ts:48-50 | season titles are compared exactly: `"season 1"` is not season `"1"` |
| Playlist.LanguageTitleFolded | controllers/getM3u8.ts:72-74 | language titles are folded: a leaf titled `"FRENCH"` answers `"french"` and is echoed as `"FRENCH"` |
| M3u8.Locate | controllers/getM3u8.ts:32-94 | the resolver is reached exactly when the provider succeeded with data and the lookup found a leaf. It is asked for that leaf's file and the provider's key. The media-info failure happens exactly when the provider fails or returns no data. Every other stop is a failure |
| M3u8.Shape | controllers/getM3u8.ts:98-120 | the answer fails exactly when the reply is unsuccessful or has no link. The error is the reply's message if truthy, else `"Unknown error"`. A success echoes the link and the matched titles, in series form exactly for a series match |
| M3u8.GetM3u8 | controllers/getM3u8.ts:25-41 | a missing or empty id gives the missing-id failure, and only it does. The media-info failure is returned exactly when the id is given and the provider fails or returns no data |
| M3u8.ProviderFailureResponse | controllers/getM3u8.ts:36-41 | with an id, a failed or data-less provider reply gives the media-info failure whatever the selectors |
| M3u8.SeasonMissResponse | controllers/getM3u8.ts:52-57 | in series mode, with no matching season or a folderless first match, the response is the season failure with the requested season and every top-level title |
| M3u8.EpisodeMissResponse | controllers/getM3u8.ts:64-69 | in series mode, with no matching episode in the first matching season or a folderless first match, the response is the episode failure with the requested episode and season |
| M3u8.SeriesLanguageMissResponse | controllers/getM3u8.ts:76-86 | in series mode, with no child matching the folded language or a first match without a file, the response is the language failure with the language as requested and the episode's non-empty child titles |
| M3u8.MovieLanguageMissResponse | controllers/getM3u8.ts:132-137 | in movie mode, with no top-level item matching the folded language or a first match without a file, the response is the language failure with the language as requested and every top-level title |
| M3u8.AbsentLangIsEnglish | controllers/getM3u8.ts:23 | a query without a language is answered exactly as the same query with the language `English` |
| M3u8.ResolverSeesOnlyLeafAndKey | controllers/getM3u8.ts:88-94 | two resolvers can lead to different answers only if the id is given, the provider succeeded, the lookup found a leaf, and they answer differently for exactly that leaf's file and key |
| M3u8.SeriesEndToEnd | controllers/getM3u8.ts:46-125 | along a full series path the handler answers with the resolver's link and the three titles, or with the resolver's error |
| M3u8.MovieEndToEnd | controllers/getM3u8.ts:126-170 | in movie mode the first top-level item with the folded language and a non-empty file goes to the resolver with the key. The answer is the resolver's link with that item's title and every top-level title, or the resolver's error |
| M3u8.GermanMissingExample | controllers/getM3u8.ts:72-86 | on a tree whose episode has a `French` leaf and an untitled one, asking for `German` fails listing only `["French"]` |
| M3u8.FrenchFoundExample | controllers/getM3u8.ts:88-113 | on the same tree, asking for `French` calls the resolver with `abc.m3u8` and `k1`, and its link is echoed with the titles |
| M3u8.EmptyLangNotDefaulted | controllers/getM3u8.ts:23-130 | an empty language is not replaced by the default: on a playlist with an `English` item and an untitled one it selects the untitled one |
| M3u8.AbsentLangSelectsEnglish | controllers/getM3u8.ts:23-130 | on the same playlist, an absent language selects the `English` item |
| PlayerUrl.IsSpace | lib/getPlayerUrl.ts:13-22 | space, tab, line feed, carriage return and the Unicode spaces are white space; `=`, quotes and ASCII letters are not, so a greedy run of white space never has to give characters back |
| PlayerUrl.FoldedConstKeyword | lib/getPlayerUrl.ts:13 | the case-insensitive keyword `const` is compared against its own fold |
| PlayerUrl.FoldedMarkerKeyword | lib/getPlayerUrl.ts:13 | the marker `AwsIndStreamDomain` is compared against its fold `awsindstreamdomain` |
| PlayerUrl.MatchHere | lib/getPlayerUrl.ts:13 | any capture of either pattern is non-empty and contains no quote |
| PlayerUrl.RenderMatches | lib/getPlayerUrl.ts:13 | every text of the form keyword, white space, marker, optional space, `=`, optional space, quote, quote-free value, quote (any case, any continuation) is matched at its start, and the capture is the value |
| PlayerUrl.MatchIsRendered | lib/getPlayerUrl.ts:22 | every match at a position is the start of such a text whose value is the capture |
| PlayerUrl.CaptureDetermined | lib/getPlayerUrl.ts:13 | two ways of reading the same text as an assignment give the same value, so the capture needs no backtracking |
| PlayerUrl.FirstMatch | lib/getPlayerUrl.ts:13 | the search returns the leftmost position where the pattern matches and its capture, or reports that it matches nowhere |
| PlayerUrl.FirstMatchRendered | lib/getPlayerUrl.ts:13 | after a stretch in which the pattern matches nowhere, a well-formed assignment is the first match |
| PlayerUrl.ScriptMatch | lib/getPlayerUrl.ts:17-27 | the script capture is absent exactly when no script matches, and otherwise it comes from the first script that does |
| PlayerUrl.StripTrailingSlash | lib/getPlayerUrl.ts:36 | the result is a prefix at most one character shorter, and it is shorter exactly when the input ends in `/` |
| PlayerUrl.StripRemovesOneSlash | lib/getPlayerUrl.ts:36 | only one slash goes: `"a//"` becomes `"a/"` |
| PlayerUrl.Discover | lib/getPlayerUrl.ts:13-36 | success is quote-free, and the only failure is the not-found error |
| PlayerUrl.GetPlayerUrl | lib/getPlayerUrl.ts:4-46 | it fails only without a truthy default. The error is the fetch failure when the page could not be fetched, else not-found. After a failed fetch the only success is the default verbatim |
| PlayerUrl.PageAssignmentWins | lib/getPlayerUrl.ts:13-15 | the leftmost strict assignment in the page decides, slash-stripped, whatever the scripts and the default |
| PlayerUrl.ScriptAssignmentWins | lib/getPlayerUrl.ts:15-33 | with no strict match in the page and no match in earlier scripts, the first assignment in this script decides, verbatim. Later scripts and the default play no part |
| PlayerUrl.DefaultDecides | lib/getPlayerUrl.ts:29-44 | with nothing found, or no page, a truthy default is returned verbatim; otherwise the error propagates |

## Left out

- `routes/route.ts` (the HTTP routing) is not part of this model.
- The media-info provider and the stream resolver are not part of this model. They appear only as the function parameters `getInfo` and `getStream`. The model keeps only what the handler reads from their replies.
- `axios`, `cheerio`, `process.env` and `console.error` are not modelled. The fetch becomes a success flag and a page, the DOM becomes the script bodies, and the environment becomes an optional default. The script bodies are not derived from the page.
- The generic `catch` of `getM3u8` (controllers/getM3u8.ts:173-180) is not modelled. It only fires on exceptions from the collaborators or from malformed provider data, and neither can occur in the typed model.
- Query values that are arrays or objects (as Express allows) are not modelled; each selector is an optional string.
- Message texts and their `join(", ")` are not modelled. Failures carry the values the messages interpolate instead.
- `PlaylistItem.title` is always a string. The `?.` on it in the source guards a case the declared interface excludes.
- Text.Lower: folds ASCII letters only, because JavaScript's `toLowerCase` applies the full Unicode case mapping, which is not modelled. For the two keywords of the regular expressions this is exact, since a non-Unicode `/i` regex never folds a non-ASCII character onto an ASCII one. For language titles it is weaker: two non-ASCII titles that differ only in case do not match in the model.
- Playlist.LanguageFoldInvariant: stated for the ASCII fold of Text.Lower, for the same reason.
- Only the tier-1 capture is slash-stripped (lib/getPlayerUrl.ts:36); the tier-2 capture is returned as found (lib/getPlayerUrl.ts:33). Movie mode lists every top-level title, empty ones included (controllers/getM3u8.ts:135, 156), while series mode lists only the non-empty ones.
- A tier-1 capture of exactly `/` becomes the empty string and is returned as such. The source does this too.
