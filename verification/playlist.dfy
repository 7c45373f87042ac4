/**
 * The playlist tree returned by the media-info provider and the three-level
 * lookup (season, episode, language) that `getM3u8` performs on it, plus the
 * single language lookup of movie mode.
 */
module Playlist {
  import opened Wrappers
  import opened Text
  import opened Seqs

  /** One node of the loosely typed playlist: a season, an episode or a language leaf. */
  datatype PlaylistItem = PlaylistItem(
    title: string,
    file: Option<string>,
    id: string,
    folder: Option<seq<PlaylistItem>>,
    episode: Option<string>)

  /** What a successful lookup hands on: the leaf's file and the titles echoed to the caller. */
  datatype Match =
    | SeriesMatch(file: string, season: string, episode: string, language: string, languages: seq<string>)
    | MovieMatch(file: string, language: string, languages: seq<string>)

  /** Outcome of a lookup: the level that failed with its diagnostic, or the match. */
  datatype Lookup =
    | SeasonMissing(seasons: seq<string>)
    | EpisodeMissing
    | LanguageMissing(languages: seq<string>)
    | Found(leaf: Match)

  /** A season is named `"Season " + season` or carries `season` as its id; no folding. */
  function SeasonPred(season: string): PlaylistItem -> bool
  {
    (item: PlaylistItem) => item.title == "Season " + season || item.id == season
  }

  /** An episode carries `episode` as its label or `season-episode` as its id; no folding. */
  function EpisodePred(season: string, episode: string): PlaylistItem -> bool
  {
    (item: PlaylistItem) => item.episode == Some(episode) || item.id == season + "-" + episode
  }

  /** A language node whose folded title equals the (already folded) key. */
  function LanguagePred(key: string): PlaylistItem -> bool
  {
    (item: PlaylistItem) => Lower(item.title) == key
  }

  /** Every title, in order, empty ones included. */
  function Titles(items: seq<PlaylistItem>): (r: seq<string>)
    ensures |r| == |items|
    ensures forall i :: 0 <= i < |items| ==> r[i] == items[i].title
  {
    if items == [] then [] else [items[0].title] + Titles(items[1..])
  }

  /** The titles that are not empty, in their original order. */
  function NonEmptyTitles(items: seq<PlaylistItem>): (r: seq<string>)
    ensures |r| <= |items|
    ensures forall t :: t in r ==> t != ""
    ensures forall i :: 0 <= i < |items| && items[i].title != "" ==> items[i].title in r
    ensures forall t :: t in r ==> exists i :: 0 <= i < |items| && items[i].title == t
  {
    if items == [] then []
    else
      var rest := NonEmptyTitles(items[1..]);
      assert forall i :: 1 <= i < |items| ==> items[1..][i - 1] == items[i];
      if items[0].title != "" then [items[0].title] + rest else rest
  }

  /** Filtering commutes with concatenation, so the input order is kept. */
  lemma {:induction false} NonEmptyTitlesAppend(a: seq<PlaylistItem>, b: seq<PlaylistItem>)
    ensures NonEmptyTitles(a + b) == NonEmptyTitles(a) + NonEmptyTitles(b)
  {
    if a == [] {
      assert a + b == b;
    } else {
      assert (a + b)[1..] == a[1..] + b;
      NonEmptyTitlesAppend(a[1..], b);
    }
  }

  /** Series mode requires both selectors to be truthy. */
  predicate IsSeries(season: Option<string>, episode: Option<string>)
  {
    Truthy(season) && Truthy(episode)
  }

  /** Season, then episode, then language, each a first match in input order. */
  function SeriesLookup(playlist: seq<PlaylistItem>, season: string, episode: string, lang: string): (r: Lookup)
    ensures r.SeasonMissing? ==> r.seasons == Titles(playlist)
    ensures r.Found? ==> r.leaf.SeriesMatch? && r.leaf.file != ""
    ensures r.Found? ==> r.leaf.season in Titles(playlist) && Lower(r.leaf.language) == Lower(lang)
    ensures r.Found? && r.leaf.language != "" ==> r.leaf.language in r.leaf.languages
  {
    match FindIndex(playlist, SeasonPred(season))
    case None => SeasonMissing(Titles(playlist))
    case Some(i) =>
      match playlist[i].folder
      case None => SeasonMissing(Titles(playlist))
      case Some(episodes) =>
        match FindIndex(episodes, EpisodePred(season, episode))
        case None => EpisodeMissing
        case Some(j) =>
          match episodes[j].folder
          case None => EpisodeMissing
          case Some(streams) =>
            match FindIndex(streams, LanguagePred(Lower(lang)))
            case None => LanguageMissing(NonEmptyTitles(streams))
            case Some(k) =>
              if Truthy(streams[k].file) then
                Found(SeriesMatch(streams[k].file.value, playlist[i].title, episodes[j].title,
                                  streams[k].title, NonEmptyTitles(streams)))
              else LanguageMissing(NonEmptyTitles(streams))
  }

  /** One language lookup over the top-level items; diagnostics list every title. */
  function MovieLookup(playlist: seq<PlaylistItem>, lang: string): (r: Lookup)
    ensures r.Found? || r.LanguageMissing?
    ensures r.LanguageMissing? ==> r.languages == Titles(playlist)
    ensures r.Found? ==> r.leaf.MovieMatch? && r.leaf.file != "" && r.leaf.languages == Titles(playlist)
    ensures r.Found? ==> r.leaf.language in r.leaf.languages && Lower(r.leaf.language) == Lower(lang)
  {
    match FindIndex(playlist, LanguagePred(Lower(lang)))
    case None => LanguageMissing(Titles(playlist))
    case Some(k) =>
      if Truthy(playlist[k].file) then
        Found(MovieMatch(playlist[k].file.value, playlist[k].title, Titles(playlist)))
      else LanguageMissing(Titles(playlist))
  }

  /** The lookup `getM3u8` performs once the provider has returned a playlist. */
  function Navigate(playlist: seq<PlaylistItem>, season: Option<string>, episode: Option<string>, lang: string): (r: Lookup)
    ensures r.Found? ==> r.leaf.file != ""
    ensures r.Found? ==> (r.leaf.SeriesMatch? <==> IsSeries(season, episode))
    ensures r.SeasonMissing? || r.EpisodeMissing? ==> IsSeries(season, episode)
    ensures r.LanguageMissing? && !IsSeries(season, episode) ==> r.languages == Titles(playlist)
    ensures r.Found? ==> Lower(r.leaf.language) == Lower(lang)
  {
    if IsSeries(season, episode) then SeriesLookup(playlist, season.value, episode.value, lang)
    else MovieLookup(playlist, lang)
  }

  // ----- Series mode, level by level -----

  /** The season level fails, with every top-level title, when no season matches
      or the first matching one has no folder. */
  lemma SeasonNotFound(playlist: seq<PlaylistItem>, season: string, episode: string, lang: string, i: int)
    requires season != "" && episode != ""
    requires NoneMatch(playlist, SeasonPred(season))
          || (IsFirst(playlist, SeasonPred(season), i) && playlist[i].folder.None?)
    ensures Navigate(playlist, Some(season), Some(episode), lang) == SeasonMissing(Titles(playlist))
  {
    if !NoneMatch(playlist, SeasonPred(season)) {
      FindIndexIsFirst(playlist, SeasonPred(season), i);
    }
  }

  /** The episode level fails, with no list of alternatives, when the first matching
      season has a folder but no episode in it matches or the first match has no folder. */
  lemma EpisodeNotFound(playlist: seq<PlaylistItem>, season: string, episode: string, lang: string,
                        i: int, episodes: seq<PlaylistItem>, j: int)
    requires season != "" && episode != ""
    requires IsFirst(playlist, SeasonPred(season), i) && playlist[i].folder == Some(episodes)
    requires NoneMatch(episodes, EpisodePred(season, episode))
          || (IsFirst(episodes, EpisodePred(season, episode), j) && episodes[j].folder.None?)
    ensures Navigate(playlist, Some(season), Some(episode), lang) == EpisodeMissing
  {
    FindIndexIsFirst(playlist, SeasonPred(season), i);
    if !NoneMatch(episodes, EpisodePred(season, episode)) {
      FindIndexIsFirst(episodes, EpisodePred(season, episode), j);
    }
  }

  /** The language level fails, listing the non-empty titles of the episode's children,
      when no child matches the folded language or the first match has no usable file. */
  lemma SeriesLanguageNotFound(playlist: seq<PlaylistItem>, season: string, episode: string, lang: string,
                               i: int, episodes: seq<PlaylistItem>, j: int, streams: seq<PlaylistItem>, k: int)
    requires season != "" && episode != ""
    requires IsFirst(playlist, SeasonPred(season), i) && playlist[i].folder == Some(episodes)
    requires IsFirst(episodes, EpisodePred(season, episode), j) && episodes[j].folder == Some(streams)
    requires NoneMatch(streams, LanguagePred(Lower(lang)))
          || (IsFirst(streams, LanguagePred(Lower(lang)), k) && !Truthy(streams[k].file))
    ensures Navigate(playlist, Some(season), Some(episode), lang) == LanguageMissing(NonEmptyTitles(streams))
  {
    FindIndexIsFirst(playlist, SeasonPred(season), i);
    FindIndexIsFirst(episodes, EpisodePred(season, episode), j);
    if !NoneMatch(streams, LanguagePred(Lower(lang))) {
      FindIndexIsFirst(streams, LanguagePred(Lower(lang)), k);
    }
  }

  /** A full series path: the first matching season, episode and language, the last
      with a non-empty file. */
  ghost predicate SeriesPath(playlist: seq<PlaylistItem>, season: string, episode: string, lang: string,
                             i: int, j: int, k: int)
  {
    && IsFirst(playlist, SeasonPred(season), i)
    && playlist[i].folder.Some?
    && IsFirst(playlist[i].folder.value, EpisodePred(season, episode), j)
    && playlist[i].folder.value[j].folder.Some?
    && IsFirst(playlist[i].folder.value[j].folder.value, LanguagePred(Lower(lang)), k)
    && Truthy(playlist[i].folder.value[j].folder.value[k].file)
  }

  /** Series success: along a full path the leaf's exact file and the three titles are
      returned verbatim, with the episode's non-empty child titles. */
  lemma SeriesFound(playlist: seq<PlaylistItem>, season: string, episode: string, lang: string, i: int, j: int, k: int)
    requires season != "" && episode != ""
    requires SeriesPath(playlist, season, episode, lang, i, j, k)
    ensures
      var episodes := playlist[i].folder.value;
      var streams := episodes[j].folder.value;
      Navigate(playlist, Some(season), Some(episode), lang)
        == Found(SeriesMatch(streams[k].file.value, playlist[i].title, episodes[j].title,
                             streams[k].title, NonEmptyTitles(streams)))
  {
    var episodes := playlist[i].folder.value;
    FindIndexIsFirst(playlist, SeasonPred(season), i);
    FindIndexIsFirst(episodes, EpisodePred(season, episode), j);
    FindIndexIsFirst(episodes[j].folder.value, LanguagePred(Lower(lang)), k);
  }

  /** A series lookup succeeds only along a full path. */
  lemma SeriesFoundOnlyOnPath(playlist: seq<PlaylistItem>, season: string, episode: string, lang: string)
    requires season != "" && episode != ""
    requires Navigate(playlist, Some(season), Some(episode), lang).Found?
    ensures exists i, j, k :: SeriesPath(playlist, season, episode, lang, i, j, k)
  {
    var i := FindIndex(playlist, SeasonPred(season)).value;
    var episodes := playlist[i].folder.value;
    var j := FindIndex(episodes, EpisodePred(season, episode)).value;
    var k := FindIndex(episodes[j].folder.value, LanguagePred(Lower(lang))).value;
    assert SeriesPath(playlist, season, episode, lang, i, j, k);
  }

  // ----- Movie mode -----

  /** A lone season or a lone episode is not series mode: the top-level items are
      searched for the language, exactly as with no selectors at all. */
  lemma LoneSelectorIsMovie(playlist: seq<PlaylistItem>, season: Option<string>, episode: Option<string>, lang: string)
    requires !Truthy(season) || !Truthy(episode)
    ensures Navigate(playlist, season, episode, lang) == Navigate(playlist, None, None, lang)
    ensures Navigate(playlist, season, episode, lang).Found? ==> Navigate(playlist, season, episode, lang).leaf.MovieMatch?
  {
  }

  /** Movie mode, both outcomes: the first top-level item whose folded title equals
      the folded language decides; a missing or empty file counts as not found. */
  lemma MovieOutcome(playlist: seq<PlaylistItem>, lang: string, k: int)
    requires NoneMatch(playlist, LanguagePred(Lower(lang))) || IsFirst(playlist, LanguagePred(Lower(lang)), k)
    ensures NoneMatch(playlist, LanguagePred(Lower(lang))) || !Truthy(playlist[k].file) ==>
      Navigate(playlist, None, None, lang) == LanguageMissing(Titles(playlist))
    ensures IsFirst(playlist, LanguagePred(Lower(lang)), k) && Truthy(playlist[k].file) ==>
      Navigate(playlist, None, None, lang)
        == Found(MovieMatch(playlist[k].file.value, playlist[k].title, Titles(playlist)))
  {
    if !NoneMatch(playlist, LanguagePred(Lower(lang))) {
      FindIndexIsFirst(playlist, LanguagePred(Lower(lang)), k);
    }
  }

  /** Only the folded language matters: two spellings that fold alike look up alike. */
  lemma LanguageFoldInvariant(playlist: seq<PlaylistItem>, season: Option<string>, episode: Option<string>,
                              lang1: string, lang2: string)
    requires Lower(lang1) == Lower(lang2)
    ensures Navigate(playlist, season, episode, lang1) == Navigate(playlist, season, episode, lang2)
  {
  }

  /** The language may be given folded or not: looking up its fold looks up the same thing. */
  lemma LookupIgnoresLangCase(playlist: seq<PlaylistItem>, season: Option<string>, episode: Option<string>, lang: string)
    ensures Navigate(playlist, season, episode, Lower(lang)) == Navigate(playlist, season, episode, lang)
  {
    LowerIdempotent(lang);
    LanguageFoldInvariant(playlist, season, episode, Lower(lang), lang);
  }

  /** Of two top-level seasons with the same title, the earlier one is taken. */
  lemma FirstSeasonWins(a: PlaylistItem, b: PlaylistItem, season: string, episode: string, lang: string)
    requires season != "" && episode != ""
    requires a.title == b.title == "Season " + season && a.folder.None? && b.folder.Some?
    ensures Navigate([a, b], Some(season), Some(episode), lang) == SeasonMissing([a.title, b.title])
  {
    SeasonNotFound([a, b], season, episode, lang, 0);
  }

  /** Season titles are compared exactly: a season titled `"season 1"` is not season `"1"`. */
  lemma SeasonTitleNotFolded(ep: PlaylistItem, lang: string)
    ensures
      var lower := PlaylistItem("season 1", None, "s", Some([ep]), None);
      Navigate([lower], Some("1"), Some("2"), lang) == SeasonMissing(["season 1"])
  {
    var lower := PlaylistItem("season 1", None, "s", Some([ep]), None);
    assert "season 1"[0] != ("Season " + "1")[0];
    SeasonNotFound([lower], "1", "2", lang, 0);
  }

  /** Language titles are folded: a leaf titled `"FRENCH"` answers the language `"french"`. */
  lemma LanguageTitleFolded()
    ensures
      var leaf := PlaylistItem("FRENCH", Some("f.m3u8"), "l", None, None);
      var ep := PlaylistItem("Episode 2", None, "1-2", Some([leaf]), Some("2"));
      var season := PlaylistItem("Season 1", None, "s", Some([ep]), None);
      Navigate([season], Some("1"), Some("2"), "french")
        == Found(SeriesMatch("f.m3u8", "Season 1", "Episode 2", "FRENCH", ["FRENCH"]))
  {
    var leaf := PlaylistItem("FRENCH", Some("f.m3u8"), "l", None, None);
    var ep := PlaylistItem("Episode 2", None, "1-2", Some([leaf]), Some("2"));
    var season := PlaylistItem("Season 1", None, "s", Some([ep]), None);
    FoldsTo("FRENCH", "french");
    FoldsTo("french", "french");
    assert SeriesPath([season], "1", "2", "french", 0, 0, 0);
    SeriesFound([season], "1", "2", "french", 0, 0, 0);
    assert NonEmptyTitles([leaf]) == ["FRENCH"];
  }
}
