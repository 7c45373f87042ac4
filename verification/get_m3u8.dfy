/**
 * The `getM3u8` handler: checks the catalog id, asks the media-info provider
 * for the playlist, navigates it, hands the leaf's file and the provider's key
 * to the stream resolver and shapes the final response. The two collaborators
 * are function parameters, so what they are asked is visible in the model.
 */
module M3u8 {
  import opened Wrappers
  import opened Text
  import opened Seqs
  import opened Playlist

  /** The query string: every selector is optional. */
  datatype Query = Query(id: Option<string>, season: Option<string>, episode: Option<string>, lang: Option<string>)

  /** The provider's payload: the playlist tree and the session key. */
  datatype MediaData = MediaData(playlist: seq<PlaylistItem>, key: string)

  /** The provider's reply; its message is not used by this handler. */
  datatype MediaInfo = MediaInfo(success: bool, data: Option<MediaData>)

  /** What the stream resolver is asked for. */
  datatype StreamRequest = StreamRequest(file: string, key: string)

  /** The stream resolver's reply; `link` stands for `data?.link`. */
  datatype StreamReply = StreamReply(success: bool, link: Option<string>, message: Option<string>)

  /** Every way the handler can fail, with the values its message interpolates. */
  datatype Failure =
    | MissingId
    | MediaInfoFailed
    | SeasonNotFound(season: string, availableSeasons: seq<string>)
    | EpisodeNotFound(episode: string, season: string)
    | LanguageNotFound(lang: string, availableLanguages: seq<string>)
    | StreamUrlFailed(error: string)

  /** The JSON body sent back to the caller. */
  datatype Response =
    | Failed(failure: Failure)
    | SeriesStream(link: string, season: string, episode: string, language: string, availableLanguages: seq<string>)
    | MovieStream(link: string, language: string, availableLanguages: seq<string>)

  /** Where the handler stands once the provider has answered: done, or about to call the resolver. */
  datatype Step =
    | Respond(response: Response)
    | CallResolver(request: StreamRequest, leaf: Match)

  const DefaultLang: string := "English"
  const UnknownError: string := "Unknown error"

  /** The destructuring default applies only to an absent `lang`; an empty one stays empty. */
  function RequestedLang(q: Query): string
  {
    match q.lang
    case Some(l) => l
    case None => DefaultLang
  }

  /** Everything between the provider's answer and the resolver call. */
  function Locate(q: Query, info: MediaInfo): (st: Step)
    ensures st.CallResolver? <==>
      info.success && info.data.Some?
      && Navigate(info.data.value.playlist, q.season, q.episode, RequestedLang(q)).Found?
    ensures st.CallResolver? ==>
      && st.request == StreamRequest(st.leaf.file, info.data.value.key)
      && Navigate(info.data.value.playlist, q.season, q.episode, RequestedLang(q)) == Found(st.leaf)
    ensures st == Respond(Failed(MediaInfoFailed)) <==> !info.success || info.data.None?
    ensures st.Respond? ==> st.response.Failed?
  {
    if !info.success || info.data.None? then Respond(Failed(MediaInfoFailed))
    else
      var lang := RequestedLang(q);
      match Navigate(info.data.value.playlist, q.season, q.episode, lang)
      case SeasonMissing(seasons) => Respond(Failed(SeasonNotFound(q.season.value, seasons)))
      case EpisodeMissing => Respond(Failed(EpisodeNotFound(q.episode.value, q.season.value)))
      case LanguageMissing(languages) => Respond(Failed(LanguageNotFound(lang, languages)))
      case Found(leaf) => CallResolver(StreamRequest(leaf.file, info.data.value.key), leaf)
  }

  /** Turns the resolver's reply into the response, enriched with the matched titles. */
  function Shape(leaf: Match, reply: StreamReply): (r: Response)
    ensures r.Failed? <==> !reply.success || !Truthy(reply.link)
    ensures r.Failed? ==> r.failure.StreamUrlFailed? && r.failure.error != ""
    ensures r.Failed? && Truthy(reply.message) ==> r.failure.error == reply.message.value
    ensures r.Failed? && !Truthy(reply.message) ==> r.failure.error == UnknownError
    ensures !r.Failed? ==> r.link == reply.link.value && r.link != ""
    ensures !r.Failed? ==> (r.SeriesStream? <==> leaf.SeriesMatch?)
    ensures r.SeriesStream? ==>
      r.season == leaf.season && r.episode == leaf.episode && r.language == leaf.language
      && r.availableLanguages == leaf.languages
    ensures r.MovieStream? ==> r.language == leaf.language && r.availableLanguages == leaf.languages
  {
    if reply.success && Truthy(reply.link) then
      match leaf
      case SeriesMatch(_, season, episode, language, languages) =>
        SeriesStream(reply.link.value, season, episode, language, languages)
      case MovieMatch(_, language, languages) =>
        MovieStream(reply.link.value, language, languages)
    else
      Failed(StreamUrlFailed(if Truthy(reply.message) then reply.message.value else UnknownError))
  }

  /** The handler, with the provider and the resolver passed in. */
  function GetM3u8(q: Query, getInfo: string -> MediaInfo, getStream: StreamRequest -> StreamReply): (r: Response)
    ensures !Truthy(q.id) ==> r == Failed(MissingId)
    ensures r.Failed? && r.failure.MissingId? ==> !Truthy(q.id)
    ensures r == Failed(MediaInfoFailed) <==>
      Truthy(q.id) && (!getInfo(q.id.value).success || getInfo(q.id.value).data.None?)
  {
    if !Truthy(q.id) then Failed(MissingId)
    else
      match Locate(q, getInfo(q.id.value))
      case Respond(response) => response
      case CallResolver(request, leaf) => Shape(leaf, getStream(request))
  }

  // ----- Which failure each kind of miss produces -----

  /** A provider failure is reported as such, whatever the selectors. */
  lemma ProviderFailureResponse(q: Query, getInfo: string -> MediaInfo, getStream: StreamRequest -> StreamReply)
    requires Truthy(q.id)
    requires !getInfo(q.id.value).success || getInfo(q.id.value).data.None?
    ensures GetM3u8(q, getInfo, getStream) == Failed(MediaInfoFailed)
  {
  }

  /** A season miss reports the requested season and every top-level title. */
  lemma SeasonMissResponse(q: Query, getInfo: string -> MediaInfo, getStream: StreamRequest -> StreamReply,
                           data: MediaData, i: int)
    requires Truthy(q.id) && Truthy(q.season) && Truthy(q.episode)
    requires getInfo(q.id.value) == MediaInfo(true, Some(data))
    requires NoneMatch(data.playlist, SeasonPred(q.season.value))
          || (IsFirst(data.playlist, SeasonPred(q.season.value), i) && data.playlist[i].folder.None?)
    ensures GetM3u8(q, getInfo, getStream) == Failed(SeasonNotFound(q.season.value, Titles(data.playlist)))
  {
    Playlist.SeasonNotFound(data.playlist, q.season.value, q.episode.value, RequestedLang(q), i);
  }

  /** An episode miss reports the requested episode and season, and no alternatives. */
  lemma EpisodeMissResponse(q: Query, getInfo: string -> MediaInfo, getStream: StreamRequest -> StreamReply,
                            data: MediaData, i: int, episodes: seq<PlaylistItem>, j: int)
    requires Truthy(q.id) && Truthy(q.season) && Truthy(q.episode)
    requires getInfo(q.id.value) == MediaInfo(true, Some(data))
    requires IsFirst(data.playlist, SeasonPred(q.season.value), i) && data.playlist[i].folder == Some(episodes)
    requires NoneMatch(episodes, EpisodePred(q.season.value, q.episode.value))
          || (IsFirst(episodes, EpisodePred(q.season.value, q.episode.value), j) && episodes[j].folder.None?)
    ensures GetM3u8(q, getInfo, getStream) == Failed(EpisodeNotFound(q.episode.value, q.season.value))
  {
    Playlist.EpisodeNotFound(data.playlist, q.season.value, q.episode.value, RequestedLang(q), i, episodes, j);
  }

  /** A series language miss reports the requested language as given and the episode's
      non-empty child titles. */
  lemma SeriesLanguageMissResponse(q: Query, getInfo: string -> MediaInfo, getStream: StreamRequest -> StreamReply,
                                   data: MediaData, i: int, episodes: seq<PlaylistItem>, j: int,
                                   streams: seq<PlaylistItem>, k: int)
    requires Truthy(q.id) && Truthy(q.season) && Truthy(q.episode)
    requires getInfo(q.id.value) == MediaInfo(true, Some(data))
    requires IsFirst(data.playlist, SeasonPred(q.season.value), i) && data.playlist[i].folder == Some(episodes)
    requires IsFirst(episodes, EpisodePred(q.season.value, q.episode.value), j) && episodes[j].folder == Some(streams)
    requires NoneMatch(streams, LanguagePred(Lower(RequestedLang(q))))
          || (IsFirst(streams, LanguagePred(Lower(RequestedLang(q))), k) && !Truthy(streams[k].file))
    ensures GetM3u8(q, getInfo, getStream) == Failed(LanguageNotFound(RequestedLang(q), NonEmptyTitles(streams)))
  {
    SeriesLanguageNotFound(data.playlist, q.season.value, q.episode.value, RequestedLang(q), i, episodes, j, streams, k);
  }

  /** A movie language miss reports the requested language as given and every top-level title. */
  lemma MovieLanguageMissResponse(q: Query, getInfo: string -> MediaInfo, getStream: StreamRequest -> StreamReply,
                                  data: MediaData, k: int)
    requires Truthy(q.id) && !IsSeries(q.season, q.episode)
    requires getInfo(q.id.value) == MediaInfo(true, Some(data))
    requires NoneMatch(data.playlist, LanguagePred(Lower(RequestedLang(q))))
          || (IsFirst(data.playlist, LanguagePred(Lower(RequestedLang(q))), k) && !Truthy(data.playlist[k].file))
    ensures GetM3u8(q, getInfo, getStream) == Failed(LanguageNotFound(RequestedLang(q), Titles(data.playlist)))
  {
    LoneSelectorIsMovie(data.playlist, q.season, q.episode, RequestedLang(q));
    MovieOutcome(data.playlist, RequestedLang(q), k);
  }

  // ----- The language default -----

  /** An absent language behaves exactly like an explicit `English`. */
  lemma AbsentLangIsEnglish(q: Query, getInfo: string -> MediaInfo, getStream: StreamRequest -> StreamReply)
    ensures GetM3u8(q.(lang := None), getInfo, getStream) == GetM3u8(q.(lang := Some("English")), getInfo, getStream)
  {
  }

  /** The resolver can influence the response only after a full successful lookup, and
      only through its answer to exactly the leaf's file and the provider's key. */
  lemma ResolverSeesOnlyLeafAndKey(q: Query, getInfo: string -> MediaInfo,
                                   getStream1: StreamRequest -> StreamReply, getStream2: StreamRequest -> StreamReply)
    ensures GetM3u8(q, getInfo, getStream1) != GetM3u8(q, getInfo, getStream2) ==>
      && Truthy(q.id)
      && var info := getInfo(q.id.value);
      && info.success && info.data.Some?
      && var found := Navigate(info.data.value.playlist, q.season, q.episode, RequestedLang(q));
      && found.Found?
      && var request := StreamRequest(found.leaf.file, info.data.value.key);
      getStream1(request) != getStream2(request)
  {
  }

  /** End to end in series mode: along a full path the resolver receives the leaf's file
      and the key, and a successful reply echoes the link and the three titles. */
  lemma SeriesEndToEnd(q: Query, getInfo: string -> MediaInfo, getStream: StreamRequest -> StreamReply,
                       data: MediaData, i: int, j: int, k: int)
    requires Truthy(q.id) && Truthy(q.season) && Truthy(q.episode)
    requires getInfo(q.id.value) == MediaInfo(true, Some(data))
    requires SeriesPath(data.playlist, q.season.value, q.episode.value, RequestedLang(q), i, j, k)
    ensures
      var episodes := data.playlist[i].folder.value;
      var streams := episodes[j].folder.value;
      var reply := getStream(StreamRequest(streams[k].file.value, data.key));
      GetM3u8(q, getInfo, getStream)
        == if reply.success && Truthy(reply.link) then
             SeriesStream(reply.link.value, data.playlist[i].title, episodes[j].title, streams[k].title,
                          NonEmptyTitles(streams))
           else Failed(StreamUrlFailed(if Truthy(reply.message) then reply.message.value else UnknownError))
  {
    SeriesFound(data.playlist, q.season.value, q.episode.value, RequestedLang(q), i, j, k);
  }

  /** End to end in movie mode: the first top-level item with the folded language and a
      non-empty file is handed to the resolver with the key, and a successful reply echoes
      the link, that item's title and every top-level title. */
  lemma MovieEndToEnd(q: Query, getInfo: string -> MediaInfo, getStream: StreamRequest -> StreamReply,
                      data: MediaData, k: int)
    requires Truthy(q.id) && !IsSeries(q.season, q.episode)
    requires getInfo(q.id.value) == MediaInfo(true, Some(data))
    requires IsFirst(data.playlist, LanguagePred(Lower(RequestedLang(q))), k) && Truthy(data.playlist[k].file)
    ensures
      var reply := getStream(StreamRequest(data.playlist[k].file.value, data.key));
      GetM3u8(q, getInfo, getStream)
        == if reply.success && Truthy(reply.link) then
             MovieStream(reply.link.value, data.playlist[k].title, Titles(data.playlist))
           else Failed(StreamUrlFailed(if Truthy(reply.message) then reply.message.value else UnknownError))
  {
    LoneSelectorIsMovie(data.playlist, q.season, q.episode, RequestedLang(q));
    MovieOutcome(data.playlist, RequestedLang(q), k);
  }

  /** The worked example's tree: Season 1, episode 2, a French leaf and an untitled one. */
  function ExampleStreams(): seq<PlaylistItem>
  {
    [PlaylistItem("French", Some("abc.m3u8"), "fr", None, None),
     PlaylistItem("", Some("x.m3u8"), "xx", None, None)]
  }

  function ExampleEpisode(): PlaylistItem
  {
    PlaylistItem("Episode 2", None, "1-2", Some(ExampleStreams()), Some("2"))
  }

  function ExampleSeasons(): seq<PlaylistItem>
  {
    [PlaylistItem("Season 1", None, "1", Some([ExampleEpisode()]), None)]
  }

  /** Season `1` and episode `2` lead to the example's streams; only one of them is titled. */
  lemma ExamplePath()
    ensures IsFirst(ExampleSeasons(), SeasonPred("1"), 0) && ExampleSeasons()[0].folder == Some([ExampleEpisode()])
    ensures IsFirst([ExampleEpisode()], EpisodePred("1", "2"), 0) && ExampleEpisode().folder == Some(ExampleStreams())
    ensures NonEmptyTitles(ExampleStreams()) == ["French"]
  {
    var streams := ExampleStreams();
    assert streams[1..] == [streams[1]];
    assert NonEmptyTitles([streams[1]]) == [];
    assert SeasonPred("1")(ExampleSeasons()[0]);
    assert EpisodePred("1", "2")(ExampleEpisode());
  }

  /** `German` folds to nothing among the example's streams. */
  lemma ExampleGermanMissing()
    ensures NoneMatch(ExampleStreams(), LanguagePred(Lower("German")))
  {
    FoldsTo("German", "german");
    FoldsTo("French", "french");
    FoldsTo("", "");
  }

  /** `French` folds to the first of the example's streams. */
  lemma ExampleFrenchFirst()
    ensures IsFirst(ExampleStreams(), LanguagePred(Lower("French")), 0)
  {
    FoldsTo("French", "french");
  }

  /** Asking the example tree for German fails with the one titled language. */
  lemma GermanMissingExample(getInfo: string -> MediaInfo, getStream: StreamRequest -> StreamReply)
    requires getInfo("tt123") == MediaInfo(true, Some(MediaData(ExampleSeasons(), "k1")))
    ensures GetM3u8(Query(Some("tt123"), Some("1"), Some("2"), Some("German")), getInfo, getStream)
              == Failed(LanguageNotFound("German", ["French"]))
  {
    ExamplePath();
    ExampleGermanMissing();
    SeriesLanguageMissResponse(Query(Some("tt123"), Some("1"), Some("2"), Some("German")), getInfo, getStream,
                               MediaData(ExampleSeasons(), "k1"), 0, [ExampleEpisode()], 0, ExampleStreams(), 0);
  }

  /** Asking the example tree for French calls the resolver with `abc.m3u8` and `k1`,
      and a successful reply is echoed with the matched titles. */
  lemma FrenchFoundExample(getInfo: string -> MediaInfo, getStream: StreamRequest -> StreamReply)
    requires getInfo("tt123") == MediaInfo(true, Some(MediaData(ExampleSeasons(), "k1")))
    requires getStream(StreamRequest("abc.m3u8", "k1")) == StreamReply(true, Some("https://x/y.m3u8"), None)
    ensures GetM3u8(Query(Some("tt123"), Some("1"), Some("2"), Some("French")), getInfo, getStream)
              == SeriesStream("https://x/y.m3u8", "Season 1", "Episode 2", "French", ["French"])
  {
    ExamplePath();
    ExampleFrenchFirst();
    var q := Query(Some("tt123"), Some("1"), Some("2"), Some("French"));
    var data := MediaData(ExampleSeasons(), "k1");
    assert SeriesPath(data.playlist, "1", "2", RequestedLang(q), 0, 0, 0);
    SeriesEndToEnd(q, getInfo, getStream, data, 0, 0, 0);
  }

  /** A movie with an English stream and an untitled one. */
  function BlankTitlePlaylist(): seq<PlaylistItem>
  {
    [PlaylistItem("English", Some("en.m3u8"), "en", None, None),
     PlaylistItem("", Some("blank.m3u8"), "b", None, None)]
  }

  /** On that playlist the empty language selects the untitled item and `English` the first. */
  lemma BlankTitleLanguages()
    ensures Titles(BlankTitlePlaylist()) == ["English", ""]
    ensures IsFirst(BlankTitlePlaylist(), LanguagePred(Lower("")), 1)
    ensures IsFirst(BlankTitlePlaylist(), LanguagePred(Lower("English")), 0)
  {
    FoldsTo("English", "english");
    FoldsTo("", "");
  }

  /** An empty language is not replaced by the default: it selects the untitled stream. */
  lemma EmptyLangNotDefaulted(getInfo: string -> MediaInfo, getStream: StreamRequest -> StreamReply)
    requires getInfo("tt1") == MediaInfo(true, Some(MediaData(BlankTitlePlaylist(), "k1")))
    requires getStream(StreamRequest("blank.m3u8", "k1")) == StreamReply(true, Some("https://b/x.m3u8"), None)
    ensures GetM3u8(Query(Some("tt1"), None, None, Some("")), getInfo, getStream)
              == MovieStream("https://b/x.m3u8", "", ["English", ""])
  {
    BlankTitleLanguages();
    MovieEndToEnd(Query(Some("tt1"), None, None, Some("")), getInfo, getStream, MediaData(BlankTitlePlaylist(), "k1"), 1);
  }

  /** On the same playlist an absent language selects the English stream. */
  lemma AbsentLangSelectsEnglish(getInfo: string -> MediaInfo, getStream: StreamRequest -> StreamReply)
    requires getInfo("tt1") == MediaInfo(true, Some(MediaData(BlankTitlePlaylist(), "k1")))
    requires getStream(StreamRequest("en.m3u8", "k1")) == StreamReply(true, Some("https://e/x.m3u8"), None)
    ensures GetM3u8(Query(Some("tt1"), None, None, None), getInfo, getStream)
              == MovieStream("https://e/x.m3u8", "English", ["English", ""])
  {
    BlankTitleLanguages();
    MovieEndToEnd(Query(Some("tt1"), None, None, None), getInfo, getStream, MediaData(BlankTitlePlaylist(), "k1"), 0);
  }
}
