/** The per-type item handlers of the plugin: how an Audio or a Movie item is
    turned into presence fields, and how its cover image URL is resolved from
    the answer of an external image service. */
module Handlers {
  import opened Wrappers
  import opened Js
  import Seqs

  datatype ExternalUrl = ExternalUrl(name: string, url: string)

  /** The fields of a media-server item that the handlers read. `providerIds`
      is sparse: a provider may be missing. */
  datatype Item = Item(
    itemType: string,
    id: string,
    name: string,
    artists: seq<string>,
    album: Option<string>,
    productionYear: Option<int>,
    providerIds: map<string, string>,
    externalUrls: seq<ExternalUrl>)

  /** `item.ProviderIds[key]` is truthy: present and not the empty string. */
  predicate HasProvider(item: Item, key: string)
  {
    key in item.providerIds && item.providerIds[key] != ""
  }

  // Discord's activity enumerations, as the handlers use them.
  const ActivityListening := 2
  const ActivityWatching := 3
  const StatusDisplayState := 1
  const StatusDisplayDetails := 2

  const MusicBrainzRecording := "https://musicbrainz.org/recording/"
  const MusicBrainzArtist := "https://musicbrainz.org/artist/"
  const CoverArtRelease := "https://coverartarchive.org/release/"
  const TmdbMovie := "https://api.themoviedb.org/3/movie/"
  const TmdbPosterBase := "http://image.tmdb.org/t/p/w500"

  /** The handlers of the default handler table. */
  datatype Handler = AudioHandler | MovieHandler
  {
    /** The asset name used when no image URL was resolved. */
    function Icon(): string
    {
      match this
      case AudioHandler => "audio"
      case MovieHandler => "movie"
    }
  }

  /** `handlers[itemType]`: the table holds exactly `Audio` and `Movie`. */
  function HandlerFor(itemType: string): (h: Option<Handler>)
    ensures h == Some(AudioHandler) <==> itemType == "Audio"
    ensures h == Some(MovieHandler) <==> itemType == "Movie"
    ensures h == None <==> itemType != "Audio" && itemType != "Movie"
  {
    if itemType == "Audio" then Some(AudioHandler)
    else if itemType == "Movie" then Some(MovieHandler)
    else None
  }

  /** `providers[key] ? prefix + providers[key] : undefined`. */
  function ProviderLink(prefix: string, item: Item, key: string): (v: Value)
    ensures v == Undefined <==> !HasProvider(item, key)
    ensures v != Undefined ==>
              v.Str? && |prefix| < |v.s| && v.s[..|prefix|] == prefix
              && v.s[|prefix|..] == item.providerIds[key]
  {
    if HasProvider(item, key) then Str(prefix + item.providerIds[key]) else Undefined
  }

  /** `audioHandler.getActivity(item)`. */
  function AudioActivity(item: Item): (r: Record)
    ensures r.Keys == {"type", "statusType", "details", "detailsURL", "state", "stateURL", "image"}
    ensures r["type"] == Num(ActivityListening) && r["statusType"] == Num(StatusDisplayState)
    ensures r["details"] == Str(item.name)
    ensures r["detailsURL"] == ProviderLink(MusicBrainzRecording, item, "MusicBrainzRecording")
    ensures r["state"] == Str(Seqs.Join(item.artists, ", "))
    ensures r["stateURL"] == ProviderLink(MusicBrainzArtist, item, "MusicBrainzArtist")
    ensures r["image"] == OptStr(item.album)
  {
    map[
      "type" := Num(ActivityListening),
      "statusType" := Num(StatusDisplayState),
      "details" := Str(item.name),
      "detailsURL" := ProviderLink(MusicBrainzRecording, item, "MusicBrainzRecording"),
      "state" := Str(Seqs.Join(item.artists, ", ")),
      "stateURL" := ProviderLink(MusicBrainzArtist, item, "MusicBrainzArtist"),
      "image" := OptStr(item.album)
    ]
  }

  /** `movieHandler.getActivity(item)`: `detailsURL` is `item.ExternalUrls[0]?.Url`. */
  function MovieActivity(item: Item): (r: Record)
    ensures r.Keys == {"type", "statusType", "details", "detailsURL", "state"}
    ensures r["type"] == Num(ActivityWatching) && r["statusType"] == Num(StatusDisplayDetails)
    ensures r["details"] == Str(item.name)
    ensures r["detailsURL"] == Undefined <==> item.externalUrls == []
    ensures item.externalUrls != [] ==> r["detailsURL"] == Str(item.externalUrls[0].url)
    ensures r["state"] == Undefined <==> item.productionYear == None
    ensures item.productionYear.Some? ==> r["state"] == Num(item.productionYear.value)
  {
    map[
      "type" := Num(ActivityWatching),
      "statusType" := Num(StatusDisplayDetails),
      "details" := Str(item.name),
      "detailsURL" := if item.externalUrls != [] then Str(item.externalUrls[0].url) else Undefined,
      "state" := if item.productionYear.Some? then Num(item.productionYear.value) else Undefined
    ]
  }

  /** One entry of the Cover Art Archive `images` list. */
  datatype CoverImage = CoverImage(front: bool, small: string)

  /** The Cover Art Archive answer: whether it was ok, and the decoded `images`. */
  datatype CoverArtResponse = CoverArtResponse(ok: bool, images: seq<CoverImage>)

  predicate IsFront(image: CoverImage) { image.front }

  /** `audioHandler.getImage(item)`, with `fetch` answering the request URL:
      the small thumbnail of the first image flagged `front`, else `null`. */
  function AudioImage(item: Item, fetch: string -> CoverArtResponse): (r: Option<string>)
    ensures !HasProvider(item, "MusicBrainzAlbum") ==> r == None
    ensures HasProvider(item, "MusicBrainzAlbum") ==>
              var response := fetch(CoverArtRelease + item.providerIds["MusicBrainzAlbum"]);
              (r.Some? <==> response.ok && exists i :: 0 <= i < |response.images| && response.images[i].front)
              && (r.Some? ==> exists i :: 0 <= i < |response.images| && response.images[i].front
                                && r.value == response.images[i].small
                                && forall j :: 0 <= j < i ==> !response.images[j].front)
  {
    if HasProvider(item, "MusicBrainzAlbum") then
      var response := fetch(CoverArtRelease + item.providerIds["MusicBrainzAlbum"]);
      if response.ok then
        match Seqs.FindFirst(response.images, IsFront)
        case None => None
        case Some(i) => Some(response.images[i].small)
      else None
    else None
  }

  /** A release's image list with a front image after `before`, which has none:
      whatever follows that image does not change the result. */
  lemma AudioImageIgnoresLaterImages(item: Item, fetch1: string -> CoverArtResponse, fetch2: string -> CoverArtResponse,
                                      before: seq<CoverImage>, front: CoverImage, after1: seq<CoverImage>, after2: seq<CoverImage>)
    requires HasProvider(item, "MusicBrainzAlbum")
    requires forall j :: 0 <= j < |before| ==> !before[j].front
    requires front.front
    requires fetch1(CoverArtRelease + item.providerIds["MusicBrainzAlbum"]) == CoverArtResponse(true, before + [front] + after1)
    requires fetch2(CoverArtRelease + item.providerIds["MusicBrainzAlbum"]) == CoverArtResponse(true, before + [front] + after2)
    ensures AudioImage(item, fetch1) == AudioImage(item, fetch2) == Some(front.small)
  {
    FirstFrontAt(before, front, after1);
    FirstFrontAt(before, front, after2);
  }

  lemma FirstFrontAt(before: seq<CoverImage>, front: CoverImage, after: seq<CoverImage>)
    requires forall j :: 0 <= j < |before| ==> !before[j].front
    requires front.front
    ensures Seqs.FindFirst(before + [front] + after, IsFront) == Some(|before|)
  {
    var s := before + [front] + after;
    assert s[|before|] == front;
    var r := Seqs.FindFirst(s, IsFront);
    assert r.Some?;
  }

  /** The `poster_path` field of the TMDB answer: a string, `null`, or absent. */
  datatype PosterPath = PosterString(path: string) | PosterNull | PosterMissing

  /** The TMDB movie details answer: whether it was ok, and `poster_path`. */
  datatype TmdbResponse = TmdbResponse(ok: bool, posterPath: PosterPath)

  function TmdbUrl(id: string, apiKey: string): string
  {
    TmdbMovie + id + "?api_key=" + apiKey
  }

  /** How `+` renders `poster_path` after a string: `null` becomes "null" and
      a missing field (`undefined`) becomes "undefined". */
  function PathText(path: PosterPath): string
  {
    match path
    case PosterString(p) => p
    case PosterNull => "null"
    case PosterMissing => "undefined"
  }

  /** `movieHandler.getImage(item)`, with `fetch` answering the request URL. */
  function MovieImage(item: Item, tmdbAPIKey: Option<string>, fetch: string -> TmdbResponse): (r: Option<string>)
    ensures r.Some? <==> Truthy(tmdbAPIKey) && HasProvider(item, "Tmdb")
                         && fetch(TmdbUrl(item.providerIds["Tmdb"], tmdbAPIKey.value)).ok
    ensures r.Some? ==> r.value == TmdbPosterBase + PathText(fetch(TmdbUrl(item.providerIds["Tmdb"], tmdbAPIKey.value)).posterPath)
  {
    if Truthy(tmdbAPIKey) && HasProvider(item, "Tmdb") then
      var response := fetch(TmdbUrl(item.providerIds["Tmdb"], tmdbAPIKey.value));
      if response.ok then Some(TmdbPosterBase + PathText(response.posterPath)) else None
    else None
  }

  /** An item without provider ids gets no provider-derived link and no image
      from either handler, whatever the services would answer. */
  lemma NoProviderIdsNoEnrichment(item: Item, cover: string -> CoverArtResponse,
                                  tmdbAPIKey: Option<string>, tmdb: string -> TmdbResponse)
    requires item.providerIds == map[]
    ensures AudioActivity(item)["detailsURL"] == Undefined
    ensures AudioActivity(item)["stateURL"] == Undefined
    ensures AudioImage(item, cover) == None
    ensures MovieImage(item, tmdbAPIKey, tmdb) == None
  {
  }
}
