/** The two endpoints (`get_video_info` for GET /info, `download_douyin` for
    GET /download): each runs extractor and resolver inside one `try` and
    turns whatever escapes into an HTTPException.

    The media fetch of /download is a parameter `fetch` from the selected
    media URL to what the streaming GET produced; the streamed bytes are
    relayed unchanged, so the response carries them as one sequence. */
module Handlers {
  import opened Outcomes
  import opened JsonValues
  import opened Extractor
  import opened Resolver

  /** What the streaming GET for the media produced. */
  datatype MediaFetch = FetchTransportError | FetchResponse(code: int, content: seq<bv8>)

  /** The StreamingResponse /download returns: the relayed body, its media
      type and its Content-Disposition header. */
  datatype StreamingResponse = StreamingResponse(content: seq<bv8>, mediaType: string, contentDisposition: string)

  const UnexpectedError: string := "Unexpected error"
  const DownloadFailed: string := "Download failed"
  const InvalidMediaType: string := "Invalid media type. Choose 'video' or 'audio'"

  // ---------------------------------------------------------------------
  // GET /info

  /** The success body of /info. */
  function InfoBody(videoId: string, urls: map<string, Json>): Json
    requires "video" in urls && "audio" in urls
  {
    JObject(map[
      "status" := JString("success"),
      "video_id" := JString(videoId),
      "video_url" := urls["video"],
      "audio_url" := urls["audio"]])
  }

  /** The `except` clauses of /info: an HTTPException is re-raised as it is,
      any other exception becomes 500. */
  function CatchInfo(attempt: Outcome<Json>): Outcome<Json>
  {
    match attempt
    case Raise(HTTPException(_, _)) => attempt
    case Raise(_) => Raise(HTTPException(500, UnexpectedError))
    case Return(_) => attempt
  }

  /** GET /info. */
  function GetVideoInfo(url: string, api: string -> Upstream): (r: Outcome<Json>)
    ensures r.Raise? ==> r.exc.HTTPException? && r.exc.statusCode in {400, 500, 502}
    ensures r == Raise(HTTPException(400, InvalidUrlDetail)) <==> ExtractDouyinId(url).Raise?
    ensures r.Return? <==>
      && ExtractDouyinId(url).Return?
      && Delivered(api(ApiUrl(ExtractDouyinId(url).value)))
      && HasMediaUrls(api(ApiUrl(ExtractDouyinId(url).value)).body)
    ensures r.Return? ==>
      var id := ExtractDouyinId(url).value;
      var data := api(ApiUrl(id)).body;
      r.value == JObject(map[
        "status" := JString("success"),
        "video_id" := JString(id),
        "video_url" := VideoUrl(data),
        "audio_url" := AudioUrl(data)])
    ensures ExtractDouyinId(url).Return? ==>
      var resolved := GetDownloadUrls(ExtractDouyinId(url).value, api);
      && (resolved.Raise? && resolved.exc.HTTPException? ==> r == Raise(resolved.exc))
      && (resolved == Raise(TypeError) ==> r == Raise(HTTPException(500, UnexpectedError)))
  {
    CatchInfo(
      var videoId :- ExtractDouyinId(url);
      var urls :- GetDownloadUrls(videoId, api);
      Return(InfoBody(videoId, urls)))
  }

  // ---------------------------------------------------------------------
  // GET /download

  function ContentType(mediaType: string): string {
    if mediaType == "video" then "video/mp4" else "audio/mpeg"
  }

  function ContentDisposition(mediaType: string, videoId: string): string {
    "attachment; filename=douyin_" + mediaType + "_" + videoId
      + (if mediaType == "video" then ".mp4" else ".mp3")
  }

  /** The streaming GET followed by `raise_for_status`: the body, or a
      RequestException. */
  function FetchMedia(f: MediaFetch): (r: Outcome<seq<bv8>>)
    ensures r.Return? <==> f.FetchResponse? && !IsErrorStatus(f.code)
    ensures r.Return? ==> r.value == f.content
    ensures r.Raise? ==> r.exc == RequestException
  {
    match f
    case FetchTransportError => Raise(RequestException)
    case FetchResponse(code, content) => if IsErrorStatus(code) then Raise(RequestException) else Return(content)
  }

  /** The `except` clauses of /download: an HTTPException is re-raised as
      it is, a RequestException (only the media fetch can let one escape)
      becomes 504, anything else 500. */
  function CatchDownload(attempt: Outcome<StreamingResponse>): Outcome<StreamingResponse>
  {
    match attempt
    case Raise(HTTPException(_, _)) => attempt
    case Raise(RequestException) => Raise(HTTPException(504, DownloadFailed))
    case Raise(_) => Raise(HTTPException(500, UnexpectedError))
    case Return(_) => attempt
  }

  /** The media URL /download fetches for an accepted media type. */
  function SelectedUrl(mediaType: string, data: Json): Json
    requires HasMediaUrls(data)
  {
    if mediaType == "video" then VideoUrl(data) else AudioUrl(data)
  }

  /** The try block of /download, stage by stage. */
  function DownloadAttempt(url: string, mediaType: string, api: string -> Upstream, fetch: Json -> MediaFetch)
    : (r: Outcome<StreamingResponse>)
    ensures ExtractDouyinId(url).Raise? ==> r == Raise(ExtractDouyinId(url).exc)
    ensures ExtractDouyinId(url).Return? ==>
      var id := ExtractDouyinId(url).value;
      var resolved := GetDownloadUrls(id, api);
      && (resolved.Raise? ==> r == Raise(resolved.exc))
      && (resolved.Return? && mediaType != "video" && mediaType != "audio" ==> r == Raise(HTTPException(400, InvalidMediaType)))
      && (resolved.Return? && (mediaType == "video" || mediaType == "audio") ==>
            var fetched := FetchMedia(fetch(SelectedUrl(mediaType, api(ApiUrl(id)).body)));
            && (fetched.Raise? ==> r == Raise(RequestException))
            && (fetched.Return? ==> r == Return(StreamingResponse(fetched.value, ContentType(mediaType), ContentDisposition(mediaType, id)))))
  {
    var videoId :- ExtractDouyinId(url);
    var urls :- GetDownloadUrls(videoId, api);
    if mediaType !in urls then Raise(HTTPException(400, InvalidMediaType))
    else
      var content :- FetchMedia(fetch(urls[mediaType]));
      Return(StreamingResponse(content, ContentType(mediaType), ContentDisposition(mediaType, videoId)))
  }

  /** Extraction and resolution succeeded and the media type is accepted:
      /download goes on to fetch the media. */
  predicate ReachesMediaFetch(url: string, mediaType: string, api: string -> Upstream) {
    && ExtractDouyinId(url).Return?
    && Delivered(api(ApiUrl(ExtractDouyinId(url).value)))
    && HasMediaUrls(api(ApiUrl(ExtractDouyinId(url).value)).body)
    && (mediaType == "video" || mediaType == "audio")
  }

  /** The media URL /download fetches once it gets that far. */
  function MediaUrl(url: string, mediaType: string, api: string -> Upstream): Json
    requires ReachesMediaFetch(url, mediaType, api)
  {
    SelectedUrl(mediaType, api(ApiUrl(ExtractDouyinId(url).value)).body)
  }

  /** GET /download. */
  function DownloadDouyin(url: string, mediaType: string, api: string -> Upstream, fetch: Json -> MediaFetch)
    : (r: Outcome<StreamingResponse>)
    ensures r.Raise? ==> r.exc.HTTPException? && r.exc.statusCode in {400, 500, 502, 504}
    // extraction comes first, whatever the media type
    ensures ExtractDouyinId(url).Raise? ==> r == Raise(HTTPException(400, InvalidUrlDetail))
    // then resolution, whatever the media type
    ensures ExtractDouyinId(url).Return? ==>
      var resolved := GetDownloadUrls(ExtractDouyinId(url).value, api);
      && (resolved.Raise? && resolved.exc.HTTPException? ==> r == Raise(resolved.exc))
      && (resolved == Raise(TypeError) ==> r == Raise(HTTPException(500, UnexpectedError)))
    // then the media type
    ensures ExtractDouyinId(url).Return? && GetDownloadUrls(ExtractDouyinId(url).value, api).Return?
      && mediaType != "video" && mediaType != "audio"
      ==> r == Raise(HTTPException(400, InvalidMediaType))
    // then the media fetch
    ensures r == Raise(HTTPException(504, DownloadFailed)) <==>
      ReachesMediaFetch(url, mediaType, api) && FetchMedia(fetch(MediaUrl(url, mediaType, api))).Raise?
    ensures r.Return? <==>
      ReachesMediaFetch(url, mediaType, api) && FetchMedia(fetch(MediaUrl(url, mediaType, api))).Return?
    ensures r.Return? ==>
      var id := ExtractDouyinId(url).value;
      && r.value.content == fetch(MediaUrl(url, mediaType, api)).content
      && r.value.mediaType == (if mediaType == "video" then "video/mp4" else "audio/mpeg")
      && r.value.contentDisposition
         == "attachment; filename=douyin_" + mediaType + "_" + id + (if mediaType == "video" then ".mp4" else ".mp3")
  {
    CatchDownload(DownloadAttempt(url, mediaType, api, fetch))
  }

  // ---------------------------------------------------------------------
  // Properties relating several requests

  /** A URL the extractor rejects gets the same 400 from both endpoints,
      whatever the resolution API, the media hosts and the media type would
      have done: neither is consulted. */
  lemma InvalidUrlConsultsNothing(url: string, mediaType: string, mediaType': string,
                                  api: string -> Upstream, api': string -> Upstream,
                                  fetch: Json -> MediaFetch, fetch': Json -> MediaFetch)
    requires ExtractDouyinId(url).Raise?
    ensures GetVideoInfo(url, api) == GetVideoInfo(url, api') == Raise(HTTPException(400, InvalidUrlDetail))
    ensures DownloadDouyin(url, mediaType, api, fetch) == DownloadDouyin(url, mediaType', api', fetch')
              == Raise(HTTPException(400, InvalidUrlDetail))
  {
  }

  /** The only resolution request either endpoint makes is the one for the
      extracted id: two resolution APIs that answer that request alike give
      the same outcome. */
  lemma OneResolutionRequest(url: string, mediaType: string, api: string -> Upstream, api': string -> Upstream,
                             fetch: Json -> MediaFetch)
    requires ExtractDouyinId(url).Return?
    requires api(ApiUrl(ExtractDouyinId(url).value)) == api'(ApiUrl(ExtractDouyinId(url).value))
    ensures GetVideoInfo(url, api) == GetVideoInfo(url, api')
    ensures DownloadDouyin(url, mediaType, api, fetch) == DownloadDouyin(url, mediaType, api', fetch)
  {
  }

  /** A media type other than "video" and "audio" never reaches the media
      fetch: the outcome is the same for any media host. */
  lemma InvalidMediaTypeFetchesNothing(url: string, mediaType: string, api: string -> Upstream,
                                       fetch: Json -> MediaFetch, fetch': Json -> MediaFetch)
    requires mediaType != "video" && mediaType != "audio"
    ensures DownloadDouyin(url, mediaType, api, fetch) == DownloadDouyin(url, mediaType, api, fetch')
  {
  }

  /** The download filename can be read back: it names the media type and the
      video id, and its extension agrees with the content type. */
  lemma DispositionReadsBack(mediaType: string, videoId: string)
    requires mediaType == "video" || mediaType == "audio"
    ensures var d := ContentDisposition(mediaType, videoId);
      && |d| == |"attachment; filename=douyin_"| + |mediaType| + 1 + |videoId| + 4
      && d[..|"attachment; filename=douyin_"|] == "attachment; filename=douyin_"
      && d[|"attachment; filename=douyin_"|..|d| - 4] == mediaType + "_" + videoId
      && d[|d| - 4..] == (if ContentType(mediaType) == "video/mp4" then ".mp4" else ".mp3")
  {
    var d := ContentDisposition(mediaType, videoId);
    var head := "attachment; filename=douyin_";
    var ext := if mediaType == "video" then ".mp4" else ".mp3";
    assert d == head + (mediaType + "_" + videoId) + ext;
  }
}
