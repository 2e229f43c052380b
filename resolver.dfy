/** The resolver client (`get_download_urls`): one GET to the resolution API
    for the extracted id, then the two media URLs read out of the JSON body.

    The HTTP call is a parameter `api`: it maps the request URL to what the
    call produced. The JSON body arrives already decoded. */
module Resolver {
  import opened Outcomes
  import opened JsonValues

  /** What the GET to the resolution API produced: a transport failure
      (connection error, timeout, ...), or a response with its status code
      and its decoded body. */
  datatype Upstream = TransportError | HttpStatus(code: int, body: Json)

  const ApiPrefix: string := "https://api.douyin.wtf/api?url=https://www.douyin.com/video/"

  const ApiRequestFailed: string := "API request failed"
  const ApiResponseError: string := "API response error"

  /** The request URL for a video id: the canonical video page of the id,
      passed to the resolution API. */
  function ApiUrl(videoId: string): (u: string)
    ensures |u| == |ApiPrefix| + |videoId| && u[..|ApiPrefix|] == ApiPrefix && u[|ApiPrefix|..] == videoId
  {
    ApiPrefix + videoId
  }

  /** `raise_for_status` raises for exactly the 4xx and 5xx codes. */
  predicate IsErrorStatus(code: int) {
    400 <= code < 600
  }

  /** The call produced a response that `raise_for_status` lets through. */
  predicate Delivered(u: Upstream) {
    u.HttpStatus? && !IsErrorStatus(u.code)
  }

  /** The body has both URLs where the resolution API puts them:
      `video_data.nwm_video_url` and `music_data.play_url.uri`, every step
      an object. */
  predicate HasMediaUrls(data: Json) {
    && data.JObject?
    && "video_data" in data.fields
    && data.fields["video_data"].JObject?
    && "nwm_video_url" in data.fields["video_data"].fields
    && "music_data" in data.fields
    && data.fields["music_data"].JObject?
    && "play_url" in data.fields["music_data"].fields
    && data.fields["music_data"].fields["play_url"].JObject?
    && "uri" in data.fields["music_data"].fields["play_url"].fields
  }

  function VideoUrl(data: Json): Json
    requires HasMediaUrls(data)
  {
    data.fields["video_data"].fields["nwm_video_url"]
  }

  function AudioUrl(data: Json): Json
    requires HasMediaUrls(data)
  {
    data.fields["music_data"].fields["play_url"].fields["uri"]
  }

  /** `requests.get` followed by `raise_for_status`: the decoded body, or a
      RequestException. */
  function Fetch(u: Upstream): (r: Outcome<Json>)
    ensures r.Return? <==> Delivered(u)
    ensures r.Return? ==> r.value == u.body
    ensures r.Raise? ==> r.exc == RequestException
  {
    match u
    case TransportError => Raise(RequestException)
    case HttpStatus(code, body) => if IsErrorStatus(code) then Raise(RequestException) else Return(body)
  }

  /** The body of the `try` after decoding: the shape test on the two
      top-level keys (raising ValueError), then the two nested lookups in
      the order the dict literal evaluates them. */
  function ReadUrls(data: Json): (r: Outcome<map<string, Json>>)
    ensures r.Return? <==> HasMediaUrls(data)
    ensures r.Return? ==> r.value == map["video" := VideoUrl(data), "audio" := AudioUrl(data)]
    ensures r.Raise? ==> r.exc in {ValueError, KeyError, TypeError}
    // a dict body
    ensures data.JObject? && ("video_data" !in data.fields || "music_data" !in data.fields) ==> r == Raise(ValueError)
    ensures data.JObject? && "video_data" in data.fields && "music_data" in data.fields ==>
      var video, music := data.fields["video_data"], data.fields["music_data"];
      && (!video.JObject? ==> r == Raise(TypeError))
      && (video.JObject? && "nwm_video_url" !in video.fields ==> r == Raise(KeyError))
      && (video.JObject? && "nwm_video_url" in video.fields ==>
            && (!music.JObject? ==> r == Raise(TypeError))
            && (music.JObject? && "play_url" !in music.fields ==> r == Raise(KeyError))
            && (music.JObject? && "play_url" in music.fields && !music.fields["play_url"].JObject? ==> r == Raise(TypeError))
            && (&& music.JObject? && "play_url" in music.fields && music.fields["play_url"].JObject?
                && "uri" !in music.fields["play_url"].fields
                ==> r == Raise(KeyError)))
    // a body that is not a dict
    ensures data.JNull? || data.JBool? || data.JInt? || data.JFloat? ==> r == Raise(TypeError)
    ensures data.JString? ==>
      r == if IsSubstring("video_data", data.s) && IsSubstring("music_data", data.s) then Raise(TypeError) else Raise(ValueError)
    ensures data.JArray? ==>
      r == if JString("video_data") in data.items && JString("music_data") in data.items then Raise(TypeError) else Raise(ValueError)
  {
    var hasVideo :- Contains(data, "video_data");
    if !hasVideo then Raise(ValueError)
    // `data` is iterable now, so the second membership test cannot raise
    else if Contains(data, "music_data") == Return(false) then Raise(ValueError)
    else
      var videoData :- Subscript(data, "video_data");
      var video :- Subscript(videoData, "nwm_video_url");
      // `data` is a dict holding both keys now, so this lookup cannot raise
      var musicData := Subscript(data, "music_data").value;
      var playUrl :- Subscript(musicData, "play_url");
      var audio :- Subscript(playUrl, "uri");
      Return(map["video" := video, "audio" := audio])
  }

  /** `get_download_urls`: request errors and bad status become 502 "API
      request failed", KeyError and ValueError become 502 "API response
      error", and anything else (a TypeError from subscripting a value that
      is not a dict) escapes unchanged. */
  function GetDownloadUrls(videoId: string, api: string -> Upstream): (r: Outcome<map<string, Json>>)
    ensures r.Raise? ==> r.exc in {HTTPException(502, ApiRequestFailed), HTTPException(502, ApiResponseError), TypeError}
    ensures r == Raise(HTTPException(502, ApiRequestFailed)) <==> !Delivered(api(ApiUrl(videoId)))
    ensures r.Return? <==> Delivered(api(ApiUrl(videoId))) && HasMediaUrls(api(ApiUrl(videoId)).body)
    ensures r.Return? ==>
      var data := api(ApiUrl(videoId)).body;
      r.value == map["video" := VideoUrl(data), "audio" := AudioUrl(data)]
    ensures Delivered(api(ApiUrl(videoId))) ==>
      var shape := ReadUrls(api(ApiUrl(videoId)).body);
      && (shape == Raise(ValueError) || shape == Raise(KeyError) ==> r == Raise(HTTPException(502, ApiResponseError)))
      && (shape == Raise(TypeError) ==> r == Raise(TypeError))
  {
    var attempt := (var data :- Fetch(api(ApiUrl(videoId))); ReadUrls(data));
    match attempt
    case Raise(RequestException) => Raise(HTTPException(502, ApiRequestFailed))
    case Raise(KeyError) => Raise(HTTPException(502, ApiResponseError))
    case Raise(ValueError) => Raise(HTTPException(502, ApiResponseError))
    case _ => attempt
  }
}
