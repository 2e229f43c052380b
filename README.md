# Douyin-Downloader request logic, modelled in Dafny

The service turns a public Douyin or TikTok share link into direct media URLs.
`GET /info` returns them as JSON; `GET /download` streams the selected media
back. This project models the decision logic of `main.py`:

- **Identifier extractor** (`Extractor`, file `extractor.dfy`): the three
  patterns `https?://v\.douyin\.com/(\w+)`, `https?://www\.douyin\.com/video/(\d+)`
  and `https?://vm\.tiktok\.com/(\w+)` are tried in that order with Python's
  `re.search`. `IsMatchAt` defines what a match at an index is: `http://` or
  `https://`, the literal host and path, then a non-empty run of the class that
  cannot be extended. `MatchAt`, `SearchFrom`/`ReSearch` and `FirstMatch`
  compute the search and are proved against that definition. `Winner` states
  the intended result in one place: the first pattern that occurs anywhere,
  and its leftmost occurrence. The extractor returns `id` exactly when `id` is
  a winner's capture.
- **Resolver client** (`Resolver`, file `resolver.dfy`): `get_download_urls`.
  The GET to the resolution API is a parameter `api` from request URL to
  outcome (`TransportError` or `HttpStatus(code, body)`). The body is a decoded
  `Json` value (`json_values.dfy`). Python's `in` and `[]` are modelled on every
  kind of JSON value, so bodies that are lists, strings or scalars behave as
  they do in CPython.
- **Handlers** (`Handlers`, file `handlers.dfy`): `get_video_info` and
  `download_douyin`. Each runs the stages in order: extract, resolve, then (for
  download) check the media type and fetch the media. Each then applies its
  `except` clauses. The media fetch is a parameter `fetch` from the selected
  media URL to `FetchTransportError` or `FetchResponse(code, content)`.
- **Exceptions** (`Outcomes`, file `outcomes.dfy`): a stage returns
  `Return(v)` or `Raise(e)`. `e` is one of `HTTPException(status, detail)`,
  `RequestException`, `KeyError`, `ValueError` and `TypeError`. `Outcome` is
  failure-compatible, so `:-` propagates an exception as Python does.

Behaviour of `main.py` that the model keeps as written:

- `get_download_urls` performs no emptiness check on the two media URLs and
  returns whatever values the JSON holds, even ones that are not strings
  (main.py:60-63).
- `download_douyin` checks `media_type` only after extraction and resolution
  have succeeded (main.py:105-108). So an invalid URL still yields 400 from the
  extractor, a resolver failure still yields 502, and the resolver is always
  queried before a bogus media type is refused.
- The download file is named `douyin_{media_type}_{video_id}` plus `.mp4` or
  `.mp3` (main.py:130-131).
- A body whose shape makes `get_download_urls` raise `TypeError` (for example
  `video_data` is a string, or the body is `null`) escapes it, because it
  catches only `RequestException`, `KeyError` and `ValueError` (main.py:69-73);
  the endpoint's catch-all then answers 500 "Unexpected error"
  (main.py:94-98, 142-146).

## Model

| member | source | states |
|---|---|---|
| Extractor.RunLength | main.py:25-27 | the run measured from an index is all of the class, stays inside the URL, and cannot be extended: the greedy `(\w+)`/`(\d+)` group |
| Extractor.SchemesExclusive | main.py:25-27 | `https://` and `http://` never start at the same index, so `s?` picks at most one spelling |
| Extractor.MaximalRunIsRunLength | main.py:25-27 | any maximal non-empty class run at an index is exactly the run `RunLength` measures |
| Extractor.LeadFound | main.py:25-27 | whichever of `https://<host>` and `http://<host>` starts at an index is the one found there |
| Extractor.MatchAtSound | main.py:25-27 | what the one-index matcher returns is a match of the pattern at that index |
| Extractor.MatchAtComplete | main.py:25-27 | every match of the pattern at an index is what the one-index matcher returns |
| Extractor.MatchAtSpec | main.py:25-27 | the pattern matches at an index capturing `id` if and only if the one-index matcher returns `id` |
| Extractor.MatchUnique | main.py:25-27 | two matches of one pattern at one index capture the same text |
| Extractor.SearchFrom | main.py:31 | the search from an index returns a genuine match, and one that is no later than any match at or after that index |
| Extractor.ReSearch | main.py:31 | `re.search` returns a match with no match before it, and returns nothing exactly when the pattern occurs nowhere |
| Extractor.FirstMatch | main.py:30-33 | the loop stops at a pattern whose search succeeds and no later than any pattern whose search succeeds |
| Extractor.ExtractDouyinId | main.py:22-41 | fails exactly when no pattern occurs anywhere, always with 400 and the detail listing the three formats; a returned id is a capture of some pattern, non-empty and all word characters |
| Extractor.WinnerIsExtracted | main.py:24-33 | the capture of the first pattern that occurs, at its leftmost occurrence, is what is returned, even when a later pattern occurs earlier in the URL |
| Extractor.ExtractedIsWinner | main.py:24-33 | whatever is returned is such a first-pattern, leftmost capture |
| Extractor.ExtractSpec | main.py:22-41 | the extractor returns `id` if and only if `id` is a winner's capture |
| Extractor.AdvertisedShortLinkAccepted | main.py:25 | the first format listed in the 400 detail, `https://v.douyin.com/ABC123/`, yields `ABC123` |
| JsonValues.IsSubstring | main.py:57 | Python `in` on a str body is true exactly when the key occurs at some index of the body |
| Resolver.ApiUrl | main.py:45 | the resolution request is the fixed API prefix followed by the id, and the id can be read back from it |
| Resolver.Fetch | main.py:48-53 | the body comes back exactly when the call produced a response with a status outside 400-599; otherwise a RequestException |
| Resolver.ReadUrls | main.py:55-63 | returns the two nested values unchanged exactly when both paths exist through objects; a missing top-level key gives ValueError, a missing nested key KeyError, a non-object on the path TypeError; for list, str and scalar bodies, the outcome Python's `in` and `[]` give |
| Resolver.GetDownloadUrls | main.py:43-73 | a transport error or 4xx/5xx status gives 502 "API request failed" and nothing else does; a missing key gives 502 "API response error"; TypeError escapes; success returns exactly `video_data.nwm_video_url` and `music_data.play_url.uri`, and never a partial result |
| Handlers.GetVideoInfo | main.py:81-98 | only HTTPExceptions with 400, 500 or 502 leave the handler; 400 exactly when extraction fails; resolver HTTPExceptions pass through unchanged; TypeError becomes 500; success returns `status`, `video_id`, `video_url`, `audio_url` holding the extracted id and the two resolved values |
| Handlers.FetchMedia | main.py:117-123 | the media body comes back exactly when the fetch produced a response with a status outside 400-599; otherwise a RequestException |
| Handlers.DownloadDouyin | main.py:102-146 | only HTTPExceptions with 400, 500, 502 or 504 leave the handler; extraction, then resolution, then the media type are checked in that order; 504 exactly when everything before the media fetch succeeded and the fetch failed; success relays the fetched bytes with `video/mp4` or `audio/mpeg` and `attachment; filename=douyin_{media_type}_{id}` plus `.mp4` or `.mp3` |
| Handlers.InvalidUrlConsultsNothing | main.py:84-85 | a rejected URL gives the same 400 from both endpoints for any resolution API, media host and media type |
| Handlers.OneResolutionRequest | main.py:45-52 | both endpoints depend on the resolution API only through its answer for the extracted id |
| Handlers.InvalidMediaTypeFetchesNothing | main.py:108-122 | a media type other than `video` and `audio` gives an outcome that does not depend on the media host |
| Handlers.DispositionReadsBack | main.py:127-131 | the Content-Disposition can be split back into its fixed head, `{media_type}_{id}`, and an extension that agrees with the content type |

## Left out

- Rate limiting (`limiter.limit`, the 429 handler, its message). It is a foreign library with wall-clock windows and process-wide counters. The 429 handler also returns its HTTPException instead of raising it, which is framework behaviour.
- The root redirect, FastAPI application setup, uvicorn start-up and async scheduling: no decision logic.
- The HTTP calls themselves (`requests.get`, the User-Agent header, the 15 s and 30 s timeouts). They are the parameters `api` and `fetch`.
- `response.json()`: the body arrives already decoded. A body that is not JSON is not modelled: on a 2xx answer `response.json()` (main.py:55) then raises, which in `main.py` also ends in 502, with "API request failed" under current `requests` (its `JSONDecodeError` is a `RequestException`) and "API response error" under older versions (where it is a plain `ValueError`).
- Streaming: `iter_content` in 1 MiB chunks and `StreamingResponse` are library I/O. The response carries the fetched bytes as one sequence. Failures after streaming has begun happen outside the handler's `try` and are not modelled.
- The query default `media_type="video"` (main.py:102) and FastAPI's query parsing are not modelled: `Handlers.DownloadDouyin` takes the media type as an argument, and a request without one behaves as a call with `"video"`.
- Resolver.GetDownloadUrls: the 502 details hold only the fixed text before `: {str(e)}`. The exception message is not modelled.
- Handlers.GetVideoInfo: the 500 detail holds only "Unexpected error", without `: {str(e)}`.
- Handlers.DownloadDouyin: the 504 and 500 details hold only "Download failed" and "Unexpected error", without `: {str(e)}`.
- Extractor.ExtractDouyinId: `\w` and `\d` are ASCII-only here (`[A-Za-z0-9_]` and `[0-9]`), whereas Python 3 matches non-ASCII letters and digits on `str` patterns. Where the capture would begin with a non-ASCII word character the model finds no match at that index at all, so the URL gets 400 or a later occurrence or pattern wins: `https://v.douyin.com/é1` yields `é1` in Python and 400 in the model, and `https://www.douyin.com/video/١٢٣` matches Python's Unicode `\d` but not the model. Where such a character comes later, the model cuts the id before it. An id outside Latin-1 makes Python answer 500 "Unexpected error", because encoding the Content-Disposition header raises inside the `try` (main.py:125-146); with ASCII ids the model has no such path.
- JSON numbers are `JInt` or `JFloat(real)`. Floating-point rounding is not modelled; no decision depends on a number's value.
