/**
 * The gateway's client for the worker endpoints (gateway/internal/imageservice/service.go):
 * how it builds each request and how it classifies what came back. Building the request,
 * sending it and reading the body are one abstract `client` exchange.
 */
module ImageService {
  import opened Common
  import opened Http

  /** The sentinel `ErrNotFound` and its text. */
  const NotFoundText := "not found"

  /**
   * An outgoing request: method, the worker's base URL, path, query, Content-Type and body.
   * Its URL is `base + path`, followed by `?` and the query when there is one.
   */
  datatype Outgoing = Outgoing(verb: string, base: string, path: string, query: string, contentType: string, body: string)

  function OutgoingUrl(o: Outgoing): string
  {
    o.base + o.path + (if o.query == "" then "" else "?" + o.query)
  }

  /**
   * What one exchange with a worker gave: `http.NewRequest` failed, `client.Do` failed, or a
   * response with its status code, its status line and the result of reading its body.
   */
  datatype Exchange =
    | RequestFailed(requestErr: string)
    | TransportFailed(transportErr: string)
    | Responded(code: int, status: string, body: Result<seq<byte>>)

  /** What `GetImage` and `CacheImage` return: the bytes, `ErrNotFound`, or another error. */
  datatype Reply = Image(raw: seq<byte>) | ErrNotFound | Failure(err: string)

  /** `err.Error()` of a failed reply. */
  function ErrorText(r: Reply): string
    requires !r.Image?
  {
    if r.ErrNotFound? then NotFoundText else r.err
  }

  /** The bytes a reply carries; Go's nil slice when it failed. */
  function RawOf(r: Reply): seq<byte>
  {
    if r.Image? then r.raw else []
  }

  function StatusFailure(status: string): string
  {
    "HTTP request failed with status code: " + status
  }

  /** The request `GetImage` sends: `GET workerUrl + "/?url=" + QueryEscape(imgUrl)`. */
  function GetImageRequest(workerUrl: string, imgUrl: string, queryEscape: string -> string): (o: Outgoing)
    ensures OutgoingUrl(o) == workerUrl + "/?url=" + queryEscape(imgUrl)
    ensures o.verb == MethodGet && o.path == "/"
  {
    Outgoing(MethodGet, workerUrl, "/", "url=" + queryEscape(imgUrl), "", "")
  }

  /** The request `GetImage` evidently means to send: the worker's image route, `/v1/image`. */
  function GetImageRequestCorrected(workerUrl: string, imgUrl: string, queryEscape: string -> string): (o: Outgoing)
    ensures OutgoingUrl(o) == workerUrl + "/v1/image?url=" + queryEscape(imgUrl)
    ensures o.verb == MethodGet && o.path == "/v1/image"
  {
    Outgoing(MethodGet, workerUrl, "/v1/image", "url=" + queryEscape(imgUrl), "", "")
  }

  /** The request `CacheImage` sends: `POST workerUrl + "/v1/cache"` with the JSON `{"url": imgUrl}`. */
  function CacheImageRequest(workerUrl: string, imgUrl: string, jsonString: string -> string): (o: Outgoing)
    ensures OutgoingUrl(o) == workerUrl + "/v1/cache"
    ensures o.verb == MethodPost && o.path == "/v1/cache" && o.contentType == "application/json"
    ensures o.body == "{\"url\":" + jsonString(imgUrl) + "}"
  {
    Outgoing(MethodPost, workerUrl, "/v1/cache", "", "application/json", "{\"url\":" + jsonString(imgUrl) + "}")
  }

  /**
   * How `GetImage` classifies an exchange: 404 is `ErrNotFound` and nothing else is; any other
   * non-200 status, and every construction, transport or body-read error, is a different error;
   * 200 gives the whole body.
   */
  function ClassifyGet(x: Exchange): (r: Reply)
    ensures r.ErrNotFound? <==> x.Responded? && x.code == 404
    ensures r.Image? <==> x.Responded? && x.code == 200 && x.body.Ok?
    ensures r.Image? ==> r.raw == x.body.value
    ensures x.RequestFailed? ==> r == Failure(x.requestErr)
    ensures x.TransportFailed? ==> r == Failure(x.transportErr)
    ensures x.Responded? && x.code != 404 && x.code != 200 ==> r == Failure(StatusFailure(x.status))
  {
    match x
    case RequestFailed(err) => Failure(err)
    case TransportFailed(err) => Failure(err)
    case Responded(code, status, body) =>
      if code == 404 then ErrNotFound
      else if code != 200 then Failure(StatusFailure(status))
      else if body.Err? then Failure(body.msg)
      else Image(body.value)
  }

  /**
   * How `CacheImage` classifies an exchange: every non-200 status, 404 included, is a generic
   * error, so it never answers `ErrNotFound`; 200 gives the whole body.
   */
  function ClassifyCache(x: Exchange): (r: Reply)
    ensures !r.ErrNotFound?
    ensures r.Image? <==> x.Responded? && x.code == 200 && x.body.Ok?
    ensures r.Image? ==> r.raw == x.body.value
    ensures x.RequestFailed? ==> r == Failure(x.requestErr)
    ensures x.TransportFailed? ==> r == Failure(x.transportErr)
    ensures x.Responded? && x.code != 200 ==> r == Failure(StatusFailure(x.status))
  {
    match x
    case RequestFailed(err) => Failure(err)
    case TransportFailed(err) => Failure(err)
    case Responded(code, status, body) =>
      if code != 200 then Failure(StatusFailure(status))
      else if body.Err? then Failure(body.msg)
      else Image(body.value)
  }

  /** `GetImage(workerUrl, imgUrl)` as written, over the exchange `client` performs. */
  function GetImage(workerUrl: string, imgUrl: string, queryEscape: string -> string, client: Outgoing -> Exchange): (r: Reply)
    ensures var x := client(GetImageRequest(workerUrl, imgUrl, queryEscape));
      && (r.ErrNotFound? <==> x.Responded? && x.code == 404)
      && (r.Image? <==> x.Responded? && x.code == 200 && x.body.Ok?)
      && (r.Image? ==> r.raw == x.body.value)
  {
    ClassifyGet(client(GetImageRequest(workerUrl, imgUrl, queryEscape)))
  }

  /** `GetImage` sending its request to `/v1/image`. */
  function GetImageCorrected(workerUrl: string, imgUrl: string, queryEscape: string -> string, client: Outgoing -> Exchange): (r: Reply)
    ensures var x := client(GetImageRequestCorrected(workerUrl, imgUrl, queryEscape));
      && (r.ErrNotFound? <==> x.Responded? && x.code == 404)
      && (r.Image? <==> x.Responded? && x.code == 200 && x.body.Ok?)
      && (r.Image? ==> r.raw == x.body.value)
  {
    ClassifyGet(client(GetImageRequestCorrected(workerUrl, imgUrl, queryEscape)))
  }

  /** `CacheImage(workerUrl, imgUrl)`, over the exchange `client` performs. */
  function CacheImage(workerUrl: string, imgUrl: string, jsonString: string -> string, client: Outgoing -> Exchange): (r: Reply)
    ensures var x := client(CacheImageRequest(workerUrl, imgUrl, jsonString));
      && !r.ErrNotFound?
      && (r.Image? <==> x.Responded? && x.code == 200 && x.body.Ok?)
      && (r.Image? ==> r.raw == x.body.value)
  {
    ClassifyCache(client(CacheImageRequest(workerUrl, imgUrl, jsonString)))
  }

  /** The mocked client of the service test (200, status "bytes", body "bytes") yields the body. */
  lemma MockedClientServesBody(workerUrl: string, imgUrl: string, queryEscape: string -> string)
    ensures var body: seq<byte> := [0x62, 0x79, 0x74, 0x65, 0x73];
      GetImage(workerUrl, imgUrl, queryEscape, _ => Responded(200, "bytes", Ok(body))) == Image(body)
  {
  }

  /** The paths the worker registers on its mux (worker/cmd/main.go:57-60). */
  const WorkerPaths := ["/v1/image", "/v1/cache", "/health", "/dashboard"]

  /** "404 page not found\n", the body `http.NotFound` writes. */
  const PageNotFoundBytes: seq<byte> :=
    [0x34, 0x30, 0x34, 0x20, 0x70, 0x61, 0x67, 0x65, 0x20, 0x6E, 0x6F, 0x74, 0x20, 0x66, 0x6F, 0x75, 0x6E, 0x64, 0x0A]

  /**
   * A worker reached through its mux: a request for a registered path is answered by `serve`,
   * any other path by the mux's own 404. None of the registered patterns ends in "/", so each
   * matches its path exactly and no pattern matches "/".
   */
  function WorkerMux(serve: Outgoing -> Exchange): Outgoing -> Exchange
  {
    (o: Outgoing) => if o.path in WorkerPaths then serve(o) else Responded(404, "404 Not Found", Ok(PageNotFoundBytes))
  }

  /**
   * As written, `GetImage` asks for "/", which the worker's mux does not route: whatever the
   * worker holds, the answer is `ErrNotFound`.
   */
  lemma GetImageNeverReachesWorker(workerUrl: string, imgUrl: string, queryEscape: string -> string, serve: Outgoing -> Exchange)
    ensures GetImageRequest(workerUrl, imgUrl, queryEscape).path !in WorkerPaths
    ensures GetImage(workerUrl, imgUrl, queryEscape, WorkerMux(serve)) == ErrNotFound
  {
    assert "/" != WorkerPaths[0] && "/" != WorkerPaths[1] && "/" != WorkerPaths[2] && "/" != WorkerPaths[3] by {
      assert |"/"| == 1;
    }
  }

  /** The corrected request reaches the worker's image route, so its answer is the worker's. */
  lemma GetImageCorrectedReachesWorker(workerUrl: string, imgUrl: string, queryEscape: string -> string, serve: Outgoing -> Exchange)
    ensures GetImageRequestCorrected(workerUrl, imgUrl, queryEscape).path in WorkerPaths
    ensures GetImageCorrected(workerUrl, imgUrl, queryEscape, WorkerMux(serve))
         == ClassifyGet(serve(GetImageRequestCorrected(workerUrl, imgUrl, queryEscape)))
  {
    assert GetImageRequestCorrected(workerUrl, imgUrl, queryEscape).path == WorkerPaths[0];
  }

  /** `CacheImage` reaches the worker's cache-populate route. */
  lemma CacheImageReachesWorker(workerUrl: string, imgUrl: string, jsonString: string -> string, serve: Outgoing -> Exchange)
    ensures CacheImage(workerUrl, imgUrl, jsonString, WorkerMux(serve))
         == ClassifyCache(serve(CacheImageRequest(workerUrl, imgUrl, jsonString)))
  {
    assert CacheImageRequest(workerUrl, imgUrl, jsonString).path == WorkerPaths[1];
  }
}
