/**
 * The gateway's image dispatcher and health listing of gateway/internal/api/http.go. It makes
 * the same routing decisions as gateway/internal/api/handler.go, but first refuses every method
 * other than GET, reports each error with its own text, and names the chosen worker index in a
 * `Node-Id` header that stays set on the responses written after routing.
 */
module GatewayHttp {
  import opened Common
  import opened Http
  import opened Membership
  import opened UrlHasher
  import opened ImageService
  import opened Gateway

  const MethodNotAllowedText := "Method not allowed"
  const UnescapeErrText := "error un-escaping url"
  const ClusterUnavailableText := "cluster not available"

  /** `idFromUrl(url, mod)`: the SHA-256 of the URL, read big-endian, modulo `mod`. */
  function IdFromUrl(url: string, mod: int, sha256: string -> Digest): (id: int)
    requires mod >= 1
    ensures 0 <= id < mod
  {
    BigEndian(sha256(url)) % mod
  }

  function ClientError(r: Reply): Response
    requires !r.Image?
  {
    Error("client responded with: " + ErrorText(r), StatusInternalServerError)
  }

  /**
   * `HandleImage`, given the request method, the result of un-escaping the `url` parameter, one
   * snapshot of the worker nodes, and the image service's `GetImage` and `CacheImage` as
   * functions of (worker URL, image URL).
   */
  function HandleImageDispatch(verb: string, unescaped: Result<string>, workers: seq<Node>, sha256: string -> Digest,
                               getImage: (string, string) -> Reply, cacheImage: (string, string) -> Reply): (d: Dispatch)
    ensures d.calls == [] <==> !Valid(verb, unescaped) || |workers| == 0
    ensures d.nodeId.Some? <==> d.calls != []
    ensures |d.calls| <= 2
    ensures d.calls != [] ==> unescaped.Ok? && |workers| >= 1
                              && d.nodeId == Some(Decimal(Route(unescaped.value, workers, sha256)))
                              && d.calls[0] == GetCall(WorkerUrl(workers[Route(unescaped.value, workers, sha256)].addr), unescaped.value)
  {
    if verb != MethodGet then Dispatch(Error(MethodNotAllowedText, StatusMethodNotAllowed), None, [])
    else if unescaped.Err? then Dispatch(Error(UnescapeErrText, StatusBadRequest), None, [])
    else
      var imgUrl := unescaped.value;
      if !HasPrefix(imgUrl, "https") then Dispatch(Error("invalid url: " + imgUrl, StatusBadRequest), None, [])
      else if |workers| == 0 then Dispatch(Error(ClusterUnavailableText, StatusInternalServerError), None, [])
      else
        var workerId := IdFromUrl(imgUrl, |workers|, sha256);
        var workerUrl := WorkerUrl(workers[workerId].addr);
        var nodeId := Some(Decimal(workerId));
        var get := GetCall(workerUrl, imgUrl);
        var raw := getImage(workerUrl, imgUrl);
        if raw.ErrNotFound? then
          var img := cacheImage(workerUrl, imgUrl);
          var calls := [get, CacheCall(workerUrl, imgUrl)];
          if !img.Image? then Dispatch(ClientError(img), nodeId, calls)
          // `Write(img)` and then `Write(raw)` with the nil `raw` of a miss
          else Dispatch(Payload("", img.raw + RawOf(raw)), nodeId, calls)
        else if raw.Failure? then Dispatch(ClientError(raw), nodeId, [get])
        else Dispatch(Payload("", raw.raw), nodeId, [get])
  }

  /** The index a valid request is routed to under a non-empty snapshot. */
  function Route(imgUrl: string, workers: seq<Node>, sha256: string -> Digest): int
    requires |workers| >= 1
  {
    IdFromUrl(imgUrl, |workers|, sha256)
  }

  /** A request passes validation when it is a GET whose URL decodes and starts with "https". */
  predicate Valid(verb: string, unescaped: Result<string>)
  {
    verb == MethodGet && unescaped.Ok? && HasPrefix(unescaped.value, "https")
  }

  /**
   * A non-GET is refused with 405 before anything else is looked at; a decode failure and a URL
   * without the "https" prefix give 400; none of these touches the cluster or the service or
   * sets `Node-Id`.
   */
  lemma RejectsBeforeRouting(verb: string, unescaped: Result<string>, workers: seq<Node>, sha256: string -> Digest,
                             getImage: (string, string) -> Reply, cacheImage: (string, string) -> Reply)
    ensures var d := HandleImageDispatch(verb, unescaped, workers, sha256, getImage, cacheImage);
      && (verb != MethodGet <==> d.resp.status == StatusMethodNotAllowed)
      && (verb != MethodGet ==> d.resp == Error(MethodNotAllowedText, StatusMethodNotAllowed))
      && (verb == MethodGet && unescaped.Err? ==> d.resp == Error(UnescapeErrText, StatusBadRequest))
      && (verb == MethodGet && unescaped.Ok? && !Valid(verb, unescaped) ==>
            d.resp == Error("invalid url: " + unescaped.value, StatusBadRequest))
      && (!Valid(verb, unescaped) ==> d.calls == [] && d.nodeId == None)
  {
  }

  /** Zero workers give 500 "cluster not available" without routing. */
  lemma EmptyClusterUnavailable(unescaped: Result<string>, sha256: string -> Digest,
                                getImage: (string, string) -> Reply, cacheImage: (string, string) -> Reply)
    requires Valid(MethodGet, unescaped)
    ensures var d := HandleImageDispatch(MethodGet, unescaped, [], sha256, getImage, cacheImage);
      d.resp == Error(ClusterUnavailableText, StatusInternalServerError) && d.calls == [] && d.nodeId == None
  {
  }

  /**
   * A routed request names its worker index in decimal in `Node-Id`, calls `GetImage` on that
   * worker first, and calls `CacheImage` on the same worker with the same URL exactly when
   * `GetImage` answered `ErrNotFound`.
   */
  lemma RoutesToHashedWorker(unescaped: Result<string>, workers: seq<Node>, sha256: string -> Digest,
                             getImage: (string, string) -> Reply, cacheImage: (string, string) -> Reply)
    requires Valid(MethodGet, unescaped) && |workers| >= 1
    ensures var d := HandleImageDispatch(MethodGet, unescaped, workers, sha256, getImage, cacheImage);
      var imgUrl := unescaped.value;
      var id := Route(imgUrl, workers, sha256);
      var target := WorkerUrl(workers[id].addr);
      && d.nodeId == Some(Decimal(id))
      && DecimalValue(d.nodeId.value) == id
      && 1 <= |d.calls| <= 2
      && d.calls[0] == GetCall(target, imgUrl)
      && (|d.calls| == 2 <==> getImage(target, imgUrl).ErrNotFound?)
      && (|d.calls| == 2 ==> d.calls[1] == CacheCall(target, imgUrl))
  {
    DecimalRoundTrip(Route(unescaped.value, workers, sha256));
  }

  /**
   * What a routed request is answered with: the bytes of a hit, or the bytes of the populate
   * after a miss; otherwise 500 with the text of the service error.
   */
  lemma ServesWorkerBytes(unescaped: Result<string>, workers: seq<Node>, sha256: string -> Digest,
                          getImage: (string, string) -> Reply, cacheImage: (string, string) -> Reply)
    requires Valid(MethodGet, unescaped) && |workers| >= 1
    ensures var d := HandleImageDispatch(MethodGet, unescaped, workers, sha256, getImage, cacheImage);
      var imgUrl := unescaped.value;
      var target := WorkerUrl(workers[Route(imgUrl, workers, sha256)].addr);
      var raw := getImage(target, imgUrl);
      var img := cacheImage(target, imgUrl);
      && (raw.Image? ==> d.resp == Payload("", raw.raw))
      && (raw.Failure? ==> d.resp == Error("client responded with: " + raw.err, StatusInternalServerError))
      && (raw.ErrNotFound? && img.Image? ==> d.resp == Payload("", img.raw))
      && (raw.ErrNotFound? && !img.Image? ==> d.resp == Error("client responded with: " + ErrorText(img), StatusInternalServerError))
  {
    var target := WorkerUrl(workers[Route(unescaped.value, workers, sha256)].addr);
    var raw := getImage(target, unescaped.value);
    var img := cacheImage(target, unescaped.value);
    if raw.ErrNotFound? && img.Image? {
      assert img.raw + RawOf(raw) == img.raw;
    }
  }

  /** The routing index depends only on the URL and the snapshot size. */
  lemma RouteDeterministic(u: string, v: string, mod: int, sha256: string -> Digest)
    requires mod >= 1
    ensures sha256(u) == sha256(v) ==> IdFromUrl(u, mod, sha256) == IdFromUrl(v, mod, sha256)
  {
  }

  /** The image service as written, talking to workers through their muxes. */
  function ServiceAsWritten(queryEscape: string -> string, jsonString: string -> string, serve: Outgoing -> Exchange)
    : ((string, string) -> Reply, (string, string) -> Reply)
  {
    ((w: string, u: string) => GetImage(w, u, queryEscape, WorkerMux(serve)),
     (w: string, u: string) => CacheImage(w, u, jsonString, WorkerMux(serve)))
  }

  /** The image service with the corrected `GetImage` request. */
  function ServiceCorrected(queryEscape: string -> string, jsonString: string -> string, serve: Outgoing -> Exchange)
    : ((string, string) -> Reply, (string, string) -> Reply)
  {
    ((w: string, u: string) => GetImageCorrected(w, u, queryEscape, WorkerMux(serve)),
     (w: string, u: string) => CacheImage(w, u, jsonString, WorkerMux(serve)))
  }

  /**
   * As written, every routed request misses: the gateway populates the worker's cache again on
   * each request, whatever the worker already holds, so the worker cache never serves a gateway
   * request.
   */
  lemma EveryRequestRepopulates(unescaped: Result<string>, workers: seq<Node>, sha256: string -> Digest,
                                queryEscape: string -> string, jsonString: string -> string, serve: Outgoing -> Exchange)
    requires Valid(MethodGet, unescaped) && |workers| >= 1
    ensures var svc := ServiceAsWritten(queryEscape, jsonString, serve);
      var d := HandleImageDispatch(MethodGet, unescaped, workers, sha256, svc.0, svc.1);
      var target := WorkerUrl(workers[Route(unescaped.value, workers, sha256)].addr);
      d.calls == [GetCall(target, unescaped.value), CacheCall(target, unescaped.value)]
  {
    var svc := ServiceAsWritten(queryEscape, jsonString, serve);
    var target := WorkerUrl(workers[Route(unescaped.value, workers, sha256)].addr);
    GetImageNeverReachesWorker(target, unescaped.value, queryEscape, serve);
    assert svc.0(target, unescaped.value) == ErrNotFound;
    RoutesToHashedWorker(unescaped, workers, sha256, svc.0, svc.1);
  }

  /**
   * With the corrected request, a worker that holds the image serves it: one call, no populate,
   * and the response carries the worker's bytes.
   */
  lemma CorrectedHitSkipsPopulate(unescaped: Result<string>, workers: seq<Node>, sha256: string -> Digest,
                                  queryEscape: string -> string, jsonString: string -> string,
                                  serve: Outgoing -> Exchange, status: string, raw: seq<byte>)
    requires Valid(MethodGet, unescaped) && |workers| >= 1
    requires var target := WorkerUrl(workers[Route(unescaped.value, workers, sha256)].addr);
      serve(GetImageRequestCorrected(target, unescaped.value, queryEscape)) == Responded(StatusOK, status, Ok(raw))
    ensures var svc := ServiceCorrected(queryEscape, jsonString, serve);
      var d := HandleImageDispatch(MethodGet, unescaped, workers, sha256, svc.0, svc.1);
      var target := WorkerUrl(workers[Route(unescaped.value, workers, sha256)].addr);
      d.calls == [GetCall(target, unescaped.value)] && d.resp == Payload("", raw)
  {
    var svc := ServiceCorrected(queryEscape, jsonString, serve);
    var target := WorkerUrl(workers[Route(unescaped.value, workers, sha256)].addr);
    GetImageCorrectedReachesWorker(target, unescaped.value, queryEscape, serve);
    assert svc.0(target, unescaped.value) == Image(raw);
  }

  /** The anonymous `Response` document of `HandleHealth`: node addresses and the health score. */
  datatype Health = Health(nodes: seq<string>, score: int)

  /** `HandleHealth`: the addresses of `Nodes()`, in order, and `HealthScore()`. */
  method HandleHealth(nodes: seq<Node>, healthScore: int) returns (h: Health)
    ensures |h.nodes| == |nodes|
    ensures forall i :: 0 <= i < |nodes| ==> h.nodes[i] == nodes[i].addr
    ensures h.score == healthScore
  {
    var addrs: seq<string> := [];
    var i := 0;
    while i < |nodes|
      invariant 0 <= i <= |nodes|
      invariant |addrs| == i
      invariant forall j :: 0 <= j < i ==> addrs[j] == nodes[j].addr
    {
      addrs := addrs + [nodes[i].addr];
      i := i + 1;
    }
    h := Health(addrs, healthScore);
  }
}
