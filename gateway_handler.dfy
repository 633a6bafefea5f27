/**
 * The gateway's image dispatcher and health listing of gateway/internal/api/handler.go. A
 * request is validated, routed to one worker by hashing its URL modulo the size of the worker
 * snapshot, and served from that worker's cache, populating it first on a miss. Every error is
 * answered with the generic "internal server error" text except an invalid URL.
 */
module GatewayHandler {
  import opened Common
  import opened Http
  import opened Membership
  import opened UrlHasher
  import opened ImageService
  import opened Gateway

  const InternalErrStr := "internal server error"

  /** `idFromUrl(url, mod)`: the SHA-256 of the URL, read big-endian, modulo `mod`. */
  function IdFromUrl(url: string, mod: int, sha256: string -> Digest): (id: int)
    requires mod >= 1
    ensures 0 <= id < mod
  {
    BigEndian(sha256(url)) % mod
  }

  /** The worker URL a valid image URL is routed to under a non-empty snapshot. */
  function Target(imgUrl: string, workers: seq<Node>, sha256: string -> Digest): string
    requires |workers| >= 1
  {
    WorkerUrl(workers[IdFromUrl(imgUrl, |workers|, sha256)].addr)
  }

  /**
   * `ImageHandler`, given the result of un-escaping the `url` parameter, one snapshot of the
   * worker nodes, and the image service's `GetImage` and `CacheImage` as functions of
   * (worker URL, image URL).
   */
  function ImageHandlerDispatch(unescaped: Result<string>, workers: seq<Node>, sha256: string -> Digest,
                                getImage: (string, string) -> Reply, cacheImage: (string, string) -> Reply): (d: Dispatch)
    ensures d.nodeId == None
    ensures d.calls == [] <==> !Valid(unescaped) || |workers| == 0
    ensures |d.calls| <= 2
    ensures d.calls != [] ==> unescaped.Ok? && |workers| >= 1
                              && d.calls[0] == GetCall(Target(unescaped.value, workers, sha256), unescaped.value)
  {
    if unescaped.Err? then Dispatch(Error(InternalErrStr, StatusBadRequest), None, [])
    else
      var imgUrl := unescaped.value;
      if !HasPrefix(imgUrl, "https") then Dispatch(Error("invalid url: " + imgUrl, StatusBadRequest), None, [])
      else if |workers| == 0 then Dispatch(Error(InternalErrStr, StatusInternalServerError), None, [])
      else
        var workerUrl := Target(imgUrl, workers, sha256);
        var get := GetCall(workerUrl, imgUrl);
        var raw := getImage(workerUrl, imgUrl);
        if raw.ErrNotFound? then
          var img := cacheImage(workerUrl, imgUrl);
          var calls := [get, CacheCall(workerUrl, imgUrl)];
          if !img.Image? then Dispatch(Error(InternalErrStr, StatusInternalServerError), None, calls)
          // `Write(img)` and then `Write(raw)` with the nil `raw` of a miss
          else Dispatch(Payload("", img.raw + RawOf(raw)), None, calls)
        else if raw.Failure? then Dispatch(Error(InternalErrStr, StatusInternalServerError), None, [get])
        else Dispatch(Payload("", raw.raw), None, [get])
  }

  /** A request is valid when its URL decodes and starts with "https". */
  predicate Valid(unescaped: Result<string>)
  {
    unescaped.Ok? && HasPrefix(unescaped.value, "https")
  }

  /**
   * Invalid requests are answered with 400 and touch neither the cluster nor the service: a
   * decode failure with the generic text, a URL without the "https" prefix with its own text.
   */
  lemma RejectsBeforeRouting(unescaped: Result<string>, workers: seq<Node>, sha256: string -> Digest,
                             getImage: (string, string) -> Reply, cacheImage: (string, string) -> Reply)
    ensures var d := ImageHandlerDispatch(unescaped, workers, sha256, getImage, cacheImage);
      && (!Valid(unescaped) <==> d.resp.status == StatusBadRequest)
      && (!Valid(unescaped) ==> d.calls == [])
      && (unescaped.Err? ==> d.resp == Error(InternalErrStr, StatusBadRequest))
      && (unescaped.Ok? && !Valid(unescaped) ==> d.resp == Error("invalid url: " + unescaped.value, StatusBadRequest))
  {
  }

  /** An empty worker snapshot gives 500 before any routing, so the modulus is never 0. */
  lemma EmptyClusterUnavailable(unescaped: Result<string>, sha256: string -> Digest,
                                getImage: (string, string) -> Reply, cacheImage: (string, string) -> Reply)
    requires Valid(unescaped)
    ensures var d := ImageHandlerDispatch(unescaped, [], sha256, getImage, cacheImage);
      d.resp == Error(InternalErrStr, StatusInternalServerError) && d.calls == []
  {
  }

  /**
   * A valid request under a non-empty snapshot is sent to exactly one worker, the hashed one:
   * `GetImage` is called first, and `CacheImage`, if called, goes to the same worker with the
   * same URL. `CacheImage` is called exactly when `GetImage` answered `ErrNotFound`.
   */
  lemma RoutesToHashedWorker(unescaped: Result<string>, workers: seq<Node>, sha256: string -> Digest,
                             getImage: (string, string) -> Reply, cacheImage: (string, string) -> Reply)
    requires Valid(unescaped) && |workers| >= 1
    ensures var d := ImageHandlerDispatch(unescaped, workers, sha256, getImage, cacheImage);
      var imgUrl := unescaped.value;
      var target := Target(imgUrl, workers, sha256);
      && 1 <= |d.calls| <= 2
      && d.calls[0] == GetCall(target, imgUrl)
      && (|d.calls| == 2 <==> getImage(target, imgUrl).ErrNotFound?)
      && (|d.calls| == 2 ==> d.calls[1] == CacheCall(target, imgUrl))
  {
  }

  /**
   * What a routed request is answered with: the bytes of a hit, or the bytes of the populate
   * after a miss (the nil `raw` adds nothing), each without an explicit Content-Type; 500 for
   * any other `GetImage` error and for a failed populate.
   */
  lemma ServesWorkerBytes(unescaped: Result<string>, workers: seq<Node>, sha256: string -> Digest,
                          getImage: (string, string) -> Reply, cacheImage: (string, string) -> Reply)
    requires Valid(unescaped) && |workers| >= 1
    ensures var d := ImageHandlerDispatch(unescaped, workers, sha256, getImage, cacheImage);
      var imgUrl := unescaped.value;
      var target := Target(imgUrl, workers, sha256);
      var raw := getImage(target, imgUrl);
      var img := cacheImage(target, imgUrl);
      && (raw.Image? ==> d.resp == Payload("", raw.raw))
      && (raw.ErrNotFound? && img.Image? ==> d.resp == Payload("", img.raw))
      && (raw.Failure? || (raw.ErrNotFound? && !img.Image?) <==> d.resp == Error(InternalErrStr, StatusInternalServerError))
      && d.nodeId == None
  {
    var target := Target(unescaped.value, workers, sha256);
    var raw := getImage(target, unescaped.value);
    var img := cacheImage(target, unescaped.value);
    if raw.ErrNotFound? && img.Image? {
      assert img.raw + RawOf(raw) == img.raw;
    }
  }

  /** The routing index depends only on the URL and the snapshot size. */
  lemma RouteDeterministic(u: string, v: string, mod: int, sha256: string -> Digest)
    requires mod >= 1
    ensures sha256(u) == sha256(v) ==> IdFromUrl(u, mod, sha256) == IdFromUrl(v, mod, sha256)
  {
  }

  /** The `response` document of `HealthHandler`: node addresses and the health score. */
  datatype Health = Health(nodes: seq<string>, score: int)

  /** `HealthHandler`: the addresses of `Nodes()`, in order, and `HealthScore()`. */
  method HealthHandler(nodes: seq<Node>, healthScore: int) returns (h: Health)
    ensures |h.nodes| == |nodes|
    ensures forall i :: 0 <= i < |nodes| ==> h.nodes[i] == nodes[i].addr
    ensures h.score == healthScore
  {
    var addrs: seq<string> := [];
    var i := 0;
    while i < |nodes|
      invariant 0 <= i <= |nodes|
      invariant |addrs| == i
      invariant forall j :: 0 <= j < i ==> addrs[j] == nodes[j].addr
    {
      addrs := addrs + [nodes[i].addr];
      i := i + 1;
    }
    h := Health(addrs, healthScore);
  }
}
