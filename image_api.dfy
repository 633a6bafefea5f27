/**
 * The worker handlers of worker/internal/api/image.go: `ImageHandler` serves a cached image,
 * `ImageCacheHandler` downloads one into the cache. Every failure is reported with the
 * generic text "internal server error".
 */
module WorkerImageApi {
  import opened Common
  import opened Http
  import WorkerCache
  import UrlHasher

  const InternalErrorStr := "internal server error"
  const ImageNotFoundMsg := "image not found"
  const UnknownTypeMsg := "Unknown image type. Only jpeg and png are supported"

  /** JPEG start-of-image marker `FF D8`. */
  predicate IsJpeg(data: seq<byte>)
  {
    |data| >= 2 && data[0] == 0xFF && data[1] == 0xD8
  }

  /** The eight-byte signature of section 5.2 of the PNG specification. */
  predicate IsPng(data: seq<byte>)
  {
    |data| >= 8 && data[..8] == [0x89, 0x50, 0x4E, 0x47, 0x0D, 0x0A, 0x1A, 0x0A]
  }

  /** How a cached payload is answered: JPEG is tested first, then PNG, otherwise 400. */
  function TypedResponse(raw: seq<byte>): Response
  {
    if IsJpeg(raw) then Payload("image/jpeg", raw)
    else if IsPng(raw) then Payload("image/png", raw)
    else Error(UnknownTypeMsg, StatusBadRequest)
  }

  /**
   * The response of `ImageHandler` when `url.QueryUnescape` of the `url` parameter gave
   * `unescaped` and the cache holds `m`.
   */
  function ImageHandlerResponse(unescaped: Result<string>, hasher: string -> Result<string>, m: WorkerCache.Entries): Response
  {
    if unescaped.Err? then Error(InternalErrorStr, StatusInternalServerError)
    else
      var urlHash := hasher(unescaped.value);
      if urlHash.Err? then Error(InternalErrorStr, StatusInternalServerError)
      else
        var got := WorkerCache.Lookup(m, urlHash.value);
        if got.Ok? then TypedResponse(got.value)
        else if HasPrefix(got.msg, WorkerCache.MissMarker) then Error(ImageNotFoundMsg, StatusNotFound)
        else Error(InternalErrorStr, StatusInternalServerError)
  }

  /** The response of `ImageCacheHandler` and the cache contents it leaves behind. */
  function ImageCacheHandlerOutcome(req: CacheRequest, hasher: string -> Result<string>, download: string -> Download,
                                    m: WorkerCache.Entries): (Response, WorkerCache.Entries)
  {
    match req
    case ReadFailed(_) => (Error("Failed to read request body", StatusBadRequest), m)
    case BadJson(_) => (Error(InternalErrorStr, StatusBadRequest), m)
    case Parsed(url) =>
      match download(url)
      case FileNotFound(_) => (NotFound(), m)
      case DownloadFailed(_) => (Error(InternalErrorStr, StatusInternalServerError), m)
      case Fetched(raw) =>
        var hashedUrl := hasher(url);
        if hashedUrl.Err? || WorkerCache.KeyCheck(hashedUrl.value).Some? then
          (Error(InternalErrorStr, StatusInternalServerError), m)
        else
          (Payload("", raw), m[hashedUrl.value := raw])
  }

  method ImageHandler(cache: WorkerCache.Cache, unescaped: Result<string>, hasher: string -> Result<string>)
    returns (resp: Response)
    ensures resp == ImageHandlerResponse(unescaped, hasher, cache.m)
  {
    if unescaped.Err? {
      return Error(InternalErrorStr, StatusInternalServerError);
    }
    var urlHash := hasher(unescaped.value);
    if urlHash.Err? {
      return Error(InternalErrorStr, StatusInternalServerError);
    }
    var raw := cache.Get(urlHash.value);
    if raw.Err? {
      if HasPrefix(raw.msg, WorkerCache.MissMarker) {
        return Error(ImageNotFoundMsg, StatusNotFound);
      }
      return Error(InternalErrorStr, StatusInternalServerError);
    }
    if IsJpeg(raw.value) {
      resp := Payload("image/jpeg", raw.value);
    } else if IsPng(raw.value) {
      resp := Payload("image/png", raw.value);
    } else {
      return Error(UnknownTypeMsg, StatusBadRequest);
    }
  }

  method ImageCacheHandler(cache: WorkerCache.Cache, req: CacheRequest, hFunc: string -> Result<string>,
                           dlFunc: string -> Download)
    returns (resp: Response)
    modifies cache
    ensures (resp, cache.m) == ImageCacheHandlerOutcome(req, hFunc, dlFunc, old(cache.m))
  {
    if req.ReadFailed? {
      return Error("Failed to read request body", StatusBadRequest);
    }
    if req.BadJson? {
      return Error(InternalErrorStr, StatusBadRequest);
    }
    var raw := dlFunc(req.url);
    if raw.FileNotFound? {
      return NotFound();
    }
    if raw.DownloadFailed? {
      return Error(InternalErrorStr, StatusInternalServerError);
    }
    var hashedUrl := hFunc(req.url);
    if hashedUrl.Err? {
      return Error(InternalErrorStr, StatusInternalServerError);
    }
    var err := cache.Set(hashedUrl.value, raw.raw);
    if err.Some? {
      return Error(InternalErrorStr, StatusInternalServerError);
    }
    resp := Payload("", raw.raw);
  }

  /** A JPEG payload never carries the PNG signature, so testing JPEG first decides nothing. */
  lemma SignaturesExclusive(data: seq<byte>)
    ensures !(IsJpeg(data) && IsPng(data))
  {
  }

  /** A decode or hash failure answers 500 whatever the cache holds: the cache is not consulted. */
  lemma ImageHandlerFailsBeforeCache(unescaped: Result<string>, hasher: string -> Result<string>,
                                     m: WorkerCache.Entries, m': WorkerCache.Entries)
    requires unescaped.Err? || hasher(unescaped.value).Err?
    ensures ImageHandlerResponse(unescaped, hasher, m).status == StatusInternalServerError
    ensures ImageHandlerResponse(unescaped, hasher, m) == ImageHandlerResponse(unescaped, hasher, m')
  {
  }

  /**
   * Once the key is computed: a miss answers 404 and only a miss does; the empty key answers
   * 500; a hit is answered by the payload's type.
   */
  lemma ImageHandlerLookup(url: string, hasher: string -> Result<string>, m: WorkerCache.Entries)
    requires hasher(url).Ok?
    ensures var key, r := hasher(url).value, ImageHandlerResponse(Ok(url), hasher, m);
      && (r.status == StatusNotFound <==> key != "" && key !in m)
      && (key == "" ==> r == Error(InternalErrorStr, StatusInternalServerError))
      && (key != "" && key in m ==> r == TypedResponse(m[key]))
  {
    var key := hasher(url).value;
    if WorkerCache.Lookup(m, key).Err? {
      WorkerCache.MissIffMarker(m, key);
    }
  }

  /** Only JPEG or PNG payloads are served, verbatim from the cache and with their matching type. */
  lemma ImageHandlerServesOnlyImages(unescaped: Result<string>, hasher: string -> Result<string>, m: WorkerCache.Entries)
    ensures var r := ImageHandlerResponse(unescaped, hasher, m);
      r.status == StatusOK ==>
        && unescaped.Ok? && hasher(unescaped.value).Ok? && hasher(unescaped.value).value in m
        && r.body == Bytes(m[hasher(unescaped.value).value])
        && ((IsJpeg(r.body.data) && r.contentType == "image/jpeg")
            || (!IsJpeg(r.body.data) && IsPng(r.body.data) && r.contentType == "image/png"))
  {
  }

  /**
   * `ImageCacheHandler` changes the cache only on success, and then stores the downloaded
   * bytes verbatim under the URL's hash, with no type check, and answers with those bytes.
   * Each failure has its status: 400 for the body, 404 for an origin miss, 500 otherwise.
   */
  lemma ImageCacheHandlerEffects(req: CacheRequest, hasher: string -> Result<string>, download: string -> Download,
                                 m: WorkerCache.Entries)
    ensures var (r, m') := ImageCacheHandlerOutcome(req, hasher, download, m);
      && (r.status == StatusOK <==>
            req.Parsed? && download(req.url).Fetched? && hasher(req.url).Ok? && hasher(req.url).value != "")
      && (r.status == StatusOK ==>
            r.body == Bytes(download(req.url).raw) && m' == m[hasher(req.url).value := download(req.url).raw])
      && (r.status != StatusOK ==> m' == m)
      && ((req.ReadFailed? || req.BadJson?) ==> r.status == StatusBadRequest)
      && (req.ReadFailed? ==> r == Error("Failed to read request body", StatusBadRequest))
      && (req.BadJson? ==> r == Error(InternalErrorStr, StatusBadRequest))
      && (req.Parsed? && download(req.url).FileNotFound? ==> r == NotFound())
      && (req.Parsed? && download(req.url).DownloadFailed? ==> r == Error(InternalErrorStr, StatusInternalServerError))
      && (req.Parsed? && download(req.url).Fetched? && r.status != StatusOK ==>
            r == Error(InternalErrorStr, StatusInternalServerError))
  {
  }

  /**
   * Round trip: after a successful populate for `url`, a get for `url` returns the identical
   * bytes with the matching type, or 400 when they carry neither signature.
   */
  lemma PopulateThenServe(url: string, hasher: string -> Result<string>, download: string -> Download,
                          m: WorkerCache.Entries)
    requires ImageCacheHandlerOutcome(Parsed(url), hasher, download, m).0.status == StatusOK
    ensures download(url).Fetched?
    ensures ImageHandlerResponse(Ok(url), hasher, ImageCacheHandlerOutcome(Parsed(url), hasher, download, m).1)
            == TypedResponse(download(url).raw)
  {
  }

  /**
   * With the SHA-256 hasher the key is never empty, so the `Set` of a downloaded payload
   * cannot fail.
   */
  lemma Sha256KeyIsAlwaysStored(url: string, sha256: string -> UrlHasher.Digest, download: string -> Download,
                                m: WorkerCache.Entries)
    requires download(url).Fetched?
    ensures ImageCacheHandlerOutcome(Parsed(url), UrlHasher.Sha256Hasher(sha256), download, m).0
            == Payload("", download(url).raw)
    ensures ImageCacheHandlerOutcome(Parsed(url), UrlHasher.Sha256Hasher(sha256), download, m).1
            == m[UrlHasher.HexEncode(sha256(url)) := download(url).raw]
  {
    var key := UrlHasher.Sha256UrlHasher(url, sha256, None);
    assert UrlHasher.Sha256Hasher(sha256)(url) == key;
    assert key.Ok? && key.value != "";
  }
}
