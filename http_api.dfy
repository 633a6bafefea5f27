/**
 * The worker handlers of worker/internal/api/http.go, the variant its tests exercise:
 * `GetImage` serves a cached image, `PostCacheImage` downloads one into the cache. Unlike
 * image.go, the response echoes the text of the error that stopped the request.
 */
module WorkerHttpApi {
  import opened Common
  import opened Http
  import WorkerCache
  import UrlHasher

  const ImageNotFoundMsg := "image not found"
  const UnknownTypeMsg := "Unknown image type. Only jpeg and png are supported"

  /** JPEG start-of-image marker `FF D8`. */
  predicate IsJpeg(data: seq<byte>)
  {
    |data| >= 2 && data[0] == 0xFF && data[1] == 0xD8
  }

  /** The eight-byte signature of section 5.2 of the PNG specification. */
  predicate IsPng(data: seq<byte>)
  {
    |data| >= 8 && data[..8] == [0x89, 0x50, 0x4E, 0x47, 0x0D, 0x0A, 0x1A, 0x0A]
  }

  /** How a cached payload is answered: JPEG is tested first, then PNG, otherwise 400. */
  function TypedResponse(raw: seq<byte>): Response
  {
    if IsJpeg(raw) then Payload("image/jpeg", raw)
    else if IsPng(raw) then Payload("image/png", raw)
    else Error(UnknownTypeMsg, StatusBadRequest)
  }

  /** The response of `GetImage` when un-escaping the `url` parameter gave `unescaped`. */
  function GetImageResponse(unescaped: Result<string>, hasher: string -> Result<string>, m: WorkerCache.Entries): Response
  {
    if unescaped.Err? then Error(unescaped.msg, StatusInternalServerError)
    else
      var urlHash := hasher(unescaped.value);
      if urlHash.Err? then Error(urlHash.msg, StatusInternalServerError)
      else
        var got := WorkerCache.Lookup(m, urlHash.value);
        if got.Ok? then TypedResponse(got.value)
        else if HasPrefix(got.msg, WorkerCache.MissMarker) then Error(ImageNotFoundMsg, StatusNotFound)
        else Error(got.msg, StatusInternalServerError)
  }

  /** The response of `PostCacheImage` and the cache contents it leaves behind. */
  function PostCacheImageOutcome(req: CacheRequest, hasher: string -> Result<string>, download: string -> Download,
                                 m: WorkerCache.Entries): (Response, WorkerCache.Entries)
  {
    match req
    case ReadFailed(_) => (Error("Failed to read request body", StatusBadRequest), m)
    case BadJson(err) => (Error("Failed to unmarshal JSON data:" + err, StatusBadRequest), m)
    case Parsed(url) =>
      match download(url)
      case FileNotFound(_) => (NotFound(), m)
      case DownloadFailed(err) => (Error("Failed to download image " + err, StatusInternalServerError), m)
      case Fetched(raw) =>
        var hashedUrl := hasher(url);
        if hashedUrl.Err? then (Error(hashedUrl.msg, StatusInternalServerError), m)
        else
          var setErr := WorkerCache.KeyCheck(hashedUrl.value);
          if setErr.Some? then (Error(setErr.value, StatusInternalServerError), m)
          else (Payload("", raw), m[hashedUrl.value := raw])
  }

  method GetImage(cache: WorkerCache.Cache, unescaped: Result<string>, hasherFunc: string -> Result<string>)
    returns (resp: Response)
    ensures resp == GetImageResponse(unescaped, hasherFunc, cache.m)
  {
    if unescaped.Err? {
      return Error(unescaped.msg, StatusInternalServerError);
    }
    var urlHash := hasherFunc(unescaped.value);
    if urlHash.Err? {
      return Error(urlHash.msg, StatusInternalServerError);
    }
    var raw := cache.Get(urlHash.value);
    if raw.Err? {
      if HasPrefix(raw.msg, WorkerCache.MissMarker) {
        return Error(ImageNotFoundMsg, StatusNotFound);
      }
      return Error(raw.msg, StatusInternalServerError);
    }
    if IsJpeg(raw.value) {
      resp := Payload("image/jpeg", raw.value);
    } else if IsPng(raw.value) {
      resp := Payload("image/png", raw.value);
    } else {
      return Error(UnknownTypeMsg, StatusBadRequest);
    }
  }

  method PostCacheImage(cache: WorkerCache.Cache, req: CacheRequest, hFunc: string -> Result<string>,
                        dlFunc: string -> Download)
    returns (resp: Response)
    modifies cache
    ensures (resp, cache.m) == PostCacheImageOutcome(req, hFunc, dlFunc, old(cache.m))
  {
    if req.ReadFailed? {
      return Error("Failed to read request body", StatusBadRequest);
    }
    if req.BadJson? {
      return Error("Failed to unmarshal JSON data:" + req.jsonErr, StatusBadRequest);
    }
    var raw := dlFunc(req.url);
    if raw.FileNotFound? {
      return NotFound();
    }
    if raw.DownloadFailed? {
      return Error("Failed to download image " + raw.err, StatusInternalServerError);
    }
    var hashedUrl := hFunc(req.url);
    if hashedUrl.Err? {
      return Error(hashedUrl.msg, StatusInternalServerError);
    }
    var err := cache.Set(hashedUrl.value, raw.raw);
    if err.Some? {
      return Error(err.value, StatusInternalServerError);
    }
    resp := Payload("", raw.raw);
  }

  /**
   * A decode or hash failure answers 500 with the error's own text (the hashing-error test
   * expects the body "mocked hashing error\n"), whatever the cache holds.
   */
  lemma GetImageEchoesEarlyErrors(unescaped: Result<string>, hasher: string -> Result<string>,
                                  m: WorkerCache.Entries, m': WorkerCache.Entries)
    requires unescaped.Err? || hasher(unescaped.value).Err?
    ensures var r := GetImageResponse(unescaped, hasher, m);
      && r == GetImageResponse(unescaped, hasher, m')
      && r.status == StatusInternalServerError
      && r.body == Text((if unescaped.Err? then unescaped.msg else hasher(unescaped.value).msg) + "\n")
  {
  }

  /**
   * Once the key is computed: a miss, and only a miss, answers 404 "image not found"; the
   * empty key answers 500 with the cache's message; a hit is answered by the payload's type.
   */
  lemma GetImageLookup(url: string, hasher: string -> Result<string>, m: WorkerCache.Entries)
    requires hasher(url).Ok?
    ensures var key, r := hasher(url).value, GetImageResponse(Ok(url), hasher, m);
      && (r.status == StatusNotFound <==> key != "" && key !in m)
      && (key != "" && key !in m ==> r.body == Text("image not found\n"))
      && (key == "" ==> r == Error(WorkerCache.EmptyKeyError, StatusInternalServerError))
      && (key != "" && key in m ==> r == TypedResponse(m[key]))
  {
    var key := hasher(url).value;
    if WorkerCache.Lookup(m, key).Err? {
      WorkerCache.MissIffMarker(m, key);
    }
  }

  /** Only JPEG or PNG payloads are served, verbatim from the cache and with their matching type. */
  lemma GetImageServesOnlyImages(unescaped: Result<string>, hasher: string -> Result<string>, m: WorkerCache.Entries)
    ensures var r := GetImageResponse(unescaped, hasher, m);
      r.status == StatusOK ==>
        && unescaped.Ok? && hasher(unescaped.value).Ok? && hasher(unescaped.value).value in m
        && r.body == Bytes(m[hasher(unescaped.value).value])
        && ((IsJpeg(r.body.data) && r.contentType == "image/jpeg")
            || (!IsJpeg(r.body.data) && IsPng(r.body.data) && r.contentType == "image/png"))
  {
  }

  /**
   * The payload of the handler test, "mocked-img-data", carries neither signature, so the
   * code answers 400 where worker/internal/api/api_test.go:13-40 expects 200.
   */
  lemma MockedPayloadIsRejected(url: string, m: WorkerCache.Entries)
    requires m == map["mocked-hash" := [0x6d, 0x6f, 0x63, 0x6b, 0x65, 0x64, 0x2d, 0x69, 0x6d, 0x67, 0x2d, 0x64, 0x61, 0x74, 0x61]]
    ensures GetImageResponse(Ok(url), _ => Ok("mocked-hash"), m) == Error(UnknownTypeMsg, StatusBadRequest)
  {
  }

  /**
   * `PostCacheImage` changes the cache only on success, and then stores the downloaded bytes
   * verbatim under the URL's hash and answers with them; an origin miss answers 404 and every
   * other download error 500.
   */
  lemma PostCacheImageEffects(req: CacheRequest, hasher: string -> Result<string>, download: string -> Download,
                              m: WorkerCache.Entries)
    ensures var (r, m') := PostCacheImageOutcome(req, hasher, download, m);
      && (r.status == StatusOK <==>
            req.Parsed? && download(req.url).Fetched? && hasher(req.url).Ok? && hasher(req.url).value != "")
      && (r.status == StatusOK ==>
            r.body == Bytes(download(req.url).raw) && m' == m[hasher(req.url).value := download(req.url).raw])
      && (r.status != StatusOK ==> m' == m)
      && ((req.ReadFailed? || req.BadJson?) ==> r.status == StatusBadRequest)
      && (req.ReadFailed? ==> r == Error("Failed to read request body", StatusBadRequest))
      && (req.BadJson? ==> r == Error("Failed to unmarshal JSON data:" + req.jsonErr, StatusBadRequest))
      && (req.Parsed? && download(req.url).FileNotFound? ==> r == NotFound())
      && (req.Parsed? && download(req.url).DownloadFailed? ==>
            r == Error("Failed to download image " + download(req.url).err, StatusInternalServerError))
  {
  }

  /**
   * Round trip: after a successful populate for `url`, a get for `url` returns the identical
   * bytes with the matching type, or 400 when they carry neither signature.
   */
  lemma PopulateThenServe(url: string, hasher: string -> Result<string>, download: string -> Download,
                          m: WorkerCache.Entries)
    requires PostCacheImageOutcome(Parsed(url), hasher, download, m).0.status == StatusOK
    ensures download(url).Fetched?
    ensures GetImageResponse(Ok(url), hasher, PostCacheImageOutcome(Parsed(url), hasher, download, m).1)
            == TypedResponse(download(url).raw)
  {
  }

  /** With the SHA-256 hasher the key is never empty, so the `Set` at line 97 cannot fail. */
  lemma Sha256KeyIsAlwaysStored(url: string, sha256: string -> UrlHasher.Digest, download: string -> Download,
                                m: WorkerCache.Entries)
    requires download(url).Fetched?
    ensures PostCacheImageOutcome(Parsed(url), UrlHasher.Sha256Hasher(sha256), download, m).0
            == Payload("", download(url).raw)
    ensures PostCacheImageOutcome(Parsed(url), UrlHasher.Sha256Hasher(sha256), download, m).1
            == m[UrlHasher.HexEncode(sha256(url)) := download(url).raw]
  {
    var key := UrlHasher.Sha256UrlHasher(url, sha256, None);
    assert UrlHasher.Sha256Hasher(sha256)(url) == key;
    assert key.Ok? && key.value != "";
  }
}
