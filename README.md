# img-proxy: a Dafny model of the fetch-through image cache

img-proxy serves remote images through a cluster. A **gateway** takes `GET /image?url=...`. It
checks that the percent-decoded URL starts with `https` and picks one **worker**: the SHA-256 of
the URL, read as a big-endian integer, modulo the number of workers. It then asks that worker
for the image and, when the worker answers "not found", tells the worker to download it from
the origin and cache it.

A worker keeps an in-memory map from the hex SHA-256 of the URL to the raw bytes. It serves
JPEG and PNG payloads with their content type and refuses anything else with 400. The worker
also has GET-only and POST-only method guards and a dashboard that counts cluster members by a
substring of their metadata. `FindIp` scans interface addresses
for the first non-loopback IPv4 address. The gateway's own start-up looks its address up
through `GetIp`, which is not part of this model.

The model has one Dafny module per Go file:

- `WorkerCache` (cache.go) is a class over a `map<string, seq<bv8>>`. Its methods are specified
  by the pure functions `KeyCheck` and `Lookup`.
- `UrlHasher` (url_hasher.go) covers the hex encoding, its decoder and the hasher. SHA-256 is a
  function parameter that returns 32 bytes.
- `WorkerImageApi`, `WorkerHttpApi` and `WorkerApi` are the three worker handler files (image.go,
  http.go, api.go). Each has a pure response (and new-cache) function. Each has methods over a
  `WorkerCache.Cache` proved equal to that function, and lemmas about the function.
- `Middleware` (exclusive.go) and `Dashboard` (dashboard.go).
- `ImageService` (gateway imageservice/service.go) covers how requests to a worker are built and
  how a worker's answer is classified.
- `GatewayHandler` and `GatewayHttp` (gateway api/handler.go and api/http.go) are the
  dispatchers. Each returns the response, the `Node-Id` header and the ordered list of service
  calls made. Each also has the health listing.
- `GatewayIp` (ip.go) holds `FindIp`.
- Shared value types live in `Common`, `Http`, `Gateway` and `Membership`.

Library calls are inputs of the model:

- `url.QueryUnescape` arrives as a `Result<string>`.
- Reading and JSON-decoding the populate body arrives as a `CacheRequest`.
- The origin download, the hasher, SHA-256 and the image service calls are function parameters.
- A gateway-to-worker HTTP exchange is an `Outgoing -> Exchange` function.

## Model

| member | source | states |
|---|---|---|
| WorkerCache.Cache.constructor | worker/internal/cache.go:13-17 | a new cache is empty |
| WorkerCache.Cache.Set | worker/internal/cache.go:19-27 | an empty key gives "key cannot be empty" and leaves the map unchanged; otherwise the key is bound to the value, overwriting any old one |
| WorkerCache.Cache.Get | worker/internal/cache.go:29-39 | the empty key fails with "key cannot be empty", a present key gives its value, an absent key fails with "key not found: " + key; the map is not changed |
| WorkerCache.Cache.Remove | worker/internal/cache.go:41-49 | the empty key fails and changes nothing; otherwise only that key is deleted, and removing an absent key succeeds |
| WorkerCache.Cache.Count | worker/internal/cache.go:51-56 | the number of keys; the map is not changed |
| WorkerCache.GetAfterSet | worker/internal/cache.go:19-39 | after a successful Set of k, Get(k) is exactly the value and every other key keeps its result |
| WorkerCache.GetAfterRemove | worker/internal/cache.go:35-48 | after Remove(k), Get(k) is the not-found error and every other key keeps its result |
| WorkerCache.CountAfterSet | worker/internal/cache.go:19-27 | Set of a new key adds 1 to Count, Set of an existing key adds 0 |
| WorkerCache.CountAfterRemove | worker/internal/cache.go:41-56 | Remove of a present key subtracts 1 from Count, of an absent key 0 |
| WorkerCache.MissIffMarker | worker/internal/cache.go:30-38 | a Get error carries the "key not found:" prefix exactly when the key is non-empty and absent, so the empty-key error is told apart |
| UrlHasher.HexEncode | worker/internal/url_hasher.go:18 | two characters per byte |
| UrlHasher.HexEncodeAt | worker/internal/url_hasher.go:18 | byte i becomes the hex digit of its high nibble at 2i and of its low nibble at 2i+1 |
| UrlHasher.HexEncodeAlphabet | worker/internal/url_hasher.go:18 | every output character is in 0123456789abcdef |
| UrlHasher.HexRoundTrip | worker/internal/url_hasher.go:18 | decoding the hex string gives back the bytes |
| UrlHasher.HexEncodeInjective | worker/internal/url_hasher.go:18 | different digests give different hex strings |
| UrlHasher.Sha256UrlHasher | worker/internal/url_hasher.go:10-20 | a write error is returned as is; on success the value is the hex of the 32-byte digest: 64 characters, all hex digits, never empty |
| UrlHasher.FingerprintsSeparate | worker/internal/url_hasher.go:10-20 | the same URL always gives the same key, and URLs with different digests give different keys |
| WorkerImageApi.ImageHandler | worker/internal/api/image.go:17-62 | the response is the decision function of the handler over the cache's current map; the cache is only read |
| WorkerImageApi.ImageCacheHandler | worker/internal/api/image.go:65-119 | the response and the new map are the populate decision over the old map |
| WorkerImageApi.SignaturesExclusive | worker/internal/api/image.go:121-133 | no payload carries both the JPEG SOI marker and the PNG signature |
| WorkerImageApi.ImageHandlerFailsBeforeCache | worker/internal/api/image.go:19-31 | a decode or hash failure gives 500 whatever the cache holds |
| WorkerImageApi.ImageHandlerLookup | worker/internal/api/image.go:33-53 | 404 exactly on a miss, 500 for the empty key, and a hit is answered by its type (JPEG first, then PNG, else 400) |
| WorkerImageApi.ImageHandlerServesOnlyImages | worker/internal/api/image.go:33-55 | a 200 carries the cached bytes verbatim, typed image/jpeg for a JPEG and image/png for a PNG |
| WorkerImageApi.ImageCacheHandlerEffects | worker/internal/api/image.go:71-117 | success exactly when the body parses, the download succeeds and the key is non-empty; then the bytes are stored verbatim under the hash and echoed; 400 "Failed to read request body" for an unreadable body and 400 "internal server error" for bad JSON, 404 for an origin not-found, 500 "internal server error" for every other failure (download, hasher, empty key); every failure leaves the cache unchanged |
| WorkerImageApi.PopulateThenServe | worker/internal/api/image.go:33-107 | after a successful populate of a URL, a get of that URL is answered by the downloaded bytes' type |
| WorkerImageApi.Sha256KeyIsAlwaysStored | worker/internal/api/image.go:98-117 | with the SHA-256 hasher, a downloaded payload is echoed with 200 and stored under the hex digest of the URL; the empty-key error cannot fire |
| WorkerHttpApi.GetImage | worker/internal/api/http.go:14-56 | the response is the decision function over the cache's current map; the cache is only read |
| WorkerHttpApi.PostCacheImage | worker/internal/api/http.go:58-107 | the response and the new map are the populate decision over the old map |
| WorkerHttpApi.GetImageEchoesEarlyErrors | worker/internal/api/http.go:16-28 | a decode or hash failure gives 500 with the error text as the body, whatever the cache holds |
| WorkerHttpApi.GetImageLookup | worker/internal/api/http.go:30-48 | a miss and only a miss gives 404 "image not found"; another cache error gives 500 with its text; a hit is answered by its type |
| WorkerHttpApi.GetImageServesOnlyImages | worker/internal/api/http.go:30-50 | a 200 carries the cached bytes verbatim with their matching type |
| WorkerHttpApi.MockedPayloadIsRejected | worker/internal/api/api_test.go:13-40 | the cached "mocked-img-data" of the test is answered with 400, not the 200 the test expects |
| WorkerHttpApi.PostCacheImageEffects | worker/internal/api/http.go:64-105 | an unreadable body gives 400 "Failed to read request body", bad JSON 400 "Failed to unmarshal JSON data:" + the error, an origin not-found gives 404, other download errors 500 with the text; on success the bytes are stored verbatim under the hash and echoed; failures leave the cache unchanged |
| WorkerHttpApi.PopulateThenServe | worker/internal/api/http.go:30-97 | after a successful populate, a get of the URL is answered by the downloaded bytes' type |
| WorkerHttpApi.Sha256KeyIsAlwaysStored | worker/internal/api/http.go:88-105 | with the SHA-256 hasher a downloaded payload is echoed with 200 and stored under the hex digest of the URL |
| WorkerApi.GetImage | worker/internal/api/api.go:13-54 | the response is the decision function over the cache's current map; the cache is only read |
| WorkerApi.PostCacheImage | worker/internal/api/api.go:56-99 | the response and the new map are the populate decision over the old map |
| WorkerApi.GetImageEchoesEarlyErrors | worker/internal/api/api.go:15-25 | a decode or hash failure gives 500 with the error text |
| WorkerApi.GetImageLookup | worker/internal/api/api.go:27-45 | 404 exactly on a miss, other cache errors 500, a hit answered by its type |
| WorkerApi.GetImageServesOnlyImages | worker/internal/api/api.go:37-48 | a 200 carries the cached bytes verbatim with their matching type |
| WorkerApi.PostCacheImageEffects | worker/internal/api/api.go:62-95 | body errors give 400; every download failure, an origin not-found included, gives 500 and never 404; on success the bytes are stored under the hash and echoed with 200 |
| WorkerApi.PopulateThenServe | worker/internal/api/api.go:27-88 | after a successful populate, a get of the URL is answered by the downloaded bytes' type |
| WorkerApi.Sha256KeyIsAlwaysStored | worker/internal/api/api.go:80-95 | with the SHA-256 hasher a downloaded payload is echoed with 200 and stored under the hex digest of the URL |
| Middleware.OnlyGetDecides | worker/internal/middleware/exclusive.go:8-16 | a GET is answered by the wrapped handler alone; any other method by 405 "method not allowed", the same whatever the wrapped handler is |
| Middleware.OnlyPostDecides | worker/internal/middleware/exclusive.go:19-27 | a POST is answered by the wrapped handler alone; any other method by 405 |
| Middleware.OnlyGet | worker/internal/middleware/exclusive.go:8-16 | the wrapped handler answers every GET; every other method gets 405 "method not allowed" (see OnlyGetDecides) |
| Middleware.OnlyPost | worker/internal/middleware/exclusive.go:19-27 | the wrapped handler answers every POST; every other method gets 405 "method not allowed" (see OnlyPostDecides) |
| Dashboard.HandleDashboard | worker/internal/api/dashboard.go:66-93 | node count is the number of members, image count the cache's key count, and the gateway and worker counts are the numbers of members whose metadata contains "gateway" and "worker" |
| Dashboard.WithRoleMembers | worker/internal/api/dashboard.go:76-93 | a member is counted for a role exactly when its metadata contains the role |
| Dashboard.WithRoleBounded | worker/internal/api/dashboard.go:76-93 | each role count is at most the node count |
| Dashboard.WorkerMetaIsWorkerOnly | worker/cmd/main.go:45 | the worker metadata counts as a worker and not as a gateway |
| Dashboard.GatewayMetaIsGatewayOnly | gateway/internal/cluster.go:34 | the gateway metadata counts as a gateway and not as a worker |
| Dashboard.RoleCountsPartition | worker/internal/api/dashboard.go:76-93 | when every member's metadata names exactly one of the two roles, the two counts sum to the node count |
| Dashboard.StandardRolesPartition | worker/internal/api/dashboard.go:76-93 | when every member advertises the standard worker or gateway metadata, the two counts sum to the node count |
| Dashboard.CountsNeedNotPartition | worker/internal/api/dashboard.go:76-93 | a member whose metadata contains both words counts twice, one with neither counts for no role |
| Dashboard.BothRolesPossible | worker/internal/api/dashboard.go:79-89 | metadata can contain both role words |
| Common.ContainsIffOccurs | worker/internal/api/dashboard.go:79 | the substring test agrees with the positional definition, in both directions |
| ImageService.GetImageRequest | gateway/internal/imageservice/service.go:47-49 | GetImage sends a GET to workerUrl + "/?url=" + the escaped image URL |
| ImageService.CacheImageRequest | gateway/internal/imageservice/service.go:82-93 | CacheImage POSTs the JSON {"url": imgUrl} with Content-Type application/json to workerUrl + "/v1/cache" |
| ImageService.ClassifyGet | gateway/internal/imageservice/service.go:49-78 | 404 and only 404 is ErrNotFound; request and transport errors are passed on as they are; another non-200 status is "HTTP request failed with status code: " + status; 200 gives the whole body |
| ImageService.ClassifyCache | gateway/internal/imageservice/service.go:89-110 | never ErrNotFound: every non-200 status, 404 included, is the generic status error; 200 gives the whole body |
| ImageService.GetImage | gateway/internal/imageservice/service.go:46-79 | the reply to the request it sends is ErrNotFound exactly on a 404, the image exactly on a 200 with a readable body, whose bytes it carries; the request itself is fixed by GetImageRequest |
| ImageService.CacheImage | gateway/internal/imageservice/service.go:81-111 | never ErrNotFound; the image exactly on a 200 with a readable body, whose bytes it carries; the request is fixed by CacheImageRequest |
| ImageService.MockedClientServesBody | gateway/internal/imageservice/service_test.go:22-33 | a client answering 200 with body "bytes" makes GetImage return those five bytes |
| ImageService.GetImageNeverReachesWorker | gateway/internal/imageservice/service.go:47 | the path "/" is not routed by the worker's mux, so GetImage answers ErrNotFound whatever the worker holds |
| ImageService.GetImageRequestCorrected | gateway/internal/imageservice/service.go:47 | the corrected request targets workerUrl + "/v1/image?url=" + the escaped image URL |
| ImageService.GetImageCorrected | gateway/internal/imageservice/service.go:46-79 | GetImage with the corrected request: the same classification of the worker's answer |
| ImageService.GetImageCorrectedReachesWorker | worker/cmd/main.go:57 | the corrected request is routed to the worker's image handler, so its answer is the worker's |
| ImageService.CacheImageReachesWorker | worker/cmd/main.go:58 | the populate request is routed to the worker's cache handler |
| GatewayHandler.IdFromUrl | gateway/internal/api/handler.go:88-100 | for a positive modulus the index lies in [0, mod) |
| GatewayHandler.ImageHandlerDispatch | gateway/internal/api/handler.go:21-85 | no Node-Id; at most two service calls, none exactly when the request is invalid or the snapshot empty, and the first is GetImage on the hashed worker; the responses are decided by RejectsBeforeRouting, EmptyClusterUnavailable, RoutesToHashedWorker and ServesWorkerBytes |
| GatewayHandler.RouteDeterministic | gateway/internal/api/handler.go:88-100 | the index depends only on the URL's digest and the modulus |
| GatewayHandler.RejectsBeforeRouting | gateway/internal/api/handler.go:25-38 | 400 exactly for a decode failure or a URL without the "https" prefix, with the generic and the "invalid url: " texts; no service call is made |
| GatewayHandler.EmptyClusterUnavailable | gateway/internal/api/handler.go:40-46 | an empty worker snapshot gives 500 with no service call, before any modulus is taken |
| GatewayHandler.RoutesToHashedWorker | gateway/internal/api/handler.go:48-56 | GetImage goes first to "http://" + addr + ":8080" of the hashed worker; CacheImage is called once, on the same worker and URL, exactly when GetImage answered ErrNotFound |
| GatewayHandler.ServesWorkerBytes | gateway/internal/api/handler.go:54-83 | a hit is answered with its bytes, a miss with the populate's bytes (the nil raw adds nothing); another GetImage error or a failed populate gives 500 |
| GatewayHandler.HealthHandler | gateway/internal/api/handler.go:108-118 | the node list is the addresses of the nodes in order, and the score is the health score |
| GatewayHttp.IdFromUrl | gateway/internal/api/http.go:85-97 | for a positive modulus the index lies in [0, mod) |
| GatewayHttp.HandleImageDispatch | gateway/internal/api/http.go:19-82 | at most two service calls, none exactly when the request is not a valid GET or the snapshot is empty; Node-Id is set exactly when a call is made, to the decimal routing index, and the first call is GetImage on that worker; the responses are decided by RejectsBeforeRouting, EmptyClusterUnavailable, RoutesToHashedWorker and ServesWorkerBytes |
| GatewayHttp.RouteDeterministic | gateway/internal/api/http.go:85-97 | the index depends only on the URL's digest and the modulus |
| GatewayHttp.RejectsBeforeRouting | gateway/internal/api/http.go:23-40 | a non-GET and only a non-GET gets 405 "Method not allowed", before decoding; a decode failure gets 400 "error un-escaping url"; a URL without "https" gets 400 "invalid url: " + url; none touches the service or sets Node-Id |
| GatewayHttp.EmptyClusterUnavailable | gateway/internal/api/http.go:42-47 | zero workers give 500 "cluster not available" without routing |
| GatewayHttp.RoutesToHashedWorker | gateway/internal/api/http.go:49-57 | Node-Id is the decimal of the chosen index and reads back as that index; GetImage goes to the hashed worker, and CacheImage to the same worker exactly on ErrNotFound |
| GatewayHttp.ServesWorkerBytes | gateway/internal/api/http.go:55-76 | a hit or a successful populate after a miss is answered with the worker's bytes; other errors give 500 "client responded with: " + the error text |
| GatewayHttp.EveryRequestRepopulates | gateway/internal/imageservice/service.go:47 | with the request as written and the worker's mux, every routed request makes a GetImage and then a CacheImage call to the hashed worker |
| GatewayHttp.CorrectedHitSkipsPopulate | gateway/internal/api/http.go:55-76 | with the corrected request, a worker that holds the image serves it with one call and no populate |
| GatewayHttp.HandleHealth | gateway/internal/api/http.go:99-106 | the node list is the addresses of the nodes in order, and the score is the health score |
| Common.Decimal | gateway/internal/api/http.go:53 | strconv.Itoa of a non-negative index: a non-empty string of decimal digits without a leading zero |
| Common.DecimalRoundTrip | gateway/internal/api/http.go:53 | the Node-Id digits read back as the index |
| Common.DecimalInjective | gateway/internal/api/http.go:53 | different indices give different Node-Id values |
| GatewayIp.To4 | gateway/internal/ip.go:17 | To4 gives a 4-byte form or none |
| GatewayIp.To4OfIPv4 | gateway/internal/ip_test.go:19 | the 4-byte form of net.IPv4(a, b, c, d) is [a, b, c, d] |
| GatewayIp.FindIp | gateway/internal/ip.go:10-22 | the scan, including its early exit on an empty list, returns what the first-match specification returns |
| GatewayIp.FirstIpIsFirstQualifier | gateway/internal/ip.go:10-22 | the result is "no ip found" exactly when no address is a non-loopback IPv4 network address; otherwise it is the dotted quad of the first one |
| GatewayIp.NoAddresses | gateway/internal/ip_test.go:27-31 | an empty list gives "no ip found" |
| GatewayIp.PrivateV4Found | gateway/internal/ip_test.go:16-25 | 192.168.0.1/24 gives "192.168.0.1" |
| GatewayIp.V6OnlyNotFound | gateway/internal/ip_test.go:33-42 | 2001:db8::1/64 alone gives "no ip found" |
| GatewayIp.LoopbackNotFound | gateway/internal/ip_test.go:44-53 | 127.0.0.1/8 alone gives "no ip found" |

## Left out

- Concurrency. The cache's `sync.RWMutex`, concurrent handlers and duplicate origin downloads for the same URL are not modelled. The cache is sequential.
- Response write failures. Every `w.Write` is assumed to succeed, so the error responses written after a failed write are not modelled.
- Headers. `http.Error` also sets `X-Content-Type-Options: nosniff`. Go sniffs a Content-Type when a handler sets none. The model records only the Content-Type a handler sets itself: `""` when it sets none, and the plain-text type of `http.Error`.
- Percent-decoding, escaping, JSON and hashing. `url.QueryUnescape`, `url.QueryEscape`, `json.Marshal`/`json.Unmarshal`, `io.ReadAll` and SHA-256 are abstract inputs. No round trip between the escape and unescape functions is claimed. `json.Marshal` of the populate body cannot fail for a string map, so that error branch is not modelled.
- The origin downloader. Its result is an abstract `Download`. As written, worker/internal/downloader.go never returns a not-found error, and `ErrFileNotFound` is not defined in any file shown. The model still lets a download report it, as all three handlers allow.
- UrlHasher.Sha256UrlHasher returns only the error when the hasher's write fails. The `""` that Go returns beside it is not modelled, because no caller reads the value once the error is set.
- WorkerImageApi.IsJpeg, WorkerImageApi.IsPng and their copies in the other two handler modules carry no contract of their own. Each is the byte comparison of the source, and the lemmas about responses state its consequences.
- Two snapshots. The gateway handlers read the worker list twice (gateway/internal/api/handler.go:40, 49). The model takes one snapshot. The in-range index holds only under that assumption.
- GatewayHandler.IdFromUrl and GatewayHttp.IdFromUrl require a positive modulus. `big.Int.Mod` panics on zero, and both handlers call it only after rejecting an empty snapshot.
- GatewayHandler.HealthHandler and GatewayHttp.HandleHealth give an empty sequence when there are no nodes. Go marshals that nil slice as JSON `null`. JSON marshalling and its error path are not modelled.
- Dashboard.HandleDashboard takes the member list as one snapshot. The Go handler calls `ml.Members()` three times (worker/internal/api/dashboard.go:70, 77, 87), once for the total and once for each role count, and the membership can change between those calls. Dashboard.WithRoleBounded (each count is at most the total) and Dashboard.StandardRolesPartition (the two counts add up to the total) hold for the model's single snapshot only.
- Logging. The `log.Println` and `log.Printf` calls made on the handlers' error paths are not modelled. They write only to the process log and change neither the response nor the cache.
- Strings as characters. Go strings are byte sequences; the model uses Dafny character sequences for URLs, metadata and cache keys, so no UTF-8 encoding is modelled. The prefix "https", the role words and the hex keys the model reasons about are ASCII, where the two views agree.
- Dashboard rendering. The HTML template, the local node's fields beyond copying them, and the template errors are not modelled.
- The worker's health handler (TCP dials), environment and config reading, the metrics counters, the load script, the memberlist wiring of both `main.go` files, and the two unused gateway clients (gateway/internal/workerservice/service.go and gateway/internal/worker/service.go) are not part of this model. Only the worker's route table (worker/cmd/main.go:57-60) is used, for the finding below.
- `Cluster` defines no `WorkerNodes` method, although the handlers call it. The worker list is an abstract snapshot.
- api_test.go:64-84 expects 400 "invalid url", which no handler produces. api_test.go:13-40 expects 200 for a payload that is neither JPEG nor PNG. The model follows the code, and `WorkerHttpApi.MockedPayloadIsRejected` shows the 400 the code gives.
- The worker's handler files share one Go package but declare clashing names: `isJpeg` and `isPng` are defined in worker/internal/api/api.go, http.go and image.go; `GetImage` and `PostCacheImage` in api.go and http.go. As written the package does not compile as a whole. Each file is its own module here, and image.go's `ImageHandler` and `ImageCacheHandler` are modelled beside them.

## Findings

| source | as written | input that shows it | evidently intended | confidence | as-written member | corrected member |
|---|---|---|---|---|---|---|
| gateway/internal/imageservice/service.go:47 | GetImage requests the path "/" on the worker. The worker's mux registers only /v1/image, /v1/cache, /health and /dashboard (worker/cmd/main.go:57-60), so "/" gets the mux's 404, which is classified as ErrNotFound | any valid https image URL requested twice through the gateway: the second request still misses and populates again | request workerUrl + "/v1/image?url=" + the escaped URL, so a cached image is served from the worker's cache | high; not executed | GatewayHttp.EveryRequestRepopulates | GatewayHttp.CorrectedHitSkipsPopulate |
