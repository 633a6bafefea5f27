/**
 * What the handlers write to an `http.ResponseWriter`, and the outcomes of the library calls
 * the worker handlers make (query un-escaping, body reading and JSON decoding, the origin
 * download), each reduced to the values the handlers branch on.
 */
module Http {
  import opened Common

  const StatusOK := 200
  const StatusBadRequest := 400
  const StatusNotFound := 404
  const StatusMethodNotAllowed := 405
  const StatusInternalServerError := 500

  const MethodGet := "GET"
  const MethodPost := "POST"

  /** The Content-Type `http.Error` sets. */
  const TextPlain := "text/plain; charset=utf-8"

  /** A response body: raw payload bytes, or the text of an error message. */
  datatype Body = Bytes(data: seq<byte>) | Text(text: string)

  /**
   * Status, the Content-Type the handler set explicitly ("" when it set none) and body of a
   * response.
   */
  datatype Response = Response(status: int, contentType: string, body: Body)

  /** `http.Error(w, msg, code)`: the message followed by a newline, as plain text. */
  function Error(msg: string, code: int): Response
  {
    Response(code, TextPlain, Text(msg + "\n"))
  }

  /** `http.NotFound(w, r)`. */
  function NotFound(): Response
  {
    Error("404 page not found", StatusNotFound)
  }

  /** A successful write of `raw`, with the Content-Type the handler chose. */
  function Payload(contentType: string, raw: seq<byte>): Response
  {
    Response(StatusOK, contentType, Bytes(raw))
  }

  /**
   * What reading and JSON-decoding the body `{"url": ...}` of a cache-populate request gave:
   * `io.ReadAll` failed, `json.Unmarshal` failed, or the `url` field.
   */
  datatype CacheRequest = ReadFailed(readErr: string) | BadJson(jsonErr: string) | Parsed(url: string)

  /**
   * The origin downloader's result for a URL: the bytes, an error for which
   * `errors.Is(err, ErrFileNotFound)` holds, or any other error.
   */
  datatype Download = Fetched(raw: seq<byte>) | FileNotFound(notFoundErr: string) | DownloadFailed(err: string)
}
