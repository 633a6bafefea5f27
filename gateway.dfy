/**
 * What the two gateway handler files share: the worker calls a request made, the outcome of
 * dispatching one request, the worker base URL, and the big-endian reading of a digest that
 * `big.Int.SetBytes` performs.
 */
module Gateway {
  import opened Common
  import opened Http

  /** A call the dispatcher made to the image service, with the worker URL and image URL it passed. */
  datatype Call = GetCall(workerUrl: string, imgUrl: string) | CacheCall(workerUrl: string, imgUrl: string)

  /** The response, the `Node-Id` header if one was set, and the worker calls made, in order. */
  datatype Dispatch = Dispatch(resp: Response, nodeId: Option<string>, calls: seq<Call>)

  /** `fmt.Sprintf("http://%s:%d", addr, 8080)`. */
  function WorkerUrl(addr: string): string
  {
    "http://" + addr + ":8080"
  }

  /** `big.Int.SetBytes`: the bytes read as an unsigned big-endian integer. */
  function BigEndian(b: seq<byte>): nat
  {
    if b == [] then 0 else BigEndian(b[..|b| - 1]) * 256 + b[|b| - 1] as int
  }
}
