/**
 * The method guards of worker/internal/middleware/exclusive.go: each wraps a handler and lets
 * through only requests with one HTTP method, answering every other request with 405.
 */
module Middleware {
  import opened Http

  /** A request: its method (`verb`) and whatever else the wrapped handler reads. */
  datatype Request<P> = Request(verb: string, params: P)

  const MethodNotAllowedMsg := "method not allowed"

  /** `OnlyGet(next)`. */
  function OnlyGet<P(!new)>(next: Request<P> -> Response): (h: Request<P> -> Response)
    ensures forall q: Request<P> :: q.verb == MethodGet ==> h(q) == next(q)
    ensures forall q: Request<P> :: q.verb != MethodGet ==> h(q) == Error(MethodNotAllowedMsg, StatusMethodNotAllowed)
  {
    (r: Request<P>) => if r.verb != MethodGet then Error(MethodNotAllowedMsg, StatusMethodNotAllowed) else next(r)
  }

  /** `OnlyPost(next)`. */
  function OnlyPost<P(!new)>(next: Request<P> -> Response): (h: Request<P> -> Response)
    ensures forall q: Request<P> :: q.verb == MethodPost ==> h(q) == next(q)
    ensures forall q: Request<P> :: q.verb != MethodPost ==> h(q) == Error(MethodNotAllowedMsg, StatusMethodNotAllowed)
  {
    (r: Request<P>) => if r.verb != MethodPost then Error(MethodNotAllowedMsg, StatusMethodNotAllowed) else next(r)
  }

  /**
   * Exactly one of two things happens, decided by exact equality of the method: a GET is
   * answered by `next` alone (the guard adds nothing), anything else by 405 without `next`.
   */
  lemma OnlyGetDecides<P(!new)>(next: Request<P> -> Response, other: Request<P> -> Response, r: Request<P>)
    ensures r.verb == MethodGet ==> OnlyGet(next)(r) == next(r)
    ensures r.verb != MethodGet ==>
              OnlyGet(next)(r) == Error(MethodNotAllowedMsg, StatusMethodNotAllowed) == OnlyGet(other)(r)
  {
  }

  lemma OnlyPostDecides<P(!new)>(next: Request<P> -> Response, other: Request<P> -> Response, r: Request<P>)
    ensures r.verb == MethodPost ==> OnlyPost(next)(r) == next(r)
    ensures r.verb != MethodPost ==>
              OnlyPost(next)(r) == Error(MethodNotAllowedMsg, StatusMethodNotAllowed) == OnlyPost(other)(r)
  {
  }
}
