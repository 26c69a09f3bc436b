/**
 * A remote HTTP service reached by `requests.get`: every request is logged
 * in order, and the answer is whatever the service gives to the n-th request.
 */
module Http {

  /** The numeric status of an HTTP response line. */
  type StatusCode = nat

  const Ok: StatusCode := 200

  class Endpoint<Request, Response> {
    /** Every request sent so far, oldest first. */
    var requests: seq<Request>
    /** The service: its response to a request sent when `n` had gone before. */
    const answer: (Request, nat) -> Response

    constructor (answer: (Request, nat) -> Response)
      ensures requests == [] && this.answer == answer
    {
      requests := [];
      this.answer := answer;
    }

    /** One synchronous GET: no retry, no caching. */
    method Get(request: Request) returns (response: Response)
      modifies this
      ensures requests == old(requests) + [request]
      ensures response == answer(request, |old(requests)|)
    {
      response := answer(request, |requests|);
      requests := requests + [request];
    }
  }
}
