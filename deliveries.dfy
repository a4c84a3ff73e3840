/** The outcomes `postPayload` depends on and what one call of it does, shared by
    both program variants. `json.Marshal`, `http.Post` and the file calls are
    foreign: their outcomes are inputs of the model. */
module Deliveries {
  import opened Bytes
  import opened Payloads
  import opened FailureStore

  /** `http.StatusOK`. */
  const StatusOK: int := 200

  /** The content type of every request. */
  const JsonContentType: Line := "application/json"

  /** Outcome of `json.Marshal(payload)` for the request body. */
  datatype MarshalOutcome = MarshalOk | MarshalError

  /** Outcome of the POST. `TransportError` is an error that comes with a nil response
      (an unreachable endpoint, say). `Response(status)` is a response with its status
      code; an error that comes with a non-nil response, as `net/http` returns when its
      redirect policy stops a request, is a `Response` too, since the code then reads a
      real status code and nothing panics. */
  datatype PostOutcome = TransportError | Response(status: int)

  /** Everything the environment decides during one `postPayload` call. */
  datatype Inputs = Inputs(marshal: MarshalOutcome, post: PostOutcome, store: StoreOutcome)

  /** One `httpPost(url, contentType, body)` call. */
  datatype Request = Request(url: Line, contentType: Line, body: Line)

  /** What one `postPayload` call does: the request it sends, if any; the payload it
      hands to `logFailure`, if any; and the lines that call adds to the failure log. */
  datatype Delivery = Delivery(request: Option<Request>, logged: Option<Payload>, entries: seq<Line>)

  /** A `postPayload` call as the code is written: it either runs to its end or panics. */
  datatype Attempt = Completed(delivery: Delivery) | Panicked

  /** The POST counts as delivered: no transport error and status 200. */
  predicate Delivered(post: PostOutcome)
  {
    post == Response(StatusOK)
  }
}
