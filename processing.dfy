/** Response processing: a completed HTTP response becomes either its decoded
    body or exactly one typed error, decided by the status code
    (status codes as in section 15 of RFC 9110). */
module Processing {
  import opened Wrappers
  import opened Values
  import opened Errors

  /** The parts of a response the processor reads. `decoded` is what decoding
      the body as JSON gives: the value, or the decoder's error message. The
      body is decoded as JSON whatever the content type says. */
  datatype Response = Response(
    status: int,
    url: string,
    requestMethod: string,
    content: string,
    decoded: Result<Value, string>)

  /** A body that does not parse as JSON is a MalformedDataError. */
  function ProcessJson(resp: Response): (r: Result<Value, Error>)
    ensures r.Success? <==> resp.decoded.Success?
    ensures r.Success? ==> r.value == resp.decoded.value
    ensures r.Failure? ==> r.error.MalformedDataError?
  {
    match resp.decoded
    case Success(v) => Success(v)
    case Failure(msg) => Failure(MalformedDataError(msg))
  }

  function ProcessContent(resp: Response): (r: Result<Value, Error>)
    ensures r == ProcessJson(resp)
  {
    ProcessJson(resp)
  }

  predicate Succeeds(status: int) { status == 200 || status == 201 }

  /** The status codes with an error of their own. */
  predicate Recognised(status: int) {
    Succeeds(status) || status == 400 || status == 401 || status == 404 || status == 405
  }

  /** The dispatch as the processor is written: the 400 branch reads an
      attribute `request` that the processor does not have, so what 400
      raises is an AttributeError. */
  function ProcessAsWritten(resp: Response): (r: Result<Value, Error>)
    ensures resp.status == 400 ==> r == Failure(AttributeError("request"))
    ensures resp.status != 400 ==> r == Process(resp)
  {
    if resp.status == 400 then Failure(AttributeError("request")) else Process(resp)
  }

  /** The dispatch with the 400 branch reading the response's own content:
      200 and 201 decode the body; 400, 401, 404 and 405 raise their own
      error; every other code raises UnexpectedStatusCodeError. */
  function Process(resp: Response): (r: Result<Value, Error>)
    ensures r.Success? ==> Succeeds(resp.status) && resp.decoded == Success(r.value)
    ensures Succeeds(resp.status) ==> r == ProcessContent(resp)
    ensures resp.status == 400 ==> r == Failure(RequestError(BadRequest(resp.content)))
    ensures resp.status == 401 ==> r == Failure(UnauthorizedError)
    ensures resp.status == 404 ==> r == Failure(EndpointNotFoundError(resp.url))
    ensures resp.status == 405 ==> r == Failure(MethodNotAllowedError(resp.requestMethod))
    ensures !Recognised(resp.status) ==> r == Failure(UnexpectedStatusCodeError(resp.status))
  {
    var code := resp.status;
    if code == 200 || code == 201 then ProcessContent(resp)
    else if code == 400 then Failure(RequestError(BadRequest(resp.content)))
    else if code == 401 then Failure(UnauthorizedError)
    else if code == 404 then Failure(EndpointNotFoundError(resp.url))
    else if code == 405 then Failure(MethodNotAllowedError(resp.requestMethod))
    else Failure(UnexpectedStatusCodeError(code))
  }

  /** The kind of outcome depends on the status code alone: two responses
      with the same code either both succeed or fail with the same kind of
      error, and outside 200/201 a body's content matters only for 400. */
  lemma {:induction false} OutcomeDecidedByStatus(a: Response, b: Response)
    requires a.status == b.status
    ensures Process(a).Success? == (Succeeds(a.status) && a.decoded.Success?)
    ensures !Succeeds(a.status) ==> Process(a).Failure? && Process(b).Failure?
    ensures !Succeeds(a.status) && a.status != 400 && a.url == b.url && a.requestMethod == b.requestMethod ==> Process(a) == Process(b)
    ensures Succeeds(a.status) && a.decoded.Failure? ==> Process(a).error.MalformedDataError?
  {
    var _ := Process(a);
    var _ := Process(b);
  }

  /** The 400 branch as written never raises RequestError, so a caller that
      translates RequestError (a rejected template) never sees one. */
  lemma BadRequestAsWritten(content: string, decoded: Result<Value, string>)
    ensures var resp := Response(400, "template", "POST", content, decoded);
            ProcessAsWritten(resp).Failure? && !ProcessAsWritten(resp).error.RequestError? &&
            Process(resp) == Failure(RequestError(BadRequest(content)))
  {
  }
}
