/** The exceptions the client raises: the library's own error classes and the
    Python built-in exceptions that its code paths raise. */
module Errors {
  import opened Values

  /** Why a RequestError was raised. */
  datatype RequestFailure =
    | BadRequest(content: string)   // the server answered 400 with this body
    | TimedOut(timeout: Value)      // the transport timed out; the timeout in force

  datatype Error =
    // the library's error classes
    | MalformedDataError(detail: string)
    | MalformedInputError(entityId: string)
    | ResponseError
    | APIConfigurationError(errors: Value)
    | ParameterMissingError
    | UnauthorizedError
    | EndpointNotFoundError(url: string)
    | MethodNotAllowedError(httpMethod: string)
    | UnexpectedStatusCodeError(status: int)
    | RequestError(reason: RequestFailure)
    | RequestTimeoutError(timeout: Value)
    | BadTemplateError
    // Python built-in exceptions reached by the code
    | ValueError(why: string)
    | TypeError(why: string)
    | KeyError(key: string)
    | AttributeError(name: string)
    | AssertionError
    | UnboundLocalError(name: string)
}
