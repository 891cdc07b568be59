/** What a client's `request` hands to the HTTP library, and how it turns
    the outcome into a result. The HTTP library itself is an oracle: given
    the call it either times out or yields a response. */
module Transport {
  import opened Wrappers
  import opened Values
  import opened Errors
  import opened Text
  import opened OrderedDicts
  import opened Processing
  import opened RawBaseClient
  import Remote
  import opened Histories
  import opened States

  /** One call of `requests.request` / `session.request`. */
  datatype Call = Call(verb: string, url: string, headers: ODict<string>, kwargs: ODict<Value>)

  datatype Outcome = TimedOut | Responded(response: Response)

  /** What a client instance sends with: its base URL, its token, its global
      request kwargs, and the HTTP library. */
  datatype Connection = Connection(apiUrl: string, token: string, globals: ODict<Value>, send: Call -> Outcome)

  /** How a client reports a timeout: the older clients raise RequestError,
      the newer one RequestTimeoutError. */
  datatype TimeoutReport = AsRequestError | AsRequestTimeoutError

  /** `kwargs.update(global_request_kwargs)`: the global kwargs win. */
  function MergeKwargs(kwargs: ODict<Value>, globals: ODict<Value>): (r: ODict<Value>)
    requires DistinctKeys(kwargs) && DistinctKeys(globals)
    ensures DistinctKeys(r)
    ensures forall k :: k in Keys(globals) ==> Get(r, k) == Get(globals, k)
    ensures forall k :: k !in Keys(globals) ==> Get(r, k) == Get(kwargs, k)
  {
    Update(kwargs, globals)
  }

  /** `kwargs.get("timeout", 300)`. */
  function TimeoutOf(kwargs: ODict<Value>): Value {
    match Get(kwargs, "timeout")
    case Some(t) => t
    case None => VInt(300)
  }

  /** The call `request(path, method, headers, **kwargs)` makes: the path
      joined to the base URL, the caller's headers with the two fixed ones
      written over them, and the kwargs with the global ones written over
      them. */
  function CallFor(conn: Connection, path: string, verb: string, headers: Option<ODict<string>>, kwargs: ODict<Value>): (c: Call)
    requires DistinctKeys(conn.globals) && DistinctKeys(kwargs)
    requires headers.Some? ==> DistinctKeys(headers.value)
    ensures c.verb == verb && c.url == PathJoin(conn.apiUrl, [path])
    ensures EndsWith(conn.apiUrl, "/") && !StartsWith(path, "/") ==> c.url == conn.apiUrl + path
    ensures Get(c.headers, "Authorization") == Some("Bearer " + conn.token)
    ensures Get(c.headers, "Content-Type") == Some("application/json")
    ensures forall k :: k in Keys(conn.globals) ==> Get(c.kwargs, k) == Get(conn.globals, k)
    ensures forall k :: k !in Keys(conn.globals) ==> Get(c.kwargs, k) == Get(kwargs, k)
  {
    if !StartsWith(path, "/") then PathJoinOne(conn.apiUrl, path); CallOf(conn, path, verb, headers, kwargs)
    else CallOf(conn, path, verb, headers, kwargs)
  }

  function CallOf(conn: Connection, path: string, verb: string, headers: Option<ODict<string>>, kwargs: ODict<Value>): Call
    requires DistinctKeys(conn.globals) && DistinctKeys(kwargs)
    requires headers.Some? ==> DistinctKeys(headers.value)
  {
    Call(verb, PathJoin(conn.apiUrl, [path]),
         MergedHeaders(if headers.Some? then headers.value else [], conn.token),
         MergeKwargs(kwargs, conn.globals))
  }

  /** The timeout reported is the global one if set, else the caller's, else
      300 seconds. */
  lemma TimeoutInForce(conn: Connection, path: string, verb: string, headers: Option<ODict<string>>, kwargs: ODict<Value>)
    requires DistinctKeys(conn.globals) && DistinctKeys(kwargs)
    requires headers.Some? ==> DistinctKeys(headers.value)
    ensures var t := TimeoutOf(CallFor(conn, path, verb, headers, kwargs).kwargs);
            && ("timeout" in Keys(conn.globals) ==> Some(t) == Get(conn.globals, "timeout"))
            && ("timeout" !in Keys(conn.globals) && "timeout" in Keys(kwargs) ==> Some(t) == Get(kwargs, "timeout"))
            && ("timeout" !in Keys(conn.globals) && "timeout" !in Keys(kwargs) ==> t == VInt(300))
  {
  }

  function TimeoutFailure(report: TimeoutReport, timeout: Value): Error {
    match report
    case AsRequestError => RequestError(RequestFailure.TimedOut(timeout))
    case AsRequestTimeoutError => RequestTimeoutError(timeout)
  }

  /** The body of `request`: make the call, report a timeout in the client's
      way, and hand any response to the status-code dispatch. */
  function Send(conn: Connection, path: string, verb: string, headers: Option<ODict<string>>, kwargs: ODict<Value>,
                report: TimeoutReport): (r: Result<Value, Error>)
    requires DistinctKeys(conn.globals) && DistinctKeys(kwargs)
    requires headers.Some? ==> DistinctKeys(headers.value)
    ensures var outcome := conn.send(CallFor(conn, path, verb, headers, kwargs));
            outcome.Responded? ==> r == Process(outcome.response)
    ensures var outcome := conn.send(CallFor(conn, path, verb, headers, kwargs));
            !outcome.Responded? ==>
              r == Failure(TimeoutFailure(report,
                             if "timeout" in Keys(conn.globals) then Get(conn.globals, "timeout").value
                             else if "timeout" in Keys(kwargs) then Get(kwargs, "timeout").value
                             else VInt(300)))
  {
    var call := CallFor(conn, path, verb, headers, kwargs);
    var outcome := conn.send(call);
    if outcome.Responded? then Process(outcome.response)
    else
      TimeoutInForce(conn, path, verb, headers, kwargs);
      Failure(TimeoutFailure(report, TimeoutOf(call.kwargs)))
  }

  /** The keyword arguments a model object's request stands for: the query
      as `params` and the body as `json`. */
  function KwargsOf(req: Remote.Request): (kwargs: ODict<Value>)
    ensures DistinctKeys(kwargs)
  {
    (match req.query
     case NoQuery => []
     case QueryString(s) => [("params", VStr(s))]
     case QueryDict(d) => [("params", VDict(map k | k in ToMap(d) :: VStr(ToMap(d)[k])))])
    + (if req.body.Some? then [("json", req.body.value)] else [])
  }

  /** A client as the model objects see it: their requests go through
      `Send`; the history and calendar listings are given. */
  function AsServer(conn: Connection, report: TimeoutReport,
                    histories: Remote.HistoryQuery -> Result<seq<History>, Error>,
                    calendar: (string, Option<DateTime>, Option<DateTime>) -> Result<seq<CalendarEvent>, Error>): (s: Remote.Server)
    requires DistinctKeys(conn.globals)
    ensures forall req :: s.request(req) == Send(conn, req.path, req.verb, None, KwargsOf(req), report)
  {
    Remote.Server((req: Remote.Request) => Send(conn, req.path, req.verb, None, KwargsOf(req), report), histories, calendar)
  }
}
