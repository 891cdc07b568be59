/** What the clients make of a decoded reply: the configuration check, the
    running check, the event listing and the reply to firing an event. A
    reply the client indexes or calls `.get` on without checking its type
    fails the way Python would. */
module Replies {
  import opened Wrappers
  import opened Values
  import opened Errors
  import opened States

  /** A value a Python dict can be looked up with. */
  predicate Hashable(v: Value) {
    !v.VList? && !v.VDict?
  }

  /** `{"valid": True, "invalid": False}.get(res["result"], False)`. */
  function ConfigValid(res: Value): (r: Result<bool, Error>)
    ensures r.Success? <==> res.VDict? && "result" in res.entries && Hashable(res.entries["result"])
    ensures r.Success? ==> (r.value <==> res.entries["result"] == VStr("valid"))
    ensures res.VDict? && "result" !in res.entries ==> r == Failure(KeyError("result"))
    ensures !res.VDict? ==> r.Failure? && r.error.TypeError?
  {
    if !res.VDict? then Failure(TypeError("indices must be integers"))
    else if "result" !in res.entries then Failure(KeyError("result"))
    else
      var result := res.entries["result"];
      if !Hashable(result) then Failure(TypeError("unhashable type"))
      else Success(result == VStr("valid"))
  }

  /** The raising configuration check: a configuration the server calls
      anything but "valid" raises APIConfigurationError with the server's
      error list, and looking that list up can itself fail. */
  function CheckConfigReply(res: Value): (r: Result<bool, Error>)
    ensures r.Success? ==> r.value
    ensures r.Success? <==> ConfigValid(res) == Success(true)
    ensures ConfigValid(res) == Success(false) && "errors" in res.entries ==>
              r == Failure(APIConfigurationError(res.entries["errors"]))
    ensures ConfigValid(res) == Success(false) && "errors" !in res.entries ==> r == Failure(KeyError("errors"))
    ensures ConfigValid(res).Failure? ==> r == Failure(ConfigValid(res).error)
  {
    var valid :- ConfigValid(res);
    if valid then Success(true)
    else if "errors" in res.entries then Failure(APIConfigurationError(res.entries["errors"]))
    else Failure(KeyError("errors"))
  }

  /** `res.get("message", None) == "API running."`. */
  function ApiRunning(res: Value): (r: Result<bool, Error>)
    ensures r.Success? <==> res.VDict?
    ensures r.Success? ==> (r.value <==> "message" in res.entries && res.entries["message"] == VStr("API running."))
    ensures r.Failure? ==> r.error == AttributeError("get")
  {
    if res.VDict? then Success(DictGet(res.entries, "message", VNone) == VStr("API running."))
    else Failure(AttributeError("get"))
  }

  /** The raising running check: anything but the running message raises
      `err`, the error the client uses for it. */
  function CheckRunningReply(res: Value, err: Error): (r: Result<bool, Error>)
    ensures r.Success? ==> r.value
    ensures r.Success? <==> ApiRunning(res) == Success(true)
    ensures ApiRunning(res) == Success(false) ==> r == Failure(err)
    ensures !res.VDict? ==> r == Failure(AttributeError("get"))
  {
    var running :- ApiRunning(res);
    if running then Success(true) else Failure(err)
  }

  /** Every item validated as an Event, in order; the first that does not
      validate is the error. */
  function ParseEvents(items: seq<Value>): (r: Result<seq<Event>, Error>)
    ensures r.Success? ==> |r.value| == |items|
    ensures r.Success? ==> forall i :: 0 <= i < |items| ==> ParseEvent(items[i]) == Success(r.value[i])
    ensures r.Failure? ==> exists i :: 0 <= i < |items| && ParseEvent(items[i]).Failure?
  {
    if items == [] then Success([])
    else
      var e :- ParseEvent(items[0]);
      var rest :- ParseEvents(items[1..]);
      Success([e] + rest)
  }

  /** An item list that validates item by item is accepted as a whole. */
  lemma {:induction false} ParseEventsComplete(items: seq<Value>)
    requires forall i :: 0 <= i < |items| ==> ParseEvent(items[i]).Success?
    ensures ParseEvents(items).Success?
    decreases |items|
  {
    if items != [] {
      ParseEventsComplete(items[1..]);
    }
  }

  /** Iterating a reply and validating each item as an Event: a list gives
      its items; an empty dict or string gives nothing; the keys of a
      non-empty dict and the characters of a non-empty string are not
      mappings; anything else is not iterable. */
  function EventsFromReply(data: Value): (r: Result<seq<Event>, Error>)
    ensures data.VList? ==> r == ParseEvents(data.items)
    ensures r.Success? ==> data.VList? || data == VDict(map[]) || data == VStr("")
    ensures !data.VList? && r.Failure? ==> r.error.TypeError?
  {
    match data
    case VList(items) => ParseEvents(items)
    case VDict(m) => if m == map[] then Success([]) else Failure(TypeError("argument after ** must be a mapping"))
    case VStr(s) => if s == "" then Success([]) else Failure(TypeError("argument after ** must be a mapping"))
    case _ => Failure(TypeError("object is not iterable"))
  }

  /** The newer client's event listing as written: the type guard is
      inverted, so a list is refused and only a reply that is not a list
      goes on to be iterated. No reply yields a single event. */
  function EventsAsWritten(data: Value): (r: Result<seq<Event>, Error>)
    ensures data.VList? ==> r == Failure(TypeError("Received JSON data is not a list of events."))
    ensures !data.VList? ==> r == EventsFromReply(data)
    ensures r.Success? ==> r.value == []
  {
    if !data.VList? then EventsFromReply(data)
    else Failure(TypeError("Received JSON data is not a list of events."))
  }

  /** The event listing with the guard the message describes: a list is
      validated item by item, anything else is refused. */
  function EventsOfList(data: Value): (r: Result<seq<Event>, Error>)
    ensures data.VList? ==> r == ParseEvents(data.items)
    ensures !data.VList? ==> r == Failure(TypeError("Received JSON data is not a list of events."))
  {
    if data.VList? then ParseEvents(data.items)
    else Failure(TypeError("Received JSON data is not a list of events."))
  }

  /** Any non-empty list of valid events: the corrected listing returns all
      of them, the listing as written refuses it. */
  lemma EventsGuardInverted(items: seq<Value>)
    requires items != []
    requires forall i :: 0 <= i < |items| ==> ParseEvent(items[i]).Success?
    ensures EventsOfList(VList(items)).Success?
    ensures |EventsOfList(VList(items)).value| == |items|
    ensures EventsAsWritten(VList(items)).Failure?
  {
    ParseEventsComplete(items);
  }

  /** `data.get("message", "No message provided")` after checking that the
      reply is a dict. */
  function FireEventReply(data: Value): (r: Result<Value, Error>)
    ensures r.Success? <==> data.VDict?
    ensures data.VDict? && "message" in data.entries ==> r == Success(data.entries["message"])
    ensures data.VDict? && "message" !in data.entries ==> r == Success(VStr("No message provided"))
    ensures r.Failure? ==> r.error.TypeError?
  {
    if data.VDict? then Success(DictGet(data.entries, "message", VStr("No message provided")))
    else Failure(TypeError("Invalid return type from API."))
  }
}
