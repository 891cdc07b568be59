/** The older synchronous client: it sends through `requests`, reports a
    timeout as a RequestError, validates entity ids with the older base
    class, and builds model objects from the decoded replies. */
module RawClients {
  import opened Wrappers
  import opened Values
  import opened Errors
  import opened Text
  import opened OrderedDicts
  import opened Processing
  import opened States
  import opened Histories
  import opened Entities
  import opened Domains
  import opened Transport
  import opened Replies
  import opened Grouping
  import RawBaseClient
  import RawApi
  import Remote

  /** A timestamp argument as the client sends it: text as given, a
      datetime rendered with `format` (DATE_FMT). */
  function Rendered(s: RawBaseClient.Stamp, format: DateTime -> string): string {
    match s
    case StampText(t) => t
    case StampTime(t) => format(t)
  }

  /** The query mapping `logbook_entries` passes as `params`. */
  function LogbookQuery(entityId: Option<string>, end: Option<RawBaseClient.Stamp>, format: DateTime -> string): map<string, Value> {
    (if entityId.Some? then map["entity" := VStr(entityId.value)] else map[])
    + (if end.Some? then map["end_time" := VStr(Rendered(end.value, format))] else map[])
  }

  /** The URL path of `logbook_entries`: "logbook", joined with the start
      timestamp when one is given. */
  function LogbookPath(start: Option<RawBaseClient.Stamp>, format: DateTime -> string): string {
    if start.Some? then PathJoin("logbook", [Rendered(start.value, format)]) else "logbook"
  }

  /** The query of `get_history`, in the order its keys are set. */
  function HistoryQuery(entities: Option<seq<Entity>>, end: Option<DateTime>, minimal: bool, significantOnly: bool,
                        format: DateTime -> string): ODict<Option<string>>
  {
    (if entities.Some? then [("filter_entity_id", Some(Join(",", RawBaseClient.EntityIds(entities.value))))] else [])
    + (if end.Some? then [("end_time", Some(format(end.value)))] else [])
    + (if minimal then [("minimal_response", None)] else [])
    + (if significantOnly then [("significant_changes_only", None)] else [])
  }

  /** The logbook query as the base class builds it, read as a mapping. */
  lemma QueryOfParams(params: ODict<string>, entityId: Option<string>, end: Option<RawBaseClient.Stamp>, format: DateTime -> string)
    requires params == (if entityId.Some? then [("entity", entityId.value)] else [])
                       + (if end.Some? then [("end_time", Rendered(end.value, format))] else [])
    ensures (map k | k in ToMap(params) :: VStr(ToMap(params)[k])) == LogbookQuery(entityId, end, format)
  {
    var rendered := if end.Some? then Some(Rendered(end.value, format)) else None;
    ParamsAsMap(params, entityId, rendered);
    TextQuery(entityId, end, format);
  }

  /** The two optional logbook parameters as a text mapping. */
  function TextParams(entityId: Option<string>, endTime: Option<string>): map<string, string> {
    (if entityId.Some? then map["entity" := entityId.value] else map[])
    + (if endTime.Some? then map["end_time" := endTime.value] else map[])
  }

  lemma ParamsAsMap(params: ODict<string>, entityId: Option<string>, endTime: Option<string>)
    requires params == (if entityId.Some? then [("entity", entityId.value)] else [])
                       + (if endTime.Some? then [("end_time", endTime.value)] else [])
    ensures ToMap(params) == TextParams(entityId, endTime)
  {
    var expected := TextParams(entityId, endTime);
    if entityId.Some? && endTime.Some? {
      assert params == [("entity", entityId.value), ("end_time", endTime.value)];
      assert expected == map["entity" := entityId.value, "end_time" := endTime.value];
      ToMapTwo("entity", entityId.value, "end_time", endTime.value);
    } else if entityId.Some? {
      assert params == [("entity", entityId.value)];
      assert expected == map["entity" := entityId.value];
      ToMapOne("entity", entityId.value);
    } else if endTime.Some? {
      assert params == [("end_time", endTime.value)];
      assert expected == map["end_time" := endTime.value];
      ToMapOne("end_time", endTime.value);
    } else {
      assert params == [] && expected == map[];
    }
  }

  lemma TextQuery(entityId: Option<string>, end: Option<RawBaseClient.Stamp>, format: DateTime -> string)
    ensures var m := TextParams(entityId, if end.Some? then Some(Rendered(end.value, format)) else None);
            (map k | k in m :: VStr(m[k])) == LogbookQuery(entityId, end, format)
  {
    var m := TextParams(entityId, if end.Some? then Some(Rendered(end.value, format)) else None);
    var query := map k | k in m :: VStr(m[k]);
    assert query.Keys == LogbookQuery(entityId, end, format).Keys;
  }

  class RawClient {
    /** The base-class half: base URL, token and global request kwargs. */
    const wrapper: RawApi.RawWrapper
    /** `requests.request`. */
    const send: Call -> Outcome
    /** What the model objects' history and calendar listings return. */
    const histories: Remote.HistoryQuery -> Result<seq<History>, Error>
    const calendar: (string, Option<DateTime>, Option<DateTime>) -> Result<seq<CalendarEvent>, Error>

    predicate Valid()
      reads this, wrapper
    {
      wrapper.Valid()
    }

    constructor (apiUrl: string, token: string, globalRequestKwargs: Option<ODict<Value>>, send: Call -> Outcome,
                 histories: Remote.HistoryQuery -> Result<seq<History>, Error>,
                 calendar: (string, Option<DateTime>, Option<DateTime>) -> Result<seq<CalendarEvent>, Error>)
      requires globalRequestKwargs.Some? ==> DistinctKeys(globalRequestKwargs.value)
      ensures Valid() && fresh(wrapper)
      ensures wrapper.token == token
      ensures wrapper.globalRequestKwargs == if globalRequestKwargs.Some? then globalRequestKwargs.value else []
      ensures wrapper.apiUrl == if EndsWith(apiUrl, "/") then apiUrl else apiUrl + "/"
      ensures this.send == send && this.histories == histories && this.calendar == calendar
    {
      wrapper := new RawApi.RawWrapper(apiUrl, token, globalRequestKwargs);
      this.send := send;
      this.histories := histories;
      this.calendar := calendar;
    }

    function Conn(): Connection
      reads this, wrapper
    {
      Connection(wrapper.apiUrl, wrapper.token, wrapper.globalRequestKwargs, send)
    }

    /** The client as the Groups, Entities and Domains it makes see it. */
    function AsClient(): Remote.Server
      reads this, wrapper
      requires Valid()
    {
      AsServer(Conn(), AsRequestError, histories, calendar)
    }

    /** `request`: the global kwargs are written over the caller's, a
        timeout is a RequestError naming the timeout in force (300 seconds
        unless set), and any response goes to the status-code dispatch. */
    function Request(path: string, verb: string, headers: Option<ODict<string>>, kwargs: ODict<Value>): (r: Result<Value, Error>)
      reads this, wrapper
      requires Valid() && DistinctKeys(kwargs)
      requires headers.Some? ==> DistinctKeys(headers.value)
      ensures var call := CallFor(Conn(), path, verb, headers, kwargs);
              && call.url == wrapper.Endpoint(path)
              && (send(call).Responded? ==> r == Process(send(call).response))
              && (send(call).TimedOut? ==>
                    r == Failure(RequestError(RequestFailure.TimedOut(TimeoutOf(MergeKwargs(kwargs, wrapper.globalRequestKwargs))))))
    {
      Send(Conn(), path, verb, headers, kwargs, AsRequestError)
    }

    /** `check_api_config`: true, or the configuration errors raised. */
    function CheckApiConfig(): (r: Result<bool, Error>)
      reads this, wrapper
      requires Valid()
      ensures r.Success? ==> r.value
      ensures var reply := Request("config/core/check_config", "POST", None, []);
              && (reply.Failure? ==> r == Failure(reply.error))
              && (reply.Success? ==> r == CheckConfigReply(reply.value))
    {
      var res :- Request("config/core/check_config", "POST", None, []);
      CheckConfigReply(res)
    }

    /** `check_api_running`: true, or a ValueError when the root endpoint
        does not answer with the running message. */
    function CheckApiRunning(): (r: Result<bool, Error>)
      reads this, wrapper
      requires Valid()
      ensures r.Success? ==> r.value
      ensures var reply := Request("", "GET", None, []);
              && (reply.Failure? ==> r == Failure(reply.error))
              && (reply.Success? ==> r == CheckRunningReply(reply.value, ValueError("Server response did not return message attribute")))
    {
      var res :- Request("", "GET", None, []);
      CheckRunningReply(res, ValueError("Server response did not return message attribute"))
    }

    /** `get_states`: every item of the "states" reply validated as a State. */
    function GetStates(): (r: Result<seq<State>, Error>)
      reads this, wrapper
      requires Valid()
      ensures var reply := Request("states", "GET", None, []);
              && (reply.Failure? ==> r == Failure(reply.error))
              && (reply.Success? ==> r == StatesFromReply(reply.value))
    {
      var data :- Request("states", "GET", None, []);
      StatesFromReply(data)
    }

    /** `get_state`: the id is validated before anything is sent, and the
        reply validated as a State. */
    function GetState(entityId: Option<string>, group: Option<string>, slug: Option<string>): (r: Result<State, Error>)
      reads this, wrapper
      requires Valid()
      ensures var id := RawApi.PrepareEntityId(group, slug, entityId);
              && (id.Failure? ==> r == Failure(id.error))
              && (id.Success? ==> var reply := Request(PathJoin("states", [id.value]), "GET", None, []);
                    && (reply.Failure? ==> r == Failure(reply.error))
                    && (reply.Success? ==> r == ParseState(reply.value)))
    {
      var id :- RawApi.PrepareEntityId(group, slug, entityId);
      var data :- Request(PathJoin("states", [id]), "GET", None, []);
      ParseState(data)
    }

    /** `set_state`: the payload with "state" written over it is posted to
        the entity's state path, and the reply validated as a State. */
    function SetState(state: string, entityId: Option<string>, group: Option<string>, slug: Option<string>,
                      payload: map<string, Value>): (r: Result<State, Error>)
      reads this, wrapper
      requires Valid()
      ensures var id := RawApi.PrepareEntityId(group, slug, entityId);
              && (id.Failure? ==> r == Failure(id.error))
              && (id.Success? ==>
                    var body := payload["state" := VStr(state)];
                    var reply := Request(PathJoin("states", [id.value]), "POST", None, [("json", VDict(body))]);
                    && (reply.Failure? ==> r == Failure(reply.error))
                    && (reply.Success? ==> r == ParseState(reply.value)))
    {
      var id :- RawApi.PrepareEntityId(group, slug, entityId);
      var data :- Request(PathJoin("states", [id]), "POST", None, [("json", VDict(payload["state" := VStr(state)]))]);
      ParseState(data)
    }

    /** `get_entities`: the states grouped by group id into new Groups that
        refer back to this client; an id that does not split in two is a
        ValueError. */
    method GetEntities() returns (r: Result<ODict<Group>, Error>, ghost repr: set<object>)
      requires Valid()
      ensures GetStates().Failure? ==> r == Failure(GetStates().error)
      ensures GetStates().Success? ==> var states := GetStates().value;
                && (r.Success? <==> AllSplit(states, |states|))
                && (r.Failure? ==> r.error.ValueError?)
                && (r.Success? ==> Grouped(r.value, states, |states|, AsClient(), repr) && fresh(repr))
    {
      var states := GetStates();
      if states.Failure? {
        return Failure(states.error), {};
      }
      r, repr := GroupStates(states.value, AsClient());
    }

    /** `get_entity`: the state is fetched by group and slug when both are
        given, else by entity id, and comes back as the one Entity of a new
        Group; with neither it is a ValueError. */
    method GetEntity(groupId: Option<string>, slug: Option<string>, entityId: Option<string>)
      returns (r: Result<Option<Entity>, Error>)
      requires Valid()
      ensures (groupId.None? || slug.None?) && entityId.None? ==> r.Failure? && r.error.ValueError?
      ensures !((groupId.None? || slug.None?) && entityId.None?) ==>
                var fetched := if groupId.Some? && slug.Some? then GetState(None, groupId, slug) else GetState(entityId, None, None);
                && (fetched.Failure? ==> r == Failure(fetched.error))
                && (fetched.Success? ==> (r.Success? <==> SplitsInTwo(fetched.value)))
                && (r.Success? ==> r.value.Some? && r.value.value.state == fetched.value
                                   && r.value.value.group.client == AsClient()
                                   && r.value.value.group.groupId + "." + r.value.value.slug == fetched.value.entityId)
    {
      var fetched: Result<State, Error>;
      if groupId.Some? && slug.Some? {
        fetched := GetState(None, groupId, slug);
      } else if entityId.Some? {
        fetched := GetState(entityId, None, None);
      } else {
        return Failure(ValueError("Neither group and slug or entity_id provided."));
      }
      if fetched.Failure? {
        return Failure(fetched.error);
      }
      r := EntityFromState(fetched.value, AsClient());
    }

    /** `get_history`: the query built as the older base class does, sent as
        one query string; a start given as text is a TypeError and nothing
        is sent. */
    method GetHistory(entities: Option<seq<Entity>>, start: Option<RawBaseClient.Stamp>, end: Option<DateTime>,
                      minimal: bool, significantOnly: bool, format: DateTime -> string)
      returns (r: Result<Value, Error>)
      requires Valid()
      ensures start.Some? && start.value.StampText? ==> r.Failure? && r.error.TypeError?
      ensures !(start.Some? && start.value.StampText?) ==>
                var path := if start.Some? then PathJoin("history/period", [format(start.value.time)]) else "history/period";
                r == Request(path, "GET", None, [("params", VStr(RawBaseClient.ConstructParams(HistoryQuery(entities, end, minimal, significantOnly, format))))])
    {
      var prepared := RawApi.PrepareHistoriesParams(entities, start, end, minimal, significantOnly, format);
      if prepared.Failure? {
        return Failure(prepared.error);
      }
      var (params, path) := prepared.value;
      assert params == HistoryQuery(entities, end, minimal, significantOnly, format);
      r := Request(path, "GET", None, [("params", VStr(RawBaseClient.ConstructParams(params)))]);
    }

    /** The query and path of `logbook_entries` as built: `entity` and
        `end_time` in the query, and the start timestamp on the path. */
    method LogbookRequest(filter: Option<Entity>, start: Option<RawBaseClient.Stamp>, end: Option<RawBaseClient.Stamp>,
                          format: DateTime -> string)
      returns (path: string, kwargs: ODict<Value>)
      ensures DistinctKeys(kwargs)
      ensures path == LogbookPath(start, format)
      ensures kwargs == [("params", VDict(LogbookQuery(if filter.Some? then Some(filter.value.EntityId()) else None, end, format)))]
    {
      var entityId := if filter.Some? then Some(filter.value.EntityId()) else None;
      var entity := if entityId.Some? then Some(RawBaseClient.OneEntity(entityId.value)) else None;
      var startText := if start.Some? then Some(RawBaseClient.StampText(Rendered(start.value, format))) else None;
      var endText := if end.Some? then Some(RawBaseClient.StampText(Rendered(end.value, format))) else None;
      var params, p := RawBaseClient.PrepareLogbookParams(entity, startText, endText);
      if start.Some? {
        var text := Rendered(start.value, format);
        assert p == PathJoin("logbook/", [text]);
        assert !EndsWith("logbook", "/") && "logbook" + "/" == "logbook/";
        PathJoinSlashed("logbook", text);
      }
      path := p;
      QueryOfParams(params, entityId, end, format);
      kwargs := [("params", VDict(map k | k in ToMap(params) :: VStr(ToMap(params)[k])))];
    }

    /** `logbook_entries` as written: a start given as text leaves
        `formatted_timestamp` unbound before anything is sent. */
    method LogbookEntriesAsWritten(filter: Option<Entity>, start: Option<RawBaseClient.Stamp>, end: Option<RawBaseClient.Stamp>,
                                   format: DateTime -> string)
      returns (r: Result<Value, Error>)
      requires Valid()
      ensures start.Some? && start.value.StampText? ==> r == Failure(UnboundLocalError("formatted_timestamp"))
      ensures !(start.Some? && start.value.StampText?) ==>
                r == Request(LogbookPath(start, format), "GET", None,
                             [("params", VDict(LogbookQuery(if filter.Some? then Some(filter.value.EntityId()) else None, end, format)))])
    {
      if start.Some? && start.value.StampText? {
        return Failure(UnboundLocalError("formatted_timestamp"));
      }
      var path, kwargs := LogbookRequest(filter, start, end, format);
      r := Request(path, "GET", None, kwargs);
    }

    /** `logbook_entries` as intended: a start given as text is put on the
        path as it is, as the end timestamp is put in the query. */
    method LogbookEntries(filter: Option<Entity>, start: Option<RawBaseClient.Stamp>, end: Option<RawBaseClient.Stamp>,
                          format: DateTime -> string)
      returns (r: Result<Value, Error>)
      requires Valid()
      ensures r == Request(LogbookPath(start, format), "GET", None,
                           [("params", VDict(LogbookQuery(if filter.Some? then Some(filter.value.EntityId()) else None, end, format)))])
    {
      var path, kwargs := LogbookRequest(filter, start, end, format);
      r := Request(path, "GET", None, kwargs);
    }
  }

  /** A text start timestamp: the logbook as written fails without sending
      anything, while the intended one asks for "logbook/<start>". */
  lemma LogbookTextStart(start: string, format: DateTime -> string)
    requires start != "" && !StartsWith(start, "/")
    ensures LogbookPath(Some(RawBaseClient.StampText(start)), format) == "logbook/" + start
  {
    PathJoinOne("logbook", start);
  }
}
