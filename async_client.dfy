/** The newer async client, built on the older base class: a timeout is a
    RequestError, the two API checks raise instead of answering false, and
    the event listing carries an inverted type guard. Awaiting is
    sequential here. */
module AsyncClients {
  import opened Wrappers
  import opened Values
  import opened Errors
  import opened Text
  import opened OrderedDicts
  import opened Processing
  import opened States
  import opened Histories
  import opened Entities
  import opened Transport
  import opened Replies
  import opened Grouping
  import RawApi
  import RawAsyncClients
  import Domains
  import Remote

  class AsyncClient {
    /** The base-class half: base URL, token and global request kwargs. */
    const wrapper: RawApi.RawWrapper
    /** The session's, or aiohttp's, `request`. */
    const send: Call -> Outcome
    /** What the model objects' history and calendar listings return. */
    const histories: Remote.HistoryQuery -> Result<seq<History>, Error>
    const calendar: (string, Option<DateTime>, Option<DateTime>) -> Result<seq<CalendarEvent>, Error>

    predicate Valid()
      reads this, wrapper
    {
      wrapper.Valid()
    }

    constructor (apiUrl: string, token: string, globalRequestKwargs: Option<ODict<Value>>, send: Call -> Outcome,
                 histories: Remote.HistoryQuery -> Result<seq<History>, Error>,
                 calendar: (string, Option<DateTime>, Option<DateTime>) -> Result<seq<CalendarEvent>, Error>)
      requires globalRequestKwargs.Some? ==> DistinctKeys(globalRequestKwargs.value)
      ensures Valid() && fresh(wrapper)
      ensures wrapper.token == token
      ensures wrapper.globalRequestKwargs == if globalRequestKwargs.Some? then globalRequestKwargs.value else []
      ensures wrapper.apiUrl == if EndsWith(apiUrl, "/") then apiUrl else apiUrl + "/"
      ensures this.send == send && this.histories == histories && this.calendar == calendar
    {
      wrapper := new RawApi.RawWrapper(apiUrl, token, globalRequestKwargs);
      this.send := send;
      this.histories := histories;
      this.calendar := calendar;
    }

    function Conn(): Connection
      reads this, wrapper
    {
      Connection(wrapper.apiUrl, wrapper.token, wrapper.globalRequestKwargs, send)
    }

    /** The client as the Groups and Entities it makes see it. */
    function AsClient(): Remote.Server
      reads this, wrapper
      requires Valid()
    {
      AsServer(Conn(), AsRequestError, histories, calendar)
    }

    /** `async_request`: the global kwargs are written over the caller's, a
        timeout is a RequestError naming the timeout in force (300 seconds
        unless set), and any response goes to the status-code dispatch. */
    function Request(path: string, verb: string, headers: Option<ODict<string>>, kwargs: ODict<Value>): (r: Result<Value, Error>)
      reads this, wrapper
      requires Valid() && DistinctKeys(kwargs)
      requires headers.Some? ==> DistinctKeys(headers.value)
      ensures var call := CallFor(Conn(), path, verb, headers, kwargs);
              && call.url == wrapper.Endpoint(path)
              && (send(call).Responded? ==> r == Process(send(call).response))
              && (send(call).TimedOut? ==>
                    r == Failure(RequestError(RequestFailure.TimedOut(TimeoutOf(MergeKwargs(kwargs, wrapper.globalRequestKwargs))))))
    {
      Send(Conn(), path, verb, headers, kwargs, AsRequestError)
    }

    /** `async_check_api_config`: true, or the configuration errors raised. */
    function CheckApiConfig(): (r: Result<bool, Error>)
      reads this, wrapper
      requires Valid()
      ensures r.Success? ==> r.value
      ensures var reply := Request("config/core/check_config", "POST", None, []);
              && (reply.Failure? ==> r == Failure(reply.error))
              && (reply.Success? ==> r == CheckConfigReply(reply.value))
    {
      var res :- Request("config/core/check_config", "POST", None, []);
      CheckConfigReply(res)
    }

    /** `async_check_api_running`: true, or a MalformedDataError when the
        root endpoint does not answer with the running message. */
    function CheckApiRunning(): (r: Result<bool, Error>)
      reads this, wrapper
      requires Valid()
      ensures r.Success? ==> r.value
      ensures var reply := Request("", "GET", None, []);
              && (reply.Failure? ==> r == Failure(reply.error))
              && (reply.Success? ==> r == CheckRunningReply(reply.value, MalformedDataError("Server response did not return message attribute")))
    {
      var res :- Request("", "GET", None, []);
      CheckRunningReply(res, MalformedDataError("Server response did not return message attribute"))
    }

    /** `async_get_states`. */
    function GetStates(): (r: Result<seq<State>, Error>)
      reads this, wrapper
      requires Valid()
      ensures var reply := Request("states", "GET", None, []);
              && (reply.Failure? ==> r == Failure(reply.error))
              && (reply.Success? ==> r == Domains.StatesFromReply(reply.value))
    {
      var data :- Request("states", "GET", None, []);
      Domains.StatesFromReply(data)
    }

    /** `async_get_state`: the id is validated before anything is sent. */
    function GetState(entityId: Option<string>, group: Option<string>, slug: Option<string>): (r: Result<State, Error>)
      reads this, wrapper
      requires Valid()
      ensures var id := RawApi.PrepareEntityId(group, slug, entityId);
              && (id.Failure? ==> r == Failure(id.error))
              && (id.Success? ==> var reply := Request(PathJoin("states", [id.value]), "GET", None, []);
                    && (reply.Failure? ==> r == Failure(reply.error))
                    && (reply.Success? ==> r == ParseState(reply.value)))
    {
      var id :- RawApi.PrepareEntityId(group, slug, entityId);
      var data :- Request(PathJoin("states", [id]), "GET", None, []);
      ParseState(data)
    }

    /** `async_get_entities`: the Groups of the grouping loop, in order of
        first appearance of their group ids. */
    method GetEntities() returns (r: Result<seq<Group>, Error>, ghost groups: ODict<Group>, ghost repr: set<object>)
      requires Valid()
      ensures GetStates().Failure? ==> r == Failure(GetStates().error)
      ensures GetStates().Success? ==> var states := GetStates().value;
                && (r.Success? <==> AllSplit(states, |states|))
                && (r.Failure? ==> r.error.ValueError?)
                && (r.Success? ==> r.value == RawAsyncClients.GroupValues(groups)
                                   && Grouped(groups, states, |states|, AsClient(), repr) && fresh(repr))
    {
      var states := GetStates();
      if states.Failure? {
        return Failure(states.error), [], {};
      }
      var grouped;
      grouped, repr := GroupStates(states.value, AsClient());
      if grouped.Failure? {
        return Failure(grouped.error), [], repr;
      }
      groups := grouped.value;
      r := Success(RawAsyncClients.GroupValues(grouped.value));
    }

    /** `async_get_entity`: the state is fetched by group and slug when both
        are given, else by entity id, and comes back as the one Entity of a
        new Group; with neither it is a ValueError. */
    method GetEntity(groupId: Option<string>, slug: Option<string>, entityId: Option<string>)
      returns (r: Result<Option<Entity>, Error>)
      requires Valid()
      ensures (groupId.None? || slug.None?) && entityId.None? ==> r.Failure? && r.error.ValueError?
      ensures !((groupId.None? || slug.None?) && entityId.None?) ==>
                var fetched := if groupId.Some? && slug.Some? then GetState(None, groupId, slug) else GetState(entityId, None, None);
                && (fetched.Failure? ==> r == Failure(fetched.error))
                && (fetched.Success? ==> (r.Success? <==> SplitsInTwo(fetched.value)))
                && (r.Success? ==> r.value.Some? && r.value.value.state == fetched.value
                                   && r.value.value.group.client == AsClient()
                                   && r.value.value.group.groupId + "." + r.value.value.slug == fetched.value.entityId)
    {
      var fetched: Result<State, Error>;
      if groupId.Some? && slug.Some? {
        fetched := GetState(None, groupId, slug);
      } else if entityId.Some? {
        fetched := GetState(entityId, None, None);
      } else {
        return Failure(ValueError("Neither group and slug or entity_id provided."));
      }
      if fetched.Failure? {
        return Failure(fetched.error);
      }
      r := EntityFromState(fetched.value, AsClient());
    }

    /** `async_get_events` as written: a list reply is refused. */
    function GetEventsAsWritten(): (r: Result<seq<Event>, Error>)
      reads this, wrapper
      requires Valid()
      ensures var reply := Request("events", "GET", None, []);
              && (reply.Failure? ==> r == Failure(reply.error))
              && (reply.Success? ==> r == EventsAsWritten(reply.value))
      ensures r.Success? ==> r.value == []
    {
      var data :- Request("events", "GET", None, []);
      EventsAsWritten(data)
    }

    /** `async_get_events` as intended: a list reply is validated item by
        item, anything else refused. */
    function GetEvents(): (r: Result<seq<Event>, Error>)
      reads this, wrapper
      requires Valid()
      ensures var reply := Request("events", "GET", None, []);
              && (reply.Failure? ==> r == Failure(reply.error))
              && (reply.Success? ==> r == EventsOfList(reply.value))
    {
      var data :- Request("events", "GET", None, []);
      EventsOfList(data)
    }

    /** `async_fire_event`: the event data is posted to the event type's
        path, and the reply's message, or a default, returned. */
    function FireEvent(eventType: string, eventData: map<string, Value>): (r: Result<Value, Error>)
      reads this, wrapper
      requires Valid()
      ensures var reply := Request(PathJoin("events", [eventType]), "POST", None, [("json", VDict(eventData))]);
              && (reply.Failure? ==> r == Failure(reply.error))
              && (reply.Success? ==> r == FireEventReply(reply.value))
    {
      var data :- Request(PathJoin("events", [eventType]), "POST", None, [("json", VDict(eventData))]);
      FireEventReply(data)
    }
  }

  /** Whenever the server lists at least one event and every item is a
      valid Event, the listing as written fails and the intended one
      returns them all. */
  lemma EventsListingInverted(c: AsyncClient)
    requires c.Valid()
    requires var reply := c.Request("events", "GET", None, []);
             reply.Success? && reply.value.VList? && reply.value.items != []
             && forall i :: 0 <= i < |reply.value.items| ==> ParseEvent(reply.value.items[i]).Success?
    ensures c.GetEventsAsWritten().Failure?
    ensures c.GetEvents().Success? && |c.GetEvents().value| == |c.Request("events", "GET", None, []).value.items|
  {
    EventsGuardInverted(c.Request("events", "GET", None, []).value.items);
  }
}
