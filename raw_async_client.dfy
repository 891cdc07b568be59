/** The async client built on the newer base class: it reports a timeout as
    a RequestTimeoutError, converts entity ids to snake_case instead of
    validating them, answers the two API checks with a boolean, and lists
    domains by domain id. Awaiting is sequential here. */
module RawAsyncClients {
  import opened Wrappers
  import opened Values
  import opened Errors
  import opened Text
  import opened OrderedDicts
  import opened Processing
  import opened States
  import opened Histories
  import opened Entities
  import opened Domains
  import opened Transport
  import opened Replies
  import opened Grouping
  import opened Mixins
  import RawBaseClient
  import Remote

  /** The domain id of a services listing entry, None when it has none. */
  function DomainIdOf(json: Value): Value {
    if json.VDict? then DictGet(json.entries, "domain", VNone) else VNone
  }

  /** The service ids a services listing entry lists. */
  function ServiceIdsOf(json: Value): set<string> {
    if json.VDict? && "services" in json.entries && json.entries["services"].VDict? then json.entries["services"].entries.Keys
    else {}
  }

  /** Entry `j` is the last of the first `n` with its domain id. */
  predicate LastWithId(items: seq<Value>, n: nat, j: nat)
    requires j < n <= |items|
  {
    forall j' :: j < j' < n ==> DomainIdOf(items[j']) != DomainIdOf(items[j])
  }

  /** The Groups of an ordered group dict, in order. */
  function GroupValues(groups: ODict<Group>): (gs: seq<Group>)
    ensures |gs| == |groups|
    ensures forall j :: 0 <= j < |groups| ==> gs[j] == groups[j].1
  {
    seq(|groups|, j requires 0 <= j < |groups| => groups[j].1)
  }

  class RawAsyncClient {
    /** The base-class half: base URL, token and global request kwargs. */
    const base: RawBaseClient.BaseClient
    /** The session's `request`. */
    const send: Call -> Outcome
    /** What the model objects' history and calendar listings return. */
    const histories: Remote.HistoryQuery -> Result<seq<History>, Error>
    const calendar: (string, Option<DateTime>, Option<DateTime>) -> Result<seq<CalendarEvent>, Error>

    predicate Valid()
      reads this, base
    {
      base.Valid()
    }

    constructor (apiUrl: string, token: string, globalRequestKwargs: Option<ODict<Value>>, send: Call -> Outcome,
                 histories: Remote.HistoryQuery -> Result<seq<History>, Error>,
                 calendar: (string, Option<DateTime>, Option<DateTime>) -> Result<seq<CalendarEvent>, Error>)
      requires globalRequestKwargs.Some? ==> DistinctKeys(globalRequestKwargs.value)
      ensures Valid() && fresh(base)
      ensures base.token == token
      ensures base.globalRequestKwargs == if globalRequestKwargs.Some? then globalRequestKwargs.value else []
      ensures base.apiUrl == if EndsWith(apiUrl, "/") then apiUrl else apiUrl + "/"
      ensures this.send == send && this.histories == histories && this.calendar == calendar
    {
      base := new RawBaseClient.BaseClient(apiUrl, token, globalRequestKwargs);
      this.send := send;
      this.histories := histories;
      this.calendar := calendar;
    }

    function Conn(): Connection
      reads this, base
    {
      Connection(base.apiUrl, base.token, base.globalRequestKwargs, send)
    }

    /** The client as the Groups, Entities and Domains it makes see it. */
    function AsClient(): Remote.Server
      reads this, base
      requires Valid()
    {
      AsServer(Conn(), AsRequestTimeoutError, histories, calendar)
    }

    /** `async_request`: the global kwargs are written over the caller's, a
        timeout is a RequestTimeoutError naming the timeout in force (300
        seconds unless set), and any response goes to the status-code
        dispatch. */
    function Request(path: string, verb: string, headers: Option<ODict<string>>, kwargs: ODict<Value>): (r: Result<Value, Error>)
      reads this, base
      requires Valid() && DistinctKeys(kwargs)
      requires headers.Some? ==> DistinctKeys(headers.value)
      ensures var call := CallFor(Conn(), path, verb, headers, kwargs);
              && call.url == base.Endpoint([path])
              && (send(call).Responded? ==> r == Process(send(call).response))
              && (send(call).TimedOut? ==>
                    r == Failure(RequestTimeoutError(TimeoutOf(MergeKwargs(kwargs, base.globalRequestKwargs)))))
    {
      base.EndpointSingle(path);
      Send(Conn(), path, verb, headers, kwargs, AsRequestTimeoutError)
    }

    /** `async_get_rendered_template`: the template is posted, and a
        RequestError becomes a BadTemplateError; every other outcome is the
        request's own. */
    function GetRenderedTemplate(template: string): (r: Result<Value, Error>)
      reads this, base
      requires Valid()
      ensures var reply := Request("template", "POST", None, [("json", VDict(map["template" := VStr(template)]))]);
              && (reply.Failure? && reply.error.RequestError? ==> r == Failure(BadTemplateError))
              && (!(reply.Failure? && reply.error.RequestError?) ==> r == reply)
      ensures r.Failure? ==> !r.error.RequestError?
    {
      var reply := Request("template", "POST", None, [("json", VDict(map["template" := VStr(template)]))]);
      if reply.Failure? && reply.error.RequestError? then Failure(BadTemplateError) else reply
    }

    /** `async_check_api_config`: whether the server calls its
        configuration "valid"; it raises nothing of its own. */
    function CheckApiConfig(): (r: Result<bool, Error>)
      reads this, base
      requires Valid()
      ensures var reply := Request("config/core/check_config", "POST", None, []);
              && (reply.Failure? ==> r == Failure(reply.error))
              && (reply.Success? ==> r == ConfigValid(reply.value))
    {
      var res :- Request("config/core/check_config", "POST", None, []);
      ConfigValid(res)
    }

    /** `async_check_api_running`: whether the root endpoint answers with
        the running message. */
    function CheckApiRunning(): (r: Result<bool, Error>)
      reads this, base
      requires Valid()
      ensures var reply := Request("", "GET", None, []);
              && (reply.Failure? ==> r == Failure(reply.error))
              && (reply.Success? ==> r == ApiRunning(reply.value))
    {
      var res :- Request("", "GET", None, []);
      ApiRunning(res)
    }

    /** `async_get_states`. */
    function GetStates(): (r: Result<seq<State>, Error>)
      reads this, base
      requires Valid()
      ensures var reply := Request("states", "GET", None, []);
              && (reply.Failure? ==> r == Failure(reply.error))
              && (reply.Success? ==> r == StatesFromReply(reply.value))
    {
      var data :- Request("states", "GET", None, []);
      StatesFromReply(data)
    }

    /** `async_get_state`: the id is converted to snake_case before it is
        put on the path. */
    function GetState(entityId: Option<string>, groupId: Option<string>, slug: Option<string>): (r: Result<State, Error>)
      reads this, base
      requires Valid()
      ensures var id := RawBaseClient.PrepareEntityId(groupId, slug, entityId);
              && (id.Failure? ==> r == Failure(id.error))
              && (id.Success? ==> var reply := Request(PathJoin("states", [id.value]), "GET", None, []);
                    && (reply.Failure? ==> r == Failure(reply.error))
                    && (reply.Success? ==> r == ParseState(reply.value)))
    {
      var id :- RawBaseClient.PrepareEntityId(groupId, slug, entityId);
      var data :- Request(PathJoin("states", [id]), "GET", None, []);
      ParseState(data)
    }

    /** `async_get_entities`: the Groups of the grouping loop, in order of
        first appearance of their group ids. */
    method GetEntities() returns (r: Result<seq<Group>, Error>, ghost groups: ODict<Group>, ghost repr: set<object>)
      requires Valid()
      ensures GetStates().Failure? ==> r == Failure(GetStates().error)
      ensures GetStates().Success? ==> var states := GetStates().value;
                && (r.Success? <==> AllSplit(states, |states|))
                && (r.Failure? ==> r.error.ValueError?)
                && (r.Success? ==> r.value == GroupValues(groups)
                                   && Grouped(groups, states, |states|, AsClient(), repr) && fresh(repr))
    {
      var states := GetStates();
      if states.Failure? {
        return Failure(states.error), [], {};
      }
      var grouped;
      grouped, repr := GroupStates(states.value, AsClient());
      if grouped.Failure? {
        return Failure(grouped.error), [], repr;
      }
      groups := grouped.value;
      r := Success(GroupValues(grouped.value));
    }

    /** `async_get_entity`: the state is fetched by group id and slug when
        both are given, else by entity id, and comes back as the one Entity
        of a new Group; with neither it is a ValueError. */
    method GetEntity(groupId: Option<string>, slug: Option<string>, entityId: Option<string>)
      returns (r: Result<Option<Entity>, Error>)
      requires Valid()
      ensures (groupId.None? || slug.None?) && entityId.None? ==> r.Failure? && r.error.ValueError?
      ensures !((groupId.None? || slug.None?) && entityId.None?) ==>
                var fetched := if groupId.Some? && slug.Some? then GetState(None, groupId, slug) else GetState(entityId, None, None);
                && (fetched.Failure? ==> r == Failure(fetched.error))
                && (fetched.Success? ==> (r.Success? <==> SplitsInTwo(fetched.value)))
                && (r.Success? ==> r.value.Some? && r.value.value.state == fetched.value
                                   && r.value.value.group.client == AsClient()
                                   && r.value.value.group.groupId + "." + r.value.value.slug == fetched.value.entityId)
    {
      var fetched: Result<State, Error>;
      if groupId.Some? && slug.Some? {
        fetched := GetState(None, groupId, slug);
      } else if entityId.Some? {
        fetched := GetState(entityId, None, None);
      } else {
        return Failure(ValueError("Neither group_id and slug or entity_id provided."));
      }
      if fetched.Failure? {
        return Failure(fetched.error);
      }
      r := EntityFromState(fetched.value, AsClient());
    }

    /** The dict comprehension of `async_get_domains` over a list of
        services listing entries: one Domain per entry, keyed by its domain
        id, a later entry replacing an earlier one with the same id. */
    method DomainsOf(items: seq<Value>) returns (r: Result<map<Value, Domain>, Error>)
      requires Valid()
      ensures r.Success? <==> forall j :: 0 <= j < |items| ==> ServicesWellFormed(items[j]) && Hashable(DomainIdOf(items[j]))
      ensures r.Success? ==> r.value.Keys == set j | 0 <= j < |items| :: DomainIdOf(items[j])
      ensures r.Success? ==> forall k :: k in r.value ==>
                fresh(r.value[k]) && r.value[k].domainId == k && r.value[k].client == AsClient()
      ensures r.Success? ==> forall k :: k in r.value ==>
                exists j :: 0 <= j < |items| && DomainIdOf(items[j]) == k && LastWithId(items, |items|, j)
                            && r.value[k].services.Keys == ServiceIdsOf(items[j])
    {
      var domains: map<Value, Domain> := map[];
      var i := 0;
      while i < |items|
        invariant 0 <= i <= |items|
        invariant forall j :: 0 <= j < i ==> ServicesWellFormed(items[j]) && Hashable(DomainIdOf(items[j]))
        invariant domains.Keys == set j | 0 <= j < i :: DomainIdOf(items[j])
        invariant forall k :: k in domains ==>
                    fresh(domains[k]) && domains[k].domainId == k && domains[k].client == AsClient()
        invariant forall k :: k in domains ==>
                    exists j :: 0 <= j < i && DomainIdOf(items[j]) == k && LastWithId(items, i, j)
                                && domains[k].services.Keys == ServiceIdsOf(items[j])
      {
        var made := ProcessServicesJson(items[i], AsClient());
        if made.Failure? {
          return Failure(made.error);
        }
        var domain := made.value;
        if !Hashable(domain.domainId) {
          return Failure(TypeError("unhashable type"));
        }
        DomainsStep(items, i, domains, domain);
        domains := domains[domain.domainId := domain];
        i := i + 1;
      }
      r := Success(domains);
    }

    /** `async_get_domains`: a list reply gives its entries' Domains; an
        empty dict or string gives none; the keys of a non-empty dict and
        the characters of a non-empty string have no `get`; anything else is
        not iterable. */
    method GetDomains() returns (r: Result<map<Value, Domain>, Error>)
      requires Valid()
      ensures var reply := Request("services", "GET", None, []);
              && (reply.Failure? ==> r == Failure(reply.error))
              && (reply.Success? && reply.value.VList? ==>
                    (r.Success? <==> forall j :: 0 <= j < |reply.value.items| ==>
                                       ServicesWellFormed(reply.value.items[j]) && Hashable(DomainIdOf(reply.value.items[j]))))
              && (reply.Success? && reply.value.VList? && r.Success? ==>
                    r.value.Keys == set j | 0 <= j < |reply.value.items| :: DomainIdOf(reply.value.items[j]))
              && (reply.Success? && reply.value.VList? && r.Success? ==>
                    var items := reply.value.items;
                    forall k :: k in r.value ==>
                      exists j :: 0 <= j < |items| && DomainIdOf(items[j]) == k && LastWithId(items, |items|, j)
                                  && r.value[k].services.Keys == ServiceIdsOf(items[j]))
              && (reply.Success? && (reply.value == VDict(map[]) || reply.value == VStr("")) ==> r == Success(map[]))
              && (reply.Success? && (reply.value.VDict? || reply.value.VStr?) && reply.value != VDict(map[]) && reply.value != VStr("") ==>
                    r == Failure(AttributeError("get")))
              && (reply.Success? && !(reply.value.VList? || reply.value.VDict? || reply.value.VStr?) ==>
                    r.Failure? && r.error.TypeError?)
      ensures r.Success? ==> forall k :: k in r.value ==>
                fresh(r.value[k]) && r.value[k].domainId == k && r.value[k].client == AsClient()
    {
      var reply := Request("services", "GET", None, []);
      if reply.Failure? {
        return Failure(reply.error);
      }
      match reply.value
      case VList(items) =>
        r := DomainsOf(items);
      case VDict(m) =>
        r := if m == map[] then Success(map[]) else Failure(AttributeError("get"));
      case VStr(s) =>
        r := if s == "" then Success(map[]) else Failure(AttributeError("get"));
      case _ =>
        r := Failure(TypeError("object is not iterable"));
    }

    /** `async_get_domain`: the Domain listed under the id, if any. */
    method GetDomain(domainId: string) returns (r: Result<Option<Domain>, Error>)
      requires Valid()
      ensures var reply := Request("services", "GET", None, []);
              && (reply.Failure? ==> r == Failure(reply.error))
              && (reply.Success? && reply.value.VList? ==>
                    var items := reply.value.items;
                    && (r.Success? <==> forall j :: 0 <= j < |items| ==> ServicesWellFormed(items[j]) && Hashable(DomainIdOf(items[j])))
                    && (r.Success? ==>
                          (r.value.Some? <==> exists j :: 0 <= j < |items| && DomainIdOf(items[j]) == VStr(domainId)))
                    && (r.Success? && r.value.Some? ==>
                          exists j :: 0 <= j < |items| && DomainIdOf(items[j]) == VStr(domainId) && LastWithId(items, |items|, j)
                                      && r.value.value.services.Keys == ServiceIdsOf(items[j])))
              && (reply.Success? && (reply.value == VDict(map[]) || reply.value == VStr("")) ==> r == Success(None))
              && (reply.Success? && (reply.value.VDict? || reply.value.VStr?) && reply.value != VDict(map[]) && reply.value != VStr("") ==>
                    r == Failure(AttributeError("get")))
              && (reply.Success? && !(reply.value.VList? || reply.value.VDict? || reply.value.VStr?) ==>
                    r.Failure? && r.error.TypeError?)
      ensures r.Success? && r.value.Some? ==> r.value.value.domainId == VStr(domainId) && r.value.value.client == AsClient()
    {
      var domains := GetDomains();
      if domains.Failure? {
        return Failure(domains.error);
      }
      r := Success(if VStr(domainId) in domains.value then Some(domains.value[VStr(domainId)]) else None);
    }

    /** `async_get_events`: every item of the "events" reply validated as
        an Event. */
    function GetEvents(): (r: Result<seq<Event>, Error>)
      reads this, base
      requires Valid()
      ensures var reply := Request("events", "GET", None, []);
              && (reply.Failure? ==> r == Failure(reply.error))
              && (reply.Success? ==> r == EventsFromReply(reply.value))
    {
      var data :- Request("events", "GET", None, []);
      EventsFromReply(data)
    }

    /** `async_get_event`: the first listed Event whose name is the given
        name stripped and lower-cased, or None. */
    method GetEvent(name: string) returns (r: Result<Option<Event>, Error>)
      requires Valid()
      ensures GetEvents().Failure? ==> r == Failure(GetEvents().error)
      ensures GetEvents().Success? ==> r.Success?
      ensures r.Success? ==> var events := GetEvents().value;
                && (r.value.None? <==> forall j :: 0 <= j < |events| ==> events[j].event != Lower(Strip(name)))
                && (r.value.Some? ==> exists j :: 0 <= j < |events| && events[j] == r.value.value
                                       && events[j].event == Lower(Strip(name))
                                       && forall j' :: 0 <= j' < j ==> events[j'].event != Lower(Strip(name)))
    {
      var listed := GetEvents();
      if listed.Failure? {
        return Failure(listed.error);
      }
      var found := FindEvent(listed.value, Lower(Strip(name)));
      r := Success(found);
    }
  }

  /** The search loop of `async_get_event`: the first event named `wanted`. */
  method FindEvent(events: seq<Event>, wanted: string) returns (r: Option<Event>)
    ensures r.None? <==> forall j :: 0 <= j < |events| ==> events[j].event != wanted
    ensures r.Some? ==> exists j :: 0 <= j < |events| && events[j] == r.value && events[j].event == wanted
                                    && forall j' :: 0 <= j' < j ==> events[j'].event != wanted
  {
    var i := 0;
    while i < |events|
      invariant 0 <= i <= |events|
      invariant forall j :: 0 <= j < i ==> events[j].event != wanted
    {
      if events[i].event == wanted {
        return Some(events[i]);
      }
      i := i + 1;
    }
    r := None;
  }

  /** One more entry in the domain dict: the keys grow by its id, and for
      every id the entry recorded is still the last with that id. */
  lemma DomainsStep(items: seq<Value>, i: nat, domains: map<Value, Domain>, domain: Domain)
    requires i < |items|
    requires domains.Keys == set j | 0 <= j < i :: DomainIdOf(items[j])
    requires domain.domainId == DomainIdOf(items[i])
    ensures domains[domain.domainId := domain].Keys == set j | 0 <= j < i + 1 :: DomainIdOf(items[j])
    ensures forall j :: 0 <= j < i && LastWithId(items, i, j) && DomainIdOf(items[j]) != DomainIdOf(items[i]) ==>
              LastWithId(items, i + 1, j)
    ensures LastWithId(items, i + 1, i)
  {
    IdsStep(items, i);
  }

  lemma IdsStep(items: seq<Value>, i: nat)
    requires i < |items|
    ensures (set j | 0 <= j < i + 1 :: DomainIdOf(items[j])) == (set j | 0 <= j < i :: DomainIdOf(items[j])) + {DomainIdOf(items[i])}
  {
  }
}
