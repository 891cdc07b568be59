/** Service domains and their services. A Domain owns a dict from service id
    to Service that `AddService` writes into; a Service triggers itself by
    posting to `services/<domain id>/<service id>`. */
module Domains {
  import opened Wrappers
  import opened Values
  import opened Errors
  import opened Text
  import opened States
  import opened Histories
  import opened Remote

  /** The optional metadata a Service accepts as keyword arguments. */
  predicate ServiceField(key: string) {
    key == "name" || key == "description" || key == "fields" || key == "target"
  }

  predicate ServiceData(data: map<string, Value>) {
    forall k :: k in data ==> ServiceField(k)
  }

  /** A non-empty path segment with no leading or trailing "/". */
  predicate RelativePart(s: string) {
    s != "" && !StartsWith(s, "/") && !EndsWith(s, "/")
  }

  class Domain {
    /** `domain_id` holds whatever the services listing gave, unchecked. */
    const domainId: Value
    const client: Server
    var services: map<string, Service>

    constructor (domainId: Value, client: Server)
      ensures this.domainId == domainId && this.client == client
      ensures services == map[]
    {
      this.domainId := domainId;
      this.client := client;
      services := map[];
    }

    /** Registers a Service built from `serviceId` and the keyword data,
        replacing any service already registered under that id. Keyword
        names a Service does not declare are a TypeError and change nothing. */
    method AddService(serviceId: string, data: map<string, Value>) returns (r: Result<Service, Error>)
      modifies this
      ensures r.Success? <==> ServiceData(data)
      ensures r.Success? ==> fresh(r.value) && r.value.serviceId == serviceId && r.value.domain == this
      ensures r.Success? ==> r.value.meta == data
      ensures r.Success? ==> services == old(services)[serviceId := r.value]
      ensures r.Failure? ==> r.error.TypeError? && services == old(services)
    {
      if !ServiceData(data) {
        return Failure(TypeError("unexpected keyword argument"));
      }
      var s := new Service(serviceId, this, data);
      services := services[serviceId := s];
      r := Success(s);
    }

    /** The service registered under `serviceId`, if any. */
    function GetService(serviceId: string): (r: Option<Service>)
      reads this
      ensures r.Some? <==> serviceId in services
      ensures r.Some? ==> r.value == services[serviceId]
    {
      if serviceId in services then Some(services[serviceId]) else None
    }
  }

  /** `iter(data)` followed by validating each item as a State: a list gives
      its items, an empty dict or string gives nothing, a non-empty one gives
      keys or characters that are not States, anything else is not iterable. */
  function StatesFromReply(data: Value): (r: Result<seq<State>, Error>)
    ensures data.VList? ==> r == ParseStates(data.items)
    ensures r.Success? ==> data.VList? || data == VDict(map[]) || data == VStr("")
  {
    match data
    case VList(items) => ParseStates(items)
    case VDict(m) => if m == map[] then Success([]) else Failure(ValueError("state must be an object"))
    case VStr(s) => if s == "" then Success([]) else Failure(ValueError("state must be an object"))
    case _ => Failure(TypeError("object is not iterable"))
  }

  class Service {
    const serviceId: string
    const domain: Domain
    /** name, description, fields and target, where given */
    const meta: map<string, Value>

    constructor (serviceId: string, domain: Domain, meta: map<string, Value>)
      ensures this.serviceId == serviceId && this.domain == domain && this.meta == meta
    {
      this.serviceId := serviceId;
      this.domain := domain;
      this.meta := meta;
    }

    /** The path the service is posted to; joining a domain id that is not a
        string is a TypeError. */
    function TriggerPath(): (r: Result<string, Error>)
      ensures r.Success? <==> domain.domainId.VStr?
      ensures r.Success? && RelativePart(domain.domainId.s) && !StartsWith(serviceId, "/")
              ==> r.value == "services/" + domain.domainId.s + "/" + serviceId
    {
      if domain.domainId.VStr? then
        var id := domain.domainId.s;
        PathJoinTwo("services", id, serviceId);
        Success(PathJoin("services", [id, serviceId]))
      else Failure(TypeError("join() argument must be str"))
    }

    /** Posts the keyword data and returns one State per item the server
        returns, in order. A domain id that is not a string and a failed
        request are passed on unchanged. */
    function Trigger(serviceData: map<string, Value>): (r: Result<seq<State>, Error>)
      ensures TriggerPath().Failure? ==> r == Failure(TriggerPath().error)
      ensures TriggerPath().Success? ==>
                var reply := domain.client.request(Post(TriggerPath().value, Some(VDict(serviceData))));
                && (reply.Failure? ==> r == Failure(reply.error))
                && (reply.Success? ==> r == StatesFromReply(reply.value))
      ensures r.Success? ==> TriggerPath().Success?
    {
      var path :- TriggerPath();
      var data :- domain.client.request(Post(path, Some(VDict(serviceData))));
      StatesFromReply(data)
    }

    /** When the server answers the post with the JSON of some States,
        triggering the service yields exactly those States. */
    lemma TriggerReturnsStates(serviceData: map<string, Value>, states: seq<State>)
      requires TriggerPath().Success?
      requires domain.client.request(Post(TriggerPath().value, Some(VDict(serviceData)))) == Success(VList(StateValues(states)))
      ensures Trigger(serviceData) == Success(states)
    {
      StatesRoundTrip(states);
    }

    /** Calling a Service triggers it with the same keyword data. */
    function Call(serviceData: map<string, Value>): (r: Result<seq<State>, Error>)
      ensures r == Trigger(serviceData)
    {
      Trigger(serviceData)
    }
  }
}
