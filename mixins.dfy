/** Turning decoded replies into model objects: a services listing entry
    becomes a Domain holding one Service per listed service, a state
    mapping becomes a State, an event mapping an Event. The async twins do
    the same and are the same members here. */
module Mixins {
  import opened Wrappers
  import opened Values
  import opened Errors
  import opened States
  import opened Domains
  import Remote

  /** A service's data can be spread as keyword arguments of a Service. */
  predicate ServiceEntry(data: Value) {
    data.VDict? && ServiceData(data.entries)
  }

  /** A services listing entry the Domain can be built from: a mapping
      whose "services" is a mapping of service ids to service data. */
  predicate ServicesWellFormed(json: Value) {
    && json.VDict? && "services" in json.entries && json.entries["services"].VDict?
    && forall id :: id in json.entries["services"].entries ==> ServiceEntry(json.entries["services"].entries[id])
  }

  /** `process_services_json`: a Domain named by the entry's "domain" (None
      when absent), with every listed service registered. A missing or None
      "services" is a ValueError; services that are not a mapping have no
      `items`; service data that is not a mapping, or that names a field a
      Service does not have, is a TypeError. */
  method ProcessServicesJson(json: Value, client: Remote.Server) returns (r: Result<Domain, Error>)
    ensures r.Success? <==> ServicesWellFormed(json)
    ensures !json.VDict? ==> r == Failure(AttributeError("get"))
    ensures json.VDict? && DictGet(json.entries, "services", VNone) == VNone ==> r.Failure? && r.error.ValueError?
    ensures json.VDict? && DictGet(json.entries, "services", VNone) != VNone && !json.entries["services"].VDict? ==>
              r == Failure(AttributeError("items"))
    ensures json.VDict? && "services" in json.entries && json.entries["services"].VDict? && r.Failure? ==>
              r.error.TypeError?
    ensures r.Success? ==> fresh(r.value)
    ensures r.Success? ==> r.value.domainId == DictGet(json.entries, "domain", VNone) && r.value.client == client
    ensures r.Success? ==> r.value.services.Keys == json.entries["services"].entries.Keys
    ensures r.Success? ==> forall id :: id in r.value.services ==>
              && r.value.services[id].serviceId == id
              && r.value.services[id].domain == r.value
              && r.value.services[id].meta == json.entries["services"].entries[id].entries
  {
    if !json.VDict? {
      return Failure(AttributeError("get"));
    }
    var domain := new Domain(DictGet(json.entries, "domain", VNone), client);
    var services := DictGet(json.entries, "services", VNone);
    if services == VNone {
      return Failure(ValueError("Missing services attribute in passed json argument."));
    }
    if !services.VDict? {
      return Failure(AttributeError("items"));
    }
    var listed := services.entries;
    var todo := listed.Keys;
    while todo != {}
      invariant todo <= listed.Keys
      invariant fresh(domain)
      invariant domain.domainId == DictGet(json.entries, "domain", VNone) && domain.client == client
      invariant domain.services.Keys == listed.Keys - todo
      invariant forall id :: id in domain.services ==>
                  && ServiceEntry(listed[id])
                  && domain.services[id].serviceId == id
                  && domain.services[id].domain == domain
                  && domain.services[id].meta == listed[id].entries
      decreases todo
    {
      var id :| id in todo;
      var data := listed[id];
      if !data.VDict? {
        return Failure(TypeError("argument after ** must be a mapping"));
      }
      var added := domain.AddService(id, data.entries);
      if added.Failure? {
        return Failure(added.error);
      }
      todo := todo - {id};
    }
    r := Success(domain);
  }
}
