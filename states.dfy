/** The State record of an entity and its construction from decoded JSON
    (the field declarations of the State model and their validation). */
module States {
  import opened Wrappers
  import opened Values
  import opened Errors

  datatype State = State(
    entityId: string,
    state: string,
    attributes: map<string, Value>,
    lastChanged: Option<DateTime>,
    lastUpdated: Option<DateTime>,
    context: map<string, Option<string>>)

  /** An optional timestamp field: absent or null gives None. */
  function ParseStamp(m: map<string, Value>, key: string): Result<Option<DateTime>, Error> {
    match DictGet(m, key, VNone)
    case VNone => Success(None)
    case VStr(s) => Success(Some(DateTime(s)))
    case VTime(t) => Success(Some(t))
    case _ => Failure(ValueError("invalid datetime"))
  }

  predicate IsContext(m: map<string, Value>) {
    forall k :: k in m ==> m[k].VNone? || m[k].VStr?
  }

  function ContextOf(m: map<string, Value>): map<string, Option<string>>
    requires IsContext(m)
  {
    map k | k in m :: if m[k].VStr? then Some(m[k].s) else None
  }

  /** Validation of a decoded object against the State fields: `entity_id`
      and `state` are required strings, `attributes` and `context` default to
      empty, the two timestamps to None. */
  function ParseState(v: Value): (r: Result<State, Error>)
    ensures r.Success? ==> v.VDict? && "entity_id" in v.entries && "state" in v.entries
    ensures r.Success? ==> v.entries["entity_id"] == VStr(r.value.entityId)
    ensures r.Success? ==> v.entries["state"] == VStr(r.value.state)
    ensures !v.VDict? ==> r.Failure?
  {
    if !v.VDict? then Failure(ValueError("state must be an object"))
    else
      var m := v.entries;
      var attrs := DictGet(m, "attributes", VDict(map[]));
      var ctx := DictGet(m, "context", VDict(map[]));
      if !(DictGet(m, "entity_id", VNone).VStr? && DictGet(m, "state", VNone).VStr?) then
        Failure(ValueError("entity_id and state must be strings"))
      else if !attrs.VDict? then Failure(ValueError("attributes must be an object"))
      else if !(ctx.VDict? && IsContext(ctx.entries)) then Failure(ValueError("invalid context"))
      else
        var changed :- ParseStamp(m, "last_changed");
        var updated :- ParseStamp(m, "last_updated");
        Success(State(m["entity_id"].s, m["state"].s, attrs.entries, changed, updated, ContextOf(ctx.entries)))
  }

  function StampValue(t: Option<DateTime>): Value {
    if t.Some? then VTime(t.value) else VNone
  }

  /** The object a State is serialised to. */
  function StateValue(s: State): Value {
    VDict(map[
      "entity_id" := VStr(s.entityId),
      "state" := VStr(s.state),
      "attributes" := VDict(s.attributes),
      "last_changed" := StampValue(s.lastChanged),
      "last_updated" := StampValue(s.lastUpdated),
      "context" := VDict(ContextValue(s.context))])
  }

  function ContextValue(c: map<string, Option<string>>): map<string, Value> {
    map k | k in c :: if c[k].Some? then VStr(c[k].value) else VNone
  }

  lemma ContextRoundTrip(c: map<string, Option<string>>)
    ensures IsContext(ContextValue(c)) && ContextOf(ContextValue(c)) == c
  {
    var m := ContextValue(c);
    assert IsContext(m);
    assert ContextOf(m).Keys == c.Keys;
  }

  lemma StampRoundTrip(m: map<string, Value>, key: string, t: Option<DateTime>)
    requires key in m && m[key] == StampValue(t)
    ensures ParseStamp(m, key) == Success(t)
  {
  }

  /** Serialising a State and validating it again gives the same State. */
  lemma StateRoundTrip(s: State)
    ensures ParseState(StateValue(s)) == Success(s)
  {
    var m := StateValue(s).entries;
    assert "entity_id" in m && m["entity_id"] == VStr(s.entityId);
    assert "state" in m && m["state"] == VStr(s.state);
    assert "attributes" in m && m["attributes"] == VDict(s.attributes);
    assert "last_changed" in m && m["last_changed"] == StampValue(s.lastChanged);
    assert "last_updated" in m && m["last_updated"] == StampValue(s.lastUpdated);
    assert "context" in m && m["context"] == VDict(ContextValue(s.context));
    ParseEntries(m, s);
  }

  /** Validation accepts any object holding the serialised fields of `s`. */
  lemma ParseEntries(m: map<string, Value>, s: State)
    requires "entity_id" in m && m["entity_id"] == VStr(s.entityId)
    requires "state" in m && m["state"] == VStr(s.state)
    requires "attributes" in m && m["attributes"] == VDict(s.attributes)
    requires "last_changed" in m && m["last_changed"] == StampValue(s.lastChanged)
    requires "last_updated" in m && m["last_updated"] == StampValue(s.lastUpdated)
    requires "context" in m && m["context"] == VDict(ContextValue(s.context))
    ensures ParseState(VDict(m)) == Success(s)
  {
    ContextRoundTrip(s.context);
    StampRoundTrip(m, "last_changed", s.lastChanged);
    StampRoundTrip(m, "last_updated", s.lastUpdated);
  }

  /** An event type known to the server, as listed by the events endpoint. */
  datatype Event = Event(event: string, listenerCount: int)

  function ParseEvent(v: Value): (r: Result<Event, Error>)
    ensures r.Success? ==> v.VDict? && DictGet(v.entries, "event", VNone) == VStr(r.value.event)
  {
    if v.VDict? && DictGet(v.entries, "event", VNone).VStr? && DictGet(v.entries, "listener_count", VNone).VInt? then
      Success(Event(v.entries["event"].s, v.entries["listener_count"].i))
    else Failure(ValueError("invalid event"))
  }

  /** A calendar event after its dates have been normalised. */
  datatype CalendarEvent = CalendarEvent(
    summary: string,
    start: DateTime,
    end: DateTime,
    allDay: bool,
    description: Option<string>,
    location: Option<string>)
}
