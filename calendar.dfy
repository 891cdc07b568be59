/** Calendars and calendar events. `CalendarEvent.from_json` normalises the
    date keys of the dict it is given, in place, before validating it. */
module Calendars {
  import opened Wrappers
  import opened Values
  import opened Errors
  import opened Text
  import opened States
  import opened Remote

  /** A dict passed by reference, which the callee may change. */
  class JsonDict {
    var items: map<string, Value>

    constructor (items: map<string, Value>)
      ensures this.items == items
    {
      this.items := items;
    }
  }

  /** Python's `key in v`: a key of a dict, a substring of a string, an
      element of a list; anything else is not a container. */
  function MemberOf(key: string, v: Value): (r: Result<bool, Error>)
    ensures v.VDict? ==> r == Success(key in v.entries)
    ensures v.VStr? ==> r == Success(Contains(v.s, key))
    ensures r.Failure? <==> !(v.VDict? || v.VStr? || v.VList?)
  {
    match v
    case VDict(m) => Success(key in m)
    case VStr(s) => Success(Contains(s, key))
    case VList(xs) => Success(VStr(key) in xs)
    case _ => Failure(TypeError("argument is not iterable"))
  }

  /** Whether the event is marked all-day: a "date" in the start object, or
      failing that in the end object (each defaulting to an empty dict). */
  function AllDayMark(m: map<string, Value>): Result<bool, Error> {
    var inStart :- MemberOf("date", DictGet(m, "start", VDict(map[])));
    if inStart then Success(true)
    else MemberOf("date", DictGet(m, "end", VDict(map[])))
  }

  /** The date text chosen for `field`: its truthy "dateTime", else its
      truthy "date", else nothing. The field itself must be a dict. */
  function PickDate(m: map<string, Value>, field: string): (r: Result<Option<Value>, Error>)
    ensures r.Success? ==> DictGet(m, field, VDict(map[])).VDict?
    ensures r.Success? && r.value.Some? ==> Truthy(r.value.value)
  {
    var obj := DictGet(m, field, VDict(map[]));
    if !obj.VDict? then Failure(AttributeError("get"))
    else
      var dt := DictGet(obj.entries, "dateTime", VNone);
      var d := DictGet(obj.entries, "date", VNone);
      if Truthy(dt) then Success(Some(dt))
      else if Truthy(d) then Success(Some(d))
      else Success(None)
  }

  /** Whether `field` can be normalised: its date object is a dict, and the
      date text picked from it, if any, is a string `fromIso` accepts. */
  predicate DateParses(m: map<string, Value>, field: string, fromIso: string -> Result<DateTime, Error>) {
    var pick := PickDate(m, field);
    pick.Success? && (pick.value.Some? ==> pick.value.value.VStr? && fromIso(pick.value.value.s).Success?)
  }

  /** The DateTime that replaces `field`, when there is date text to parse and
      it parses. */
  function ParsedDate(m: map<string, Value>, field: string, fromIso: string -> Result<DateTime, Error>): (r: Option<DateTime>)
    ensures r.Some? ==> DateParses(m, field, fromIso)
    ensures r.Some? ==> PickDate(m, field).Success? && PickDate(m, field).value.Some?
                        && fromIso(PickDate(m, field).value.value.s) == Success(r.value)
    ensures DateParses(m, field, fromIso) && r.None? ==> PickDate(m, field) == Success(None)
  {
    var pick := PickDate(m, field);
    if DateParses(m, field, fromIso) && pick.value.Some? then Some(fromIso(pick.value.value.s).value) else None
  }

  /** `m1` has the keys and values of `m0`, except perhaps at `field`. */
  ghost predicate KeptExcept(m0: map<string, Value>, m1: map<string, Value>, field: string) {
    forall k :: k != field ==> (k in m1 <==> k in m0) && (k in m0 ==> m1[k] == m0[k])
  }

  /** `m1` holds at `key` what `m0` holds there, or neither has `key`. */
  ghost predicate SameAt(m0: map<string, Value>, m1: map<string, Value>, key: string) {
    (key in m1 <==> key in m0) && (key in m0 ==> m1[key] == m0[key])
  }

  /** A change confined to one key leaves the date picked from, and the
      value read from, any other key as it was. */
  lemma KeptPick(m0: map<string, Value>, m1: map<string, Value>, field: string, f: string)
    requires KeptExcept(m0, m1, field) && f != field
    ensures PickDate(m1, f) == PickDate(m0, f)
    ensures DictGet(m1, f, VNone) == DictGet(m0, f, VNone)
  {
    assert DictGet(m1, f, VDict(map[])) == DictGet(m0, f, VDict(map[]));
  }

  /** Parses the chosen date text and stores it under `field`. It fails
      exactly when the field is not a dict, or its date text is not a string
      `fromIso` accepts; the dict changes only when a date is stored. */
  method ReplaceDate(json: JsonDict, field: string, fromIso: string -> Result<DateTime, Error>)
    returns (r: Result<(), Error>)
    modifies json
    ensures r.Success? <==> DateParses(old(json.items), field, fromIso)
    ensures var parsed := ParsedDate(old(json.items), field, fromIso);
            json.items == if parsed.Some? then old(json.items)[field := VTime(parsed.value)] else old(json.items)
    ensures KeptExcept(old(json.items), json.items, field)
  {
    var pick := PickDate(json.items, field);
    if pick.Failure? {
      return Failure(pick.error);
    }
    if pick.value.Some? {
      var text := pick.value.value;
      if !text.VStr? {
        return Failure(TypeError("fromisoformat: argument must be str"));
      }
      var parsed := fromIso(text.s);
      if parsed.Failure? {
        return Failure(parsed.error);
      }
      json.items := json.items[field := VTime(parsed.value)];
    }
    r := Success(());
  }

  /** `CalendarEvent.from_json`: marks the event all-day when its start or
      end object has a "date" key (never unmarks it), replaces `start` and
      `end` by their parsed date text where there is one, then validates the
      changed dict. It fails when the all-day test fails, or either date
      cannot be normalised; the caller's dict keeps every change made before
      a failure, and no key other than these three is touched. */
  method EventFromJson(json: JsonDict, fromIso: string -> Result<DateTime, Error>,
                       validate: map<string, Value> -> Result<CalendarEvent, Error>)
    returns (r: Result<CalendarEvent, Error>)
    modifies json
    ensures forall k :: k != "all_day" && k != "start" && k != "end" ==> SameAt(old(json.items), json.items, k)
    ensures var mark := AllDayMark(old(json.items));
            && (mark.Failure? ==> r == Failure(mark.error) && json.items == old(json.items))
            && (mark == Success(true) ==> "all_day" in json.items && json.items["all_day"] == VBool(true))
            && (mark != Success(true) ==> SameAt(old(json.items), json.items, "all_day"))
    ensures var mark := AllDayMark(old(json.items));
            var startOk := mark.Success? && DateParses(old(json.items), "start", fromIso);
            var endOk := startOk && DateParses(old(json.items), "end", fromIso);
            && (r.Success? ==> endOk)
            && (endOk ==> r == validate(json.items))
            && (mark.Success? && ParsedDate(old(json.items), "start", fromIso).Some? ==>
                  "start" in json.items && json.items["start"] == VTime(ParsedDate(old(json.items), "start", fromIso).value))
            && (mark.Failure? || ParsedDate(old(json.items), "start", fromIso).None? ==> SameAt(old(json.items), json.items, "start"))
            && (startOk && ParsedDate(old(json.items), "end", fromIso).Some? ==>
                  "end" in json.items && json.items["end"] == VTime(ParsedDate(old(json.items), "end", fromIso).value))
            && (!startOk || ParsedDate(old(json.items), "end", fromIso).None? ==> SameAt(old(json.items), json.items, "end"))
  {
    var mark := AllDayMark(json.items);
    if mark.Failure? {
      return Failure(mark.error);
    }
    ghost var m0 := json.items;
    if mark.value {
      json.items := json.items["all_day" := VBool(true)];
    }
    ghost var m1 := json.items;
    assert KeptExcept(m0, m1, "all_day");
    KeptPick(m0, m1, "all_day", "start");
    KeptPick(m0, m1, "all_day", "end");
    var s := ReplaceDate(json, "start", fromIso);
    ghost var m2 := json.items;
    KeptPick(m1, m2, "start", "end");
    if s.Failure? {
      return Failure(s.error);
    }
    var e := ReplaceDate(json, "end", fromIso);
    r := if e.Failure? then Failure(e.error) else validate(json.items);
  }

  /** A calendar entity; it keeps the client it was created by. */
  datatype Calendar = Calendar(entityId: string, name: string, client: Server)

  /** `Calendar.from_json`: asserts a client was given, then passes the
      dict as keyword arguments next to `_client`: a non-dict, or a dict
      that has its own "_client", is a TypeError; otherwise the two string
      fields are validated. */
  function CalendarFromJson(json: Value, client: Option<Server>): (r: Result<Calendar, Error>)
    ensures client.None? ==> r == Failure(AssertionError)
    ensures client.Some? && (!json.VDict? || "_client" in json.entries) ==> r.Failure? && r.error.TypeError?
    ensures client.Some? ==>
              (r.Success? <==> json.VDict? && "_client" !in json.entries
                               && DictGet(json.entries, "entity_id", VNone).VStr?
                               && DictGet(json.entries, "name", VNone).VStr?)
    ensures client.Some? && json.VDict? && "_client" !in json.entries && r.Failure? ==> r.error.ValueError?
    ensures r.Success? ==> client == Some(r.value.client)
    ensures r.Success? ==> json.VDict? && DictGet(json.entries, "entity_id", VNone) == VStr(r.value.entityId)
                           && DictGet(json.entries, "name", VNone) == VStr(r.value.name)
  {
    if client.None? then Failure(AssertionError)
    else if !json.VDict? then Failure(TypeError("argument after ** must be a mapping"))
    else if "_client" in json.entries then Failure(TypeError("got multiple values for keyword argument '_client'"))
    else if DictGet(json.entries, "entity_id", VNone).VStr? && DictGet(json.entries, "name", VNone).VStr? then
      Success(Calendar(json.entries["entity_id"].s, json.entries["name"].s, client.value))
    else Failure(ValueError("invalid calendar"))
  }

  /** Delegates to the client with this calendar's entity id and the same
      bounds. */
  function GetCalendarEvents(c: Calendar, start: Option<DateTime>, end: Option<DateTime>): (r: Result<seq<CalendarEvent>, Error>)
    ensures r == c.client.calendarEvents(c.entityId, start, end)
  {
    c.client.calendarEvents(c.entityId, start, end)
  }
}
