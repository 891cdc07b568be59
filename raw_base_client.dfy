/** The request-building half of the newer client base class: the base URL,
    the headers sent with every request, the hand-written query-string
    encoder, entity-id preparation, and the parameters of the history and
    logbook endpoints. */
module RawBaseClient {
  import opened Wrappers
  import opened Values
  import opened Errors
  import opened Text
  import opened OrderedDicts
  import opened EntityIdFormat
  import opened Entities

  // ---------------------------------------------------------------- headers

  /** A caller's headers dict; `prepare_headers` writes into it in place. */
  class HeaderDict {
    var items: ODict<string>

    constructor (items: ODict<string>)
      ensures this.items == items
    {
      this.items := items;
    }
  }

  /** What a caller may pass as `headers`. */
  datatype HeadersArg = NoHeaders | DictArg(dict: HeaderDict) | NotADict(typeName: string)

  /** `_headers`: the bearer token and the JSON content type. */
  function AuthHeaders(token: string): (h: ODict<string>)
    ensures DistinctKeys(h)
    ensures Keys(h) == ["Authorization", "Content-Type"]
  {
    [("Authorization", "Bearer " + token), ("Content-Type", "application/json")]
  }

  /** The caller's headers with the two fixed headers written over them:
      those two always carry the client's values, every other header keeps
      the caller's value, and no header is added besides the two. */
  function MergedHeaders(h: ODict<string>, token: string): (r: ODict<string>)
    requires DistinctKeys(h)
    ensures DistinctKeys(r)
    ensures Get(r, "Authorization") == Some("Bearer " + token)
    ensures Get(r, "Content-Type") == Some("application/json")
    ensures forall k :: k != "Authorization" && k != "Content-Type" ==> Get(r, k) == Get(h, k)
  {
    Update(h, AuthHeaders(token))
  }

  /** `prepare_headers`: None stands for a new empty dict, a dict is updated
      in place and returned, anything else is a ValueError. */
  method PrepareHeadersWith(token: string, headers: HeadersArg) returns (r: Result<HeaderDict, Error>)
    requires headers.DictArg? ==> DistinctKeys(headers.dict.items)
    modifies if headers.DictArg? then {headers.dict} else {}
    ensures headers.NotADict? ==> r.Failure? && r.error.ValueError?
    ensures headers.NoHeaders? ==> r.Success? && fresh(r.value) && r.value.items == MergedHeaders([], token)
    ensures headers.DictArg? ==> r == Success(headers.dict) && headers.dict.items == MergedHeaders(old(headers.dict.items), token)
  {
    var d: HeaderDict;
    if headers.NotADict? {
      return Failure(ValueError("headers must be dict or dict subclass, not type " + headers.typeName));
    } else if headers.NoHeaders? {
      d := new HeaderDict([]);
    } else {
      d := headers.dict;
    }
    d.items := MergedHeaders(d.items, token);
    r := Success(d);
  }

  // ----------------------------------------------------------- query string

  /** One entry of the query string: the bare key for None, else `k=v`. */
  function Param(k: string, v: Option<string>): string {
    if v.None? then k else k + "=" + v.value
  }

  function Params(params: ODict<Option<string>>): (parts: seq<string>)
    ensures |parts| == |params|
    ensures forall i :: 0 <= i < |params| ==> parts[i] == Param(params[i].0, params[i].1)
  {
    if params == [] then [] else [Param(params[0].0, params[0].1)] + Params(params[1..])
  }

  /** `construct_params`: the entries in insertion order joined by "&",
      nothing percent-encoded. */
  function ConstructParams(params: ODict<Option<string>>): (q: string)
    ensures params == [] ==> q == ""
    ensures |params| == 1 ==> q == Param(params[0].0, params[0].1)
  {
    Join("&", Params(params))
  }

  /** Reads one query entry back: up to the first "=" is the key, a missing
      "=" means a bare key. */
  function ParseParam(p: string): (kv: (string, Option<string>))
    ensures '=' !in p ==> kv == (p, None)
  {
    var i := IndexOf(p, '=');
    if i == |p| then (p, None) else (p[..i], Some(p[i + 1..]))
  }

  function ParseParams(parts: seq<string>): (params: ODict<Option<string>>)
    ensures |params| == |parts|
    ensures forall i :: 0 <= i < |parts| ==> params[i] == ParseParam(parts[i])
  {
    if parts == [] then [] else [ParseParam(parts[0])] + ParseParams(parts[1..])
  }

  /** A reader for the strings `construct_params` writes. */
  function ParseQuery(q: string): ODict<Option<string>> {
    if q == "" then [] else ParseParams(Split(q, '&'))
  }

  /** Entries the encoder writes unambiguously: a non-empty key without "&"
      or "=", and a value without "&". */
  predicate PlainEntry(e: (string, Option<string>)) {
    e.0 != "" && '&' !in e.0 && '=' !in e.0 && (e.1.Some? ==> '&' !in e.1.value)
  }

  lemma ParamRoundTrip(k: string, v: Option<string>)
    requires '=' !in k
    ensures ParseParam(Param(k, v)) == (k, v)
  {
    if v.Some? {
      var p := k + "=" + v.value;
      var i := IndexOf(p, '=');
      assert p[|k|] == '=';
      assert forall j :: 0 <= j < |k| ==> p[j] == k[j];
      assert i == |k|;
      assert p[..i] == k;
      assert p[i + 1..] == v.value;
    }
  }

  /** Reading back what `construct_params` wrote gives the same entries in
      the same order, as long as no key or value holds a delimiter. */
  lemma ConstructParamsRoundTrip(params: ODict<Option<string>>)
    requires forall i :: 0 <= i < |params| ==> PlainEntry(params[i])
    ensures ParseQuery(ConstructParams(params)) == params
  {
    var parts := Params(params);
    if params == [] {
      return;
    }
    forall i | 0 <= i < |parts|
      ensures '&' !in parts[i]
    {
      assert PlainEntry(params[i]);
    }
    SplitJoin(parts, '&');
    assert "&" == ['&'];
    assert Params(params)[0] != "" by {
      assert PlainEntry(params[0]);
    }
    forall i | 0 <= i < |params|
      ensures ParseParam(parts[i]) == params[i]
    {
      assert PlainEntry(params[i]);
      ParamRoundTrip(params[i].0, params[i].1);
    }
    assert Join("&", parts) != "" by {
      JoinHeadPrefix(parts);
    }
  }

  /** A join starts with its first part. */
  lemma JoinHeadPrefix(parts: seq<string>)
    requires parts != []
    ensures |Join("&", parts)| >= |parts[0]|
  {
  }

  /** Without percent-encoding, a value holding "&" and "=" is written
      exactly like two separate entries, as with ("a", "1&b=2") against
      ("a", "1") followed by ("b", "2"). */
  lemma ConstructParamsAmbiguous(k: string, v: string, k2: string, v2: string)
    ensures ConstructParams([(k, Some(v + "&" + k2 + "=" + v2))]) == ConstructParams([(k, Some(v)), (k2, Some(v2))])
  {
    var two := [(k, Some(v)), (k2, Some(v2))];
    assert Params(two) == [k + "=" + v, k2 + "=" + v2];
    assert Join("&", [k + "=" + v, k2 + "=" + v2]) == (k + "=" + v) + "&" + Join("&", [k2 + "=" + v2]);
  }

  // -------------------------------------------------------------- entity ids

  /** `prepare_entity_id`: group and slug, when both are given, win over
      `entity_id`; without them `entity_id` is required; the id is then
      converted to snake_case. */
  function PrepareEntityId(groupId: Option<string>, slug: Option<string>, entityId: Option<string>): (r: Result<string, Error>)
    ensures r.Failure? <==> (groupId.None? || slug.None?) && entityId.None?
    ensures r.Failure? ==> r.error.ValueError?
    ensures groupId.Some? && slug.Some? ==> r == Success(FormatEntityId(groupId.value + "." + slug.value))
    ensures (groupId.None? || slug.None?) && entityId.Some? ==> r == Success(FormatEntityId(entityId.value))
  {
    if (groupId.None? || slug.None?) && entityId.None? then
      Failure(ValueError("To use group or slug you need to pass both, not just one."))
    else if groupId.Some? && slug.Some? then
      Success(FormatEntityId(groupId.value + "." + slug.value))
    else
      Success(FormatEntityId(entityId.value))
  }

  /** A prepared id is in snake_case: no capitals, no "-", and preparing it
      again as `entity_id` gives it back. */
  lemma PreparedIdIsFormatted(groupId: Option<string>, slug: Option<string>, entityId: Option<string>)
    requires PrepareEntityId(groupId, slug, entityId).Success?
    ensures var id := PrepareEntityId(groupId, slug, entityId).value;
            NoUpper(id) && '-' !in id && PrepareEntityId(None, None, Some(id)) == Success(id)
  {
    var raw := if groupId.Some? && slug.Some? then groupId.value + "." + slug.value else entityId.value;
    FormatIdempotent(raw);
  }

  /** An id that is already snake_case passes through unchanged, as with
      "person.me". */
  lemma PrepareSnakeCaseId(id: string)
    requires NoUpper(id) && '-' !in id
    ensures PrepareEntityId(None, None, Some(id)) == Success(id)
  {
    FormatKeepsSnakeCase(id);
  }

  // ------------------------------------------------- history and logbook

  /** The `entity_id` property of each entity, in order. */
  function EntityIds(entities: seq<Entity>): (ids: seq<string>)
    ensures |ids| == |entities|
    ensures forall i :: 0 <= i < |entities| ==> ids[i] == entities[i].EntityId()
  {
    seq(|entities|, i requires 0 <= i < |entities| => entities[i].EntityId())
  }

  /** The query map of the history endpoint, filled key by key in a fixed
      order: the comma-joined entity ids, the rendered end time, and the two
      flags as bare keys. */
  method FillHistoryParams(entities: Option<seq<Entity>>, endTime: Option<string>, minimal: bool, significantOnly: bool)
    returns (params: ODict<Option<string>>)
    ensures params == (if entities.Some? then [("filter_entity_id", Some(Join(",", EntityIds(entities.value))))] else [])
                    + (if endTime.Some? then [("end_time", endTime)] else [])
                    + (if minimal then [("minimal_response", None)] else [])
                    + (if significantOnly then [("significant_changes_only", None)] else [])
  {
    // Every key is new when it is set, so setting it appends it.
    params := [];
    if entities.Some? {
      var ids := Join(",", EntityIds(entities.value));
      params := params + [("filter_entity_id", Some(ids))];
    }
    if endTime.Some? {
      params := params + [("end_time", endTime)];
    }
    if minimal {
      params := params + [("minimal_response", None)];
    }
    if significantOnly {
      params := params + [("significant_changes_only", None)];
    }
  }

  /** `prepare_get_entity_histories_params`: the query map has no
      `minimal_response` flag here, the end time is in ISO form, and a start
      time extends the URL path. */
  method PrepareHistoriesParams(entities: Option<seq<Entity>>, start: Option<DateTime>, end: Option<DateTime>, significantOnly: bool)
    returns (params: ODict<Option<string>>, url: string)
    ensures params == (if entities.Some? then [("filter_entity_id", Some(Join(",", EntityIds(entities.value))))] else [])
                    + (if end.Some? then [("end_time", Some(end.value.iso))] else [])
                    + (if significantOnly then [("significant_changes_only", None)] else [])
    ensures start.None? ==> url == "history/period"
    ensures start.Some? && !StartsWith(start.value.iso, "/") ==> url == "history/period/" + start.value.iso
  {
    var endTime := if end.Some? then Some(end.value.iso) else None;
    params := FillHistoryParams(entities, endTime, false, significantOnly);
    if start.Some? {
      url := PathJoin("history/period/", [start.value.iso]);
      if !StartsWith(start.value.iso, "/") {
        PathJoinOne("history/period/", start.value.iso);
      }
    } else {
      url := "history/period";
    }
  }

  /** A timestamp argument that may be given as text or as a datetime. */
  datatype Stamp = StampText(text: string) | StampTime(time: DateTime)

  /** The logbook's entity filter: one id, or several to be comma-joined. */
  datatype EntityFilter = OneEntity(id: string) | ManyEntities(ids: seq<string>)

  /** The `entity` parameter: the id, or the ids comma-joined. */
  function FilterText(f: EntityFilter): string {
    match f
    case OneEntity(id) => id
    case ManyEntities(ids) => Join(",", ids)
  }

  function StampString(s: Stamp): string {
    match s
    case StampText(t) => t
    case StampTime(t) => t.iso
  }

  /** `prepare_get_logbook_entry_params` as intended: the query map gets
      `entity` and `end_time`, and the URL path is "logbook", extended by the
      start time when one is given, in either form. */
  method PrepareLogbookParams(filter: Option<EntityFilter>, start: Option<Stamp>, end: Option<Stamp>)
    returns (params: ODict<string>, url: string)
    ensures DistinctKeys(params)
    ensures params == (if filter.Some? then [("entity", FilterText(filter.value))] else [])
                      + (if end.Some? then [("end_time", StampString(end.value))] else [])
    ensures start.None? ==> url == "logbook"
    ensures start.Some? ==> url == PathJoin("logbook/", [StampString(start.value)])
    ensures start.Some? && !StartsWith(StampString(start.value), "/") ==> url == "logbook/" + StampString(start.value)
  {
    // Each key is new when it is set, so setting it appends it.
    params := [];
    if filter.Some? {
      var entity := match filter.value
        case OneEntity(id) => id
        case ManyEntities(ids) => Join(",", ids);
      params := params + [("entity", entity)];
    }
    if end.Some? {
      params := params + [("end_time", StampString(end.value))];
    }
    if start.Some? {
      var s := StampString(start.value);
      url := PathJoin("logbook/", [s]);
      if !StartsWith(s, "/") {
        PathJoinOne("logbook/", s);
      }
    } else {
      url := "logbook";
    }
  }

  /** `prepare_get_logbook_entry_params` as written: `url` is assigned only
      for a datetime start or no start, so a start given as text reaches the
      `return` with `url` unbound. */
  method PrepareLogbookParamsAsWritten(filter: Option<EntityFilter>, start: Option<Stamp>, end: Option<Stamp>)
    returns (r: Result<(ODict<string>, string), Error>)
    ensures start.Some? && start.value.StampText? ==> r == Failure(UnboundLocalError("url"))
    ensures !(start.Some? && start.value.StampText?) ==> r.Success?
    ensures r.Success? ==> r.value.0 == (if filter.Some? then [("entity", FilterText(filter.value))] else [])
                                       + (if end.Some? then [("end_time", StampString(end.value))] else [])
    ensures r.Success? && start.None? ==> r.value.1 == "logbook"
    ensures r.Success? && start.Some? ==> r.value.1 == PathJoin("logbook/", [start.value.time.iso])
    ensures r.Success? && start.Some? && !StartsWith(start.value.time.iso, "/") ==> r.value.1 == "logbook/" + start.value.time.iso
  {
    var params, url := PrepareLogbookParams(filter, start, end);
    if start.Some? && start.value.StampText? {
      return Failure(UnboundLocalError("url"));
    }
    r := Success((params, url));
  }

  // ------------------------------------------------------------- the client

  class BaseClient {
    var apiUrl: string
    const token: string
    const globalRequestKwargs: ODict<Value>

    /** The base URL always ends with "/"; the global kwargs are a dict. */
    predicate Valid()
      reads this
    {
      EndsWith(apiUrl, "/") && DistinctKeys(globalRequestKwargs)
    }

    /** `__init__`: a missing global kwargs dict becomes an empty one, and a
        "/" is appended to the base URL unless it already ends with one. */
    constructor (apiUrl: string, token: string, globalRequestKwargs: Option<ODict<Value>>)
      requires globalRequestKwargs.Some? ==> DistinctKeys(globalRequestKwargs.value)
      ensures Valid()
      ensures this.token == token
      ensures this.globalRequestKwargs == if globalRequestKwargs.Some? then globalRequestKwargs.value else []
      ensures EndsWith(apiUrl, "/") ==> this.apiUrl == apiUrl
      ensures !EndsWith(apiUrl, "/") ==> this.apiUrl == apiUrl + "/"
    {
      this.apiUrl := apiUrl;
      this.token := token;
      this.globalRequestKwargs := if globalRequestKwargs.Some? then globalRequestKwargs.value else [];
      if !EndsWith(apiUrl, "/") {
        this.apiUrl := this.apiUrl + "/";
      }
    }

    /** One path part is joined on its own. */
    lemma EndpointSingle(p: string)
      ensures Endpoint([p]) == PathJoin(apiUrl, [p])
    {
    }

    /** `endpoint(*path)`: the base URL joined with the path parts. */
    function Endpoint(path: seq<string>): (url: string)
      reads this
      ensures Valid() && |path| == 1 && !StartsWith(path[0], "/") ==> url == apiUrl + path[0]
      ensures |path| == 1 && StartsWith(path[0], "/") ==> url == path[0]
    {
      if |path| == 1 && StartsWith(path[0], "/") then
        PathJoinAbsolute(apiUrl, path[0]);
        assert path == [path[0]];
        PathJoin(apiUrl, path)
      else if |path| == 1 then
        PathJoinOne(apiUrl, path[0]);
        assert path == [path[0]];
        PathJoin(apiUrl, path)
      else
        PathJoin(apiUrl, path)
    }

    /** `prepare_headers` with this client's token. */
    method PrepareHeaders(headers: HeadersArg) returns (r: Result<HeaderDict, Error>)
      requires headers.DictArg? ==> DistinctKeys(headers.dict.items)
      modifies if headers.DictArg? then {headers.dict} else {}
      ensures headers.NotADict? ==> r.Failure? && r.error.ValueError?
      ensures headers.NoHeaders? ==> r.Success? && fresh(r.value) && r.value.items == MergedHeaders([], token)
      ensures headers.DictArg? ==> r == Success(headers.dict) && headers.dict.items == MergedHeaders(old(headers.dict.items), token)
    {
      r := PrepareHeadersWith(token, headers);
    }
  }
}
