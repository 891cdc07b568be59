/** The older client base class: the same base URL, header and query-string
    rules as the newer one, but entity ids are validated instead of
    converted, and history timestamps are rendered with a fixed format. */
module RawApi {
  import opened Wrappers
  import opened Values
  import opened Errors
  import opened Text
  import opened OrderedDicts
  import opened Entities
  import opened RawBaseClient

  // -------------------------------------------------------------- entity ids

  /** `malformed_id` as written: the last check flags the ids that equal
      their own lower-case form, so every lower-case id counts as malformed. */
  predicate MalformedIdAsWritten(id: string) {
    ' ' in id || '.' !in id || '-' in id || Lower(id) == id
  }

  /** `malformed_id` as intended: capitals, not their absence, make an id
      malformed. */
  predicate MalformedId(id: string) {
    ' ' in id || '.' !in id || '-' in id || Lower(id) != id
  }

  /** As written, an id is accepted exactly when it has a ".", no space or
      "-", and at least one capital letter. */
  lemma MalformedIdAsWrittenRejectsLowerCase(id: string)
    ensures !MalformedIdAsWritten(id) <==> '.' in id && ' ' !in id && '-' !in id && !NoUpper(id)
  {
    LowerFixedIffNoUpper(id);
  }

  /** As intended, an id is well formed exactly when it has a ".", and no
      space, "-" or capital letter. */
  lemma MalformedIdMeaning(id: string)
    ensures !MalformedId(id) <==> '.' in id && ' ' !in id && '-' !in id && NoUpper(id)
  {
    LowerFixedIffNoUpper(id);
  }

  /** A well-formed id without capitals is rejected as written and accepted
      as intended. */
  lemma LowerCaseIdChecks(id: string)
    requires '.' in id && ' ' !in id && '-' !in id && NoUpper(id)
    ensures MalformedIdAsWritten(id)
    ensures !MalformedId(id)
  {
    LowerFixedIffNoUpper(id);
  }

  /** "sun.sun" is rejected as written and accepted as intended. */
  lemma SunSunChecks()
    ensures MalformedIdAsWritten("sun.sun")
    ensures !MalformedId("sun.sun")
  {
    var id := "sun.sun";
    assert id[3] == '.';
    LowerCaseIdChecks(id);
  }

  /** The newer client's snake_case conversion yields ids the intended
      check accepts, whenever the result has a "." and no space. */
  lemma FormattedIdsAreWellFormed(groupId: Option<string>, slug: Option<string>, entityId: Option<string>)
    requires RawBaseClient.PrepareEntityId(groupId, slug, entityId).Success?
    ensures var id := RawBaseClient.PrepareEntityId(groupId, slug, entityId).value;
            '.' in id && ' ' !in id ==> !MalformedId(id)
  {
    PreparedIdIsFormatted(groupId, slug, entityId);
    MalformedIdMeaning(RawBaseClient.PrepareEntityId(groupId, slug, entityId).value);
  }

  /** `prepare_entity_id` as written, with the inverted check. */
  function PrepareEntityIdAsWritten(group: Option<string>, slug: Option<string>, entityId: Option<string>): (r: Result<string, Error>)
    ensures (group.None? || slug.None?) && entityId.None? ==> r.Failure? && r.error.ValueError?
    ensures group.Some? && slug.Some? ==> var id := group.value + "." + slug.value;
            r == if MalformedIdAsWritten(id) then Failure(MalformedInputError(id)) else Success(id)
    ensures (group.None? || slug.None?) && entityId.Some? ==> var id := entityId.value;
            r == if MalformedIdAsWritten(id) then Failure(MalformedInputError(id)) else Success(id)
    ensures r.Success? ==> '.' in r.value && ' ' !in r.value && '-' !in r.value && !NoUpper(r.value)
  {
    if (group.None? || slug.None?) && entityId.None? then
      Failure(ValueError("To use group or slug you need to pass both not just one."))
    else
      var id := if group.Some? && slug.Some? then group.value + "." + slug.value else entityId.value;
      MalformedIdAsWrittenRejectsLowerCase(id);
      if MalformedIdAsWritten(id) then Failure(MalformedInputError(id)) else Success(id)
  }

  /** As written, a group and slug that join into a well-formed id without
      capitals are refused. */
  lemma PrepareEntityIdAsWrittenRejectsLowerCase(group: string, slug: string)
    requires var id := group + "." + slug; ' ' !in id && '-' !in id && NoUpper(id)
    ensures PrepareEntityIdAsWritten(Some(group), Some(slug), None) == Failure(MalformedInputError(group + "." + slug))
  {
    var id := group + "." + slug;
    assert id[|group|] == '.';
    LowerCaseIdChecks(id);
  }

  /** "sun.sun", an id the library's own tests pass, is refused. */
  lemma PrepareEntityIdAsWrittenRejectsSunSun()
    ensures PrepareEntityIdAsWritten(Some("sun"), Some("sun"), None) == Failure(MalformedInputError("sun.sun"))
  {
    var id := "sun" + "." + "sun";
    assert id == "sun.sun";
    assert NoUpper(id);
    PrepareEntityIdAsWrittenRejectsLowerCase("sun", "sun");
  }

  /** `prepare_entity_id` with the intended check: group and slug, when both
      are given, win over `entity_id`; the id is returned unchanged if it is
      well formed, and is a MalformedInputError otherwise. */
  function PrepareEntityId(group: Option<string>, slug: Option<string>, entityId: Option<string>): (r: Result<string, Error>)
    ensures (group.None? || slug.None?) && entityId.None? ==> r.Failure? && r.error.ValueError?
    ensures group.Some? && slug.Some? ==> var id := group.value + "." + slug.value;
            r == if MalformedId(id) then Failure(MalformedInputError(id)) else Success(id)
    ensures (group.None? || slug.None?) && entityId.Some? ==> var id := entityId.value;
            r == if MalformedId(id) then Failure(MalformedInputError(id)) else Success(id)
    ensures r.Success? ==> '.' in r.value && ' ' !in r.value && '-' !in r.value && NoUpper(r.value)
  {
    if (group.None? || slug.None?) && entityId.None? then
      Failure(ValueError("To use group or slug you need to pass both not just one."))
    else
      var id := if group.Some? && slug.Some? then group.value + "." + slug.value else entityId.value;
      MalformedIdMeaning(id);
      if MalformedId(id) then Failure(MalformedInputError(id)) else Success(id)
  }

  // ----------------------------------------------------------------- history

  /** The history URL with a start time joined onto its path. */
  method HistoryPeriodPath(formatted: string) returns (url: string)
    ensures url == PathJoin("history/period", [formatted])
    ensures formatted != "" && !StartsWith(formatted, "/") ==> url == "history/period/" + formatted
  {
    url := PathJoin("history/period", [formatted]);
    if formatted != "" && !StartsWith(formatted, "/") {
      PathJoinOne("history/period", formatted);
    }
  }

  /** The older history parameter builder. `format` renders a datetime with
      the library's DATE_FMT; the start must be a datetime. */
  method PrepareHistoriesParams(entities: Option<seq<Entity>>, start: Option<Stamp>, end: Option<DateTime>,
                                minimal: bool, significantOnly: bool, format: DateTime -> string)
    returns (r: Result<(ODict<Option<string>>, string), Error>)
    ensures start.Some? && start.value.StampText? <==> r.Failure?
    ensures r.Failure? ==> r.error.TypeError?
    ensures r.Success? ==> r.value.0 == (if entities.Some? then [("filter_entity_id", Some(Join(",", EntityIds(entities.value))))] else [])
                                       + (if end.Some? then [("end_time", Some(format(end.value)))] else [])
                                       + (if minimal then [("minimal_response", None)] else [])
                                       + (if significantOnly then [("significant_changes_only", None)] else [])
    ensures r.Success? && start.None? ==> r.value.1 == "history/period"
    ensures r.Success? && start.Some? ==> r.value.1 == PathJoin("history/period", [format(start.value.time)])
    ensures r.Success? && start.Some? && format(start.value.time) != "" && !StartsWith(format(start.value.time), "/") ==>
              r.value.1 == "history/period/" + format(start.value.time)
  {
    var endTime := if end.Some? then Some(format(end.value)) else None;
    var params := FillHistoryParams(entities, endTime, minimal, significantOnly);
    var url: string;
    if start.Some? {
      if start.value.StampText? {
        return Failure(TypeError("timestamp needs to be of type datetime"));
      }
      url := HistoryPeriodPath(format(start.value.time));
    } else {
      url := "history/period";
    }
    r := Success((params, url));
  }

  // ------------------------------------------------------------- the client

  class RawWrapper {
    var apiUrl: string
    const token: string
    const globalRequestKwargs: ODict<Value>

    /** The base URL always ends with "/"; the global kwargs are a dict. */
    predicate Valid()
      reads this
    {
      EndsWith(apiUrl, "/") && DistinctKeys(globalRequestKwargs)
    }

    /** `__init__`: a missing global kwargs dict becomes an empty one, and a
        "/" is appended to the base URL unless it already ends with one. */
    constructor (apiUrl: string, token: string, globalRequestKwargs: Option<ODict<Value>>)
      requires globalRequestKwargs.Some? ==> DistinctKeys(globalRequestKwargs.value)
      ensures Valid()
      ensures this.token == token
      ensures this.globalRequestKwargs == if globalRequestKwargs.Some? then globalRequestKwargs.value else []
      ensures EndsWith(apiUrl, "/") ==> this.apiUrl == apiUrl
      ensures !EndsWith(apiUrl, "/") ==> this.apiUrl == apiUrl + "/"
    {
      this.apiUrl := apiUrl;
      this.token := token;
      this.globalRequestKwargs := if globalRequestKwargs.Some? then globalRequestKwargs.value else [];
      if !EndsWith(apiUrl, "/") {
        this.apiUrl := this.apiUrl + "/";
      }
    }

    /** `endpoint(path)`: the base URL joined with one path. */
    function Endpoint(path: string): (url: string)
      reads this
      ensures Valid() && !StartsWith(path, "/") ==> url == apiUrl + path
      ensures StartsWith(path, "/") ==> url == path
    {
      if StartsWith(path, "/") then
        PathJoinAbsolute(apiUrl, path);
        PathJoin(apiUrl, [path])
      else
        PathJoinOne(apiUrl, path);
        PathJoin(apiUrl, [path])
    }

    /** `prepare_headers` with this client's token. */
    method PrepareHeaders(headers: HeadersArg) returns (r: Result<HeaderDict, Error>)
      requires headers.DictArg? ==> DistinctKeys(headers.dict.items)
      modifies if headers.DictArg? then {headers.dict} else {}
      ensures headers.NotADict? ==> r.Failure? && r.error.ValueError?
      ensures headers.NoHeaders? ==> r.Success? && fresh(r.value) && r.value.items == MergedHeaders([], token)
      ensures headers.DictArg? ==> r == Success(headers.dict) && headers.dict.items == MergedHeaders(old(headers.dict.items), token)
    {
      r := PrepareHeadersWith(token, headers);
    }
  }
}
