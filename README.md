# Home Assistant REST API client, modelled in Dafny

The library wraps the Home Assistant REST API. A client takes a base URL and a
long-lived access token. It sends requests with bearer authorisation. It turns
the decoded JSON replies into model objects: States, Groups of Entities,
Domains of Services, Events, Histories and Calendars. The model follows its
layers.

- **Base clients** (`RawBaseClient`, `RawApi`). These build the pieces of a
  request:
  - the base URL with its trailing slash, and endpoints joined under it;
  - the authorisation headers, merged into the caller's dict;
  - the hand-built query string;
  - the entity-id checks and the snake_case formatting;
  - the query and path of the history and logbook listings.
- **Response processing** (`Processing`). A response becomes its decoded
  body, or the error its status code stands for.
- **Request plumbing** (`Transport`). This models the request functions shared
  by the three clients:
  - the global kwargs are written over the caller's;
  - a timeout is reported with the timeout in force, 300 seconds unless set;
  - the server's reply goes through `Processing`.
- **Model objects**:
  - `Domains`: Domain and Service.
  - `Entities`: Group and Entity, as classes whose dicts and cached state
    the methods update.
  - `Histories`: a History's states all have one entity id.
  - `States`: strict parsers for State and Event.
  - `JsonModels`: JsonModel, a dict whose entries are also attributes.
  - `Calendars`: Calendar and CalendarEvent.
- **Builders** (`Mixins`, `Grouping`). `Mixins` builds a Domain from a services
  listing entry. `Grouping` is the loop that sorts listed states into new Groups
  by group id.
- **Clients**. Each client is a class that holds its base-class half.
  - `RawClients.RawClient`: the synchronous client.
  - `RawAsyncClients.RawAsyncClient`: the async client on the newer base class.
  - `AsyncClients.AsyncClient`: the newer async client on the older base class.

The network is a function parameter, `send: Call -> Outcome`. A `Call` holds
the verb, URL, headers and kwargs. An `Outcome` is a response or a timeout.

The model objects reach their client through `Remote.Server`, a record of the
client's request function and its history and calendar listings. The clients
build that record with `Transport.AsServer`: the request function is their own
`Request`, while the two listings are constructor parameters that
`Transport.AsServer` passes along unchanged.

Values decoded from JSON are the `Values.Value` datatype. Dicts whose order
matters are `OrderedDicts.ODict`, a sequence of pairs with distinct keys. These
are the headers, the query parameters, the kwargs and the groups.

## Model

| member | source | states |
|---|---|---|
| RawBaseClient.BaseClient.constructor | homeassistant_api/rawbaseclient.py:18-32 | a missing global kwargs dict becomes empty; the API URL gains a trailing "/" exactly when it lacks one |
| RawBaseClient.BaseClient.Endpoint | homeassistant_api/rawbaseclient.py:37-39 | a relative path is appended to the slash-terminated base URL; an absolute path replaces it, as `os.path.join` does |
| RawBaseClient.AuthHeaders | homeassistant_api/rawbaseclient.py:41-47 | the headers sent with every request are Authorization and Content-Type, in that order |
| RawBaseClient.MergedHeaders | homeassistant_api/rawbaseclient.py:56-57 | after the update, Authorization is "Bearer " + token and Content-Type is "application/json"; every other header keeps its value |
| RawBaseClient.PrepareHeadersWith | homeassistant_api/rawbaseclient.py:49-62 | None gives a fresh dict with the auth headers; a dict is updated in place and returned; anything else is a ValueError |
| RawBaseClient.BaseClient.PrepareHeaders | homeassistant_api/rawbaseclient.py:49-62 | the same three cases, with the client's own token |
| RawBaseClient.Params | homeassistant_api/rawbaseclient.py:67 | one query part per parameter, in order: the bare key for None, else key=value |
| RawBaseClient.ConstructParams | homeassistant_api/rawbaseclient.py:64-67 | no parameters give the empty string; one parameter gives its part alone |
| RawBaseClient.ParseParam | homeassistant_api/rawbaseclient.py:67 | the inverse of one query part: a part without "=" is a bare key |
| RawBaseClient.ParseParams | homeassistant_api/rawbaseclient.py:67 | the inverse of Params, part by part |
| RawBaseClient.ParamRoundTrip | homeassistant_api/rawbaseclient.py:67 | a key without "=" and its value are read back from their query part |
| RawBaseClient.ConstructParamsRoundTrip | homeassistant_api/rawbaseclient.py:64-67 | when every key is non-empty and holds neither "=" nor "&", and no value holds "&", splitting the query string gives back exactly the parameters, in order |
| RawBaseClient.ConstructParamsAmbiguous | homeassistant_api/rawbaseclient.py:64-67 | values are not escaped: a value holding "&k=v" gives the same query string as two parameters |
| EntityIdFormat.UpperRun | homeassistant_api/rawbaseclient.py:72 | the length of the leading run of capitals, the `[A-Z]+` of the first substitution |
| EntityIdFormat.DashesToUnderscores | homeassistant_api/rawbaseclient.py:74 | every "-" becomes "_" and every other character is kept |
| EntityIdFormat.FormatEntityId | homeassistant_api/rawbaseclient.py:70-75 | a formatted id holds no capital letter and no "-"; with "_", "-" and case ignored it is the id it came from, so formatting adds, removes and reorders nothing else |
| EntityIdFormat.FormatIdempotent | homeassistant_api/rawbaseclient.py:69-75 | formatting a formatted id changes nothing |
| EntityIdFormat.FormatKeepsSnakeCase | homeassistant_api/rawbaseclient.py:69-75 | an id without capitals or dashes is left as it is |
| EntityIdFormat.SplitAcronymsNoUpper | homeassistant_api/rawbaseclient.py:72 | the first substitution does not touch a string without capitals |
| EntityIdFormat.SplitWordsNoUpper | homeassistant_api/rawbaseclient.py:73 | the second substitution does not touch a string without capitals |
| EntityIdFormat.SplitAcronymsLetters | homeassistant_api/rawbaseclient.py:72 | the first substitution only inserts "_": the text is unchanged once "_", "-" and case are ignored |
| EntityIdFormat.SplitWordsLetters | homeassistant_api/rawbaseclient.py:73 | the second substitution only inserts "_": the text is unchanged once "_", "-" and case are ignored |
| EntityIdFormat.SplitAcronymsCut | homeassistant_api/rawbaseclient.py:72 | the left-to-right scan of the first substitution reaches every position after a non-capital, so the two sides of it are substituted separately |
| EntityIdFormat.SplitAcronymsBoundary | homeassistant_api/rawbaseclient.py:72 | where a maximal run of two or more capitals is followed by a lower-case letter, "_" is inserted before the run's last capital and the run and letter are otherwise copied |
| EntityIdFormat.SplitAcronymsOnlyThere | homeassistant_api/rawbaseclient.py:72 | a string in which no two capitals are followed by a lower-case letter is left unchanged |
| EntityIdFormat.SplitWordsCut | homeassistant_api/rawbaseclient.py:73 | the second substitution never consumes a non-capital as the second of a pair, so the two sides of one are substituted separately |
| EntityIdFormat.SplitWordsBoundary | homeassistant_api/rawbaseclient.py:73 | between a lower-case letter or digit and the capital after it, "_" is inserted |
| EntityIdFormat.SplitWordsOnlyThere | homeassistant_api/rawbaseclient.py:73 | a string with no lower-case letter or digit followed by a capital is left unchanged |
| EntityIdFormat.DashesLetters | homeassistant_api/rawbaseclient.py:74 | replacing dashes leaves the text unchanged once "_", "-" and case are ignored |
| EntityIdFormat.LowerLetters | homeassistant_api/rawbaseclient.py:75 | lower-casing leaves the text unchanged once "_", "-" and case are ignored |
| Text.LowerChar | homeassistant_api/rawbaseclient.py:75 | a lower-cased character is never a capital, and only capitals change |
| Text.Lower | homeassistant_api/rawbaseclient.py:75 | lower-casing works character by character and keeps the length |
| Text.LowerFixedIffNoUpper | homeassistant_api/rawapi.py:72 | `s.lower() == s` holds exactly when s has no capital letter |
| Text.Strip | homeassistant_api/models/entity.py:82 | the result is the slice of the text after its leading whitespace, with only whitespace after it; it neither starts nor ends with whitespace, so it is empty exactly for all-whitespace text; whitespace is the set `str.isspace` accepts |
| Text.TrimStart | homeassistant_api/models/entity.py:82 | the left-stripped text is a suffix of the text, all it dropped is whitespace, and it does not start with whitespace |
| Text.TrimEnd | homeassistant_api/models/entity.py:82 | the right-stripped text is a prefix of the text, all it dropped is whitespace, and it does not end with whitespace |
| Text.IndexOf | homeassistant_api/rawbaseclient.py:67 | the position of the first occurrence of a character, or the length when it is absent; reading a `key=value` part back splits it at the first "=" |
| Text.Split | homeassistant_api/rawclient.py:176 | splitting gives at least one part and no part contains the separator |
| Text.SplitNone | homeassistant_api/rawclient.py:176 | a string without the separator splits into itself alone |
| Text.SplitAt | homeassistant_api/rawclient.py:176 | splitting at the first separator gives the text before it, then the split of the rest |
| Text.SplitJoin | homeassistant_api/rawbaseclient.py:111 | splitting a joined list gives the list back when no part holds the separator |
| Text.JoinSplit | homeassistant_api/rawbaseclient.py:111 | joining the parts of a split gives the string back |
| Text.PathJoinOne | homeassistant_api/rawbaseclient.py:39 | `os.path.join` with one relative part appends it after a "/" unless the base already ends with one |
| Text.PathJoinAbsolute | homeassistant_api/rawapi.py:35 | a part starting with "/" discards the base |
| Text.PathJoinSlashed | homeassistant_api/rawbaseclient.py:119 | joining under "dir/" or "dir" gives the same path |
| Text.PathJoinTwo | homeassistant_api/models/domains.py:60 | joining two relative parts under a base without a trailing "/" puts one "/" before each |
| RawBaseClient.PrepareEntityId | homeassistant_api/rawbaseclient.py:77-97 | it is a ValueError exactly when neither both of group and slug nor an entity id are given; group and slug win over the entity id; the chosen id is formatted into snake_case |
| RawBaseClient.PreparedIdIsFormatted | homeassistant_api/rawbaseclient.py:77-97 | a prepared id has no capitals and no dashes |
| RawBaseClient.PrepareSnakeCaseId | homeassistant_api/rawbaseclient.py:77-97 | an entity id already in snake_case is returned unchanged |
| RawBaseClient.EntityIds | homeassistant_api/rawbaseclient.py:111 | one entity id per entity, in order |
| RawBaseClient.FillHistoryParams | homeassistant_api/rawbaseclient.py:109-117 | the parameters are filter_entity_id, end_time and significant_changes_only, in the order they are set, each present exactly when given |
| RawBaseClient.PrepareHistoriesParams | homeassistant_api/rawbaseclient.py:99-122 | the parameters as above; the path is "history/period", or the ISO start time joined under "history/period/" |
| RawBaseClient.PrepareLogbookParams | homeassistant_api/rawbaseclient.py:124-152 | the intended builder: "entity" is the filter text or the comma-joined ids, and "end_time" is the ISO or given text; the path is "logbook", or the start time, given as datetime or text, joined under "logbook/" |
| RawBaseClient.PrepareLogbookParamsAsWritten | homeassistant_api/rawbaseclient.py:124-152 | a start given as text leaves the path unbound, an UnboundLocalError; every other input succeeds, with `entity` (one id, or the ids joined by ",") and `end_time` in that order, each present exactly when given, and the datetime start joined under "logbook/" |
| RawApi.RawWrapper.constructor | homeassistant_api/rawapi.py:19-31 | a missing global kwargs dict becomes empty; the API URL gains a trailing "/" exactly when it lacks one |
| RawApi.RawWrapper.Endpoint | homeassistant_api/rawapi.py:33-35 | a relative path is appended to the base URL; an absolute path replaces it |
| RawApi.RawWrapper.PrepareHeaders | homeassistant_api/rawapi.py:45-58 | None gives a fresh dict with the auth headers; a dict is updated in place and returned; anything else is a ValueError |
| RawApi.MalformedIdAsWrittenRejectsLowerCase | homeassistant_api/rawapi.py:65-74 | as written, the check accepts an id exactly when it holds a ".", no space, no "-" and at least one capital |
| RawApi.MalformedIdMeaning | homeassistant_api/rawapi.py:65-74 | the intended check accepts an id exactly when it holds a ".", no space, no "-" and no capital |
| RawApi.LowerCaseIdChecks | homeassistant_api/rawapi.py:65-74 | every id with a ".", no space, no "-" and no capital is rejected as written and accepted as intended |
| RawApi.SunSunChecks | homeassistant_api/rawapi.py:65-74 | "sun.sun" is rejected as written and accepted as intended |
| RawApi.PrepareEntityIdAsWritten | homeassistant_api/rawapi.py:76-95 | missing arguments are a ValueError; group and slug are joined by "."; the id is returned unchanged exactly when the as-written check accepts it, else it is a MalformedInputError; every returned id holds a "." and a capital, and no space or "-" |
| RawApi.PrepareEntityIdAsWrittenRejectsLowerCase | homeassistant_api/rawapi.py:76-95 | as written, any group and slug that join into an id with no space, no "-" and no capital give MalformedInputError of that id |
| RawApi.PrepareEntityIdAsWrittenRejectsSunSun | homeassistant_api/rawapi.py:76-95 | as written, group "sun" and slug "sun" give MalformedInputError("sun.sun") |
| RawApi.PrepareEntityId | homeassistant_api/rawapi.py:76-95 | missing arguments are a ValueError; group and slug are joined by "."; the id is returned unchanged exactly when the intended check accepts it, else it is a MalformedInputError; every returned id is well formed |
| RawApi.FormattedIdsAreWellFormed | homeassistant_api/rawapi.py:65-74 | a snake_case id made by the newer base class passes the intended check when it holds a "." and no space |
| RawApi.PrepareHistoriesParams | homeassistant_api/rawapi.py:97-125 | a start given as text is a TypeError and nothing else is; the parameters are filter_entity_id, end_time, minimal_response and significant_changes_only, in order; the path is "history/period", or the formatted start joined under it |
| Processing.ProcessJson | homeassistant_api/processing.py:22-29 | the decoded body, or a MalformedDataError when the body is not JSON |
| Processing.ProcessContent | homeassistant_api/processing.py:31-32 | the content of any response is read as JSON, whatever its content type |
| Processing.ProcessAsWritten | homeassistant_api/processing.py:34-48 | the dispatch as written: the 400 branch fails with an AttributeError instead of a RequestError |
| Processing.Process | homeassistant_api/processing.py:34-48 | 200/201 give the decoded JSON body, a success only when the body decodes; 400 is a RequestError holding the body; 401 is UnauthorizedError, 404 EndpointNotFoundError, 405 MethodNotAllowedError; any other status is UnexpectedStatusCodeError |
| Processing.OutcomeDecidedByStatus | homeassistant_api/processing.py:34-48 | two responses with the same status code fail with the same kind of error, or both succeed |
| Processing.BadRequestAsWritten | homeassistant_api/processing.py:37-38 | as written, a 400 response never gives a RequestError |
| Transport.MergeKwargs | homeassistant_api/rawclient.py:43-44 | after `kwargs.update(globals)`, every global key has the global value and every other key keeps the caller's |
| Transport.CallFor | homeassistant_api/rawclient.py:45-50 | the call has the verb, the endpoint of the path, the auth headers and the merged kwargs |
| Transport.TimeoutInForce | homeassistant_api/rawclient.py:51-54 | the timeout reported is the merged kwargs' "timeout", or 300 |
| Transport.Send | homeassistant_api/rawclient.py:34-55 | a response is handed to the status-code processing; a timeout is reported with the global "timeout", else the caller's, else 300 |
| Transport.KwargsOf | homeassistant_api/models/domains.py:59-63 | the kwargs of a model object's request have distinct keys |
| Transport.AsServer | homeassistant_api/models/entity.py:62 | a model object's request is the client's own request with the same path, verb and kwargs |
| RawClients.RawClient.constructor | homeassistant_api/rawapi.py:19-31 | the client's base half is a fresh RawWrapper made from the URL, token and global kwargs |
| RawClients.RawClient.Request | homeassistant_api/rawclient.py:34-55 | the response goes through the status-code dispatch; a timeout is a RequestError naming the timeout in force |
| RawClients.RawClient.CheckApiConfig | homeassistant_api/rawclient.py:156-162 | true when the configuration is "valid"; otherwise its errors are raised |
| RawClients.RawClient.CheckApiRunning | homeassistant_api/rawclient.py:164-169 | true when the root endpoint answers "API running."; otherwise a ValueError |
| RawClients.RawClient.GetStates | homeassistant_api/rawclient.py:277-282 | every item of the "states" reply is validated as a State |
| RawClients.RawClient.GetState | homeassistant_api/rawclient.py:235-249 | the id is checked before anything is sent; the reply is validated as a State |
| RawClients.RawClient.SetState | homeassistant_api/rawclient.py:251-275 | the checked id's state path is posted the payload with "state" written over it; the reply is validated as a State |
| RawClients.RawClient.GetEntities | homeassistant_api/rawclient.py:172-180 | it succeeds exactly when every listed id splits into group and slug; each Group holds, under each slug, the latest state listed for it |
| RawClients.RawClient.GetEntity | homeassistant_api/rawclient.py:182-205 | the state is fetched by group and slug, else by entity id, else it is a ValueError; the Entity sits alone in a new Group and keeps its id |
| RawClients.RawClient.GetHistory | homeassistant_api/rawclient.py:96-133 | a start given as text is a TypeError and nothing is sent; otherwise the older base class's query, as one query string, is sent on its path, and the processed reply is returned as it is |
| RawClients.RawClient.LogbookRequest | homeassistant_api/rawclient.py:72-94 | the path and the "params" kwarg that the logbook listing sends |
| RawClients.RawClient.LogbookEntriesAsWritten | homeassistant_api/rawclient.py:88-91 | a start given as text fails with an UnboundLocalError before anything is sent |
| RawClients.RawClient.LogbookEntries | homeassistant_api/rawclient.py:72-94 | the request of the intended listing, with the path and query of the base class |
| RawClients.QueryOfParams | homeassistant_api/rawclient.py:84-87 | the base class's logbook parameters, read as a mapping, are exactly the query the client sends |
| RawClients.ParamsAsMap | homeassistant_api/rawbaseclient.py:133-146 | the two optional logbook parameters form the mapping with exactly the given keys |
| RawClients.TextQuery | homeassistant_api/rawclient.py:84-87 | the sent query is the text mapping with every value wrapped as a string |
| RawClients.LogbookTextStart | homeassistant_api/rawclient.py:88-91 | with the fix, a text start is joined under "logbook/" |
| RawAsyncClients.RawAsyncClient.constructor | homeassistant_api/rawasyncclient.py:49-59 | the base half is a fresh base client made from the URL, token and global kwargs |
| RawAsyncClients.RawAsyncClient.Request | homeassistant_api/rawasyncclient.py:85-107 | the response goes through the dispatch; a timeout is a RequestTimeoutError naming the timeout in force |
| RawAsyncClients.RawAsyncClient.GetRenderedTemplate | homeassistant_api/rawasyncclient.py:158-171 | the template is posted; a RequestError becomes a BadTemplateError, so no RequestError escapes |
| RawAsyncClients.RawAsyncClient.CheckApiConfig | homeassistant_api/rawasyncclient.py:180-191 | whether the server calls its configuration "valid" |
| RawAsyncClients.RawAsyncClient.CheckApiRunning | homeassistant_api/rawasyncclient.py:193-197 | whether the root endpoint answers "API running." |
| RawAsyncClients.RawAsyncClient.GetStates | homeassistant_api/rawasyncclient.py:291-295 | every listed item is validated as a State |
| RawAsyncClients.RawAsyncClient.GetState | homeassistant_api/rawasyncclient.py:263-277 | the id is converted to snake_case before it is sent; the reply is validated as a State |
| RawAsyncClients.RawAsyncClient.GetEntities | homeassistant_api/rawasyncclient.py:199-207 | the Groups of the grouping loop, in the order their group ids first appear |
| RawAsyncClients.GroupValues | homeassistant_api/rawasyncclient.py:207 | the values of the group dict, in order |
| RawAsyncClients.RawAsyncClient.GetEntity | homeassistant_api/rawasyncclient.py:209-232 | fetched by group id and slug, else by entity id, else a ValueError; the Entity sits alone in a new Group |
| RawAsyncClients.RawAsyncClient.DomainsOf | homeassistant_api/rawasyncclient.py:236-241 | it succeeds exactly when every entry builds a Domain and has a hashable id; the keys are the listed domain ids; each key's Domain is built from the last entry with that id |
| RawAsyncClients.DomainsStep | homeassistant_api/rawasyncclient.py:241 | one more entry adds its id to the keys and becomes the last entry with that id |
| RawAsyncClients.IdsStep | homeassistant_api/rawasyncclient.py:241 | the set of the first i+1 ids is the first i ids plus the next one |
| RawAsyncClients.RawAsyncClient.GetDomains | homeassistant_api/rawasyncclient.py:234-241 | a failed request is passed on; a list reply succeeds exactly when every entry is a well-formed services entry with a hashable id, and then the keys are exactly the listed ids, each Domain carrying its id, the client and the services of the last entry with that id; an empty dict or string gives no Domains, a non-empty one has no `get`, anything else is not iterable |
| RawAsyncClients.RawAsyncClient.GetDomain | homeassistant_api/rawasyncclient.py:243-246 | the listing's failures as GetDomains has them; on a list reply it succeeds exactly when every entry is well formed, gives a Domain exactly when the id is listed, and that Domain has the id, the client and the services of the last entry listing it; an empty dict or string gives None |
| RawAsyncClients.RawAsyncClient.GetEvents | homeassistant_api/rawasyncclient.py:297-305 | every listed item is validated as an Event |
| RawAsyncClients.RawAsyncClient.GetEvent | homeassistant_api/rawasyncclient.py:307-312 | the first listed Event whose name equals the given name stripped and lower-cased, or None exactly when there is none |
| RawAsyncClients.FindEvent | homeassistant_api/rawasyncclient.py:309-312 | the first event with the wanted name, or None exactly when none has it |
| AsyncClients.AsyncClient.constructor | homeassistant_api/rawapi.py:19-31 | the base half is a fresh RawWrapper made from the URL, token and global kwargs |
| AsyncClients.AsyncClient.Request | homeassistant_api/_async/asyncclient.py:38-68 | the response goes through the dispatch; a timeout is a RequestError naming the timeout in force |
| AsyncClients.AsyncClient.CheckApiConfig | homeassistant_api/_async/asyncclient.py:125-138 | true when the configuration is "valid"; otherwise an APIConfigurationError with its errors |
| AsyncClients.AsyncClient.CheckApiRunning | homeassistant_api/_async/asyncclient.py:140-146 | true when the root endpoint answers "API running."; otherwise a MalformedDataError |
| AsyncClients.AsyncClient.GetStates | homeassistant_api/_async/asyncclient.py:249-256 | every listed item is validated as a State |
| AsyncClients.AsyncClient.GetState | homeassistant_api/_async/asyncclient.py:210-224 | the id is checked before anything is sent; the reply is validated as a State |
| AsyncClients.AsyncClient.GetEntities | homeassistant_api/_async/asyncclient.py:148-156 | the Groups of the grouping loop, in the order their group ids first appear |
| AsyncClients.AsyncClient.GetEntity | homeassistant_api/_async/asyncclient.py:158-181 | fetched by group and slug, else by entity id, else a ValueError; the Entity sits alone in a new Group |
| AsyncClients.AsyncClient.GetEventsAsWritten | homeassistant_api/_async/asyncclient.py:258-267 | as written, a list reply is refused, so no event is ever returned |
| AsyncClients.AsyncClient.GetEvents | homeassistant_api/_async/asyncclient.py:258-267 | the intended listing: a list reply is validated item by item, and anything else is refused |
| AsyncClients.EventsListingInverted | homeassistant_api/_async/asyncclient.py:261-262 | for a non-empty list of valid events, the listing as written fails and the intended one returns them all |
| AsyncClients.AsyncClient.FireEvent | homeassistant_api/_async/asyncclient.py:269-280 | the event data is posted to the event type's path; the reply's message, or "No message provided", is returned |
| Replies.ConfigValid | homeassistant_api/rawclient.py:156-160 | reading "result" succeeds exactly for a dict with a hashable "result", and is true exactly when it is "valid" |
| Replies.CheckConfigReply | homeassistant_api/_async/asyncclient.py:125-138 | true exactly when the configuration is valid; otherwise the "errors" are raised |
| Replies.ApiRunning | homeassistant_api/rawasyncclient.py:193-196 | true exactly when the reply's "message" is "API running."; a reply that is not a dict has no `get` |
| Replies.CheckRunningReply | homeassistant_api/_async/asyncclient.py:140-146 | true exactly when the API runs; otherwise the given error |
| Replies.ParseEvents | homeassistant_api/rawasyncclient.py:300-305 | one Event per item, in order; a failure names an item that is not an Event |
| Replies.ParseEventsComplete | homeassistant_api/rawasyncclient.py:300-305 | when every item is an Event, the whole list parses |
| Replies.EventsFromReply | homeassistant_api/_async/asyncclient.py:264-267 | a list is parsed item by item; other replies are iterated as Python iterates them |
| Replies.EventsAsWritten | homeassistant_api/_async/asyncclient.py:258-267 | a list reply is a TypeError, and any success is empty |
| Replies.EventsOfList | homeassistant_api/_async/asyncclient.py:258-267 | a list reply is parsed, and anything else is a TypeError |
| Replies.EventsGuardInverted | homeassistant_api/_async/asyncclient.py:261-262 | for a non-empty list of valid events, the intended guard returns them all and the written one fails |
| Replies.FireEventReply | homeassistant_api/_async/asyncclient.py:275-280 | a dict reply gives its "message", or "No message provided" |
| States.ParseState | homeassistant_api/models/states.py:8-16 | a parsed State's entity_id and state are the dict's own strings |
| States.ContextRoundTrip | homeassistant_api/models/states.py:16 | a context written as JSON parses back to itself |
| States.StampRoundTrip | homeassistant_api/models/states.py:14-15 | a timestamp written as JSON parses back to itself |
| States.StateRoundTrip | homeassistant_api/models/states.py:8-16 | every State written as JSON parses back to itself |
| States.ParseEntries | homeassistant_api/models/states.py:8-16 | a dict holding a State's six fields parses to that State |
| States.ParseEvent | homeassistant_api/mixins.py:26-28 | a parsed Event's name is the dict's "event" string |
| Mixins.ProcessServicesJson | homeassistant_api/mixins.py:11-19 | it succeeds exactly for a dict whose "services" maps ids to valid service data; the Domain is named by "domain" and holds one Service per listed id, with that id, that data and this Domain; a missing "services" is a ValueError |
| Domains.Domain.constructor | homeassistant_api/models/domains.py:14-18 | a new Domain has its id and client and no services |
| Domains.Domain.AddService | homeassistant_api/models/domains.py:24-26 | with valid keyword data, a fresh Service is stored under its id and nothing else changes; unknown data fields are a TypeError |
| Domains.Domain.GetService | homeassistant_api/models/domains.py:28-30 | the Service stored under the id, or None exactly when there is none |
| Domains.Service.constructor | homeassistant_api/models/domains.py:41-50 | a Service keeps its id, domain and metadata |
| Domains.Service.TriggerPath | homeassistant_api/models/domains.py:60 | the path is "services/<domain>/<service>"; a domain id that is not a string cannot be joined |
| Domains.Service.Trigger | homeassistant_api/models/domains.py:56-66 | a domain id that is not a string and a failed request are passed on as they are; otherwise the data is posted to the service's path and the reply is turned into States |
| Domains.Service.TriggerReturnsStates | homeassistant_api/models/domains.py:56-66 | when the server answers the post with the JSON of some States, triggering yields exactly those States |
| Domains.StatesFromReply | homeassistant_api/models/domains.py:64-66 | a list reply is validated item by item as States |
| Domains.Service.Call | homeassistant_api/models/domains.py:68-69 | calling a Service triggers it with the same data |
| Entities.Group.constructor | homeassistant_api/models/entity.py:17-33 | a new Group has its id and client and no entities |
| Entities.Group.AddEntity | homeassistant_api/models/entity.py:35-41 | a fresh Entity with this slug, state and group is stored under the slug, replacing any earlier one |
| Entities.Group.GetEntity | homeassistant_api/models/entity.py:43-45 | the Entity stored under the slug, or None exactly when there is none |
| Entities.Entity.constructor | homeassistant_api/models/entity.py:53-58 | an Entity keeps its slug, state and group |
| Entities.Entity.EntityId | homeassistant_api/models/entity.py:79-82 | `Strip` of "<group>.<slug>", which Text.Strip pins down as the slice between the surrounding whitespace: it keeps the ".", neither starts nor ends with whitespace, and is "<group>.<slug>" itself when the group id does not start and the slug does not end with whitespace |
| Entities.Entity.GetState | homeassistant_api/models/entity.py:60-64 | the entity's state path is fetched; a valid reply replaces the cached state, and a failure leaves it |
| Entities.Entity.SetState | homeassistant_api/models/entity.py:66-77 | the new state is posted to "states/<group>.<slug>"; the reply replaces the cached state, and a failure leaves it |
| Entities.Entity.GetHistory | homeassistant_api/models/entity.py:84-102 | the first History the client lists for this entity alone, or None when it lists none |
| Histories.IdSetSingleton | homeassistant_api/models/history.py:18-23 | the set of entity ids is empty exactly for no states, and has one element exactly when all states share one id |
| Histories.NewHistory | homeassistant_api/models/history.py:13-23 | a History is built exactly when all states share one id; no states is a ValueError, and mixed ids an AssertionError |
| Histories.EntityId | homeassistant_api/models/history.py:17-23 | the entity id of a History is the id of each of its states |
| Histories.ParseStates | homeassistant_api/models/history.py:11 | succeeds exactly when every item is a State, giving one State per item in order; otherwise fails with the first failing item's error |
| Histories.StatesRoundTrip | homeassistant_api/models/history.py:11 | parsing the JSON of a sequence of States gives those States back |
| Histories.ParseHistory | homeassistant_api/models/history.py:8-23 | a non-list is a ValueError; a list gives a History exactly when every item parses as a State and all share one entity id, and the History holds those States in order; a failing item's error is passed on |
| Histories.HistoryRoundTrip | homeassistant_api/models/history.py:8-23 | the JSON of a History's states parses back to that History |
| Grouping.SplitRebuilds | homeassistant_api/rawclient.py:176 | for an id with exactly one ".", the group and slug rejoin to the id and hold no "." |
| Grouping.GroupIdsMeaning | homeassistant_api/rawclient.py:174-179 | the group ids are distinct and are exactly the ids of the listed states |
| Grouping.MembersAbsent | homeassistant_api/rawclient.py:174-179 | a group id that no listed state has has no members |
| Grouping.MembersMeaning | homeassistant_api/rawclient.py:174-179 | a slug is a member of a group exactly when some listed state has that group and slug |
| Grouping.MembersLatest | homeassistant_api/rawclient.py:179 | the member under a slug is the last listed state with that group and slug |
| Grouping.MembersStep | homeassistant_api/rawclient.py:179 | one more state adds itself under its slug in its own group only |
| Grouping.Register | homeassistant_api/rawclient.py:179 | registering a state keeps the group's entities matching its members |
| Grouping.AppendKeys | homeassistant_api/rawclient.py:177-178 | adding a Group for a new group id keeps the keys distinct and in order of first appearance |
| Grouping.AppendRegistered | homeassistant_api/rawclient.py:177-178 | a new empty Group keeps every Group's entities matching its members |
| Grouping.GroupFor | homeassistant_api/rawclient.py:177-178 | the Group for the state's group id: the existing one, or a fresh one appended |
| Grouping.Admit | homeassistant_api/rawclient.py:179 | after the state is added, every Group's entities match its members |
| Grouping.GroupStep | homeassistant_api/rawclient.py:175-179 | one loop step succeeds exactly when the id splits in two, and keeps the grouping invariant |
| Grouping.GroupStates | homeassistant_api/rawclient.py:172-180 | it succeeds exactly when every id splits in two; the Groups are keyed by group id in order of first appearance, and each holds the latest state under each slug |
| Grouping.EntityFromState | homeassistant_api/rawclient.py:201-204 | an id that splits in two gives the one Entity of a new Group with that group and slug; otherwise a ValueError |
| JsonModels.JsonModel.constructor | homeassistant_api/models/base.py:8-13 | the dict holds the json entries, with the keyword entries written over them |
| JsonModels.JsonModel.GetAttr | homeassistant_api/models/base.py:15-22 | the instance's own attribute first; then a method inherited from `dict`, which shadows an entry of the same name; then a dict entry whose name has no "__", wrapped as a JsonModel when it is a dict; anything else is an AttributeError |
| JsonModels.JsonModel.SetAttr | homeassistant_api/models/base.py:24-30 | a name without "__" stores the value in the dict; every name becomes an instance attribute, which a later read returns |
| Calendars.MemberOf | homeassistant_api/models/calendar.py:24 | Python's `in`: a dict key, a substring or a list element; other values are a TypeError |
| Calendars.PickDate | homeassistant_api/models/calendar.py:26-33 | the field's "dateTime" when it is truthy, else its "date" |
| Calendars.KeptPick | homeassistant_api/models/calendar.py:29-30 | a change confined to one key leaves the date picked from, and the value read from, every other key unchanged |
| Calendars.ReplaceDate | homeassistant_api/models/calendar.py:26-33 | fails exactly when the field is not a dict or its date text is not a string `fromisoformat` accepts; the dict changes only where a parsed date is stored under the field |
| Calendars.EventFromJson | homeassistant_api/models/calendar.py:21-34 | a failing all-day test fails with the dict unchanged; a "date" in start or end sets all_day, else all_day is kept; start, then end, is replaced by its parsed date text where there is one, and one that cannot be parsed fails, keeping the changes made before it; otherwise the changed dict is validated; no other key changes |
| Calendars.CalendarFromJson | homeassistant_api/models/calendar.py:47-57 | a missing client is an AssertionError; with a client, a json that is not a dict, or a dict holding its own "_client", is a TypeError; otherwise it succeeds exactly when "entity_id" and "name" are strings, keeping those strings and the client, and fails with a ValueError when they are not |
| Calendars.GetCalendarEvents | homeassistant_api/models/calendar.py:59-69 | the client's listing for this calendar's entity id and the same bounds |

## Left out

- Domain.from_json, State.from_json and Event.from_json are called but not
  defined in this version. Mixins.ProcessServicesJson stands in for
  `Domain.from_json`. States.ParseState and States.ParseEvent stand in for the
  other two.
- `process_state_json` (mixins.py:21-24) is `State.parse_obj`, which is
  States.ParseState. The async twins of the three processors are the same
  members.
- `process_event_json` builds an `Event`. In this version `Event.__init__`
  (models/events.py:12-13) raises NotImplementedError. The model parses events
  with States.ParseEvent instead.
- The mixins pass `domain_id=` to Domain, whose `__init__` takes `domain`.
  The model passes the id positionally.
- models/base.py defines no `BaseModel`, although calendar.py, entity.py,
  history.py and states.py import it. The pydantic validation these models
  rely on is modelled by strict parsers. There is no type coercion, and unknown
  keys are ignored.
- States.ParseStamp, and so States.ParseState, accept any string as a
  timestamp and keep it as `DateTime(s)`. A validating model would reject a
  string that is not an ISO datetime. The model does not check the format.
- processing.py:8-15 imports six names from errors.py, which defines only
  Error, MalformedDataError, MalformedInputError, ResponseError,
  APIConfigurationError and ParameterMissingError. Five of the six names
  (UnexpectedStatusCodeError, UnauthorizedError, EndpointNotFoundError,
  MethodNotAllowedError, RequestError) do not exist, so importing
  processing.py fails as written. The model supplies them as cases of the
  `Errors.Error` datatype.
- The Entity's client: entity.py reads `self.group.client`, and rawasyncclient
  builds Groups with `_client=` and calls `_add_entity`. The model gives every
  Group its client and one `AddEntity`.
- Entity.SetState: the source posts the State object itself as `json`. The
  model posts its JSON form, `States.StateValue`.
- rawasyncclient awaits the synchronous `process()`. The async clients are
  modelled as sequential, and awaiting is not modelled. AsyncGroup is treated
  as Group.
- RawAsyncClients.RawAsyncClient.GetRenderedTemplate treats
  RequestTimeoutError as not a RequestError. The exception hierarchy it would
  inherit from is not part of this model.
- The `print` calls in `process` are left out.
- Sessions, caching (`CachedSession`, `async_cache_session`), `__enter__`,
  `__aenter__` and the aiohttp and requests libraries are left out. The network
  is the `send` parameter.
- `datetime.isoformat`, `strftime(DATE_FMT)` and `fromisoformat` are
  parameters or fields. `DateTime.iso` is the ISO text. A `format` or
  `fromIso` function stands for the others.
- Text.Lower and the `\d` and `[A-Z]` classes of the regular expressions only
  cover ASCII. Python's `str.lower` and `str.isupper` are Unicode-aware.
  Text.IsSpace, which Text.Strip uses, is the full `str.isspace` set.
- The order of Value dicts is not modelled; `Value` dicts are maps. It matters
  only where modelled with ODict.
- RawAsyncClients.RawAsyncClient.GetDomains returns a map, so its insertion
  order is not modelled.
- RawAsyncClients.RawAsyncClient.DomainsOf: for each key, it states only the
  Domain's id, client and service keys. It does not state each Service's
  metadata.
- RawBaseClient.PrepareHeadersWith and the PrepareHeaders members model a
  header argument that is not a dict. The clients' Request members take
  `Option<ODict<string>>`, so they never pass one.
- RawBaseClient.FillHistoryParams and RawBaseClient.PrepareLogbookParams
  append keys rather than assigning them. This is the same because each key is
  set at most once.
- Client members outside the modelled core are left out:
  - RawClient's `get_domains`, `get_domain`, `trigger_service`, `get_events`,
    `fire_event`, `get_rendered_template`, `get_discovery_info` and
    `api_error_log`;
  - the history and logbook generators of the async clients, and their
    `async_get_domains` in asyncclient;
  - `async_set_state`, `async_trigger_service`, `async_fire_event` and
    `async_get_components` of rawasyncclient.
- RawApi's `construct_params` is the same function as the newer base class's,
  so it is modelled once as RawBaseClient.ConstructParams.
- RawClients.RawClient.GetState, RawClients.RawClient.SetState,
  RawClients.RawClient.GetEntity, AsyncClients.AsyncClient.GetState and
  AsyncClients.AsyncClient.GetEntity use the corrected RawApi.PrepareEntityId.
  Every client's Request member, and so
  RawAsyncClients.RawAsyncClient.GetRenderedTemplate and the other members
  built on it, uses the corrected Processing.Process, through Transport.Send.
  None of them uses the as-written versions listed under Findings, so they
  state what these methods do once those two faults are fixed. As written,
  any all-lower-case id fails with MalformedInputError, and a 400 reply fails
  with an AttributeError.
- Entities.Entity.GetHistory, Calendars.GetCalendarEvents: the history and
  calendar listings they call are unconstrained functions in `Remote.Server`,
  not tied to any client request. The client methods they stand for,
  `get_entity_histories` (models/entity.py:94) and `get_calendar_events`
  (models/calendar.py:65), are defined by no client in this version, where
  the synchronous client has only `get_history` and the async clients have
  only `async_get_entity_histories`. As written, both calls raise
  AttributeError. The model states what the two members do with whatever
  the listing returns.
- JsonModels.JsonModel.GetAttr does not model the dunder attributes the class
  inherits (`__class__`, `__len__` and the rest). A name containing "__" is
  found only among the instance's own attributes.
- `__repr__` and the `__getattr__` forwarding of Group and Domain are left
  out. The explicit `GetEntity` and `GetService` lookups are modelled.

## Findings

| source | as written | input that shows it | evidently intended | confidence | as-written member | corrected member |
|---|---|---|---|---|---|---|
| homeassistant_api/processing.py:37-38 | the 400 branch builds its RequestError from `self.request`, which a response does not have | any response with status 400 | raise a RequestError holding the response content | not executed | Processing.ProcessAsWritten, Processing.BadRequestAsWritten | Processing.Process |
| homeassistant_api/rawapi.py:72 | `entity_id.lower() == entity_id` counts an id with no capitals as malformed | group "sun", slug "sun": "sun.sun" is rejected | count an id with capitals as malformed | not executed | RawApi.MalformedIdAsWritten, RawApi.PrepareEntityIdAsWritten, RawApi.PrepareEntityIdAsWrittenRejectsLowerCase, RawApi.PrepareEntityIdAsWrittenRejectsSunSun | RawApi.MalformedId, RawApi.PrepareEntityId, RawApi.MalformedIdMeaning |
| homeassistant_api/_async/asyncclient.py:261-262 | the guard raises when the reply IS a list | a reply listing one valid event | raise when the reply is not a list | not executed | Replies.EventsAsWritten, AsyncClients.AsyncClient.GetEventsAsWritten, Replies.EventsGuardInverted | Replies.EventsOfList, AsyncClients.AsyncClient.GetEvents |
| homeassistant_api/rawbaseclient.py:147-151 | a start timestamp given as text sets no path, so `url` is unbound | start "2021-01-01T00:00:00" given as a string | join the text start under "logbook/" | not executed | RawBaseClient.PrepareLogbookParamsAsWritten | RawBaseClient.PrepareLogbookParams |
| homeassistant_api/rawclient.py:88-91 | a start timestamp given as text leaves `formatted_timestamp` unbound | start "2021-01-01T00:00:00" given as a string | join the text start under "logbook/" | not executed | RawClients.RawClient.LogbookEntriesAsWritten | RawClients.RawClient.LogbookEntries, RawClients.LogbookTextStart |
