/** What the model objects ask of the client they were created by. The
    network round trip, response processing and model validation behind each
    call are abstract: each is an oracle that answers a request with a decoded
    body or an error. */
module Remote {
  import opened Wrappers
  import opened Values
  import opened Errors
  import opened OrderedDicts
  import opened States
  import opened Histories

  datatype Query = NoQuery | QueryString(s: string) | QueryDict(d: ODict<string>)

  /** One call of the client's `request(path, method=..., params=..., json=...)`. */
  datatype Request = Request(verb: string, path: string, query: Query, body: Option<Value>)

  /** The arguments of the client's `get_entity_histories`. */
  datatype HistoryQuery = HistoryQuery(
    entityIds: seq<string>,
    start: Option<DateTime>,
    end: Option<DateTime>,
    minimal: bool,
    significantOnly: bool)

  datatype Server = Server(
    request: Request -> Result<Value, Error>,
    entityHistories: HistoryQuery -> Result<seq<History>, Error>,
    calendarEvents: (string, Option<DateTime>, Option<DateTime>) -> Result<seq<CalendarEvent>, Error>)

  function Get(path: string): Request {
    Request("GET", path, NoQuery, None)
  }

  function Post(path: string, body: Option<Value>): Request {
    Request("POST", path, NoQuery, body)
  }
}
