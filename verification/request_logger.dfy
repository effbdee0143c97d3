/** The two decisions of the request logger
    (src/common/middleware/requestLogger.ts): the log level of a finished
    response, and the request id attached to each request. */
module RequestLogger {
  import opened AppCodes

  /** The levels the logger picks from. */
  datatype Level = Info | Warn | Error

  /** Order of severity. */
  function Severity(l: Level): nat {
    match l
    case Info => 0
    case Warn => 1
    case Error => 2
  }

  /** `getLogLevel(status)`: 5xx is an error, 4xx a warning, the rest info. */
  function GetLogLevel(status: int): (l: Level)
    ensures l == Error <==> status >= 500
    ensures l == Warn <==> 400 <= status < 500
    ensures l == Info <==> status < 400
  {
    if status >= 500 then Error
    else if status >= 400 then Warn
    else Info
  }

  /** Severity never drops as the status grows. */
  lemma LevelMonotone(s1: int, s2: int)
    requires s1 <= s2
    ensures Severity(GetLogLevel(s1)) <= Severity(GetLogLevel(s2))
  {
  }

  /** Over the code table: only SUCCESS logs at info; the two system errors
      log at error; the user and validation errors log at warn. */
  lemma TableLevels(k: AppCodeKey)
    ensures GetLogLevel(Entry(k).statusCode) == Info <==> k == SUCCESS
    ensures GetLogLevel(Entry(k).statusCode) == Error <==> k == DATABASE_ERROR || k == INTERNAL_SERVER_ERROR
  {
  }

  /** Header maps of the request and of the response. Node keys both by the
      lower-cased header name, so `setHeader("X-Request-Id", …)` lands on the
      same entry as an existing `x-request-id` response header and replaces it. */
  datatype Headers = Headers(request: map<string, string>, response: map<string, string>)

  /** The request-id header, under the lower-case name both maps use. */
  const IdHeader := "x-request-id"

  /** `addRequestId`: a non-empty incoming `x-request-id` is kept, an absent or
      empty one is replaced by `generated` (a `randomUUID()`); the id goes on the
      request and on the response, and no other header changes. */
  function AddRequestId(h: Headers, generated: string): (h': Headers)
    ensures IdHeader in h'.request && IdHeader in h'.response
    ensures h'.request[IdHeader] == h'.response[IdHeader]
    ensures (IdHeader in h.request && h.request[IdHeader] != "")
            ==> h'.request[IdHeader] == h.request[IdHeader]
    ensures (IdHeader !in h.request || h.request[IdHeader] == "")
            ==> h'.request[IdHeader] == generated
    ensures h'.request.Keys == h.request.Keys + {IdHeader}
    ensures h'.response.Keys == h.response.Keys + {IdHeader}
    ensures forall n :: n in h.request && n != IdHeader ==> h'.request[n] == h.request[n]
    ensures forall n :: n in h.response && n != IdHeader ==> h'.response[n] == h.response[n]
  {
    var existing := if IdHeader in h.request then h.request[IdHeader] else "";
    var requestId := if existing != "" then existing else generated;
    Headers(h.request[IdHeader := requestId], h.response[IdHeader := requestId])
  }

  /** Running the step twice keeps the id chosen the first time. */
  lemma AddRequestIdStable(h: Headers, generated1: string, generated2: string)
    requires generated1 != ""
    ensures var once := AddRequestId(h, generated1);
            AddRequestId(once, generated2) == once
  {
  }
}
