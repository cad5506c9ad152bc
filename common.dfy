/** Values shared by the account and link routers: the JSON payloads they
    pass through, the error objects the stores return, the outcome of an
    awaited store call, the response a handler writes, and the account
    record the session middleware attaches to a request. */
module Common {

  datatype Option<T> = None | Some(value: T)

  /** A JSON value, for the payloads the routers pass through without
      looking inside (store results, error details, projected links). */
  datatype Json =
    | JNull
    | JBool(b: bool)
    | JNum(n: int)
    | JStr(s: string)
    | JArr(items: seq<Json>)
    | JObj(fields: map<string, Json>)

  /** The error half of a store's `[data, error]` pair: a status code, a
      message and an optional detail payload. */
  datatype StoreError = StoreError(code: int, message: string, details: Option<Json>)

  /** What awaiting a store call that answers with a `[data, error]` pair
      gives: the data, the error, or an exception. */
  datatype Outcome<T> = Ok(data: T) | Err(error: StoreError) | Throws

  /** What awaiting a store call that answers with a bare value gives. */
  datatype Awaited<T> = Value(value: T) | Threw

  datatype Role = Admin | Standard

  /** The account record the session middleware resolves; `passwordHash`
      stands for every stored field the routers must not expose. */
  datatype Account = Account(
    id: string,
    email: string,
    username: string,
    role: Role,
    secret: string,
    passwordHash: string)

  function RoleName(r: Role): string {
    match r
    case Admin => "admin"
    case Standard => "standard"
  }

  /** What a handler writes: a JSON envelope
      `{success, message?, details?, result?}` with a status, or a bare
      text body sent with `send`. */
  datatype Response =
    | Envelope(status: int, success: bool, message: Option<string>, details: Option<Json>, result: Option<Json>)
    | Raw(status: int, text: string)

  /** The store calls a handler made, in order, and the response it wrote. */
  datatype Handled<C> = Handled(calls: seq<C>, response: Response)

  function Succeeded(result: Option<Json>): Response {
    Envelope(200, true, None, None, result)
  }

  function Failed(status: int, message: string): Response {
    Envelope(status, false, Some(message), None, None)
  }

  /** The status codes Node accepts when it writes a response head; writing
      a response with any other status throws. */
  predicate Writable(code: int) {
    100 <= code <= 999
  }

  /** The failure envelope a route writes for a store error from inside its
      `try`: the error's code and message (and its details when the route
      passes them on); when that code cannot be written, the write throws
      and the route's `catch` answers 500 with its fixed message. */
  function ErrorEnvelope(e: StoreError, withDetails: bool, internal: string): Response {
    if Writable(e.code) then Envelope(e.code, false, Some(e.message), if withDetails then e.details else None, None)
    else Failed(500, internal)
  }

  /** As `ErrorEnvelope`, for a session error sent as bare text. */
  function ErrorText(e: StoreError, internal: string): Response {
    if Writable(e.code) then Raw(e.code, e.message) else Failed(500, internal)
  }

  /** The response is a 200 success envelope carrying exactly `result`
      (which may be none). */
  predicate Delivers(r: Response, result: Option<Json>) {
    r.Envelope? && r.status == 200 && r.success && r.result == result
    && r.message.None? && r.details.None?
  }

  /** The response reports the store error with its own code and message,
      and nothing else of it. */
  predicate Conveys(r: Response, e: StoreError) {
    r.Envelope? && r.status == e.code && !r.success && r.message == Some(e.message)
    && r.details.None? && r.result.None?
  }

  /** As `Conveys`, but the error's details are passed on as well. */
  predicate ConveysWithDetails(r: Response, e: StoreError) {
    r.Envelope? && r.status == e.code && !r.success && r.message == Some(e.message)
    && r.details == e.details && r.result.None?
  }

  /** The response is a failure envelope with the given status and fixed
      message; nothing of any store value reaches it. */
  predicate Refuses(r: Response, status: int, message: string) {
    r.Envelope? && r.status == status && !r.success && r.message == Some(message)
    && r.details.None? && r.result.None?
  }

  /** The envelope shape every route keeps: a success has status 200 and
      no message or details; a failure has a message and no result. */
  predicate WellFormed(r: Response) {
    r.Envelope? ==>
      && (r.success ==> r.status == 200 && r.message.None? && r.details.None?)
      && (!r.success ==> r.message.Some? && r.result.None?)
  }

  /** The response is a bare-text body carrying the session error. */
  predicate SendsText(r: Response, e: StoreError) {
    r.Raw? && r.status == e.code && r.text == e.message
  }

  /** The store error reaches the client by code and message when its code
      can be written; otherwise the route's fixed 500 answer is given. */
  predicate Reports(r: Response, e: StoreError, internal: string) {
    && (Writable(e.code) ==> Conveys(r, e))
    && (!Writable(e.code) ==> Refuses(r, 500, internal))
  }

  /** As `Reports`, with the error's details passed on as well. */
  predicate ReportsWithDetails(r: Response, e: StoreError, internal: string) {
    && (Writable(e.code) ==> ConveysWithDetails(r, e))
    && (!Writable(e.code) ==> Refuses(r, 500, internal))
  }

  /** As `Reports`, for a session error sent as bare text. */
  predicate ReportsText(r: Response, e: StoreError, internal: string) {
    && (Writable(e.code) ==> SendsText(r, e))
    && (!Writable(e.code) ==> Refuses(r, 500, internal))
  }
}
