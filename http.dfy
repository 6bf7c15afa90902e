/**
 * What the client sees of the `requests` library: the request it hands over,
 * the reply (or transport failure) that comes back, the rule by which
 * `raise_for_status` turns a reply into an `HTTPError`, and the way a handler
 * digs the server's `detail` out of an error reply. The network itself is an
 * input to every operation.
 */
module Http {
  import opened Wrappers
  import opened Text

  /** A JSON value, as sent in a request or decoded from a reply. */
  datatype Json =
    | JNull
    | JBool(b: bool)
    | JInt(i: int)
    | JStr(s: string)
    | JList(items: seq<Json>)
    | JObject(fields: map<string, Json>)

  datatype Verb = Get | Post | Patch | Delete

  /**
   * The body of a request: none, `json=`, `data=` (form fields), or one file
   * part (`files=`: the part's field name, then the file's name, bytes and
   * content type) with form fields (`data=`).
   */
  datatype Payload =
    | NoPayload
    | JsonBody(json: map<string, Json>)
    | FormBody(form: map<string, string>)
    | Multipart(field: string, fileName: string, content: seq<bv8>, contentType: Option<string>,
                form: map<string, string>)

  /** One request as the client hands it to the session: verb, URL, `params=` and body. */
  datatype Request = Request(verb: Verb, url: string, params: map<string, Json>, payload: Payload)

  /** What `response.json()` makes of a reply body. */
  datatype Body =
    | NotJson(why: string)        // decoding raises; `why` is the decoder's message
    | JsonObject(fields: map<string, Json>)
    | JsonOther(value: Json)      // valid JSON that is not an object: `.get` raises AttributeError

  /** A reply: status code, reason phrase, final URL, decoded body and raw text. */
  datatype Reply = Reply(status: int, reason: string, url: string, body: Body, text: string)

  /** A failure below HTTP: `ConnectionError`, or any other `RequestException`. */
  datatype TransportError = ConnectionError(text: string) | RequestError(text: string)

  /** What the network does with one request. */
  datatype Outcome = Answered(reply: Reply) | Unreachable(err: TransportError)

  /**
   * What escapes from a client operation: the `ValueError` the client raises,
   * a transport exception it lets through unchanged, an `AttributeError`, or
   * the `JSONDecodeError` of `response.json()` on a success reply that is not
   * JSON (`why` is the decoder's message).
   */
  datatype Error = ValueError(msg: string) | Raised(err: TransportError) | AttributeError | DecodeError(why: string)

  /** The effect of one operation: the request it sent, if any, and what it returns or raises. */
  datatype Call = Call(sent: Option<Request>, result: Result<Reply, Error>)

  /** `raise_for_status` raises exactly for the 4xx and 5xx codes. */
  predicate IsHttpError(status: int)
  {
    400 <= status < 600
  }

  /** `str()` of the `HTTPError` that `raise_for_status` raises. */
  function HttpErrorText(r: Reply): string
  {
    IntToString(r.status) + (if r.status < 500 then " Client Error: " else " Server Error: ")
    + r.reason + " for url: " + r.url
  }

  /** The reply carries a JSON object whose `detail` member is a string. */
  predicate HasDetail(b: Body)
  {
    b.JsonObject? && "detail" in b.fields && b.fields["detail"].JStr?
  }

  /**
   * `response.json().get("detail", fallback)` inside a `try` whose handler also
   * yields `fallback`: the server's `detail` when there is one, `fallback` when
   * the body is not JSON, not an object, or has no `detail`.
   */
  function DetailOr(b: Body, fallback: string): string
  {
    if HasDetail(b) then b.fields["detail"].s else fallback
  }

  /**
   * Sending a request and running `raise_for_status`, with a handler for
   * `HTTPError` only: transport exceptions escape unchanged, an error status
   * becomes the `ValueError` that `onHttpError` words, and any other reply is
   * handed back.
   */
  function Settle(o: Outcome, onHttpError: Reply -> string): Result<Reply, Error>
  {
    SettleWith(o, (reply: Reply) => ValueError(onHttpError(reply)))
  }

  /**
   * `return response.json()` after `raise_for_status`, inside a `try` that
   * handles `HTTPError` only: a success reply whose body does not decode
   * raises the decoder's error, which no handler catches.
   */
  function Decoded(r: Result<Reply, Error>): Result<Reply, Error>
  {
    if r.Success? && r.value.body.NotJson? then Failure(DecodeError(r.value.body.why)) else r
  }

  /** The `ValueError` message an operation ended with, if it ended with one. */
  predicate RaisesValueError(c: Call, msg: string)
  {
    c.result.Failure? && c.result.error == ValueError(msg)
  }

  /** The operation ended with a `ValueError` whose message starts with `prefix`. */
  predicate RaisesWithPrefix(c: Call, prefix: string)
  {
    c.result.Failure? && c.result.error.ValueError? && StartsWith(c.result.error.msg, prefix)
  }

  /** The common handler's detail: `response.json().get("detail", str(e))`, else `str(e)`. */
  function DetailOrError(r: Reply): string
  {
    DetailOr(r.body, HttpErrorText(r))
  }

  /** Python truthiness of an optional string: present and non-empty. */
  predicate Truthy(s: Option<string>)
  {
    s.Some? && s.value != ""
  }

  /**
   * Like `Settle`, for a handler that can end with any error (for instance
   * an `AttributeError` raised while it reads the reply).
   */
  function SettleWith(o: Outcome, onHttpError: Reply -> Error): Result<Reply, Error>
  {
    match o
    case Unreachable(e) => Failure(Raised(e))
    case Answered(reply) =>
      if IsHttpError(reply.status) then Failure(onHttpError(reply)) else Success(reply)
  }

  /** Python truthiness of a decoded JSON value. */
  predicate JsonTruthy(j: Json)
  {
    match j
    case JNull => false
    case JBool(b) => b
    case JInt(i) => i != 0
    case JStr(s) => s != ""
    case JList(items) => |items| > 0
    case JObject(fields) => |fields| > 0
  }

  /** `d.get(k)`: the member, or `None` (here `JNull`) when it is missing. */
  function Lookup(d: map<string, Json>, k: string): Json
  {
    if k in d then d[k] else JNull
  }

  /** Python `a or b`: `a` when it is truthy, else `b`. */
  function Or(a: Json, b: Json): Json
  {
    if JsonTruthy(a) then a else b
  }

  /**
   * Python `str()` of a decoded scalar: a string is itself, an integer its
   * decimal form, `None`/`True`/`False` their names. Lists and objects are
   * rendered by their brackets only.
   */
  function PyStr(j: Json): string
  {
    match j
    case JNull => "None"
    case JBool(b) => if b then "True" else "False"
    case JInt(i) => IntToString(i)
    case JStr(s) => s
    case JList(_) => "[]"
    case JObject(_) => "{}"
  }
}
