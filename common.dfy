/**
  Values shared by every request handler: decoded JSON, Go's two-valued type
  assertions on a decoded field map, the float-to-integer conversion, the
  positional parameters of a stored-procedure call, and the HTTP response.
 */
module Common {
  import opened Models

  datatype Option<+T> = None | Some(value: T)

  /** A value as `encoding/json` produces it when decoding into `interface{}`:
      every JSON number arrives as a float64, modelled here as a real. */
  datatype JsonVal =
    | JNum(n: real)
    | JStr(s: string)
    | JBool(b: bool)
    | JNull
    | JArr(items: seq<JsonVal>)
    | JObj(members: map<string, JsonVal>)

  /** A request body decoded into `map[string]interface{}`. */
  type Fields = map<string, JsonVal>

  /** The outcome of decoding the request body into a value of type T. */
  datatype Decode<T> = DecodeError(msg: string) | Decoded(value: T)

  /** The outcome of opening a connection or of one `Exec`/`Query`. */
  datatype DbResult = DbOk | DbErr(msg: string)

  /** One positional argument of a stored-procedure call. A nullable integer
      is a `*int64` in the source: `None` is a SQL NULL. */
  datatype Param = PStr(s: string) | PInt(i: int) | PNullInt(v: Option<int>)

  /** The one stored-procedure call a handler issues. */
  datatype Call = Call(proc: string, params: seq<Param>)

  /** What a successful handler writes as its JSON body. */
  datatype Body =
    | Message(text: string)
    | PatientEcho(patient: Patient)
    | CheckupEcho(checkup: Checkup)
    | AppointmentRows   // the encoded row set; the row loop is not modelled

  /** The HTTP outcome: 400 and 500 with a plain-text message, a panic inside
      the handler, 201 with an empty body, or 200 with a JSON body. */
  datatype Response =
    | BadRequest(msg: string)
    | ServerError(msg: string)
    | Panic
    | Created
    | Ok(body: Body)

  /** A handler's observable effect: its response and the call it issued. */
  datatype Handled = Handled(resp: Response, call: Option<Call>)

  const ConnectFailedMsg := "Failed to connect to database"

  function MissingField(field: string): string
  {
    "Missing required field: " + field
  }

  /** The response when `db.ConnectDB` fails: nothing else is looked at. */
  const ConnectFailure := Handled(ServerError(ConnectFailedMsg), None)

  /** A validation failure naming `field`; no call is issued. */
  function Reject(field: string): (h: Handled)
    ensures h.resp.BadRequest? && h.call.None?
    ensures h.resp.msg == MissingField(field)
  {
    Handled(BadRequest(MissingField(field)), None)
  }

  /** Issue `call`; answer `success` when it succeeds and 500 with the
      driver's message when it fails. */
  function Issue(call: Call, exec: DbResult, success: Response): (h: Handled)
    ensures h.call == Some(call)
    ensures exec.DbOk? ==> h.resp == success
    ensures exec.DbErr? ==> h.resp == ServerError(exec.msg)
  {
    Handled(if exec.DbOk? then success else ServerError(exec.msg), Some(call))
  }

  /** `data[key].(float64)`: a value only when the key is present AND holds a
      JSON number; absence and any other JSON type both give `None`. */
  function AsNumber(data: Fields, key: string): (r: Option<real>)
    ensures r.Some? <==> key in data && data[key].JNum?
    ensures r.Some? ==> data[key] == JNum(r.value)
  {
    if key in data && data[key].JNum? then Some(data[key].n) else None
  }

  /** `data[key].(string)`, with the same two-valued behaviour. */
  function AsString(data: Fields, key: string): (r: Option<string>)
    ensures r.Some? <==> key in data && data[key].JStr?
    ensures r.Some? ==> data[key] == JStr(r.value)
  {
    if key in data && data[key].JStr? then Some(data[key].s) else None
  }

  /** Go's conversion of a float64 to an integer type: the fractional part is
      discarded, so the result moves toward zero. Out-of-range values are not
      modelled. */
  function Trunc(x: real): (r: int)
    ensures 0.0 <= x ==> 0 <= r && r as real <= x < r as real + 1.0
    ensures x < 0.0 ==> r <= 0 && r as real - 1.0 < x <= r as real
  {
    if x >= 0.0 then x.Floor else -((-x).Floor)
  }

  lemma TruncIsNotRounding()
    ensures Trunc(3.7) == 3 && Trunc(3.0) == 3 && Trunc(-3.7) == -3
  {
  }

  /** The result of the unchecked `int64(val.(float64))` applied to an
      optional field that is present: a value when it is a JSON number, a
      panic otherwise (JSON `null` included). */
  datatype Converted = Converted(id: Option<int>) | AssertionPanic

  /** `if val, ok := data[key]; ok { id = new(int64); *id = int64(val.(float64)) }`. */
  function OptionalId(data: Fields, key: string): (c: Converted)
    ensures key !in data ==> c == Converted(None)
    ensures key in data && data[key].JNum? ==> c == Converted(Some(Trunc(data[key].n)))
    ensures key in data && !data[key].JNum? ==> c == AssertionPanic
  {
    if key !in data then Converted(None)
    else match data[key]
      case JNum(n) => Converted(Some(Trunc(n)))
      case _ => AssertionPanic
  }
}
