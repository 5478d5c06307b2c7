/** JavaScript values as the two node handlers see them: parsed JSON
    responses, request bodies built as plain objects, and thrown error
    objects (which the handlers embed in their output as `errorDetails`). */
module JsValue {

  datatype Option<+T> = None | Some(value: T)

  datatype Result<+T, +E> = Ok(value: T) | Fail(error: E)

  /** A JavaScript value. Numbers are modelled as integers. */
  datatype Json =
    | Undefined
    | Null
    | Bool(b: bool)
    | Num(n: int)
    | Str(s: string)
    | Arr(elems: seq<Json>)
    | Obj(fields: map<string, Json>)
    | ErrorValue(error: JsError)

  /** A thrown error: its `message`, and the HTTP `response` that the
      transport attaches when the failure came from a reply of the server. */
  datatype JsError = JsError(message: string, response: Option<HttpResponse>)

  datatype HttpResponse = HttpResponse(status: int, statusText: string, data: Json, headers: Json)

  predicate IsNullish(v: Json) {
    v.Undefined? || v.Null?
  }

  /** JavaScript truthiness (`if (v)`, `v || w`, `!v`). */
  predicate Truthy(v: Json) {
    match v
    case Undefined => false
    case Null => false
    case Bool(b) => b
    case Num(n) => n != 0
    case Str(s) => s != ""
    case Arr(_) => true
    case Obj(_) => true
    case ErrorValue(_) => true
  }

  /** The message V8 gives the TypeError thrown by `v.key` on null or undefined. */
  function NullishReadMessage(v: Json, key: string): string
    requires IsNullish(v)
  {
    "Cannot read properties of " + (if v.Null? then "null" else "undefined") + " (reading '" + key + "')"
  }

  /** Property read `v.key`. Reading from null or undefined throws a
      TypeError; an own field of an object is returned; any other read
      yields undefined (the keys read here, `id` and `data`, are not
      built-in properties of strings, arrays, numbers or errors). */
  function Member(v: Json, key: string): (r: Result<Json, JsError>)
    ensures r.Fail? <==> IsNullish(v)
    ensures r.Fail? ==> r.error.response.None?
    ensures v.Obj? ==> r == Ok(if key in v.fields then v.fields[key] else Undefined)
    ensures !v.Obj? && r.Ok? ==> r.value == Undefined
  {
    match v
    case Undefined => Fail(JsError(NullishReadMessage(v, key), None))
    case Null => Fail(JsError(NullishReadMessage(v, key), None))
    case Obj(m) => Ok(if key in m then m[key] else Undefined)
    case _ => Ok(Undefined)
  }

  /** Optional-chaining read `v?.key`: undefined when `v` is null or
      undefined, otherwise the plain read, which then cannot throw. */
  function OptionalMember(v: Json, key: string): (r: Json)
    ensures IsNullish(v) ==> r == Undefined
    ensures !IsNullish(v) ==> Member(v, key) == Ok(r)
  {
    match Member(v, key)
    case Ok(x) => x
    case Fail(_) => Undefined
  }
}
