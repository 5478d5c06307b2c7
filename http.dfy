/** The requests the nodes hand to the host's authenticated HTTP helper,
    and the helper itself as an oracle. */
module Http {
  import opened JsValue

  datatype Method = Post | Patch {
    /** The method name as the request options and the debug echo carry it. */
    function Name(): (n: string)
      ensures n == "POST" <==> this == Post
      ensures n == "PATCH" <==> this == Patch
    {
      match this
      case Post => "POST"
      case Patch => "PATCH"
    }
  }

  /** The options object `{method, url, body, headers}` of one call. */
  datatype Request = Request(httpMethod: Method, url: string, body: map<string, Json>, headers: map<string, string>)

  /** The authenticated transport: given the requests issued so far in this
      execution and the next one, it yields the parsed response or throws. */
  type Server = (seq<Request>, Request) -> Result<Json, JsError>

  /** `{ 'Content-Type': 'application/json' }`, sent with every request. */
  const JsonHeaders: map<string, string> := map["Content-Type" := "application/json"]

  /** A string-valued header object as a JavaScript value. */
  function HeadersValue(h: map<string, string>): (v: Json)
    ensures v.Obj? && v.fields.Keys == h.Keys
    ensures forall k :: k in h ==> v.fields[k] == Str(h[k])
  {
    Obj(map k | k in h :: Str(h[k]))
  }
}
