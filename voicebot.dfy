/** The Kipps.AI Voicebot node: per input item, one request chosen by the
    `action` parameter (start a phone call, send text or audio to a web
    call, end a call), answered with the response and an echo of what was
    sent. */
module Voicebot {
  import opened JsValue
  import opened JsString
  import opened Http
  import opened ItemLoop

  /** The node parameters of one item, each read with default `''`. */
  datatype Params = Params(
    action: string,
    voicebotId: string,
    phoneNumber: string,
    roomName: string,
    inputType: string,
    textInput: string,
    audioInput: string)

  const PhoneCallUrl: string := "https://backend.kipps.ai/speech/phone-call/"
  const WebCallUrl: string := "https://backend.kipps.ai/speech/web-call/"
  const PhoneRequired: string := "Phone Number is required for starting a call."
  const WebUser: string := "unknown_web_user"

  /** The room's own URL, `phone-call/${roomName}/`, that an end-call request patches. */
  function CallUrl(roomName: string): (url: string)
    ensures |url| == |PhoneCallUrl| + |roomName| + 1
    ensures url[..|PhoneCallUrl|] == PhoneCallUrl && url[|url| - 1] == '/'
    ensures url[|PhoneCallUrl|..|url| - 1] == roomName
  {
    PhoneCallUrl + roomName + "/"
  }

  /** The room name sits between the fixed prefix and the final slash, so
      different rooms are always patched at different URLs. */
  lemma CallUrlInjective(a: string, b: string)
    requires CallUrl(a) == CallUrl(b)
    ensures a == b
  {
  }

  /** The body of a send-audio/text request: the voicebot, the room, the
      fixed test-call origin and caller, and the content under `text` when
      the input type is `"text"` and under `audio` for any other value. */
  function WebCallBody(p: Params): (body: map<string, Json>)
    ensures body.Keys == {"voicebot", "room_name", "call_origin", "caller_id", "caller_name",
                          if p.inputType == "text" then "text" else "audio"}
    ensures "text" in body <==> p.inputType == "text"
    ensures "audio" in body <==> p.inputType != "text"
    ensures body["voicebot"] == Str(p.voicebotId) && body["room_name"] == Str(p.roomName)
    ensures body["call_origin"] == Str("test-call")
    ensures body["caller_id"] == Str(WebUser) && body["caller_name"] == Str(WebUser)
    ensures p.inputType == "text" ==> body["text"] == Str(p.textInput)
    ensures p.inputType != "text" ==> body["audio"] == Str(p.audioInput)
  {
    var fixed := map["voicebot" := Str(p.voicebotId), "room_name" := Str(p.roomName),
                     "call_origin" := Str("test-call"), "caller_id" := Str(WebUser),
                     "caller_name" := Str(WebUser)];
    if p.inputType == "text" then fixed["text" := Str(p.textInput)]
    else fixed["audio" := Str(p.audioInput)]
  }

  /** The request an item's `action` selects, or the validation error a
      start-call item with a blank phone number throws before any request.
      An action outside the three known ones keeps the defaults: POST to
      the empty URL with an empty body. */
  function Dispatch(p: Params): (r: Result<Request, JsError>)
    ensures r.Fail? <==> p.action == "startCall" && AllWhitespace(p.phoneNumber)
    ensures r.Fail? ==> r.error == JsError(PhoneRequired, None)
    ensures r.Ok? ==> r.value.headers == JsonHeaders
    ensures r.Ok? && p.action == "startCall" ==>
              r.value.httpMethod == Post && r.value.url == PhoneCallUrl &&
              r.value.body == map["voicebot" := Str(p.voicebotId), "phone_number" := Str(p.phoneNumber),
                                  "room_name" := Str(p.roomName), "call_origin" := Str("outbound"),
                                  "call_status" := Str("ringing")]
    ensures r.Ok? && p.action == "sendAudioText" ==>
              r.value.httpMethod == Post && r.value.url == WebCallUrl && r.value.body == WebCallBody(p)
    ensures p.action == "endCall" ==>
              r.Ok? && r.value.httpMethod == Patch && r.value.url == CallUrl(p.roomName) &&
              r.value.body == map["call_status" := Str("completed")]
    ensures p.action !in {"startCall", "sendAudioText", "endCall"} ==>
              r == Ok(Request(Post, "", map[], JsonHeaders))
  {
    BlankIffAllWhitespace(p.phoneNumber);
    if p.action == "startCall" then
      if Blank(p.phoneNumber) then Fail(JsError(PhoneRequired, None))
      else Ok(Request(Post, PhoneCallUrl,
                      map["voicebot" := Str(p.voicebotId), "phone_number" := Str(p.phoneNumber),
                          "room_name" := Str(p.roomName), "call_origin" := Str("outbound"),
                          "call_status" := Str("ringing")],
                      JsonHeaders))
    else if p.action == "sendAudioText" then
      Ok(Request(Post, WebCallUrl, WebCallBody(p), JsonHeaders))
    else if p.action == "endCall" then
      Ok(Request(Patch, CallUrl(p.roomName), map["call_status" := Str("completed")], JsonHeaders))
    else
      Ok(Request(Post, "", map[], JsonHeaders))
  }

  /** The `debug` part of a success record: `{body, headers, endpoint, method}`. */
  function DebugEcho(req: Request): Json {
    Obj(map["body" := Obj(req.body), "headers" := HeadersValue(req.headers),
            "endpoint" := Str(req.url), "method" := Str(req.httpMethod.Name())])
  }

  /** A success record `{response, debug}`. */
  function SuccessRecord(req: Request, response: Json): Json {
    Obj(map["response" := response, "debug" := DebugEcho(req)])
  }

  /** Reads the request back out of a record's `debug` echo. */
  function EchoedRequest(record: Json): Option<Request> {
    if record.Obj? && "debug" in record.fields && record.fields["debug"].Obj? then
      var d := record.fields["debug"].fields;
      if "body" in d && d["body"].Obj? && "headers" in d && d["headers"].Obj? &&
         "endpoint" in d && d["endpoint"].Str? && "method" in d && d["method"] in {Str("POST"), Str("PATCH")}
      then
        var h := d["headers"].fields;
        Some(Request(if d["method"] == Str("POST") then Post else Patch, d["endpoint"].s, d["body"].fields,
                     map k | k in h && h[k].Str? :: h[k].s))
      else None
    else None
  }

  /** The debug echo of a success record is exactly the request that was
      sent (method, URL, body and headers), and the response is kept as is. */
  lemma SuccessRecordEchoesRequest(req: Request, response: Json)
    ensures EchoedRequest(SuccessRecord(req, response)) == Some(req)
    ensures SuccessRecord(req, response).fields["response"] == response
  {
    var h := HeadersValue(req.headers).fields;
    var back := map k | k in h && h[k].Str? :: h[k].s;
    assert back == req.headers;
    assert req.httpMethod == Post <==> Str(req.httpMethod.Name()) == Str("POST");
  }

  /** `error.response` as the record's `apiResponse`. */
  function ApiResponse(r: HttpResponse): Json {
    Obj(map["status" := Num(r.status), "statusText" := Str(r.statusText), "data" := r.data, "headers" := r.headers])
  }

  /** The diagnostic record of a failed item: the message and the error
      itself always; the HTTP status, status text, data and headers exactly
      when the error carries a response. */
  function DebugInfo(e: JsError): (v: Json)
    ensures v.Obj?
    ensures v.fields.Keys == {"error", "errorDetails"} + (if e.response.Some? then {"apiResponse"} else {})
    ensures v.fields["error"] == Str(e.message) && v.fields["errorDetails"] == ErrorValue(e)
    ensures e.response.Some? ==>
              var a := v.fields["apiResponse"];
              a.Obj? && a.fields.Keys == {"status", "statusText", "data", "headers"} &&
              a.fields["status"] == Num(e.response.value.status) &&
              a.fields["statusText"] == Str(e.response.value.statusText) &&
              a.fields["data"] == e.response.value.data && a.fields["headers"] == e.response.value.headers
  {
    var base := map["error" := Str(e.message), "errorDetails" := ErrorValue(e)];
    match e.response
    case None => Obj(base)
    case Some(r) => Obj(base["apiResponse" := ApiResponse(r)])
  }

  /** One item's try block against the requests issued before it. A failure
      is recorded as, and rethrown wrapped around, its diagnostic record. */
  function ItemStep(p: Params, history: seq<Request>, server: Server): (s: Step)
    ensures s.issued == [] <==> p.action == "startCall" && AllWhitespace(p.phoneNumber)
    ensures s.issued != [] ==> Dispatch(p).Ok? && s.issued == [Dispatch(p).value]
    ensures s.issued == [] ==> s.outcome == Failed(DebugInfo(JsError(PhoneRequired, None)), DebugInfo(JsError(PhoneRequired, None)))
    ensures s.outcome.Succeeded? <==> s.issued != [] && server(history, s.issued[0]).Ok?
    ensures s.outcome.Succeeded? ==>
              s.outcome.json == SuccessRecord(s.issued[0], server(history, s.issued[0]).value)
    ensures s.outcome.Failed? && s.issued != [] ==>
              s.outcome.record == s.outcome.cause == DebugInfo(server(history, s.issued[0]).error)
  {
    match Dispatch(p)
    case Fail(e) => Step(Failed(DebugInfo(e), DebugInfo(e)), [])
    case Ok(req) =>
      match server(history, req)
      case Ok(response) => Step(Succeeded(SuccessRecord(req, response)), [req])
      case Fail(e) => Step(Failed(DebugInfo(e), DebugInfo(e)), [req])
  }

  /** `ItemStep` against a fixed server, as the loop applies it to each item. */
  function Steps(server: Server): (Params, seq<Request>) -> Step {
    (p, history) => ItemStep(p, history, server)
  }

  /** The `switch (action)` of one item: the request's endpoint, method and
      body start from their defaults and are set field by field; a blank
      phone number throws before any body field is set. */
  method BuildRequest(p: Params) returns (req: Request, thrown: Option<JsError>)
    ensures thrown.None? ==> Dispatch(p) == Ok(req)
    ensures thrown.Some? ==> Dispatch(p) == Fail(thrown.value)
  {
    thrown := None;
    var endpoint := "";
    var httpMethod := Post;
    var body: map<string, Json> := map[];
    if p.action == "startCall" {
      endpoint := PhoneCallUrl;
      if p.phoneNumber == "" || Trim(p.phoneNumber) == "" {
        thrown := Some(JsError(PhoneRequired, None));
      } else {
        body := body["voicebot" := Str(p.voicebotId)];
        body := body["phone_number" := Str(p.phoneNumber)];
        body := body["room_name" := Str(p.roomName)];
        body := body["call_origin" := Str("outbound")];
        body := body["call_status" := Str("ringing")];
      }
    } else if p.action == "sendAudioText" {
      endpoint := WebCallUrl;
      body := body["voicebot" := Str(p.voicebotId)];
      body := body["room_name" := Str(p.roomName)];
      body := body["call_origin" := Str("test-call")];
      body := body["caller_id" := Str(WebUser)];
      body := body["caller_name" := Str(WebUser)];
      if p.inputType == "text" {
        body := body["text" := Str(p.textInput)];
      } else {
        body := body["audio" := Str(p.audioInput)];
      }
    } else if p.action == "endCall" {
      endpoint := PhoneCallUrl + p.roomName + "/";
      httpMethod := Patch;
      body := body["call_status" := Str("completed")];
    }
    req := Request(httpMethod, endpoint, body, JsonHeaders);
  }

  /** The catch block's diagnostic record: message and error first, then
      `apiResponse` added when the error carries a response. */
  method BuildDebugInfo(error: JsError) returns (debugInfo: Json)
    ensures debugInfo == DebugInfo(error)
  {
    debugInfo := Obj(map["error" := Str(error.message), "errorDetails" := ErrorValue(error)]);
    if error.response.Some? {
      debugInfo := Obj(debugInfo.fields["apiResponse" := ApiResponse(error.response.value)]);
    }
  }

  /** `execute`: each item builds its request field by field, issues it, and
      pushes the response with its debug echo; a failure builds the
      diagnostic record and either pushes it (continue-on-fail) or throws. */
  method Execute(items: seq<Params>, continueOnFail: bool, server: Server) returns (run: Run, trace: seq<Request>)
    ensures Progress(run, trace) == Fold(items, continueOnFail, Steps(server))
    ensures continueOnFail ==>
              run.Returned? && |run.items| == |items| &&
              forall i :: 0 <= i < |items| ==> run.items[i].pairedItem == i
    ensures !continueOnFail ==>
              (run.Returned? <==> forall i :: 0 <= i < |items| ==> StepAt(items, i, false, Steps(server)).outcome.Succeeded?)
  {
    var returnData: seq<Item> := [];
    trace := [];
    for itemIndex := 0 to |items|
      invariant Fold(items[..itemIndex], continueOnFail, Steps(server)) == Progress(Returned(returnData), trace)
    {
      ghost var before := trace;
      ghost var step := ItemStep(items[itemIndex], before, server);
      FoldSnoc(items, itemIndex, continueOnFail, Steps(server));
      assert StepAt(items, itemIndex, continueOnFail, Steps(server)) == step;
      var req, thrown := BuildRequest(items[itemIndex]);
      if thrown.None? {
        var response := server(trace, req);
        trace := trace + [req];
        match response
        case Ok(v) =>
          returnData := returnData + [Item(SuccessRecord(req, v), itemIndex)];
        case Fail(e) =>
          thrown := Some(e);
      }

      if thrown.Some? {
        var error := thrown.value;
        var debugInfo := BuildDebugInfo(error);
        if continueOnFail {
          returnData := returnData + [Item(debugInfo, itemIndex)];
        } else {
          run := Aborted(itemIndex, debugInfo);
          FoldPrefix(items, itemIndex + 1, continueOnFail, Steps(server));
          FailFastReturnsOnlyIfAllSucceed(items, Steps(server));
          return;
        }
      }
    }
    run := Returned(returnData);
    assert items[..|items|] == items;
    if continueOnFail {
      ContinueOnFailKeepsEveryItem(items, Steps(server));
    } else {
      FailFastReturnsOnlyIfAllSucceed(items, Steps(server));
    }
  }
}
