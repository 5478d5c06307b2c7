/** The Kipps.AI Chatbot node: per input item, send `message` to the agent
    `agentId` within conversation `session`, creating a conversation first
    when no session is given; the output is the raw reply. */
module Chatbot {
  import opened JsValue
  import opened Http
  import opened ItemLoop

  /** The node parameters of one item, each read with default `''`. */
  datatype Params = Params(agentId: string, message: string, session: string)

  const ConversationUrl: string := "https://backend.kipps.ai/v2/kipps/conversation/"
  const ReplyUrl: string := "https://backend.kipps.ai/v2/kipps/reply/"

  /** The conversation-create request `{chatbot_id: agentId}`. */
  function CreateRequest(agentId: string): (req: Request)
    ensures req.httpMethod == Post && req.url == ConversationUrl && req.headers == JsonHeaders
    ensures req.body.Keys == {"chatbot_id"} && req.body["chatbot_id"] == Str(agentId)
  {
    Request(Post, ConversationUrl, map["chatbot_id" := Str(agentId)], JsonHeaders)
  }

  /** The reply request: the message, the agent and the session, and nothing else. */
  function ReplyRequest(p: Params, session: Json): (req: Request)
    ensures req.httpMethod == Post && req.url == ReplyUrl && req.headers == JsonHeaders
    ensures req.body.Keys == {"message", "chatbot_id", "conversation_id"}
    ensures req.body["message"] == Str(p.message) && req.body["chatbot_id"] == Str(p.agentId)
    ensures req.body["conversation_id"] == session
  {
    Request(Post, ReplyUrl, map["message" := Str(p.message), "chatbot_id" := Str(p.agentId), "conversation_id" := session],
            JsonHeaders)
  }

  /** `convRes.id || convRes.data?.id`: the response's `id` when it is
      truthy, and otherwise `data.id`, which is undefined when there is no
      `data` (or no `data.id`). Reading `id` of a null or undefined response
      throws. */
  function NewSession(convRes: Json): (r: Result<Json, JsError>)
    ensures r.Fail? <==> IsNullish(convRes)
    ensures convRes.Obj? && "id" in convRes.fields && Truthy(convRes.fields["id"]) ==>
              r == Ok(convRes.fields["id"])
    ensures convRes.Obj? && !("id" in convRes.fields && Truthy(convRes.fields["id"])) ==>
              r == Ok(if "data" in convRes.fields then OptionalMember(convRes.fields["data"], "id") else Undefined)
    ensures !convRes.Obj? && !IsNullish(convRes) ==> r == Ok(Undefined)
  {
    match Member(convRes, "id")
    case Fail(e) => Fail(e)
    case Ok(id) =>
      if Truthy(id) then Ok(id)
      else
        match Member(convRes, "data")
        case Fail(e) => Fail(e)
        case Ok(data) => Ok(OptionalMember(data, "id"))
  }

  /** The record `{error: message, errorDetails: error}` of a failed item. */
  function ErrorRecord(e: JsError): Json {
    Obj(map["error" := Str(e.message), "errorDetails" := ErrorValue(e)])
  }

  /** A failure: recorded as its error record, rethrown as the error itself. */
  function Failure(e: JsError): Outcome {
    Failed(ErrorRecord(e), ErrorValue(e))
  }

  /** The outcome of an item whose last call returned `r`: the raw response,
      or the thrown error recorded and rethrown. */
  function Settle(r: Result<Json, JsError>): Outcome {
    match r
    case Ok(response) => Succeeded(response)
    case Fail(e) => Failure(e)
  }

  /** The reply call, after the requests `earlier` of this item. */
  function ReplyStep(p: Params, session: Json, history: seq<Request>, server: Server, earlier: seq<Request>): (s: Step)
    ensures s.issued == earlier + [ReplyRequest(p, session)]
    ensures s.outcome.Succeeded? <==> server(history, ReplyRequest(p, session)).Ok?
    ensures s.outcome.Succeeded? ==> s.outcome.json == server(history, ReplyRequest(p, session)).value
    ensures s.outcome.Failed? ==> s.outcome == Failure(server(history, ReplyRequest(p, session)).error)
  {
    var req := ReplyRequest(p, session);
    match server(history, req)
    case Ok(response) => Step(Succeeded(response), earlier + [req])
    case Fail(e) => Step(Failure(e), earlier + [req])
  }

  /** One item's try block against the requests issued before it. */
  function ItemStep(p: Params, history: seq<Request>, server: Server): (s: Step)
    ensures p.session != "" ==> s.issued == [ReplyRequest(p, Str(p.session))]
    ensures p.session == "" ==> 1 <= |s.issued| <= 2 && s.issued[0] == CreateRequest(p.agentId)
    ensures p.session == "" ==>
              var created := server(history, CreateRequest(p.agentId));
              (|s.issued| == 2 <==> created.Ok? && !IsNullish(created.value)) &&
              (|s.issued| == 2 ==> s.issued[1] == ReplyRequest(p, NewSession(created.value).value))
    ensures s.outcome.Succeeded? <==>
              s.issued[|s.issued| - 1].url == ReplyUrl &&
              server(history + s.issued[..|s.issued| - 1], s.issued[|s.issued| - 1]).Ok?
    ensures s.outcome.Succeeded? ==>
              server(history + s.issued[..|s.issued| - 1], s.issued[|s.issued| - 1]) == Ok(s.outcome.json)
    ensures s.outcome.Failed? ==>
              s.outcome.cause.ErrorValue? && s.outcome.record == ErrorRecord(s.outcome.cause.error)
    ensures p.session != "" ==> s.outcome == Settle(server(history, ReplyRequest(p, Str(p.session))))
    ensures p.session == "" ==>
              var create := CreateRequest(p.agentId);
              var created := server(history, create);
              (created.Fail? ==> s.outcome == Failure(created.error)) &&
              (created.Ok? && IsNullish(created.value) ==> s.outcome == Failure(NewSession(created.value).error)) &&
              (created.Ok? && !IsNullish(created.value) ==>
                 s.outcome == Settle(server(history + [create], ReplyRequest(p, NewSession(created.value).value))))
  {
    if p.session == "" then
      var create := CreateRequest(p.agentId);
      match server(history, create)
      case Fail(e) => Step(Failure(e), [create])
      case Ok(convRes) =>
        match NewSession(convRes)
        case Fail(e) => Step(Failure(e), [create])
        case Ok(session) =>
          var s := ReplyStep(p, session, history + [create], server, [create]);
          assert |s.issued| == 2 && history + s.issued[..1] == history + [create];
          s
    else
      var s := ReplyStep(p, Str(p.session), history, server, []);
      assert |s.issued| == 1 && history + s.issued[..0] == history;
      s
  }

  /** `ItemStep` against a fixed server, as the loop applies it to each item. */
  function Steps(server: Server): (Params, seq<Request>) -> Step {
    (p, history) => ItemStep(p, history, server)
  }

  /** The try block of one item: creates a conversation when the session
      is empty and takes the new session from its response, then sends the
      reply request. Returns what was thrown, if anything, and the requests
      issued so far; the reply itself is the item's outcome. */
  method TryItem(p: Params, trace0: seq<Request>, server: Server) returns (result: Result<Json, JsError>, trace: seq<Request>)
    ensures var step := ItemStep(p, trace0, server);
            trace == trace0 + step.issued &&
            step.outcome == Settle(result)
  {
    trace := trace0;
    var headers := JsonHeaders;
    var thrown: Option<JsError> := None;
    var session := Str(p.session);
    if p.session == "" {
      var create := Request(Post, ConversationUrl, map["chatbot_id" := Str(p.agentId)], headers);
      var created := server(trace, create);
      trace := trace + [create];
      match created
      case Fail(e) =>
        thrown := Some(e);
      case Ok(convRes) =>
        var id := Member(convRes, "id");
        match id
        case Fail(e) =>
          thrown := Some(e);
        case Ok(idValue) =>
          if Truthy(idValue) {
            session := idValue;
          } else {
            session := OptionalMember(Member(convRes, "data").value, "id");
          }
    }

    if thrown.None? {
      var body := map["message" := Str(p.message), "chatbot_id" := Str(p.agentId), "conversation_id" := session];
      var reply := Request(Post, ReplyUrl, body, headers);
      result := server(trace, reply);
      trace := trace + [reply];
    } else {
      result := Fail(thrown.value);
    }
  }

  /** `execute`: each item creates a conversation when its session is empty,
      takes the new session from the response, sends the reply request and
      pushes the raw reply; a failure at either call is pushed as an error
      record (continue-on-fail) or thrown. */
  method Execute(items: seq<Params>, continueOnFail: bool, server: Server) returns (run: Run, trace: seq<Request>)
    ensures Progress(run, trace) == Fold(items, continueOnFail, Steps(server))
    ensures continueOnFail ==>
              run.Returned? && |run.items| == |items| &&
              forall i :: 0 <= i < |items| ==> run.items[i].pairedItem == i
    ensures !continueOnFail ==>
              (run.Returned? <==> forall i :: 0 <= i < |items| ==> StepAt(items, i, false, Steps(server)).outcome.Succeeded?)
  {
    var returnData: seq<Item> := [];
    trace := [];
    for itemIndex := 0 to |items|
      invariant Fold(items[..itemIndex], continueOnFail, Steps(server)) == Progress(Returned(returnData), trace)
    {
      ghost var before := trace;
      ghost var step := ItemStep(items[itemIndex], before, server);
      FoldSnoc(items, itemIndex, continueOnFail, Steps(server));
      assert StepAt(items, itemIndex, continueOnFail, Steps(server)) == step;

      var result;
      result, trace := TryItem(items[itemIndex], trace, server);
      match result
      case Ok(response) =>
        returnData := returnData + [Item(response, itemIndex)];
      case Fail(error) =>
        if continueOnFail {
          returnData := returnData + [Item(ErrorRecord(error), itemIndex)];
        } else {
          run := Aborted(itemIndex, ErrorValue(error));
          FoldPrefix(items, itemIndex + 1, continueOnFail, Steps(server));
          FailFastReturnsOnlyIfAllSucceed(items, Steps(server));
          return;
        }
    }
    run := Returned(returnData);
    assert items[..|items|] == items;
    if continueOnFail {
      ContinueOnFailKeepsEveryItem(items, Steps(server));
    } else {
      FailFastReturnsOnlyIfAllSucceed(items, Steps(server));
    }
  }
}
