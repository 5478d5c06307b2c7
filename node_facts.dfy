/** Facts that involve both nodes: two worked batches run through the
    models end to end, and how their error records compare. */
module NodeFacts {
  import opened JsValue
  import opened Http
  import opened ItemLoop
  import Chatbot
  import Voicebot

  /** A server that opens conversation `s1` and answers every other request with `{text: "hello"}`. */
  function HelloServer(): Server {
    (history: seq<Request>, req: Request) =>
      if req.url == Chatbot.ConversationUrl then Ok(Obj(map["id" := Str("s1")]))
      else Ok(Obj(map["text" := Str("hello")]))
  }

  /** One chatbot item without a session: the conversation is created, its
      id becomes the reply's `conversation_id`, and the raw reply is the
      only output, paired with item 0. */
  lemma ChatbotNewSessionExample(continueOnFail: bool)
    ensures var p := Chatbot.Params("bot-1", "hi", "");
            var g := Fold([p], continueOnFail, Chatbot.Steps(HelloServer()));
            g.run == Returned([Item(Obj(map["text" := Str("hello")]), 0)]) &&
            g.trace == [Chatbot.CreateRequest("bot-1"), Chatbot.ReplyRequest(p, Str("s1"))]
  {
  }

  /** A send-text item: POST to the web-call route with the fixed test-call
      fields and the text, and the response comes back with that request
      echoed. */
  lemma VoicebotSendTextExample(continueOnFail: bool)
    ensures var p := Voicebot.Params("sendAudioText", "v1", "", "r1", "text", "hi", "");
            var req := Request(Post, Voicebot.WebCallUrl,
                               map["voicebot" := Str("v1"), "room_name" := Str("r1"),
                                   "call_origin" := Str("test-call"), "caller_id" := Str("unknown_web_user"),
                                   "caller_name" := Str("unknown_web_user"), "text" := Str("hi")],
                               JsonHeaders);
            var g := Fold([p], continueOnFail, Voicebot.Steps(HelloServer()));
            g.trace == [req] &&
            g.run == Returned([Item(Voicebot.SuccessRecord(req, Obj(map["text" := Str("hello")])), 0)])
  {
  }

  /** The chatbot's error record carries the message and the error, as the
      voicebot's diagnostic record does, but never the `apiResponse` summary
      of an HTTP failure. */
  lemma ChatbotErrorRecordOmitsApiResponse(e: JsError)
    ensures Chatbot.ErrorRecord(e).fields == Voicebot.DebugInfo(e).fields - {"apiResponse"}
    ensures "apiResponse" !in Chatbot.ErrorRecord(e).fields
  {
  }
}
