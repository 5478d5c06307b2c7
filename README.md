# Kipps.AI n8n nodes — request construction and item loops

This project models the `execute` handlers of the two n8n nodes in the
Kipps.AI integration, and proves properties about them:

- **Voicebot** (`KippsAiVoicebot.execute`). For each input item, the `action`
  parameter picks one request:
  - `startCall` POSTs to `speech/phone-call/`, after checking that the phone
    number is not blank.
  - `sendAudioText` POSTs to `speech/web-call/` with either `text` or `audio`.
  - `endCall` PATCHes `speech/phone-call/<room>/`.
  - Any other action keeps the defaults: POST, empty URL, empty body.

  On success the item outputs the response plus a `debug` echo of the request.
  On failure it builds a diagnostic record, which includes `apiResponse` when
  the error carries an HTTP response.
- **Chatbot** (`KippsAiChatbot.execute`). For each input item:
  - When the `session` parameter is empty, the node first creates a
    conversation. The new session is `convRes.id || convRes.data?.id`.
  - It then POSTs the reply request `{message, chatbot_id, conversation_id}`.
  - A successful item outputs the raw reply.
- **The item loop both nodes share.** Items are processed in order. Each
  output is paired with its input's index. A failure is either pushed as an
  error record (continue-on-fail) or rethrown, which abandons the batch.

The authenticated HTTP helper is an oracle `Http.Server`. It maps the requests
issued so far in the execution, plus the next request, to a parsed response or
a thrown error. Each `Execute` method returns the trace of requests it issued.

Modules, one per file:

- `JsValue` (`js_value.dfy`): JavaScript values, truthiness, and property reads.
- `JsString` (`js_string.dfy`): `trim` and the blank test.
- `Http` (`http.dfy`): requests and the server oracle.
- `ItemLoop` (`item_loop.dfy`): the shared per-item loop. `Fold` is its
  specification, and the lemmas about the batch are proved on it.
- `Voicebot` (`voicebot.dfy`) and `Chatbot` (`chatbot.dfy`): the two nodes.
  Each has an imperative `Execute` method proved equal to `Fold` with that
  node's `ItemStep`.
- `NodeFacts` (`node_facts.dfy`): worked batches and a comparison of the two
  nodes' error records.

Behaviour worth noting, as the code has it:

- Without continue-on-fail, the first failing item throws out of `execute`,
  and the outputs gathered so far in `returnData` are discarded. The model
  returns `Aborted(itemIndex, cause)` with no items.
- The voicebot switches on an arbitrary `action` string. An unknown action
  still issues a POST to the empty URL with an empty body.
- The chatbot falls back to `data?.id` whenever `id` is falsy (for example
  `""` or `0`), not only when it is missing. A `null` or `undefined`
  conversation response makes the read of `id` throw a TypeError.
- Any `inputType` other than `"text"`, the empty string included, sends
  `audio`.
- The credential class declares only the Bearer header; it declares no
  test request.

## Model

| member | source | states |
|---|---|---|
| `JsString.TrimStart` | nodes/KippsAiVoicebot/KippsAiVoicebot.node.ts:157 | the leading whitespace that `trim` drops is all whitespace, and the remainder is a suffix that starts with a non-whitespace character |
| `JsString.TrimEnd` | nodes/KippsAiVoicebot/KippsAiVoicebot.node.ts:157 | the trailing whitespace that `trim` drops is all whitespace, and the remainder is a prefix that ends with a non-whitespace character |
| `JsString.BlankIffAllWhitespace` | nodes/KippsAiVoicebot/KippsAiVoicebot.node.ts:157 | `!s \|\| s.trim() === ''` holds exactly when every character of `s` is whitespace, the empty string included |
| `JsValue.Member` | nodes/KippsAiChatbot/KippsAiChatbot.node.ts:78 | `v.key` throws exactly when `v` is null or undefined; otherwise it is the object's own field, or undefined |
| `JsValue.OptionalMember` | nodes/KippsAiChatbot/KippsAiChatbot.node.ts:78 | `v?.key` is undefined on null or undefined, and is the plain read otherwise |
| `Http.HeadersValue` | nodes/KippsAiVoicebot/KippsAiVoicebot.node.ts:194 | a header object keeps exactly the header names, each with its string value |
| `Http.Method.Name` | nodes/KippsAiVoicebot/KippsAiVoicebot.node.ts:150 | the method is echoed as `"POST"` or `"PATCH"`, one name per method |
| `ItemLoop.Fold` | nodes/KippsAiVoicebot/KippsAiVoicebot.node.ts:144-222 | a run that returns has one output per input; an aborted run names an item of the batch |
| `ItemLoop.FoldSnoc` | nodes/KippsAiChatbot/KippsAiChatbot.node.ts:63-103 | processing item `i` appends its requests to the trace, and appends its output, or aborts, after the items before it |
| `ItemLoop.FoldPrefix` | nodes/KippsAiVoicebot/KippsAiVoicebot.node.ts:213-220 | the outputs of a returned run begin with those of every prefix; once a prefix aborts, the later items change neither the run nor the trace |
| `ItemLoop.ContinueOnFailKeepsEveryItem` | nodes/KippsAiVoicebot/KippsAiVoicebot.node.ts:213-217 | with continue-on-fail the run returns one output per input, in input order, with `pairedItem == i`: the item's result, or its error record |
| `ItemLoop.FailFastReturnsOnlyIfAllSucceed` | nodes/KippsAiChatbot/KippsAiChatbot.node.ts:96-101 | without continue-on-fail the run returns if and only if every item succeeds, and then outputs each item's result paired with its index |
| `ItemLoop.FailFastAbortsAtFirstFailure` | nodes/KippsAiVoicebot/KippsAiVoicebot.node.ts:218-220 | an aborted run stopped at the first failing item, rethrows that item's value, and issued no request for any later item |
| `ItemLoop.AbortedPrefix` | nodes/KippsAiChatbot/KippsAiChatbot.node.ts:99-101 | an aborted run equals the run of the prefix that ends at the aborting item, and every item before that one returned |
| `Voicebot.CallUrl` | nodes/KippsAiVoicebot/KippsAiVoicebot.node.ts:187 | the end-call URL is the phone-call route, then the room name, then a final `/` |
| `Voicebot.CallUrlInjective` | nodes/KippsAiVoicebot/KippsAiVoicebot.node.ts:186-187 | different room names give different end-call URLs |
| `Voicebot.WebCallBody` | nodes/KippsAiVoicebot/KippsAiVoicebot.node.ts:170-183 | the web-call body has exactly voicebot, room_name, call_origin `test-call`, caller_id and caller_name `unknown_web_user`, and then `text` if and only if the input type is `"text"`, otherwise `audio`, never both |
| `Voicebot.Dispatch` | nodes/KippsAiVoicebot/KippsAiVoicebot.node.ts:149-192 | the request fails if and only if the action is `startCall` with an all-whitespace phone number. It gives the exact method, URL and body for each action: the phone number is sent untrimmed, the end-call body has only `call_status: completed`, and an unknown action gets POST, empty URL, empty body |
| `Voicebot.BuildRequest` | nodes/KippsAiVoicebot/KippsAiVoicebot.node.ts:149-192 | the switch that sets the body field by field builds the request, or throws the error, that `Dispatch` specifies |
| `Voicebot.SuccessRecordEchoesRequest` | nodes/KippsAiVoicebot/KippsAiVoicebot.node.ts:194-202 | the `debug` part of a success record decodes back to exactly the request sent (method, URL, body, headers), and `response` is the server's response |
| `Voicebot.DebugInfo` | nodes/KippsAiVoicebot/KippsAiVoicebot.node.ts:204-212 | the diagnostic record always has `error` (the message) and `errorDetails` (the error), and has `apiResponse {status, statusText, data, headers}` if and only if the error carries a response |
| `Voicebot.BuildDebugInfo` | nodes/KippsAiVoicebot/KippsAiVoicebot.node.ts:204-212 | building the record and then adding `apiResponse` in place yields the record `DebugInfo` describes |
| `Voicebot.ItemStep` | nodes/KippsAiVoicebot/KippsAiVoicebot.node.ts:145-212 | an item issues no request if and only if it is a blank-phone `startCall`, and otherwise exactly the dispatched request. It succeeds if and only if that request does, with the success record, and a failure is recorded and rethrown as its diagnostic record |
| `Voicebot.Execute` | nodes/KippsAiVoicebot/KippsAiVoicebot.node.ts:140-225 | the loop's outputs, abort and trace are those of `Fold` over `ItemStep`. With continue-on-fail, one output per input with `pairedItem == i`. Without it, the run returns if and only if every item succeeds |
| `Chatbot.CreateRequest` | nodes/KippsAiChatbot/KippsAiChatbot.node.ts:72-77 | conversation creation is a POST to the conversation route whose body is exactly `{chatbot_id: agentId}` |
| `Chatbot.ReplyRequest` | nodes/KippsAiChatbot/KippsAiChatbot.node.ts:81-92 | the reply is a POST to the reply route whose body is exactly `{message, chatbot_id: agentId, conversation_id: session}` |
| `Chatbot.NewSession` | nodes/KippsAiChatbot/KippsAiChatbot.node.ts:78 | the new session is a truthy `id`, and otherwise `data?.id`, which may be undefined. It throws if and only if the response is null or undefined |
| `Chatbot.ReplyStep` | nodes/KippsAiChatbot/KippsAiChatbot.node.ts:87-94 | the reply call is appended to the item's requests, and its response, or its error, is the item's outcome |
| `Chatbot.ItemStep` | nodes/KippsAiChatbot/KippsAiChatbot.node.ts:64-102 | a non-empty session issues exactly one request, the reply, with that session unchanged. An empty session issues the conversation create first, and the reply second if and only if the create succeeded with a non-nullish response, using the new session. The item succeeds if and only if the reply was issued and returned, and then its output is the raw reply. A failed create, the TypeError of a nullish create response, or a failed reply is the error recorded as `{error, errorDetails}` and rethrown |
| `Chatbot.TryItem` | nodes/KippsAiChatbot/KippsAiChatbot.node.ts:66-94 | the try block issues the requests `ItemStep` specifies, in order, and returns the reply or the thrown error |
| `Chatbot.Execute` | nodes/KippsAiChatbot/KippsAiChatbot.node.ts:59-106 | the loop's outputs, abort and trace are those of `Fold` over `ItemStep`. With continue-on-fail, one output per input with `pairedItem == i`. Without it, the run returns if and only if every item succeeds |
| `NodeFacts.ChatbotNewSessionExample` | nodes/KippsAiChatbot/KippsAiChatbot.node.ts:71-94 | an item with no session, whose create returns `{id: "s1"}` and whose reply returns `{text: "hello"}`, issues create then reply with `conversation_id "s1"` and outputs the reply paired with 0 |
| `NodeFacts.VoicebotSendTextExample` | nodes/KippsAiVoicebot/KippsAiVoicebot.node.ts:170-202 | a `sendAudioText` item with input type `text` issues one POST to the web-call route with the exact body and outputs the response with that request echoed |
| `NodeFacts.ChatbotErrorRecordOmitsApiResponse` | nodes/KippsAiChatbot/KippsAiChatbot.node.ts:98 | the chatbot's error record is the voicebot's diagnostic record without `apiResponse` |

## Left out

- The HTTP transport (`httpRequestWithAuthentication`) is not modelled. It
  becomes the `Http.Server` oracle; timeouts, redirects and the transport's
  own error shapes are not modelled.
- `Voicebot.SuccessRecord`: the HTTP helper is assumed not to modify the
  `body` and `headers` objects it receives. The `Server` oracle takes the
  request by value, while the voicebot passes those objects by reference
  and echoes the same objects in `debug`. Anything the host writes into
  them, such as the Bearer `Authorization` header, would appear in the
  real echo but not in the model's.
- The n8n host API is not modelled:
  - `getInputData`, `getNodeParameter`, `continueOnFail`, `getNode`,
    `NodeOperationError` and `prepareOutputData`.
  - Each item's parameters come in already resolved, as a `Params` record.
  - Continue-on-fail is a boolean.
  - A throw is `Aborted(itemIndex, cause)`. For the voicebot, `cause` is the
    diagnostic record the thrown error wraps; for the chatbot, it is the
    error itself. The node context the wrapper adds is not modelled.
  - `prepareOutputData` wraps the output items in a single output branch;
    the model returns the items directly.
  - Errors thrown by parameter resolution are not modelled.
- The node `description` blocks are declarative UI metadata. Their `required`
  flags are enforced by the host, so the model accepts empty ids, room names
  and messages.
- The credential class is not modelled. The Bearer header comes from an
  expression template that the host evaluates (section 2.1 of RFC 6750).
- JSON serialisation of request bodies is not modelled. For example, a
  `conversation_id` that is `undefined` stays in the model's body map, but
  is dropped on the wire.
- JavaScript numbers are modelled as integers, so `NaN` and `-0`
  truthiness are not covered.
- `JsValue.Member`: reads of built-in properties (`length`, `message`, and
  so on) are not modelled. The handlers only read `id` and `data`, and those
  are not built-in on any value.
- JavaScript error objects are modelled as `JsError`: a message and an
  optional HTTP response. Their other properties are not modelled.
- `async`/`await` is not modelled. Calls are awaited one at a time, so the
  trace order is the issue order.
