# WhatsApp Cloud API echo webhook, modelled in Dafny

The server is a small Express app. It has two routes on `/webhook`. `GET`
answers the platform's subscription handshake. `POST` receives delivery
envelopes. It echoes the first message of each entry's first change back
to its sender through the Graph API's messages endpoint. A message without
`text`, such as an image or a sticker, is echoed as `"Echo: "`. This project models that
logic as values. Configuration is an explicit `Config.Env` record. Each
route is a function from request to response. The outbound call stops at
the `Outbound.Request` record that would be posted.

Modules:

- `Wrappers`: `Option` (JavaScript `undefined` or a value) and `Result` (a step that may throw).
- `Config`: the environment variables and the `||` fallback chain that picks the handshake secret. An empty string counts as unset.
- `Http`: responses, the runtime's `TypeError` for reading a property of `undefined`, and the error middleware's 500.
- `Handshake`: `GET /webhook`.
- `Envelope`: `POST /webhook`. `Post` specifies the route as a function. `HandlePost` is the route handler's `forEach` loop, proved equal to `Post`.
- `Outbound`: reply synthesis (`"Echo: " + body`) and `sendMessage`'s gate and request construction.
- `Webhook`: one exchange. It pairs the caller's response with one send outcome per handler call.

## Model

| member | source | states |
|---|---|---|
| `Config.VerifyToken` | index.js:13 | VERIFY_TOKEN is the variable when it is set and non-empty, else `your_verify_token`; never empty |
| `Config.WebhookVerifyToken` | index.js:13-15 | the handshake secret is WEBHOOK_VERIFY_TOKEN if non-empty, else VERIFY_TOKEN if non-empty, else `your_verify_token`; never empty |
| `Config.EmptyIsUnset` | index.js:13-15 | for the secret, a variable set to "" behaves exactly like an unset one |
| `Http.InternalError` | index.js:152-158 | an uncaught error becomes a 500 whose JSON body is `{error: "Internal server error", message: <the error's message>}` |
| `Http.ErrorMessageIdentifiesRead` | index.js:152-158 | the 500 body's message names the failing property read: two messages are equal iff the reads are |
| `Handshake.Verify` | index.js:25-31 | 200 iff mode is "subscribe" and the token equals the secret; the body is then the challenge; otherwise exactly 403 "Forbidden" |
| `Handshake.GetWebhook` | index.js:18-32 | the route answers only 200 or 403, and 200 iff mode is "subscribe" and the token equals the effective secret |
| `Handshake.ChallengeVerbatim` | index.js:27 | on success the body is the challenge, character for character |
| `Handshake.MissingOrEmptyTokenRejected` | index.js:19-30 | a missing or empty token gets 403 "Forbidden" under every environment |
| `Handshake.DefaultSecretAccepted` | index.js:13-25 | with neither secret variable usable, a subscribe request passes iff its token is `your_verify_token` |
| `Handshake.WebhookTokenShadowsVerifyToken` | index.js:15-25 | when WEBHOOK_VERIFY_TOKEN is non-empty, a token equal only to a different VERIFY_TOKEN is rejected |
| `Envelope.ReadMessage` | index.js:50-52 | the handler gets the message's sender, and its `text.body` when `text` is present (possibly `undefined`), else "" |
| `Envelope.ProcessEntry` | index.js:44-58 | an entry throws iff `changes` is missing or empty or `changes[0].value` is missing; otherwise it yields a handler call iff `changes[0].value.messages` is non-empty, and the call is for `messages[0].from` |
| `Envelope.DispatchEntries` | index.js:43-65 | the `forEach` over the entries makes at most one handler call per entry |
| `Envelope.Post` | index.js:35-73 | the route answers only 200, 404 or 500; 404 iff `object` is not "whatsapp_business_account", and then with "Not a WhatsApp webhook event" and no call; 200 always with "EVENT_RECEIVED"; 500 always with the JSON error body |
| `Envelope.HandlePost` | index.js:35-73 | the route handler with its loop over `body.entry` computes exactly `Post`: same response, same handler calls in the same order |
| `Envelope.DispatchFailsIff` | index.js:43-65 | the walk over the entries fails iff some entry throws |
| `Envelope.DispatchAppend` | index.js:43-65 | entries are processed in order: after a prefix that does not throw, the rest's calls follow the prefix's calls |
| `Envelope.OneEntry` | index.js:49-58 | a non-throwing entry gives exactly one call if its first change has messages, else none; the call reads `messages[0]` |
| `Envelope.DispatchStopsAtFirstFailure` | index.js:43-44 | when entry k is the first to throw, the walk ends with its error, and the calls made are exactly those for entries 0..k-1 |
| `Envelope.EmptyChangesStopsWalk` | index.js:43-44 | an entry with empty `changes` stops the walk with the error for reading `value`, after the calls of the entries before it |
| `Envelope.HandledComeFromFirstMessages` | index.js:49-57 | every handler call is the first message of the first change of some entry |
| `Envelope.NotWhatsAppIgnored` | index.js:41-72 | a missing or different `object` gives 404 "Not a WhatsApp webhook event" and no handler call, whatever the entries |
| `Envelope.RecognisedAnsweredByAckOrError` | index.js:41-68 | a WhatsApp event gets 200 "EVENT_RECEIVED" iff no entry throws, and otherwise the 500 JSON error |
| `Envelope.FirstFailureAnswered` | index.js:43-58 | when entry k is the first to throw (missing `changes`, empty `changes` or missing `value`), the route answers the 500 carrying that entry's error, after the calls of entries 0..k-1 |
| `Envelope.NoEntriesNoCalls` | index.js:42-68 | a WhatsApp event with a missing or empty `entry` list gets 200 "EVENT_RECEIVED" and makes no call |
| `Envelope.CallsFollowEntryOrder` | index.js:43-68 | after a non-throwing prefix, the route's calls are the prefix's followed by the rest's, and it answers 200 iff the rest does not throw |
| `Envelope.OnlyFirstElementsMatter` | index.js:44-50 | extra changes, extra messages and any statuses do not change an entry's outcome |
| `Envelope.StatusesOnlyNoCall` | index.js:49-64 | a first change with only statuses, or with an empty message list, makes no call |
| `Envelope.MessageBodyDefaults` | index.js:52 | a message without `text` is handled with body ""; one with `text` but no `text.body` is handled with `undefined` |
| `Outbound.EchoText` | index.js:79 | the reply is "Echo: " followed by the interpolated body unchanged: the body reads back from the reply |
| `Outbound.EmptyBodyEcho` | index.js:79 | an empty body is echoed as exactly "Echo: " |
| `Outbound.EndpointUrl` | index.js:104 | the URL is the Graph API v17.0 messages endpoint of exactly the given phone-number id: the id reads back from it |
| `Outbound.SendMessage` | index.js:91-117 | no request when the access token is missing or empty (checked first) or the phone-number id is; otherwise one request to the id's endpoint with `Authorization: Bearer <token>` and payload `{whatsapp, to, text.body}` |
| `Outbound.HandleIncomingMessage` | index.js:76-82 | the handler sends, to the sender, the echo reply, subject to the same configuration gate |
| `Outbound.ReplyEchoesBody` | index.js:76-82 | a sent reply's text reads back as the message body; an `undefined` body reads back as "undefined" |
| `Webhook.Sends` | index.js:57 | the calls run one after another, so there is exactly one send per handler call, the k-th send being the k-th call's |
| `Webhook.PostWebhook` | index.js:35-88 | the caller's answer is the route's own answer; there is exactly one send per handler call; a 404 starts no send |
| `Webhook.AckIndependentOfSends` | index.js:43-68 | the caller's response does not depend on the outbound configuration or on any send's outcome |
| `Webhook.UnconfiguredSendsNothing` | index.js:92-102 | without a usable access token or phone-number id, no request is put on the wire |
| `Webhook.ConfiguredSendsOnePerCall` | index.js:104-117 | with both configured, there is exactly one request per handler call, in order, to the sender, with the echoed text |
| `Webhook.NotWhatsAppSendsNothing` | index.js:69-72 | a body that is not a WhatsApp event gets 404 and sends nothing |
| `Webhook.SingleMessageExample` | index.js:43-58 | the message "hi" from 15551234 is acknowledged 200 and sends exactly one request, to 15551234, with text "Echo: hi" |
| `Webhook.EmptyChangesIsInternalError` | index.js:44 | an entry with empty `changes` after non-throwing entries ends the request with the 500 for reading `value`; the earlier entries' replies are still sent |

## Left out

- The Express app, middleware, routing, body parsing and `app.listen`/`PORT` (index.js:5-10, 161-166). This is transport glue. Query parameters and JSON fields are modelled as absent or as strings. Repeated query parameters (arrays) and JSON values of unexpected types are not modelled.
- `body.object && body.object === ...` is modelled as equality with `"whatsapp_business_account"`. The truthiness test adds nothing for strings.
- A message without `from` is not modelled: the sender is a plain string.
- The axios POST, its response data and its error payload (index.js:119-126). This is a network call into a library. The model stops at the request record, and a send never feeds back into the inbound response.
- The asynchronous, unawaited `handleIncomingMessage` and its try/catch (index.js:57, 76-88). Timing is not modelled. Only the fact that outbound results never affect the inbound response is kept.
- The status update read at index.js:60-64 only feeds a log line. The model states that statuses never cause a call.
- All `console.log`/`console.error` output (logging side channel).
- `/health` and `/` (index.js:130-149): fixed JSON, and `/health` reads the clock.
- `dotenv` and reading the environment. `PHONE_NUMBER_ID` is read at call time in the code. Here it comes from the same `Config.Env` record as the other variables, since the environment does not change while the process runs.
- The text of the 500 body's message follows the V8 wording for reading a property of `undefined`. That wording comes from the JavaScript runtime, not from the code.
