# wppweb session coordinator, in Dafny

This project models the session coordinator of the wppweb server
(`server.js`): a Node process that drives one WhatsApp Web session through
whatsapp-web.js and relays its lifecycle to browser observers over socket.io.

The coordinator keeps three module-level variables: `clientStatus`, `qrCodeData`
and the `whatsappClient` slot. The client's event handlers (`qr`, `ready`,
`authenticated`, `auth_failure`, `disconnected`, `loading_screen`, `message`,
`message_create`) update them and broadcast pushes to every observer. The
HTTP routes read or set them: `GET /api/status`, `POST /api/initialize` and
`POST /api/send-message`. A newly connected socket receives a snapshot of the
current state.

Structure:

- `wrappers.dfy` (`Wrappers`): `Option` for JavaScript's `null`/`undefined`, `Result` for a promise that resolves or rejects.
- `js_strings.dfy` (`JsStrings`): JavaScript truthiness of an optional string, and `includes` / `endsWith`, each with a positional partner definition.
- `protocol.dfy` (`Protocol`): the status values, the client events, the socket pushes and the HTTP replies.
- `attribution.dfy` (`Attribution`): group detection, `contactId`, `contactName` and the `message_received` / `message_sent` payloads.
- `recipient.dfy` (`Recipient`): the `@c.us` recipient rule of the send route.
- `session_spec.dfy` (`SessionSpec`): the coordinator as a pure state machine. `Step` gives the effect of one event and `Replay`/`Broadcast` the effect of a run. It also holds the invariant the handlers keep and what an observer following the pushes can conclude.
- `server.dfy` (`Server`): class `Coordinator` holds the three variables as fields and `outbox`, the pushes broadcast so far, in order. Each handler and route is a method that updates them in place. `Dispatch` proves that the handlers together do what `Step` says.

Library outcomes enter as inputs. `qrcode.toDataURL` becomes an `Option<string>` image (`None` when it rejects). `msg.getContact()` becomes an `Option<Contact>` (`None` when it rejects). The client's `sendMessage` becomes a `Result` that holds a message id or an error message.

Behaviour the model keeps exactly as the code has it:

- `authenticated` and `auth_failure` do not clear the stored QR (`QrSurvivesAuthentication`).
- `loading_screen` does not change the status; no `loading` status exists on the server.
- A group id such as `123-group@g.us` does not pass the recipient rule unchanged. It gets `@c.us` appended (`GroupIdGetsContactSuffix`).
- A failed `whatsappClient.initialize()` is only logged. The client slot stays set, so a later initialize answers "already initialized" until a `disconnected` event empties the slot.
- The send route checks for missing fields before it checks the connection. A request that has neither fields nor a connection is answered "missing fields".
- `hasQr` and the resync test use JavaScript truthiness, so an empty QR code counts as no QR.

## Model

| member | source | states |
|---|---|---|
| `Server.Coordinator.constructor` | server.js:32-34 | the process starts with status `disconnected`, no QR, no client and nothing broadcast |
| `Server.Coordinator.Initialize` | server.js:174-181 | when a client exists: answers "already initialized" and changes nothing. Otherwise: creates the client, answers "initialized", and leaves status, QR and broadcasts unchanged |
| `Server.Coordinator.HandleQr` | server.js:50-63 | from any state: stores the code and sets status `qr`. Broadcasts exactly one `qr` push with the raw code and the image, or a null image when rendering failed. The client slot is kept |
| `Server.Coordinator.HandleReady` | server.js:65-71 | status becomes `ready` and the QR is cleared. Broadcasts `ready`, then `status{ready}` |
| `Server.Coordinator.HandleAuthenticated` | server.js:73-78 | status becomes `authenticated` and the QR is kept. Broadcasts `authenticated`, then `status{authenticated}` |
| `Server.Coordinator.HandleAuthFailure` | server.js:80-85 | status becomes `auth_failure` and the QR is kept. Broadcasts `auth_failure{message}`, then `status{auth_failure}` |
| `Server.Coordinator.HandleDisconnected` | server.js:87-94 | status becomes `disconnected`, the QR is cleared and the client slot is emptied. Broadcasts `disconnected{reason}`, then `status{disconnected}` |
| `Server.Coordinator.HandleLoadingScreen` | server.js:96-99 | state unchanged; broadcasts only `loading{percent, message}` |
| `Server.Coordinator.HandleMessage` | server.js:101-131 | state unchanged. Broadcasts one `message_received` push attributed to its sender |
| `Server.Coordinator.HandleMessageCreate` | server.js:133-160 | state unchanged. Broadcasts one `message_sent` push for a message this account sent, and nothing for any other |
| `Server.Coordinator.Dispatch` | server.js:50-160 | every client event, delivered to its handler, gives the new state and the broadcasts of the state machine `Step`. Every handler keeps the coherence invariant |
| `Server.Coordinator.QueryStatus` | server.js:167-172 | replies with the current status. `hasQr` is true exactly when a non-empty QR is stored, so never while status is `ready` or `disconnected`. Nothing is modified |
| `Server.Coordinator.Resync` | server.js:217-228 | a new socket first receives `status{current}`. It then receives a `qr` push only when a QR is stored and status is `qr`, so never when status is `ready` |
| `Server.Coordinator.SendMessage` | server.js:183-215 | rejections come in a fixed order. First, an empty or missing number or text gives 400 "required". Next, an absent client or a status other than `ready` gives 400 "not connected". With both fields present, a client and status `ready`, the client is called with the normalised chat id and the text; it is called exactly when the reply is not a 400. The reply then carries the new message id, or a 500 with the error's details |
| `Server.FreshSessionScenario` | server.js:167-181 | fresh process: status is `disconnected` with no QR. Initialize creates the client. After a QR is issued, status is `qr` with a QR, and exactly that `qr` push was broadcast |
| `Server.InitializeScenario` | server.js:36-39 | a second initialize reports "already initialized". After a disconnection, initialize creates a client again |
| `SessionSpec.Step` | server.js:50-99 | no event creates a client. The message hooks and `loading_screen` leave the state unchanged. Only the `qr` event stores a QR. Every lifecycle event broadcasts something. Coherence is preserved |
| `SessionSpec.ResyncPushes` | server.js:220-228 | the snapshot starts with the status and has one push, or two when it carries the QR. It holds a `qr` push exactly when a non-empty QR is stored and status is `qr`, and that push carries the stored code. It never holds one when status is `ready` |
| `SessionSpec.StepTracked` | server.js:65-99 | an observer that knew the old status knows the new one after the pushes of any single event |
| `SessionSpec.ReplayCoherent` | server.js:50-94 | after every run of events, `ready` and `disconnected` come with no QR, and `qr` with a stored QR |
| `SessionSpec.ReplayNeverCreatesClient` | server.js:87-94 | client events can only empty the client slot, never fill it |
| `SessionSpec.ReplayIgnoresContent` | server.js:101-160 | the state after a run of events equals the state after its lifecycle events alone |
| `SessionSpec.ObserverTracksStatus` | server.js:50-99 | an observer that takes a `status` push's status and a `qr` push as status `qr` (an idealised observer, not the browser page's rule) and receives every broadcast of a run ends with the session's current status |
| `SessionSpec.LateJoinerTracksStatus` | server.js:217-228 | an observer that joins at any point with any belief gets the resync snapshot and then the broadcasts. It ends with the current status, with no history needed |
| `SessionSpec.QrSurvivesAuthentication` | server.js:73-85 | after a QR is issued and then `authenticated` or `auth_failure`, the QR is still stored |
| `Attribution.ContactId` | server.js:104-106 | the author for a group chat (ends with `@g.us`), the chat id otherwise |
| `Attribution.ContactName` | server.js:108-116 | null when the lookup fails. Otherwise the first truthy of pushname, name and number, or the number as it is when none is truthy. The result is truthy exactly when one of them is |
| `Attribution.ReceivedPush` | server.js:118-130 | `isGroup` holds exactly when the sender ends with `@g.us`. `contactId` is the author in a group chat and the sender otherwise. The message's fields are relayed unchanged |
| `Attribution.SentPushes` | server.js:133-159 | no push unless `fromMe`. Otherwise exactly one, whose `isGroup` comes from the recipient. Its fields are the message's |
| `Recipient.ChatId` | server.js:196 | the id always contains `@c.us` and starts with the given number. It equals the number exactly when the number already contains `@c.us`, and is the number with `@c.us` appended otherwise |
| `Recipient.ChatIdIdempotent` | server.js:196 | normalising twice gives the same id as normalising once |
| `Recipient.PlainNumberGetsContactSuffix` | server.js:196 | a number without `@` is sent to `<number>@c.us` |
| `Recipient.GroupIdGetsContactSuffix` | server.js:196 | a group id `<base>@g.us` is sent to `<base>@g.us@c.us`, not passed through |
| `JsStrings.IncludesIffOccurs` | server.js:196 | the `includes` scan holds exactly when the text occurs at some position |
| `JsStrings.IncludesAppended` | server.js:196 | a string with the suffix appended includes the suffix |
| `JsStrings.EndsWithIffSplit` | server.js:105 | `endsWith` holds exactly when the string is some prefix followed by the suffix |
| `Protocol.SendReply.Code` | server.js:186-213 | the send route answers 200 exactly on success, 400 exactly for missing fields or no connection, and 500 exactly for a delivery failure |
| `Protocol.RejectionTextsDistinct` | server.js:186-192 | the two 400 replies (missing fields, not connected) carry different error texts |
| `Protocol.NameInjective` | server.js:53-89 | each status is sent as a distinct string |

## Left out

- Express setup, CORS, JSON body parsing, static files, the Next.js catch-all route and `server.listen` (server.js:1-30, 236-260). These are HTTP plumbing and process start.
- The internals of the whatsapp-web.js `Client`, `LocalAuth` and the puppeteer options. `whatsappClient.initialize()` is not modelled: its failure is only logged and changes no state.
- `qrcode.toDataURL`, `msg.getContact()` and `sendMessage` are foreign calls. Each is modelled only by its outcome, given as an input.
- Socket.io transport: per-socket delivery failures and the `disconnect` log handler. `outbox` is the single sequence of pushes every connected socket receives.
- Interleaving at `await` points. Each handler runs to completion. The source reads `qrCodeData` again when the resync rendering resolves (server.js:224) and emits the `qr` push only after its own rendering resolves (server.js:56-57). Another event landing in between is not modelled.
- Handlers of an earlier client object that stay registered after `disconnected` and a new initialize. All events are treated as coming from the one session.
- Server.Coordinator.SendMessage: request fields that are not strings (a JSON number for `phoneNumber`) are not modelled. In the source, `.includes` then throws inside the `try` and the route answers 500.
- `console.*` logging, and the browser page `client/src/app/page.tsx`, which is presentation.
