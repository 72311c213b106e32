# bot-rs gateway and webhook core, in Dafny

This project models the protocol core of the `bot-rs` QQ bot client. It covers three parts:

- **The gateway connection.** `WebSocketManager` waits for Hello and then sends either Identify or Resume. Its `select!` loop reads frames, sends heartbeats, watches the acknowledgement deadline and records the session (`SessionState`). Its outer loop reconnects with a jittered delay.
- **The data it exchanges.** This is the `QQBotEvent` frame with its `OpCode` byte encoding, and the outgoing `PostMessageBody` builder.
- **The webhook side.** `qq_bot_event_handler` routes by opcode, `dispatch_event` routes by event type, `validate_webhook` answers the address check, `AppError` maps to an HTTP status, and `ServerBuilder` picks the event handler.

There is one module per source file:

| file | module | source |
|---|---|---|
| common.dfy | `Common` | `Option`, `Result`, `Result<(), E>`, `u8`/`u64`, integer `Display` |
| json.dfy | `Json` | the part of `serde_json::Value` that the code reads or builds |
| event.dfy | `Event` | src/models/event.rs |
| errors.dfy | `Errors` | src/models/error.rs and the error enums it and the connection use |
| state.dfy | `State` | src/services/websocket/state.rs |
| connection.dfy | `Connection` | src/services/websocket/connection.rs |
| message.dfy | `Message` | src/models/message.rs |
| validation.dfy | `Validation` | src/utils/validation.rs |
| server.dfy | `Server` | src/services/server.rs |

How the parts are modelled:

- **Session store.** `SessionState` is a class with a `modifies this` update. Its getters are read-only methods.
- **The connection manager.** `WebSocketManager` is a class. Its fields are the endpoint `wssUrl`, the token, the shared session and `resume_count`.
- **One connection attempt** is an `Attempt` script. It holds whether the transport opened, the messages the read half yields, the order in which the `select!` wakes up (a readable message, a heartbeat tick, the deadline), and the jitter drawn if the attempt fails.
- **The loop methods.** `AwaitHello`, `ConnectAndLoop` and `Start` mirror the source's loops. Each is proved equal to a pure function of the script (`HelloWait`, `Attempted`, `Supervise`), and the lemmas state the protocol's properties about those functions.
- **Sent frames** are appended to a log.
- **Webhook routing** is pure and modelled as functions. The user's event handler and the ed25519 signer are function parameters.

## Model

| member | source | states |
|---|---|---|
| Event.ToByte | src/models/event.rs:21-40 | every opcode converts to one of the ten declared discriminants |
| Event.TryFrom | src/models/event.rs:21-40 | conversion from a byte succeeds exactly for the ten declared discriminants, and the opcode it gives converts back to that byte |
| Event.TryFromToByte | src/models/event.rs:21-40 | round trip: converting an opcode to its byte and back gives the opcode |
| Event.ToByteInjective | src/models/event.rs:24-39 | distinct opcodes have distinct bytes |
| Event.RouteOp | src/services/websocket/connection.rs:187 | a known byte is classified as its own opcode; any other byte is classified as Dispatch |
| Event.RouteOpHello | src/services/websocket/connection.rs:122 | a frame counts as Hello exactly when its op byte is 10 |
| Event.DefaultFrame | src/models/event.rs:4-19 | the default frame has op 0 and no id, payload, sequence or type |
| Event.Encode | src/models/event.rs:4-19 | the encoding always has `op` and `d` (`d` is null when absent); `id`, `s` and `t` appear exactly when present; no other key appears |
| Event.DecodeOptStr | src/models/event.rs:4-19 | an `Option<String>` field reads if and only if it is absent, null or a string; absent or null gives none, a string gives itself |
| Event.DecodeOptU64 | src/models/event.rs:4-19 | an `Option<u64>` field reads if and only if it is absent, null or a `u64`; absent or null gives none, a number gives itself |
| Event.Decode | src/models/event.rs:4-19 | an object decodes if and only if `op` is a `u8` number, `id` and `t` are absent, null or strings, and `s` is absent, null or a `u64`; the frame's op is that number, `id`, `s` and `t` are the values read (absent or null gives none), and `d` is the `d` value, with absent or null giving no payload |
| Event.ParseFrame | src/models/event.rs:4-19 | of the two forms serde accepts, the JSON object is modelled: a non-object does not parse, and an object parses exactly as `Decode` reads its fields |
| Event.DecodeEncode | src/models/event.rs:4-19 | round trip: decoding an encoded frame gives the frame back, except that a null payload reads back as absent |
| Event.EncodeInjective | src/models/event.rs:4-19 | frames whose payload is not null have distinct encodings |
| Errors.ErrorBody | src/models/error.rs:43-45 | the error body is an object whose only key is `error` |
| Errors.IntoResponse | src/models/error.rs:31-48 | the status is 400, 401 or 500; it is 401 exactly for `AuthFailed`; it is 400 exactly for a client `ParseError`, a `ValidationError` or a `SerializationError`; the body holds only `error`, as a string |
| Errors.ValidationErrorBody | src/models/error.rs:38 | a validation error answers 400 with exactly its own message |
| Errors.ServerSideErrorsAre500 | src/models/error.rs:40 | database, network and internal errors answer 500 with the error's full display text |
| Errors.ClientErrorBody | src/models/error.rs:33-36 | a wrapped client error is reported with the client error's own text, without the `Client error: ` prefix |
| State.Updated | src/services/websocket/state.rs:31-37 | a `Some` argument overwrites its field; a `None` argument keeps it |
| State.UpdateNoneNone | src/services/websocket/state.rs:31-37 | `update(None, None)` changes nothing |
| State.UpdatedIdempotent | src/services/websocket/state.rs:31-37 | applying the same update twice equals applying it once |
| State.LastSeqNotMonotone | src/services/websocket/state.rs:35-37 | a smaller sequence number replaces a larger one |
| State.SessionState.constructor | src/services/websocket/state.rs:6-22 | a new session has no session id and no sequence number |
| State.SessionState.Update | src/services/websocket/state.rs:24-40 | the new session is `Updated(old, args)`, and the call always returns `Ok` |
| State.SessionState.GetSessionId | src/services/websocket/state.rs:42-44 | returns the stored session id and changes nothing |
| State.SessionState.GetLastSeq | src/services/websocket/state.rs:46-48 | returns the stored sequence number and changes nothing |
| State.SessionState.Clear | src/services/websocket/connection.rs:198-202 | the corrected InvalidSession effect, used by the main loop: the session becomes empty and not resumable |
| Connection.HeartbeatFrame | src/services/websocket/connection.rs:247-262 | a heartbeat is sent on the wire as `{"op":1,"d":last_seq}`, with `d` null when there is no sequence number |
| Connection.IdentifyFrame | src/services/websocket/connection.rs:272-289 | an Identify is sent as op 2 with `"QQBot "+token`, intents `1<<30` and shard `[0,1]` |
| Connection.ResumeFrame | src/services/websocket/connection.rs:299-324 | a Resume is sent as op 6 with `"QQBot "+token`, the session id and the sequence number |
| Connection.HandshakeFrame | src/services/websocket/connection.rs:142-152 | the handshake frame is a Resume when both session id and sequence number are known, and an Identify otherwise |
| Connection.HandshakeChoice | src/services/websocket/connection.rs:143-152 | the handshake is op 6 if and only if the session is resumable, and op 2 if and only if it is not |
| Connection.HeartbeatWithoutSeqDecodes | src/services/websocket/connection.rs:252-262 | a heartbeat sent before any sequence number decodes with no payload |
| Connection.ParseText | src/services/websocket/connection.rs:171-180 | a text that is not JSON gives no frame; a JSON text gives exactly what `ParseFrame` gives for its document (the object form) |
| Connection.HelloWaitFrom | src/services/websocket/connection.rs:118-140 | the wait skips every message before the first decisive one. It returns the `heartbeat_interval` of the first Hello with an object payload, or that message's error (`MissingHeartbeatInterval`, a serialization error, `ConnectionClosed`, `ConnectionFailed`). If the stream ends first, it returns `ConnectionClosed` |
| Connection.AwaitHello | src/services/websocket/connection.rs:118-140 | the Hello-wait loop returns exactly `HelloWait` of the inbound messages |
| Connection.ReadySessionId | src/services/websocket/connection.rs:334-365 | a session id is taken if and only if the event type is READY and the payload object has a string `session_id`; it is that string |
| Connection.OnFrameSession | src/services/websocket/connection.rs:182-202 | a frame other than InvalidSession that carries a sequence number leaves exactly that number as `last_seq`; the session id changes only for a READY dispatch; an InvalidSession leaves the session empty (corrected branch) |
| Connection.OnFrameExits | src/services/websocket/connection.rs:198-207 | Reconnect ends the attempt with `Ok`; InvalidSession ends it with `Other("Invalid Session")` and a session that is not resumable (corrected branch); no other opcode ends it |
| Connection.ServerHeartbeatAnswered | src/services/websocket/connection.rs:208-211 | a server heartbeat request is answered with the current sequence number, and the ack flag and deadline are left untouched |
| Connection.TickArmsDeadline | src/services/websocket/connection.rs:227-234 | a tick sends a heartbeat, sets `awaiting_ack` and arms the 7 s deadline |
| Connection.DeadlineTimesOutIffAwaiting | src/services/websocket/connection.rs:236-242 | the deadline ends the attempt with `HeartbeatTimeout` if and only if an ack is awaited; otherwise it changes nothing |
| Connection.OnlyAckClears | src/services/websocket/connection.rs:192-197 | while an ack is awaited, a turn clears the flag if and only if it reads a HeartbeatACK, and that also disarms the deadline |
| Connection.StepKeepsTimer | src/services/websocket/connection.rs:162-244 | each turn keeps this invariant: the deadline is armed, at 7 s, exactly while an ack is awaited |
| Connection.RunKeepsTimer | src/services/websocket/connection.rs:162-244 | the whole main loop keeps the same deadline invariant |
| Connection.UnacknowledgedHeartbeatTimesOut | src/services/websocket/connection.rs:228-241 | a tick followed by the deadline, with no ack in between, ends the attempt with `HeartbeatTimeout` |
| Connection.RunAppendsHeartbeats | src/services/websocket/connection.rs:166-244 | the main loop only appends to the sent frames, and everything it appends is a heartbeat |
| Connection.HandshakeComesFirst | src/services/websocket/connection.rs:142-152 | after Hello, the first frame an attempt sends is the Resume when the starting session is resumable, and the Identify otherwise; every later frame is a heartbeat |
| Connection.NoHelloNothingSent | src/services/websocket/connection.rs:112-140 | an attempt that fails before Hello sends nothing, keeps the session, and reports the connect error or the Hello-wait error |
| Connection.DispatchRunTracksLastSeq | src/services/websocket/connection.rs:182-189 | reading a run of sequenced Dispatch frames keeps the loop running and leaves `last_seq` at the last frame's number, whatever order the numbers came in |
| Connection.InvalidSessionExitAsWritten | src/services/websocket/connection.rs:198-202 | the InvalidSession branch as written ends the attempt with `Other("Invalid Session")` |
| Connection.InvalidSessionExit | src/services/websocket/connection.rs:198-202 | the corrected InvalidSession branch ends the attempt with `Other("Invalid Session")` and an empty session |
| Connection.InvalidSessionStillResumes | src/services/websocket/connection.rs:198-202 | counterexample: the branch as written leaves the session `("s", 5)` unchanged and resumable, so the next handshake is again a Resume of that session |
| Connection.InvalidSessionThenIdentifies | src/services/websocket/connection.rs:199-201 | after the corrected branch, the session is not resumable and the next attempt's first frame is an Identify |
| Connection.InvalidSessionScenario | src/services/websocket/connection.rs:143-202 | a resumable session, then Hello, then an op-9 frame: the attempt sends a Resume and ends with the error and an empty session (corrected branch) |
| Connection.ReconnectBackoff | src/services/websocket/connection.rs:82-110 | at 3 or more failures, the delay is 30 s and the count resets to 0. Below 3, the delay lies between 800·(count+1) and 1200·(count+1) ms and is at most 5000 ms, and the count grows by one. The count never exceeds 3 |
| Connection.BackoffCapUnreached | src/services/websocket/connection.rs:100-104 | below three failures, the 5 s cap never applies: the delay is exactly jitter·(count+1) |
| Connection.ConsecutiveFailures | src/services/websocket/connection.rs:82-110 | from a count of 0, the first three failures give non-decreasing delays, the second strictly longer than the first, and the fourth gives a 30 s pause with the count reset |
| Connection.RunNeverPanics | src/services/websocket/connection.rs:165-243 | the main loop itself never panics, over any schedule |
| Connection.ZeroIntervalStopsGateway | src/services/websocket/connection.rs:125-159 | a Hello advertising 0 ms is accepted, the handshake is the only frame sent, the attempt panics in `interval_at`, and no later attempt runs and no delay is slept |
| Connection.CheckedAttempted | src/services/websocket/connection.rs:118-159 | the corrected Hello handling: a 0 ms interval ends the attempt with `MissingHeartbeatInterval` before the handshake; otherwise it is `Attempted`; it never panics |
| Connection.CheckedZeroIntervalRetries | src/services/websocket/connection.rs:55-80 | with the corrected handling, a 0 ms Hello is an ordinary failure: the reconnect delay is slept and the remaining attempts run |
| Connection.ShortIntervalNeverTimesOut | src/services/websocket/connection.rs:226-241 | against a silent server, with every tick re-arming the deadline and an interval under 7 s, the loop never ends in `HeartbeatTimeout` |
| Connection.ArmOnceTimesOut | src/services/websocket/connection.rs:226-241 | with the deadline armed once per unacknowledged heartbeat, the attempt ends in `HeartbeatTimeout` once the ticks pass the 7 s deadline |
| Connection.HelloShortIntervalNeverTimesOut | src/services/websocket/connection.rs:154-241 | from the state after Hello, with an interval under 7 s (the 100 ms of the heartbeat-timeout test), no number of unacknowledged heartbeats ends the attempt |
| Connection.HelloArmOnceTimesOut | src/services/websocket/connection.rs:154-241 | from the state after Hello, with the corrected arming, the attempt times out once the ticks span more than 7 s |
| Connection.SuperviseWithinPolicy | src/services/websocket/connection.rs:55-110 | over any sequence of attempts, `resume_count` stays in 0..3 and every delay is 30 s or between 800 and 3600 ms |
| Connection.WebSocketManager.constructor | src/services/websocket/connection.rs:45-53 | a new manager keeps its URL and token, and starts with a fresh empty session and a count of 0 |
| Connection.WebSocketManager.HandleReconnectDelay | src/services/websocket/connection.rs:82-110 | the delay slept and the new `resume_count` are `ReconnectBackoff` of the old count |
| Connection.WebSocketManager.HeartbeatToSend | src/services/websocket/connection.rs:252-262 | the heartbeat carries the session's current `last_seq` |
| Connection.WebSocketManager.HandleDispatch | src/services/websocket/connection.rs:334-365 | the new session is the old one updated with `ReadySessionId` of the frame; the call always returns `Ok` |
| Connection.WebSocketManager.ReceiveFrame | src/services/websocket/connection.rs:182-215 | handling one parsed frame gives exactly `OnFrame`, and the session ends as `OnFrame` leaves it |
| Connection.WebSocketManager.Turn | src/services/websocket/connection.rs:166-243 | one `select!` turn gives exactly `Step`, and the session ends as `Step` leaves it |
| Connection.WebSocketManager.ConnectAndLoop | src/services/websocket/connection.rs:112-245 | one attempt gives exactly `Attempted` from the session it started with, including the panic after the handshake on a 0 ms interval, and the session ends as that result leaves it |
| Connection.WebSocketManager.Start | src/services/websocket/connection.rs:55-80 | the final session, `resume_count` and the delays slept are `Supervise` of the starting session and count; a panicking attempt ends the run |
| Message.FromMsgType | src/models/message.rs:24-29 | the body has the given type and no optional field set |
| Message.WithContent | src/models/message.rs:31-34 | sets `content` and leaves every other field unchanged |
| Message.WithMsgId | src/models/message.rs:36-39 | sets `msg_id` and leaves every other field unchanged |
| Message.WithEventId | src/models/message.rs:41-44 | sets `event_id` and leaves every other field unchanged |
| Message.WithMsgSeq | src/models/message.rs:46-49 | sets `msg_seq` and leaves every other field unchanged |
| Message.WithIsWakeup | src/models/message.rs:51-54 | sets `is_wakeup` and leaves every other field unchanged |
| Message.Encode | src/models/message.rs:3-21 | the encoding always has `msg_type`; each optional key appears exactly when its field is set; no other key appears |
| Message.EncodeFresh | src/models/message.rs:3-29 | a body straight from `from_msg_type` encodes to `{"msg_type": m}` alone |
| Message.EncodeValues | src/models/message.rs:3-21 | each present key holds exactly its field's value |
| Message.EncodeInjective | src/models/message.rs:3-21 | distinct bodies have distinct encodings |
| Message.LastSetterWins | src/models/message.rs:31-54 | calling the same setter twice keeps the last value |
| Message.SettersCommute | src/models/message.rs:31-54 | setters on different fields commute |
| Message.BuilderReachesEvery | src/models/message.rs:23-55 | every body can be built from `from_msg_type` with the setters of its present fields |
| Validation.ParseValidationRequest | src/utils/validation.rs:7-26 | the payload is accepted if and only if it is an object with string `event_ts` and `plain_token`; the request carries those strings |
| Validation.SigningSeed | src/utils/validation.rs:28-32 | the signing seed is 32 bytes long |
| Validation.AppendKeepsCycle | src/utils/validation.rs:29-31 | appending one more copy of the secret keeps the buffer a whole repetition of it |
| Validation.ExpandSecret | src/utils/validation.rs:28-31 | for a non-empty secret, the loop ends with at least 32 bytes, a whole number of copies of the secret (byte i is secret byte i mod length), and no more copies than needed |
| Validation.DeriveSeed | src/utils/validation.rs:28-32 | the key bytes are exactly `SigningSeed(secret)`: byte i is secret byte i mod length, for i < 32 |
| Validation.LongSecretSeed | src/utils/validation.rs:28-32 | a secret of at least 32 bytes is cut to its first 32 bytes |
| Validation.ShortSecretSeed | src/utils/validation.rs:28-32 | a 16-byte secret is used twice over |
| Validation.SignedMessage | src/utils/validation.rs:37-39 | the signed message is `event_ts` followed by `plain_token` |
| Validation.Validated | src/utils/validation.rs:22-50 | a response exists if and only if the payload parses. It echoes `plain_token`, and its signature is the signer applied to the seed and `event_ts + plain_token` |
| Validation.ValidateWebhook | src/utils/validation.rs:22-50 | the method computes exactly `Validated` |
| Validation.EncodeResponse | src/utils/validation.rs:15-20 | the response is written as an object with exactly `plain_token` and `signature` |
| Validation.TokenEchoed | src/utils/validation.rs:22-50 | for a well-formed request, the response is its token with the signature of `event_ts + plain_token` |
| Server.NewBuilder | src/services/server.rs:41-46 | a new builder keeps the configuration and has no handler |
| Server.WithEventHandler | src/services/server.rs:48-51 | the supplied handler replaces any earlier one |
| Server.ChosenHandler | src/services/server.rs:69-71 | without a supplied handler, `DefaultEventHandler` is used; otherwise the supplied one is |
| Server.HandlerChoice | src/services/server.rs:41-71 | a builder with no handler serves `DefaultEventHandler`; otherwise it serves the last handler supplied |
| Common.DecimalString | src/services/server.rs:124-138 | the opcode text is the decimal digits of the number, with no leading zero, and reads back as that number |
| Server.DecodeGroupMessage | src/services/server.rs:151-152 | an object decodes if and only if it has `author` and `message_scene` objects, string `author.id`, `author.member_openid`, `author.union_openid`, `content`, `group_id`, `group_openid`, `id`, `message_scene.source` and `timestamp`, and a `u8` `message_type`; the message carries exactly those ten values |
| Server.DispatchEvent | src/services/server.rs:142-170 | with no event type: `Ok`, and no handler call. A message goes to the handler exactly when the type is `GROUP_AT_MESSAGE_CREATE` and the payload decodes, and then exactly once. The result is `Ok` if and only if there was no type, or the handler returned `Ok` |
| Server.DispatchErrors | src/services/server.rs:146-166 | an unknown type gives `ValidationError("Unknown event type: t")`; an undecodable payload gives a serialization error; a handler error is wrapped as a client error |
| Server.HandleEvent | src/services/server.rs:93-140 | op 0 replies with the callback ack and spawns the dispatch; op 13 panics if and only if the payload is not a validation request; any other known opcode gives `ValidationError("Unsupported opcode: n")`; an unknown byte gives `ValidationError("Invalid opcode: n")` |
| Server.Respond | src/services/server.rs:93-140 | a reply is status 200 with its body, an error goes through `into_response`, and a panic gives no response |
| Server.DispatchAcknowledged | src/services/server.rs:103-117 | a Dispatch is answered 200 with `{"op":12}`, however the handler later fares |
| Server.OtherOpcodesRejected | src/services/server.rs:124-138 | every opcode other than 0 and 13 is answered 400, with "Unsupported opcode: n" for a known opcode and "Invalid opcode: n" otherwise |
| Server.ValidationAnswered | src/services/server.rs:119-122 | a well-formed address check is answered 200 with the echoed `plain_token` and the signature of `event_ts + plain_token` |

Behaviour of the code worth noting:

- The reconnect delay grows linearly (jitter × (count+1)), not exponentially. Its 5 s cap can never apply.
- `resume_count` is reset to 0 after a clean end (a server Reconnect, src/services/websocket/connection.rs:60) and after the 30 s pause (src/services/websocket/connection.rs:89); never on READY.
- The heartbeat deadline is a fixed 7 s, independent of the advertised interval, and every tick re-arms it. With an interval under 7 s the deadline therefore never fires (see Findings).
- A Hello advertising 0 ms makes `interval_at` panic after the handshake, which ends the gateway task for good (see Findings).
- InvalidSession, as written, does not clear the session. The model records this and then uses the clearing its comment describes (see Findings).
- Sequence numbers are stored as they arrive, not kept monotone.
- No resume URL is recorded.

## Left out

- Transport I/O (`connect_async`, `split`, `read.next`, `write.send`) is an input script and an append-only log of sent frames. Sends never fail, so `SendFailed` and the `?` on each send are not modelled.
- Timers and concurrency (`interval_at`, `sleep`, `tokio::select!`, `tokio::spawn`, the `RwLock`) are not modelled as such: a tick and the deadline are inputs, and which branch `select!` picks is the schedule. The schedule is not tied to the interval read from Hello, although in the source that interval decides whether the deadline can fire at all: with less than 7 s every tick re-arms the deadline before it expires. `Connection.Silent` puts the timers in time for a server that stays silent after Hello, and the Findings state the consequence.
- Connection.WebSocketManager.ReceiveFrame: on InvalidSession it clears the session, the intended behaviour, where the source's `update(None, None)` leaves the session as it is (see Findings); `Connection.OnFrame` does the same.
- Connection.WebSocketManager.Start: the source loops forever; the model runs a given finite list of attempts and stops early when an attempt's schedule runs out while it is still connected. A panic (0 ms interval) also stops it, as it kills the spawned task.
- Connection.WebSocketManager.ConnectAndLoop: a panic is a `Panicked` result; unwinding, and the task's `JoinHandle`, which nothing awaits, are not modelled.
- Randomness: the jitter is an input in 800..1200. The `f64` products in the source evaluate exactly to 800 and 1200, so the model uses integer constants.
- The sleeps themselves are not performed; the delay is returned instead.
- Event.ParseFrame, Connection.ParseText, Validation.ParseValidationRequest, Server.DecodeGroupMessage: serde's derived `Deserialize` also accepts a JSON array holding the fields in declaration order (for example `[null,10,{"heartbeat_interval":41250},null,null]` is a Hello). Only the object form is modelled; these members reject every array.
- JSON text and serde: frames arrive already parsed into a `Json` value, and a text that is not JSON is an input of its own. Numbers are integers only, and serde's error texts are not modelled. `Server.DecodeGroupMessage` uses a fixed cause string.
- Errors.ClientErrorText and Errors.AppErrorText reproduce the display texts but carry no contract.
- ed25519 signing and hex encoding are a function parameter `sign` of the seed and the message.
- The user's event handler and the HTTP client it uses are a function parameter `react`. Its replies, the `on_c2c_message_create` path and src/event_client.rs are not part of this model.
- `ServerBuilder::start` (authentication, the WSS endpoint request, axum serving) is not modelled; only its choice of handler is.
- Validation.ValidateWebhook, Validation.Validated and Server.HandleEvent require a non-empty secret whenever the payload parses, because the source's loop never ends for an empty secret. The non-termination itself is not modelled.
- Validation.ValidateWebhook: the panic of `unwrap` on a malformed payload is modelled as `None`.
- Server.HandleEvent: the resulting panic is `Panicked`.
- The client secret is taken as the bytes of its UTF-8 text.
- Revision mismatches between the source files are resolved as follows. A null or absent `d` is fed to `from_value` as `null`. The READY event type is the string `"READY"`.
- Not part of this model: src/services/websocket.rs (an earlier transport loop), src/services/client.rs, src/main.rs, src/config.rs, the mock-server tests, logging, and the error enums beyond their variants.

## Findings

| source | as written | input that shows it | evidently intended | confidence | as-written member | corrected member |
|---|---|---|---|---|---|---|
| src/services/websocket/connection.rs:198-202 | On InvalidSession the handler calls `update(None, None)`, which by src/services/websocket/state.rs:31-37 changes nothing; the session stays resumable | session `("s", 5)`, then Hello followed by an op-9 frame: the attempt ends with `Other("Invalid Session")` and the next handshake is again `Resume("s", 5)` | clear the session so that the next attempt identifies afresh | not executed | Connection.InvalidSessionStillResumes | Connection.InvalidSessionExit |
| src/services/websocket/connection.rs:125-159 | A Hello with `heartbeat_interval` 0 is accepted; after the handshake `interval_at(now, 0 ms)` panics, and the panic ends the task spawned at src/services/server.rs:65-67, so the gateway never reconnects | Hello `{"op":10,"d":{"heartbeat_interval":0}}` on a connected attempt: the handshake is sent, then no attempt follows | refuse a zero interval as a bad Hello, so that `start` sleeps and retries | not executed | Connection.ZeroIntervalStopsGateway | Connection.CheckedAttempted |
| src/services/websocket/connection.rs:226-241 | Every tick re-arms `ack_timeout` to 7 s, so when the advertised interval is under 7 s the next tick always comes before the deadline; an unanswered heartbeat never times out, contrary to the expectation at src/services/websocket/tests.rs:162 | Hello with `heartbeat_interval` 100 (src/services/websocket/tests.rs:140), then a server that never acknowledges: the loop keeps sending heartbeats and never ends in `HeartbeatTimeout`; the test build's 2 s timeout (src/services/websocket/connection.rs:25-26) is longer than 100 ms as well | arm the deadline only when no acknowledgement is already awaited, so the first unanswered heartbeat times out after 7 s | not executed | Connection.HelloShortIntervalNeverTimesOut | Connection.HelloArmOnceTimesOut |

The main loop uses the corrected InvalidSession branch of the first row. For the other two rows the loop keeps the behaviour as written, since each decides whether the gateway runs at all; the corrected definitions stand beside it with their property proved.
