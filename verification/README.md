# Relay session of the Twilio ↔ OpenAI real-time speech bridge

This project models the per-call relay session that runs inside the
`/media-stream` WebSocket handler of the speech-assistant server. One
session connects a Twilio Media Streams socket (the caller's phone audio) to
an OpenAI real-time model socket. It forwards caller audio to the model and
model audio to the caller. When the caller starts talking over the model,
it performs barge-in: it truncates the model's current item and clears the
audio Twilio has queued.

The session has five mutable variables: `streamSid`,
`latestMediaTimestamp`, `lastAssistantItem`, `markQueue` and
`responseStartTimestampTwilio` (here `responseStartTimestamp`). Two event
handlers change them. Each handler runs to completion before the next one
starts. The server exists in two versions, both modelled:

- `src/index.ts`, the typed server: modules `TsRelay` and `TsProperties`.
  `TsRelay` sends the playback mark through `connection.send`, which is
  the corrected form of the mark send at src/index.ts:355 (see Findings).
  The model handler with that line as written is
  `TsMarkFinding.ModelStepAsWritten`.
- `index.js`, the earlier untyped server: modules `JsRelay` and
  `JsProperties`.

`Versions` relates the two versions. `Wire` holds the frames in both
directions as closed datatypes. A frame that `JSON.parse` rejects is its
own variant, and a nested field that may be absent is an `Option`.

Each handler is a function on a `Relay` snapshot value. The snapshot holds
the five variables, the model socket's ready state (`modelOpen`) and the
two logs of frames sent (`toModel`, `toTelephony`). Each function's
contract states what the handler does to every variable and which frames it
sends. The class `Session` in each module holds the same variables as
fields. Each of its methods is proved to change them exactly as the
matching function says. Run-level lemmas fold the handlers over a sequence
of events (`Run`).

JavaScript truthiness is kept as written:

- `!responseStartTimestampTwilio` treats both null and `0` as unset
  (`NumTruthy`).
- `if (sid)` and `if (lastAssistantItem)` treat both null and `""` as
  false (`Truthy`).
- A response whose first audio arrives at caller time 0 is therefore
  re-anchored by its next delta. `TsProperties.ZeroAnchorScenario` shows
  the resulting under-reported truncation point.

Two facts about the code that a reader might not expect:

- The acknowledgement queue can be non-empty while no response start is
  anchored. The item id can also outlive the anchor. A `start` frame
  clears the anchor but keeps the queue and the item id
  (src/index.ts:434-442, index.js:338-345). A speech onset right after
  such a `start` then interrupts nothing
  (`TsProperties.StartKeepsPendingMarks`).
- No handler reacts to `response.done`, and no tools are configured, so
  that frame changes nothing.

An event is a frame from either socket or a change of the model socket's
ready state (`ModelReady`), so runs interleave the socket opening and
closing with frames.

## Model

| member | source | states |
|---|---|---|
| `TsRelay.Initial` | src/index.ts:244-248 | a new connection has no stream id, clock 0, no item, an empty queue and no anchor |
| `TsRelay.SpeechStartedStep` | src/index.ts:310-345 | no-op unless marks are pending and an anchor is set; otherwise a truncate naming the item with content index 0 and `audio_end_ms` = clock − anchor is sent iff the item id is truthy, a clear with the current stream id is always sent, and the queue, item and anchor are reset while stream id and clock are kept |
| `TsRelay.MarkStep` | src/index.ts:348-358 | the corrected mark send (`connection.send`; as written: `TsMarkFinding.AudioDeltaAsWritten`): with a truthy stream id, exactly one `responsePart` is queued and one mark frame for that stream is sent; otherwise nothing changes |
| `TsRelay.AudioDeltaStep` | src/index.ts:375-397 | with the corrected mark send (as written: `TsMarkFinding.AudioDeltaAsWritten`), the delta is forwarded as a media frame (then a mark iff the stream id is truthy); a truthy anchor is never overwritten, a null or 0 anchor becomes the current clock; the item id is replaced only by a truthy one |
| `TsRelay.ModelStep` | src/index.ts:367-410 | with the corrected mark send (as written: `TsMarkFinding.ModelStepAsWritten`), a delta whose `delta` field is present (even empty) is forwarded, speech onset interrupts, every other or unparseable message changes nothing; the model handler never touches stream id or clock |
| `TsRelay.TelephonyStep` | src/index.ts:413-456 | `media` with a timestamp sets the clock and forwards an append only while the model socket is open; `start` with a stream id sets it, resets the clock to 0 and clears the anchor, keeping queue and item; `mark` drops the front of a non-empty queue; anything else changes nothing; nothing is ever sent to the telephony side |
| `TsRelay.ReadyStateStep` | src/index.ts:425 | the model socket's ready state changes and nothing else does |
| `TsRelay.Session.constructor` | src/index.ts:244-248 | the fields start as `Initial` |
| `TsRelay.Session.SetModelOpen` | src/index.ts:425 | the fields change as `ReadyStateStep` says |
| `TsRelay.Session.HandleSpeechStartedEvent` | src/index.ts:310-345 | the fields change as `SpeechStartedStep` says |
| `TsRelay.Session.SendMark` | src/index.ts:348-358 | the fields change as `MarkStep` says, that is, with the corrected mark send; as written, see `TsMarkFinding.AudioDeltaAsWritten` |
| `TsRelay.Session.OnModelMessage` | src/index.ts:367-410 | the fields change as `ModelStep` says, that is, with the corrected mark send; as written, see `TsMarkFinding.ModelStepAsWritten` |
| `TsRelay.Session.OnTelephonyMessage` | src/index.ts:413-456 | the fields change as `TelephonyStep` says |
| `TsProperties.Step` | src/index.ts:367-456 | one handler invocation or ready-state change only appends to the two logs; only a ready-state change moves the ready state; a queue that holds only `responsePart` entries keeps doing so |
| `TsProperties.Run` | src/index.ts:367-456 | the same for any sequence of events: the logs only grow, the ready state is the last one the sequence sets (`ReadyAfter`), and only marks are queued |
| `TsProperties.QueueMatchesOutstanding` | src/index.ts:444-448 | between interruptions on a stream with a truthy id, the queue length equals a reference count: +1 per forwarded delta, −1 per acknowledgement, floored at 0 |
| `TsProperties.ChunksThenAcks` | src/index.ts:444-448 | k forwarded chunks then m acknowledgements leave max(0, queue + k − m) marks pending |
| `TsProperties.ElapsedNeverNegative` | src/index.ts:311-312 | while media timestamps never move the clock backwards, the anchor stays at or behind the clock, so every truncate sent carries `audio_end_ms` ≥ 0 |
| `TsProperties.TimingScenario` | src/index.ts:312-323 | chunks at 0, 20, 40 ms with the first delta at 20 ms and speech at 40 ms send a truncate with `audio_end_ms` = 20, one clear, and leave the queue, item and anchor reset |
| `TsProperties.ZeroAnchorScenario` | src/index.ts:384-385 | a response first anchored at clock 0 is re-anchored by its next delta, and the truncate reports 20 ms where 40 ms were played |
| `TsProperties.AudioBeforeOpenIsDropped` | src/index.ts:418-431 | caller audio that arrives before the model socket opens moves the clock but is dropped; the same frame after the socket opens is forwarded |
| `TsProperties.StartKeepsPendingMarks` | src/index.ts:434-442 | a `start` keeps pending marks and the item id but clears the anchor, so an immediate speech onset is a no-op |
| `TsMarkFinding.AudioDeltaAsWritten` | src/index.ts:355-356 | with the mark send as written, the delta is still forwarded, anchored and recorded, but the queue never grows and no mark is sent |
| `TsMarkFinding.ModelStepAsWritten` | src/index.ts:367-410 | the model handler as written differs from the intended one only in the delta branch |
| `TsMarkFinding.AsWrittenNeverInterrupts` | src/index.ts:355-356 | as written, from a state with nothing pending, no run ever queues a mark or sends a truncate, clear or mark |
| `TsMarkFinding.DeltaArmsInterruption` | src/index.ts:348-358 | intended: on a stream with a truthy id a forwarded delta leaves the session interruptible, and the next speech onset sends a clear for that stream |
| `TsMarkFinding.BargeInContrast` | src/index.ts:355 | start, one delta, speech onset: the intended handler sends media, mark and clear, the written one only media |
| `JsRelay.Initial` | index.js:150-154 | a new connection has no stream id, clock 0, no item, an empty queue and no anchor |
| `JsRelay.SpeechStartedStep` | index.js:216-251 | no-op unless marks are pending and an anchor is set; otherwise a truncate with content index 0 and `audio_end_ms` = clock − anchor (NaN, written as null, when the clock is undefined) is sent iff the item id is truthy, a clear is always sent, and queue, item and anchor are reset |
| `JsRelay.MarkStep` | index.js:254-264 | the queue grows by exactly one `responsePart` and one mark frame is sent iff the stream id is truthy; otherwise nothing changes |
| `JsRelay.AudioDeltaStep` | index.js:281-303 | the delta is forwarded; a null or 0 anchor becomes the clock (possibly undefined), a truthy one is kept; only a truthy item id is recorded; then a mark iff the stream id is truthy |
| `JsRelay.ModelStep` | index.js:273-316 | only a delta with a truthy payload is forwarded, so an empty or missing delta changes nothing; speech onset interrupts; every other message changes nothing |
| `JsRelay.TelephonyStep` | index.js:319-358 | `media` stores its timestamp (undefined when absent) and forwards an append only while the model socket is open; `start` stores its stream id, resets clock to 0 and anchor to null, keeping queue and item; `mark` shifts only a non-empty queue; a frame missing its `media`/`start` object, an unparseable frame or another tag changes nothing |
| `JsRelay.ReadyStateStep` | index.js:330 | the model socket's ready state changes and nothing else does |
| `JsRelay.Session.constructor` | index.js:150-154 | the fields start as `Initial` |
| `JsRelay.Session.SetModelOpen` | index.js:330 | the fields change as `ReadyStateStep` says |
| `JsRelay.Session.HandleSpeechStartedEvent` | index.js:216-251 | the fields change as `SpeechStartedStep` says |
| `JsRelay.Session.SendMark` | index.js:254-264 | the fields change as `MarkStep` says |
| `JsRelay.Session.OnModelMessage` | index.js:273-316 | the fields change as `ModelStep` says |
| `JsRelay.Session.OnTelephonyMessage` | index.js:319-358 | the fields change as `TelephonyStep` says |
| `JsProperties.Step` | index.js:273-358 | one handler invocation or ready-state change only appends to the logs; only a ready-state change moves the ready state; a queue of `responsePart` entries stays one |
| `JsProperties.Run` | index.js:273-358 | the same for any sequence of events, with the ready state the last one the sequence sets (`ReadyAfter`) |
| `JsProperties.QueueMatchesOutstanding` | index.js:346-350 | between interruptions on a stream with a truthy id, the queue length equals the reference count: +1 per truthy delta, −1 per acknowledgement, floored at 0 |
| `JsProperties.ElapsedNeverNegative` | index.js:217-218 | while every media object carries a timestamp that does not move the clock backwards, every truncate carries a number ≥ 0 |
| `JsProperties.UndefinedClockScenario` | index.js:325 | a media object without a timestamp makes the clock undefined, and the next interruption sends a truncate without a number |
| `Versions.RunsAgree` | index.js:273-358 | on frames both versions read alike, the untyped session ends in the state the typed one ends in, having sent the same frames |
| `Versions.InitialStatesAgree` | index.js:150-154 | both versions start in corresponding states |
| `Versions.EmptyDeltaOnlyForwardedByTs` | index.js:281 | an empty delta is forwarded by the typed version and ignored by the untyped one |
| `Versions.StartWithoutSidOnlyResetsJs` | index.js:338-345 | a start object without a stream id is ignored by the typed version and starts a new epoch with an undefined id in the untyped one |
| `Versions.MediaWithoutClockOnlyMovesJs` | index.js:325 | a media object without a timestamp is ignored by the typed version and makes the untyped clock undefined |

## Left out

- HTTP routes and process bootstrap are not modelled: `/`, `/incoming-call`, `/make-call`, `/recording-completed`, static file serving, `.env` checks with `process.exit`, and `fastify.listen`. They are I/O wrappers.
- Twilio call placement and recording download are foreign calls and file I/O.
- The socket lifecycle is not modelled: WebSocket construction, the open, close and error handlers, and the 100 ms `setTimeout` before configuration. The model socket's ready state is only the `modelOpen` flag, set by a `ModelReady` event or `SetModelOpen`. A run does not require model frames to arrive only while that flag is set. The handlers read the ready state only in the media branch, so this changes nothing they do; a run in which a model frame arrives while the flag is clear stands for no real call. Closing the model socket when the telephony socket closes is not modelled.
- `initializeSession` and `sendInitialConversationItem` are not modelled. They send constant configuration messages with floating-point settings.
- JSON serialisation and logging are not modelled; frames are datatypes. A stream id that is null, one that is `undefined`, and an omitted key are all `None`. So the model does not distinguish a clear frame carrying `"streamSid": null` from one without the key.
- Nested fields are assumed to have the JSON type the source's types declare. A media object's `payload` is a string. Non-object values where an object is expected are not represented; in src/index.ts these would make the `in` test throw. Twilio's string-valued timestamps are not represented either.
- Timestamps are unbounded integers. Floating-point time and NaN arriving from the wire are not modelled. The only NaN modelled is the one index.js computes from an undefined clock.
- Interleaving is not modelled. The two handlers are atomic steps in one sequence, which run-to-completion justifies.
- Send failures on a closed or errored socket are not modelled, apart from the mark send described under Findings.
- The tool-call dispatcher is not modelled because these sources have no implementation of it, only types (src/types.ts:186-224). `response.done` is a frame that changes nothing.

## Findings

| source | as written | input that shows it | evidently intended | confidence | as-written member | corrected member |
|---|---|---|---|---|---|---|
| src/index.ts:355 | `sendMark` sends through `conn.socket.send`. The same connection object is used through `connection.send` at lines 333 and 381 and through `connection.on` at line 413, so it is the WebSocket itself, which has no `socket` property. The `SocketStream { socket: WebSocket }` interface at src/types.ts:10-12 shows where `conn.socket` comes from: a wrapper whose `socket` field holds the WebSocket, while the rest of this handler treats the connection as the WebSocket itself. The call throws before `markQueue.push`, and the model handler's `catch` swallows the error. | `start` with stream id `MZ1`, then one audio delta, then `speech_started`: media is forwarded, but no mark is sent or queued, and no clear or truncate is ever sent | send the mark with `connection.send`, as index.js:261 does, so that the queue grows and barge-in fires | medium, not executed; it rests on the connection being a WebSocket, which the other sends and `connection.on` require; `conn` is typed `any`, so the compiler does not catch the mismatch | `TsMarkFinding.AsWrittenNeverInterrupts` | `TsMarkFinding.DeltaArmsInterruption` |
