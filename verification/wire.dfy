/**
 * Frames exchanged by one `/media-stream` relay session: what arrives from
 * the telephony side (Twilio Media Streams) and from the speech model
 * (the real-time model socket), and what the session sends to each.
 *
 * A JSON field that may be absent is an `Option`; a payload that fails to
 * parse is its own variant, so every handler sees a closed set of cases.
 */
module Wire {

  datatype Option<T> = None | Some(value: T)

  /** JavaScript truthiness of a `string | null` value: null and "" are falsy. */
  predicate Truthy(s: Option<string>) {
    s.Some? && s.value != ""
  }

  /** JavaScript truthiness of a `number | null` value: null and 0 are falsy. */
  predicate NumTruthy(n: Option<int>) {
    n.Some? && n.value != 0
  }

  /** The `media` object of a telephony `media` event. */
  datatype MediaBody = MediaBody(payload: string, timestamp: Option<int>)

  /** The `start` object of a telephony `start` event. */
  datatype StartBody = StartBody(streamSid: Option<string>)

  /**
   * A frame received on the telephony socket. `MediaEvent` and `StartEvent`
   * carry their nested object, absent when the frame lacks it; `OtherEvent`
   * stands for every tag the handler does not name (stop, clear, dtmf, ...).
   */
  datatype TwilioFrame =
    | TwilioUnparseable
    | MediaEvent(media: Option<MediaBody>)
    | StartEvent(start: Option<StartBody>)
    | MarkEvent(name: string)
    | OtherEvent

  /**
   * A message received on the model socket. `AudioDelta` carries its
   * `delta` and `item_id` fields, each absent when the message lacks it;
   * `OtherType` stands for every other `type` (session.created, ...).
   */
  datatype ModelFrame =
    | ModelUnparseable
    | AudioDelta(delta: Option<string>, itemId: Option<string>)
    | SpeechStarted
    | SpeechStopped
    | ResponseDone
    | OtherType

  /**
   * A message the session sends to the model. In `Truncate`, `audioEndMs`
   * is `None` when the elapsed time is NaN, which JSON serialisation writes
   * as null.
   */
  datatype ModelOut =
    | InputAudioAppend(audio: string)
    | Truncate(itemId: string, contentIndex: int, audioEndMs: Option<int>)

  /** A frame the session sends to the telephony side. */
  datatype TelephonyOut =
    | MediaOut(streamSid: Option<string>, payload: string)
    | MarkOut(sid: string, name: string)
    | ClearOut(streamSid: Option<string>)

  /**
   * One thing that happens to a session: a frame from either socket, or the
   * model socket's ready state becoming OPEN (`isOpen`) or leaving it.
   */
  datatype Event =
    | FromTelephony(frame: TwilioFrame)
    | FromModel(message: ModelFrame)
    | ModelReady(isOpen: bool)

  /** The model socket's ready state after `evs`, starting from `open`: the last change wins. */
  function ReadyAfter(open: bool, evs: seq<Event>): bool
    decreases |evs|
  {
    if evs == [] then open
    else ReadyAfter(if evs[0].ModelReady? then evs[0].isOpen else open, evs[1..])
  }

  /** The name of every playback mark the session sends and queues. */
  const ResponsePart: string := "responsePart"

  /** Every queued entry is the mark name the session sends. */
  predicate OnlyResponseParts(q: seq<string>) {
    forall i :: 0 <= i < |q| ==> q[i] == ResponsePart
  }

  /** Every truncate sent so far names a defined, non-negative audio end. */
  predicate TruncatesNonNegative(log: seq<ModelOut>) {
    forall i :: 0 <= i < |log| && log[i].Truncate? ==> log[i].audioEndMs.Some? && log[i].audioEndMs.value >= 0
  }
}
