/**
 * The per-call relay session of the typed server (src/index.ts): five
 * connection variables, the model-socket state, and what has been sent on
 * either socket.
 *
 * Each handler is a function on a `Relay` snapshot whose contract says
 * what the handler does to every variable and which frames it sends; the
 * `Session` class holds the same variables as mutable fields, and each of
 * its methods is proved to change them exactly as the matching function
 * says.
 */
module TsRelay {
  import opened Wire

  /**
   * The connection-specific state. `toModel` and `toTelephony` are the
   * frames sent so far on the model socket and on the telephony socket;
   * `modelOpen` stands for the model socket's ready state being OPEN.
   */
  datatype Relay = Relay(
    streamSid: Option<string>,
    latestMediaTimestamp: int,
    lastAssistantItem: Option<string>,
    markQueue: seq<string>,
    responseStartTimestamp: Option<int>,
    modelOpen: bool,
    toModel: seq<ModelOut>,
    toTelephony: seq<TelephonyOut>)

  /** The state of a freshly accepted connection, before the model socket opens. */
  function Initial(): (r: Relay)
    ensures r.streamSid == None && r.latestMediaTimestamp == 0 && r.lastAssistantItem == None
    ensures r.markQueue == [] && r.responseStartTimestamp == None && !r.modelOpen
    ensures r.toModel == [] && r.toTelephony == []
  {
    Relay(None, 0, None, [], None, false, [], [])
  }

  /** A caller's speech onset interrupts only while marks are pending and a response start is anchored. */
  predicate Interrupts(r: Relay) {
    |r.markQueue| > 0 && r.responseStartTimestamp.Some?
  }

  /**
   * Barge-in: tell the model how much of its current item the caller
   * heard, tell the telephony side to drop queued audio, and forget the
   * response in flight. Outside `Interrupts` nothing changes and nothing is sent.
   */
  function SpeechStartedStep(r: Relay): (r': Relay)
    ensures !Interrupts(r) ==> r' == r
    ensures Interrupts(r) ==>
      && r'.markQueue == []
      && r'.lastAssistantItem == None
      && r'.responseStartTimestamp == None
    ensures r'.streamSid == r.streamSid && r'.latestMediaTimestamp == r.latestMediaTimestamp
    ensures r'.modelOpen == r.modelOpen
    ensures Interrupts(r) ==> r'.toTelephony == r.toTelephony + [ClearOut(r.streamSid)]
    ensures Interrupts(r) && Truthy(r.lastAssistantItem) ==>
      r'.toModel == r.toModel + [Truncate(r.lastAssistantItem.value, 0,
                                          Some(r.latestMediaTimestamp - r.responseStartTimestamp.value))]
    ensures !Truthy(r.lastAssistantItem) ==> r'.toModel == r.toModel
  {
    if Interrupts(r) then
      var elapsed := r.latestMediaTimestamp - r.responseStartTimestamp.value;
      var truncated :=
        if Truthy(r.lastAssistantItem)
        then r.(toModel := r.toModel + [Truncate(r.lastAssistantItem.value, 0, Some(elapsed))])
        else r;
      var cleared := truncated.(toTelephony := truncated.toTelephony + [ClearOut(truncated.streamSid)]);
      cleared.(markQueue := [], lastAssistantItem := None, responseStartTimestamp := None)
    else
      r
  }

  /**
   * Send one playback mark and queue it, but only once a truthy stream id
   * is known; otherwise the call is a no-op.
   */
  function MarkStep(r: Relay): (r': Relay)
    ensures Truthy(r.streamSid) ==>
      && r'.markQueue == r.markQueue + [ResponsePart]
      && r'.toTelephony == r.toTelephony + [MarkOut(r.streamSid.value, ResponsePart)]
    ensures !Truthy(r.streamSid) ==> r' == r
    ensures r'.(markQueue := r.markQueue, toTelephony := r.toTelephony) == r
  {
    if Truthy(r.streamSid) then
      r.(toTelephony := r.toTelephony + [MarkOut(r.streamSid.value, ResponsePart)],
         markQueue := r.markQueue + [ResponsePart])
    else
      r
  }

  /**
   * An audio delta from the model: forward it as a media frame, anchor the
   * response start unless a truthy anchor exists, record a truthy item id,
   * then send a mark.
   */
  function AudioDeltaStep(r: Relay, delta: string, itemId: Option<string>): (r': Relay)
    ensures r'.toTelephony == r.toTelephony + [MediaOut(r.streamSid, delta)]
                              + if Truthy(r.streamSid) then [MarkOut(r.streamSid.value, ResponsePart)] else []
    ensures NumTruthy(r.responseStartTimestamp) ==> r'.responseStartTimestamp == r.responseStartTimestamp
    ensures !NumTruthy(r.responseStartTimestamp) ==> r'.responseStartTimestamp == Some(r.latestMediaTimestamp)
    ensures r'.lastAssistantItem == if Truthy(itemId) then itemId else r.lastAssistantItem
    ensures r'.markQueue == r.markQueue + if Truthy(r.streamSid) then [ResponsePart] else []
    ensures r'.streamSid == r.streamSid && r'.latestMediaTimestamp == r.latestMediaTimestamp
    ensures r'.modelOpen == r.modelOpen && r'.toModel == r.toModel
  {
    var forwarded := r.(toTelephony := r.toTelephony + [MediaOut(r.streamSid, delta)]);
    var anchored :=
      if !NumTruthy(forwarded.responseStartTimestamp)
      then forwarded.(responseStartTimestamp := Some(forwarded.latestMediaTimestamp))
      else forwarded;
    var recorded := if Truthy(itemId) then anchored.(lastAssistantItem := itemId) else anchored;
    MarkStep(recorded)
  }

  /**
   * The model-socket message handler: a delta whose `delta` field is
   * present is forwarded (even an empty one), speech onset interrupts, and
   * every other message, including one that does not parse, changes nothing.
   */
  function ModelStep(r: Relay, m: ModelFrame): (r': Relay)
    ensures m.AudioDelta? && m.delta.Some? ==> r' == AudioDeltaStep(r, m.delta.value, m.itemId)
    ensures m.SpeechStarted? ==> r' == SpeechStartedStep(r)
    ensures !(m.AudioDelta? && m.delta.Some?) && !m.SpeechStarted? ==> r' == r
    ensures r'.streamSid == r.streamSid && r'.latestMediaTimestamp == r.latestMediaTimestamp
    ensures r'.modelOpen == r.modelOpen
  {
    match m
    case AudioDelta(Some(delta), itemId) => AudioDeltaStep(r, delta, itemId)
    case SpeechStarted => SpeechStartedStep(r)
    case _ => r
  }

  /**
   * The telephony-socket message handler. A `media` frame with a timestamp
   * moves the caller clock and, while the model socket is open, forwards
   * the audio; a `start` frame with a stream id begins a new stream epoch; a
   * `mark` frame acknowledges the oldest pending mark. Anything else,
   * including a frame missing the object it needs or one that does not
   * parse, changes nothing.
   */
  function TelephonyStep(r: Relay, f: TwilioFrame): (r': Relay)
    ensures r'.toTelephony == r.toTelephony
    ensures r'.lastAssistantItem == r.lastAssistantItem && r'.modelOpen == r.modelOpen
    ensures (f.MediaEvent? && f.media.Some? && f.media.value.timestamp.Some?) ==>
      r' == r.(latestMediaTimestamp := f.media.value.timestamp.value,
               toModel := r.toModel + if r.modelOpen then [InputAudioAppend(f.media.value.payload)] else [])
    ensures (f.StartEvent? && f.start.Some? && f.start.value.streamSid.Some?) ==>
      r' == r.(streamSid := f.start.value.streamSid, latestMediaTimestamp := 0, responseStartTimestamp := None)
    ensures f.MarkEvent? ==>
      && r'.markQueue == (if r.markQueue == [] then [] else r.markQueue[1..])
      && r' == r.(markQueue := r'.markQueue)
    ensures !r.modelOpen ==> r'.toModel == r.toModel
    ensures && !f.MarkEvent?
            && !(f.MediaEvent? && f.media.Some? && f.media.value.timestamp.Some?)
            && !(f.StartEvent? && f.start.Some? && f.start.value.streamSid.Some?)
            ==> r' == r
  {
    match f
    case MediaEvent(Some(MediaBody(payload, Some(timestamp)))) =>
      var clocked := r.(latestMediaTimestamp := timestamp);
      if clocked.modelOpen then clocked.(toModel := clocked.toModel + [InputAudioAppend(payload)]) else clocked
    case StartEvent(Some(StartBody(Some(sid)))) =>
      r.(streamSid := Some(sid), responseStartTimestamp := None, latestMediaTimestamp := 0)
    case MarkEvent(_) =>
      if |r.markQueue| > 0 then r.(markQueue := r.markQueue[1..]) else r
    case _ => r
  }

  /** The model socket's ready state changing between OPEN and any other state. */
  function ReadyStateStep(r: Relay, open: bool): (r': Relay)
    ensures r'.modelOpen == open && r'.(modelOpen := r.modelOpen) == r
  {
    r.(modelOpen := open)
  }

  /**
   * The session as the handler closure sees it: the five connection
   * variables are fields that the handlers assign in place, and the two
   * logs record every frame sent.
   */
  class Session {
    var streamSid: Option<string>
    var latestMediaTimestamp: int
    var lastAssistantItem: Option<string>
    var markQueue: seq<string>
    var responseStartTimestamp: Option<int>
    var modelOpen: bool
    var sentToModel: seq<ModelOut>
    var sentToTelephony: seq<TelephonyOut>

    /** The fields as a `Relay` value. */
    ghost function State(): Relay
      reads this
    {
      Relay(streamSid, latestMediaTimestamp, lastAssistantItem, markQueue,
            responseStartTimestamp, modelOpen, sentToModel, sentToTelephony)
    }

    constructor ()
      ensures State() == Initial()
    {
      streamSid := None;
      latestMediaTimestamp := 0;
      lastAssistantItem := None;
      markQueue := [];
      responseStartTimestamp := None;
      modelOpen := false;
      sentToModel := [];
      sentToTelephony := [];
    }

    method SetModelOpen(open: bool)
      modifies this
      ensures State() == ReadyStateStep(old(State()), open)
    {
      modelOpen := open;
    }

    method HandleSpeechStartedEvent()
      modifies this
      ensures State() == SpeechStartedStep(old(State()))
    {
      if |markQueue| > 0 && responseStartTimestamp.Some? {
        var elapsed := latestMediaTimestamp - responseStartTimestamp.value;
        if Truthy(lastAssistantItem) {
          sentToModel := sentToModel + [Truncate(lastAssistantItem.value, 0, Some(elapsed))];
        }
        sentToTelephony := sentToTelephony + [ClearOut(streamSid)];
        markQueue := [];
        lastAssistantItem := None;
        responseStartTimestamp := None;
      }
    }

    method SendMark()
      modifies this
      ensures State() == MarkStep(old(State()))
    {
      if Truthy(streamSid) {
        sentToTelephony := sentToTelephony + [MarkOut(streamSid.value, ResponsePart)];
        markQueue := markQueue + [ResponsePart];
      }
    }

    method OnModelMessage(m: ModelFrame)
      modifies this
      ensures State() == ModelStep(old(State()), m)
    {
      match m {
        case AudioDelta(Some(delta), itemId) =>
          sentToTelephony := sentToTelephony + [MediaOut(streamSid, delta)];
          if !NumTruthy(responseStartTimestamp) {
            responseStartTimestamp := Some(latestMediaTimestamp);
          }
          if Truthy(itemId) {
            lastAssistantItem := itemId;
          }
          SendMark();
        case SpeechStarted =>
          HandleSpeechStartedEvent();
        case _ =>
      }
    }

    method OnTelephonyMessage(f: TwilioFrame)
      modifies this
      ensures State() == TelephonyStep(old(State()), f)
    {
      match f {
        case MediaEvent(Some(MediaBody(payload, Some(timestamp)))) =>
          latestMediaTimestamp := timestamp;
          if modelOpen {
            sentToModel := sentToModel + [InputAudioAppend(payload)];
          }
        case StartEvent(Some(StartBody(Some(sid)))) =>
          streamSid := Some(sid);
          responseStartTimestamp := None;
          latestMediaTimestamp := 0;
        case MarkEvent(_) =>
          if |markQueue| > 0 {
            markQueue := markQueue[1..];
          }
        case _ =>
      }
    }
  }
}
