/**
 * The per-call relay session of the earlier untyped server (index.js). It
 * keeps the same five connection variables as the typed one, with three
 * differences in the guards: an audio delta is forwarded only when its
 * payload is truthy, a `media` or `start` frame is read without checking
 * for the nested field (a missing object throws and the frame is dropped,
 * a missing field is stored as `undefined`), and so the caller clock may
 * hold `undefined`.
 */
module JsRelay {
  import opened Wire

  /**
   * The connection-specific state. `latestMediaTimestamp` is `None` when a
   * media frame without a timestamp stored `undefined` there; an unset
   * stream id or anchor is `None` whether it holds null or `undefined`,
   * which the handlers treat alike.
   */
  datatype Relay = Relay(
    streamSid: Option<string>,
    latestMediaTimestamp: Option<int>,
    lastAssistantItem: Option<string>,
    markQueue: seq<string>,
    responseStartTimestamp: Option<int>,
    modelOpen: bool,
    toModel: seq<ModelOut>,
    toTelephony: seq<TelephonyOut>)

  /** The state of a freshly accepted connection, before the model socket opens. */
  function Initial(): (r: Relay)
    ensures r.streamSid == None && r.latestMediaTimestamp == Some(0) && r.lastAssistantItem == None
    ensures r.markQueue == [] && r.responseStartTimestamp == None && !r.modelOpen
    ensures r.toModel == [] && r.toTelephony == []
  {
    Relay(None, Some(0), None, [], None, false, [], [])
  }

  /** A caller's speech onset interrupts only while marks are pending and a response start is anchored. */
  predicate Interrupts(r: Relay) {
    |r.markQueue| > 0 && r.responseStartTimestamp.Some?
  }

  /**
   * Barge-in. The elapsed time is the caller clock minus the anchor, or NaN
   * (`None`) when the clock holds `undefined`.
   */
  function SpeechStartedStep(r: Relay): (r': Relay)
    ensures !Interrupts(r) ==> r' == r
    ensures Interrupts(r) ==>
      && r'.markQueue == []
      && r'.lastAssistantItem == None
      && r'.responseStartTimestamp == None
    ensures r'.streamSid == r.streamSid && r'.latestMediaTimestamp == r.latestMediaTimestamp
    ensures r'.modelOpen == r.modelOpen
    ensures Interrupts(r) ==> r'.toTelephony == r.toTelephony + [ClearOut(r.streamSid)]
    ensures Interrupts(r) && Truthy(r.lastAssistantItem) ==>
      && |r'.toModel| == |r.toModel| + 1
      && r'.toModel[..|r.toModel|] == r.toModel
      && r'.toModel[|r.toModel|].Truncate?
      && r'.toModel[|r.toModel|].itemId == r.lastAssistantItem.value
      && r'.toModel[|r.toModel|].contentIndex == 0
      && r'.toModel[|r.toModel|].audioEndMs
         == (if r.latestMediaTimestamp.Some?
             then Some(r.latestMediaTimestamp.value - r.responseStartTimestamp.value)
             else None)
    ensures !Truthy(r.lastAssistantItem) ==> r'.toModel == r.toModel
  {
    if Interrupts(r) then
      var elapsed :=
        if r.latestMediaTimestamp.Some?
        then Some(r.latestMediaTimestamp.value - r.responseStartTimestamp.value)
        else None;
      var truncated :=
        if Truthy(r.lastAssistantItem)
        then r.(toModel := r.toModel + [Truncate(r.lastAssistantItem.value, 0, elapsed)])
        else r;
      var cleared := truncated.(toTelephony := truncated.toTelephony + [ClearOut(truncated.streamSid)]);
      cleared.(markQueue := [], lastAssistantItem := None, responseStartTimestamp := None)
    else
      r
  }

  /** Send one playback mark and queue it, only while the stream id is truthy. */
  function MarkStep(r: Relay): (r': Relay)
    ensures Truthy(r.streamSid) ==>
      && r'.markQueue == r.markQueue + [ResponsePart]
      && r'.toTelephony == r.toTelephony + [MarkOut(r.streamSid.value, ResponsePart)]
    ensures !Truthy(r.streamSid) ==> r' == r
    ensures r'.(markQueue := r.markQueue, toTelephony := r.toTelephony) == r
  {
    if Truthy(r.streamSid) then
      r.(toTelephony := r.toTelephony + [MarkOut(r.streamSid.value, ResponsePart)],
         markQueue := r.markQueue + [ResponsePart])
    else
      r
  }

  /**
   * A truthy audio delta: forward it, anchor the response start at the
   * caller clock unless a truthy anchor exists, record a truthy item id,
   * then send a mark.
   */
  function AudioDeltaStep(r: Relay, delta: string, itemId: Option<string>): (r': Relay)
    ensures r'.toTelephony == r.toTelephony + [MediaOut(r.streamSid, delta)]
                              + if Truthy(r.streamSid) then [MarkOut(r.streamSid.value, ResponsePart)] else []
    ensures NumTruthy(r.responseStartTimestamp) ==> r'.responseStartTimestamp == r.responseStartTimestamp
    ensures !NumTruthy(r.responseStartTimestamp) ==> r'.responseStartTimestamp == r.latestMediaTimestamp
    ensures r'.lastAssistantItem == if Truthy(itemId) then itemId else r.lastAssistantItem
    ensures r'.markQueue == r.markQueue + if Truthy(r.streamSid) then [ResponsePart] else []
    ensures r'.streamSid == r.streamSid && r'.latestMediaTimestamp == r.latestMediaTimestamp
    ensures r'.modelOpen == r.modelOpen && r'.toModel == r.toModel
  {
    var forwarded := r.(toTelephony := r.toTelephony + [MediaOut(r.streamSid, delta)]);
    var anchored :=
      if !NumTruthy(forwarded.responseStartTimestamp)
      then forwarded.(responseStartTimestamp := forwarded.latestMediaTimestamp)
      else forwarded;
    var recorded := if Truthy(itemId) then anchored.(lastAssistantItem := itemId) else anchored;
    MarkStep(recorded)
  }

  /**
   * The model-socket message handler: only a delta with a truthy payload is
   * forwarded (an empty one changes nothing), speech onset interrupts, and
   * every other message, including one that does not parse, changes nothing.
   */
  function ModelStep(r: Relay, m: ModelFrame): (r': Relay)
    ensures m.AudioDelta? && Truthy(m.delta) ==> r' == AudioDeltaStep(r, m.delta.value, m.itemId)
    ensures m.SpeechStarted? ==> r' == SpeechStartedStep(r)
    ensures !(m.AudioDelta? && Truthy(m.delta)) && !m.SpeechStarted? ==> r' == r
    ensures r'.streamSid == r.streamSid && r'.latestMediaTimestamp == r.latestMediaTimestamp
    ensures r'.modelOpen == r.modelOpen
  {
    match m
    case AudioDelta(delta, itemId) => if Truthy(delta) then AudioDeltaStep(r, delta.value, itemId) else r
    case SpeechStarted => SpeechStartedStep(r)
    case _ => r
  }

  /**
   * The telephony-socket message handler. A `media` frame stores its
   * timestamp (`undefined` when absent) and, while the model socket is
   * open, forwards the audio; a `start` frame stores its stream id
   * (`undefined` when absent) and begins a new stream epoch; a `mark` frame
   * acknowledges the oldest pending mark. A `media` or `start` frame
   * without its nested object throws before assigning anything, and like an
   * unparseable frame or any other tag changes nothing.
   */
  function TelephonyStep(r: Relay, f: TwilioFrame): (r': Relay)
    ensures r'.toTelephony == r.toTelephony
    ensures r'.lastAssistantItem == r.lastAssistantItem && r'.modelOpen == r.modelOpen
    ensures (f.MediaEvent? && f.media.Some?) ==>
      r' == r.(latestMediaTimestamp := f.media.value.timestamp,
               toModel := r.toModel + if r.modelOpen then [InputAudioAppend(f.media.value.payload)] else [])
    ensures (f.StartEvent? && f.start.Some?) ==>
      r' == r.(streamSid := f.start.value.streamSid, latestMediaTimestamp := Some(0), responseStartTimestamp := None)
    ensures f.MarkEvent? ==>
      && r'.markQueue == (if r.markQueue == [] then [] else r.markQueue[1..])
      && r' == r.(markQueue := r'.markQueue)
    ensures !r.modelOpen ==> r'.toModel == r.toModel
    ensures && !f.MarkEvent?
            && !(f.MediaEvent? && f.media.Some?)
            && !(f.StartEvent? && f.start.Some?)
            ==> r' == r
  {
    match f
    case MediaEvent(Some(MediaBody(payload, timestamp))) =>
      var clocked := r.(latestMediaTimestamp := timestamp);
      if clocked.modelOpen then clocked.(toModel := clocked.toModel + [InputAudioAppend(payload)]) else clocked
    case StartEvent(Some(StartBody(sid))) =>
      r.(streamSid := sid, responseStartTimestamp := None, latestMediaTimestamp := Some(0))
    case MarkEvent(_) =>
      if |r.markQueue| > 0 then r.(markQueue := r.markQueue[1..]) else r
    case _ => r
  }

  /** The model socket's ready state changing between OPEN and any other state. */
  function ReadyStateStep(r: Relay, open: bool): (r': Relay)
    ensures r'.modelOpen == open && r'.(modelOpen := r.modelOpen) == r
  {
    r.(modelOpen := open)
  }

  /** The session's mutable variables, assigned in place by the handlers. */
  class Session {
    var streamSid: Option<string>
    var latestMediaTimestamp: Option<int>
    var lastAssistantItem: Option<string>
    var markQueue: seq<string>
    var responseStartTimestamp: Option<int>
    var modelOpen: bool
    var sentToModel: seq<ModelOut>
    var sentToTelephony: seq<TelephonyOut>

    /** The fields as a `Relay` value. */
    ghost function State(): Relay
      reads this
    {
      Relay(streamSid, latestMediaTimestamp, lastAssistantItem, markQueue,
            responseStartTimestamp, modelOpen, sentToModel, sentToTelephony)
    }

    constructor ()
      ensures State() == Initial()
    {
      streamSid := None;
      latestMediaTimestamp := Some(0);
      lastAssistantItem := None;
      markQueue := [];
      responseStartTimestamp := None;
      modelOpen := false;
      sentToModel := [];
      sentToTelephony := [];
    }

    method SetModelOpen(open: bool)
      modifies this
      ensures State() == ReadyStateStep(old(State()), open)
    {
      modelOpen := open;
    }

    method HandleSpeechStartedEvent()
      modifies this
      ensures State() == SpeechStartedStep(old(State()))
    {
      if |markQueue| > 0 && responseStartTimestamp.Some? {
        var elapsed :=
          if latestMediaTimestamp.Some?
          then Some(latestMediaTimestamp.value - responseStartTimestamp.value)
          else None;
        if Truthy(lastAssistantItem) {
          sentToModel := sentToModel + [Truncate(lastAssistantItem.value, 0, elapsed)];
        }
        sentToTelephony := sentToTelephony + [ClearOut(streamSid)];
        markQueue := [];
        lastAssistantItem := None;
        responseStartTimestamp := None;
      }
    }

    method SendMark()
      modifies this
      ensures State() == MarkStep(old(State()))
    {
      if Truthy(streamSid) {
        sentToTelephony := sentToTelephony + [MarkOut(streamSid.value, ResponsePart)];
        markQueue := markQueue + [ResponsePart];
      }
    }

    method OnModelMessage(m: ModelFrame)
      modifies this
      ensures State() == ModelStep(old(State()), m)
    {
      match m {
        case AudioDelta(delta, itemId) =>
          if Truthy(delta) {
            sentToTelephony := sentToTelephony + [MediaOut(streamSid, delta.value)];
            if !NumTruthy(responseStartTimestamp) {
              responseStartTimestamp := latestMediaTimestamp;
            }
            if Truthy(itemId) {
              lastAssistantItem := itemId;
            }
            SendMark();
          }
        case SpeechStarted =>
          HandleSpeechStartedEvent();
        case _ =>
      }
    }

    method OnTelephonyMessage(f: TwilioFrame)
      modifies this
      ensures State() == TelephonyStep(old(State()), f)
    {
      match f {
        case MediaEvent(Some(MediaBody(payload, timestamp))) =>
          latestMediaTimestamp := timestamp;
          if modelOpen {
            sentToModel := sentToModel + [InputAudioAppend(payload)];
          }
        case StartEvent(Some(StartBody(sid))) =>
          streamSid := sid;
          responseStartTimestamp := None;
          latestMediaTimestamp := Some(0);
        case MarkEvent(_) =>
          if |markQueue| > 0 {
            markQueue := markQueue[1..];
          }
        case _ =>
      }
    }
  }
}
