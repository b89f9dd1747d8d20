/**
 * The two versions of the relay session side by side: on every frame that
 * both read the same way they make the same moves, and the frames where
 * their guards differ are exactly an empty audio delta, a media object
 * without a timestamp and a start object without a stream id.
 */
module Versions {
  import opened Wire
  import Ts = TsRelay
  import Js = JsRelay
  import TsRun = TsProperties
  import JsRun = JsProperties

  /** The untyped session's view of a typed session's state: the clock is always defined. */
  function ToJs(r: Ts.Relay): (j: Js.Relay)
    ensures j.latestMediaTimestamp == Some(r.latestMediaTimestamp)
    ensures j.streamSid == r.streamSid && j.lastAssistantItem == r.lastAssistantItem
    ensures j.markQueue == r.markQueue && j.responseStartTimestamp == r.responseStartTimestamp
    ensures j.modelOpen == r.modelOpen && j.toModel == r.toModel && j.toTelephony == r.toTelephony
  {
    Js.Relay(r.streamSid, Some(r.latestMediaTimestamp), r.lastAssistantItem, r.markQueue,
             r.responseStartTimestamp, r.modelOpen, r.toModel, r.toTelephony)
  }

  /** A frame whose fields both versions' guards read alike. */
  predicate ReadAlike(e: Event) {
    match e
    case FromModel(AudioDelta(Some(delta), _)) => delta != ""
    case FromTelephony(MediaEvent(Some(MediaBody(_, timestamp)))) => timestamp.Some?
    case FromTelephony(StartEvent(Some(StartBody(sid)))) => sid.Some?
    case _ => true
  }

  lemma StepsAgree(r: Ts.Relay, e: Event)
    requires ReadAlike(e)
    ensures JsRun.Step(ToJs(r), e) == ToJs(TsRun.Step(r, e))
  {
    match e
    case FromModel(AudioDelta(Some(delta), _)) =>
      assert delta != "";
    case _ =>
  }

  /** On frames read alike, the two versions send the same frames and keep the same state. */
  lemma {:induction false} RunsAgree(r: Ts.Relay, evs: seq<Event>)
    requires forall i :: 0 <= i < |evs| ==> ReadAlike(evs[i])
    ensures JsRun.Run(ToJs(r), evs) == ToJs(TsRun.Run(r, evs))
    decreases |evs|
  {
    if evs != [] {
      StepsAgree(r, evs[0]);
      assert forall i :: 0 <= i < |evs[1..]| ==> ReadAlike(evs[1..][i]) by {
        forall i | 0 <= i < |evs[1..]| ensures ReadAlike(evs[1..][i]) {
          assert evs[1..][i] == evs[i + 1];
        }
      }
      RunsAgree(TsRun.Step(r, evs[0]), evs[1..]);
    }
  }

  /** Both sessions start in corresponding states. */
  lemma InitialStatesAgree()
    ensures ToJs(Ts.Initial()) == Js.Initial()
  {
  }

  /** An empty audio delta is forwarded and marked by the typed version only. */
  lemma EmptyDeltaOnlyForwardedByTs(r: Ts.Relay, itemId: Option<string>)
    ensures Ts.ModelStep(r, AudioDelta(Some(""), itemId)).toTelephony[|r.toTelephony|] == MediaOut(r.streamSid, "")
    ensures Js.ModelStep(ToJs(r), AudioDelta(Some(""), itemId)) == ToJs(r)
  {
  }

  /**
   * A start object without a stream id is ignored by the typed version;
   * the untyped one stores `undefined` as the id and starts a new epoch.
   */
  lemma StartWithoutSidOnlyResetsJs(r: Ts.Relay)
    ensures Ts.TelephonyStep(r, StartEvent(Some(StartBody(None)))) == r
    ensures Js.TelephonyStep(ToJs(r), StartEvent(Some(StartBody(None))))
            == ToJs(r).(streamSid := None, latestMediaTimestamp := Some(0), responseStartTimestamp := None)
  {
  }

  /** A media object without a timestamp is ignored by the typed version; the untyped one forgets the clock. */
  lemma MediaWithoutClockOnlyMovesJs(r: Ts.Relay, payload: string)
    ensures Ts.TelephonyStep(r, MediaEvent(Some(MediaBody(payload, None)))) == r
    ensures Js.TelephonyStep(ToJs(r), MediaEvent(Some(MediaBody(payload, None)))).latestMediaTimestamp == None
  {
  }
}
