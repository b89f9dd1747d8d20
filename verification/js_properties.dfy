/** Properties of whole runs of the untyped relay session (index.js). */
module JsProperties {
  import opened Wire
  import opened JsRelay

  /**
   * One handler invocation or ready-state change. Logs only grow, only a
   * ready-state change moves the ready state, and only marks are ever queued.
   */
  function Step(r: Relay, e: Event): (r': Relay)
    ensures r.toModel <= r'.toModel && r.toTelephony <= r'.toTelephony
    ensures r'.modelOpen == ReadyAfter(r.modelOpen, [e])
    ensures OnlyResponseParts(r.markQueue) ==> OnlyResponseParts(r'.markQueue)
  {
    match e
    case FromTelephony(f) => TelephonyStep(r, f)
    case FromModel(m) => ModelStep(r, m)
    case ModelReady(isOpen) => ReadyStateStep(r, isOpen)
  }

  /** The handler invocations of `evs`, in arrival order. */
  function Run(r: Relay, evs: seq<Event>): (r': Relay)
    ensures r.toModel <= r'.toModel && r.toTelephony <= r'.toTelephony
    ensures r'.modelOpen == ReadyAfter(r.modelOpen, evs)
    ensures OnlyResponseParts(r.markQueue) ==> OnlyResponseParts(r'.markQueue)
    decreases |evs|
  {
    if evs == [] then r else Run(Step(r, evs[0]), evs[1..])
  }

  // ---------------------------------------------------------------------
  // The acknowledgement queue counts marks sent minus marks acknowledged.

  /**
   * An event that neither interrupts nor installs a falsy stream id (a
   * `start` object whose id is missing or empty).
   */
  predicate Uninterrupted(e: Event) {
    && e != FromModel(SpeechStarted)
    && e != FromTelephony(StartEvent(Some(StartBody(Some("")))))
    && e != FromTelephony(StartEvent(Some(StartBody(None))))
  }

  /**
   * Reference count of unacknowledged marks: one more for every audio
   * delta with a truthy payload, one fewer for every acknowledgement,
   * never below zero.
   */
  function Tally(n: nat, e: Event): nat {
    match e
    case FromModel(AudioDelta(delta, _)) => if Truthy(delta) then n + 1 else n
    case FromTelephony(MarkEvent(_)) => if n > 0 then n - 1 else 0
    case _ => n
  }

  function Outstanding(n: nat, evs: seq<Event>): nat
    decreases |evs|
  {
    if evs == [] then n else Outstanding(Tally(n, evs[0]), evs[1..])
  }

  /**
   * Between interruptions on a stream with a truthy id, the queue length
   * is exactly the reference count of unacknowledged marks.
   */
  lemma {:induction false} QueueMatchesOutstanding(r: Relay, evs: seq<Event>)
    requires Truthy(r.streamSid)
    requires forall i :: 0 <= i < |evs| ==> Uninterrupted(evs[i])
    ensures |Run(r, evs).markQueue| == Outstanding(|r.markQueue|, evs)
    ensures Truthy(Run(r, evs).streamSid)
    decreases |evs|
  {
    if evs != [] {
      var next := Step(r, evs[0]);
      assert |next.markQueue| == Tally(|r.markQueue|, evs[0]) && Truthy(next.streamSid) by {
        match evs[0]
        case FromTelephony(StartEvent(Some(StartBody(Some(sid))))) =>
          assert sid != "" by { assert Uninterrupted(evs[0]); }
        case _ =>
      }
      assert forall i :: 0 <= i < |evs[1..]| ==> Uninterrupted(evs[1..][i]) by {
        forall i | 0 <= i < |evs[1..]| ensures Uninterrupted(evs[1..][i]) {
          assert evs[1..][i] == evs[i + 1];
        }
      }
      QueueMatchesOutstanding(next, evs[1..]);
    }
  }

  // ---------------------------------------------------------------------
  // The truncation point is a non-negative number while every media frame
  // carries a timestamp and the caller clock only moves forward.

  /** A set anchor comes from a defined clock and is not ahead of it. */
  predicate AnchorNotAhead(r: Relay) {
    r.responseStartTimestamp.Some? ==>
      r.latestMediaTimestamp.Some? && r.responseStartTimestamp.value <= r.latestMediaTimestamp.value
  }

  predicate SoundTiming(r: Relay) {
    AnchorNotAhead(r) && TruncatesNonNegative(r.toModel)
  }

  /** A media frame carries a timestamp that does not move the caller clock backwards. */
  predicate ClockForward(r: Relay, e: Event) {
    match e
    case FromTelephony(MediaEvent(Some(MediaBody(_, t)))) =>
      t.Some? && (r.latestMediaTimestamp.Some? ==> t.value >= r.latestMediaTimestamp.value)
    case _ => true
  }

  predicate MonotoneRun(r: Relay, evs: seq<Event>)
    decreases |evs|
  {
    evs == [] || (ClockForward(r, evs[0]) && MonotoneRun(Step(r, evs[0]), evs[1..]))
  }

  lemma SoundTimingStep(r: Relay, e: Event)
    requires SoundTiming(r) && ClockForward(r, e)
    ensures SoundTiming(Step(r, e))
  {
    var r' := Step(r, e);
    forall i | 0 <= i < |r'.toModel| && r'.toModel[i].Truncate?
      ensures r'.toModel[i].audioEndMs.Some? && r'.toModel[i].audioEndMs.value >= 0
    {
      if i < |r.toModel| {
        assert r'.toModel[i] == r.toModel[i];
      }
    }
  }

  lemma {:induction false} ElapsedNeverNegative(r: Relay, evs: seq<Event>)
    requires SoundTiming(r) && MonotoneRun(r, evs)
    ensures SoundTiming(Run(r, evs))
    decreases |evs|
  {
    if evs != [] {
      SoundTimingStep(r, evs[0]);
      ElapsedNeverNegative(Step(r, evs[0]), evs[1..]);
    }
  }

  /**
   * A media object without a timestamp leaves the clock `undefined`; a
   * speech onset then computes NaN and the truncate carries no number.
   */
  lemma UndefinedClockScenario()
    ensures
      var r := Run(ReadyStateStep(Initial(), true), [
        FromTelephony(StartEvent(Some(StartBody(Some("MZ1"))))),
        FromTelephony(MediaEvent(Some(MediaBody("a0", Some(20))))),
        FromModel(AudioDelta(Some("b0"), Some("item_1"))),
        FromTelephony(MediaEvent(Some(MediaBody("a1", None)))),
        FromModel(SpeechStarted)]);
      && r.toModel == [InputAudioAppend("a0"), InputAudioAppend("a1"), Truncate("item_1", 0, None)]
      && r.toTelephony == [MediaOut(Some("MZ1"), "b0"), MarkOut("MZ1", ResponsePart), ClearOut(Some("MZ1"))]
  {
    var evs := [
      FromTelephony(StartEvent(Some(StartBody(Some("MZ1"))))),
      FromTelephony(MediaEvent(Some(MediaBody("a0", Some(20))))),
      FromModel(AudioDelta(Some("b0"), Some("item_1"))),
      FromTelephony(MediaEvent(Some(MediaBody("a1", None)))),
      FromModel(SpeechStarted)];
    var started := Step(ReadyStateStep(Initial(), true), evs[0]);
    var heard := Step(started, evs[1]);
    var answered := Step(heard, evs[2]);
    assert answered.responseStartTimestamp == Some(20) && answered.markQueue == [ResponsePart];
    var unclocked := Step(answered, evs[3]);
    assert unclocked.latestMediaTimestamp == None;
    assert Run(ReadyStateStep(Initial(), true), evs) == Run(started, evs[1..]);
    assert Run(started, evs[1..]) == Run(heard, evs[2..]);
    assert Run(heard, evs[2..]) == Run(answered, evs[3..]);
    assert Run(answered, evs[3..]) == Run(unclocked, evs[4..]);
    assert Run(unclocked, evs[4..]) == Step(unclocked, evs[4]);
  }
}
