/**
 * Properties of whole runs of the typed relay session: a run is the
 * sequence of handler invocations the two sockets cause, each one run to
 * completion before the next.
 */
module TsProperties {
  import opened Wire
  import opened TsRelay

  /**
   * One handler invocation or ready-state change. Logs only grow, only a
   * ready-state change moves the ready state, and only marks are ever queued.
   */
  function Step(r: Relay, e: Event): (r': Relay)
    ensures r.toModel <= r'.toModel && r.toTelephony <= r'.toTelephony
    ensures r'.modelOpen == ReadyAfter(r.modelOpen, [e])
    ensures OnlyResponseParts(r.markQueue) ==> OnlyResponseParts(r'.markQueue)
  {
    match e
    case FromTelephony(f) => TelephonyStep(r, f)
    case FromModel(m) => ModelStep(r, m)
    case ModelReady(isOpen) => ReadyStateStep(r, isOpen)
  }

  /** The handler invocations of `evs`, in arrival order. */
  function Run(r: Relay, evs: seq<Event>): (r': Relay)
    ensures r.toModel <= r'.toModel && r.toTelephony <= r'.toTelephony
    ensures r'.modelOpen == ReadyAfter(r.modelOpen, evs)
    ensures OnlyResponseParts(r.markQueue) ==> OnlyResponseParts(r'.markQueue)
    decreases |evs|
  {
    if evs == [] then r else Run(Step(r, evs[0]), evs[1..])
  }

  // ---------------------------------------------------------------------
  // The acknowledgement queue counts marks sent minus marks acknowledged.

  /**
   * An event that neither interrupts nor installs a falsy stream id: the
   * events between two interruptions on a started stream.
   */
  predicate Uninterrupted(e: Event) {
    && e != FromModel(SpeechStarted)
    && e != FromTelephony(StartEvent(Some(StartBody(Some("")))))
  }

  /**
   * Reference count of unacknowledged marks: one more for every forwarded
   * audio delta, one fewer for every acknowledgement, never below zero.
   */
  function Tally(n: nat, e: Event): nat {
    match e
    case FromModel(AudioDelta(Some(_), _)) => n + 1
    case FromTelephony(MarkEvent(_)) => if n > 0 then n - 1 else 0
    case _ => n
  }

  function Outstanding(n: nat, evs: seq<Event>): nat
    decreases |evs|
  {
    if evs == [] then n else Outstanding(Tally(n, evs[0]), evs[1..])
  }

  /**
   * Between interruptions on a stream with a truthy id, the queue length
   * is exactly the reference count of unacknowledged marks.
   */
  lemma {:induction false} QueueMatchesOutstanding(r: Relay, evs: seq<Event>)
    requires Truthy(r.streamSid)
    requires forall i :: 0 <= i < |evs| ==> Uninterrupted(evs[i])
    ensures |Run(r, evs).markQueue| == Outstanding(|r.markQueue|, evs)
    ensures Truthy(Run(r, evs).streamSid)
    decreases |evs|
  {
    if evs != [] {
      var next := Step(r, evs[0]);
      assert |next.markQueue| == Tally(|r.markQueue|, evs[0]) && Truthy(next.streamSid) by {
        match evs[0]
        case FromTelephony(StartEvent(Some(StartBody(Some(sid))))) =>
          assert sid != "" by { assert Uninterrupted(evs[0]); }
        case _ =>
      }
      assert forall i :: 0 <= i < |evs[1..]| ==> Uninterrupted(evs[1..][i]) by {
        forall i | 0 <= i < |evs[1..]| ensures Uninterrupted(evs[1..][i]) {
          assert evs[1..][i] == evs[i + 1];
        }
      }
      QueueMatchesOutstanding(next, evs[1..]);
    }
  }

  function Repeat(e: Event, k: nat): (s: seq<Event>)
    ensures |s| == k && forall i :: 0 <= i < k ==> s[i] == e
  {
    if k == 0 then [] else [e] + Repeat(e, k - 1)
  }

  lemma {:induction false} OutstandingAppend(n: nat, a: seq<Event>, b: seq<Event>)
    ensures Outstanding(n, a + b) == Outstanding(Outstanding(n, a), b)
    decreases |a|
  {
    if a == [] {
      assert a + b == b;
    } else {
      assert (a + b)[1..] == a[1..] + b;
      OutstandingAppend(Tally(n, a[0]), a[1..], b);
    }
  }

  lemma {:induction false} OutstandingAcks(n: nat, name: string, m: nat)
    ensures Outstanding(n, Repeat(FromTelephony(MarkEvent(name)), m)) == if n >= m then n - m else 0
    decreases m
  {
    if m > 0 {
      var ack := FromTelephony(MarkEvent(name));
      assert Repeat(ack, m)[1..] == Repeat(ack, m - 1);
      OutstandingAcks(if n > 0 then n - 1 else 0, name, m - 1);
    }
  }

  lemma {:induction false} OutstandingDeltas(n: nat, delta: string, item: Option<string>, k: nat)
    ensures Outstanding(n, Repeat(FromModel(AudioDelta(Some(delta), item)), k)) == n + k
    decreases k
  {
    if k > 0 {
      var chunk := FromModel(AudioDelta(Some(delta), item));
      assert Repeat(chunk, k)[1..] == Repeat(chunk, k - 1);
      OutstandingDeltas(n + 1, delta, item, k - 1);
    }
  }

  lemma OutstandingChunksThenAcks(n: nat, delta: string, item: Option<string>, k: nat, name: string, m: nat)
    ensures Outstanding(n, Repeat(FromModel(AudioDelta(Some(delta), item)), k)
                           + Repeat(FromTelephony(MarkEvent(name)), m))
            == if n + k >= m then n + k - m else 0
  {
    OutstandingAppend(n, Repeat(FromModel(AudioDelta(Some(delta), item)), k), Repeat(FromTelephony(MarkEvent(name)), m));
    OutstandingDeltas(n, delta, item, k);
    OutstandingAcks(n + k, name, m);
  }

  /**
   * `k` forwarded audio chunks followed by `m` acknowledgements leave
   * `|q| + k - m` marks pending, and never fewer than zero.
   */
  lemma ChunksThenAcks(r: Relay, delta: string, item: Option<string>, k: nat, name: string, m: nat)
    requires Truthy(r.streamSid)
    ensures |Run(r, Repeat(FromModel(AudioDelta(Some(delta), item)), k)
                  + Repeat(FromTelephony(MarkEvent(name)), m)).markQueue|
            == if |r.markQueue| + k >= m then |r.markQueue| + k - m else 0
  {
    var chunks := Repeat(FromModel(AudioDelta(Some(delta), item)), k);
    var acks := Repeat(FromTelephony(MarkEvent(name)), m);
    var evs := chunks + acks;
    forall i | 0 <= i < |evs| ensures Uninterrupted(evs[i]) {
      if i < k { assert evs[i] == chunks[i]; } else { assert evs[i] == acks[i - k]; }
    }
    QueueMatchesOutstanding(r, evs);
    OutstandingChunksThenAcks(|r.markQueue|, delta, item, k, name, m);
  }

  // ---------------------------------------------------------------------
  // The truncation point is never negative while the caller clock only
  // moves forward within a stream epoch.

  /** The response anchor, when set, is not ahead of the caller clock. */
  predicate AnchorNotAhead(r: Relay) {
    r.responseStartTimestamp.Some? ==> r.responseStartTimestamp.value <= r.latestMediaTimestamp
  }

  predicate SoundTiming(r: Relay) {
    AnchorNotAhead(r) && TruncatesNonNegative(r.toModel)
  }

  /** A media timestamp never moves the caller clock backwards. */
  predicate ClockForward(r: Relay, e: Event) {
    match e
    case FromTelephony(MediaEvent(Some(MediaBody(_, Some(t))))) => t >= r.latestMediaTimestamp
    case _ => true
  }

  predicate MonotoneRun(r: Relay, evs: seq<Event>)
    decreases |evs|
  {
    evs == [] || (ClockForward(r, evs[0]) && MonotoneRun(Step(r, evs[0]), evs[1..]))
  }

  lemma SoundTimingStep(r: Relay, e: Event)
    requires SoundTiming(r) && ClockForward(r, e)
    ensures SoundTiming(Step(r, e))
  {
    var r' := Step(r, e);
    forall i | 0 <= i < |r'.toModel| && r'.toModel[i].Truncate?
      ensures r'.toModel[i].audioEndMs.Some? && r'.toModel[i].audioEndMs.value >= 0
    {
      if i < |r.toModel| {
        assert r'.toModel[i] == r.toModel[i];
      }
    }
  }

  /** Within monotone runs the anchor stays behind the clock, so every truncate point is at least 0. */
  lemma {:induction false} ElapsedNeverNegative(r: Relay, evs: seq<Event>)
    requires SoundTiming(r) && MonotoneRun(r, evs)
    ensures SoundTiming(Run(r, evs))
    decreases |evs|
  {
    if evs != [] {
      SoundTimingStep(r, evs[0]);
      ElapsedNeverNegative(Step(r, evs[0]), evs[1..]);
    }
  }

  // ---------------------------------------------------------------------
  // Scenarios.

  /**
   * Caller chunks at 0, 20 and 40 ms, the first model audio forwarded at
   * 20 ms, speech onset at 40 ms: the model is told the caller heard 20 ms.
   */
  lemma TimingScenario()
    ensures
      var ready := ReadyStateStep(Initial(), true);
      var r := Run(ready, [
        FromTelephony(StartEvent(Some(StartBody(Some("MZ1"))))),
        FromTelephony(MediaEvent(Some(MediaBody("a0", Some(0))))),
        FromTelephony(MediaEvent(Some(MediaBody("a1", Some(20))))),
        FromModel(AudioDelta(Some("b0"), Some("item_1"))),
        FromTelephony(MediaEvent(Some(MediaBody("a2", Some(40))))),
        FromModel(SpeechStarted)]);
      && r.toModel == [InputAudioAppend("a0"), InputAudioAppend("a1"), InputAudioAppend("a2"),
                       Truncate("item_1", 0, Some(20))]
      && r.toTelephony == [MediaOut(Some("MZ1"), "b0"), MarkOut("MZ1", ResponsePart), ClearOut(Some("MZ1"))]
      && r.markQueue == [] && r.responseStartTimestamp == None && r.lastAssistantItem == None
  {
  }

  /**
   * A response whose first audio arrives at caller time 0 gets the anchor
   * 0, which the falsy test treats as unset: the next delta moves the
   * anchor, and the truncate under-reports what the caller heard (20 ms
   * instead of 40 ms).
   */
  lemma ZeroAnchorScenario()
    ensures
      var r := Run(ReadyStateStep(Initial(), true), [
        FromTelephony(StartEvent(Some(StartBody(Some("MZ1"))))),
        FromModel(AudioDelta(Some("b0"), Some("item_1"))),
        FromTelephony(MediaEvent(Some(MediaBody("a0", Some(20))))),
        FromModel(AudioDelta(Some("b1"), Some("item_1"))),
        FromTelephony(MediaEvent(Some(MediaBody("a1", Some(40))))),
        FromModel(SpeechStarted)]);
      r.toModel[|r.toModel| - 1] == Truncate("item_1", 0, Some(20))
  {
  }

  /**
   * A `start` frame in mid-response clears the anchor but keeps the pending
   * marks and the item id, so a speech onset right after it interrupts
   * nothing.
   */
  lemma StartKeepsPendingMarks(r: Relay, sid: string)
    requires |r.markQueue| > 0
    ensures
      var r' := TelephonyStep(r, StartEvent(Some(StartBody(Some(sid)))));
      && r'.markQueue == r.markQueue && r'.lastAssistantItem == r.lastAssistantItem
      && r'.responseStartTimestamp == None
      && SpeechStartedStep(r') == r'
  {
  }

  /**
   * Caller audio that arrives before the model socket opens is dropped, not
   * buffered: of the same media frame sent before and after the socket
   * opens, only the second reaches the model, though both move the clock.
   */
  lemma AudioBeforeOpenIsDropped(r: Relay, payload: string, t: int)
    requires !r.modelOpen
    ensures
      var media := FromTelephony(MediaEvent(Some(MediaBody(payload, Some(t)))));
      var r' := Run(r, [media, ModelReady(true), media]);
      && r'.toModel == r.toModel + [InputAudioAppend(payload)]
      && r'.latestMediaTimestamp == t && r'.modelOpen
  {
    var media := FromTelephony(MediaEvent(Some(MediaBody(payload, Some(t)))));
    var evs := [media, ModelReady(true), media];
    assert Run(r, evs) == Run(Step(r, media), evs[1..]);
    var heard := Step(r, media);
    assert heard.toModel == r.toModel;
    var ready := Step(heard, ModelReady(true));
    assert ready.modelOpen && ready.toModel == r.toModel && ready.latestMediaTimestamp == t;
    assert Run(heard, evs[1..]) == Run(ready, evs[2..]);
    assert Run(ready, evs[2..]) == Step(ready, media);
  }
}
