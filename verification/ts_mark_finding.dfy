/**
 * The typed server's `sendMark` writes the mark through `conn.socket.send`,
 * while every other frame of the same handler goes through
 * `connection.send` on the very same object (src/index.ts:333, 381, 355).
 * The handler registers with `connection.on("message")`, so the connection
 * is the WebSocket itself, which has no `socket` property: the mark send
 * throws a TypeError before `markQueue.push` runs, and the model handler's
 * `catch` swallows it after the media frame, the anchor and the item id
 * have already been written.
 *
 * This module models the handler as written and shows that the queue then
 * never fills, so barge-in never fires. The rest of the model uses the
 * evidently intended `sendMark` (`TsRelay.MarkStep`, which is also what
 * index.js does).
 */
module TsMarkFinding {
  import opened Wire
  import opened TsRelay
  import opened TsProperties

  /** The audio-delta branch with `sendMark` as written: its send throws before the push. */
  function AudioDeltaAsWritten(r: Relay, delta: string, itemId: Option<string>): (r': Relay)
    ensures r'.markQueue == r.markQueue
    ensures r'.toTelephony == r.toTelephony + [MediaOut(r.streamSid, delta)]
    ensures r' == AudioDeltaStep(r, delta, itemId).(markQueue := r.markQueue, toTelephony := r'.toTelephony)
  {
    var forwarded := r.(toTelephony := r.toTelephony + [MediaOut(r.streamSid, delta)]);
    var anchored :=
      if !NumTruthy(forwarded.responseStartTimestamp)
      then forwarded.(responseStartTimestamp := Some(forwarded.latestMediaTimestamp))
      else forwarded;
    var recorded := if Truthy(itemId) then anchored.(lastAssistantItem := itemId) else anchored;
    // With a truthy stream id the mark send throws: nothing after it runs.
    if Truthy(recorded.streamSid) then recorded else MarkStep(recorded)
  }

  function ModelStepAsWritten(r: Relay, m: ModelFrame): (r': Relay)
    ensures m.AudioDelta? && m.delta.Some? ==> r' == AudioDeltaAsWritten(r, m.delta.value, m.itemId)
    ensures !(m.AudioDelta? && m.delta.Some?) ==> r' == ModelStep(r, m)
  {
    match m
    case AudioDelta(Some(delta), itemId) => AudioDeltaAsWritten(r, delta, itemId)
    case _ => ModelStep(r, m)
  }

  function StepAsWritten(r: Relay, e: Event): Relay {
    match e
    case FromTelephony(f) => TelephonyStep(r, f)
    case FromModel(m) => ModelStepAsWritten(r, m)
    case ModelReady(isOpen) => ReadyStateStep(r, isOpen)
  }

  function RunAsWritten(r: Relay, evs: seq<Event>): Relay
    decreases |evs|
  {
    if evs == [] then r else RunAsWritten(StepAsWritten(r, evs[0]), evs[1..])
  }

  /** No mark pending, and no truncate, clear or mark ever sent. */
  predicate NeverArmed(r: Relay) {
    && r.markQueue == []
    && (forall i :: 0 <= i < |r.toModel| ==> !r.toModel[i].Truncate?)
    && (forall i :: 0 <= i < |r.toTelephony| ==> r.toTelephony[i].MediaOut?)
  }

  lemma NeverArmedStep(r: Relay, e: Event)
    requires NeverArmed(r)
    ensures NeverArmed(StepAsWritten(r, e))
  {
    var r' := StepAsWritten(r, e);
    assert r'.toModel[..|r.toModel|] == r.toModel;
    assert r'.toTelephony[..|r.toTelephony|] == r.toTelephony;
    forall i | |r.toModel| <= i < |r'.toModel| ensures !r'.toModel[i].Truncate? {
      assert e.FromTelephony? && e.frame.MediaEvent?;
    }
    forall i | 0 <= i < |r.toModel| ensures !r'.toModel[i].Truncate? {
      assert r'.toModel[i] == r.toModel[i];
    }
    forall i | 0 <= i < |r.toTelephony| ensures r'.toTelephony[i].MediaOut? {
      assert r'.toTelephony[i] == r.toTelephony[i];
    }
  }

  /**
   * As written, a session that starts with nothing pending never queues a
   * mark and never sends a truncate, a clear or a mark, whatever arrives.
   */
  lemma {:induction false} AsWrittenNeverInterrupts(r: Relay, evs: seq<Event>)
    requires NeverArmed(r)
    ensures NeverArmed(RunAsWritten(r, evs))
    decreases |evs|
  {
    if evs != [] {
      NeverArmedStep(r, evs[0]);
      AsWrittenNeverInterrupts(StepAsWritten(r, evs[0]), evs[1..]);
    }
  }

  /**
   * The intended behaviour: on a stream with a truthy id, a forwarded
   * delta leaves a mark pending and an anchor set, so the next speech onset
   * sends a clear for that stream.
   */
  lemma DeltaArmsInterruption(r: Relay, delta: string, itemId: Option<string>)
    requires Truthy(r.streamSid)
    ensures Interrupts(AudioDeltaStep(r, delta, itemId))
    ensures var armed := AudioDeltaStep(r, delta, itemId);
            SpeechStartedStep(armed).toTelephony == armed.toTelephony + [ClearOut(r.streamSid)]
  {
  }

  /** Stream start, one delta, speech onset: the intended handler clears, the written one does not. */
  lemma BargeInContrast()
    ensures
      var evs := [FromTelephony(StartEvent(Some(StartBody(Some("MZ1"))))),
                  FromModel(AudioDelta(Some("b0"), Some("item_1"))),
                  FromModel(SpeechStarted)];
      && Run(Initial(), evs).toTelephony
         == [MediaOut(Some("MZ1"), "b0"), MarkOut("MZ1", ResponsePart), ClearOut(Some("MZ1"))]
      && RunAsWritten(Initial(), evs).toTelephony == [MediaOut(Some("MZ1"), "b0")]
  {
  }
}
