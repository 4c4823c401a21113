/** Each committed mutation moves one record to a later one, and changes the
    outbox only as its effect label says. */
module SessionProgress {
  import opened Basics
  import opened LiveContract
  import opened SessionRecord
  import opened SessionSteps
  import opened SessionInvariant
  import opened SessionRuns
  import RetryDelay

  ghost predicate AppendsOne(r: Record, next: Record, e: Event)
  {
    && r.state.Active?
    && next.pending == r.pending + [e]
    && next.lastSequence == r.lastSequence + 1 == e.sequence
    && ValidEvent(e) && e.id == EventId(r.runnerId, e.sequence)
    && (e.usage.Some? ==> e.usage.value == next.usageTotal)
    && next.rejectedTotal == r.rejectedTotal && next.deadLetters == r.deadLetters
    && next.state == e.state
    && (IsTerminal(e.state) ==> e.closeReason == Some(next.closeReason))
  }

  ghost predicate DropsHead(r: Record, next: Record, e: Event)
  {
    && r.pending != [] && e == r.pending[0] && next.pending == r.pending[1..]
    && next.state == r.state && next.closeReason == r.closeReason
    && next.lastSequence == r.lastSequence && SameMeter(r, next)
  }

  ghost predicate Shaped(r: Record, v: Verdict)
  {
    v.Save? ==>
      match v.effect
      case Silent =>
        && v.next.pending == r.pending && v.next.lastSequence == r.lastSequence
        && v.next.state == r.state && v.next.closeReason == r.closeReason
        && v.next.rejectedTotal == r.rejectedTotal && v.next.deadLetters == r.deadLetters
        && v.next.usageTotal == r.usageTotal
      case Appended(e) => AppendsOne(r, v.next, e)
      case Acknowledged(e) =>
        && DropsHead(r, v.next, e)
        && v.next.rejectedTotal == r.rejectedTotal && v.next.deadLetters == r.deadLetters
      case Parked(letter) =>
        && DropsHead(r, v.next, letter.event)
        && v.next.rejectedTotal == r.rejectedTotal + 1
        && v.next.deadLetters == LastLetters(r.deadLetters + [letter])
  }

  ghost predicate Progress(r: Record, v: Verdict)
  {
    Shaped(r, v) && (v.Save? ==> Later(r, v.next))
  }

  lemma UnsavedProgresses(r: Record, v: Verdict)
    requires !v.Save?
    ensures Progress(r, v)
  {
  }

  lemma InvLifecycle(r: Record)
    requires Inv(r)
    ensures LifecycleAccepted(r)
  {
  }

  lemma EmitProgresses(r: Record, kind: EventKind, now: Time, usage: Option<uint64>)
    requires Live(r) && (usage.Some? ==> usage.value == r.usageTotal)
    ensures Progress(r, Emit(r, kind, now, usage))
  {
  }

  /** A quiet field change in front of an append does not matter. */
  lemma ProgressFrom(r: Record, changed: Record, v: Verdict)
    requires Live(r) && Live(changed) && Progress(changed, v) && Later(r, changed)
    requires v.Save? ==> v.effect.Appended?
    requires changed.pending == r.pending && changed.lastSequence == r.lastSequence
    requires changed.rejectedTotal == r.rejectedTotal && changed.deadLetters == r.deadLetters
    requires LifecycleAccepted(r) && LifecycleAccepted(changed)
    ensures Progress(r, v)
  {
    if v.Save? {
      LaterIsTransitive(r, changed, v.next);
    }
  }

  lemma LiveChangeIsLater(r: Record, next: Record)
    requires Live(r) && Live(next) && next.secrets == r.secrets
    requires next.brokerId == r.brokerId && next.runnerId == r.runnerId
    requires next.fingerprint == r.fingerprint && next.published == r.published
    requires r.lastSequence <= next.lastSequence && r.usageTotal <= next.usageTotal && r.metered <= next.metered
    requires r.segments <= next.segments && r.rejectedTotal <= next.rejectedTotal
    ensures Later(r, next)
  {
  }

  lemma AddSegmentsProgresses(sha: Digest, r: Record, batch: seq<Segment>, now: Time)
    requires Inv(r)
    ensures Progress(r, AddSegments(sha, r, batch, now))
  {
    var start := Meter(r.metered, r.segments);
    assert MeterReady(start);
    MeterBatchKeepsReady(sha, start, batch);
    var v := AddSegments(sha, r, batch, now);
    if v.Save? {
      var m := MeterBatch(sha, start, batch).value;
      var total := m.micros / MICROS_PER_SECOND;
      var counted := Counted(r, m, now).(usageTotal := total);
      assert r.usageTotal <= total;
      assert LifecycleAccepted(counted);
      hide Inv, MeterBatch, Emit, LifecycleAccepted, MeterReady, Later;
      LiveChangeIsLater(r, counted);
      if total > r.usageTotal {
        EmitEffect(counted, UsageTick, now, Some(total));
        EmitProgresses(counted, UsageTick, now, Some(total));
        ProgressFrom(r, counted, v);
      } else {
        assert v.next == counted;
      }
    }
  }

  lemma EmitEffect(r: Record, kind: EventKind, now: Time, usage: Option<uint64>)
    ensures var v := Emit(r, kind, now, usage); v.Save? ==> v.effect.Appended?
  {
  }

  /** The record a ladder restart appends to. */
  lemma LadderShape(r: Record, code: string, now: Time, window: int) returns (counted: Record)
    requires Live(r)
    ensures counted == r.(ladderWindowAt := counted.ladderWindowAt, ladderFailures := counted.ladderFailures, ladderCode := counted.ladderCode)
    ensures var v := RestartLadder(r, code, now, window);
            v.Save? ==> v == Emit(counted, LadderRestart, now, None)
  {
    hide Emit;
    var restarted := r.ladderWindowAt.None? || r.ladderWindowAt.value == ZERO_TIME || TimeSub(now, r.ladderWindowAt.value) > window;
    var windowed := if restarted then r.(ladderWindowAt := Some(now), ladderFailures := 0) else r;
    counted := windowed;
    if windowed.ladderFailures != MAX_UINT32 {
      counted := windowed.(ladderFailures := windowed.ladderFailures + 1, ladderCode := code);
    }
  }

  lemma LadderProgresses(r: Record, code: string, now: Time, window: int)
    requires Inv(r)
    ensures Progress(r, RestartLadder(r, code, now, window))
  {
    var v := RestartLadder(r, code, now, window);
    if v.Save? {
      var counted := LadderShape(r, code, now, window);
      InvLifecycle(r);
      hide Emit, RestartLadder, Inv;
      LiveChangeIsLater(r, counted);
      hide Later;
      EmitEffect(counted, LadderRestart, now, None);
      EmitProgresses(counted, LadderRestart, now, None);
      hide Progress;
      ProgressFrom(r, counted, v);
    }
  }

  lemma StallProgresses(r: Record, now: Time)
    requires Inv(r) && Live(r)
    ensures Progress(r, MarkStalled(r, now))
  {
    hide Emit;
    var stalled := r.(output := Stalled, outputSince := Some(now));
    EmitEffect(stalled, OutputStalled, now, None);
    EmitProgresses(stalled, OutputStalled, now, None);
    ProgressFrom(r, stalled, MarkStalled(r, now));
  }

  lemma HeartbeatProgresses(r: Record, now: Time, interval: int)
    ensures Progress(r, RecordHeartbeat(r, now, interval))
  {
    hide Emit;
    if Live(r) {
      EmitProgresses(r, Heartbeat, now, Some(r.usageTotal));
    }
  }

  lemma EvaluateProgresses(r: Record, now: Time, stallAfter: int, failAfter: int)
    requires Inv(r)
    ensures Progress(r, Evaluate(r, now, stallAfter, failAfter)) && Progress(r, RecordStalled(r, now))
  {
    hide MarkStalled;
    if Live(r) {
      StallProgresses(r, now);
    }
  }

  lemma ObservationsProgress(r: Record, online: bool, now: Time, initialWait: int, grace: int, reason: string,
                             target: State)
    requires LifecycleAccepted(r)
    ensures Progress(r, RecordPresence(r, online, now))
    ensures Progress(r, ExpirePublisher(r, now, initialWait, grace))
    ensures Progress(r, BeginTermination(r, reason, target))
  {
    PresenceProgresses(r, online, now);
    StoppingProgresses(r, now, initialWait, grace, reason, target);
    hide Progress;
  }

  lemma PresenceProgresses(r: Record, online: bool, now: Time)
    requires LifecycleAccepted(r)
    ensures Progress(r, RecordPresence(r, online, now))
  {
  }

  lemma StoppingProgresses(r: Record, now: Time, initialWait: int, grace: int, reason: string, target: State)
    requires LifecycleAccepted(r)
    ensures Progress(r, ExpirePublisher(r, now, initialWait, grace)) && Progress(r, BeginTermination(r, reason, target))
  {
    hide WithDeadline;
  }

  lemma OutboxOpsProgress(r: Record, eventId: string, status: int, code: string, at: Time)
    requires LifecycleAccepted(r)
    ensures Progress(r, AcknowledgeEvent(r, eventId))
    ensures Progress(r, RecordRetryFailure(r, eventId, status, code))
    ensures Progress(r, ParkRejection(r, eventId, status, code, at))
    ensures Progress(r, ClearTerminalSecrets(r))
  {
    DeliveryProgresses(r, eventId, status, code);
    ParkProgresses(r, eventId, status, code, at);
    hide Progress;
  }

  lemma DeliveryProgresses(r: Record, eventId: string, status: int, code: string)
    requires LifecycleAccepted(r)
    ensures Progress(r, AcknowledgeEvent(r, eventId)) && Progress(r, RecordRetryFailure(r, eventId, status, code))
    ensures Progress(r, ClearTerminalSecrets(r))
  {
  }

  lemma ParkProgresses(r: Record, eventId: string, status: int, code: string, at: Time)
    requires LifecycleAccepted(r)
    ensures Progress(r, ParkRejection(r, eventId, status, code, at))
  {
  }

  lemma ReserveProgresses(sha: Digest, r: Record, eventId: string, at: Time, initial: int, maximum: int)
    requires LifecycleAccepted(r) && 0 < initial <= maximum
    ensures Progress(r, ReserveAttempt(sha, r, eventId, at, initial, maximum))
  {
    hide RetryDelay.Delay;
  }

  lemma KeysProgress(r: Record, request: KeyRequest, response: KeyResponse)
    requires Inv(r) && ValidKeyRequest(request)
    ensures Progress(r, RecordKeyIssue(r, request, response))
  {
    assert request.id != "";
  }

  lemma QuietStepProgresses(sha: Digest, r: Record, op: Op)
    requires LifecycleAccepted(r) && Admissible(op)
    requires op.Presence? || op.ExpireAbsent? || op.BeginTerminal? || op.Acknowledge? || op.RetryFailure? || op.Park? || op.ClearSecrets?
    ensures Progress(r, Decide(sha, r, op))
  {
    hide LifecycleAccepted, Progress, ValidCloseReason, ValidCallbackFailure,
      RecordPresence, ExpirePublisher, BeginTermination, AcknowledgeEvent, RecordRetryFailure, ParkRejection, ClearTerminalSecrets;
    match op {
      case Presence(online, now) => ObservationsProgress(r, online, now, 0, 0, "", Ended);
      case ExpireAbsent(now, initialWait, grace) => ObservationsProgress(r, true, now, initialWait, grace, "", Ended);
      case BeginTerminal(reason, target) => ObservationsProgress(r, true, 0, 0, 0, reason, target);
      case Acknowledge(eventId) => OutboxOpsProgress(r, eventId, 0, "", 0);
      case RetryFailure(eventId, status, code) => OutboxOpsProgress(r, eventId, status, code, 0);
      case Park(eventId, status, code, at) => OutboxOpsProgress(r, eventId, status, code, at);
      case ClearSecrets => OutboxOpsProgress(r, "", 0, "", 0);
    }
  }

  lemma StepProgresses(sha: Digest, r: Record, op: Op)
    requires Inv(r)
    ensures Progress(r, Decide(sha, r, op))
  {
    hide Inv, LifecycleAccepted, Progress, Later, ValidCloseReason, ValidKeyResponse, ValidCallbackFailure,
      ValidLadderCode, OpaqueId,
      AddSegments, RecordHeartbeat, RestartLadder, Evaluate, RecordStalled, ReserveAttempt, RecordKeyIssue, CompleteActivation;
    InvLifecycle(r);
    if !Admissible(op) {
      UnsavedProgresses(r, Decide(sha, r, op));
    } else {
      match op {
        case Segments(batch, now) => AddSegmentsProgresses(sha, r, batch, now);
        case HeartbeatOp(now, interval) => HeartbeatProgresses(r, now, interval);
        case LadderRestartOp(code, now, window) => LadderProgresses(r, code, now, window);
        case EvaluateHealth(now, stallAfter, failAfter) => EvaluateProgresses(r, now, stallAfter, failAfter);
        case StallOutput(now) => EvaluateProgresses(r, now, 0, 0);
        case Reserve(eventId, at, initial, maximum) => ReserveProgresses(sha, r, eventId, at, initial, maximum);
        case IssueKey(request, response) => KeysProgress(r, request, response);
        case CompleteKey(requestId) => CompletionProgresses(r, requestId);
        case _ => QuietStepProgresses(sha, r, op);
      }
    }
  }

  lemma CompletionProgresses(r: Record, requestId: string)
    requires Inv(r)
    ensures Progress(r, CompleteActivation(r, requestId))
  {
  }

  // ------------------------------------------- events built from earlier loads

  lemma StartIsSound(r: Record, snapshot: Record, now: Time)
    requires Inv(r) && Later(snapshot, r) && Live(snapshot) && snapshot.lastSequence == 0
    ensures Safe(Advance(r, StartEvent(snapshot, now))) && Progress(r, Advance(r, StartEvent(snapshot, now)))
  {
    var e := StartEvent(snapshot, now);
    var v := Advance(r, e);
    if v.Save? {
      AppendKeepsInv(r, e, v.next);
    }
  }

  /** The pinned termination is unchanged between the load and the append. */
  lemma FinishIsSound(r: Record, snapshot: Record, now: Time)
    requires Inv(r) && Inv(snapshot) && Later(snapshot, r) && snapshot.state.Active? && snapshot.stopping
    ensures Safe(Advance(r, TerminalEvent(snapshot, now))) && Progress(r, Advance(r, TerminalEvent(snapshot, now)))
    ensures r.state.Active? ==> r.stopping && TerminalEvent(r, now) == TerminalEvent(snapshot, now)
  {
    var e := TerminalEvent(snapshot, now);
    var v := Advance(r, e);
    if v.Save? {
      TerminalAppendKeepsInv(r, e, v.next);
    }
  }

  lemma TerminalAppendKeepsInv(r: Record, e: Event, next: Record)
    requires Inv(r) && r.stopping && r.state.Active?
    requires Advance(r, e).Save? && next == Advance(r, e).next
    requires r.lastSequence < MAX_UINT64 && e.sequence == r.lastSequence + 1 && IsTerminal(e.state)
    requires e.usage == Some(r.usageTotal) && e.closeReason == Some(r.pendingReason)
    ensures Inv(next)
  {
    OwnEventsCarry(r, next);
    forall i, j | 0 <= i < j < |next.pending| ensures OutboxOrder(next.pending[i], next.pending[j]) {
      assert OwnEvent(r, r.pending[i]);
      if j < |r.pending| {
        assert OutboxOrder(r.pending[i], r.pending[j]);
      }
    }
    assert forall i :: 0 <= i < |next.pending| ==> OwnEvent(next, next.pending[i]);
    assert SegmentsAccepted(next);
  }
}
