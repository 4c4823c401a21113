/** The inductive strengthening of the record validator, and why it is one. */
module SessionInvariant {
  import opened Basics
  import opened LiveContract
  import opened SessionRecord
  import opened SessionSteps
  import RetryDelay

  /** What the validator forgets to ask. It compares only the last pending usage
      with the total, ties the total to the meter only once something was
      metered, and lets an outbox outlive its callback credentials. */
  predicate Strengthening(r: Record)
  {
    && (forall i :: 0 <= i < |r.pending| && r.pending[i].usage.Some? ==> r.pending[i].usage.value <= r.usageTotal)
    && r.usageTotal == r.metered / MICROS_PER_SECOND
    && (r.pending != [] ==> r.secrets.Some?)
  }

  /** Online means no absence clock is running. */
  predicate PublisherClock(r: Record)
  {
    r.onlineAt.Some? ==> r.deadline.None? && r.offlineSince.None?
  }

  /** Everything but the tail condition, which an append re-establishes. */
  ghost predicate AppendReady(r: Record)
  {
    && OpaqueId(r.runnerId)
    && HealthAccepted(r)
    && LifecycleAccepted(r)
    && OutboxAccepted(r)
    && DeliveryAccepted(r)
    && MeterAccepted(r)
    && SegmentsAccepted(r)
    && SecretsAccepted(r)
    && Strengthening(r)
    && PublisherClock(r)
  }

  ghost predicate Inv(r: Record)
  {
    AppendReady(r) && TailAccepted(r)
  }

  ghost predicate Safe(v: Verdict)
  {
    v.Save? ==> Inv(v.next)
  }

  lemma InvIsLoadable(r: Record)
    requires Inv(r)
    ensures Normalize(r) == r && Loadable(r, r.brokerId)
  {
  }

  /** A record written before output health and pinned targets were recorded is
      read as the record that a newer runner would have written. */
  lemma OlderRecordLoads(r: Record, older: Record)
    requires Inv(r) && r.output.Waiting? && (r.stopping ==> r.pendingState == Some(Ended))
    requires r.outputSince == if r.lastEventAt.Some? then r.lastEventAt else Some(62_135_596_800_000_000_000)
    requires older == r.(output := Unset, outputSince := None, pendingState := None)
    ensures Normalize(older) == r && Loadable(older, r.brokerId)
  {
    InvIsLoadable(r);
    StoppingHasTarget(r);
    hide RecordAccepted, SecretsAccepted, Inv;
  }

  lemma StoppingHasTarget(r: Record)
    requires Inv(r)
    ensures r.stopping <==> r.pendingState.Some?
  {
  }

  lemma AppendKeepsInv(r: Record, e: Event, next: Record)
    requires AppendReady(r) && Live(r)
    requires r.lastSequence < MAX_UINT64 && e.sequence == r.lastSequence + 1
    requires ValidEvent(e) && e.id == EventId(r.runnerId, e.sequence)
    requires e.usage.Some? ==> e.usage.value == r.usageTotal
    requires next == r.(lastSequence := e.sequence, lastEventAt := Some(e.time), pending := r.pending + [e])
    ensures Inv(next)
  {
    forall i | 0 <= i < |next.pending| ensures OwnEvent(next, next.pending[i]) {
      if i < |r.pending| {
        assert OwnEvent(r, r.pending[i]);
      }
    }
    forall i, j | 0 <= i < j < |next.pending| ensures OutboxOrder(next.pending[i], next.pending[j]) {
      assert OwnEvent(r, r.pending[i]);
      if j < |r.pending| {
        assert OutboxOrder(r.pending[i], r.pending[j]);
      }
    }
    assert SegmentsAccepted(next);
    assert forall i :: 0 <= i < |r.deadLetters| ==> OwnEvent(r, r.deadLetters[i].event) ==> OwnEvent(next, next.deadLetters[i].event);
  }

  lemma EmitKeepsInv(r: Record, kind: EventKind, now: Time, usage: Option<uint64>)
    requires AppendReady(r) && Live(r) && (usage.Some? ==> usage.value == r.usageTotal)
    ensures Safe(Emit(r, kind, now, usage))
  {
    var v := Emit(r, kind, now, usage);
    if v.Save? {
      AppendKeepsInv(r, v.effect.event, v.next);
    }
  }

  ghost predicate MeterReady(m: Meter)
  {
    && (forall i :: 0 <= i < |m.identities| ==> IsSha256Hex(m.identities[i]))
    && (forall i, j :: 0 <= i < j < |m.identities| ==> m.identities[i] != m.identities[j])
    && (m.identities != [] ==> m.micros != 0)
  }

  lemma {:induction false} MeterBatchKeepsReady(sha: Digest, m: Meter, batch: seq<Segment>)
    requires MeterReady(m)
    ensures MeterBatch(sha, m, batch).Ok? ==>
              var n := MeterBatch(sha, m, batch).value;
              MeterReady(n) && m.identities <= n.identities && m.micros <= n.micros
              && (n.identities == m.identities ==> n == m)
  {
    if batch != [] {
      MeterBatchKeepsReady(sha, m, batch[..|batch| - 1]);
    }
  }

  /** The record AddSegments saves, before any tick is appended. */
  function Counted(r: Record, m: Meter, now: Time): (counted: Record)
  {
    r.(metered := m.micros, segments := m.identities,
       firstSegmentAt := if r.firstSegmentAt.None? then Some(now) else r.firstSegmentAt,
       lastSegmentAt := Some(now),
       output := Producing,
       outputSince := if r.output.Producing? then r.outputSince else Some(now),
       ladderWindowAt := None, ladderFailures := 0)
  }

  lemma CountedIsAppendReady(r: Record, m: Meter, now: Time, counted: Record)
    requires Inv(r) && Live(r) && r.lastSequence != 0
    requires MeterReady(m) && r.metered <= m.micros && m.identities != []
    requires counted == Counted(r, m, now).(usageTotal := m.micros / MICROS_PER_SECOND)
    ensures AppendReady(counted) && r.usageTotal <= counted.usageTotal
    ensures r.usageTotal == counted.usageTotal ==> Inv(counted)
  {
    assert r.metered / MICROS_PER_SECOND <= m.micros / MICROS_PER_SECOND;
    OwnEventsCarry(r, counted);
  }

  lemma AddSegmentsKeepsInv(sha: Digest, r: Record, batch: seq<Segment>, now: Time)
    requires Inv(r)
    ensures Safe(AddSegments(sha, r, batch, now))
  {
    var start := Meter(r.metered, r.segments);
    assert MeterReady(start);
    MeterBatchKeepsReady(sha, start, batch);
    var v := AddSegments(sha, r, batch, now);
    if v.Save? {
      var m := MeterBatch(sha, start, batch).value;
      var total := m.micros / MICROS_PER_SECOND;
      var counted := Counted(r, m, now).(usageTotal := total);
      CountedIsAppendReady(r, m, now, counted);
      hide Inv, AppendReady, MeterBatch, Emit;
      if total > r.usageTotal {
        assert v == Emit(counted, UsageTick, now, Some(total));
        EmitKeepsInv(counted, UsageTick, now, Some(total));
      } else {
        assert v.next == counted;
      }
    }
  }

  lemma OwnEventsCarry(a: Record, b: Record)
    requires a.runnerId == b.runnerId && a.lastSequence <= b.lastSequence
    ensures forall e :: OwnEvent(a, e) ==> OwnEvent(b, e)
  {
  }

  /** Two records that agree on everything the outbox checks look at. */
  predicate SameOutbox(a: Record, b: Record)
  {
    && a.runnerId == b.runnerId && a.lastSequence == b.lastSequence && a.usageTotal == b.usageTotal
    && a.pending == b.pending && a.delivery == b.delivery && a.deadLetters == b.deadLetters
    && a.rejectedTotal == b.rejectedTotal && a.metered == b.metered && a.segments == b.segments
    && a.secrets == b.secrets
  }

  lemma SameOutboxCarries(a: Record, b: Record)
    requires SameOutbox(a, b)
    requires OutboxAccepted(a) && DeliveryAccepted(a) && SegmentsAccepted(a) && Strengthening(a)
    ensures OutboxAccepted(b) && DeliveryAccepted(b) && SegmentsAccepted(b) && Strengthening(b)
  {
    OwnEventsCarry(a, b);
  }

  /** A record that keeps the outbox, the meter and the keys needs only its own parts rechecked. */
  lemma QuietChangeKeepsInv(r: Record, next: Record)
    requires Inv(r) && SameOutbox(r, next)
    requires next.brokerId == r.brokerId && next.fingerprint == r.fingerprint && next.published == r.published
    requires next.lastEventAt == r.lastEventAt && next.state == r.state && next.closeReason == r.closeReason
    requires next.pendingKey == "" || next.pendingKey == r.pendingKey
    requires HealthAccepted(next) && LifecycleAccepted(next) && PublisherClock(next)
    ensures Inv(next)
  {
    SameOutboxCarries(r, next);
  }

  lemma PresenceKeepsInv(r: Record, online: bool, now: Time)
    requires Inv(r)
    ensures Safe(RecordPresence(r, online, now))
  {
    var v := RecordPresence(r, online, now);
    if v.Save? {
      QuietChangeKeepsInv(r, v.next);
    }
  }

  lemma StopKeepsInv(r: Record, reason: string, target: State)
    requires Inv(r) && Live(r) && ValidCloseReason(reason) && IsTerminal(target)
    ensures Inv(Stop(r, reason, target))
  {
    assert reason != "" by {
      assert "" !in CLOSE_REASONS;
    }
    QuietChangeKeepsInv(r, Stop(r, reason, target));
  }

  lemma ClockKeepsInv(r: Record, now: Time, initialWait: int, grace: int)
    requires Inv(r) && Live(r) && r.onlineAt.None?
    ensures Inv(WithDeadline(r, now, initialWait, grace))
  {
    hide WithDeadline;
    QuietChangeKeepsInv(r, WithDeadline(r, now, initialWait, grace));
  }

  lemma ExpireKeepsInv(r: Record, now: Time, initialWait: int, grace: int)
    requires Inv(r)
    ensures Safe(ExpirePublisher(r, now, initialWait, grace))
  {
    assert r.outputSince.Some?;
    hide Inv, Stop, ValidCloseReason;
    if Live(r) && r.onlineAt.None? {
      var clocked := WithDeadline(r, now, initialWait, grace);
      ClockKeepsInv(r, now, initialWait, grace);
      PublisherDisconnectIsValid();
      StopKeepsInv(clocked, "publisher_disconnect", Ended);
    }
  }

  lemma PublisherDisconnectIsValid()
    ensures ValidCloseReason("publisher_disconnect")
  {
  }

  lemma TerminationKeepsInv(r: Record, reason: string, target: State)
    requires Inv(r) && ValidCloseReason(reason) && IsTerminal(target)
    ensures Safe(BeginTermination(r, reason, target))
  {
    if Live(r) {
      StopKeepsInv(r, reason, target);
    }
  }

  lemma CompleteKeyKeepsInv(r: Record, requestId: string)
    requires Inv(r)
    ensures Safe(CompleteActivation(r, requestId))
  {
    var v := CompleteActivation(r, requestId);
    if v.Save? {
      QuietChangeKeepsInv(r, v.next);
    }
  }

  lemma HeartbeatKeepsInv(r: Record, now: Time, interval: int)
    requires Inv(r)
    ensures Safe(RecordHeartbeat(r, now, interval))
  {
    hide Emit;
    if Live(r) {
      EmitKeepsInv(r, Heartbeat, now, Some(r.usageTotal));
    }
  }

  lemma LadderKeepsInv(r: Record, code: string, now: Time, window: int)
    requires Inv(r) && ValidLadderCode(code, false)
    ensures Safe(RestartLadder(r, code, now, window))
  {
    hide Emit;
    var v := RestartLadder(r, code, now, window);
    if v.Save? {
      var restarted := r.ladderWindowAt.None? || r.ladderWindowAt.value == ZERO_TIME || TimeSub(now, r.ladderWindowAt.value) > window;
      var windowed := if restarted then r.(ladderWindowAt := Some(now), ladderFailures := 0) else r;
      var counted := windowed.(ladderFailures := windowed.ladderFailures + 1, ladderCode := code);
      QuietChangeKeepsInv(r, counted);
      EmitKeepsInv(counted, LadderRestart, now, None);
    }
  }

  lemma StallKeepsInv(r: Record, now: Time)
    requires Inv(r) && Live(r)
    ensures Safe(MarkStalled(r, now))
  {
    hide Emit;
    var stalled := r.(output := Stalled, outputSince := Some(now));
    QuietChangeKeepsInv(r, stalled);
    EmitKeepsInv(stalled, OutputStalled, now, None);
  }

  lemma EvaluateKeepsInv(r: Record, now: Time, stallAfter: int, failAfter: int)
    requires Inv(r)
    ensures Safe(Evaluate(r, now, stallAfter, failAfter))
  {
    hide Inv, MarkStalled;
    if Live(r) {
      StallKeepsInv(r, now);
    }
  }

  lemma RecordStalledKeepsInv(r: Record, now: Time)
    requires Inv(r)
    ensures Safe(RecordStalled(r, now))
  {
    hide Inv, MarkStalled;
    if Live(r) {
      StallKeepsInv(r, now);
    }
  }

  lemma UnsavedIsSafe(v: Verdict)
    requires !v.Save?
    ensures Safe(v)
  {
  }

  lemma DropHeadKeepsInv(r: Record, next: Record)
    requires Inv(r) && r.pending != []
    requires next == r.(pending := r.pending[1..], delivery := None, deadLetters := next.deadLetters, rejectedTotal := next.rejectedTotal)
    requires DeliveryAccepted(next)
    ensures Inv(next)
  {
    forall i | 0 <= i < |next.pending| ensures OwnEvent(next, next.pending[i]) {
      assert OwnEvent(r, r.pending[i + 1]);
    }
    forall i, j | 0 <= i < j < |next.pending| ensures OutboxOrder(next.pending[i], next.pending[j]) {
      assert OutboxOrder(r.pending[i + 1], r.pending[j + 1]);
    }
    assert SegmentsAccepted(next);
  }

  lemma AcknowledgeKeepsInv(r: Record, eventId: string)
    requires Inv(r)
    ensures Safe(AcknowledgeEvent(r, eventId))
  {
    var v := AcknowledgeEvent(r, eventId);
    if v.Save? {
      OwnEventsCarry(r, v.next);
      DropHeadKeepsInv(r, v.next);
    }
  }

  lemma ParkKeepsInv(r: Record, eventId: string, status: int, code: string, at: Time)
    requires Inv(r) && ValidCallbackFailure(status, code, false)
    ensures Safe(ParkRejection(r, eventId, status, code, at))
  {
    var v := ParkRejection(r, eventId, status, code, at);
    if v.Save? {
      OwnEventsCarry(r, v.next);
      assert OwnEvent(r, r.pending[0]);
      assert DeliveryAccepted(v.next);
      DropHeadKeepsInv(r, v.next);
    }
  }

  /** Only the delivery cursor or the secrets changed. */
  lemma CursorChangeKeepsInv(r: Record, next: Record)
    requires Inv(r)
    requires next == r.(delivery := next.delivery, secrets := next.secrets)
    requires DeliveryAccepted(next)
    requires next.secrets == r.secrets || (next.secrets.None? && IsTerminal(r.state) && r.pending == [])
    ensures Inv(next)
  {
    OwnEventsCarry(r, next);
  }

  lemma DelayIsPositive(sha: Digest, eventId: string, attempt: nat, initial: int, maximum: int)
    requires attempt > 0 && 0 < initial <= maximum
    ensures RetryDelay.Delay(sha, eventId, attempt, initial, maximum) > 0
  {
    RetryDelay.DelayBounds(sha, eventId, attempt, initial, maximum);
  }

  lemma ReserveKeepsInv(sha: Digest, r: Record, eventId: string, at: Time, initial: int, maximum: int)
    requires Inv(r) && 0 < initial <= maximum
    ensures Safe(ReserveAttempt(sha, r, eventId, at, initial, maximum))
  {
    hide RetryDelay.Delay, Inv;
    var v := ReserveAttempt(sha, r, eventId, at, initial, maximum);
    if v.Save? {
      DelayIsPositive(sha, eventId, v.next.delivery.value.attempts, initial, maximum);
      ChargeKeepsInv(r, v.next);
    }
  }

  /** A fresh attempt at the head. */
  lemma ChargeKeepsInv(r: Record, next: Record)
    requires Inv(r) && next == r.(delivery := next.delivery) && next.delivery.Some? && r.pending != []
    requires var d := next.delivery.value;
             d.eventId == r.pending[0].id && d.attempts > 0 && d.lastAt <= d.nextAt && d.status == 0 && d.code == ""
    ensures Inv(next)
  {
    assert DeliveryAccepted(r);
    OwnEventsCarry(r, next);
    hide Inv, OwnEvent;
    CursorChangeKeepsInv(r, next);
  }

  lemma RetryFailureKeepsInv(r: Record, eventId: string, status: int, code: string)
    requires Inv(r) && ValidCallbackFailure(status, code, true)
    ensures Safe(RecordRetryFailure(r, eventId, status, code))
  {
    var v := RecordRetryFailure(r, eventId, status, code);
    if v.Save? {
      OwnEventsCarry(r, v.next);
      CursorChangeKeepsInv(r, v.next);
    }
  }

  lemma ClearSecretsKeepsInv(r: Record)
    requires Inv(r)
    ensures Safe(ClearTerminalSecrets(r))
  {
    var v := ClearTerminalSecrets(r);
    if v.Save? {
      OwnEventsCarry(r, v.next);
      CursorChangeKeepsInv(r, v.next);
    }
  }

  lemma IssueKeyKeepsInv(r: Record, request: KeyRequest, response: KeyResponse)
    requires Inv(r) && ValidKeyRequest(request) && ValidKeyResponse(request, response)
    ensures Safe(RecordKeyIssue(r, request, response))
  {
    var v := RecordKeyIssue(r, request, response);
    if v.Save? {
      SameOutboxCarries(r.(secrets := v.next.secrets), v.next);
      assert ValidKeyRequest(request);
      var s, t := r.secrets.value, v.next.secrets.value;
      forall id | id in t.issues
        ensures
          && id == t.issues[id].request.id
          && t.issues[id].fingerprint == t.issues[id].request
          && (if id == t.currentKey then ValidKeyResponse(t.issues[id].request, t.issues[id].response)
              else t.issues[id].response.requestId == id && t.issues[id].response.streamKey == "")
      {
      }
    }
  }

  /** Every mutator saves only records that the next load accepts. */
  lemma StepKeepsInv(sha: Digest, r: Record, op: Op)
    requires Inv(r)
    ensures Safe(Decide(sha, r, op))
  {
    hide Safe, Inv, ValidCloseReason, ValidCallbackFailure, ValidLadderCode, ValidKeyRequest, ValidKeyResponse,
      OpaqueId,
      AddSegments, RecordHeartbeat, RecordPresence, ExpirePublisher, RestartLadder, Evaluate, RecordStalled, BeginTermination,
      AcknowledgeEvent, ReserveAttempt, RecordRetryFailure, ParkRejection, ClearTerminalSecrets, RecordKeyIssue, CompleteActivation;
    if !Admissible(op) {
      UnsavedIsSafe(Decide(sha, r, op));
    } else {
      match op {
        case Segments(batch, now) => AddSegmentsKeepsInv(sha, r, batch, now);
        case HeartbeatOp(now, interval) => HeartbeatKeepsInv(r, now, interval);
        case LadderRestartOp(code, now, window) => LadderKeepsInv(r, code, now, window);
        case EvaluateHealth(now, stallAfter, failAfter) => EvaluateKeepsInv(r, now, stallAfter, failAfter);
        case StallOutput(now) => RecordStalledKeepsInv(r, now);
        case Presence(online, now) => PresenceKeepsInv(r, online, now);
        case ExpireAbsent(now, initialWait, grace) => ExpireKeepsInv(r, now, initialWait, grace);
        case BeginTerminal(reason, target) => TerminationKeepsInv(r, reason, target);
        case Acknowledge(eventId) => AcknowledgeKeepsInv(r, eventId);
        case Reserve(eventId, at, initial, maximum) => ReserveKeepsInv(sha, r, eventId, at, initial, maximum);
        case RetryFailure(eventId, status, code) => RetryFailureKeepsInv(r, eventId, status, code);
        case Park(eventId, status, code, at) => ParkKeepsInv(r, eventId, status, code, at);
        case ClearSecrets => ClearSecretsKeepsInv(r);
        case IssueKey(request, response) => IssueKeyKeepsInv(r, request, response);
        case CompleteKey(requestId) => CompleteKeyKeepsInv(r, requestId);
      }
    }
  }
}
