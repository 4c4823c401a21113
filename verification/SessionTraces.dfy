/** What each mutator leaves behind of what it observed: the times of the publisher,
    of segments and of events, and the window of ladder failures. */
module SessionTraces {
  import opened Basics
  import opened LiveContract
  import opened SessionRecord
  import opened SessionSteps
  import opened SessionInvariant
  import opened SessionRuns

  predicate SameObservations(r: Record, n: Record)
  {
    && n.onlineAt == r.onlineAt && n.publisherSeen == r.publisherSeen && n.offlineSince == r.offlineSince
    && n.lastSegmentAt == r.lastSegmentAt && n.segments == r.segments && SameLadder(r, n)
  }

  predicate SameLadder(r: Record, n: Record)
  {
    n.ladderWindowAt == r.ladderWindowAt && n.ladderFailures == r.ladderFailures
  }

  predicate LadderReset(n: Record) { n.ladderWindowAt.None? && n.ladderFailures == 0 }

  /** The time of the last event is the one stamped on it. */
  predicate Stamped(r: Record, v: Verdict)
    requires v.Save?
  {
    if v.effect.Appended? then v.next.lastEventAt == Some(v.effect.event.time) else v.next.lastEventAt == r.lastEventAt
  }

  predicate SegmentsSeen(r: Record, now: Time, n: Record)
  {
    && n.segments != r.segments && n.lastSegmentAt == Some(now) && n.output.Producing? && LadderReset(n)
    && n.onlineAt == r.onlineAt && n.publisherSeen == r.publisherSeen && n.offlineSince == r.offlineSince
  }

  predicate PublisherCame(r: Record, now: Time, n: Record)
  {
    && r.onlineAt.None? && n.onlineAt == Some(now) && n.publisherSeen && n.offlineSince.None?
    && n.lastSegmentAt == r.lastSegmentAt && n.segments == r.segments && SameLadder(r, n)
  }

  predicate PublisherWent(r: Record, now: Time, n: Record)
  {
    && r.onlineAt.Some? && n.onlineAt.None? && n.publisherSeen && n.offlineSince == Some(now)
    && n.lastSegmentAt == r.lastSegmentAt && n.segments == r.segments && LadderReset(n)
  }

  /** An absence check may only note since when it has been counting. */
  predicate AbsenceSeen(r: Record, now: Time, n: Record)
  {
    && n.onlineAt == r.onlineAt && n.publisherSeen == r.publisherSeen
    && (n.offlineSince == r.offlineSince || (r.offlineSince.None? && n.offlineSince == Some(now)))
    && n.lastSegmentAt == r.lastSegmentAt && n.segments == r.segments && SameLadder(r, n)
  }

  /** The window that was opened earlier still covers this moment. */
  predicate InWindow(r: Record, now: Time, window: int)
  {
    r.ladderWindowAt.Some? && r.ladderWindowAt.value != ZERO_TIME && TimeSub(now, r.ladderWindowAt.value) <= window
  }

  predicate RestartSeen(r: Record, now: Time, window: int, n: Record)
  {
    && now != ZERO_TIME
    && n.onlineAt == r.onlineAt && n.publisherSeen == r.publisherSeen && n.offlineSince == r.offlineSince
    && n.lastSegmentAt == r.lastSegmentAt && n.segments == r.segments && n.lastSequence == r.lastSequence + 1
    && (if InWindow(r, now, window) then n.ladderWindowAt == r.ladderWindowAt && n.ladderFailures == r.ladderFailures + 1
        else n.ladderWindowAt == Some(now) && n.ladderFailures == 1)
  }

  predicate Observed(r: Record, op: Op, n: Record)
  {
    match op
    case Segments(_, now) => SegmentsSeen(r, now, n)
    case Presence(online, now) => if online then PublisherCame(r, now, n) else PublisherWent(r, now, n)
    case ExpireAbsent(now, _, _) => AbsenceSeen(r, now, n)
    case LadderRestartOp(_, now, window) => RestartSeen(r, now, window, n)
    case _ => SameObservations(r, n)
  }

  ghost predicate Traces(r: Record, a: Action, v: Verdict)
  {
    v.Save? ==> Stamped(r, v) && if a.Do? then Observed(r, a.op, v.next) else SameObservations(r, v.next)
  }

  ghost predicate NothingSeen(r: Record, v: Verdict)
  {
    v.Save? ==> Stamped(r, v) && SameObservations(r, v.next)
  }

  ghost predicate Seen(r: Record, op: Op, v: Verdict)
  {
    v.Save? ==> Stamped(r, v) && Observed(r, op, v.next)
  }

  lemma SegmentsTrace(sha: Digest, r: Record, batch: seq<Segment>, now: Time)
    ensures var v := AddSegments(sha, r, batch, now); v.Save? ==> Stamped(r, v) && SegmentsSeen(r, now, v.next)
  {
    hide ValidEvent, EventId, MeterBatch;
  }

  lemma PresenceTrace(r: Record, online: bool, now: Time)
    ensures var v := RecordPresence(r, online, now);
            v.Save? ==> Stamped(r, v) && if online then PublisherCame(r, now, v.next) else PublisherWent(r, now, v.next)
  {
  }

  lemma AbsenceTrace(r: Record, now: Time, initialWait: int, grace: int)
    ensures var v := ExpirePublisher(r, now, initialWait, grace);
            v.Save? ==> Stamped(r, v) && AbsenceSeen(r, now, v.next)
  {
  }

  lemma RestartTrace(r: Record, code: string, now: Time, window: int)
    requires now != ZERO_TIME
    ensures var v := RestartLadder(r, code, now, window);
            v.Save? ==> Stamped(r, v) && RestartSeen(r, now, window, v.next)
  {
    hide ValidEvent, EventId;
  }

  lemma EmittersTrace(r: Record, now: Time, interval: int, failAfter: int)
    ensures NothingSeen(r, RecordHeartbeat(r, now, interval)) && NothingSeen(r, RecordStalled(r, now))
    ensures NothingSeen(r, Evaluate(r, now, interval, failAfter))
  {
    hide ValidEvent, EventId;
  }

  lemma SettlementsTrace(r: Record, id: string, at: Time, status: int, code: string)
    ensures NothingSeen(r, AcknowledgeEvent(r, id)) && NothingSeen(r, RecordRetryFailure(r, id, status, code))
    ensures NothingSeen(r, ParkRejection(r, id, status, code, at))
  {
  }

  lemma ReserveTrace(sha: Digest, r: Record, id: string, at: Time, initial: int, maximum: int)
    requires 0 < initial <= maximum
    ensures NothingSeen(r, ReserveAttempt(sha, r, id, at, initial, maximum))
  {
    hide RetryDelay.Delay;
  }

  lemma SecretsTrace(r: Record, request: KeyRequest, response: KeyResponse, id: string, reason: string, target: State)
    ensures NothingSeen(r, RecordKeyIssue(r, request, response)) && NothingSeen(r, CompleteActivation(r, id))
    ensures NothingSeen(r, ClearTerminalSecrets(r)) && NothingSeen(r, BeginTermination(r, reason, target))
  {
    hide Blanked;
  }

  lemma AdvanceTrace(r: Record, e: Event)
    ensures NothingSeen(r, Advance(r, e))
  {
  }

  lemma OpTraces(sha: Digest, r: Record, op: Op)
    ensures Seen(r, op, Decide(sha, r, op))
  {
    hide NothingSeen, Stamped, SegmentsSeen, PublisherCame, PublisherWent, AbsenceSeen, RestartSeen, SameObservations,
      ValidCloseReason, ValidCallbackFailure, ValidLadderCode, ValidKeyResponse, OpaqueId,
      AddSegments, RecordHeartbeat, RecordPresence, ExpirePublisher, RestartLadder, Evaluate, RecordStalled, BeginTermination,
      AcknowledgeEvent, ReserveAttempt, RecordRetryFailure, ParkRejection, ClearTerminalSecrets, RecordKeyIssue, CompleteActivation;
    if !Admissible(op) {
      return;
    }
    match op {
      case Segments(batch, now) => SegmentsTrace(sha, r, batch, now);
      case Presence(online, now) => PresenceTrace(r, online, now);
      case ExpireAbsent(now, initialWait, grace) => AbsenceTrace(r, now, initialWait, grace);
      case LadderRestartOp(code, now, window) => RestartTrace(r, code, now, window);
      case _ => OtherOpTraces(sha, r, op);
    }
  }

  lemma OtherOpTraces(sha: Digest, r: Record, op: Op)
    requires Admissible(op) && !op.Segments? && !op.Presence? && !op.ExpireAbsent? && !op.LadderRestartOp?
    ensures Seen(r, op, Decide(sha, r, op))
  {
    hide Stamped, SameObservations, Admissible,
      RecordHeartbeat, Evaluate, RecordStalled, BeginTermination,
      AcknowledgeEvent, ReserveAttempt, RecordRetryFailure, ParkRejection, ClearTerminalSecrets, RecordKeyIssue, CompleteActivation;
    match op {
      case HeartbeatOp(now, interval) => EmittersTrace(r, now, interval, 0);
      case EvaluateHealth(now, stallAfter, failAfter) => EmittersTrace(r, now, stallAfter, failAfter);
      case StallOutput(now) => EmittersTrace(r, now, 0, 0);
      case BeginTerminal(reason, target) => SecretsTrace(r, KeyRequest("", GatewayRelay), KeyResponse("", "", None), "", reason, target);
      case Acknowledge(id) => SettlementsTrace(r, id, 0, 0, "");
      case Reserve(id, at, initial, maximum) => ReserveIsTraced(sha, r, op);
      case RetryFailure(id, status, code) => SettlementsTrace(r, id, 0, status, code);
      case Park(id, status, code, at) => SettlementsTrace(r, id, at, status, code);
      case ClearSecrets => SecretsTrace(r, KeyRequest("", GatewayRelay), KeyResponse("", "", None), "", "", Ended);
      case IssueKey(request, response) => SecretsTrace(r, request, response, "", "", Ended);
      case CompleteKey(id) => SecretsTrace(r, KeyRequest("", GatewayRelay), KeyResponse("", "", None), id, "", Ended);
    }
  }

  lemma ReserveIsTraced(sha: Digest, r: Record, op: Op)
    requires Admissible(op) && op.Reserve?
    ensures NothingSeen(r, ReserveAttempt(sha, r, op.eventId, op.at, op.initial, op.maximum))
  {
    hide ReserveAttempt, NothingSeen;
    ReserveTrace(sha, r, op.eventId, op.at, op.initial, op.maximum);
  }

  /** Every action of a run leaves exactly these traces. */
  lemma ActionTraces(sha: Digest, states: seq<Record>, a: Action)
    requires states != []
    ensures Traces(states[|states| - 1], a, Verdicts(sha, states, a))
  {
    hide Decide, Advance, Observed, SameObservations, Stamped;
    var r := states[|states| - 1];
    if a.Do? {
      OpTraces(sha, r, a.op);
    } else if a.Start? && a.loaded < |states| {
      AdvanceTrace(r, StartEvent(states[a.loaded], a.now));
    } else if a.Finish? && a.loaded < |states| {
      AdvanceTrace(r, TerminalEvent(states[a.loaded], a.now));
    }
  }
}
