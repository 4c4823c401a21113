/** Who may stop a session, and who may complete a pending key activation. */
module SessionGates {
  import opened Basics
  import opened LiveContract
  import opened SessionRecord
  import opened SessionSteps
  import opened SessionInvariant
  import opened SessionRuns

  /** A pending activation of a live session is entered only by an issue and left
      only by its own completion, a session stops only on request or for an absent
      publisher, keys are issued only by a request for one, and secrets go only
      when they are cleared. */
  ghost predicate MindsGates(r: Record, a: Action, v: Verdict)
  {
    v.Save? ==>
      && (r.pendingKey != "" && Live(v.next) && !(a.Do? && a.op == CompleteKey(r.pendingKey)) ==>
            v.next.pendingKey == r.pendingKey)
      && (!r.stopping && v.next.stopping ==>
            a.Do? && (a.op.ExpireAbsent? || (a.op.BeginTerminal? && v.next == Stop(r, a.op.reason, a.op.target))))
      && (v.next.secrets.Some? && v.next.secrets != r.secrets ==>
            a.Do? && a.op.IssueKey?)
      && (a.Do? && a.op.IssueKey? ==> v == RecordKeyIssue(r, a.op.request, a.op.response) && ValidKeyRequest(a.op.request))
      && (v.next.pendingKey != "" && v.next.pendingKey != r.pendingKey ==> a.Do? && a.op.IssueKey?)
      && (v.next.secrets.None? && r.secrets.Some? ==> a.Do? && a.op.ClearSecrets?)
  }

  /** Neither gate is touched, or the session is over; secrets stay as they are. */
  ghost predicate LeavesGates(r: Record, v: Verdict)
  {
    v.Save? ==>
      && ((v.next.pendingKey == r.pendingKey && v.next.stopping == r.stopping)
          || (!v.next.state.Active? && !v.next.stopping && v.next.pendingKey == ""))
      && v.next.secrets == r.secrets
  }

  lemma UnsavedLeavesGates(r: Record, v: Verdict)
    requires !v.Save?
    ensures LeavesGates(r, v)
  {
  }

  lemma LeavingMindsGates(r: Record, a: Action, v: Verdict)
    requires LeavesGates(r, v) && (a.Do? && a.op.IssueKey? ==> !v.Save?)
    ensures MindsGates(r, a, v)
  {
  }

  lemma SegmentsLeaveGates(sha: Digest, r: Record, batch: seq<Segment>, now: Time)
    ensures LeavesGates(r, AddSegments(sha, r, batch, now))
  {
    hide ValidEvent, EventId, MeterBatch;
  }

  lemma EmittersLeaveGates(r: Record, now: Time, interval: int, code: string, failAfter: int)
    ensures LeavesGates(r, RecordHeartbeat(r, now, interval)) && LeavesGates(r, RestartLadder(r, code, now, interval))
    ensures LeavesGates(r, RecordStalled(r, now)) && LeavesGates(r, Evaluate(r, now, interval, failAfter))
  {
    hide ValidEvent, EventId;
  }

  lemma SettlementsLeaveGates(r: Record, id: string, at: Time, status: int, code: string)
    ensures LeavesGates(r, AcknowledgeEvent(r, id)) && LeavesGates(r, RecordRetryFailure(r, id, status, code))
    ensures LeavesGates(r, ParkRejection(r, id, status, code, at))
  {
  }

  lemma ReserveLeavesGates(sha: Digest, r: Record, id: string, at: Time, initial: int, maximum: int)
    requires 0 < initial <= maximum
    ensures LeavesGates(r, ReserveAttempt(sha, r, id, at, initial, maximum))
  {
    hide RetryDelay.Delay;
  }

  lemma PresenceLeavesGates(r: Record, online: bool, now: Time)
    ensures LeavesGates(r, RecordPresence(r, online, now))
  {
  }

  lemma AdvanceLeavesGates(r: Record, e: Event)
    ensures LeavesGates(r, Advance(r, e))
  {
  }

  lemma StopsMindGates(r: Record, a: Action)
    requires a.Do? && (a.op.ExpireAbsent? || a.op.BeginTerminal?)
    ensures a.op.ExpireAbsent? ==> MindsGates(r, a, ExpirePublisher(r, a.op.now, a.op.initialWait, a.op.grace))
    ensures a.op.BeginTerminal? ==> MindsGates(r, a, BeginTermination(r, a.op.reason, a.op.target))
  {
    hide WithDeadline;
  }

  lemma KeysMindGates(r: Record, a: Action)
    requires a.Do? && (a.op.IssueKey? || a.op.CompleteKey? || a.op.ClearSecrets?) && Admissible(a.op)
    ensures a.op.ClearSecrets? ==> MindsGates(r, a, ClearTerminalSecrets(r))
    ensures a.op.IssueKey? ==> MindsGates(r, a, RecordKeyIssue(r, a.op.request, a.op.response))
    ensures a.op.CompleteKey? ==> MindsGates(r, a, CompleteActivation(r, a.op.requestId))
  {
    hide Blanked;
  }

  predicate MovesGates(op: Op)
  {
    op.ExpireAbsent? || op.BeginTerminal? || op.IssueKey? || op.CompleteKey? || op.ClearSecrets?
  }

  lemma OtherOpsLeaveGates(sha: Digest, r: Record, op: Op)
    requires !MovesGates(op)
    ensures LeavesGates(r, Decide(sha, r, op))
  {
    hide LeavesGates, ValidCloseReason, ValidCallbackFailure, ValidLadderCode, ValidKeyResponse, OpaqueId,
      AddSegments, RecordHeartbeat, RecordPresence, ExpirePublisher, RestartLadder, Evaluate, RecordStalled, BeginTermination,
      AcknowledgeEvent, ReserveAttempt, RecordRetryFailure, ParkRejection, ClearTerminalSecrets, RecordKeyIssue, CompleteActivation;
    if !Admissible(op) {
      UnsavedLeavesGates(r, Decide(sha, r, op));
      return;
    }
    match op {
      case Segments(batch, now) => SegmentsLeaveGates(sha, r, batch, now);
      case HeartbeatOp(now, interval) => EmittersLeaveGates(r, now, interval, "", 0);
      case Presence(online, now) => PresenceLeavesGates(r, online, now);
      case LadderRestartOp(code, now, window) => EmittersLeaveGates(r, now, window, code, 0);
      case EvaluateHealth(now, stallAfter, failAfter) => EmittersLeaveGates(r, now, stallAfter, "", failAfter);
      case StallOutput(now) => EmittersLeaveGates(r, now, 0, "", 0);
      case Acknowledge(id) => SettlementsLeaveGates(r, id, 0, 0, "");
      case Reserve(id, at, initial, maximum) => ReserveLeavesGates(sha, r, id, at, initial, maximum);
      case RetryFailure(id, status, code) => SettlementsLeaveGates(r, id, 0, status, code);
      case Park(id, status, code, at) => SettlementsLeaveGates(r, id, at, status, code);
    }
  }

  lemma OpMindsGates(sha: Digest, r: Record, a: Action)
    requires a.Do?
    ensures MindsGates(r, a, Decide(sha, r, a.op))
  {
    hide MindsGates, LeavesGates, ValidCloseReason, ValidKeyResponse, ValidKeyRequest, OpaqueId,
      ExpirePublisher, BeginTermination, RecordKeyIssue, CompleteActivation, ClearTerminalSecrets;
    if MovesGates(a.op) && Admissible(a.op) {
      if a.op.IssueKey? || a.op.CompleteKey? || a.op.ClearSecrets? {
        KeysMindGates(r, a);
      } else {
        StopsMindGates(r, a);
      }
    } else if MovesGates(a.op) {
      UnsavedLeavesGates(r, Decide(sha, r, a.op));
      LeavingMindsGates(r, a, Decide(sha, r, a.op));
    } else {
      OtherOpsLeaveGates(sha, r, a.op);
      LeavingMindsGates(r, a, Decide(sha, r, a.op));
    }
  }

  /** Every action of a run minds both gates. */
  lemma ActionMindsGates(sha: Digest, states: seq<Record>, a: Action)
    requires states != []
    ensures MindsGates(states[|states| - 1], a, Verdicts(sha, states, a))
  {
    hide Decide, Advance, MindsGates, LeavesGates;
    var r, v := states[|states| - 1], Verdicts(sha, states, a);
    if a.Do? {
      OpMindsGates(sha, r, a);
    } else {
      if a.Start? && a.loaded < |states| {
        AdvanceLeavesGates(r, StartEvent(states[a.loaded], a.now));
      } else if a.Finish? && a.loaded < |states| {
        AdvanceLeavesGates(r, TerminalEvent(states[a.loaded], a.now));
      }
      UnsavedLeavesGates(r, Keep);
      LeavingMindsGates(r, a, v);
    }
  }
}
