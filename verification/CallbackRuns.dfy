/** Callback attempts of one event over whole runs, crashes and restarts included. */
module CallbackRuns {
  import opened Basics
  import opened LiveContract
  import opened SessionRecord
  import opened SessionSteps
  import opened SessionInvariant
  import opened SessionRuns
  import opened SessionProgress
  import opened SessionTheorems
  import opened SessionGuarantees
  import opened PublisherRuns
  import RetryDelay

  /** Sequence of the outbox head, or of the next event when it is empty. */
  function HeadSequence(r: Record): (n: nat)
  {
    if r.pending != [] then r.pending[0].sequence else r.lastSequence + 1
  }

  predicate SameAttempt(a: Delivery, b: Delivery)
  {
    a.eventId == b.eventId && a.attempts == b.attempts && a.lastAt == b.lastAt && a.nextAt == b.nextAt
  }

  /** The attempt was charged by a reservation, on the schedule. */
  ghost predicate Scheduled(sha: Digest, d: Delivery, a: Action)
  {
    && a.Do? && a.op.Reserve? && 0 < a.op.initial <= a.op.maximum
    && a.op.eventId == d.eventId && a.op.at == d.lastAt && d.attempts > 0
    && d.nextAt == d.lastAt + RetryDelay.Delay(sha, d.eventId, d.attempts, a.op.initial, a.op.maximum)
  }

  /** What one verdict may do to the delivery cursor. */
  ghost predicate CursorStep(sha: Digest, r: Record, a: Action, v: Verdict)
  {
    v.Save? ==>
      if v.effect.Acknowledged? || v.effect.Parked? then v.next.delivery.None?
      else if v.next.delivery.None? then r.delivery.None?
      else
        var d := v.next.delivery.value;
        if r.delivery.Some? && SameAttempt(r.delivery.value, d) then true
        else
          && Scheduled(sha, d, a)
          && (r.delivery.Some? ==> d.eventId == r.delivery.value.eventId && d.attempts == r.delivery.value.attempts + 1
                                   && r.delivery.value.nextAt <= d.lastAt)
  }

  lemma CursorKept(sha: Digest, r: Record, a: Action, v: Verdict)
    requires v.Save? ==> v.next.delivery == r.delivery && !v.effect.Acknowledged? && !v.effect.Parked?
    ensures CursorStep(sha, r, a, v)
  {
    hide Scheduled;
  }

  lemma EmittersKeepCursor(r: Record, now: Time, interval: int, code: string, failAfter: int)
    ensures KeepsCursor(r, RecordHeartbeat(r, now, interval)) && KeepsCursor(r, RestartLadder(r, code, now, interval))
    ensures KeepsCursor(r, RecordStalled(r, now)) && KeepsCursor(r, Evaluate(r, now, interval, failAfter))
  {
    hide ValidEvent, EventId;
  }

  predicate KeepsCursor(r: Record, v: Verdict)
  {
    v.Save? ==> v.next.delivery == r.delivery && !v.effect.Acknowledged? && !v.effect.Parked?
  }

  lemma SegmentsKeepCursor(sha: Digest, r: Record, batch: seq<Segment>, now: Time)
    ensures KeepsCursor(r, AddSegments(sha, r, batch, now))
  {
    hide ValidEvent, EventId, MeterBatch;
  }

  lemma ObservationsKeepCursor(r: Record, online: bool, now: Time, initialWait: int, grace: int, reason: string,
                               target: State)
    ensures KeepsCursor(r, RecordPresence(r, online, now)) && KeepsCursor(r, BeginTermination(r, reason, target))
    ensures KeepsCursor(r, ExpirePublisher(r, now, initialWait, grace))
  {
    hide WithDeadline;
  }

  lemma SecretsKeepCursor(r: Record, request: KeyRequest, response: KeyResponse, id: string)
    ensures KeepsCursor(r, RecordKeyIssue(r, request, response)) && KeepsCursor(r, CompleteActivation(r, id))
    ensures KeepsCursor(r, ClearTerminalSecrets(r))
  {
    hide Blanked;
  }

  lemma AdvanceKeepsCursor(r: Record, e: Event)
    ensures KeepsCursor(r, Advance(r, e))
  {
  }

  lemma SettlementsMoveCursor(sha: Digest, r: Record, id: string, at: Time, status: int, code: string, a: Action)
    ensures CursorStep(sha, r, a, AcknowledgeEvent(r, id)) && CursorStep(sha, r, a, RecordRetryFailure(r, id, status, code))
    ensures CursorStep(sha, r, a, ParkRejection(r, id, status, code, at))
  {
    hide Scheduled;
  }

  lemma ReserveMovesCursor(sha: Digest, r: Record, a: Action)
    requires a.Do? && a.op.Reserve? && 0 < a.op.initial <= a.op.maximum
    ensures CursorStep(sha, r, a, ReserveAttempt(sha, r, a.op.eventId, a.op.at, a.op.initial, a.op.maximum))
  {
    hide RetryDelay.Delay, IsSha256Hex;
  }

  lemma OtherOpsKeepCursor(sha: Digest, r: Record, op: Op)
    requires !op.Acknowledge? && !op.Reserve? && !op.RetryFailure? && !op.Park?
    ensures KeepsCursor(r, Decide(sha, r, op))
  {
    hide KeepsCursor, ValidCloseReason, ValidCallbackFailure, ValidLadderCode, ValidKeyResponse, OpaqueId,
      AddSegments, RecordHeartbeat, RecordPresence, ExpirePublisher, RestartLadder, Evaluate, RecordStalled, BeginTermination,
      AcknowledgeEvent, ReserveAttempt, RecordRetryFailure, ParkRejection, ClearTerminalSecrets, RecordKeyIssue, CompleteActivation;
    if !Admissible(op) {
      RefusalKeepsCursor(r, Decide(sha, r, op));
      return;
    }
    match op {
      case Segments(batch, now) => SegmentsKeepCursor(sha, r, batch, now);
      case HeartbeatOp(now, interval) => EmittersKeepCursor(r, now, interval, "", 0);
      case Presence(online, now) => ObservationsKeepCursor(r, online, now, 0, 0, "", Ended);
      case ExpireAbsent(now, initialWait, grace) => ObservationsKeepCursor(r, true, now, initialWait, grace, "", Ended);
      case LadderRestartOp(code, now, window) => EmittersKeepCursor(r, now, window, code, 0);
      case EvaluateHealth(now, stallAfter, failAfter) => EmittersKeepCursor(r, now, stallAfter, "", failAfter);
      case StallOutput(now) => EmittersKeepCursor(r, now, 0, "", 0);
      case BeginTerminal(reason, target) => ObservationsKeepCursor(r, true, 0, 0, 0, reason, target);
      case ClearSecrets => SecretsKeepCursor(r, KeyRequest("", GatewayRelay), KeyResponse("", "", None), "");
      case IssueKey(request, response) => SecretsKeepCursor(r, request, response, "");
      case CompleteKey(id) => SecretsKeepCursor(r, KeyRequest("", GatewayRelay), KeyResponse("", "", None), id);
    }
  }

  lemma RefusalKeepsCursor(r: Record, v: Verdict)
    requires !v.Save?
    ensures KeepsCursor(r, v)
  {
  }

  lemma OpMovesCursor(sha: Digest, r: Record, a: Action)
    requires a.Do?
    ensures CursorStep(sha, r, a, Decide(sha, r, a.op))
  {
    hide CursorStep, KeepsCursor, ValidCallbackFailure, AcknowledgeEvent, ReserveAttempt, RecordRetryFailure,
      ParkRejection,
      ValidLadderCode, ValidKeyResponse, OpaqueId, ValidCloseReason;
    if a.op.Acknowledge? || a.op.RetryFailure? || a.op.Park? || a.op.Reserve? {
      if !Admissible(a.op) {
        RefusalKeepsCursor(r, Decide(sha, r, a.op));
        KeptIsAStep(sha, r, a, Decide(sha, r, a.op));
        return;
      }
      match a.op {
        case Acknowledge(id) => SettlementsMoveCursor(sha, r, id, 0, 0, "", a);
        case Reserve(_, _, _, _) => ReserveMovesCursor(sha, r, a);
        case RetryFailure(id, status, code) => SettlementsMoveCursor(sha, r, id, 0, status, code, a);
        case Park(id, status, code, at) => SettlementsMoveCursor(sha, r, id, at, status, code, a);
      }
    } else {
      OtherOpsKeepCursor(sha, r, a.op);
      hide Decide;
      KeptIsAStep(sha, r, a, Decide(sha, r, a.op));
    }
  }

  lemma KeptIsAStep(sha: Digest, r: Record, a: Action, v: Verdict)
    requires KeepsCursor(r, v)
    ensures CursorStep(sha, r, a, v)
  {
    CursorKept(sha, r, a, v);
  }

  lemma ActionMovesCursor(sha: Digest, states: seq<Record>, a: Action)
    requires states != []
    ensures CursorStep(sha, states[|states| - 1], a, Verdicts(sha, states, a))
  {
    hide Decide, Advance, CursorStep, KeepsCursor;
    var r := states[|states| - 1];
    match a {
      case Do(_, _) => OpMovesCursor(sha, r, a);
      case Start(loaded, now, _) =>
        if loaded < |states| { AdvanceKeepsCursor(r, StartEvent(states[loaded], now)); }
        RefusalKeepsCursor(r, Keep);
        KeptIsAStep(sha, r, a, Verdicts(sha, states, a));
      case Finish(loaded, now, _) =>
        if loaded < |states| { AdvanceKeepsCursor(r, TerminalEvent(states[loaded], now)); }
        RefusalKeepsCursor(r, Keep);
        KeptIsAStep(sha, r, a, Verdicts(sha, states, a));
    }
  }

  // ------------------------------------------------------------ over whole runs

  lemma CursorNamesHead(r: Record)
    requires Inv(r)
    ensures r.delivery.Some? ==> r.pending != [] && r.delivery.value.eventId == EventId(r.runnerId, HeadSequence(r))
                                 && r.delivery.value.lastAt <= r.delivery.value.nextAt
  {
    if r.delivery.Some? {
      assert OwnEvent(r, r.pending[0]);
    }
  }

  /** The head only moves forward, and it moves whenever it is settled. */
  lemma HeadAdvances(r: Record, v: Verdict)
    requires Inv(r) && Shaped(r, v) && v.Save?
    ensures HeadSequence(r) <= HeadSequence(v.next)
    ensures v.effect.Acknowledged? || v.effect.Parked? ==> HeadSequence(r) < HeadSequence(v.next)
  {
    if r.pending != [] {
      assert OwnEvent(r, r.pending[0]);
      if |r.pending| > 1 {
        assert OutboxOrder(r.pending[0], r.pending[1]);
      }
    }
    hide Inv, OwnEvent;
  }

  /** The later attempt at the same event continues the earlier one. */
  predicate Continues(d: Delivery, e: Delivery)
  {
    && d.eventId == e.eventId && d.attempts <= e.attempts
    && (d.attempts == e.attempts ==> SameAttempt(d, e))
    && (d.attempts < e.attempts ==> d.nextAt <= e.lastAt)
  }

  ghost predicate CursorMoves(sha: Digest, r: Record, a: Action, n: Record)
  {
    && HeadSequence(r) <= HeadSequence(n) && r.runnerId == n.runnerId
    && (r.delivery.Some? && HeadSequence(n) == HeadSequence(r) ==>
          n.delivery.Some? && Continues(r.delivery.value, n.delivery.value))
    && (n.delivery.Some? ==> (r.delivery.Some? && SameAttempt(r.delivery.value, n.delivery.value)) || Scheduled(sha, n.delivery.value, a))
  }

  lemma OutcomeMovesCursor(sha: Digest, r: Record, a: Action, v: Verdict)
    requires Inv(r) && Progress(r, v) && CursorStep(sha, r, a, v)
    ensures CursorMoves(sha, r, a, Outcome(r, a, v))
  {
    if Commits(v, a) {
      HeadAdvances(r, v);
      hide Inv, Shaped, CursorStep, CursorMoves, HeadSequence, KeysOnlyAdvance, KeepsPinnedTermination, StaysClosed;
      CommitMovesCursor(sha, r, a, v);
    }
  }

  lemma CommitMovesCursor(sha: Digest, r: Record, a: Action, v: Verdict)
    requires v.Save? && CursorStep(sha, r, a, v) && r.runnerId == v.next.runnerId
    requires HeadSequence(r) <= HeadSequence(v.next)
    requires v.effect.Acknowledged? || v.effect.Parked? ==> HeadSequence(r) < HeadSequence(v.next)
    ensures CursorMoves(sha, r, a, v.next)
  {
    hide HeadSequence, Scheduled;
    if v.next.delivery.Some? && !(r.delivery.Some? && SameAttempt(r.delivery.value, v.next.delivery.value)) {
      assert Scheduled(sha, v.next.delivery.value, a);
    }
  }

  lemma CursorTransition(sha: Digest, actions: seq<Action>, run: Run, k: nat)
    requires Execution(sha, actions, run) && k < |actions|
    ensures |run.states| == |actions| + 1 && Inv(run.states[k]) && Inv(run.states[k + 1])
    ensures CursorMoves(sha, run.states[k], actions[k], run.states[k + 1])
  {
    hide Execution, Inv, Later, Verdicts, CursorStep, CursorMoves, Progress, Safe, Outcome;
    ExecutionIsSound(sha, actions, run);
    assert Transition(sha, run.states, actions, k);
    var states := run.states[..k + 1];
    PrefixIsSound(run.states, k + 1);
    VerdictIsSound(sha, states, actions[k]);
    ActionMovesCursor(sha, states, actions[k]);
    OutcomeMovesCursor(sha, run.states[k], actions[k], Verdicts(sha, states, actions[k]));
  }

  lemma PrefixIsSound(states: seq<Record>, k: nat)
    requires StatesSound(states) && 0 < k <= |states|
    ensures StatesSound(states[..k])
  {
    hide Inv, Later;
  }

  /** What the cursor does from one durable record to the next. */
  predicate CursorKeeps(r: Record, n: Record)
  {
    && HeadSequence(r) <= HeadSequence(n) && r.runnerId == n.runnerId
    && (r.delivery.Some? ==> r.delivery.value.lastAt <= r.delivery.value.nextAt)
    && (r.delivery.Some? && HeadSequence(n) == HeadSequence(r) ==>
          n.delivery.Some? && Continues(r.delivery.value, n.delivery.value))
  }

  lemma MovesKeep(sha: Digest, r: Record, a: Action, n: Record)
    requires Inv(r) && CursorMoves(sha, r, a, n)
    ensures CursorKeeps(r, n)
  {
    CursorNamesHead(r);
    hide Inv, HeadSequence, Scheduled, Continues;
  }

  lemma CursorsKeep(sha: Digest, actions: seq<Action>, run: Run)
    requires Execution(sha, actions, run)
    ensures |run.states| == |actions| + 1
    ensures forall k :: 0 <= k < |actions| ==> CursorKeeps(run.states[k], run.states[k + 1])
  {
    ExecutionIsSound(sha, actions, run);
    hide Execution, CursorKeeps, CursorMoves, StatesSound, Transition, Inv;
    forall k | 0 <= k < |actions| ensures CursorKeeps(run.states[k], run.states[k + 1]) {
      CursorTransition(sha, actions, run, k);
      MovesKeep(sha, run.states[k], actions[k], run.states[k + 1]);
    }
  }

  predicate CursorAhead(a: Record, b: Record)
    requires a.delivery.Some?
  {
    && HeadSequence(a) <= HeadSequence(b) && a.runnerId == b.runnerId
    && (HeadSequence(a) == HeadSequence(b) ==> b.delivery.Some? && Continues(a.delivery.value, b.delivery.value))
  }

  /** From one recorded attempt on: its event has been settled for good, or the
      cursor still records it or a later attempt at it. */
  lemma {:induction false} AttemptsContinue(states: seq<Record>, i: nat, j: nat)
    requires i <= j < |states| && forall k :: i <= k < j ==> CursorKeeps(states[k], states[k + 1])
    requires states[i].delivery.Some?
    ensures CursorAhead(states[i], states[j])
    decreases j
  {
    hide HeadSequence, Continues;
    if i < j {
      hide CursorKeeps, CursorAhead;
      AttemptsContinue(states, i, j - 1);
      assert CursorKeeps(states[j - 1], states[j - 1 + 1]);
      AheadStep(states[i], states[j - 1], states[j]);
    } else {
      assert Continues(states[i].delivery.value, states[i].delivery.value) by { ContinuesItself(states[i].delivery.value); }
    }
  }

  lemma ContinuesItself(d: Delivery)
    ensures Continues(d, d)
  {
  }

  lemma AheadStep(a: Record, b: Record, c: Record)
    requires a.delivery.Some? && CursorAhead(a, b) && CursorKeeps(b, c)
    ensures CursorAhead(a, c)
  {
    hide HeadSequence, Continues;
    if HeadSequence(a) == HeadSequence(c) {
      ContinuesCompose(a.delivery.value, b.delivery.value, c.delivery.value);
    }
  }

  lemma ContinuesCompose(d: Delivery, e: Delivery, f: Delivery)
    requires Continues(d, e) && Continues(e, f) && e.lastAt <= e.nextAt
    ensures Continues(d, f)
  {
  }

  /** A cursor entry is the one before, or was reserved by this very action. */
  ghost predicate FromReservation(sha: Digest, r: Record, a: Action, n: Record)
  {
    n.delivery.Some? ==> (r.delivery.Some? && SameAttempt(r.delivery.value, n.delivery.value)) || Scheduled(sha, n.delivery.value, a)
  }

  lemma EntriesAreReserved(sha: Digest, actions: seq<Action>, run: Run)
    requires Execution(sha, actions, run)
    ensures |run.states| == |actions| + 1 && run.states[0].delivery.None?
    ensures forall k :: 0 <= k < |actions| ==> FromReservation(sha, run.states[k], actions[k], run.states[k + 1])
  {
    ExecutionIsSound(sha, actions, run);
    hide Execution, CursorMoves, FromReservation, StatesSound, Transition, Inv;
    BeginHasNoCursor(sha, actions, run);
    forall k | 0 <= k < |actions| ensures FromReservation(sha, run.states[k], actions[k], run.states[k + 1]) {
      CursorTransition(sha, actions, run, k);
      NewOrKept(sha, run.states[k], actions[k], run.states[k + 1]);
    }
  }

  lemma {:induction false} AttemptHasReservation(sha: Digest, actions: seq<Action>, states: seq<Record>, j: nat)
    requires j <= |actions| && |states| == |actions| + 1 && states[0].delivery.None? && states[j].delivery.Some?
    requires forall k :: 0 <= k < j ==> FromReservation(sha, states[k], actions[k], states[k + 1])
    ensures HasReservation(sha, states[j].delivery.value, actions, j)
  {
    hide Scheduled, HasReservation;
    assert FromReservation(sha, states[j - 1], actions[j - 1], states[j - 1 + 1]);
    if states[j - 1].delivery.Some? && SameAttempt(states[j - 1].delivery.value, states[j].delivery.value) {
      AttemptHasReservation(sha, actions, states, j - 1);
      SameSchedule(sha, states[j - 1].delivery.value, states[j].delivery.value, actions, j - 1);
    } else {
      ReservedNow(sha, states[j].delivery.value, actions, j);
    }
  }

  ghost predicate HasReservation(sha: Digest, d: Delivery, actions: seq<Action>, j: nat)
  {
    exists m :: 0 <= m < j && m < |actions| && Scheduled(sha, d, actions[m])
  }

  lemma ReservedNow(sha: Digest, d: Delivery, actions: seq<Action>, j: nat)
    requires 0 < j <= |actions| && Scheduled(sha, d, actions[j - 1])
    ensures HasReservation(sha, d, actions, j)
  {
    hide Scheduled;
  }

  lemma NewOrKept(sha: Digest, r: Record, a: Action, n: Record)
    requires CursorMoves(sha, r, a, n)
    ensures FromReservation(sha, r, a, n)
  {
    hide Scheduled, HeadSequence;
  }

  lemma SameSchedule(sha: Digest, d: Delivery, e: Delivery, actions: seq<Action>, j: nat)
    requires SameAttempt(d, e) && HasReservation(sha, d, actions, j)
    ensures HasReservation(sha, e, actions, j + 1)
  {
    var m :| 0 <= m < j && m < |actions| && Scheduled(sha, d, actions[m]);
    assert Scheduled(sha, e, actions[m]);
  }

  lemma BeginHasNoCursor(sha: Digest, actions: seq<Action>, run: Run)
    requires Execution(sha, actions, run)
    ensures run.states != [] && run.states[0].delivery.None?
  {
    hide Verdicts;
    var request, response, now :| ValidCreation(request, response) && run == Exec(sha, Begin(request, response, now), actions);
    ExecKeepsFirst(sha, Begin(request, response, now), actions);
  }

  /** One dispatcher configuration throughout. */
  predicate SameBackoff(actions: seq<Action>, initial: int, maximum: int)
  {
    forall m :: 0 <= m < |actions| && actions[m].Do? && actions[m].op.Reserve? ==>
                  actions[m].op.initial == initial && actions[m].op.maximum == maximum
  }

  /** Any two recorded attempts at one event, however far apart and across any
      restarts in between: numbers grow, and the later attempt was not made before
      the delay of the earlier one had passed, which is its doubled base jittered
      by at most a quarter and capped. */
  lemma AttemptsAreSpaced(sha: Digest, actions: seq<Action>, run: Run, i: nat, j: nat, initial: int, maximum: int)
    requires Execution(sha, actions, run) && i <= j <= |actions| && |run.states| == |actions| + 1
    requires 0 < initial <= maximum && SameBackoff(actions, initial, maximum)
    requires run.states[i].delivery.Some? && run.states[j].delivery.Some?
    requires run.states[i].delivery.value.eventId == run.states[j].delivery.value.eventId
    ensures var d, e := run.states[i].delivery.value, run.states[j].delivery.value;
            && 0 < d.attempts <= e.attempts
            && (d.attempts == e.attempts ==> d.lastAt == e.lastAt && d.nextAt == e.nextAt)
            && var base := RetryDelay.Backoff(initial, d.attempts, maximum);
               && (3 * base + 3) / 4 <= d.nextAt - d.lastAt <= RetryDelay.Min(maximum, 5 * base / 4)
               && (d.attempts < e.attempts ==> e.lastAt - d.lastAt >= (3 * base + 3) / 4)
  {
    hide Execution, Inv, HeadSequence, CursorKeeps, FromReservation, Scheduled, HasReservation, RetryDelay.Delay,
      RetryDelay.Backoff;
    var d, e := run.states[i].delivery.value, run.states[j].delivery.value;
    CursorsKeep(sha, actions, run);
    AttemptsContinue(run.states, i, j);
    ExecutionStates(sha, actions, run, i);
    ExecutionStates(sha, actions, run, j);
    SameEventSameHead(run.states[i], run.states[j]);
    EntriesAreReserved(sha, actions, run);
    AttemptHasReservation(sha, actions, run.states, i);
    ScheduleBounds(sha, d, actions, i, initial, maximum);
  }

  lemma SameEventSameHead(a: Record, b: Record)
    requires Inv(a) && Inv(b) && a.delivery.Some? && b.delivery.Some? && a.runnerId == b.runnerId
    requires a.delivery.value.eventId == b.delivery.value.eventId
    ensures HeadSequence(a) == HeadSequence(b)
  {
    CursorNamesHead(a);
    CursorNamesHead(b);
    hide Inv, HeadSequence;
    EventIdInjective(a.runnerId, HeadSequence(a), HeadSequence(b));
  }

  lemma ScheduleBounds(sha: Digest, d: Delivery, actions: seq<Action>, j: nat, initial: int, maximum: int)
    requires HasReservation(sha, d, actions, j) && SameBackoff(actions, initial, maximum)
    ensures 0 < initial <= maximum && d.attempts > 0
    ensures var base := RetryDelay.Backoff(initial, d.attempts, maximum);
            (3 * base + 3) / 4 <= d.nextAt - d.lastAt <= RetryDelay.Min(maximum, 5 * base / 4)
  {
    hide RetryDelay.Delay, RetryDelay.Backoff;
    var m :| 0 <= m < j && m < |actions| && Scheduled(sha, d, actions[m]);
    RetryDelay.DelayBounds(sha, d.eventId, d.attempts, initial, maximum);
  }

  lemma ExecutionStates(sha: Digest, actions: seq<Action>, run: Run, k: nat)
    requires Execution(sha, actions, run) && k < |run.states|
    ensures Inv(run.states[k])
  {
    hide Execution, Inv, Later, Transition;
    ExecutionIsSound(sha, actions, run);
  }

  // ------------------------------------------------------------- stale callers

  lemma {:induction false} AppendedGrows(sha: Digest, start: Run, more: seq<Action>)
    requires start.states != []
    ensures start.appended <= Exec(sha, start, more).appended
  {
    hide Verdicts;
    if more != [] {
      AppendedGrows(sha, start, more[..|more| - 1]);
    }
  }

  /** However long ago a dispatcher loaded the head, what it settles under that
      event's name is that very event, or nothing. */
  lemma StaleSettlementHitsItsOwnEvent(sha: Digest, run: Run, more: seq<Action>, later: Run, k: nat, status: int,
                                       code: string, at: Time)
    requires Reachable(sha, run) && later == Exec(sha, run, more) && k < |Now(run).pending|
    ensures SettlesOnly(Now(later), Now(run).pending[k], status, code, at)
  {
    hide Reachable, RunInv, SettlesOnly;
    ReachableIsSound(sha, run);
    RunInvParts(sha, run);
    RunsKeepInv(sha, run, more);
    AppendedGrows(sha, run, more);
    hide Exec;
    RunInvParts(sha, later);
    HeadsAgree(run.appended, run.settled, Now(run), later.appended, later.settled, Now(later), k);
    HeadSettles(Now(later), Now(run).pending[k], status, code, at);
  }

  predicate SettlesOnly(r: Record, e: Event, status: int, code: string, at: Time)
  {
    && (AcknowledgeEvent(r, e.id).Save? ==> AcknowledgeEvent(r, e.id).effect == Acknowledged(e))
    && (ParkRejection(r, e.id, status, code, at).Save? ==>
          ParkRejection(r, e.id, status, code, at).effect.Parked? && ParkRejection(r, e.id, status, code, at).effect.letter.event == e)
  }

  lemma HeadSettles(r: Record, e: Event, status: int, code: string, at: Time)
    requires r.pending != [] && r.pending[0].id == e.id ==> r.pending[0] == e
    ensures SettlesOnly(r, e, status, code, at)
  {
    hide LastLetters;
  }

  lemma RunInvParts(sha: Digest, run: Run)
    requires RunInv(sha, run)
    ensures run.states != [] && History(run.appended, Now(run)) && Outbox(run.appended, run.settled, Now(run))
  {
    hide History, Outbox, Metered, Inv, Later;
  }

  lemma HeadsAgree(h: seq<Event>, settled: seq<Settled>, r: Record, h': seq<Event>, settled': seq<Settled>,
                   r': Record, k: nat)
    requires History(h, r) && Outbox(h, settled, r) && History(h', r') && Outbox(h', settled', r')
    requires h <= h' && k < |r.pending|
    ensures r'.pending != [] && r'.pending[0].id == r.pending[k].id ==> r'.pending[0] == r.pending[k]
  {
    hide Conforming, Letters, LastLetters, EventId;
    if r'.pending != [] && r'.pending[0].id == r.pending[k].id {
      var i, j := |settled| + k, |settled'|;
      assert h[i] == r.pending[k] && h'[i] == h[i] && h'[j] == r'.pending[0];
      EventIdInjective(r'.runnerId, i + 1, j + 1);
    }
  }
}
