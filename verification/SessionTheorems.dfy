/** What holds after every run of a session, whatever the interleaving. */
module SessionTheorems {
  import opened Basics
  import opened LiveContract
  import opened SessionRecord
  import opened SessionSteps
  import opened SessionInvariant
  import opened SessionRuns
  import opened SessionProgress
  import RetryDelay

  // ------------------------------------------------------------ the invariant

  ghost predicate StatesSound(states: seq<Record>)
  {
    && states != []
    && (forall i :: 0 <= i < |states| ==> Inv(states[i]))
    && (forall i, j :: 0 <= i <= j < |states| ==> Later(states[i], states[j]))
  }

  /** Every event ever appended, against the current record. */
  ghost predicate History(h: seq<Event>, r: Record)
  {
    && |h| == r.lastSequence
    && (forall i :: 0 <= i < |h| ==>
          h[i].sequence == i + 1 && h[i].id == EventId(r.runnerId, i + 1)
          && (h[i].usage.Some? ==> h[i].usage.value <= r.usageTotal))
    && Conforming(h)
    && (forall i :: 0 <= i < |h| && IsTerminal(h[i].state) ==> i == |h| - 1 && IsTerminal(r.state))
    && (IsTerminal(r.state) ==>
          h != [] && var last := h[|h| - 1];
          last.state == r.state && last.closeReason == Some(r.closeReason) && last.usage == Some(r.usageTotal))
  }

  function SettledEvent(s: Settled): (e: Event)
  {
    match s
    case Delivered(event) => event
    case Rejected(letter) => letter.event
  }

  function Events(settled: seq<Settled>): (h: seq<Event>)
    ensures |h| == |settled|
  {
    seq(|settled|, i requires 0 <= i < |settled| => SettledEvent(settled[i]))
  }

  function Letters(settled: seq<Settled>): (letters: seq<DeadLetter>)
  {
    if settled == [] then []
    else
      var before := Letters(settled[..|settled| - 1]);
      match settled[|settled| - 1]
      case Delivered(_) => before
      case Rejected(letter) => before + [letter]
  }

  function Acknowledgements(settled: seq<Settled>): (h: seq<Event>)
  {
    if settled == [] then []
    else
      var before := Acknowledgements(settled[..|settled| - 1]);
      match settled[|settled| - 1]
      case Delivered(event) => before + [event]
      case Rejected(_) => before
  }

  /** The outbox is exactly the part of history that is not settled yet, in order. */
  ghost predicate Outbox(h: seq<Event>, settled: seq<Settled>, r: Record)
  {
    && h == Events(settled) + r.pending
    && r.rejectedTotal == |Letters(settled)|
    && r.deadLetters == LastLetters(Letters(settled))
  }

  ghost predicate Metered(sha: Digest, offered: seq<Segment>, r: Record)
  {
    MeterBatch(sha, Meter(0, []), offered) == Ok(Meter(r.metered, r.segments))
  }

  ghost predicate RunInv(sha: Digest, run: Run)
  {
    && StatesSound(run.states)
    && History(run.appended, Now(run))
    && Outbox(run.appended, run.settled, Now(run))
    && Metered(sha, run.offered, Now(run))
  }

  // ---------------------------------------------------------------- induction

  lemma VerdictIsSound(sha: Digest, states: seq<Record>, a: Action)
    requires StatesSound(states)
    ensures Safe(Verdicts(sha, states, a)) && Progress(states[|states| - 1], Verdicts(sha, states, a))
  {
    hide Inv, Later, Safe, Progress, Decide, Advance;
    var r := states[|states| - 1];
    match a {
      case Do(op, _) =>
        StepKeepsInv(sha, r, op);
        StepProgresses(sha, r, op);
      case Start(loaded, now, _) =>
        if loaded < |states| && Live(states[loaded]) && states[loaded].lastSequence == 0 {
          StartIsSound(r, states[loaded], now);
        } else {
          UnsavedIsSafe(Keep);
          UnsavedProgresses(r, Keep);
        }
      case Finish(loaded, now, _) =>
        if loaded < |states| && states[loaded].state.Active? && states[loaded].stopping && now != ZERO_TIME {
          FinishIsSound(r, states[loaded], now);
        } else {
          UnsavedIsSafe(Keep);
          UnsavedProgresses(r, Keep);
        }
    }
  }

  lemma StatesExtend(states: seq<Record>, next: Record)
    requires StatesSound(states) && Inv(next) && Later(states[|states| - 1], next)
    ensures StatesSound(states + [next])
  {
    hide Inv, Later;
    var longer := states + [next];
    forall i, j | 0 <= i <= j < |longer| ensures Later(longer[i], longer[j]) {
      if j == |states| {
        if i < |states| {
          InvLifecycle(states[i]);
          InvLifecycle(states[|states| - 1]);
          LaterIsTransitive(states[i], states[|states| - 1], next);
        } else {
          InvLifecycle(next);
          LaterIsReflexive(next);
        }
      }
    }
  }

  lemma HistoryAppend(h: seq<Event>, r: Record, next: Record, e: Event)
    requires History(h, r) && AppendsOne(r, next, e) && Later(r, next)
    ensures History(h + [e], next)
  {
    forall i | 0 <= i < |h| ensures InOrder(h[i], e) {
      if h[i].id == e.id {
        EventIdInjective(r.runnerId, i + 1, e.sequence);
      }
    }
    ConformingAppend(h, e);
  }

  lemma HistoryStays(h: seq<Event>, r: Record, next: Record)
    requires History(h, r) && Later(r, next)
    requires next.lastSequence == r.lastSequence && next.state == r.state && next.closeReason == r.closeReason
    ensures History(h, next)
  {
  }

  lemma HistoryStep(h: seq<Event>, r: Record, v: Verdict)
    requires History(h, r) && v.Save? && Progress(r, v)
    ensures History(if v.effect.Appended? then h + [v.effect.event] else h, v.next)
  {
    hide History, Later;
    if v.effect.Appended? {
      HistoryAppend(h, r, v.next, v.effect.event);
    } else {
      HistoryStays(h, r, v.next);
    }
  }

  lemma LastLettersAppend(letters: seq<DeadLetter>, letter: DeadLetter)
    ensures LastLetters(LastLetters(letters) + [letter]) == LastLetters(letters + [letter])
  {
  }

  lemma OutboxStep(h: seq<Event>, settled: seq<Settled>, r: Record, v: Verdict)
    requires Outbox(h, settled, r) && v.Save? && Shaped(r, v)
    ensures Outbox(if v.effect.Appended? then h + [v.effect.event] else h,
                   match v.effect
                   case Acknowledged(event) => settled + [Delivered(event)]
                   case Parked(letter) => settled + [Rejected(letter)]
                   case _ => settled,
                   v.next)
  {
    match v.effect {
      case Silent =>
      case Appended(e) =>
        assert h + [e] == Events(settled) + (r.pending + [e]);
      case Acknowledged(e) =>
        var longer := settled + [Delivered(e)];
        assert Events(longer) == Events(settled) + [e];
        assert r.pending == [e] + r.pending[1..];
        assert longer[..|settled|] == settled;
      case Parked(letter) =>
        var longer := settled + [Rejected(letter)];
        assert Events(longer) == Events(settled) + [letter.event];
        assert r.pending == [letter.event] + r.pending[1..];
        assert longer[..|settled|] == settled;
        LastLettersAppend(Letters(settled), letter);
    }
  }

  lemma {:induction false} MeterBatchConcat(sha: Digest, m: Meter, a: seq<Segment>, b: seq<Segment>)
    ensures MeterBatch(sha, m, a + b) ==
            match MeterBatch(sha, m, a)
            case Err(error) => Err(error)
            case Ok(middle) => MeterBatch(sha, middle, b)
  {
    if b == [] {
      assert a + b == a;
    } else {
      MeterBatchConcat(sha, m, a, b[..|b| - 1]);
      assert (a + b)[..|a + b| - 1] == a + b[..|b| - 1];
    }
  }

  ghost predicate MeterUntouched(r: Record, v: Verdict)
  {
    v.Save? ==> SameMicros(r, v.next)
  }

  predicate ClockKept(r: Record, next: Record) { next.onlineAt == r.onlineAt && next.deadline == r.deadline }

  predicate IsStallNotice(effect: Effect) { effect.Appended? && effect.event.kind.OutputStalled? }

  /** The absence check may only start a clock or stop the session. */
  ghost predicate OnlyClock(r: Record, v: Verdict)
  {
    v.Save? ==>
      && SameMicros(r, v.next) && v.next.onlineAt == r.onlineAt && v.next.output == r.output && v.effect.Silent?
      && (r.deadline.Some? ==> v.next.deadline == r.deadline)
  }

  /** The meter, the absence clock and a stalled output all stay as they
      are, and a stall is announced only on entering the stalled state. */
  ghost predicate Untouched(r: Record, v: Verdict)
  {
    v.Save? ==>
      && SameMicros(r, v.next) && ClockKept(r, v.next)
      && (r.output.Stalled? ==> v.next.output.Stalled?)
      && (IsStallNotice(v.effect) ==> !r.output.Stalled? && v.next.output.Stalled?)
  }

  lemma UnsavedTouchesNothing(r: Record, v: Verdict)
    requires !v.Save?
    ensures Untouched(r, v)
  {
  }

  lemma AppendsTouchNothing(r: Record, now: Time, interval: int, code: string, failAfter: int)
    ensures Untouched(r, RecordHeartbeat(r, now, interval)) && Untouched(r, RestartLadder(r, code, now, interval))
    ensures Untouched(r, RecordStalled(r, now)) && Untouched(r, Evaluate(r, now, interval, failAfter))
  {
    hide ValidEvent, EventId;
  }

  lemma ObservationsTouchNothing(r: Record, online: bool, now: Time, initialWait: int, grace: int, reason: string,
                                 target: State)
    ensures MeterUntouched(r, RecordPresence(r, online, now)) && Untouched(r, BeginTermination(r, reason, target))
    ensures OnlyClock(r, ExpirePublisher(r, now, initialWait, grace))
  {
    hide WithDeadline;
  }

  lemma OutboxTouchesNothing(sha: Digest, r: Record, id: string, at: Time, initial: int, maximum: int, status: int,
                             code: string)
    requires 0 < initial <= maximum
    ensures Untouched(r, AcknowledgeEvent(r, id)) && Untouched(r, ReserveAttempt(sha, r, id, at, initial, maximum))
    ensures Untouched(r, RecordRetryFailure(r, id, status, code)) && Untouched(r, ParkRejection(r, id, status, code, at))
  {
    hide RetryDelay.Delay;
  }

  lemma SecretsTouchNothing(r: Record, request: KeyRequest, response: KeyResponse, id: string)
    ensures Untouched(r, RecordKeyIssue(r, request, response)) && Untouched(r, CompleteActivation(r, id))
    ensures Untouched(r, ClearTerminalSecrets(r))
  {
    hide Blanked;
  }

  lemma OtherOpsTouchNothing(sha: Digest, r: Record, op: Op)
    requires !op.Segments? && !op.Presence? && !op.ExpireAbsent?
    ensures Untouched(r, Decide(sha, r, op))
  {
    hide Untouched, RecordPresence, ValidCloseReason, ValidCallbackFailure, ValidLadderCode, ValidKeyResponse,
      OpaqueId, SegmentsAccepted,
      AddSegments, RecordHeartbeat, RecordPresence, ExpirePublisher, RestartLadder, Evaluate, RecordStalled, BeginTermination,
      AcknowledgeEvent, ReserveAttempt, RecordRetryFailure, ParkRejection, ClearTerminalSecrets, RecordKeyIssue, CompleteActivation;
    if !Admissible(op) {
      UnsavedTouchesNothing(r, Decide(sha, r, op));
      return;
    }
    match op {
      case HeartbeatOp(now, interval) => AppendsTouchNothing(r, now, interval, "", 0);
      case LadderRestartOp(code, now, window) => AppendsTouchNothing(r, now, window, code, 0);
      case EvaluateHealth(now, stallAfter, failAfter) => AppendsTouchNothing(r, now, stallAfter, "", failAfter);
      case StallOutput(now) => AppendsTouchNothing(r, now, 0, "", 0);
      case BeginTerminal(reason, target) => ObservationsTouchNothing(r, true, 0, 0, 0, reason, target);
      case Acknowledge(id) => OutboxTouchesNothing(sha, r, id, 0, 1, 1, 0, "");
      case Reserve(id, at, initial, maximum) => OutboxTouchesNothing(sha, r, id, at, initial, maximum, 0, "");
      case RetryFailure(id, status, code) => OutboxTouchesNothing(sha, r, id, 0, 1, 1, status, code);
      case Park(id, status, code, at) => OutboxTouchesNothing(sha, r, id, at, 1, 1, status, code);
      case ClearSecrets => SecretsTouchNothing(r, KeyRequest("", GatewayRelay), KeyResponse("", "", None), "");
      case IssueKey(request, response) => SecretsTouchNothing(r, request, response, "");
      case CompleteKey(id) => SecretsTouchNothing(r, KeyRequest("", GatewayRelay), KeyResponse("", "", None), id);
    }
  }

  lemma AdvanceTouchesNothing(r: Record, e: Event)
    requires !e.kind.OutputStalled?
    ensures Untouched(r, Advance(r, e))
  {
  }

  lemma OtherActionsTouchNothing(sha: Digest, states: seq<Record>, a: Action)
    requires states != [] && !(a.Do? && (a.op.Segments? || a.op.Presence? || a.op.ExpireAbsent?))
    ensures Untouched(states[|states| - 1], Verdicts(sha, states, a))
  {
    hide Decide, Advance;
    var r := states[|states| - 1];
    match a {
      case Do(op, _) => OtherOpsTouchNothing(sha, r, op);
      case Start(loaded, now, _) => if loaded < |states| { AdvanceTouchesNothing(r, StartEvent(states[loaded], now)); }
      case Finish(loaded, now, _) => if loaded < |states| { AdvanceTouchesNothing(r, TerminalEvent(states[loaded], now)); }
    }
  }

  /** What a verdict may do to the meter, given the action that asked for it. */
  ghost predicate MeterStep(sha: Digest, r: Record, a: Action, v: Verdict)
  {
    if a.Do? && a.op.Segments? then
      var m := MeterBatch(sha, Meter(r.metered, r.segments), a.op.batch);
      && (v.Keep? ==> m == Ok(Meter(r.metered, r.segments)))
      && (v.Save? ==> m == Ok(Meter(v.next.metered, v.next.segments)))
    else MeterUntouched(r, v)
  }

  lemma SegmentsVerdict(sha: Digest, r: Record, batch: seq<Segment>, now: Time)
    requires r.segments != [] ==> r.metered != 0
    requires MeterReady(Meter(r.metered, r.segments))
    ensures var v := AddSegments(sha, r, batch, now);
            var m := MeterBatch(sha, Meter(r.metered, r.segments), batch);
            && (v.Keep? ==> m == Ok(Meter(r.metered, r.segments)))
            && (v.Save? ==> m == Ok(Meter(v.next.metered, v.next.segments)))
  {
    MeterBatchKeepsReady(sha, Meter(r.metered, r.segments), batch);
    hide MeterBatch, MeterReady, Emit;
    var m := MeterBatch(sha, Meter(r.metered, r.segments), batch);
    if m.Ok? {
      var total := m.value.micros / MICROS_PER_SECOND;
      EmitKeepsMicros(Counted(r, m.value, now).(usageTotal := total), UsageTick, now, Some(total));
    }
  }

  lemma EmitKeepsMicros(r: Record, kind: EventKind, now: Time, usage: Option<uint64>)
    ensures Emit(r, kind, now, usage).Save? ==> SameMicros(r, Emit(r, kind, now, usage).next)
  {
    hide ValidEvent, EventId;
  }

  lemma VerdictMeters(sha: Digest, states: seq<Record>, a: Action)
    requires StatesSound(states)
    ensures MeterStep(sha, states[|states| - 1], a, Verdicts(sha, states, a))
  {
    hide Advance, Later;
    var r := states[|states| - 1];
    if a.Do? && a.op.Segments? {
      assert Inv(r);
      hide Inv, AddSegments;
      SegmentsVerdict(sha, r, a.op.batch, a.op.now);
    } else if a.Do? && a.op.Presence? {
      hide Inv, RecordPresence;
      ObservationsTouchNothing(r, a.op.online, a.op.now, 0, 0, "", Ended);
    } else if a.Do? && a.op.ExpireAbsent? {
      hide Inv, ExpirePublisher;
      ObservationsTouchNothing(r, true, a.op.now, a.op.initialWait, a.op.grace, "", Ended);
    } else {
      hide Verdicts, Inv;
      OtherActionsTouchNothing(sha, states, a);
    }
  }

  lemma ApplyMeters(sha: Digest, run: Run, a: Action, v: Verdict)
    requires run.states != [] && Metered(sha, run.offered, Now(run)) && MeterStep(sha, Now(run), a, v)
    ensures var next := Apply(run, a, v); Metered(sha, next.offered, Now(next))
  {
    if a.Do? && a.op.Segments? {
      MeterBatchConcat(sha, Meter(0, []), run.offered, a.op.batch);
    }
  }

  lemma ApplyKeepsRunInv(sha: Digest, run: Run, a: Action, v: Verdict)
    requires RunInv(sha, run)
    requires Safe(v) && Progress(Now(run), v) && MeterStep(sha, Now(run), a, v)
    ensures RunInv(sha, Apply(run, a, v))
  {
    hide Inv, Later, History, Outbox, Metered, MeterStep, Offers, LifecycleAccepted, AppendsOne, DropsHead;
    var r, next := Now(run), Apply(run, a, v);
    ApplyMeters(sha, run, a, v);
    if Commits(v, a) {
      StatesExtend(run.states, v.next);
      OutboxStep(run.appended, run.settled, r, v);
      HistoryStep(run.appended, r, v);
    } else {
      InvLifecycle(r);
      LaterIsReflexive(r);
      StatesExtend(run.states, r);
    }
  }

  lemma StepKeepsRunInv(sha: Digest, run: Run, a: Action)
    requires RunInv(sha, run)
    ensures RunInv(sha, Step(sha, run, a))
  {
    hide Verdicts, Apply, History, Outbox, Metered, Safe, Progress, MeterStep, Inv, Later;
    var v := Verdicts(sha, run.states, a);
    VerdictIsSound(sha, run.states, a);
    VerdictMeters(sha, run.states, a);
    ApplyKeepsRunInv(sha, run, a, v);
  }

  lemma {:induction false} RunsKeepInv(sha: Digest, start: Run, actions: seq<Action>)
    requires RunInv(sha, start)
    ensures RunInv(sha, Exec(sha, start, actions))
  {
    if actions != [] {
      RunsKeepInv(sha, start, actions[..|actions| - 1]);
      StepKeepsRunInv(sha, Exec(sha, start, actions[..|actions| - 1]), actions[|actions| - 1]);
    }
  }

  lemma BeginIsSound(sha: Digest, request: CreateRequest, response: CreateResponse, now: Time)
    requires ValidCreation(request, response)
    ensures RunInv(sha, Begin(request, response, now))
  {
    var r := Created(request, response, now);
    assert Inv(r);
    assert Events([]) + r.pending == [];
  }
}
