/** Publisher absence and output health over whole runs. */
module PublisherRuns {
  import opened Basics
  import opened LiveContract
  import opened SessionRecord
  import opened SessionSteps
  import opened SessionInvariant
  import opened SessionRuns
  import opened SessionProgress
  import opened SessionTheorems
  import opened SessionGates

  ghost predicate Execution(sha: Digest, actions: seq<Action>, run: Run)
  {
    exists request, response, now ::
      ValidCreation(request, response) && run == Exec(sha, Begin(request, response, now), actions)
  }

  /** The k-th transition, free of the run's history. */
  ghost predicate Transition(sha: Digest, states: seq<Record>, actions: seq<Action>, k: nat)
    requires |states| == |actions| + 1 && k < |actions|
  {
    states[k + 1] == Outcome(states[k], actions[k], Verdicts(sha, states[..k + 1], actions[k]))
  }

  function Outcome(r: Record, a: Action, v: Verdict): (next: Record)
  {
    if Commits(v, a) then v.next else r
  }

  lemma {:induction false} ExecTransitions(sha: Digest, start: Run, actions: seq<Action>, k: nat)
    requires |start.states| == 1 && k < |actions|
    ensures Transition(sha, Exec(sha, start, actions).states, actions, k)
  {
    hide Verdicts;
    var init := actions[..|actions| - 1];
    var before, run := Exec(sha, start, init), Exec(sha, start, actions);
    assert run == Apply(before, actions[|init|], Verdicts(sha, before.states, actions[|init|]));
    assert run.states[..|before.states|] == before.states;
    if k < |init| {
      ExecTransitions(sha, start, init, k);
      assert run.states[..k + 1] == before.states[..k + 1];
      assert run.states[k] == before.states[k] && run.states[k + 1] == before.states[k + 1];
    } else {
      assert run.states[..k + 1] == before.states;
    }
  }

  lemma ExecutionIsSound(sha: Digest, actions: seq<Action>, run: Run)
    requires Execution(sha, actions, run)
    ensures StatesSound(run.states) && |run.states| == |actions| + 1
    ensures forall k :: 0 <= k < |actions| ==> Transition(sha, run.states, actions, k)
  {
    hide RunInv, Transition;
    var request, response, now :| ValidCreation(request, response) && run == Exec(sha, Begin(request, response, now), actions);
    var start := Begin(request, response, now);
    BeginIsSound(sha, request, response, now);
    RunsKeepInv(sha, start, actions);
    RunInvStates(sha, run);
    forall k | 0 <= k < |actions| ensures Transition(sha, run.states, actions, k) {
      ExecTransitions(sha, start, actions, k);
    }
  }

  lemma RunInvStates(sha: Digest, run: Run)
    requires RunInv(sha, run)
    ensures StatesSound(run.states)
  {
    hide Inv, Later, History, Outbox, Metered;
  }

  // ---------------------------------------------------------------- one step

  predicate IsPresence(a: Action) { a.Do? && a.op.Presence? }
  predicate SeesPublisher(a: Action) { a.Do? && a.op.Presence? && a.op.online }
  predicate IsSegments(a: Action) { a.Do? && a.op.Segments? }

  /** A finalized segment was metered, or the publisher came or went. */
  predicate OutputEvidence(a: Record, b: Record)
  {
    b.segments != a.segments || b.onlineAt.Some? != a.onlineAt.Some?
  }

  predicate IsExpiry(a: Action) { a.Do? && a.op.ExpireAbsent? }

  ghost predicate Framed(r: Record, a: Action, v: Verdict)
  {
    v.Save? ==>
      && (!IsExpiry(a) && r.deadline.None? ==> v.next.deadline.None?)
      && (!SeesPublisher(a) && r.deadline.Some? ==> v.next.deadline == r.deadline)
      && (r.output.Stalled? && !v.next.output.Stalled? ==> OutputEvidence(r, v.next))
      && (IsStallNotice(v.effect) ==> !r.output.Stalled? && v.next.output.Stalled?)
  }

  lemma PresenceIsFramed(r: Record, online: bool, now: Time)
    requires PublisherClock(r)
    ensures var v := RecordPresence(r, online, now);
            v.Save? ==>
              && (!online && r.deadline.Some? ==> v.next.deadline == r.deadline)
              && (r.deadline.None? ==> v.next.deadline.None?)
              && OutputEvidence(r, v.next) && v.effect.Silent?
  {
  }

  lemma SegmentsAreFramed(sha: Digest, r: Record, batch: seq<Segment>, now: Time)
    ensures var v := AddSegments(sha, r, batch, now);
            v.Save? ==> ClockKept(r, v.next) && v.next.segments != r.segments && !IsStallNotice(v.effect)
  {
    hide ValidEvent, EventId, MeterBatch;
  }

  lemma ActionIsFramed(sha: Digest, states: seq<Record>, a: Action)
    requires states != [] && PublisherClock(states[|states| - 1])
    ensures Framed(states[|states| - 1], a, Verdicts(sha, states, a))
  {
    hide Advance, AddSegments, RecordPresence;
    var r := states[|states| - 1];
    if IsSegments(a) {
      SegmentsAreFramed(sha, r, a.op.batch, a.op.now);
    } else if IsPresence(a) {
      PresenceIsFramed(r, a.op.online, a.op.now);
    } else if IsExpiry(a) {
      hide ExpirePublisher;
      ObservationsTouchNothing(r, true, a.op.now, a.op.initialWait, a.op.grace, "", Ended);
    } else {
      hide Verdicts;
      OtherActionsTouchNothing(sha, states, a);
    }
  }

  lemma StepIsFramed(sha: Digest, actions: seq<Action>, run: Run, k: nat)
    requires Execution(sha, actions, run) && k < |actions|
    ensures |run.states| == |actions| + 1
    ensures var r, v := run.states[k], Verdicts(sha, run.states[..k + 1], actions[k]);
            && Inv(r)
            && Framed(r, actions[k], v)
            && run.states[k + 1] == Outcome(r, actions[k], v)
  {
    hide Execution, Inv, Later, Framed, Verdicts;
    ExecutionIsSound(sha, actions, run);
    assert Transition(sha, run.states, actions, k);
    InvHasClock(run.states[k]);
    ActionIsFramed(sha, run.states[..k + 1], actions[k]);
  }

  lemma InvHasClock(r: Record)
    requires Inv(r)
    ensures PublisherClock(r)
  {
  }

  // -------------------------------------------------------------- guarantees

  lemma OnlineMeansNoClock(sha: Digest, actions: seq<Action>, run: Run, k: nat)
    requires Execution(sha, actions, run) && k < |run.states|
    ensures run.states[k].onlineAt.Some? ==> run.states[k].deadline.None? && run.states[k].offlineSince.None?
  {
    hide Execution, Inv, Later;
    ExecutionIsSound(sha, actions, run);
    InvHasClock(run.states[k]);
  }

  /** A recorded deadline does not move until a publisher is seen online. */
  lemma {:induction false} DeadlineNeverMoves(sha: Digest, actions: seq<Action>, run: Run, i: nat, j: nat)
    requires Execution(sha, actions, run) && i <= j <= |actions|
    requires |run.states| == |actions| + 1
    requires run.states[i].deadline.Some?
    requires forall k :: i <= k < j ==> !SeesPublisher(actions[k])
    ensures run.states[j].deadline == run.states[i].deadline
  {
    hide Execution, Inv, Verdicts;
    if i < j {
      DeadlineNeverMoves(sha, actions, run, i, j - 1);
      StepIsFramed(sha, actions, run, j - 1);
    }
  }

  /** Base plus wait, as the source chooses them when the clock starts. */
  function ClockStart(r: Record, now: Time, initialWait: int, grace: int): (d: Time)
    requires r.outputSince.Some?
  {
    if r.publisherSeen || r.lastSegmentAt.Some? then (if r.offlineSince.Some? then r.offlineSince.value else now) + grace
    else r.outputSince.value + initialWait
  }

  /** The action at m started the clock that reads d. */
  ghost predicate ClockStartedAt(run: Run, actions: seq<Action>, m: nat, d: Time)
    requires |run.states| == |actions| + 1
  {
    && m < |actions| && actions[m].Do? && actions[m].op.ExpireAbsent?
    && run.states[m].deadline.None? && run.states[m].onlineAt.None? && run.states[m].outputSince.Some?
    && d == ClockStart(run.states[m], actions[m].op.now, actions[m].op.initialWait, actions[m].op.grace)
  }

  lemma ExpireStartsClock(r: Record, now: Time, initialWait: int, grace: int)
    requires r.outputSince.Some?
    ensures var v := ExpirePublisher(r, now, initialWait, grace);
            v.Save? && r.deadline.None? ==>
              r.onlineAt.None? && v.next.deadline == Some(ClockStart(r, now, initialWait, grace))
    ensures var v := ExpirePublisher(r, now, initialWait, grace);
            v.Save? && v.next.stopping ==>
              && !r.stopping && v.next.deadline.Some? && now >= v.next.deadline.value
              && v.next.pendingReason == "publisher_disconnect" && v.next.pendingState == Some(Ended)
  {
  }

  /** Every recorded deadline is the base plus wait of the step that started its clock. */
  lemma {:induction false} DeadlineHasOrigin(sha: Digest, actions: seq<Action>, run: Run, j: nat)
    requires Execution(sha, actions, run) && j <= |actions| && |run.states| == |actions| + 1
    requires run.states[j].deadline.Some?
    ensures exists m :: 0 <= m < j && ClockStartedAt(run, actions, m, run.states[j].deadline.value)
  {
    hide Execution, ClockStartedAt;
    if j == 0 {
      BeginHasNoClock(sha, actions, run);
    } else {
      if IsExpiry(actions[j - 1]) {
        ExpiryStep(sha, actions, run, j - 1);
      } else {
        OnlyExpiryStartsClock(sha, actions, run, j - 1);
      }
      if run.states[j - 1].deadline.Some? {
        DeadlineHasOrigin(sha, actions, run, j - 1);
      }
    }
  }

  lemma ExpiryStep(sha: Digest, actions: seq<Action>, run: Run, k: nat)
    requires Execution(sha, actions, run) && k < |actions| && |run.states| == |actions| + 1
    requires IsExpiry(actions[k])
    ensures run.states[k].deadline.Some? ==> run.states[k + 1].deadline == run.states[k].deadline
    ensures run.states[k].deadline.None? && run.states[k + 1].deadline.Some? ==>
              ClockStartedAt(run, actions, k, run.states[k + 1].deadline.value)
  {
    hide Execution, Inv, ExpirePublisher;
    StepIsFramed(sha, actions, run, k);
    InvHasOutputSince(run.states[k]);
    var op := actions[k].op;
    ExpireStartsClock(run.states[k], op.now, op.initialWait, op.grace);
    ExpireKeepsClock(run.states[k], op.now, op.initialWait, op.grace);
  }

  lemma ExpireKeepsClock(r: Record, now: Time, initialWait: int, grace: int)
    ensures OnlyClock(r, ExpirePublisher(r, now, initialWait, grace))
  {
    ObservationsTouchNothing(r, true, now, initialWait, grace, "", Ended);
  }

  lemma OnlyExpiryStartsClock(sha: Digest, actions: seq<Action>, run: Run, k: nat)
    requires Execution(sha, actions, run) && k < |actions| && |run.states| == |actions| + 1
    requires !IsExpiry(actions[k])
    ensures run.states[k + 1].deadline.Some? ==> run.states[k + 1].deadline == run.states[k].deadline
  {
    hide Execution, Inv;
    StepIsFramed(sha, actions, run, k);
  }

  lemma BeginHasNoClock(sha: Digest, actions: seq<Action>, run: Run)
    requires Execution(sha, actions, run)
    ensures run.states != [] && run.states[0].deadline.None?
  {
    hide Verdicts;
    var request, response, now :| ValidCreation(request, response) && run == Exec(sha, Begin(request, response, now), actions);
    ExecKeepsFirst(sha, Begin(request, response, now), actions);
  }

  lemma {:induction false} ExecKeepsFirst(sha: Digest, start: Run, actions: seq<Action>)
    requires start.states != []
    ensures Exec(sha, start, actions).states[0] == start.states[0]
  {
    hide Verdicts;
    if actions != [] {
      var init := actions[..|actions| - 1];
      ExecKeepsFirst(sha, start, init);
      var before, run := Exec(sha, start, init), Exec(sha, start, actions);
      assert run.states[..|before.states|] == before.states;
    }
  }

  /** A session stops only on request, with the reason asked for, or for an absent
      publisher, once the recorded deadline has passed; and that deadline is some
      clock's base plus wait. */
  lemma StopHasCause(sha: Digest, actions: seq<Action>, run: Run, k: nat)
    requires Execution(sha, actions, run) && k < |actions| && |run.states| == |actions| + 1
    requires !run.states[k].stopping && run.states[k + 1].stopping
    ensures actions[k].Do?
    ensures var op, b := actions[k].op, run.states[k + 1];
            if op.ExpireAbsent? then
              && b.pendingReason == "publisher_disconnect" && b.pendingState == Some(Ended)
              && b.deadline.Some? && op.now >= b.deadline.value
              && exists m :: 0 <= m <= k && ClockStartedAt(run, actions, m, b.deadline.value)
            else op.BeginTerminal? && b == Stop(run.states[k], op.reason, op.target)
  {
    hide Execution, Inv, ExpirePublisher, ClockStartedAt, Verdicts;
    GateStep(sha, actions, run, k);
    var op := actions[k].op;
    if op.ExpireAbsent? {
      DisconnectWaitsForDeadline(sha, actions, run, k);
    }
  }

  lemma GateStep(sha: Digest, actions: seq<Action>, run: Run, k: nat)
    requires Execution(sha, actions, run) && k < |actions| && |run.states| == |actions| + 1
    ensures var v := Verdicts(sha, run.states[..k + 1], actions[k]);
            MindsGates(run.states[k], actions[k], v) && run.states[k + 1] == Outcome(run.states[k], actions[k], v)
  {
    hide Execution, Verdicts, MindsGates;
    ExecutionIsSound(sha, actions, run);
    assert Transition(sha, run.states, actions, k);
    ActionMindsGates(sha, run.states[..k + 1], actions[k]);
  }

  lemma DisconnectWaitsForDeadline(sha: Digest, actions: seq<Action>, run: Run, k: nat)
    requires Execution(sha, actions, run) && k < |actions| && |run.states| == |actions| + 1
    requires IsExpiry(actions[k])
    requires !run.states[k].stopping && run.states[k + 1].stopping
    ensures var b := run.states[k + 1];
            && b.pendingReason == "publisher_disconnect" && b.pendingState == Some(Ended)
            && b.deadline.Some? && actions[k].op.now >= b.deadline.value
            && exists m :: 0 <= m <= k && ClockStartedAt(run, actions, m, b.deadline.value)
  {
    hide Execution, Inv, ExpirePublisher, ClockStartedAt;
    StepIsFramed(sha, actions, run, k);
    InvHasOutputSince(run.states[k]);
    var op := actions[k].op;
    ExpireStartsClock(run.states[k], op.now, op.initialWait, op.grace);
    DeadlineHasOrigin(sha, actions, run, k + 1);
  }

  /** A requested termination waits for no deadline, not even with the reason of
      an absent publisher: it stops a live session at once, if it is accepted and saved. */
  lemma RequestedStopIsImmediate(sha: Digest, actions: seq<Action>, run: Run, k: nat)
    requires Execution(sha, actions, run) && k < |actions| && |run.states| == |actions| + 1
    requires actions[k].Do? && actions[k].op.BeginTerminal? && Live(run.states[k])
    ensures run.states[k + 1].stopping <==>
              ValidCloseReason(actions[k].op.reason) && IsTerminal(actions[k].op.target) && !actions[k].save.FailedBeforeRename?
  {
    hide Execution, Inv, ValidCloseReason, Verdicts;
    StepIsFramed(sha, actions, run, k);
    StopVerdict(sha, run.states[..k + 1], actions[k]);
  }

  lemma StopVerdict(sha: Digest, states: seq<Record>, a: Action)
    requires states != [] && a.Do? && a.op.BeginTerminal? && Live(states[|states| - 1])
    ensures var v, r := Verdicts(sha, states, a), states[|states| - 1];
            v == if ValidCloseReason(a.op.reason) && IsTerminal(a.op.target)
                 then Save(Stop(r, a.op.reason, a.op.target), Silent) else Refuse(InvalidInput)
  {
  }

  lemma InvHasOutputSince(r: Record)
    requires Inv(r)
    ensures r.outputSince.Some?
  {
  }

  ghost predicate AnnouncesStall(sha: Digest, actions: seq<Action>, run: Run, k: nat)
    requires k < |actions| && |run.states| == |actions| + 1
  {
    var v := Verdicts(sha, run.states[..k + 1], actions[k]);
    Commits(v, actions[k]) && IsStallNotice(v.effect)
  }

  lemma StallStep(sha: Digest, actions: seq<Action>, run: Run, k: nat)
    requires Execution(sha, actions, run) && k < |actions| && |run.states| == |actions| + 1
    ensures AnnouncesStall(sha, actions, run, k) ==> !run.states[k].output.Stalled? && run.states[k + 1].output.Stalled?
    ensures run.states[k].output.Stalled? && !run.states[k + 1].output.Stalled? ==>
              OutputEvidence(run.states[k], run.states[k + 1])
  {
    hide Execution, Inv, Verdicts;
    StepIsFramed(sha, actions, run, k);
  }

  /** Between two stall notices something was produced or the publisher changed. */
  lemma StallsAreSeparated(sha: Digest, actions: seq<Action>, run: Run, i: nat, j: nat)
    requires Execution(sha, actions, run) && i < j < |actions| && |run.states| == |actions| + 1
    requires AnnouncesStall(sha, actions, run, i) && AnnouncesStall(sha, actions, run, j)
    ensures exists k :: i < k < j && OutputEvidence(run.states[k], run.states[k + 1])
  {
    hide Execution, AnnouncesStall, OutputEvidence, StallKept;
    StallsAreKept(sha, actions, run);
    StallStep(sha, actions, run, i);
    StallStep(sha, actions, run, j);
    StalledUntilEvidence(run.states, i + 1, j);
  }

  lemma StallsAreKept(sha: Digest, actions: seq<Action>, run: Run)
    requires Execution(sha, actions, run)
    ensures |run.states| == |actions| + 1
    ensures forall k :: 0 <= k < |actions| ==> StallKept(run.states[k], run.states[k + 1])
  {
    ExecutionIsSound(sha, actions, run);
    hide Execution, OutputEvidence, AnnouncesStall, StatesSound, Transition;
    forall k | 0 <= k < |actions| ensures StallKept(run.states[k], run.states[k + 1]) {
      StallStep(sha, actions, run, k);
    }
  }

  predicate StallKept(a: Record, b: Record) { a.output.Stalled? && !b.output.Stalled? ==> OutputEvidence(a, b) }

  lemma {:induction false} StalledUntilEvidence(states: seq<Record>, i: nat, j: nat)
    requires i <= j < |states| && forall k :: i <= k < j ==> StallKept(states[k], states[k + 1])
    requires states[i].output.Stalled? && !states[j].output.Stalled?
    ensures exists k :: i <= k < j && OutputEvidence(states[k], states[k + 1])
    decreases j
  {
    hide OutputEvidence;
    assert StallKept(states[j - 1], states[j - 1 + 1]);
    if !states[j - 1].output.Stalled? {
      StalledUntilEvidence(states, i, j - 1);
    }
  }
}
