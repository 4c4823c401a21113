/** What the runner concludes about publisher, output and ladder, in terms of what
    was reported to it and when. */
module PublisherHealth {
  import opened Basics
  import opened LiveContract
  import opened SessionRecord
  import opened SessionSteps
  import opened SessionInvariant
  import opened SessionRuns
  import opened SessionProgress
  import opened SessionTheorems
  import opened SessionTraces
  import opened SessionGuarantees
  import opened PublisherRuns

  /** One step of a run, as far as observations go. */
  predicate StepSeen(r: Record, a: Action, n: Record)
  {
    n == r || if a.Do? then Observed(r, a.op, n) else SameObservations(r, n)
  }

  ghost predicate Story(states: seq<Record>, actions: seq<Action>)
  {
    && |states| == |actions| + 1
    && states[0].onlineAt.None? && states[0].lastSegmentAt.None? && states[0].segments == []
    && states[0].ladderFailures == 0 && states[0].ladderWindowAt.None? && states[0].offlineSince.None? && !states[0].publisherSeen
    && forall k :: 0 <= k < |actions| ==> StepSeen(states[k], actions[k], states[k + 1])
  }

  lemma TracesAreSeen(r: Record, a: Action, v: Verdict)
    requires Traces(r, a, v)
    ensures StepSeen(r, a, Outcome(r, a, v))
  {
    hide Observed, SameObservations;
  }

  lemma StepIsSeen(sha: Digest, actions: seq<Action>, run: Run, k: nat)
    requires Execution(sha, actions, run) && |run.states| == |actions| + 1 && k < |actions|
    ensures StepSeen(run.states[k], actions[k], run.states[k + 1])
  {
    hide *;
    GateStep(sha, actions, run, k);
    ActionTraces(sha, run.states[..k + 1], actions[k]);
    TracesAreSeen(run.states[k], actions[k], Verdicts(sha, run.states[..k + 1], actions[k]));
  }

  lemma RunIsStory(sha: Digest, actions: seq<Action>, run: Run)
    requires Execution(sha, actions, run)
    ensures Story(run.states, actions)
  {
    BeginIsBlank(sha, actions, run);
    hide Execution, StepSeen;
    ExecutionIsSound(sha, actions, run);
    forall k | 0 <= k < |actions| ensures StepSeen(run.states[k], actions[k], run.states[k + 1]) {
      StepIsSeen(sha, actions, run, k);
    }
  }

  lemma BeginIsBlank(sha: Digest, actions: seq<Action>, run: Run)
    requires Execution(sha, actions, run)
    ensures run.states != []
    ensures var r := run.states[0];
            && r.onlineAt.None? && r.lastSegmentAt.None? && r.segments == [] && r.ladderFailures == 0 && r.ladderWindowAt.None?
            && r.offlineSince.None? && !r.publisherSeen
  {
    hide Verdicts;
    var request, response, now :| ValidCreation(request, response) && run == Exec(sha, Begin(request, response, now), actions);
    ExecKeepsFirst(sha, Begin(request, response, now), actions);
  }

  // ------------------------------------------------------- where times come from

  /** The publisher was reported online by action m, and has been online since. */
  predicate OnlineSince(states: seq<Record>, actions: seq<Action>, m: nat, j: nat)
    requires |states| == |actions| + 1 && j < |states|
  {
    && m < j && actions[m].Do? && actions[m].op.Presence? && actions[m].op.online
    && states[m].onlineAt.None? && forall i :: m < i <= j ==> states[i].onlineAt.Some?
  }

  /** The publisher was reported gone by action m, and has been away since. */
  predicate GoneSince(states: seq<Record>, actions: seq<Action>, m: nat, j: nat)
    requires |states| == |actions| + 1 && j < |states|
  {
    && m < j && actions[m].Do? && actions[m].op.Presence? && !actions[m].op.online
    && states[m].onlineAt.Some? && forall i :: m < i <= j ==> states[i].onlineAt.None?
  }

  /** Action m metered something, and nothing was metered since. */
  predicate LastMetered(states: seq<Record>, actions: seq<Action>, m: nat, j: nat)
    requires |states| == |actions| + 1 && j < |states|
  {
    && m < j && actions[m].Do? && actions[m].op.Segments?
    && states[m + 1].segments != states[m].segments && forall i :: m < i <= j ==> states[i].segments == states[m + 1].segments
  }

  lemma {:induction false} OnlineHasOrigin(states: seq<Record>, actions: seq<Action>, j: nat)
    requires Story(states, actions) && j < |states|
    ensures states[j].onlineAt.Some? ==>
              exists m: nat :: OnlineSince(states, actions, m, j) && actions[m].op.now == states[j].onlineAt.value
    decreases j
  {
    if j > 0 && states[j].onlineAt.Some? {
      OnlineHasOrigin(states, actions, j - 1);
      assert StepSeen(states[j - 1], actions[j - 1], states[j - 1 + 1]);
      hide RestartSeen, InWindow;
      if states[j - 1].onlineAt.Some? {
        var m: nat :| OnlineSince(states, actions, m, j - 1) && actions[m].op.now == states[j - 1].onlineAt.value;
        assert OnlineSince(states, actions, m, j);
      } else {
        assert OnlineSince(states, actions, j - 1, j);
      }
    }
  }

  lemma {:induction false} OnlineTime(states: seq<Record>, actions: seq<Action>, m: nat, j: nat)
    requires Story(states, actions) && j < |states| && OnlineSince(states, actions, m, j)
    ensures states[j].onlineAt == Some(actions[m].op.now)
    decreases j
  {
    assert StepSeen(states[j - 1], actions[j - 1], states[j - 1 + 1]);
    hide RestartSeen, InWindow;
    if m < j - 1 {
      OnlineTime(states, actions, m, j - 1);
    }
  }

  lemma {:induction false} GoneTime(states: seq<Record>, actions: seq<Action>, m: nat, j: nat)
    requires Story(states, actions) && j < |states| && GoneSince(states, actions, m, j)
    ensures states[j].offlineSince == Some(actions[m].op.now) && states[j].publisherSeen
    decreases j
  {
    assert StepSeen(states[j - 1], actions[j - 1], states[j - 1 + 1]);
    hide RestartSeen, InWindow;
    if m < j - 1 {
      GoneTime(states, actions, m, j - 1);
    }
  }

  lemma {:induction false} MeteredTime(states: seq<Record>, actions: seq<Action>, j: nat)
    requires Story(states, actions) && j < |states|
    ensures if states[j].lastSegmentAt.None? then states[j].segments == []
            else exists m: nat :: LastMetered(states, actions, m, j) && actions[m].op.now == states[j].lastSegmentAt.value
    decreases j
  {
    if j > 0 {
      MeteredTime(states, actions, j - 1);
      assert StepSeen(states[j - 1], actions[j - 1], states[j - 1 + 1]);
      hide RestartSeen, InWindow;
      if states[j].segments != states[j - 1].segments {
        assert LastMetered(states, actions, j - 1, j);
      } else if states[j].lastSegmentAt.Some? {
        var m: nat :| LastMetered(states, actions, m, j - 1) && actions[m].op.now == states[j - 1].lastSegmentAt.value;
        assert LastMetered(states, actions, m, j);
      }
    }
  }

  lemma {:induction false} MeteredAt(states: seq<Record>, actions: seq<Action>, m: nat, j: nat)
    requires Story(states, actions) && j < |states| && LastMetered(states, actions, m, j)
    ensures states[j].lastSegmentAt == Some(actions[m].op.now)
    decreases j
  {
    assert StepSeen(states[j - 1], actions[j - 1], states[j - 1 + 1]);
    hide RestartSeen, InWindow;
    if m < j - 1 {
      MeteredAt(states, actions, m, j - 1);
    }
  }

  // ------------------------------------------------------------ output health

  /** The publisher is online and was reported so at least `age` ago, and nothing
      was metered since then. */
  ghost predicate SilentFor(states: seq<Record>, actions: seq<Action>, k: nat, now: Time, age: int)
    requires |states| == |actions| + 1 && k < |states|
  {
    && (exists m: nat :: OnlineSince(states, actions, m, k) && TimeSub(now, actions[m].op.now) >= age)
    && (forall m: nat :: LastMetered(states, actions, m, k) ==> TimeSub(now, actions[m].op.now) >= age)
  }

  lemma SilenceIsOnRecord(states: seq<Record>, actions: seq<Action>, k: nat, now: Time, age: int)
    requires Story(states, actions) && k < |states|
    ensures SilentFor(states, actions, k, now, age) <==> BothOlder(states[k], now, age)
  {
    OnlineHasOrigin(states, actions, k);
    MeteredTime(states, actions, k);
    hide Story;
    forall m: nat | LastMetered(states, actions, m, k) ensures states[k].lastSegmentAt == Some(actions[m].op.now) {
      MeteredAt(states, actions, m, k);
    }
    forall m: nat | OnlineSince(states, actions, m, k) ensures states[k].onlineAt == Some(actions[m].op.now) {
      OnlineTime(states, actions, m, k);
    }
    hide OnlineSince, LastMetered;
  }

  /** The output counts as failed if and only if the session is live and its
      publisher online, and both the report of the publisher and the last metered
      segment, if there is one, are at least `failAfter` old. */
  lemma OutputFailsIffSilent(sha: Digest, actions: seq<Action>, run: Run, k: nat, now: Time, failAfter: int)
    requires Execution(sha, actions, run) && |run.states| == |actions| + 1 && k < |run.states|
    ensures OutputFailing(run.states[k], now, failAfter) <==>
              && run.states[k].state.Active? && !run.states[k].stopping
              && SilentFor(run.states, actions, k, now, failAfter)
  {
    hide *;
    RunIsStory(sha, actions, run);
    SilenceIsOnRecord(run.states, actions, k, now, failAfter);
    FailingIsOlder(run.states[k], now, failAfter);
  }

  lemma FailingIsOlder(r: Record, now: Time, failAfter: int)
    ensures OutputFailing(r, now, failAfter) <==> r.state.Active? && !r.stopping && BothOlder(r, now, failAfter)
  {
  }

  /** A health check announces a stall if and only if, on top of that, the silence
      has reached `stallAfter` but not `failAfter` and no stall stands; a stall can
      be announced as long as events can be numbered. */
  lemma StallIsAnnouncedIff(sha: Digest, actions: seq<Action>, run: Run, k: nat)
    requires Execution(sha, actions, run) && |run.states| == |actions| + 1 && k < |actions|
    requires actions[k].Do? && actions[k].op.EvaluateHealth? && Admissible(actions[k].op) && CanFinish(run.states[k])
    ensures var op, r := actions[k].op, run.states[k];
            AnnouncesStall(sha, actions, run, k) <==>
              && Live(r) && !r.output.Stalled? && !actions[k].save.FailedBeforeRename?
              && SilentFor(run.states, actions, k, op.now, op.stallAfter)
              && !SilentFor(run.states, actions, k, op.now, op.failAfter)
  {
    RunIsStory(sha, actions, run);
    StepIsFramed(sha, actions, run, k);
    hide Execution, Story, SilentFor, Framed;
    var op, r := actions[k].op, run.states[k];
    SilenceIsOnRecord(run.states, actions, k, op.now, op.stallAfter);
    SilenceIsOnRecord(run.states, actions, k, op.now, op.failAfter);
    hide Verdicts, CanFinish, Inv;
    EvaluateVerdict(sha, run.states[..k + 1], actions[k]);
  }

  lemma EvaluateDecides(r: Record, now: Time, stallAfter: int, failAfter: int)
    requires Inv(r) && CanFinish(r) && 0 < stallAfter < failAfter
    ensures var v := Evaluate(r, now, stallAfter, failAfter);
            && (v.Save? <==>
                  Live(r) && !r.output.Stalled? && BothOlder(r, now, stallAfter) && !BothOlder(r, now, failAfter))
            && (v.Save? ==> IsStallNotice(v.effect))
  {
    EventIdFits(r.runnerId, r.lastSequence + 1);
    hide OpaqueId, EventId;
  }

  lemma EvaluateVerdict(sha: Digest, states: seq<Record>, a: Action)
    requires states != [] && a.Do? && a.op.EvaluateHealth? && Admissible(a.op)
    requires Inv(states[|states| - 1]) && CanFinish(states[|states| - 1])
    ensures var r, v := states[|states| - 1], Verdicts(sha, states, a);
            && (v.Save? <==>
                  && Live(r) && !r.output.Stalled?
                  && BothOlder(r, a.op.now, a.op.stallAfter) && !BothOlder(r, a.op.now, a.op.failAfter))
            && (v.Save? ==> IsStallNotice(v.effect))
  {
    hide Inv, CanFinish, Live, BothOlder, IsStallNotice, Evaluate;
    EvaluateDecides(states[|states| - 1], a.op.now, a.op.stallAfter, a.op.failAfter);
  }

  /** A segment metered within `stallAfter` of the check: neither failed nor stalled. */
  lemma FreshOutputIsHealthy(sha: Digest, actions: seq<Action>, run: Run, k: nat, m: nat)
    requires Execution(sha, actions, run) && |run.states| == |actions| + 1 && k < |actions|
    requires actions[k].Do? && actions[k].op.EvaluateHealth? && Admissible(actions[k].op)
    requires LastMetered(run.states, actions, m, k) && TimeSub(actions[k].op.now, actions[m].op.now) < actions[k].op.stallAfter
    ensures !OutputFailing(run.states[k], actions[k].op.now, actions[k].op.failAfter)
    ensures !AnnouncesStall(sha, actions, run, k) && run.states[k + 1] == run.states[k]
  {
    hide *;
    FreshVerdict(sha, actions, run, k, m);
    NoVerdictNoChange(sha, actions, run, k);
  }

  lemma FreshVerdict(sha: Digest, actions: seq<Action>, run: Run, k: nat, m: nat)
    requires Execution(sha, actions, run) && |run.states| == |actions| + 1 && k < |actions|
    requires actions[k].Do? && actions[k].op.EvaluateHealth? && Admissible(actions[k].op)
    requires LastMetered(run.states, actions, m, k) && TimeSub(actions[k].op.now, actions[m].op.now) < actions[k].op.stallAfter
    ensures !Verdicts(sha, run.states[..k + 1], actions[k]).Save?
    ensures !OutputFailing(run.states[k], actions[k].op.now, actions[k].op.failAfter)
  {
    hide *;
    SegmentIsOnRecord(sha, actions, run, k, m);
    HealthyVerdict(sha, run.states[..k + 1], actions[k]);
  }

  lemma SegmentIsOnRecord(sha: Digest, actions: seq<Action>, run: Run, k: nat, m: nat)
    requires Execution(sha, actions, run) && |run.states| == |actions| + 1 && k < |run.states|
    requires LastMetered(run.states, actions, m, k)
    ensures m < |actions| && actions[m].Do? && actions[m].op.Segments?
    ensures run.states[k].lastSegmentAt == Some(actions[m].op.now)
  {
    RunIsStory(sha, actions, run);
    hide Execution;
    MeteredAt(run.states, actions, m, k);
  }

  lemma NoVerdictNoChange(sha: Digest, actions: seq<Action>, run: Run, k: nat)
    requires Execution(sha, actions, run) && |run.states| == |actions| + 1 && k < |actions|
    ensures !Verdicts(sha, run.states[..k + 1], actions[k]).Save? ==>
              run.states[k + 1] == run.states[k] && !AnnouncesStall(sha, actions, run, k)
  {
    StepIsFramed(sha, actions, run, k);
    hide Execution, Framed, Verdicts, Inv;
  }

  lemma FreshKeeps(r: Record, now: Time, stallAfter: int, failAfter: int)
    requires r.lastSegmentAt.Some? && TimeSub(now, r.lastSegmentAt.value) < stallAfter < failAfter
    ensures !Evaluate(r, now, stallAfter, failAfter).Save? && !OutputFailing(r, now, failAfter)
  {
  }

  lemma HealthyVerdict(sha: Digest, states: seq<Record>, a: Action)
    requires states != [] && a.Do? && a.op.EvaluateHealth? && Admissible(a.op)
    requires var r := states[|states| - 1];
             r.lastSegmentAt.Some? && TimeSub(a.op.now, r.lastSegmentAt.value) < a.op.stallAfter
    ensures !Verdicts(sha, states, a).Save? && !OutputFailing(states[|states| - 1], a.op.now, a.op.failAfter)
  {
    hide Evaluate, OutputFailing;
    FreshKeeps(states[|states| - 1], a.op.now, a.op.stallAfter, a.op.failAfter);
  }

  /** A reported stall is announced if and only if none stands. */
  lemma ReportedStallIsAnnounced(sha: Digest, actions: seq<Action>, run: Run, k: nat)
    requires Execution(sha, actions, run) && |run.states| == |actions| + 1 && k < |actions|
    requires actions[k].Do? && actions[k].op.StallOutput? && Admissible(actions[k].op) && CanFinish(run.states[k])
    ensures AnnouncesStall(sha, actions, run, k) <==>
              Live(run.states[k]) && !run.states[k].output.Stalled? && !actions[k].save.FailedBeforeRename?
  {
    StepIsFramed(sha, actions, run, k);
    hide Execution, Framed, Verdicts, CanFinish, Inv;
    StallVerdict(sha, run.states[..k + 1], actions[k]);
  }

  lemma StallDecides(r: Record, now: Time)
    requires Inv(r) && CanFinish(r)
    ensures var v := RecordStalled(r, now);
            (v.Save? <==> Live(r) && !r.output.Stalled?) && (v.Save? ==> IsStallNotice(v.effect))
  {
    EventIdFits(r.runnerId, r.lastSequence + 1);
    hide OpaqueId, EventId;
  }

  lemma StallVerdict(sha: Digest, states: seq<Record>, a: Action)
    requires states != [] && a.Do? && a.op.StallOutput? && Admissible(a.op)
    requires Inv(states[|states| - 1]) && CanFinish(states[|states| - 1])
    ensures var r, v := states[|states| - 1], Verdicts(sha, states, a);
            (v.Save? <==> Live(r) && !r.output.Stalled?) && (v.Save? ==> IsStallNotice(v.effect))
  {
    hide Inv, CanFinish, Live, IsStallNotice, RecordStalled;
    StallDecides(states[|states| - 1], a.op.now);
  }

  // ------------------------------------------------------------ the publisher

  /** The last report that was saved decides whether the publisher is online. */
  lemma ReportsAreObserved(sha: Digest, actions: seq<Action>, run: Run, k: nat)
    requires Execution(sha, actions, run) && |run.states| == |actions| + 1 && k < |actions|
    requires actions[k].Do? && actions[k].op.Presence? && Admissible(actions[k].op)
    requires Live(run.states[k]) && !actions[k].save.FailedBeforeRename?
    ensures run.states[k + 1].onlineAt.Some? <==> actions[k].op.online
    ensures run.states[k].onlineAt.Some? == actions[k].op.online ==> run.states[k + 1] == run.states[k]
  {
    StepIsFramed(sha, actions, run, k);
    hide Execution, Framed, Verdicts, Inv;
    PresenceVerdict(sha, run.states[..k + 1], actions[k]);
  }

  lemma PresenceVerdict(sha: Digest, states: seq<Record>, a: Action)
    requires states != [] && a.Do? && a.op.Presence? && Admissible(a.op) && Live(states[|states| - 1])
    ensures var r, v := states[|states| - 1], Verdicts(sha, states, a);
            && (v.Save? <==> r.onlineAt.Some? != a.op.online)
            && (v.Save? ==> v.next.onlineAt.Some? == a.op.online)
  {
  }

  /** An absence check stops a live session if and only if the publisher is away
      and the deadline, recorded or just set, has come; provided it is saved. */
  lemma AbsenceStopsIff(sha: Digest, actions: seq<Action>, run: Run, k: nat)
    requires Execution(sha, actions, run) && |run.states| == |actions| + 1 && k < |actions|
    requires IsExpiry(actions[k]) && Admissible(actions[k].op) && Live(run.states[k])
    ensures var op, r := actions[k].op, run.states[k];
            && r.outputSince.Some?
            && (run.states[k + 1].stopping <==>
                  && r.onlineAt.None? && !actions[k].save.FailedBeforeRename?
                  && op.now >= if r.deadline.Some? then r.deadline.value else ClockStart(r, op.now, op.initialWait, op.grace))
  {
    StepIsFramed(sha, actions, run, k);
    InvHasOutputSince(run.states[k]);
    hide Execution, Framed, Verdicts, Inv;
    AbsenceVerdict(sha, run.states[..k + 1], actions[k]);
  }

  lemma AbsenceVerdict(sha: Digest, states: seq<Record>, a: Action)
    requires states != [] && IsExpiry(a) && Admissible(a.op) && Live(states[|states| - 1])
    requires states[|states| - 1].outputSince.Some?
    ensures var op, r, v := a.op, states[|states| - 1], Verdicts(sha, states, a);
            v.Save? && v.next.stopping <==>
              && r.onlineAt.None?
              && op.now >= if r.deadline.Some? then r.deadline.value else ClockStart(r, op.now, op.initialWait, op.grace)
  {
  }

  /** The grace period runs from the report that the publisher went. */
  lemma GraceRunsFromTheReport(sha: Digest, actions: seq<Action>, run: Run, m: nat, k: nat)
    requires Execution(sha, actions, run) && |run.states| == |actions| + 1 && k < |actions|
    requires GoneSince(run.states, actions, m, k) && IsExpiry(actions[k]) && run.states[k].outputSince.Some?
    ensures ClockStart(run.states[k], actions[k].op.now, actions[k].op.initialWait, actions[k].op.grace) ==
            actions[m].op.now + actions[k].op.grace
  {
    RunIsStory(sha, actions, run);
    hide Execution;
    GoneTime(run.states, actions, m, k);
  }
}
