/** When a session speaks: heartbeats after silence, and ladder restarts counted
    within the window that the first of them opened. */
module SessionCadence {
  import opened Basics
  import opened LiveContract
  import opened SessionRecord
  import opened SessionSteps
  import opened SessionInvariant
  import opened SessionRuns
  import opened SessionProgress
  import opened SessionTheorems
  import opened SessionTraces
  import opened SessionGuarantees
  import opened PublisherRuns
  import opened PublisherHealth

  // -------------------------------------------------------------- heartbeats

  /** The record carries the time of the last event of the run. */
  ghost predicate Timed(run: Run)
    requires run.states != []
  {
    Now(run).lastEventAt == if run.appended == [] then None else Some(run.appended[|run.appended| - 1].time)
  }

  lemma ApplyKeepsTimed(run: Run, a: Action, v: Verdict)
    requires run.states != [] && Timed(run) && Traces(Now(run), a, v)
    ensures Timed(Apply(run, a, v))
  {
    hide Observed, SameObservations;
  }

  lemma {:induction false} ExecKeepsTimed(sha: Digest, start: Run, actions: seq<Action>)
    requires start.states != [] && Timed(start)
    ensures Timed(Exec(sha, start, actions))
  {
    hide Timed, Traces, Verdicts, Apply;
    if actions != [] {
      var before, a := Exec(sha, start, actions[..|actions| - 1]), actions[|actions| - 1];
      ExecKeepsTimed(sha, start, actions[..|actions| - 1]);
      ActionTraces(sha, before.states, a);
      ApplyKeepsTimed(before, a, Verdicts(sha, before.states, a));
    }
  }

  lemma RunIsTimed(sha: Digest, run: Run)
    requires Reachable(sha, run)
    ensures run.states != [] && Timed(run)
  {
    hide Exec;
    var request, response, now, actions :|
      ValidCreation(request, response) && run == Exec(sha, Begin(request, response, now), actions);
    ExecKeepsTimed(sha, Begin(request, response, now), actions);
  }

  /** A heartbeat of this time, billing this much. */
  predicate IsHeartbeat(effect: Effect, now: Time, usage: uint64)
  {
    && effect.Appended? && effect.event.kind.Heartbeat? && effect.event.state.Active?
    && effect.event.time == now && effect.event.usage == Some(usage)
  }

  lemma HeartbeatDecides(r: Record, now: Time, interval: int)
    requires Inv(r) && CanFinish(r)
    ensures var v := RecordHeartbeat(r, now, interval);
            && (v.Save? <==>
                  && r.state.Active? && !r.stopping && r.lastSequence > 0
                  && (r.lastEventAt.Some? ==> now >= r.lastEventAt.value + interval))
            && (v.Save? ==> IsHeartbeat(v.effect, now, r.usageTotal))
            && (v.Keep? ==> r.state.Active? && !r.stopping && r.lastSequence > 0)
  {
    EventIdFits(r.runnerId, r.lastSequence + 1);
    hide OpaqueId, EventId;
  }

  /** A heartbeat is appended if and only if the session is live, has started and
      has been silent for the interval; it is stamped with the present time and
      bills what is billed so far. */
  lemma HeartbeatIffSilent(sha: Digest, run: Run, now: Time, interval: int)
    requires Reachable(sha, run)
    requires CanFinish(Now(run))
    ensures var v := RecordHeartbeat(Now(run), now, interval);
            && (v.Save? <==>
                  && Now(run).state.Active? && !Now(run).stopping && run.appended != []
                  && now >= run.appended[|run.appended| - 1].time + interval)
            && (v.Save? ==> IsHeartbeat(v.effect, now, Now(run).usageTotal))
  {
    hide *;
    RunIsTimed(sha, run);
    ReachableIsSound(sha, run);
    NumberedRun(sha, run);
    HeartbeatDecides(Now(run), now, interval);
    SilenceOfRun(run);
  }

  lemma NumberedRun(sha: Digest, run: Run)
    requires RunInv(sha, run)
    ensures Inv(Now(run)) && |run.appended| == Now(run).lastSequence
  {
    hide Inv, Later, Metered, Outbox;
  }

  lemma SilenceOfRun(run: Run)
    requires run.states != [] && Timed(run)
    ensures run.appended != [] ==> Now(run).lastEventAt == Some(run.appended[|run.appended| - 1].time)
  {
  }

  // ---------------------------------------------------------- ladder restarts

  /** Action i reported a failed ladder, and the restart was recorded. */
  predicate IsRestart(states: seq<Record>, actions: seq<Action>, i: nat)
    requires |states| == |actions| + 1 && i < |actions|
  {
    actions[i].Do? && actions[i].op.LadderRestartOp? && states[i + 1] != states[i]
  }

  /** New output, or the publisher going away, ends the counting. */
  predicate StartsOver(a: Record, b: Record)
  {
    b.segments != a.segments || (a.onlineAt.Some? && b.onlineAt.None?)
  }

  /** The restart that opened the present window, counting from the creation. */
  function WindowOf(states: seq<Record>, actions: seq<Action>, j: nat): (m: Option<nat>)
    requires |states| == |actions| + 1 && j <= |actions|
    ensures m.Some? ==> m.value < j && IsRestart(states, actions, m.value)
  {
    if j == 0 then None
    else
      var before := WindowOf(states, actions, j - 1);
      if StartsOver(states[j - 1], states[j - 1 + 1]) then None
      else if !IsRestart(states, actions, j - 1) then before
      else if before.Some? && TimeSub(actions[j - 1].op.now, actions[before.value].op.now) <= actions[j - 1].op.window then before
      else Some(j - 1)
  }

  function Restarts(states: seq<Record>, actions: seq<Action>, m: nat, j: nat): (n: nat)
    requires |states| == |actions| + 1 && j <= |actions|
  {
    if j <= m then 0
    else Restarts(states, actions, m, j - 1) + if IsRestart(states, actions, j - 1) then 1 else 0
  }

  /** The restarts counted since the present window was opened. */
  function Counted(states: seq<Record>, actions: seq<Action>, j: nat): (n: nat)
    requires |states| == |actions| + 1 && j <= |actions|
  {
    match WindowOf(states, actions, j)
    case None => 0
    case Some(m) => Restarts(states, actions, m, j)
  }

  ghost predicate LadderMatches(states: seq<Record>, actions: seq<Action>, j: nat)
    requires |states| == |actions| + 1 && j <= |actions|
  {
    && states[j].ladderFailures == Counted(states, actions, j)
    && (match WindowOf(states, actions, j)
        case None => states[j].ladderWindowAt.None?
        case Some(m) => states[j].ladderWindowAt == Some(actions[m].op.now) && actions[m].op.now != ZERO_TIME)
  }

  lemma OthersOnlyReset(r: Record, a: Action, n: Record)
    requires StepSeen(r, a, n) && !(a.Do? && a.op.LadderRestartOp? && n != r)
    ensures if StartsOver(r, n) then LadderReset(n) else SameLadder(r, n)
  {
  }

  lemma RestartIsSeen(r: Record, a: Action, n: Record)
    requires StepSeen(r, a, n) && a.Do? && a.op.LadderRestartOp? && n != r
    ensures RestartSeen(r, a.op.now, a.op.window, n) && !StartsOver(r, n)
  {
    hide InWindow;
  }

  lemma LadderStep(states: seq<Record>, actions: seq<Action>, j: nat)
    requires |states| == |actions| + 1 && j < |actions| && LadderMatches(states, actions, j)
    requires StepSeen(states[j], actions[j], states[j + 1])
    ensures LadderMatches(states, actions, j + 1)
  {
    hide StepSeen, StartsOver;
    var before := WindowOf(states, actions, j);
    if IsRestart(states, actions, j) {
      RestartIsSeen(states[j], actions[j], states[j + 1]);
      assert Restarts(states, actions, j, j) == 0;
    } else {
      OthersOnlyReset(states[j], actions[j], states[j + 1]);
    }
    if before.Some? && !StartsOver(states[j], states[j + 1]) {
      assert Restarts(states, actions, before.value, j + 1) ==
             Restarts(states, actions, before.value, j) + if IsRestart(states, actions, j) then 1 else 0;
    }
  }

  lemma {:induction false} LadderStory(states: seq<Record>, actions: seq<Action>, j: nat)
    requires Story(states, actions) && j <= |actions|
    ensures LadderMatches(states, actions, j)
  {
    if j > 0 {
      LadderStory(states, actions, j - 1);
      assert StepSeen(states[j - 1], actions[j - 1], states[j - 1 + 1]);
      hide *;
      LadderStep(states, actions, j - 1);
    }
  }

  /** The number a restart reports counts the restarts since the one that opened
      the window: none of them more than the window later, no new output and no
      departure of the publisher in between. */
  lemma LadderCountsRestarts(sha: Digest, actions: seq<Action>, run: Run, j: nat)
    requires Execution(sha, actions, run) && |run.states| == |actions| + 1 && j <= |actions|
    ensures run.states[j].ladderFailures == Counted(run.states, actions, j)
  {
    hide *;
    RunIsStory(sha, actions, run);
    LadderStory(run.states, actions, j);
    LadderCount(run.states, actions, j);
  }

  lemma LadderCount(states: seq<Record>, actions: seq<Action>, j: nat)
    requires |states| == |actions| + 1 && j <= |actions| && LadderMatches(states, actions, j)
    ensures states[j].ladderFailures == Counted(states, actions, j)
  {
  }

  lemma RestartDecides(r: Record, code: string, now: Time, window: int)
    requires Inv(r) && CanFinish(r)
    ensures var v := RestartLadder(r, code, now, window);
            && (v.Save? <==> Live(r) && (InWindow(r, now, window) ==> r.ladderFailures < 0xFFFF_FFFF))
            && (v.Save? ==>
                  && v.next.ladderCode == code
                  && v.effect.Appended? && v.effect.event.kind.LadderRestart? && v.effect.event.time == now)
  {
    EventIdFits(r.runnerId, r.lastSequence + 1);
    hide OpaqueId, EventId;
  }

  /** A reported failure of the ladder of a live session is recorded, as long as
      its window holds fewer than 2^32 - 1 of them. */
  lemma RestartIsRecorded(sha: Digest, run: Run, code: string, now: Time, window: int)
    requires Reachable(sha, run) && CanFinish(Now(run)) && Now(run).ladderFailures < 0xFFFF_FFFF
    ensures var v := RestartLadder(Now(run), code, now, window);
            && (v.Save? <==> Live(Now(run)))
            && (v.Save? ==>
                  && v.next.ladderCode == code
                  && v.effect.Appended? && v.effect.event.kind.LadderRestart? && v.effect.event.time == now)
  {
    hide *;
    RunIsTimed(sha, run);
    ReachableIsSound(sha, run);
    NumberedRun(sha, run);
    RestartIsFree(run, code, now, window);
  }

  lemma RestartIsFree(run: Run, code: string, now: Time, window: int)
    requires run.states != [] && Inv(Now(run)) && CanFinish(Now(run)) && Now(run).ladderFailures < 0xFFFF_FFFF
    ensures var v := RestartLadder(Now(run), code, now, window);
            && (v.Save? <==> Live(Now(run)))
            && (v.Save? ==>
                  && v.next.ladderCode == code
                  && v.effect.Appended? && v.effect.event.kind.LadderRestart? && v.effect.event.time == now)
  {
    hide RestartLadder, Inv, CanFinish;
    RestartDecides(Now(run), code, now, window);
  }
}
