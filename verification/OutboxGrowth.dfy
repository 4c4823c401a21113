/** What everybody but the callback worker may do to an outbox: only append to it. */
module OutboxGrowth {
  import opened Basics
  import opened LiveContract
  import opened SessionRecord
  import opened SessionSteps
  import opened SessionInvariant
  import opened SessionRuns
  import opened SessionProgress
  import opened SessionTheorems
  import opened SessionGates
  import opened PublisherRuns
  import CallbackRuns

  /** A later record whose head, attempt, rejections and secrets are untouched, and
      which cannot have closed without something to say. */
  ghost predicate Grown(r: Record, n: Record)
  {
    && Inv(n) && Later(r, n)
    && r.pending <= n.pending && n.delivery == r.delivery
    && n.rejectedTotal == r.rejectedTotal && n.deadLetters == r.deadLetters
    && (r.secrets.Some? <==> n.secrets.Some?)
    && (if r.state.Active? then !n.state.Active? ==> |r.pending| < |n.pending| else n.pending == r.pending)
  }

  /** The calls only the callback worker makes. */
  predicate Settlement(a: Action)
  {
    a.Do? && (a.op.Acknowledge? || a.op.Reserve? || a.op.RetryFailure? || a.op.Park? || a.op.ClearSecrets?)
  }

  lemma GrownIsReflexive(r: Record)
    requires Inv(r)
    ensures Grown(r, r)
  {
    InvLifecycle(r);
    LaterIsReflexive(r);
    hide Inv, Later;
  }

  lemma GrownIsTransitive(a: Record, b: Record, c: Record)
    requires Inv(a) && Grown(a, b) && Grown(b, c)
    ensures Grown(a, c)
  {
    InvLifecycle(a);
    InvLifecycle(b);
    LaterIsTransitive(a, b, c);
    LaterStaysClosed(a, b);
    hide Inv, Later;
  }

  lemma LaterStaysClosed(a: Record, b: Record)
    requires Later(a, b)
    ensures !a.state.Active? ==> !b.state.Active?
  {
  }

  lemma CursorOfOthers(sha: Digest, states: seq<Record>, a: Action)
    requires states != [] && !Settlement(a)
    ensures CallbackRuns.KeepsCursor(states[|states| - 1], Verdicts(sha, states, a))
  {
    hide Decide, Advance, CallbackRuns.KeepsCursor;
    var r := states[|states| - 1];
    CallbackRuns.RefusalKeepsCursor(r, Keep);
    match a {
      case Do(op, _) => CallbackRuns.OtherOpsKeepCursor(sha, r, op);
      case Start(loaded, now, _) =>
        if loaded < |states| { CallbackRuns.AdvanceKeepsCursor(r, StartEvent(states[loaded], now)); }
      case Finish(loaded, now, _) =>
        if loaded < |states| { CallbackRuns.AdvanceKeepsCursor(r, TerminalEvent(states[loaded], now)); }
    }
  }

  lemma ProgressGrows(r: Record, a: Action, v: Verdict)
    requires Inv(r) && Safe(v) && Progress(r, v) && CallbackRuns.KeepsCursor(r, v) && MindsGates(r, a, v) && !Settlement(a)
    ensures v.Save? ==> Grown(r, v.next)
  {
    if v.Save? {
      SecretsStayGone(r, v.next);
    }
    hide Inv, Later, ValidEvent, EventId;
  }

  lemma SecretsStayGone(a: Record, b: Record)
    requires Later(a, b)
    ensures a.secrets.None? ==> b.secrets.None?
  {
  }

  /** Every step of any other caller grows the record. */
  lemma OthersGrow(sha: Digest, states: seq<Record>, a: Action)
    requires StatesSound(states) && !Settlement(a)
    ensures var r := states[|states| - 1]; Grown(r, Outcome(r, a, Verdicts(sha, states, a)))
  {
    var r, v := states[|states| - 1], Verdicts(sha, states, a);
    VerdictIsSound(sha, states, a);
    CursorOfOthers(sha, states, a);
    ActionMindsGates(sha, states, a);
    assert Inv(r);
    hide Verdicts, Progress, MindsGates, Grown, Safe, Inv, Later, CallbackRuns.KeepsCursor;
    ProgressGrows(r, a, v);
    GrownIsReflexive(r);
  }

  lemma {:induction false} GrowthAddsUp(states: seq<Record>, i: nat, j: nat)
    requires i <= j < |states| && Inv(states[i]) && forall k :: i <= k < j ==> Grown(states[k], states[k + 1])
    ensures Grown(states[i], states[j])
    decreases j
  {
    hide Inv, Grown;
    GrownIsReflexive(states[i]);
    if i < j {
      GrowthAddsUp(states, i, j - 1);
      assert Grown(states[j - 1], states[j - 1 + 1]);
      GrownIsTransitive(states[i], states[j - 1], states[j]);
    }
  }

  lemma StepGrows(sha: Digest, actions: seq<Action>, run: Run, k: nat)
    requires Execution(sha, actions, run) && |run.states| == |actions| + 1 && k < |actions| && !Settlement(actions[k])
    ensures Inv(run.states[k]) && Grown(run.states[k], run.states[k + 1])
  {
    hide *;
    ExecutionIsSound(sha, actions, run);
    PrefixIsSound(run.states, k + 1);
    GateStep(sha, actions, run, k);
    OthersGrow(sha, run.states[..k + 1], actions[k]);
  }

  /** So does any stretch of a run in which the worker does nothing. */
  lemma StretchesGrow(sha: Digest, actions: seq<Action>, run: Run, i: nat, j: nat)
    requires Execution(sha, actions, run) && |run.states| == |actions| + 1 && i < j <= |actions|
    requires forall k :: i <= k < j ==> !Settlement(actions[k])
    ensures Grown(run.states[i], run.states[j])
  {
    hide *;
    StepGrows(sha, actions, run, i);
    forall k | i <= k < j ensures Grown(run.states[k], run.states[k + 1]) {
      StepGrows(sha, actions, run, k);
    }
    GrowthAddsUp(run.states, i, j);
  }

  lemma PrefixIsSound(states: seq<Record>, n: nat)
    requires StatesSound(states) && 0 < n <= |states|
    ensures StatesSound(states[..n]) && Inv(states[n - 1])
  {
    hide Inv, Later;
  }
}
