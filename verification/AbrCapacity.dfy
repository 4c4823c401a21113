/** When a request starts a run, joins one, or is turned away, counted in runs. */
module AbrCapacity {
  import opened Basics
  import opened AbrCoordinator

  /** The goroutines that have not finished yet. */
  function Unfinished(s: World): (runs: set<nat>)
  {
    set r | 0 <= r < |s.runs| && !s.runs[r].phase.Ended?
  }

  ghost predicate HasRun(s: World, w: string)
  {
    exists r :: r in Unfinished(s) && s.runs[r].workload == w
  }

  /** As many runs as entries: distinct workloads have distinct runs. */
  lemma {:induction false} RunsOfKeys(s: World, keys: set<string>)
    requires OneRunEach(s) && keys <= s.active.Keys
    ensures |set w | w in keys :: s.active[w].run| == |keys|
    decreases keys
  {
    if keys != {} {
      var w :| w in keys;
      var rest := keys - {w};
      RunsOfKeys(s, rest);
      var runs := set v | v in rest :: s.active[v].run;
      assert s.active[w].run !in runs;
      assert (set v | v in keys :: s.active[v].run) == runs + {s.active[w].run};
    }
  }

  lemma UnfinishedAreActive(s: World)
    requires OneRunEach(s)
    ensures |Unfinished(s)| == |s.active|
    ensures forall w :: HasRun(s, w) <==> w in s.active
  {
    RunsOfKeys(s, s.active.Keys);
    var runs := set w | w in s.active.Keys :: s.active[w].run;
    forall r ensures r in Unfinished(s) <==> r in runs {
      if r in Unfinished(s) {
        assert s.runs[r].workload in s.active.Keys;
      }
    }
    assert Unfinished(s) == runs;
    forall w | w in s.active ensures HasRun(s, w) {
      assert s.active[w].run in Unfinished(s) && s.runs[s.active[w].run].workload == w;
    }
  }

  /** A request whose journal is its own and still open. */
  predicate Admissible(s: World, step: Step)
  {
    step.Subscribe? && step.journal == Some(step.request) && step.workload !in s.terminal
  }

  function AnswerOf(s: World, step: Step): (res: Admission)
    requires step.Subscribe?
  {
    Admit(s, step.workload, step.request, step.journal, step.gpu)
  }

  /** In every reachable state such a request is turned away for capacity if and
      only if its workload has no run and the runs have reached the limit or the
      gate is full; it fails on the lease only with room for the run. */
  lemma RefusedIffFull(s: World, step: Step)
    requires Reachable(s) && Admissible(s, step)
    ensures AnswerOf(s, step).NoCapacity? <==>
              !HasRun(s, step.workload) && (|Unfinished(s)| >= s.limit || step.gpu == Full)
    ensures AnswerOf(s, step).LeaseFailed? <==>
              !HasRun(s, step.workload) && |Unfinished(s)| < s.limit && step.gpu == Faulty
    ensures AnswerOf(s, step).NoCapacity? || AnswerOf(s, step).LeaseFailed? ==> Next(s, step) == s
  {
    hide Reachable;
    ReachableIsSound(s);
    UnfinishedAreActive(s);
    hide Inv, HasRun, Unfinished;
  }

  lemma OneMoreUnfinished(s: World, n: World, w: string)
    ensures n.runs == s.runs + [RunState(w, Executing)] ==> |Unfinished(n)| == |Unfinished(s)| + 1
  {
    if n.runs == s.runs + [RunState(w, Executing)] {
      assert Unfinished(n) == Unfinished(s) + {|s.runs|};
    }
  }

  /** With room and a free gate it gets exactly one more run, and listens to it. */
  lemma RoomStartsOneRun(s: World, step: Step)
    requires Reachable(s) && Admissible(s, step)
    requires !HasRun(s, step.workload) && |Unfinished(s)| < s.limit && step.gpu == Free
    ensures var n, id := Next(s, step), |s.subs|;
            && AnswerOf(s, step) == Attached(id)
            && n.runs == s.runs + [RunState(step.workload, Executing)] && |Unfinished(n)| == |Unfinished(s)| + 1
            && n.subs == s.subs + [Subscription(step.workload, |s.runs|, false, false, Waiting, 0)]
  {
    hide Reachable;
    ReachableIsSound(s);
    UnfinishedAreActive(s);
    hide Inv, HasRun, Unfinished;
    OneMoreUnfinished(s, Next(s, step), step.workload);
  }

  /** With a run of the same request it joins that run, full or not. */
  lemma RunningIsJoined(s: World, step: Step, r: nat)
    requires Reachable(s) && Admissible(s, step) && r in Unfinished(s) && s.runs[r].workload == step.workload
    requires step.workload in s.active && s.active[step.workload].request == step.request
    ensures var n, id := Next(s, step), |s.subs|;
            && AnswerOf(s, step) == Attached(id) && n.runs == s.runs
            && n.subs == s.subs + [Subscription(step.workload, r, false, false, Waiting, 0)]
  {
    hide Reachable;
    ReachableIsSound(s);
  }

  /** A reported progress leaves a signal for everybody who listens to that run. */
  lemma ProgressIsSignalled(s: World, run: nat, id: nat)
    requires Reachable(s) && Running(s, run, Executing) && Listening(s, id) && s.subs[id].run == run && !s.subs[id].closed
    ensures var n := Next(s, ReportProgress(run)); |n.subs| == |s.subs| && n.subs[id].token
  {
    hide Reachable;
    ReachableIsSound(s);
    assert HandlerSound(s, id) && OpenFor(s, s.subs[id].workload, id);
  }
}
