/** The coordinator's own critical sections, each one atomic step of its world. */
module AbrRegistry {
  import opened Basics
  import opened AbrCoordinator

  /** `runs`, `subs` and `terminal` are the goroutines, the channels with their
      handlers, and the durable terminal events the coordinator acts upon. */
  class ExecutionCoordinator {
    const limit: nat
    var active: map<string, Execution>
    var activeCount: int
    var leases: int
    var runs: seq<RunState>
    var subs: seq<Subscription>
    var terminal: set<string>

    ghost function State(): (s: World)
      reads this
    {
      World(limit, active, activeCount, leases, runs, subs, terminal)
    }

    constructor (limit: nat)
      ensures State() == Idle(limit)
    {
      this.limit := limit;
      active, activeCount, leases := map[], 0, 0;
      runs, subs, terminal := [], [], {};
    }

    method Subscribe(w: string, request: string, journal: Option<string>, gpu: Gpu) returns (res: Admission)
      modifies this
      ensures State() == Next(old(State()), Step.Subscribe(w, request, journal, gpu))
      ensures res == Admit(old(State()), w, request, journal, gpu)
      ensures res.LoadFailed? <==> journal == None
      ensures res.IdentityChanged? <==> journal.Some? && journal.value != request
      ensures res.AlreadyTerminal? <==> journal == Some(request) && w in terminal
      ensures res.IdentityMismatch? <==>
                journal == Some(request) && w !in terminal && w in old(active) && old(active)[w].request != request
      ensures res.NoCapacity? <==>
                journal == Some(request) && w !in terminal && w !in old(active) && (|old(active)| >= limit || gpu == Full)
      ensures res.LeaseFailed? <==>
                journal == Some(request) && w !in terminal && w !in old(active) && |old(active)| < limit && gpu == Faulty
      ensures !res.Attached? ==> State() == old(State())
      ensures res.Attached? ==>
                && res.id == |old(subs)| && w in active && res.id in active[w].subscribers && subs[res.id].workload == w
                && active[w].request == request
    {
      if journal.None? {
        return LoadFailed;
      }
      if journal.value != request {
        return IdentityChanged;
      }
      if w in terminal {
        return AlreadyTerminal;
      }
      if w !in active {
        if |active| >= limit {
          return NoCapacity;
        }
        if gpu.Full? {
          return NoCapacity;
        }
        if gpu.Faulty? {
          return LeaseFailed;
        }
        active := active[w := Execution(|runs|, request, false, {})];
        activeCount, leases := activeCount + 1, leases + 1;
        runs := runs + [RunState(w, Executing)];
      } else if active[w].request != request {
        return IdentityMismatch;
      }
      var execution, id := active[w], |subs|;
      active := active[w := execution.(subscribers := execution.subscribers + {id})];
      subs := subs + [Subscription(w, execution.run, false, false, Waiting, 0)];
      return Attached(id);
    }

    method Detach(w: string, id: nat)
      modifies this`active
      ensures State() == DetachStep(old(State()), w, id)
    {
      if w !in active {
        return;
      }
      var execution := active[w];
      execution := execution.(subscribers := execution.subscribers - {id});
      if execution.subscribers == {} {
        execution := execution.(cancelled := true);
      }
      active := active[w := execution];
    }

    /** A missing entry would be a nil dereference; NotifierIsActive rules it out. */
    method Notify(w: string)
      requires w in active && Registered(State())
      modifies this`subs
      ensures State() == NotifyStep(old(State()), w)
    {
      var todo := active[w].subscribers;
      while todo != {}
        invariant todo <= active[w].subscribers && |subs| == |old(subs)|
        invariant forall i :: 0 <= i < |subs| ==>
                    subs[i] == if i in active[w].subscribers - todo then old(subs)[i].(token := true) else old(subs)[i]
        decreases todo
      {
        var id :| id in todo;
        assert OpenFor(old(State()), w, id);
        if !subs[id].token {
          subs := subs[id := subs[id].(token := true)];
        }
        todo := todo - {id};
      }
      assert subs == NotifyStep(old(State()), w).subs;
    }

    method Finish(w: string)
      requires Registered(State())
      modifies this
      ensures State() == FinishStep(old(State()), w)
    {
      if w !in active {
        return;
      }
      var execution := active[w];
      active := active - {w};
      activeCount := activeCount - 1;
      leases := leases - 1;
      var todo := execution.subscribers;
      while todo != {}
        invariant todo <= execution.subscribers && |subs| == |old(subs)|
        invariant active == old(active) - {w} && activeCount == old(activeCount) - 1 && leases == old(leases) - 1
        invariant runs == old(runs) && terminal == old(terminal)
        invariant forall i :: 0 <= i < |subs| ==>
                    subs[i] == if i in execution.subscribers - todo then old(subs)[i].(closed := true) else old(subs)[i]
        decreases todo
      {
        var id :| id in todo;
        assert OpenFor(old(State()), w, id);
        subs := subs[id := subs[id].(closed := true)];
        todo := todo - {id};
      }
      assert subs == FinishStep(old(State()), w).subs;
    }
  }

  /** A goroutine that still notifies or finishes always finds its own entry. */
  lemma NotifierIsActive(s: World, run: nat)
    requires Reachable(s) && run < |s.runs| && !s.runs[run].phase.Ended?
    ensures s.runs[run].workload in s.active && s.active[s.runs[run].workload].run == run && Registered(s)
  {
    hide Reachable;
    ReachableIsSound(s);
  }
}
