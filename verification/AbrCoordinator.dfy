/** One execution per workload, its subscribers, and the races around its end. */
module AbrCoordinator {
  import opened Basics

  /** A goroutine in `run`: what it still has to do. */
  datatype Phase = Executing | Writing | Notifying | Finishing | Ended

  datatype RunState = RunState(workload: string, phase: Phase)

  /** An entry of the active map; its subscribers are named by their number. */
  datatype Execution = Execution(run: nat, request: string, cancelled: bool, subscribers: set<nat>)

  /** The request handler behind a subscription. */
  datatype Handler = Waiting | Received(open: bool) | Leaving | Gone

  /** A subscription: its one-slot channel, its handler, and how many terminal events it wrote. */
  datatype Subscription = Subscription(
    workload: string,
    run: nat,
    token: bool,
    closed: bool,
    handler: Handler,
    terminals: nat)

  /** Coordinator, goroutines, handlers and the durable terminal events together.
      `nextSubscriber` is the number of subscriptions so far. */
  datatype World = World(
    limit: nat,
    active: map<string, Execution>,
    activeCount: int,
    leases: int,
    runs: seq<RunState>,
    subs: seq<Subscription>,
    terminal: set<string>)

  datatype TerminalWrite = Stored | StoredButFailed | NotStored

  /** What the GPU gate answers to a new run. */
  datatype Gpu = Free | Full | Faulty

  /** What a request is told; `journal` is the request hash of the loaded journal, if it loads. */
  datatype Admission =
    | Attached(id: nat)
    | LoadFailed
    | IdentityChanged
    | AlreadyTerminal
    | NoCapacity
    | LeaseFailed
    | IdentityMismatch

  /** The atomic steps: critical sections of the mutex, channel operations, one
      journal read or write, and a handler that gives up (its client is gone, or a
      load or a write of its own failed). */
  datatype Step =
    | Subscribe(workload: string, request: string, journal: Option<string>, gpu: Gpu)
    | ReportProgress(run: nat)
    | CheckContext(run: nat)
    | WriteTerminal(run: nat, write: TerminalWrite)
    | NotifyTerminal(run: nat)
    | Finish(run: nat)
    | Receive(id: nat)
    | ReadJournal(id: nat)
    | Disconnect(id: nat)
    | Detach(id: nat)

  function Idle(limit: nat): (s: World) { World(limit, map[], 0, 0, [], [], {}) }

  predicate Running(s: World, run: nat, phase: Phase) { run < |s.runs| && s.runs[run].phase == phase }

  predicate Handling(s: World, id: nat) { id < |s.subs| }

  function SetPhase(s: World, run: nat, phase: Phase): (n: World)
    requires run < |s.runs|
  {
    s.(runs := s.runs[run := s.runs[run].(phase := phase)])
  }

  function SetHandler(s: World, id: nat, handler: Handler): (n: World)
    requires id < |s.subs|
  {
    s.(subs := s.subs[id := s.subs[id].(handler := handler)])
  }

  /** The order of the checks matters: a terminal journal needs no run, and a
      running execution needs no capacity. */
  function Admit(s: World, w: string, request: string, journal: Option<string>, gpu: Gpu): (res: Admission)
  {
    if journal.None? then LoadFailed
    else if journal.value != request then IdentityChanged
    else if w in s.terminal then AlreadyTerminal
    else if w in s.active then
      if s.active[w].request != request then IdentityMismatch else Attached(|s.subs|)
    else if |s.active| >= s.limit || gpu.Full? then NoCapacity
    else if gpu.Faulty? then LeaseFailed
    else Attached(|s.subs|)
  }

  /** The run a subscription needs: the active one, or a new one. */
  function Started(s: World, w: string, request: string): (n: World)
  {
    if w in s.active then s
    else s.(active := s.active[w := Execution(|s.runs|, request, false, {})], activeCount := s.activeCount + 1,
            leases := s.leases + 1, runs := s.runs + [RunState(w, Executing)])
  }

  function Joined(s: World, w: string): (n: World)
    requires w in s.active
  {
    s.(active := s.active[w := s.active[w].(subscribers := s.active[w].subscribers + {|s.subs|})],
       subs := s.subs + [Subscription(w, s.active[w].run, false, false, Waiting, 0)])
  }

  function SubscribeStep(s: World, w: string, request: string, journal: Option<string>, gpu: Gpu): (n: World)
  {
    if Admit(s, w, request, journal, gpu).Attached? then Joined(Started(s, w, request), w) else s
  }

  /** A non-blocking send to every registered subscriber. */
  function NotifyStep(s: World, w: string): (n: World)
    requires w in s.active
    ensures |n.subs| == |s.subs|
  {
    s.(subs := seq(|s.subs|, i requires 0 <= i < |s.subs| =>
        if i in s.active[w].subscribers then s.subs[i].(token := true) else s.subs[i]))
  }

  function FinishStep(s: World, w: string): (n: World)
    ensures |n.subs| == |s.subs|
  {
    if w !in s.active then s
    else
      s.(active := s.active - {w}, activeCount := s.activeCount - 1, leases := s.leases - 1,
         subs := seq(|s.subs|, i requires 0 <= i < |s.subs| =>
           if i in s.active[w].subscribers then s.subs[i].(closed := true) else s.subs[i]))
  }

  function DetachStep(s: World, w: string, id: nat): (n: World)
  {
    if w !in s.active then s
    else
      var rest := s.active[w].subscribers - {id};
      s.(active := s.active[w := s.active[w].(subscribers := rest, cancelled := s.active[w].cancelled || rest == {})])
  }

  /** A step that is not enabled changes nothing. */
  function Next(s: World, step: Step): (n: World)
  {
    match step
    case Subscribe(w, request, journal, gpu) => SubscribeStep(s, w, request, journal, gpu)
    case ReportProgress(run) =>
      if Running(s, run, Executing) && s.runs[run].workload in s.active then NotifyStep(s, s.runs[run].workload) else s
    case CheckContext(run) =>
      if Running(s, run, Executing) && s.runs[run].workload in s.active then
        SetPhase(s, run, if s.active[s.runs[run].workload].cancelled then Finishing else Writing)
      else s
    case WriteTerminal(run, write) =>
      if Running(s, run, Writing) then
        var after := SetPhase(s, run, if write.Stored? then Notifying else Finishing);
        if write.NotStored? then after else after.(terminal := s.terminal + {s.runs[run].workload})
      else s
    case NotifyTerminal(run) =>
      if Running(s, run, Notifying) && s.runs[run].workload in s.active then
        SetPhase(NotifyStep(s, s.runs[run].workload), run, Finishing)
      else s
    case Finish(run) =>
      if Running(s, run, Finishing) then SetPhase(FinishStep(s, s.runs[run].workload), run, Ended) else s
    case Receive(id) =>
      if Handling(s, id) && s.subs[id].handler.Waiting? then
        if s.subs[id].token then s.(subs := s.subs[id := s.subs[id].(token := false, handler := Received(true))])
        else if s.subs[id].closed then SetHandler(s, id, Received(false))
        else s
      else s
    case ReadJournal(id) =>
      if Handling(s, id) && s.subs[id].handler.Received? then
        if s.subs[id].workload in s.terminal then
          s.(subs := s.subs[id := s.subs[id].(handler := Leaving, terminals := s.subs[id].terminals + 1)])
        else SetHandler(s, id, if s.subs[id].handler.open then Waiting else Leaving)
      else s
    case Disconnect(id) =>
      if Handling(s, id) && (s.subs[id].handler.Waiting? || s.subs[id].handler.Received?) then SetHandler(s, id, Leaving) else s
    case Detach(id) =>
      if Handling(s, id) && s.subs[id].handler.Leaving? then
        SetHandler(DetachStep(s, s.subs[id].workload, id), id, Gone)
      else s
  }

  function Exec(s: World, steps: seq<Step>): (n: World)
  {
    if steps == [] then s else Next(Exec(s, steps[..|steps| - 1]), steps[|steps| - 1])
  }

  // --------------------------------------------------------------- invariant

  /** Active entries and unfinished goroutines are the same thing. */
  predicate OneRunEach(s: World)
  {
    && (forall w <- s.active ::
          var r := s.active[w].run; r < |s.runs| && s.runs[r].workload == w && !s.runs[r].phase.Ended?)
    && (forall r :: 0 <= r < |s.runs| && !s.runs[r].phase.Ended? ==>
          s.runs[r].workload in s.active && s.active[s.runs[r].workload].run == r)
  }

  predicate Counted(s: World)
  {
    |s.active| <= s.limit && s.activeCount == |s.active| && s.leases == |s.active|
  }

  /** A run nobody cancelled has someone to run for. */
  predicate Wanted(s: World)
  {
    forall w <- s.active :: !s.active[w].cancelled ==> s.active[w].subscribers != {}
  }

  /** A registered channel is open and belongs to this very run. */
  predicate OpenFor(s: World, w: string, id: nat)
    requires w in s.active
  {
    id < |s.subs| && s.subs[id].workload == w && s.subs[id].run == s.active[w].run && !s.subs[id].closed
  }

  predicate Registered(s: World)
  {
    forall w, id :: w in s.active && id in s.active[w].subscribers ==> OpenFor(s, w, id)
  }

  predicate HandlerSound(s: World, id: nat)
    requires id < |s.subs|
  {
    var u := s.subs[id];
    && u.run < |s.runs| && s.runs[u.run].workload == u.workload
    && (!u.handler.Gone? ==> u.closed || (u.workload in s.active && id in s.active[u.workload].subscribers))
    && (u.handler == Received(false) ==> u.closed)
    && u.terminals <= 1
    && (u.terminals == 1 ==> (u.handler.Leaving? || u.handler.Gone?) && u.workload in s.terminal)
  }

  predicate HandlersSound(s: World)
  {
    forall id :: 0 <= id < |s.subs| ==> HandlerSound(s, id)
  }

  /** Only a workload's own run closes its journal, on its way out. */
  predicate ClosedOnTheWayOut(s: World)
  {
    forall w <- s.active :: s.active[w].run < |s.runs| && w in s.terminal ==>
      s.runs[s.active[w].run].phase.Notifying? || s.runs[s.active[w].run].phase.Finishing?
  }

  predicate Inv(s: World)
  {
    OneRunEach(s) && Counted(s) && Wanted(s) && Registered(s) && HandlersSound(s) && ClosedOnTheWayOut(s)
  }

  /** Everything but the promise that someone is waiting for the new run. */
  predicate AlmostInv(s: World, except: string)
  {
    && OneRunEach(s) && Counted(s) && Registered(s) && HandlersSound(s) && ClosedOnTheWayOut(s)
    && forall w <- s.active :: w != except && !s.active[w].cancelled ==> s.active[w].subscribers != {}
  }

  lemma StartKeepsInv(s: World, w: string, request: string)
    requires Inv(s) && w !in s.terminal && (w in s.active || |s.active| < s.limit)
    ensures AlmostInv(Started(s, w, request), w)
  {
    StartKeepsSubscribers(s, w, request);
    StartKeepsRuns(s, w, request);
    StartCounts(s, w, request);
    hide OneRunEach, Counted, Registered, HandlersSound, ClosedOnTheWayOut;
  }

  lemma StartCounts(s: World, w: string, request: string)
    requires Counted(s) && (w in s.active || |s.active| < s.limit)
    ensures Counted(Started(s, w, request))
  {
    var n := Started(s, w, request);
    if w !in s.active {
      assert n.active.Keys == s.active.Keys + {w};
      assert |n.active| == |n.active.Keys| == |s.active| + 1;
    }
  }

  lemma StartKeepsRuns(s: World, w: string, request: string)
    requires OneRunEach(s) && ClosedOnTheWayOut(s) && w !in s.terminal
    ensures OneRunEach(Started(s, w, request)) && ClosedOnTheWayOut(Started(s, w, request))
  {
  }

  lemma StartKeepsSubscribers(s: World, w: string, request: string)
    requires Registered(s) && HandlersSound(s)
    ensures Registered(Started(s, w, request)) && HandlersSound(Started(s, w, request))
  {
    var n := Started(s, w, request);
    forall id | 0 <= id < |n.subs| ensures HandlerSound(n, id) {
      assert HandlerSound(s, id);
    }
    forall v, id | v in n.active && id in n.active[v].subscribers ensures OpenFor(n, v, id) {
      assert v in s.active ==> OpenFor(s, v, id);
    }
  }

  lemma JoinKeepsInv(s: World, w: string)
    requires AlmostInv(s, w) && w in s.active
    ensures Inv(Joined(s, w))
  {
    var n := Joined(s, w);
    assert n.active.Keys == s.active.Keys;
    assert |n.active| == |n.active.Keys| == |s.active|;
    JoinKeepsSubscribers(s, w);
  }

  lemma JoinKeepsSubscribers(s: World, w: string)
    requires AlmostInv(s, w) && w in s.active
    ensures HandlersSound(Joined(s, w)) && Registered(Joined(s, w))
  {
    var n := Joined(s, w);
    forall id | 0 <= id < |n.subs| ensures HandlerSound(n, id) {
      if id < |s.subs| { assert HandlerSound(s, id); }
    }
    forall v, id | v in n.active && id in n.active[v].subscribers ensures OpenFor(n, v, id) {
      if v != w || id != |s.subs| { assert OpenFor(s, v, id); }
    }
  }

  lemma SubscribeKeepsInv(s: World, step: Step)
    requires Inv(s) && step.Subscribe?
    ensures Inv(Next(s, step))
  {
    if Admit(s, step.workload, step.request, step.journal, step.gpu).Attached? {
      StartKeepsInv(s, step.workload, step.request);
      hide Inv, AlmostInv;
      JoinKeepsInv(Started(s, step.workload, step.request), step.workload);
    }
  }

  lemma NotifyKeepsInv(s: World, w: string)
    requires Inv(s) && w in s.active
    ensures Inv(NotifyStep(s, w))
  {
    var n := NotifyStep(s, w);
    forall id | 0 <= id < |n.subs| ensures HandlerSound(n, id) {
      assert HandlerSound(s, id);
    }
    forall v, id | v in n.active && id in n.active[v].subscribers ensures OpenFor(n, v, id) {
      assert OpenFor(s, v, id);
    }
  }

  lemma FinishKeepsInv(s: World, run: nat)
    requires Inv(s) && Running(s, run, Finishing)
    ensures Inv(Next(s, Finish(run)))
  {
    var w, n := s.runs[run].workload, Next(s, Finish(run));
    assert w in s.active && s.active[w].run == run;
    assert n.active == s.active - {w} && n.active.Keys == s.active.Keys - {w};
    assert |n.active| == |n.active.Keys| == |s.active| - 1;
    FinishKeepsSubscribers(s, run);
    hide Registered, HandlersSound, NotifyStep;
  }

  lemma FinishKeepsSubscribers(s: World, run: nat)
    requires OneRunEach(s) && Registered(s) && HandlersSound(s) && Running(s, run, Finishing)
    ensures Registered(Next(s, Finish(run))) && HandlersSound(Next(s, Finish(run)))
  {
    var w, n := s.runs[run].workload, Next(s, Finish(run));
    assert w in s.active && s.active[w].run == run;
    hide OneRunEach;
    forall id | 0 <= id < |n.subs| ensures HandlerSound(n, id) {
      assert HandlerSound(s, id);
    }
    forall v, id | v in n.active && id in n.active[v].subscribers ensures OpenFor(n, v, id) {
      assert OpenFor(s, v, id) && v != w;
      assert id in s.active[w].subscribers ==> OpenFor(s, w, id);
    }
  }

  lemma DetachKeepsInv(s: World, id: nat)
    requires Inv(s) && id < |s.subs| && s.subs[id].handler.Leaving?
    ensures Inv(Next(s, Detach(id)))
  {
    DetachKeepsSubscribers(s, id);
    DetachKeepsRuns(s, s.subs[id].workload, id);
    hide SubscribeStep, OneRunEach, Wanted, Registered, HandlersSound, DetachStep, NotifyStep, FinishStep;
  }

  lemma DetachKeepsRuns(s: World, w: string, id: nat)
    requires OneRunEach(s) && Counted(s) && Wanted(s) && ClosedOnTheWayOut(s)
    ensures var n := DetachStep(s, w, id); OneRunEach(n) && Counted(n) && Wanted(n) && ClosedOnTheWayOut(n)
  {
    var n := DetachStep(s, w, id);
    assert n.active.Keys == s.active.Keys;
    assert Counted(n) by {
      hide OneRunEach, Wanted, ClosedOnTheWayOut;
      assert |n.active| == |n.active.Keys| == |s.active|;
    }
    hide Counted;
    assert Wanted(n) by {
      hide OneRunEach, ClosedOnTheWayOut;
    }
    hide Wanted;
  }

  lemma DetachKeepsSubscribers(s: World, id: nat)
    requires Registered(s) && HandlersSound(s) && id < |s.subs| && s.subs[id].handler.Leaving?
    ensures Registered(Next(s, Detach(id))) && HandlersSound(Next(s, Detach(id)))
  {
    var n := Next(s, Detach(id));
    hide NotifyStep, FinishStep;
    forall other | 0 <= other < |n.subs| ensures HandlerSound(n, other) {
      assert HandlerSound(s, other);
    }
    forall v, other | v in n.active && other in n.active[v].subscribers ensures OpenFor(n, v, other) {
      assert OpenFor(s, v, other);
    }
  }

  /** A goroutine moves on without ending; a terminal write names its own workload. */
  lemma PhaseKeepsInv(s: World, run: nat, phase: Phase, closes: bool)
    requires Inv(s) && run < |s.runs| && !s.runs[run].phase.Ended? && !phase.Ended?
    requires closes ==> phase.Notifying? || phase.Finishing?
    requires s.runs[run].workload in s.terminal ==> phase.Notifying? || phase.Finishing?
    ensures var n := SetPhase(s, run, phase);
            Inv(if closes then n.(terminal := s.terminal + {s.runs[run].workload}) else n)
  {
    var n := SetPhase(s, run, phase);
    var m := if closes then n.(terminal := s.terminal + {s.runs[run].workload}) else n;
    forall id | 0 <= id < |m.subs| ensures HandlerSound(m, id) {
      assert HandlerSound(s, id);
    }
    forall v, id | v in m.active && id in m.active[v].subscribers ensures OpenFor(m, v, id) {
      assert OpenFor(s, v, id);
    }
  }

  /** A handler moves on by itself. */
  lemma HandlerKeepsInv(s: World, id: nat, u: Subscription)
    requires Inv(s) && id < |s.subs|
    requires u == s.subs[id].(token := u.token, handler := u.handler, terminals := u.terminals)
    requires HandlerSound(s.(subs := s.subs[id := u]), id)
    ensures Inv(s.(subs := s.subs[id := u]))
  {
    var n := s.(subs := s.subs[id := u]);
    forall other | 0 <= other < |n.subs| ensures HandlerSound(n, other) {
      assert HandlerSound(s, other);
    }
    forall v, other | v in n.active && other in n.active[v].subscribers ensures OpenFor(n, v, other) {
      assert OpenFor(s, v, other);
    }
  }

  lemma HandlerStepKeepsInv(s: World, step: Step)
    requires Inv(s) && (step.Receive? || step.ReadJournal? || step.Disconnect?)
    ensures Inv(Next(s, step))
  {
    if Handling(s, step.id) {
      assert HandlerSound(s, step.id);
      hide OneRunEach, Counted, Wanted, Registered, HandlersSound, ClosedOnTheWayOut;
      var n := Next(s, step);
      if n != s {
        HandlerKeepsInv(s, step.id, n.subs[step.id]);
        assert n == s.(subs := s.subs[step.id := n.subs[step.id]]);
      }
    }
  }

  lemma RunStepKeepsInv(s: World, step: Step)
    requires Inv(s) && (step.ReportProgress? || step.CheckContext? || step.WriteTerminal? || step.NotifyTerminal?)
    ensures Inv(Next(s, step))
  {
    var run := step.run;
    if run < |s.runs| && !s.runs[run].phase.Ended? {
      var w := s.runs[run].workload;
      assert w in s.active && s.active[w].run == run;
      hide OneRunEach, Counted, Wanted, Registered, HandlersSound;
      match step {
        case ReportProgress(_) => NotifyKeepsInv(s, w);
        case CheckContext(_) =>
          if s.runs[run].phase.Executing? {
            PhaseKeepsInv(s, run, if s.active[w].cancelled then Finishing else Writing, false);
          }
        case WriteTerminal(_, write) =>
          if s.runs[run].phase.Writing? {
            PhaseKeepsInv(s, run, if write.Stored? then Notifying else Finishing, !write.NotStored?);
          }
        case NotifyTerminal(_) =>
          NotifyKeepsInv(s, w);
          PhaseKeepsInv(NotifyStep(s, w), run, Finishing, false);
      }
    }
  }

  lemma StepKeepsInv(s: World, step: Step)
    requires Inv(s)
    ensures Inv(Next(s, step))
  {
    hide Inv;
    match step {
      case Subscribe(_, _, _, _) => SubscribeKeepsInv(s, step);
      case Finish(run) => if Running(s, run, Finishing) { FinishKeepsInv(s, run); }
      case Detach(id) => if Handling(s, id) && s.subs[id].handler.Leaving? { DetachKeepsInv(s, id); }
      case Receive(_) => HandlerStepKeepsInv(s, step);
      case ReadJournal(_) => HandlerStepKeepsInv(s, step);
      case Disconnect(_) => HandlerStepKeepsInv(s, step);
      case ReportProgress(_) => RunStepKeepsInv(s, step);
      case CheckContext(_) => RunStepKeepsInv(s, step);
      case WriteTerminal(_, _) => RunStepKeepsInv(s, step);
      case NotifyTerminal(_) => RunStepKeepsInv(s, step);
    }
  }

  lemma {:induction false} RunsKeepInv(limit: nat, steps: seq<Step>)
    ensures Inv(Exec(Idle(limit), steps))
  {
    hide Next;
    if steps == [] {
      assert Inv(Idle(limit));
    } else {
      RunsKeepInv(limit, steps[..|steps| - 1]);
      hide Inv;
      StepKeepsInv(Exec(Idle(limit), steps[..|steps| - 1]), steps[|steps| - 1]);
    }
  }

  // -------------------------------------------------------------- guarantees

  /** Some interleaving of steps leads here. */
  ghost predicate Reachable(s: World)
  {
    exists limit, steps :: s == Exec(Idle(limit), steps)
  }

  lemma ReachableIsSound(s: World)
    requires Reachable(s)
    ensures Inv(s)
  {
    hide Inv, Next;
    var limit, steps :| s == Exec(Idle(limit), steps);
    RunsKeepInv(limit, steps);
  }

  /** At most one live run per workload, never more runs than the limit, every
      lease and every count accounted for, and nobody works for no one. */
  lemma RunsAreExclusiveAndBounded(s: World, q: nat, r: nat)
    requires Reachable(s)
    ensures (&& q < |s.runs| && r < |s.runs| && !s.runs[q].phase.Ended? && !s.runs[r].phase.Ended?
             && s.runs[q].workload == s.runs[r].workload) ==>
              q == r
    ensures s.activeCount == |s.active| == s.leases && |s.active| <= s.limit
    ensures forall w <- s.active :: !s.active[w].cancelled ==> s.active[w].subscribers != {}
  {
    hide Reachable;
    ReachableIsSound(s);
  }

  /** Whatever a notification is sent to is open, and no channel is closed twice. */
  lemma SendsAndClosesHitOpenChannels(s: World, w: string, id: nat)
    requires Reachable(s) && w in s.active && id in s.active[w].subscribers
    ensures id < |s.subs| && !s.subs[id].closed
  {
    hide Reachable;
    ReachableIsSound(s);
    assert OpenFor(s, w, id);
  }

  /** Detaching from a run that is over never touches the workload's newer run. */
  lemma StaleDetachIsHarmless(s: World, id: nat)
    requires Reachable(s) && id < |s.subs| && s.subs[id].workload in s.active
    requires s.active[s.subs[id].workload].run != s.subs[id].run
    ensures DetachStep(s, s.subs[id].workload, id).active == s.active
  {
    hide Reachable;
    ReachableIsSound(s);
    var w := s.subs[id].workload;
    assert id in s.active[w].subscribers ==> OpenFor(s, w, id);
    assert s.active[w].subscribers - {id} == s.active[w].subscribers;
  }

  /** Every load of a workload's journal finds the same request hash. */
  ghost predicate OneJournalEach(steps: seq<Step>, hash: map<string, string>)
  {
    forall k :: 0 <= k < |steps| ==> JournalIs(steps[k], hash)
  }

  predicate JournalIs(step: Step, hash: map<string, string>)
  {
    step.Subscribe? && step.journal.Some? ==> step.workload in hash && hash[step.workload] == step.journal.value
  }

  predicate RunsTheJournal(s: World, hash: map<string, string>)
  {
    forall w <- s.active :: w in hash && s.active[w].request == hash[w]
  }

  lemma StepRunsTheJournal(s: World, step: Step, hash: map<string, string>)
    requires RunsTheJournal(s, hash) && JournalIs(step, hash)
    ensures RunsTheJournal(Next(s, step), hash)
  {
  }

  lemma {:induction false} AllRunTheJournal(limit: nat, steps: seq<Step>, hash: map<string, string>)
    requires OneJournalEach(steps, hash)
    ensures RunsTheJournal(Exec(Idle(limit), steps), hash)
  {
    hide Next, JournalIs;
    if steps != [] {
      assert OneJournalEach(steps[..|steps| - 1], hash);
      AllRunTheJournal(limit, steps[..|steps| - 1], hash);
      assert JournalIs(steps[|steps| - 1], hash);
      hide RunsTheJournal;
      StepRunsTheJournal(Exec(Idle(limit), steps[..|steps| - 1]), steps[|steps| - 1], hash);
    } else {
      assert RunsTheJournal(Idle(limit), hash);
    }
  }

  /** As long as no journal changes its request, a request whose journal loads
      under its own hash never meets an execution of another request. */
  lemma ExecutionsMatchTheirJournal(limit: nat, steps: seq<Step>, step: Step, hash: map<string, string>)
    requires OneJournalEach(steps, hash) && JournalIs(step, hash) && step.Subscribe?
    ensures !Admit(Exec(Idle(limit), steps), step.workload, step.request, step.journal, step.gpu).IdentityMismatch?
  {
    hide Exec;
    AllRunTheJournal(limit, steps, hash);
  }

  predicate Listening(s: World, id: nat)
  {
    id < |s.subs| && (s.subs[id].handler.Waiting? || s.subs[id].handler.Received?)
  }

  /** Until a listening handler has written the terminal event that is durable,
      there is a token, a closed channel, a received signal, or its own run still
      has to notify or to close it. */
  lemma NoTerminalIsLost(s: World, id: nat)
    requires Reachable(s) && Listening(s, id) && s.subs[id].workload in s.terminal
    ensures var u := s.subs[id];
            && u.terminals == 0
            && (u.token || u.closed || u.handler.Received?
                || (u.workload in s.active && s.active[u.workload].run == u.run && id in s.active[u.workload].subscribers
                    && (Running(s, u.run, Notifying) || Running(s, u.run, Finishing))))
  {
    hide Reachable;
    ReachableIsSound(s);
    var u := s.subs[id];
    assert HandlerSound(s, id);
    if !u.closed {
      assert OpenFor(s, u.workload, id);
    }
  }

  /** The steps still owed to a listening handler once the terminal event is durable. */
  function Owed(s: World, id: nat): (owed: seq<Step>)
    requires id < |s.subs|
  {
    var u := s.subs[id];
    if u.handler.Received? then [ReadJournal(id)]
    else if u.token || u.closed then [Receive(id), ReadJournal(id)]
    else if Running(s, u.run, Notifying) then [NotifyTerminal(u.run), Receive(id), ReadJournal(id)]
    else [Finish(u.run), Receive(id), ReadJournal(id)]
  }

  /** Those steps suffice: they deliver the terminal event exactly once. */
  lemma OwedStepsDeliver(s: World, id: nat)
    requires Reachable(s) && Listening(s, id) && s.subs[id].workload in s.terminal
    ensures var n := Exec(s, Owed(s, id)); |n.subs| == |s.subs| && n.subs[id].terminals == 1
  {
    NoTerminalIsLost(s, id);
    hide Reachable;
    var u := s.subs[id];
    if u.handler.Received? {
      ExecOne(s, ReadJournal(id));
    } else if u.token || u.closed {
      ExecTwo(s, Receive(id), ReadJournal(id));
      SignalDelivers(s, id);
    } else {
      var first := if Running(s, u.run, Notifying) then NotifyTerminal(u.run) else Finish(u.run);
      ReachableIsSound(s);
      assert HandlerSound(s, id);
      RunSignals(s, id, first);
      ExecThree(s, first, Receive(id), ReadJournal(id));
      hide Next, Inv;
      SignalDelivers(Next(s, first), id);
    }
  }

  lemma SignalDelivers(s: World, id: nat)
    requires id < |s.subs| && s.subs[id].handler.Waiting? && (s.subs[id].token || s.subs[id].closed)
    requires s.subs[id].workload in s.terminal && s.subs[id].terminals == 0
    ensures var n := Next(Next(s, Receive(id)), ReadJournal(id)); |n.subs| == |s.subs| && n.subs[id].terminals == 1
  {
    hide NotifyStep, FinishStep, SubscribeStep, DetachStep;
  }

  lemma RunSignals(s: World, id: nat, first: Step)
    requires id < |s.subs| && s.subs[id].workload in s.active && id in s.active[s.subs[id].workload].subscribers
    requires s.subs[id].run < |s.runs| && s.runs[s.subs[id].run].workload == s.subs[id].workload
    requires || (first == NotifyTerminal(s.subs[id].run) && Running(s, s.subs[id].run, Notifying))
             || (first == Finish(s.subs[id].run) && Running(s, s.subs[id].run, Finishing))
    ensures var n := Next(s, first);
            && |n.subs| == |s.subs| && n.terminal == s.terminal
            && (n.subs[id] == s.subs[id].(token := true) || n.subs[id] == s.subs[id].(closed := true))
  {
    hide SubscribeStep, DetachStep;
  }

  lemma ExecOne(s: World, a: Step)
    ensures Exec(s, [a]) == Next(s, a)
  {
    hide Next;
    assert [a][..0] == [];
  }

  lemma ExecTwo(s: World, a: Step, b: Step)
    ensures Exec(s, [a, b]) == Next(Next(s, a), b)
  {
    hide Next;
    ExecOne(s, a);
    assert [a, b][..1] == [a];
  }

  lemma ExecThree(s: World, a: Step, b: Step, c: Step)
    ensures Exec(s, [a, b, c]) == Next(Next(Next(s, a), b), c)
  {
    hide Next;
    ExecTwo(s, a, b);
    assert [a, b, c][..2] == [a, b];
  }

  /** A terminal event is written at most once per subscription, and only a durable one. */
  lemma TerminalAtMostOnce(s: World, id: nat)
    requires Reachable(s) && id < |s.subs|
    ensures s.subs[id].terminals <= 1
    ensures s.subs[id].terminals == 1 ==> !Listening(s, id) && s.subs[id].workload in s.terminal
  {
    hide Reachable;
    ReachableIsSound(s);
    assert HandlerSound(s, id);
  }

  lemma {:induction false} ExecConcat(s: World, a: seq<Step>, b: seq<Step>)
    ensures Exec(s, a + b) == Exec(Exec(s, a), b)
  {
    hide Next;
    if b == [] {
      assert a + b == a;
    } else {
      ExecConcat(s, a, b[..|b| - 1]);
      assert (a + b)[..|a + b| - 1] == a + b[..|b| - 1];
    }
  }
}
