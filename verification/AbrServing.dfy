/** Which requests are told the outcome of their workload, and which are not. */
module AbrServing {
  import opened Basics
  import opened AbrCoordinator

  /** The run of the subscription can no longer close the journal: it is over,
      it is about to end, or it will see that it was cancelled. */
  predicate Doomed(s: World, id: nat)
    requires id < |s.subs|
  {
    var u := s.subs[id];
    && u.workload !in s.terminal
    && (u.closed || Running(s, u.run, Finishing)
        || (Running(s, u.run, Executing) && u.workload in s.active
            && s.active[u.workload].run == u.run && s.active[u.workload].cancelled))
  }

  /** Still listening to a run that can answer, or answered. */
  predicate Served(s: World, id: nat)
    requires id < |s.subs|
  {
    if Listening(s, id) then !Doomed(s, id) else s.subs[id].terminals == 1
  }

  /** The handler does not give up, and the journal takes the outcome of the run. */
  predicate Kind(step: Step, id: nat, run: nat)
  {
    step != Disconnect(id) && step != WriteTerminal(run, NotStored)
  }

  predicate Allowed(steps: seq<Step>, id: nat, run: nat)
  {
    forall k :: 0 <= k < |steps| ==> Kind(steps[k], id, run)
  }

  /** If the handler is done, it wrote the terminal event, once. */
  predicate EndsServed(s: World, id: nat)
  {
    id < |s.subs| && (Listening(s, id) || s.subs[id].terminals == 1)
  }

  // --------------------------------------------------- not doomed: always served

  /** A run notifies only after its terminal event is durable. */
  predicate NotifiesDurable(s: World)
  {
    forall r :: 0 <= r < |s.runs| && s.runs[r].phase.Notifying? ==> s.runs[r].workload in s.terminal
  }

  lemma StepNotifiesDurable(s: World, step: Step)
    requires NotifiesDurable(s)
    ensures NotifiesDurable(Next(s, step))
  {
  }

  lemma {:induction false} RunsNotifyDurable(limit: nat, steps: seq<Step>)
    ensures NotifiesDurable(Exec(Idle(limit), steps))
  {
    hide Next;
    if steps == [] {
      assert NotifiesDurable(Idle(limit));
    } else {
      RunsNotifyDurable(limit, steps[..|steps| - 1]);
      hide NotifiesDurable;
      StepNotifiesDurable(Exec(Idle(limit), steps[..|steps| - 1]), steps[|steps| - 1]);
    }
  }

  lemma ReachableNotifiesDurable(s: World)
    requires Reachable(s)
    ensures NotifiesDurable(s)
  {
    hide NotifiesDurable, Next;
    var limit, steps :| s == Exec(Idle(limit), steps);
    RunsNotifyDurable(limit, steps);
  }

  /** Subscriptions are never dropped or moved. */
  lemma SubscriptionStays(s: World, step: Step, id: nat)
    requires id < |s.subs|
    ensures var n := Next(s, step);
            id < |n.subs| && n.subs[id].run == s.subs[id].run && n.subs[id].workload == s.subs[id].workload
  {
  }

  lemma AnsweredStays(s: World, step: Step, id: nat)
    requires id < |s.subs| && !Listening(s, id) && s.subs[id].terminals == 1
    ensures var n := Next(s, step); id < |n.subs| && !Listening(n, id) && n.subs[id].terminals == 1
  {
  }

  /** A listener's own run, while the journal is open and the run is not doomed. */
  predicate Hopeful(s: World, id: nat)
    requires id < |s.subs|
  {
    var u := s.subs[id];
    && !u.closed && u.workload in s.active && s.active[u.workload].run == u.run && id in s.active[u.workload].subscribers
    && u.run < |s.runs| && s.runs[u.run].workload == u.workload
    && !s.runs[u.run].phase.Finishing? && !s.runs[u.run].phase.Notifying?
    && (s.runs[u.run].phase.Executing? ==> !s.active[u.workload].cancelled)
  }

  lemma ListenerIsHopeful(s: World, id: nat)
    requires Inv(s) && NotifiesDurable(s) && Listening(s, id) && !Doomed(s, id)
    ensures s.subs[id].terminals == 0 && (s.subs[id].workload in s.terminal || Hopeful(s, id))
  {
    assert HandlerSound(s, id);
    if !s.subs[id].closed {
      assert OpenFor(s, s.subs[id].workload, id);
    }
  }

  lemma RunStepServes(s: World, step: Step, id: nat)
    requires Inv(s) && NotifiesDurable(s) && Listening(s, id) && !Doomed(s, id) && Kind(step, id, s.subs[id].run)
    requires step.ReportProgress? || step.CheckContext? || step.WriteTerminal? || step.NotifyTerminal? || step.Finish?
    ensures id < |Next(s, step).subs| && Served(Next(s, step), id)
  {
    ListenerIsHopeful(s, id);
    hide SubscribeStep, DetachStep, Registered, HandlersSound, Counted, Wanted, ClosedOnTheWayOut, NotifiesDurable;
  }

  lemma JoinServes(s: World, step: Step, id: nat)
    requires Inv(s) && NotifiesDurable(s) && Listening(s, id) && !Doomed(s, id) && step.Subscribe?
    ensures id < |Next(s, step).subs| && Served(Next(s, step), id)
  {
    ListenerIsHopeful(s, id);
    hide Inv, NotifiesDurable;
  }

  lemma DetachServes(s: World, other: nat, id: nat)
    requires Inv(s) && NotifiesDurable(s) && Listening(s, id) && !Doomed(s, id)
    ensures id < |Next(s, Detach(other)).subs| && Served(Next(s, Detach(other)), id)
  {
    ListenerIsHopeful(s, id);
    hide SubscribeStep, Inv, NotifiesDurable;
    if Handling(s, other) && s.subs[other].handler.Leaving? && Hopeful(s, id) {
      assert id in s.active[s.subs[id].workload].subscribers - {other};
    }
  }

  lemma HandlerStepServes(s: World, step: Step, id: nat)
    requires Inv(s) && NotifiesDurable(s) && Listening(s, id) && !Doomed(s, id) && Kind(step, id, s.subs[id].run)
    requires step.Receive? || step.ReadJournal? || step.Disconnect?
    ensures id < |Next(s, step).subs| && Served(Next(s, step), id)
  {
    ListenerIsHopeful(s, id);
    assert HandlerSound(s, id);
    hide NotifyStep, FinishStep, SubscribeStep, DetachStep, Inv, NotifiesDurable;
  }

  lemma ServedStep(s: World, step: Step, id: nat)
    requires Inv(s) && NotifiesDurable(s) && id < |s.subs| && Served(s, id)
    requires Kind(step, id, s.subs[id].run)
    ensures id < |Next(s, step).subs| && Served(Next(s, step), id)
  {
    hide Inv, NotifiesDurable, Next, Doomed;
    if !Listening(s, id) {
      AnsweredStays(s, step, id);
    } else if step.ReportProgress? || step.CheckContext? || step.WriteTerminal? || step.NotifyTerminal? || step.Finish? {
      RunStepServes(s, step, id);
    } else if step.Subscribe? {
      JoinServes(s, step, id);
    } else if step.Detach? {
      DetachServes(s, step.id, id);
    } else {
      HandlerStepServes(s, step, id);
    }
  }

  lemma {:induction false} ServedRun(s: World, steps: seq<Step>, id: nat)
    requires Inv(s) && NotifiesDurable(s) && id < |s.subs| && Served(s, id) && Allowed(steps, id, s.subs[id].run)
    ensures var n := Exec(s, steps);
            Inv(n) && NotifiesDurable(n) && id < |n.subs| && n.subs[id].run == s.subs[id].run && Served(n, id)
  {
    hide Inv, NotifiesDurable, Served, Next;
    if steps != [] {
      var before, step := steps[..|steps| - 1], steps[|steps| - 1];
      ServedRun(s, before, id);
      hide Allowed, Kind;
      assert Kind(step, id, s.subs[id].run) by { KindAt(steps, |steps| - 1, id, s.subs[id].run); }
      StepKeepsInv(Exec(s, before), step);
      StepNotifiesDurable(Exec(s, before), step);
      SubscriptionStays(Exec(s, before), step, id);
      ServedStep(Exec(s, before), step, id);
    }
  }

  lemma KindAt(steps: seq<Step>, k: nat, id: nat, run: nat)
    requires Allowed(steps, id, run) && k < |steps|
    ensures Kind(steps[k], id, run)
  {
  }

  // ------------------------------------------------ doomed: may end unserved

  /** Nothing was written, nothing is durable, and a listener is doomed. */
  predicate Fading(s: World, id: nat)
  {
    && id < |s.subs| && Inv(s)
    && s.subs[id].workload !in s.terminal && s.subs[id].terminals == 0
    && (Listening(s, id) ==> Doomed(s, id))
  }

  predicate Hears(s: World, step: Step, id: nat)
    requires id < |s.subs|
  {
    step in {ReadJournal(id), Receive(id), CheckContext(s.subs[id].run), Finish(s.subs[id].run)}
  }

  /** What a run that ends does to a doomed listener. */
  lemma EndingRunFades(s: World, step: Step, id: nat)
    requires Fading(s, id) && (step == CheckContext(s.subs[id].run) || step == Finish(s.subs[id].run))
    ensures var n := Next(s, step);
            && |n.subs| == |s.subs| && n.terminal == s.terminal && (Listening(n, id) ==> Doomed(n, id))
            && n.subs[id] == s.subs[id].(closed := n.subs[id].closed)
            && (Listening(n, id) && step.CheckContext? ==> n.subs[id].closed || Running(n, s.subs[id].run, Finishing))
            && (Listening(n, id) && step.Finish? && Running(s, s.subs[id].run, Finishing) ==> n.subs[id].closed)
  {
    assert HandlerSound(s, id);
    hide NotifyStep, SubscribeStep, DetachStep, Counted, Wanted, HandlersSound, ClosedOnTheWayOut, Registered;
  }

  /** What a handler makes of its next signal, or of a journal that is still open. */
  function Heard(u: Subscription, reading: bool): (v: Subscription)
  {
    if reading then
      if u.handler.Received? then u.(handler := if u.handler.open then Waiting else Leaving) else u
    else if !u.handler.Waiting? then u
    else if u.token then u.(token := false, handler := Received(true))
    else if u.closed then u.(handler := Received(false))
    else u
  }

  lemma HearingFades(s: World, step: Step, id: nat)
    requires Fading(s, id) && step in {ReadJournal(id), Receive(id)}
    ensures var n := Next(s, step);
            && |n.subs| == |s.subs| && n.terminal == s.terminal && (Listening(n, id) ==> Doomed(n, id))
            && n.subs[id] == Heard(s.subs[id], step.ReadJournal?)
  {
    hide NotifyStep, SubscribeStep, DetachStep, FinishStep, Inv;
  }

  lemma FadingStep(s: World, step: Step, id: nat)
    requires Fading(s, id) && Hears(s, step, id)
    ensures Fading(Next(s, step), id) && Next(s, step).subs[id].run == s.subs[id].run
  {
    StepKeepsInv(s, step);
    if step in {ReadJournal(id), Receive(id)} {
      HearingFades(s, step, id);
    } else {
      EndingRunFades(s, step, id);
    }
    hide Next, Inv, Doomed;
  }

  /** A listener with no signal left. */
  predicate Drained(s: World, id: nat)
  {
    id < |s.subs| && (Listening(s, id) ==> s.subs[id].handler.Waiting? && !s.subs[id].token)
  }

  /** First the signals already on their way are heard. */
  lemma SignalsDrain(s: World, id: nat)
    requires Fading(s, id)
    ensures var n := Exec(s, [ReadJournal(id), Receive(id), ReadJournal(id)]);
            Fading(n, id) && Drained(n, id) && n.subs[id].run == s.subs[id].run
  {
    ExecThree(s, ReadJournal(id), Receive(id), ReadJournal(id));
    hide Exec, Next, Inv, Doomed;
    var a := Next(s, ReadJournal(id));
    var b := Next(a, Receive(id));
    FadingStep(s, ReadJournal(id), id);
    HearingFades(s, ReadJournal(id), id);
    FadingStep(a, Receive(id), id);
    HearingFades(a, Receive(id), id);
    FadingStep(b, ReadJournal(id), id);
    HearingFades(b, ReadJournal(id), id);
  }

  /** Then the run closes the channel. */
  lemma RunCloses(s: World, id: nat)
    requires Fading(s, id) && Drained(s, id)
    ensures var n := Exec(s, [CheckContext(s.subs[id].run), Finish(s.subs[id].run)]);
            Fading(n, id) && Drained(n, id) && (Listening(n, id) ==> n.subs[id].closed)
  {
    var run := s.subs[id].run;
    ExecTwo(s, CheckContext(run), Finish(run));
    hide Exec, Next, Inv, Doomed;
    var a := Next(s, CheckContext(run));
    FadingStep(s, CheckContext(run), id);
    EndingRunFades(s, CheckContext(run), id);
    FadingStep(a, Finish(run), id);
    EndingRunFades(a, Finish(run), id);
  }

  /** And the handler leaves. */
  lemma ListenerLeaves(s: World, id: nat)
    requires Fading(s, id) && Drained(s, id) && (Listening(s, id) ==> s.subs[id].closed)
    ensures var n := Exec(s, [Receive(id), ReadJournal(id)]);
            id < |n.subs| && !Listening(n, id) && n.subs[id].terminals == 0
  {
    ExecTwo(s, Receive(id), ReadJournal(id));
    hide Exec, Next, Inv, Doomed;
    var a := Next(s, Receive(id));
    FadingStep(s, Receive(id), id);
    HearingFades(s, Receive(id), id);
    FadingStep(a, ReadJournal(id), id);
    HearingFades(a, ReadJournal(id), id);
  }

  /** The steps that end a doomed listener unserved; a disabled one changes nothing. */
  function Fade(id: nat, run: nat): (steps: seq<Step>)
  {
    [ReadJournal(id), Receive(id), ReadJournal(id)] + [CheckContext(run), Finish(run)] + [Receive(id), ReadJournal(id)]
  }

  lemma DoomedFades(s: World, id: nat)
    requires Inv(s) && Listening(s, id) && Doomed(s, id)
    ensures !EndsServed(Exec(s, Fade(id, s.subs[id].run)), id)
  {
    assert HandlerSound(s, id);
    var run := s.subs[id].run;
    var drain, close, leave :=
      [ReadJournal(id), Receive(id), ReadJournal(id)], [CheckContext(run), Finish(run)], [Receive(id), ReadJournal(id)];
    ExecConcat(s, drain, close);
    ExecConcat(s, drain + close, leave);
    hide Exec, Inv, Doomed;
    SignalsDrain(s, id);
    hide Fading, Drained;
    RunCloses(Exec(s, drain), id);
    ListenerLeaves(Exec(Exec(s, drain), close), id);
  }

  // ------------------------------------------------------------ the exact rule

  /** A client that stays with a listening handler is told the outcome, whatever
      happens next, if and only if its run is not doomed. */
  lemma ServedIffNotDoomed(s: World, id: nat)
    requires Reachable(s) && Listening(s, id)
    ensures !Doomed(s, id) <==> forall steps :: Allowed(steps, id, s.subs[id].run) ==> EndsServed(Exec(s, steps), id)
  {
    ReachableIsSound(s);
    ReachableNotifiesDurable(s);
    hide Reachable, Inv, NotifiesDurable, Doomed, Exec;
    if Doomed(s, id) {
      DoomedFades(s, id);
      assert Allowed(Fade(id, s.subs[id].run), id, s.subs[id].run);
    } else {
      forall steps | Allowed(steps, id, s.subs[id].run) ensures EndsServed(Exec(s, steps), id) {
        ServedRun(s, steps, id);
      }
    }
  }

  /** The one way to attach to a doomed run: it was cancelled and has not noticed
      yet, or it is about to end without an outcome. */
  predicate AttachesTooLate(s: World, w: string)
  {
    && w in s.active
    && (Running(s, s.active[w].run, Finishing) || (Running(s, s.active[w].run, Executing) && s.active[w].cancelled))
  }

  /** Whether an attached request is always told the outcome is decided by the
      state it finds. */
  lemma AttachedIsServedIff(s: World, step: Step)
    requires Reachable(s) && step.Subscribe? && Admit(s, step.workload, step.request, step.journal, step.gpu).Attached?
    ensures var n, id := Next(s, step), |s.subs|;
            && Listening(n, id)
            && (!AttachesTooLate(s, step.workload) <==>
                  forall steps :: Allowed(steps, id, n.subs[id].run) ==> EndsServed(Exec(n, steps), id))
  {
    var n := Next(s, step);
    NextIsReachable(s, step);
    AttachedIsDoomedIff(s, step);
    hide Next, Reachable, Doomed, AttachesTooLate;
    ServedIffNotDoomed(n, |s.subs|);
  }

  lemma NextIsReachable(s: World, step: Step)
    requires Reachable(s)
    ensures Reachable(Next(s, step))
  {
    hide Next;
    var limit, steps :| s == Exec(Idle(limit), steps);
    assert (steps + [step])[..|steps|] == steps;
    assert Next(s, step) == Exec(Idle(limit), steps + [step]);
  }

  lemma AttachedIsDoomedIff(s: World, step: Step)
    requires Reachable(s) && step.Subscribe? && Admit(s, step.workload, step.request, step.journal, step.gpu).Attached?
    ensures Listening(Next(s, step), |s.subs|)
    ensures Doomed(Next(s, step), |s.subs|) <==> AttachesTooLate(s, step.workload)
  {
    ReachableIsSound(s);
    hide Reachable;
  }

  lemma {:induction false} ExecIsReachable(s: World, steps: seq<Step>)
    requires Reachable(s)
    ensures Reachable(Exec(s, steps))
  {
    hide Next, Reachable;
    if steps != [] {
      ExecIsReachable(s, steps[..|steps| - 1]);
      NextIsReachable(Exec(s, steps[..|steps| - 1]), steps[|steps| - 1]);
    }
  }

  /** The steps by which a hopeful listener's run stores its outcome. */
  function Store(run: nat): (steps: seq<Step>) { [CheckContext(run), WriteTerminal(run, Stored)] }

  lemma HopefulRunStores(s: World, id: nat)
    requires Inv(s) && id < |s.subs| && Hopeful(s, id)
    ensures var n := Exec(s, Store(s.subs[id].run)); n.subs == s.subs && s.subs[id].workload in n.terminal
  {
    var run := s.subs[id].run;
    ExecTwo(s, CheckContext(run), WriteTerminal(run, Stored));
    hide Exec, NotifyStep, FinishStep, SubscribeStep, DetachStep;
  }

  /** And a listener that is not doomed can be told the outcome. */
  lemma OutcomeIsPossible(s: World, id: nat)
    requires Reachable(s) && Listening(s, id) && !Doomed(s, id)
    ensures exists steps ::
              && Allowed(steps, id, s.subs[id].run)
              && var n := Exec(s, steps); id < |n.subs| && n.subs[id].terminals == 1
  {
    ReachableIsSound(s);
    ReachableNotifiesDurable(s);
    ListenerIsHopeful(s, id);
    var first := if s.subs[id].workload in s.terminal then [] else Store(s.subs[id].run);
    var m := Exec(s, first);
    if s.subs[id].workload !in s.terminal {
      HopefulRunStores(s, id);
    }
    ExecIsReachable(s, first);
    hide Reachable, Inv, NotifiesDurable, Doomed, Hopeful, Exec;
    assert m == Exec(s, first) && m.subs == s.subs;
    OwedStepsDeliver(m, id);
    ExecConcat(s, first, Owed(m, id));
    assert Allowed(first + Owed(m, id), id, s.subs[id].run);
  }

  predicate CancelledButActive(s: World, w: string)
  {
    s.active == map[w := Execution(0, "", true, {})] && s.runs == [RunState(w, Executing)] && |s.subs| == 1 && s.terminal == {}
  }

  function Alone(w: string, cancelled: bool, subscribers: set<nat>, handler: Handler): (s: World)
  {
    World(1, map[w := Execution(0, "", cancelled, subscribers)], 1, 1, [RunState(w, Executing)],
          [Subscription(w, 0, false, false, handler, 0)], {})
  }

  lemma FirstAttaches(w: string)
    ensures Next(Idle(1), Subscribe(w, "", Some(""), Free)) == Alone(w, false, {0}, Waiting)
  {
    hide NotifyStep, FinishStep, DetachStep;
  }

  lemma OnlyClientLeaves(w: string)
    ensures Next(Alone(w, false, {0}, Waiting), Disconnect(0)) == Alone(w, false, {0}, Leaving)
    ensures Next(Alone(w, false, {0}, Leaving), Detach(0)) == Alone(w, true, {}, Gone)
  {
    hide NotifyStep, FinishStep, SubscribeStep;
    assert {0} - {0} == {};
  }

  lemma OnlySubscriberLeaves(w: string)
    ensures CancelledButActive(Exec(Idle(1), [Subscribe(w, "", Some(""), Free), Disconnect(0), Detach(0)]), w)
  {
    ExecThree(Idle(1), Subscribe(w, "", Some(""), Free), Disconnect(0), Detach(0));
    hide Exec, Next;
    FirstAttaches(w);
    OnlyClientLeaves(w);
  }

  /** The condition is met in practice: the only client leaves, its run is
      cancelled, and a second request still attaches to it. */
  lemma LateSubscriberMayGetNothing(w: string)
    ensures exists s, steps ::
              && Reachable(s) && Listening(s, 1) && s.subs[1].workload == w
              && Allowed(steps, 1, s.subs[1].run) && !EndsServed(Exec(s, steps), 1)
  {
    var leaves := [Subscribe(w, "", Some(""), Free), Disconnect(0), Detach(0)];
    var late := Subscribe(w, "", Some(""), Free);
    var s := Exec(Idle(1), leaves);
    OnlySubscriberLeaves(w);
    assert Reachable(s);
    hide Exec, Reachable, Doomed;
    LateJoins(s, w);
    AttachedIsServedIff(s, late);
    NextIsReachable(s, late);
    hide Next;
  }

  lemma LateJoins(s: World, w: string)
    requires CancelledButActive(s, w)
    ensures AttachesTooLate(s, w) && Admit(s, w, "", Some(""), Free) == Attached(1)
    ensures Handling(Next(s, Subscribe(w, "", Some(""), Free)), 1)
    ensures Next(s, Subscribe(w, "", Some(""), Free)).subs[1].workload == w
  {
  }
}
