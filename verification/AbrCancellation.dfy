/** When a run is cancelled: only its last listener's departure does it. */
module AbrCancellation {
  import opened Basics
  import opened AbrCoordinator

  /** An entry lists exactly the handlers of its run that have not detached. */
  predicate ListsAt(s: World, id: nat)
    requires id < |s.subs|
  {
    var u := s.subs[id];
    && u.run < |s.runs|
    && forall w <- s.active :: id in s.active[w].subscribers <==> !u.handler.Gone? && u.run == s.active[w].run
  }

  predicate Lists(s: World)
  {
    forall id :: 0 <= id < |s.subs| ==> ListsAt(s, id)
  }

  lemma SubscribersExist(s: World)
    requires Inv(s)
    ensures forall w, id :: w in s.active && id in s.active[w].subscribers ==> id < |s.subs|
  {
    forall w, id | w in s.active && id in s.active[w].subscribers ensures id < |s.subs| {
      assert OpenFor(s, w, id);
    }
  }

  lemma SubscribeKeepsLists(s: World, step: Step)
    requires Inv(s) && Lists(s) && step.Subscribe?
    ensures Lists(Next(s, step))
  {
    if Admit(s, step.workload, step.request, step.journal, step.gpu).Attached? {
      SubscribersExist(s);
      StartKeepsLists(s, step.workload, step.request);
      SubscribersStay(s, step.workload, step.request);
      hide Inv, Lists, Started;
      JoinKeepsLists(Started(s, step.workload, step.request), step.workload);
    }
  }

  predicate OwnRun(s: World, w: string)
    requires w in s.active
  {
    forall v <- s.active :: s.active[v].run == s.active[w].run ==> v == w
  }

  lemma SubscribersStay(s: World, w: string, request: string)
    requires OneRunEach(s) && forall v, id :: v in s.active && id in s.active[v].subscribers ==> id < |s.subs|
    ensures var n := Started(s, w, request); forall v, id :: v in n.active && id in n.active[v].subscribers ==> id < |n.subs|
    ensures var n := Started(s, w, request); w in n.active && n.active[w].run < |n.runs| && OwnRun(n, w)
  {
  }

  lemma StartKeepsLists(s: World, w: string, request: string)
    requires Lists(s)
    ensures Lists(Started(s, w, request))
  {
    var n := Started(s, w, request);
    forall id | 0 <= id < |n.subs| ensures ListsAt(n, id) {
      assert ListsAt(s, id);
    }
  }

  lemma JoinKeepsLists(s: World, w: string)
    requires Lists(s) && w in s.active && s.active[w].run < |s.runs| && OwnRun(s, w)
    requires forall v, id :: v in s.active && id in s.active[v].subscribers ==> id < |s.subs|
    ensures Lists(Joined(s, w))
  {
    var n := Joined(s, w);
    forall id | 0 <= id < |n.subs| ensures ListsAt(n, id) {
      if id < |s.subs| { assert ListsAt(s, id); }
    }
  }

  lemma DetachKeepsLists(s: World, step: Step)
    requires Inv(s) && Lists(s) && step.Detach?
    ensures Lists(Next(s, step))
  {
    var n := Next(s, step);
    forall id | 0 <= id < |n.subs| ensures ListsAt(n, id) {
      assert ListsAt(s, id) && HandlerSound(s, id);
    }
  }

  lemma OthersKeepLists(s: World, step: Step)
    requires Lists(s) && !step.Subscribe? && !step.Detach?
    ensures Lists(Next(s, step))
  {
    var n := Next(s, step);
    hide ListsAt;
    OthersKeepHandlers(s, step);
    forall id | 0 <= id < |n.subs| ensures ListsAt(n, id) {
      assert ListsAt(s, id);
      SameListing(s, n, id);
    }
  }

  predicate SameHandler(s: World, n: World, id: nat)
    requires id < |s.subs| && id < |n.subs|
  {
    n.subs[id].run == s.subs[id].run && (n.subs[id].handler.Gone? <==> s.subs[id].handler.Gone?)
  }

  lemma OthersKeepHandlers(s: World, step: Step)
    requires !step.Subscribe? && !step.Detach?
    ensures var n := Next(s, step);
            && |n.subs| == |s.subs| && |n.runs| == |s.runs| && n.active.Keys <= s.active.Keys
            && (forall w <- n.active :: n.active[w] == s.active[w])
            && forall id :: 0 <= id < |s.subs| ==> SameHandler(s, n, id)
  {
  }

  lemma SameListing(s: World, n: World, id: nat)
    requires id < |s.subs| && |n.subs| == |s.subs| && |n.runs| == |s.runs| && n.active.Keys <= s.active.Keys
    requires (forall w <- n.active :: n.active[w] == s.active[w]) && SameHandler(s, n, id) && ListsAt(s, id)
    ensures ListsAt(n, id)
  {
  }

  lemma StepKeepsLists(s: World, step: Step)
    requires Inv(s) && Lists(s)
    ensures Lists(Next(s, step))
  {
    if step.Subscribe? {
      SubscribeKeepsLists(s, step);
    } else if step.Detach? {
      DetachKeepsLists(s, step);
    } else {
      hide Inv, Lists, Next;
      OthersKeepLists(s, step);
    }
  }

  /** With this step the last handler of the run gives up. */
  predicate LastLeaves(s: World, step: Step, run: nat)
  {
    && step.Detach? && step.id < |s.subs| && s.subs[step.id].run == run && s.subs[step.id].handler.Leaving?
    && forall id :: 0 <= id < |s.subs| && id != step.id && s.subs[id].run == run ==> s.subs[id].handler.Gone?
  }

  /** At some step the last handler of the run gave up. */
  ghost predicate Abandoned(limit: nat, steps: seq<Step>, run: nat)
  {
    steps != [] &&
    var init := steps[..|steps| - 1];
    Abandoned(limit, init, run) || LastLeaves(Exec(Idle(limit), init), steps[|steps| - 1], run)
  }

  lemma DetachCancels(s: World, step: Step, w: string)
    requires Inv(s) && Lists(s) && step.Detach? && w in s.active
    ensures var n := Next(s, step);
            w in n.active && n.active[w].run == s.active[w].run
            && (n.active[w].cancelled <==> s.active[w].cancelled || LastLeaves(s, step, s.active[w].run))
  {
    SubscribersExist(s);
    var here, run := s.active[w].subscribers, s.active[w].run;
    if step.id < |s.subs| {
      assert ListsAt(s, step.id) && HandlerSound(s, step.id);
      assert s.subs[step.id].run == run ==> s.subs[step.id].workload == w;
    }
    assert !s.active[w].cancelled ==> here != {};
    forall id | 0 <= id < |s.subs| ensures id in here <==> !s.subs[id].handler.Gone? && s.subs[id].run == run {
      assert ListsAt(s, id);
    }
    hide Lists, Inv;
    var others := set id | 0 <= id < |s.subs| && id != step.id && s.subs[id].run == run && !s.subs[id].handler.Gone?;
    assert here - {step.id} == others;
    if LastLeaves(s, step, run) {
      assert others == {};
    }
    if others == {} {
      forall id | 0 <= id < |s.subs| && id != step.id && s.subs[id].run == run ensures s.subs[id].handler.Gone? {
        assert id !in others;
      }
    }
    assert step.id < |s.subs| && s.subs[step.id].run != run ==> others == here;
  }

  lemma StepCancels(s: World, step: Step, w: string)
    requires Inv(s) && Lists(s) && w in Next(s, step).active
    ensures var n := Next(s, step);
            if w in s.active then
              && n.active[w].run == s.active[w].run
              && (n.active[w].cancelled <==> s.active[w].cancelled || LastLeaves(s, step, s.active[w].run))
            else n.active[w].run == |s.runs| && !n.active[w].cancelled
  {
    if step.Detach? {
      if w in s.active {
        DetachCancels(s, step, w);
      }
    } else {
      hide Inv, Lists, Next;
      OthersKeepEntries(s, step, w);
    }
  }

  lemma OthersKeepEntries(s: World, step: Step, w: string)
    requires !step.Detach? && w in Next(s, step).active
    ensures var n := Next(s, step);
            if w in s.active then n.active[w].run == s.active[w].run && n.active[w].cancelled == s.active[w].cancelled
            else n.active[w].run == |s.runs| && !n.active[w].cancelled
  {
  }

  lemma LeaversHadARun(s: World, step: Step, run: nat)
    requires Inv(s) && LastLeaves(s, step, run)
    ensures run < |s.runs|
  {
    assert HandlerSound(s, step.id);
  }

  lemma {:induction false} UnbornIsNotAbandoned(limit: nat, steps: seq<Step>, run: nat)
    requires |Exec(Idle(limit), steps).runs| <= run
    ensures !Abandoned(limit, steps, run)
  {
    if steps != [] {
      var init := steps[..|steps| - 1];
      var s := Exec(Idle(limit), init);
      RunsOnlyGrow(s, steps[|steps| - 1]);
      UnbornIsNotAbandoned(limit, init, run);
      ExecIsSound(limit, init);
      hide Inv, LastLeaves;
      if LastLeaves(s, steps[|steps| - 1], run) {
        LeaversHadARun(s, steps[|steps| - 1], run);
      }
    }
  }

  lemma RunsOnlyGrow(s: World, step: Step)
    ensures |s.runs| <= |Next(s, step).runs|
  {
  }

  lemma {:induction false} ExecIsSound(limit: nat, steps: seq<Step>)
    ensures Inv(Exec(Idle(limit), steps)) && Lists(Exec(Idle(limit), steps))
  {
    if steps != [] {
      var init := steps[..|steps| - 1];
      ExecIsSound(limit, init);
      hide Inv, Lists, Next;
      StepKeepsInv(Exec(Idle(limit), init), steps[|steps| - 1]);
      StepKeepsLists(Exec(Idle(limit), init), steps[|steps| - 1]);
    }
  }

  /** A run is cancelled if and only if its last listener left it: not for lack of
      capacity, not when one of several leaves, not when a listener of an earlier
      run detaches late. */
  lemma {:induction false} CancelledIffAbandoned(limit: nat, steps: seq<Step>, w: string)
    requires w in Exec(Idle(limit), steps).active
    ensures var x := Exec(Idle(limit), steps).active[w]; x.cancelled <==> Abandoned(limit, steps, x.run)
  {
    if steps != [] {
      var init, step := steps[..|steps| - 1], steps[|steps| - 1];
      var s := Exec(Idle(limit), init);
      ExecIsSound(limit, init);
      StepCancels(s, step, w);
      if w in s.active {
        CancelledIffAbandoned(limit, init, w);
      } else {
        UnbornIsNotAbandoned(limit, init, |s.runs|);
        hide Inv, LastLeaves;
        if LastLeaves(s, step, |s.runs|) {
          LeaversHadARun(s, step, |s.runs|);
        }
      }
    }
  }
}
