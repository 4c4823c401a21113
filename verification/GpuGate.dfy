/** Acquire and Close as one process runs them between other processes' steps. */
module GpuGate {
  import opened Basics
  import opened GpuAdmission

  datatype Acquired = Granted | Capacity | Broken

  /** What one Acquire does, one lock operation at a time. */
  function AcquireSteps(p: nat, opens: (bool, bool)): (steps: seq<Step>)
  {
    if !opens.0 then [TakeMutex(p), FailIO(p), ReleaseMutex(p)]
    else [TakeMutex(p), ProbeOpposing(p), EndProbe(p), if opens.1 then ShareOwn(p) else FailIO(p), ReleaseMutex(p)]
  }

  function After(s: World, steps: seq<Step>): (n: World)
    decreases |steps|
  {
    if steps == [] then s else After(Next(s, steps[0]), steps[1..])
  }

  /** Such steps extend a run. */
  lemma {:induction false} AfterExec(before: seq<Step>, steps: seq<Step>)
    ensures After(Exec(before), steps) == Exec(before + steps)
    decreases |steps|
  {
    hide Next;
    if steps == [] {
      assert before + steps == before;
    } else {
      assert (before + [steps[0]])[..|before|] == before;
      AfterExec(before + [steps[0]], steps[1..]);
      assert before + [steps[0]] + steps[1..] == before + steps;
    }
  }

  function AnswerAt(s: World, p: nat): (res: Acquired)
    requires p < |s.attempts|
  {
    if s.attempts[p].stage.Leased? then Granted
    else if s.attempts[p].stage == Ended(true) then Capacity
    else Broken
  }

  predicate OnlyStage(s: World, n: World, p: nat)
    requires p < |s.attempts|
  {
    n.attempts == s.attempts[p := s.attempts[p].(stage := if p < |n.attempts| then n.attempts[p].stage else Opening)]
  }

  /** With the mutex free, nobody probes, and an attempt that starts owns no lock. */
  lemma StartsClean(s: World, p: nat)
    requires Inv(s) && s.mutex == FREE && At(s, p, Opening)
    ensures s.batch.exclusive.None? && s.live.exclusive.None? && p !in s.batch.shared && p !in s.live.shared
  {
  }

  lemma AfterFirst(s: World, first: Step, rest: seq<Step>)
    ensures After(s, [first] + rest) == After(Next(s, first), rest)
  {
    hide Next;
    assert ([first] + rest)[1..] == rest;
  }

  lemma UnrolledSteps(s: World, p: nat, opens: (bool, bool))
    ensures After(s, AcquireSteps(p, opens)) ==
            if !opens.0 then Next(Next(Next(s, TakeMutex(p)), FailIO(p)), ReleaseMutex(p))
            else
              var probed := Next(Next(Next(s, TakeMutex(p)), ProbeOpposing(p)), EndProbe(p));
              Next(Next(probed, if opens.1 then ShareOwn(p) else FailIO(p)), ReleaseMutex(p))
  {
    hide Next;
    var a, last := Next(s, TakeMutex(p)), if opens.1 then ShareOwn(p) else FailIO(p);
    if !opens.0 {
      assert AcquireSteps(p, opens) == [TakeMutex(p)] + ([FailIO(p)] + [ReleaseMutex(p)]);
      AfterFirst(s, TakeMutex(p), [FailIO(p)] + [ReleaseMutex(p)]);
      AfterFirst(a, FailIO(p), [ReleaseMutex(p)]);
    } else {
      var b := Next(a, ProbeOpposing(p));
      var end := [last] + [ReleaseMutex(p)];
      assert AcquireSteps(p, opens) == [TakeMutex(p)] + ([ProbeOpposing(p)] + ([EndProbe(p)] + end));
      AfterFirst(s, TakeMutex(p), [ProbeOpposing(p)] + ([EndProbe(p)] + end));
      AfterFirst(a, ProbeOpposing(p), [EndProbe(p)] + end);
      AfterFirst(b, EndProbe(p), end);
      AfterFirst(Next(b, EndProbe(p)), last, [ReleaseMutex(p)]);
    }
  }

  /** The steps give the mutex back, leave the opposing file as it was, and keep a
      share of the own file exactly when the answer is a lease. */
  lemma StepsAcquire(s: World, p: nat, opens: (bool, bool))
    requires Inv(s) && s.mutex == FREE && At(s, p, Opening)
    ensures var c, n := s.attempts[p].cohort, After(s, AcquireSteps(p, opens));
            && OnlyStage(s, n, p) && n.mutex == FREE && LockOf(n, Opposing(c)) == LockOf(s, Opposing(c))
            && (AnswerAt(n, p).Capacity? <==> opens.0 && LockOf(s, Opposing(c)).shared != {})
            && (AnswerAt(n, p).Granted? <==> opens.0 && opens.1 && LockOf(s, Opposing(c)).shared == {})
            && LockOf(n, c) ==
               if AnswerAt(n, p).Granted? then LockOf(s, c).(shared := LockOf(s, c).shared + {p}) else LockOf(s, c)
  {
    StartsClean(s, p);
    UnrolledSteps(s, p, opens);
    hide Inv, After, AcquireSteps;
    EntryTakes(s, p);
    var taken := Next(s, TakeMutex(p));
    if opens.0 {
      ProbeAnswers(taken, p);
      var probed := Next(Next(taken, ProbeOpposing(p)), EndProbe(p));
      EndsAcquire(probed, p, opens.1);
    } else {
      NotOpened(taken, p);
    }
    hide Next;
  }

  lemma NotOpened(s: World, p: nat)
    requires At(s, p, HasMutex) && s.mutex == Flock(Some(p), {})
    ensures Next(Next(s, FailIO(p)), ReleaseMutex(p)) == Go(s, p, Ended(false)).(mutex := FREE)
  {
  }

  /** The rest of an Acquire after its probe. */
  lemma EndsAcquire(s: World, p: nat, opens: bool)
    requires (At(s, p, Clear) || At(s, p, Refusing)) && s.mutex == Flock(Some(p), {})
    requires s.batch.exclusive.None? && s.live.exclusive.None?
    ensures var n, own := Next(Next(s, if opens then ShareOwn(p) else FailIO(p)), ReleaseMutex(p)), LockOf(s, s.attempts[p].cohort);
            n == if At(s, p, Refusing) then Go(s, p, Ended(true)).(mutex := FREE)
                 else if !opens then Go(s, p, Ended(false)).(mutex := FREE)
                 else SetLock(Go(s, p, Leased), s.attempts[p].cohort, own.(shared := own.shared + {p})).(mutex := FREE)
  {
  }

  lemma EntryTakes(s: World, p: nat)
    requires s.mutex == FREE && At(s, p, Opening)
    ensures Next(s, TakeMutex(p)) == Go(s, p, HasMutex).(mutex := Flock(Some(p), {}))
  {
  }

  lemma ProbeAnswers(s: World, p: nat)
    requires At(s, p, HasMutex) && s.batch.exclusive.None? && s.live.exclusive.None? && p !in s.batch.shared && p !in s.live.shared
    ensures var n := Next(Next(s, ProbeOpposing(p)), EndProbe(p));
            n == Go(s, p, if LockOf(s, Opposing(s.attempts[p].cohort)).shared == {} then Clear else Refusing)
  {
    var l := LockOf(s, Opposing(s.attempts[p].cohort));
    assert l.shared <= {p} ==> l.shared == {};
  }

  /** Someone holds a lease of that cohort. */
  ghost predicate Held(s: World, c: Cohort)
  {
    exists q: nat :: At(s, q, Leased) && s.attempts[q].cohort == c
  }

  lemma SharesAreLeases(s: World, c: Cohort)
    requires Inv(s) && s.mutex == FREE
    ensures LockOf(s, c).shared != {} <==> Held(s, c)
  {
    if LockOf(s, c).shared != {} {
      var q :| q in LockOf(s, c).shared;
      assert At(s, q, Leased) && s.attempts[q].cohort == c;
    }
  }

  /** In any run, an Acquire without interference answers capacity if and only if
      it can look and an opposing lease is held, and a lease if and only if it can
      look, can join, and none is held. */
  lemma AcquireAnswers(steps: seq<Step>, p: nat, opens: (bool, bool))
    requires Exec(steps).mutex == FREE && At(Exec(steps), p, Opening)
    ensures var s, n := Exec(steps), Exec(steps + AcquireSteps(p, opens));
            && p < |n.attempts|
            && (AnswerAt(n, p).Capacity? <==> opens.0 && Held(s, Opposing(s.attempts[p].cohort)))
            && (AnswerAt(n, p).Granted? <==> opens.0 && opens.1 && !Held(s, Opposing(s.attempts[p].cohort)))
  {
    RunsKeepInv(steps);
    AfterExec(steps, AcquireSteps(p, opens));
    hide Inv, Exec, After, AcquireSteps, Held;
    StepsAcquire(Exec(steps), p, opens);
    SharesAreLeases(Exec(steps), Opposing(Exec(steps).attempts[p].cohort));
  }

  lemma {:induction false} StepsKeepInv(s: World, steps: seq<Step>)
    requires Inv(s)
    ensures Inv(After(s, steps))
    decreases |steps|
  {
    hide Inv, Next;
    if steps != [] {
      StepKeepsInv(s, steps[0]);
      StepsKeepInv(Next(s, steps[0]), steps[1..]);
    }
  }

  /** The three lock files. */
  class LockFiles {
    var mutex: Flock
    var batch: Flock
    var live: Flock

    constructor ()
      ensures mutex == batch == live == FREE
    {
      mutex, batch, live := FREE, FREE, FREE;
    }

    ghost function OfCohort(c: Cohort): (l: Flock)
      reads this
    {
      if c.Batch? then batch else live
    }

    method TryExclusive(c: Cohort, owner: nat) returns (ok: bool)
      modifies this
      ensures mutex == old(mutex) && OfCohort(Opposing(c)) == old(OfCohort(Opposing(c)))
      ensures ok <==> ExclusiveFree(old(OfCohort(c)), owner)
      ensures OfCohort(c) == if ok then Flock(Some(owner), {}) else old(OfCohort(c))
    {
      ok := ExclusiveFree(if c.Batch? then batch else live, owner);
      if ok {
        if c.Batch? { batch := Flock(Some(owner), {}); } else { live := Flock(Some(owner), {}); }
      }
    }

    method TryShared(c: Cohort, owner: nat) returns (ok: bool)
      modifies this
      ensures mutex == old(mutex) && OfCohort(Opposing(c)) == old(OfCohort(Opposing(c)))
      ensures ok <==> SharedFree(old(OfCohort(c)), owner)
      ensures OfCohort(c) == if ok then old(OfCohort(c)).(shared := old(OfCohort(c)).shared + {owner}) else old(OfCohort(c))
    {
      ok := SharedFree(if c.Batch? then batch else live, owner);
      if ok {
        if c.Batch? { batch := batch.(shared := batch.shared + {owner}); } else { live := live.(shared := live.shared + {owner}); }
      }
    }

    method Unlock(c: Cohort, owner: nat)
      modifies this
      ensures mutex == old(mutex) && OfCohort(Opposing(c)) == old(OfCohort(Opposing(c)))
      ensures OfCohort(c) == Unlocked(old(OfCohort(c)), owner)
    {
      if c.Batch? { batch := Unlocked(batch, owner); } else { live := Unlocked(live, owner); }
    }

    /** The mutex was free when it was granted. Every path gives it back, leaves
        the opposing file as it was, and holds the own file only when granted;
        `opens` says whether each of the two cohort files could be opened. */
    method Acquire(c: Cohort, owner: nat, opens: (bool, bool)) returns (res: Acquired)
      requires mutex == FREE && batch.exclusive.None? && live.exclusive.None?
      requires owner !in batch.shared && owner !in live.shared
      modifies this
      ensures mutex == FREE && OfCohort(Opposing(c)) == old(OfCohort(Opposing(c)))
      ensures OfCohort(c) == if res.Granted? then old(OfCohort(c)).(shared := old(OfCohort(c)).shared + {owner}) else old(OfCohort(c))
      ensures res.Capacity? <==> opens.0 && old(OfCohort(Opposing(c))).shared != {}
      ensures res.Granted? <==> opens.0 && opens.1 && old(OfCohort(Opposing(c))).shared == {}
    {
      mutex := Flock(Some(owner), {});
      res := AdmitLocked(c, owner, opens);
      mutex := Unlocked(mutex, owner);
    }

    ghost predicate Shows(s: World)
      reads this
    {
      mutex == s.mutex && batch == s.batch && live == s.live
    }

    /** In a world of many processes, an Acquire that meets nobody else under the
        mutex is its own steps, one after the other. */
    method AcquireIn(ghost s: World, c: Cohort, owner: nat, opens: (bool, bool)) returns (res: Acquired)
      requires Inv(s) && Shows(s) && At(s, owner, Opening) && s.attempts[owner].cohort == c && s.mutex == FREE
      modifies this
      ensures var n := After(s, AcquireSteps(owner, opens));
              Inv(n) && Shows(n) && owner < |n.attempts| && res == AnswerAt(n, owner)
    {
      hide Inv, Next;
      StartsClean(s, owner);
      StepsAcquire(s, owner, opens);
      StepsKeepInv(s, AcquireSteps(owner, opens));
      hide After, AcquireSteps;
      res := Acquire(c, owner, opens);
    }

    /** The part of Acquire that runs under the mutex. */
    method AdmitLocked(c: Cohort, owner: nat, opens: (bool, bool)) returns (res: Acquired)
      requires batch.exclusive.None? && live.exclusive.None?
      requires owner !in batch.shared && owner !in live.shared
      modifies this
      ensures mutex == old(mutex) && OfCohort(Opposing(c)) == old(OfCohort(Opposing(c)))
      ensures OfCohort(c) == if res.Granted? then old(OfCohort(c)).(shared := old(OfCohort(c)).shared + {owner}) else old(OfCohort(c))
      ensures res.Capacity? <==> opens.0 && old(OfCohort(Opposing(c))).shared != {}
      ensures res.Granted? <==> opens.0 && opens.1 && old(OfCohort(Opposing(c))).shared == {}
    {
      var opposing := Opposing(c);
      if !opens.0 {
        return Broken;
      }
      var free := TryExclusive(opposing, owner);
      if !free {
        return Capacity;
      }
      Unlock(opposing, owner);
      if !opens.1 {
        return Broken;
      }
      var shared := TryShared(c, owner);
      return if shared then Granted else Capacity;
    }
  }

  /** A lease releases its lock once, however often it is closed. */
  class Lease {
    const files: LockFiles
    const cohort: Cohort
    const owner: nat
    var done: bool

    constructor (files: LockFiles, cohort: Cohort, owner: nat)
      ensures this.files == files && this.cohort == cohort && this.owner == owner && !done
    {
      this.files, this.cohort, this.owner, done := files, cohort, owner, false;
    }

    method Close()
      modifies this`done, files
      ensures done && files.mutex == old(files.mutex)
      ensures files.OfCohort(Opposing(cohort)) == old(files.OfCohort(Opposing(cohort)))
      ensures forall s :: old(!done && files.Shows(s)) && At(s, owner, Leased) && s.attempts[owner].cohort == cohort ==>
                files.Shows(GpuAdmission.Next(s, Step.Close(owner)))
      ensures files.OfCohort(cohort) == if old(done) then old(files.OfCohort(cohort)) else Unlocked(old(files.OfCohort(cohort)), owner)
    {
      if done {
        return;
      }
      done := true;
      files.Unlock(cohort, owner);
    }
  }
}
