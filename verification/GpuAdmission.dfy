/** GPU admission over three lock files: any number of attempts in any number of
    processes, interleaved at every lock operation, with processes dying anywhere. */
module GpuAdmission {
  import opened Basics

  datatype Cohort = Batch | Live

  function Opposing(c: Cohort): (o: Cohort) { if c.Batch? then Live else Batch }

  /** One flock: at most one exclusive owner, or any number of shared ones. */
  datatype Flock = Flock(exclusive: Option<nat>, shared: set<nat>)

  /** Where an attempt stands. Everything from HasMutex to Shared runs under the
      mutex; Refusing and Failing still have to release it. */
  datatype Stage = Opening | HasMutex | Probed | Clear | Shared | Refusing | Failing | Leased | Ended(refused: bool)

  datatype Attempt = Attempt(process: nat, cohort: Cohort, stage: Stage)

  datatype World = World(mutex: Flock, batch: Flock, live: Flock, attempts: seq<Attempt>)

  const FREE := Flock(None, {})
  const START := World(FREE, FREE, FREE, [])

  function LockOf(s: World, c: Cohort): (l: Flock) { if c.Batch? then s.batch else s.live }

  function SetLock(s: World, c: Cohort, l: Flock): (n: World)
  {
    if c.Batch? then s.(batch := l) else s.(live := l)
  }

  /** LOCK_EX and LOCK_SH are granted to `p` unless another owner is in the way. */
  predicate ExclusiveFree(l: Flock, p: nat) { (l.exclusive.None? || l.exclusive == Some(p)) && l.shared <= {p} }

  predicate SharedFree(l: Flock, p: nat) { l.exclusive.None? || l.exclusive == Some(p) }

  function Unlocked(l: Flock, p: nat): (n: Flock)
  {
    Flock(if l.exclusive == Some(p) then None else l.exclusive, l.shared - {p})
  }

  datatype Step =
    | Begin(process: nat, cohort: Cohort)
    | TakeMutex(p: nat)
    | ProbeOpposing(p: nat)
    | EndProbe(p: nat)
    | ShareOwn(p: nat)
    | ReleaseMutex(p: nat)
    | FailIO(p: nat)
    | Close(p: nat)
    | Crash(process: nat)

  predicate At(s: World, p: nat, stage: Stage) { p < |s.attempts| && s.attempts[p].stage == stage }

  function Go(s: World, p: nat, stage: Stage): (n: World)
    requires p < |s.attempts|
  {
    s.(attempts := s.attempts[p := s.attempts[p].(stage := stage)])
  }

  /** The kernel drops every lock of a process that exits. */
  function Without(l: Flock, gone: set<nat>): (n: Flock)
  {
    Flock(if l.exclusive.Some? && l.exclusive.value in gone then None else l.exclusive, l.shared - gone)
  }

  function OfProcess(s: World, process: nat): (ps: set<nat>)
  {
    set p | 0 <= p < |s.attempts| && s.attempts[p].process == process
  }

  function Next(s: World, step: Step): (n: World)
  {
    match step
    case Begin(process, cohort) => s.(attempts := s.attempts + [Attempt(process, cohort, Opening)])
    case TakeMutex(p) =>
      if At(s, p, Opening) && ExclusiveFree(s.mutex, p) then Go(s, p, HasMutex).(mutex := Flock(Some(p), {})) else s
    case ProbeOpposing(p) =>
      if At(s, p, HasMutex) then
        var opposing := Opposing(s.attempts[p].cohort);
        if ExclusiveFree(LockOf(s, opposing), p) then SetLock(Go(s, p, Probed), opposing, Flock(Some(p), {}))
        else Go(s, p, Refusing)
      else s
    case EndProbe(p) =>
      if At(s, p, Probed) then
        var opposing := Opposing(s.attempts[p].cohort);
        SetLock(Go(s, p, Clear), opposing, Unlocked(LockOf(s, opposing), p))
      else s
    case ShareOwn(p) =>
      if At(s, p, Clear) then
        var own := s.attempts[p].cohort;
        if SharedFree(LockOf(s, own), p) then
          SetLock(Go(s, p, Shared), own, LockOf(s, own).(shared := LockOf(s, own).shared + {p}))
        else Go(s, p, Refusing)
      else s
    case ReleaseMutex(p) =>
      if At(s, p, Shared) then Go(s, p, Leased).(mutex := Unlocked(s.mutex, p))
      else if At(s, p, Refusing) then Go(s, p, Ended(true)).(mutex := Unlocked(s.mutex, p))
      else if At(s, p, Failing) then Go(s, p, Ended(false)).(mutex := Unlocked(s.mutex, p))
      else s
    case FailIO(p) =>
      if At(s, p, Opening) then Go(s, p, Ended(false))
      else if At(s, p, HasMutex) || At(s, p, Clear) then Go(s, p, Failing)
      else s
    case Close(p) =>
      if At(s, p, Leased) then
        var own := s.attempts[p].cohort;
        SetLock(Go(s, p, Ended(false)), own, Unlocked(LockOf(s, own), p))
      else s
    case Crash(process) =>
      var gone := OfProcess(s, process);
      World(Without(s.mutex, gone), Without(s.batch, gone), Without(s.live, gone),
            seq(|s.attempts|, i requires 0 <= i < |s.attempts| =>
              if i in gone && !s.attempts[i].stage.Ended? then s.attempts[i].(stage := Ended(false)) else s.attempts[i]))
  }

  function Exec(steps: seq<Step>): (s: World)
  {
    if steps == [] then START else Next(Exec(steps[..|steps| - 1]), steps[|steps| - 1])
  }

  // --------------------------------------------------------------- invariant

  predicate UnderMutex(stage: Stage)
  {
    stage.HasMutex? || stage.Probed? || stage.Clear? || stage.Shared? || stage.Refusing? || stage.Failing?
  }

  predicate HoldsShare(a: Attempt, c: Cohort) { a.cohort == c && (a.stage.Shared? || a.stage.Leased?) }

  predicate MutexSound(s: World)
  {
    && s.mutex.shared == {}
    && (forall p :: 0 <= p < |s.attempts| ==> (UnderMutex(s.attempts[p].stage) <==> s.mutex.exclusive == Some(p)))
    && (s.mutex.exclusive.Some? ==> s.mutex.exclusive.value < |s.attempts|)
  }

  ghost predicate CohortSound(s: World, c: Cohort)
  {
    var l := LockOf(s, c);
    && (forall p :: p in l.shared <==> 0 <= p < |s.attempts| && HoldsShare(s.attempts[p], c))
    && (forall p: nat :: l.exclusive == Some(p) <==> p < |s.attempts| && s.attempts[p].stage.Probed? && Opposing(s.attempts[p].cohort) == c)
  }

  /** Past the probe and under the mutex, the opposing cohort has no lease. */
  predicate ProbeHolds(s: World)
  {
    forall p :: 0 <= p < |s.attempts| && (s.attempts[p].stage.Probed? || s.attempts[p].stage.Clear? || s.attempts[p].stage.Shared?) ==>
      LockOf(s, Opposing(s.attempts[p].cohort)).shared == {}
  }

  predicate Exclusive(s: World) { s.batch.shared == {} || s.live.shared == {} }

  ghost predicate Inv(s: World)
  {
    MutexSound(s) && CohortSound(s, Batch) && CohortSound(s, Live) && ProbeHolds(s) && Exclusive(s)
  }

  lemma EntryKeepsInv(s: World, p: nat, process: nat, cohort: Cohort)
    requires Inv(s)
    ensures Inv(Next(s, Begin(process, cohort))) && Inv(Next(s, TakeMutex(p)))
  {
  }

  lemma ReleaseKeepsInv(s: World, p: nat)
    requires Inv(s)
    ensures Inv(Next(s, ReleaseMutex(p)))
  {
  }

  lemma FailureKeepsInv(s: World, p: nat)
    requires Inv(s)
    ensures Inv(Next(s, FailIO(p)))
  {
  }

  lemma ProbeKeepsInv(s: World, p: nat)
    requires Inv(s)
    ensures Inv(Next(s, ProbeOpposing(p)))
  {
    if At(s, p, HasMutex) {
      ProbeIsFreeOfLeases(s, p);
    }
  }

  lemma EndProbeKeepsInv(s: World, p: nat)
    requires Inv(s)
    ensures Inv(Next(s, EndProbe(p)))
  {
  }

  lemma ShareKeepsInv(s: World, p: nat)
    requires Inv(s)
    ensures Inv(Next(s, ShareOwn(p)))
  {
  }

  lemma CloseKeepsInv(s: World, p: nat)
    requires Inv(s)
    ensures Inv(Next(s, Close(p)))
  {
  }

  lemma CrashKeepsInv(s: World, process: nat)
    requires Inv(s)
    ensures Inv(Next(s, Crash(process)))
  {
  }

  lemma StepKeepsInv(s: World, step: Step)
    requires Inv(s)
    ensures Inv(Next(s, step))
  {
    hide Inv, Next;
    match step {
      case Begin(process, cohort) => EntryKeepsInv(s, 0, process, cohort);
      case TakeMutex(p) => EntryKeepsInv(s, p, 0, Batch);
      case ProbeOpposing(p) => ProbeKeepsInv(s, p);
      case EndProbe(p) => EndProbeKeepsInv(s, p);
      case ShareOwn(p) => ShareKeepsInv(s, p);
      case ReleaseMutex(p) => ReleaseKeepsInv(s, p);
      case FailIO(p) => FailureKeepsInv(s, p);
      case Close(p) => CloseKeepsInv(s, p);
      case Crash(process) => CrashKeepsInv(s, process);
    }
  }

  lemma {:induction false} RunsKeepInv(steps: seq<Step>)
    ensures Inv(Exec(steps))
  {
    hide Next;
    if steps != [] {
      RunsKeepInv(steps[..|steps| - 1]);
      hide Inv;
      StepKeepsInv(Exec(steps[..|steps| - 1]), steps[|steps| - 1]);
    }
  }

  // -------------------------------------------------------------- guarantees

  /** Under the mutex nobody else probes or joins, so only leases are in the way. */
  lemma ProbeIsFreeOfLeases(s: World, p: nat)
    requires Inv(s) && At(s, p, HasMutex)
    ensures var l := LockOf(s, Opposing(s.attempts[p].cohort));
            l.exclusive.None? && p !in l.shared && forall q <- l.shared :: At(s, q, Leased)
  {
  }

  /** However attempts interleave and wherever processes die, a live and a batch
      lease are never held at the same time. */
  lemma CohortsNeverOverlap(steps: seq<Step>, p: nat, q: nat)
    requires At(Exec(steps), p, Leased) && At(Exec(steps), q, Leased)
    ensures Exec(steps).attempts[p].cohort == Exec(steps).attempts[q].cohort
  {
    RunsKeepInv(steps);
    hide Exec;
  }

  /** An attempt is refused exactly when an opposing lease is held at its probe. */
  lemma RefusedIffOpposingLease(steps: seq<Step>, p: nat)
    requires At(Exec(steps), p, HasMutex)
    ensures var s := Exec(steps);
            At(Next(s, ProbeOpposing(p)), p, Refusing) <==>
            exists q: nat :: At(s, q, Leased) && s.attempts[q].cohort == Opposing(s.attempts[p].cohort)
  {
    RunsKeepInv(steps);
    var s := Exec(steps);
    hide Exec;
    ProbeIsFreeOfLeases(s, p);
    var l := LockOf(s, Opposing(s.attempts[p].cohort));
    if l.shared != {} {
      var q :| q in l.shared;
      assert At(s, q, Leased) && s.attempts[q].cohort == Opposing(s.attempts[p].cohort);
    }
  }

  /** After a successful probe the own shared lock is always granted. */
  lemma OwnShareNeverFails(steps: seq<Step>, p: nat)
    requires At(Exec(steps), p, Clear)
    ensures At(Next(Exec(steps), ShareOwn(p)), p, Shared)
  {
    RunsKeepInv(steps);
    hide Exec;
  }

  /** A refused attempt was refused by its probe, never by its own cohort's file. */
  lemma {:induction false} RefusalsComeFromProbes(steps: seq<Step>, p: nat)
    requires At(Exec(steps), p, Refusing) || At(Exec(steps), p, Ended(true))
    ensures exists k: nat, q: nat ::
              && k < |steps| && steps[k] == ProbeOpposing(p)
              && At(Exec(steps[..k]), q, Leased) && p < |Exec(steps[..k]).attempts|
              && Exec(steps[..k]).attempts[q].cohort == Opposing(Exec(steps[..k]).attempts[p].cohort)
  {
    var init, step := steps[..|steps| - 1], steps[|steps| - 1];
    var before := Exec(init);
    if At(before, p, Refusing) || At(before, p, Ended(true)) {
      RefusalsComeFromProbes(init, p);
      var k: nat, q: nat :| k < |init| && init[k] == ProbeOpposing(p)
        && At(Exec(init[..k]), q, Leased) && p < |Exec(init[..k]).attempts|
        && Exec(init[..k]).attempts[q].cohort == Opposing(Exec(init[..k]).attempts[p].cohort);
      assert init[..k] == steps[..k] && steps[k] == ProbeOpposing(p);
    } else {
      RunsKeepInv(init);
      RefusalStep(before, step, p);
      RefusedIffOpposingLease(init, p);
      var q: nat :| At(before, q, Leased) && before.attempts[q].cohort == Opposing(before.attempts[p].cohort);
      assert steps[..|init|] == init;
    }
  }

  lemma RefusalStep(s: World, step: Step, p: nat)
    requires Inv(s) && !At(s, p, Refusing) && !At(s, p, Ended(true))
    requires At(Next(s, step), p, Refusing) || At(Next(s, step), p, Ended(true))
    ensures step == ProbeOpposing(p) && At(s, p, HasMutex) && At(Next(s, step), p, Refusing)
  {
  }

  /** Closing a lease twice, or one that was never granted, changes nothing. */
  lemma CloseIsOneShot(steps: seq<Step>, p: nat)
    ensures Next(Next(Exec(steps), Close(p)), Close(p)) == Next(Exec(steps), Close(p))
    ensures !At(Exec(steps), p, Leased) ==> Next(Exec(steps), Close(p)) == Exec(steps)
  {
    hide Exec;
  }

  /** No crash strands capacity: when no lease is left, nothing refuses. */
  lemma NoLeaseNoRefusal(steps: seq<Step>, p: nat)
    requires At(Exec(steps), p, HasMutex)
    requires forall q: nat :: !At(Exec(steps), q, Leased)
    ensures At(Next(Exec(steps), ProbeOpposing(p)), p, Probed)
  {
    RefusedIffOpposingLease(steps, p);
    hide Exec;
  }
}
