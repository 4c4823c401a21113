/** Termination and start-up recovery as callers of the store and the runtime. */
module LiveRecovery {
  import opened Basics
  import opened LiveContract
  import opened SessionRecord
  import opened SessionSteps
  import opened SessionInvariant
  import opened SessionRuns
  import opened SessionProgress
  import opened SessionStore
  import opened StoreRuns
  import opened SessionGuarantees

  /** What the media runtime answers to EnsureSession. */
  datatype Launch = Unavailable | AlreadyRunning | Launched

  /** Everything one recovery step takes from outside: runtime answers, the
      clock, and how each save turns out. */
  datatype Surroundings = Surroundings(
    terminated: bool,
    activated: bool,
    launch: Launch,
    now: Time,
    keySave: SaveOutcome,
    eventSave: SaveOutcome)

  /** The pinned termination carried out: one terminal event, same bill. */
  predicate ClosedBy(r: Record, n: Record)
  {
    && r.pendingState.Some? && n.state == r.pendingState.value && n.closeReason == r.pendingReason
    && !n.stopping && n.pendingKey == ""
    && n.lastSequence == r.lastSequence + 1 && SameMeter(r, n)
    && |n.pending| == |r.pending| + 1 && n.pending[..|r.pending|] == r.pending
    && var last := n.pending[|r.pending|];
       last.state == n.state && last.closeReason == Some(r.pendingReason) && last.usage == Some(r.metered / MICROS_PER_SECOND)
  }

  ghost predicate OnlyTouches(before: map<string, Record>, after: map<string, Record>, id: string)
  {
    after.Keys == before.Keys && forall other <- before :: other != id ==> after[other] == before[other]
  }

  lemma LandsOnlyTouches(before: map<string, Record>, after: map<string, Record>, id: string, save: SaveOutcome,
                         error: Option<Error>, v: Verdict)
    requires id in before && Lands(before, after, id, save, error, v)
    ensures OnlyTouches(before, after, id)
    ensures after[id] == if v.Save? && !save.FailedBeforeRename? then v.next else before[id]
  {
  }

  lemma TerminalVerdict(r: Record, now: Time)
    requires Inv(r) && r.state.Active? && r.stopping
    ensures var v := Advance(r, TerminalEvent(r, now));
            && Safe(v) && (v.Save? <==> CanFinish(r))
            && (v.Save? ==> v.next.brokerId == r.brokerId && ClosedBy(r, v.next) && IsTerminal(v.next.state))
            && !v.Keep? && (v.Refuse? ==> !v.error.SessionTerminal?)
  {
    InvLifecycle(r);
    assert r.usageTotal == r.metered / MICROS_PER_SECOND;
    LaterIsReflexive(r);
    FinishIsSound(r, r, now);
    TerminalAdvanceVerdict(r, now);
    hide Inv, Later, CanFinish, Progress, Safe;
    TerminalShape(r, now);
  }

  lemma TerminalShape(r: Record, now: Time)
    requires r.usageTotal == r.metered / MICROS_PER_SECOND && LifecycleAccepted(r) && r.state.Active? && r.stopping
    ensures var v := Advance(r, TerminalEvent(r, now));
            && (v.Save? ==> v.next.brokerId == r.brokerId && ClosedBy(r, v.next) && IsTerminal(v.next.state))
            && !v.Keep? && (v.Refuse? ==> !v.error.SessionTerminal?)
  {
    hide OpaqueId, ValidCloseReason, EventId;
  }

  method FinalizeLiveTermination(store: EncryptedFileSessionStore, id: string, now: Time, save: SaveOutcome)
    returns (res: Result<Record>)
    requires SoundDisk(store.disk)
    modifies store`disk
    ensures SoundDisk(store.disk) && OnlyTouches(old(store.disk), store.disk, id)
    ensures id in store.disk ==>
              var r, n := old(store.disk)[id], store.disk[id];
              && (res.Ok? ==> res.value == n && IsTerminal(n.state))
              && (r.stopping ==>
                    if CanFinish(r) && now != ZERO_TIME && !save.FailedBeforeRename? then ClosedBy(r, n) else n == r)
              && (r.stopping ==> (res.Ok? <==> CanFinish(r) && now != ZERO_TIME && save.Committed?))
              && (!r.stopping ==> n == r && (res.Ok? <==> IsTerminal(r.state) && now != ZERO_TIME))
    ensures id !in store.disk ==> res.Err?
  {
    hide Inv, Safe, Performs, TerminalEvent, CanFinish, ClosedBy, Lands;
    if id == "" || now == ZERO_TIME {
      EmptyIsNotSound(store.disk);
      return Err(InvalidInput);
    }
    SoundLoad(store.disk, id);
    var loaded := store.LoadLocked(id);
    if loaded.Err? {
      return Err(loaded.error);
    }
    var record := loaded.value;
    InvLifecycle(record);
    if !record.state.Active? {
      return Ok(record);
    }
    if !record.stopping {
      return Err(InvalidInput);
    }
    TerminalVerdict(record, now);
    ghost var e, v := TerminalEvent(record, now), SessionSteps.Advance(record, TerminalEvent(record, now));
    var advanced := store.Advance(id, TerminalEvent(record, now), save);
    SoundPerforms(old(store.disk), store.disk, id, save, ErrorOf(advanced), r => SessionSteps.Advance(r, e));
    LandsKeepsSound(old(store.disk), store.disk, id, save, ErrorOf(advanced), v);
    LandsOnlyTouches(old(store.disk), store.disk, id, save, ErrorOf(advanced), v);
    LandsError(old(store.disk), store.disk, id, save, ErrorOf(advanced), v);
    if advanced.Err? && !advanced.error.SessionTerminal? {
      return Err(advanced.error);
    }
    SoundLoad(store.disk, id);
    res := store.LoadLocked(id);
  }

  lemma LandsError(before: map<string, Record>, after: map<string, Record>, id: string, save: SaveOutcome,
                   error: Option<Error>, v: Verdict)
    requires id in before && Lands(before, after, id, save, error, v)
    ensures v.Save? ==> error == if save.Committed? then None else Some(SaveFailed)
    ensures v.Refuse? ==> error == Some(v.error)
  {
  }

  lemma EmptyIsNotSound(disk: map<string, Record>)
    requires SoundDisk(disk)
    ensures "" !in disk
  {
  }

  method CompleteLiveTermination(store: EncryptedFileSessionStore, record: Record, terminated: bool, now: Time,
                                 save: SaveOutcome)
    returns (res: Result<Record>)
    requires SoundDisk(store.disk)
    modifies store`disk
    ensures SoundDisk(store.disk) && OnlyTouches(old(store.disk), store.disk, record.brokerId)
    ensures res.Ok? ==> record.brokerId in store.disk && IsTerminal(store.disk[record.brokerId].state)
  {
    hide Inv, OpaqueId, ClosedBy, CanFinish;
    if !record.state.Active? || !record.stopping || !ValidCloseReason(record.pendingReason) {
      return Err(InvalidInput);
    }
    if !terminated {
      return Err(RuntimeFailed);
    }
    res := FinalizeLiveTermination(store, record.brokerId, now, save);
  }

  /** Not announced yet, and free to be. */
  predicate CanStart(r: Record)
  {
    r.state.Active? && !r.stopping && r.lastSequence == 0 && |EventId(r.runnerId, 1)| <= 128
  }

  /** The first event of the session says that it started. */
  predicate Announced(r: Record, n: Record, now: Time)
  {
    && n == r.(lastSequence := 1, lastEventAt := Some(now), pending := n.pending)
    && |n.pending| == |r.pending| + 1 && n.pending[..|r.pending|] == r.pending
    && var e := n.pending[|r.pending|];
       e.sequence == 1 && e.kind.Started? && e.time == now && e.state.Active? && e.usage.None? && e.closeReason.None?
  }

  /** EnsureSession as far as the store sees it: the first launch announces
      itself, with an event built from a record that may have been loaded earlier. */
  method EnsureSession(store: EncryptedFileSessionStore, record: Record, launch: Launch, now: Time, save: SaveOutcome)
    returns (res: Result<()>)
    requires SoundDisk(store.disk) && record.brokerId in store.disk
    requires Inv(record) && Later(record, store.disk[record.brokerId])
    modifies store`disk
    ensures SoundDisk(store.disk) && OnlyTouches(old(store.disk), store.disk, record.brokerId)
    ensures Unpinned(old(store.disk)[record.brokerId], store.disk[record.brokerId])
    ensures !Live(record) ==> res.Err? && store.disk == old(store.disk)
    ensures res.Ok? && launch.Launched? ==> store.disk[record.brokerId].lastSequence > 0
    ensures res.Err? && launch.Unavailable? ==> store.disk == old(store.disk)
    ensures Live(record) && (launch.AlreadyRunning? || (launch.Launched? && record.lastSequence > 0)) ==>
              res.Ok? && store.disk == old(store.disk)
    ensures var r := old(store.disk)[record.brokerId];
            Live(record) && record.lastSequence == 0 && launch.Launched? && save.Committed? && CanStart(r) ==>
              res.Ok? && Announced(r, store.disk[record.brokerId], now)
  {
    hide Inv, Safe, Performs, StartEvent, Lands, Later, Unpinned, CanStart, Announced;
    RecordsStay(store.disk, record.brokerId);
    if !Live(record) {
      return Err(SessionTerminal);
    }
    if launch.Unavailable? {
      return Err(RuntimeFailed);
    }
    LaterCounts(record, store.disk[record.brokerId]);
    if launch.AlreadyRunning? || record.lastSequence != 0 {
      return Ok(());
    }
    ghost var e, r := StartEvent(record, now), store.disk[record.brokerId];
    ghost var v := SessionSteps.Advance(r, e);
    StartVerdict(r, record, now);
    res := store.Advance(record.brokerId, StartEvent(record, now), save);
    SoundPerforms(old(store.disk), store.disk, record.brokerId, save, ErrorOf(res), r => SessionSteps.Advance(r, e));
    LandsKeepsSound(old(store.disk), store.disk, record.brokerId, save, ErrorOf(res), v);
    LandsOnlyTouches(old(store.disk), store.disk, record.brokerId, save, ErrorOf(res), v);
    LandsError(old(store.disk), store.disk, record.brokerId, save, ErrorOf(res), v);
  }

  /** A later record; one that may run still may, with its rotation and its bill as they were. */
  predicate Unpinned(r: Record, n: Record)
  {
    && Later(r, n)
    && (if Live(r) then Live(n) && n.pendingKey == r.pendingKey && SameMeter(r, n) else n == r)
  }

  lemma RecordsStay(disk: map<string, Record>, id: string)
    requires SoundDisk(disk) && id in disk
    ensures OnlyTouches(disk, disk, id) && Unpinned(disk[id], disk[id])
  {
    InvLifecycle(disk[id]);
    LaterIsReflexive(disk[id]);
    hide Inv, Later;
  }

  lemma LaterCounts(a: Record, b: Record)
    requires Later(a, b)
    ensures a.lastSequence <= b.lastSequence && a.brokerId == b.brokerId
  {
  }

  lemma StartVerdict(r: Record, snapshot: Record, now: Time)
    requires Inv(r) && Later(snapshot, r) && Live(snapshot) && snapshot.lastSequence == 0
    ensures var v := Advance(r, StartEvent(snapshot, now));
            && Safe(v) && !v.Keep?
            && (v.Save? ==> v.next.brokerId == r.brokerId && Unpinned(r, v.next) && v.next.lastSequence == 1)
            && (CanStart(r) ==> v.Save? && Announced(r, v.next, now))
  {
    InvLifecycle(r);
    StartIsSound(r, snapshot, now);
    EventIdFits(r.runnerId, 1);
    hide Inv, Safe, OpaqueId, EventId, KeepsPinnedTermination, StaysClosed, KeysOnlyAdvance;
  }

  predicate NeedsRecovery(r: Record)
  {
    r.state.Active? || r.pending != [] || r.secrets.Some?
  }

  /** The sessions a restart still has work for, in any order; one unreadable
      file fails the whole listing. */
  method Recoverable(store: EncryptedFileSessionStore) returns (res: Result<seq<Record>>)
    ensures res.Ok? <==> forall id <- store.disk :: LoadResult(store.disk, id).Ok?
    ensures res.Ok? ==>
              forall r :: r in res.value <==>
                r.brokerId in store.disk && LoadResult(store.disk, r.brokerId) == Ok(r) && NeedsRecovery(r)
    ensures res.Ok? ==> forall i, j :: 0 <= i < j < |res.value| ==> res.value[i].brokerId != res.value[j].brokerId
  {
    hide LoadResult;
    var records: seq<Record> := [];
    var todo := store.disk.Keys;
    while todo != {}
      invariant todo <= store.disk.Keys
      invariant forall id <- store.disk.Keys - todo :: LoadResult(store.disk, id).Ok?
      invariant forall r :: r in records <==>
                  r.brokerId in store.disk.Keys - todo && LoadResult(store.disk, r.brokerId) == Ok(r) && NeedsRecovery(r)
      invariant forall i, j :: 0 <= i < j < |records| ==> records[i].brokerId != records[j].brokerId
      decreases todo
    {
      assert forall r :: r in records ==> r.brokerId !in todo;
      var id :| id in todo;
      var loaded := store.LoadLocked(id);
      if loaded.Err? {
        return Err(loaded.error);
      }
      todo := todo - {id};
      if NeedsRecovery(loaded.value) {
        records := records + [loaded.value];
      }
    }
    return Ok(records);
  }

  /** Neither a termination nor a key rotation was left half done, and nothing
      but a pinned termination closed the session. */
  ghost predicate Handled(r: Record, n: Record)
  {
    && !n.stopping && n.pendingKey == ""
    && if r.stopping then IsTerminal(n.state) else n.state == r.state
  }

  lemma TerminalIsHandled(r: Record)
    requires Inv(r) && !r.state.Active?
    ensures Handled(r, r)
  {
  }

  /** What a candidate is left as: closed as pinned, or launched as `n`. */
  ghost predicate Recovered(r: Record, n: Record)
  {
    if r.stopping then IsTerminal(n.state) else Live(n) && n.pendingKey == "" && Later(r, n)
  }

  /** One candidate, from a fresh load to a launched or closed session. */
  method RecoverOne(store: EncryptedFileSessionStore, id: string, around: Surroundings) returns (res: Result<()>)
    requires SoundDisk(store.disk) && id in store.disk && store.disk[id].state.Active?
    modifies store`disk
    ensures SoundDisk(store.disk) && OnlyTouches(old(store.disk), store.disk, id)
    ensures res.Ok? ==> Recovered(old(store.disk)[id], store.disk[id])
  {
    hide Inv, OpaqueId, Performs, Lands, Safe, CompleteActivation, LoadResult, Later;
    var loaded := store.LoadLocked(id);
    if loaded.Err? {
      return Err(loaded.error);
    }
    var record := loaded.value;
    SoundLoad(store.disk, id);
    InvLifecycle(record);
    if record.stopping {
      var closed := CompleteLiveTermination(store, record, around.terminated, around.now, around.eventSave);
      return if closed.Err? then Err(closed.error) else Ok(());
    }
    if record.secrets.None? {
      return Err(Corrupt);
    }
    ClearedIsLater(record);
    if record.pendingKey != "" {
      if !around.activated {
        return Err(RuntimeFailed);
      }
      var completed := FinishActivation(store, record, around.keySave);
      if completed.Err? {
        return Err(completed.error);
      }
      record := record.(pendingKey := "");
    }
    ghost var mid := store.disk[id];
    LaterIsReflexive(record);
    InvLifecycle(record);
    res := EnsureSession(store, record, around.launch, around.now, around.eventSave);
    LaterIsTransitive(old(store.disk)[id], mid, store.disk[id]);
  }

  lemma ClearedIsLater(r: Record)
    requires LifecycleAccepted(r) && Live(r)
    ensures Later(r, r.(pendingKey := "")) && LifecycleAccepted(r.(pendingKey := ""))
  {
  }

  method FinishActivation(store: EncryptedFileSessionStore, record: Record, save: SaveOutcome) returns (res: Result<()>)
    requires SoundDisk(store.disk) && record.brokerId in store.disk && store.disk[record.brokerId] == record
    requires Live(record) && record.pendingKey != ""
    modifies store`disk
    ensures SoundDisk(store.disk) && OnlyTouches(old(store.disk), store.disk, record.brokerId)
    ensures store.disk[record.brokerId] in {record, record.(pendingKey := "")}
    ensures res.Ok? ==> store.disk[record.brokerId] == record.(pendingKey := "")
  {
    hide Inv, Performs, Lands, Safe;
    ghost var id, key := record.brokerId, record.pendingKey;
    ActivationVerdict(record);
    ghost var v := CompleteActivation(record, key);
    res := store.CompleteKeyActivation(record.brokerId, record.pendingKey, save);
    SoundPerforms(old(store.disk), store.disk, id, save, ErrorOf(res), r => CompleteActivation(r, key));
    LandsKeepsSound(old(store.disk), store.disk, id, save, ErrorOf(res), v);
    LandsOnlyTouches(old(store.disk), store.disk, id, save, ErrorOf(res), v);
    LandsError(old(store.disk), store.disk, id, save, ErrorOf(res), v);
  }

  /** A pending activation always names the current key, so it can complete. */
  lemma ActivationVerdict(r: Record)
    requires Inv(r) && Live(r) && r.pendingKey != ""
    ensures OpaqueId(r.pendingKey)
    ensures var v := CompleteActivation(r, r.pendingKey);
            v.Save? && v.next == r.(pendingKey := "") && Safe(v)
  {
    CompleteKeyKeepsInv(r, r.pendingKey);
  }

  /** What the sessions launched so far do to the store between two steps of the
      recovery: any calls of their own, on their own records. */
  datatype Drift = Drift(apply: (nat, map<string, Record>, set<string>) -> map<string, Record>)

  ghost predicate MovesOnly(before: map<string, Record>, after: map<string, Record>, who: set<string>)
  {
    && SoundDisk(after) && after.Keys == before.Keys
    && forall id <- before :: if id in who then Later(before[id], after[id]) else after[id] == before[id]
  }

  ghost predicate Drifts(drift: Drift)
  {
    forall k, disk, who :: SoundDisk(disk) ==> MovesOnly(disk, drift.apply(k, disk, who), who)
  }

  /** The state of one record while recovery is at work: not looked at yet, closed
      as it was pinned, or launched and on its own since. */
  ghost predicate Settled(r: Record, n: Record, launched: Option<Record>)
  {
    match launched
    case None => n.pendingKey == "" && !n.stopping && if r.stopping then IsTerminal(n.state) else n == r
    case Some(l) => !r.stopping && Inv(l) && Recovered(r, l) && Later(l, n)
  }

  function Lookup(launched: map<string, Record>, id: string): (l: Option<Record>)
  {
    if id in launched then Some(launched[id]) else None
  }

  ghost predicate AllSettled(before: map<string, Record>, disk: map<string, Record>, visited: set<string>,
                             launched: map<string, Record>)
    requires disk.Keys == before.Keys
  {
    && launched.Keys <= visited
    && forall id <- disk :: if id in visited then Settled(before[id], disk[id], Lookup(launched, id)) else disk[id] == before[id]
  }

  lemma SettledStays(r: Record, n: Record, l: Record, m: Record)
    requires Settled(r, n, Some(l)) && Later(n, m) && Inv(n)
    ensures Settled(r, m, Some(l))
  {
    InvLifecycle(l);
    InvLifecycle(n);
    hide Inv, Recovered, Later;
    LaterIsTransitive(l, n, m);
  }

  lemma DriftKeepsSettled(before: map<string, Record>, disk: map<string, Record>, next: map<string, Record>,
                          visited: set<string>, launched: map<string, Record>)
    requires disk.Keys == before.Keys && SoundDisk(disk)
    requires AllSettled(before, disk, visited, launched) && MovesOnly(disk, next, launched.Keys)
    ensures AllSettled(before, next, visited, launched)
  {
    hide Settled, Later, Inv, OpaqueId;
    forall id | id in next
      ensures if id in visited then Settled(before[id], next[id], Lookup(launched, id)) else next[id] == before[id]
    {
      if id in launched {
        SettledStays(before[id], disk[id], launched[id], next[id]);
      }
    }
  }

  lemma RecoveredIsSettled(disk: map<string, Record>, id: string, r: Record)
    requires SoundDisk(disk) && id in disk && Recovered(r, disk[id])
    ensures Settled(r, disk[id], if r.stopping then None else Some(disk[id]))
  {
    var n := disk[id];
    InvLifecycle(n);
    LaterIsReflexive(n);
    hide Inv, Later;
  }

  lemma OneMoreSettled(before: map<string, Record>, disk: map<string, Record>, next: map<string, Record>,
                       visited: set<string>, launched: map<string, Record>, id: string)
    requires disk.Keys == before.Keys && id in disk && id !in visited
    requires AllSettled(before, disk, visited, launched) && OnlyTouches(disk, next, id)
    requires Settled(before[id], next[id], if before[id].stopping then None else Some(next[id]))
    ensures var more := if before[id].stopping then launched else launched[id := next[id]];
            AllSettled(before, next, visited + {id}, more)
  {
    hide Settled;
    var more := if before[id].stopping then launched else launched[id := next[id]];
    forall other | other in next
      ensures if other in visited + {id} then Settled(before[other], next[other], Lookup(more, other)) else next[other] == before[other]
    {
      if other != id {
        assert next[other] == disk[other] && Lookup(more, other) == Lookup(launched, other);
      }
    }
  }

  lemma NothingSettled(disk: map<string, Record>)
    ensures AllSettled(disk, disk, {}, map[])
  {
  }

  lemma SkippedIsSettled(before: map<string, Record>, disk: map<string, Record>, visited: set<string>,
                         launched: map<string, Record>, id: string)
    requires disk.Keys == before.Keys && SoundDisk(disk) && id in disk && id !in visited
    requires AllSettled(before, disk, visited, launched) && !disk[id].state.Active?
    ensures AllSettled(before, disk, visited + {id}, launched)
  {
    InvLifecycle(disk[id]);
    hide Later, Inv, OpaqueId, Recovered;
  }

  /** Start-up recovery, while the sessions it has launched already run. Success
      means no session is left half done: pinned terminations were carried out,
      and every other active session was handed to the runtime with no activation
      pending. Whatever is stopping or pending at the end was launched here and
      moved on by itself since. Failure leaves a sound store. */
  method RecoverLiveSessions(store: EncryptedFileSessionStore, around: nat -> Surroundings, drift: Drift)
    returns (res: Result<()>, ghost launched: map<string, Record>)
    requires SoundDisk(store.disk) && Drifts(drift)
    modifies store`disk
    ensures SoundDisk(store.disk) && store.disk.Keys == old(store.disk).Keys
    ensures res.Ok? ==> forall id <- store.disk :: Settled(old(store.disk)[id], store.disk[id], Lookup(launched, id))
    ensures res.Ok? ==> forall id <- store.disk :: id in launched <==> Live(old(store.disk)[id])
    ensures res.Ok? ==> forall id <- store.disk :: store.disk[id].stopping || store.disk[id].pendingKey != "" ==>
                id in launched && Live(launched[id]) && launched[id].pendingKey == "" && Later(launched[id], store.disk[id])
    ensures res.Ok? && (forall id <- launched :: id in store.disk && store.disk[id] == launched[id]) ==>
              forall id <- store.disk :: Handled(old(store.disk)[id], store.disk[id])
  {
    hide SoundDisk, OpaqueId, LoadResult, Handled, Drifts, AllSettled, MovesOnly, Settled, Inv, Later, Recovered, Lookup, OnlyTouches;
    launched := map[];
    var listed := Recoverable(store);
    if listed.Err? {
      return Err(listed.error), launched;
    }
    var records := listed.value;
    ghost var before := store.disk;
    ListedAreCurrent(before, records);
    NothingSettled(before);
    ghost var visited: set<string> := {};
    var running: set<string> := {};
    for k := 0 to |records|
      invariant SoundDisk(store.disk) && store.disk.Keys == before.Keys && running == launched.Keys
      invariant visited == set i | 0 <= i < k :: records[i].brokerId
      invariant AllSettled(before, store.disk, visited, launched)
      invariant forall id :: id in launched <==> id in visited && id in before && Live(before[id])
    {
      var candidate := records[k];
      var id := candidate.brokerId;
      ghost var disk0 := store.disk;
      DriftMoves(drift, k, disk0, running);
      store.disk := drift.apply(k, store.disk, running);
      DriftKeepsSettled(before, disk0, store.disk, visited, launched);
      UnvisitedStays(before, store.disk, visited, launched, id);
      visited := visited + {id};
      if !candidate.state.Active? {
        SkippedIsSettled(before, store.disk, visited - {id}, launched, id);
        continue;
      }
      ghost var disk1 := store.disk;
      var one := RecoverOne(store, id, around(k));
      TouchesKeep(disk1, store.disk, id);
      if one.Err? {
        return Err(one.error), launched;
      }
      RecoveredIsSettled(store.disk, id, before[id]);
      OneMoreSettled(before, disk1, store.disk, visited - {id}, launched, id);
      if !candidate.stopping {
        running, launched := running + {id}, launched[id := store.disk[id]];
      }
    }
    EverythingSettled(before, store.disk, visited, launched);
    return Ok(()), launched;
  }

  lemma DriftMoves(drift: Drift, k: nat, disk: map<string, Record>, who: set<string>)
    requires Drifts(drift) && SoundDisk(disk)
    ensures MovesOnly(disk, drift.apply(k, disk, who), who) && SoundDisk(drift.apply(k, disk, who))
    ensures drift.apply(k, disk, who).Keys == disk.Keys
  {
    hide SoundDisk;
  }

  lemma UnvisitedStays(before: map<string, Record>, disk: map<string, Record>, visited: set<string>,
                       launched: map<string, Record>, id: string)
    requires disk.Keys == before.Keys && AllSettled(before, disk, visited, launched) && id in before && id !in visited
    ensures disk[id] == before[id] && id !in launched
  {
    hide Settled;
  }

  lemma TouchesKeep(before: map<string, Record>, after: map<string, Record>, id: string)
    requires OnlyTouches(before, after, id)
    ensures after.Keys == before.Keys
  {
  }

  /** What was never visited needed nothing. */
  lemma EverythingSettled(before: map<string, Record>, disk: map<string, Record>, visited: set<string>,
                          launched: map<string, Record>)
    requires disk.Keys == before.Keys && SoundDisk(before) && AllSettled(before, disk, visited, launched)
    requires forall id <- before :: before[id].state.Active? ==> id in visited
    requires forall id :: id in launched <==> id in visited && id in before && Live(before[id])
    ensures forall id <- disk :: Settled(before[id], disk[id], Lookup(launched, id))
    ensures forall id <- disk :: disk[id].stopping || disk[id].pendingKey != "" ==>
              id in launched && Live(launched[id]) && launched[id].pendingKey == "" && Later(launched[id], disk[id])
    ensures (forall id <- launched :: id in disk && disk[id] == launched[id]) ==>
              forall id <- disk :: Handled(before[id], disk[id])
  {
    hide Inv, OpaqueId, Later;
    forall id | id in disk ensures Settled(before[id], disk[id], Lookup(launched, id)) {
      InvLifecycle(before[id]);
    }
    if forall id <- launched :: id in disk && disk[id] == launched[id] {
      forall id | id in disk ensures Handled(before[id], disk[id]) {
        assert Settled(before[id], disk[id], Lookup(launched, id));
      }
    }
  }

  /** Under one lock hold, the listing is the disk itself; what it omits needs nothing. */
  lemma ListedAreCurrent(disk: map<string, Record>, records: seq<Record>)
    requires SoundDisk(disk)
    requires forall r :: r in records <==> r.brokerId in disk && LoadResult(disk, r.brokerId) == Ok(r) && NeedsRecovery(r)
    ensures forall i :: 0 <= i < |records| ==> records[i].brokerId in disk && disk[records[i].brokerId] == records[i]
    ensures forall id <- disk :: !disk[id].state.Active? ==> Handled(disk[id], disk[id])
    ensures forall id <- disk :: disk[id].state.Active? ==> exists i :: 0 <= i < |records| && records[i].brokerId == id
  {
    hide Inv, OpaqueId, LoadResult, Handled;
    forall id | id in disk
      ensures LoadResult(disk, id) == Ok(disk[id]) && (!disk[id].state.Active? ==> Handled(disk[id], disk[id]))
      ensures disk[id].state.Active? ==> exists i :: 0 <= i < |records| && records[i].brokerId == id
    {
      SoundLoad(disk, id);
      if disk[id].state.Active? {
        assert disk[id] in records;
      } else {
        TerminalIsHandled(disk[id]);
      }
    }
    forall i | 0 <= i < |records| ensures records[i].brokerId in disk && disk[records[i].brokerId] == records[i] {
      assert records[i] in records;
    }
  }
}
