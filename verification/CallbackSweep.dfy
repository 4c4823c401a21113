/** The callback worker's sweeps: which part of which outbox one of them settles. */
module CallbackSweep {
  import opened Basics
  import opened LiveContract
  import opened SessionRecord
  import opened SessionSteps
  import opened SessionInvariant
  import opened SessionRuns
  import opened SessionStore
  import opened StoreRuns
  import opened LiveRecovery
  import opened SessionProgress
  import opened OutboxGrowth
  import opened CallbackDispatcher

  datatype Post = Post(now: Time, reply: Reply, reserveSave: SaveOutcome, settleSave: SaveOutcome)

  datatype Sweep = Complete | Cancelled

  /** What left is a prefix of what was pending and what was appended since, and
      the secrets left only after all of it had. */
  ghost predicate DrainedBy(r: Record, n: Record, appended: seq<Event>, gone: nat)
  {
    && gone <= |r.pending| + |appended| && n.pending == (r.pending + appended)[gone..]
    && (!r.state.Active? ==> appended == [])
    && Later(r, n)
    && r.rejectedTotal <= n.rejectedTotal <= r.rejectedTotal + gone
    && (r.secrets.Some? && n.secrets.None? ==> !n.state.Active? && n.pending == [])
  }

  /** At least the first `count` of what was pending is gone, from the front. */
  ghost predicate Drained(r: Record, n: Record, count: nat)
  {
    exists appended, gone: nat :: DrainedBy(r, n, appended, gone) && gone >= count
  }

  lemma DrainedByComposes(a: Record, b: Record, c: Record, m: seq<Event>, i: nat, n: seq<Event>, j: nat)
    requires LifecycleAccepted(a) && LifecycleAccepted(b) && DrainedBy(a, b, m, i) && DrainedBy(b, c, n, j)
    ensures DrainedBy(a, c, m + n, i + j)
  {
    LaterIsTransitive(a, b, c);
    LaterStaysClosed(a, b);
    LaterStaysClosed(b, c);
    SecretsStayGone(a, b);
    SecretsStayGone(b, c);
    hide Later, LifecycleAccepted;
    assert a.pending + m + n == a.pending + (m + n);
    assert ((a.pending + m)[i..] + n)[j..] == (a.pending + m + n)[i + j..];
  }

  lemma DrainedComposes(a: Record, b: Record, c: Record, i: nat, j: nat)
    requires Inv(a) && Inv(b) && Drained(a, b, i) && Drained(b, c, j)
    ensures Drained(a, c, i + j)
  {
    InvLifecycle(a);
    InvLifecycle(b);
    hide Inv, DrainedBy, LifecycleAccepted;
    var m, k: nat :| DrainedBy(a, b, m, k) && k >= i;
    var n, l: nat :| DrainedBy(b, c, n, l) && l >= j;
    DrainedByComposes(a, b, c, m, k, n, l);
  }

  lemma DrainedWeakens(r: Record, n: Record, i: nat, j: nat)
    requires Drained(r, n, i) && j <= i
    ensures Drained(r, n, j)
  {
    hide DrainedBy;
  }

  /** An empty outbox has lost everything it ever held. */
  lemma EmptyIsDrained(r: Record, n: Record)
    requires Drained(r, n, 0) && n.pending == []
    ensures Drained(r, n, |r.pending|)
  {
    var appended, gone: nat :| DrainedBy(r, n, appended, gone);
    assert |(r.pending + appended)[gone..]| == 0;
    hide Later;
  }

  lemma GrownDrains(r: Record, n: Record)
    requires Grown(r, n)
    ensures Drained(r, n, 0)
  {
    hide Inv, Later;
    var appended := n.pending[|r.pending|..];
    assert (r.pending + appended)[0..] == n.pending;
    assert DrainedBy(r, n, appended, 0);
  }

  lemma ChargedDrains(r: Record, n: Record, now: Time)
    requires Inv(r) && (Charged(r, n, now) || n == r || SameCharge(r, n))
    ensures Drained(r, n, 0)
  {
    InvLifecycle(r);
    LaterIsReflexive(r);
    hide Inv;
    assert (r.pending + [])[0..] == r.pending;
    assert DrainedBy(r, n, [], 0);
  }

  lemma DroppedDrains(r: Record, n: Record)
    requires Inv(r) && Dropped(r, n) && r.rejectedTotal <= n.rejectedTotal <= r.rejectedTotal + 1
    ensures Drained(r, n, 1)
  {
    InvLifecycle(r);
    LaterIsReflexive(r);
    hide Inv;
    assert (r.pending + [])[1..] == r.pending[1..];
    assert DrainedBy(r, n, [], 1);
  }

  lemma SettledDrains(p: Record, n: Record, now: Time, reply: Reply, out: Delivered)
    requires Inv(p) && Settles(p, n, now, reply, out)
    ensures Drained(p, n, if out.Acked? || out.Refused? then 1 else 0)
  {
    hide Inv, Drained, Charged, Dropped, SameCharge, SaysWhy;
    if n == p || SameCharge(p, n) {
      ChargedDrains(p, n, 0);
      NotBoth(p, n);
    } else {
      DroppedDrains(p, n);
      DrainedWeakens(p, n, 1, 0);
    }
  }

  lemma NotBoth(p: Record, n: Record)
    ensures Dropped(p, n) ==> n != p && !SameCharge(p, n)
  {
  }

  lemma DeliveryDrains(r: Record, n: Record, now: Time, reply: Reply, posted: Option<Posting>, out: Delivered)
    requires Inv(r) && Inv(n) && DeliveryContract(r, n, now, reply, posted, out)
    ensures Drained(r, n, if out.Acked? || out.Refused? then 1 else 0)
  {
    hide Inv, Drained, Charged, Settles, Due, Later;
    if posted.Some? {
      var p := posted.value;
      ChargedDrains(p.found, p.charged, now);
      GrownDrains(r, p.found);
      DrainedComposes(r, p.found, p.charged, 0, 0);
      GrownDrains(p.charged, p.answered);
      DrainedComposes(r, p.charged, p.answered, 0, 0);
      SettledDrains(p.answered, n, now, reply, out);
      DrainedComposes(r, p.answered, n, 0, if out.Acked? || out.Refused? then 1 else 0);
    } else if Grown(r, n) {
      GrownDrains(r, n);
    } else {
      var found :| Grown(r, found) && Charged(found, n, now);
      GrownDrains(r, found);
      ChargedDrains(found, n, now);
      DrainedComposes(r, found, n, 0, 0);
    }
  }

  lemma ClearVerdict(r: Record)
    requires Inv(r) && !r.state.Active? && r.pending == []
    ensures var v := ClearTerminalSecrets(r);
            v.Save? && Safe(v) && v.next == r.(secrets := None)
  {
    ClearSecretsKeepsInv(r);
  }

  lemma ClearedDrains(r: Record)
    requires Inv(r) && !r.state.Active? && r.pending == []
    ensures Drained(r, r.(secrets := None), 0)
  {
    InvLifecycle(r);
    LaterIsReflexive(r);
    hide Inv;
    assert DrainedBy(r, r.(secrets := None), [], 0);
  }

  // --------------------------------------------- why a session may be held up

  /** The head waits for its next attempt. */
  predicate NotYet(r: Record, now: Time)
  {
    r.pending != [] && r.delivery.Some? && r.delivery.value.nextAt > now
  }

  /** The head waits for an attempt later than some turn of the sweep. */
  ghost predicate HeldUp(n: Record, post: (nat, nat) -> Post)
  {
    exists k: nat, j: nat :: NotYet(n, post(k, j).now)
  }

  lemma GrownHeldUp(r: Record, n: Record, post: (nat, nat) -> Post)
    requires Grown(r, n) && HeldUp(r, post)
    ensures HeldUp(n, post)
  {
    hide Inv, Later;
    var k: nat, j: nat :| NotYet(r, post(k, j).now);
    assert NotYet(n, post(k, j).now);
  }

  /** Every post gets a final answer that can be recorded, and every save commits. */
  predicate Final(p: Post)
  {
    && p.now != ZERO_TIME && p.reserveSave.Committed? && p.settleSave.Committed?
    && p.reply.Answer? && 100 <= p.reply.status <= 599 && !Transient(p.reply)
  }

  /** Room to count `left` more rejections, and a head that is due whenever it is posted. */
  ghost predicate Unhindered(r: Record, post: (nat, nat) -> Post, left: nat)
  {
    && r.rejectedTotal + left <= MAX_UINT64
    && (r.delivery.Some? ==> r.delivery.value.attempts < MAX_UINT32 && forall k, j :: r.delivery.value.nextAt <= post(k, j).now)
  }

  lemma GrownUnhindered(r: Record, n: Record, post: (nat, nat) -> Post, left: nat)
    requires Grown(r, n) && Unhindered(r, post, left)
    ensures Unhindered(n, post, left)
  {
    hide Inv, Later;
  }

  lemma SettledUnhindered(r: Record, n: Record, now: Time, reply: Reply, posted: Option<Posting>, out: Delivered,
                          post: (nat, nat) -> Post, left: nat)
    requires DeliveryContract(r, n, now, reply, posted, out) && (out.Acked? || out.Refused?)
    requires Unhindered(r, post, left + 1)
    ensures Unhindered(n, post, left)
  {
    hide Inv, Later, SaysWhy, Due;
  }

  lemma UnhinderedIsDecided(r: Record, post: (nat, nat) -> Post, left: nat, p: Post, k: nat, j: nat)
    requires Unhindered(r, post, left) && left > 0 && Final(p) && p == post(k, j)
    ensures r.pending != [] ==> NoObstacle(r, p.now, p.reserveSave, p.settleSave)
    ensures r.pending == [] ==> !Due(r, p.now)
  {
  }

  /** One session's share of a sweep: as many deliveries as its outbox was long,
      then the secrets if nothing is left. */
  method DrainOne(sha: Digest, store: EncryptedFileSessionStore, id: string, chances: nat, k: nat,
                  post: (nat, nat) -> Post, cancelled: (nat, nat) -> bool, clearSave: SaveOutcome, m: Meanwhile)
    returns (res: Result<Sweep>, ghost held: bool)
    requires SoundDisk(store.disk) && id in store.disk && GrowsOnly(m)
    modifies store`disk
    ensures SoundDisk(store.disk) && OthersGrew(old(store.disk), store.disk, id) && id in store.disk
    ensures Drained(old(store.disk)[id], store.disk[id], 0)
    ensures res == Ok(Complete) ==> Erased(store.disk[id])
    ensures held && res == Ok(Complete) ==> HeldUp(store.disk[id], post)
    ensures res == Ok(Complete) && !held ==>
              Drained(old(store.disk)[id], store.disk[id], Least(chances, |old(store.disk)[id].pending|))
    ensures (forall j :: !cancelled(k, j) && Final(post(k, j))) && clearSave.Committed?
            && Unhindered(old(store.disk)[id], post, chances) ==>
              res == Ok(Complete) && !held
  {
    hide Inv, LoadResult, SoundDisk, OpaqueId, DeliveryContract, Drained, Erased, OthersGrew, GrowsOnly, Grown, HeldUp,
      Final, Unhindered, NotYet, Transient, Least, Due;
    ghost var disk0 := store.disk;
    res, held := Deliveries(sha, store, id, chances, k, post, cancelled, m);
    if res != Ok(Complete) {
      return;
    }
    ghost var drained := store.disk;
    SoundIsInv(disk0, id);
    SoundIsInv(drained, id);
    if held {
      HeldUpIsPending(drained[id], post);
    }
    var erased := EraseIfDone(store, id, clearSave, m, k, chances);
    DrainedComposes(disk0[id], drained[id], store.disk[id], 0, 0);
    if !held {
      DrainedComposes(disk0[id], drained[id], store.disk[id], Least(chances, |disk0[id].pending|), 0);
    }
    GrewComposes(disk0, drained, store.disk, id);
    res := if erased.Ok? then Ok(Complete) else Err(erased.error);
  }

  lemma HeldUpIsPending(n: Record, post: (nat, nat) -> Post)
    requires HeldUp(n, post)
    ensures n.pending != []
  {
  }

  function Least(a: nat, b: nat): (c: nat) { if a < b then a else b }

  /** One turn: what happened since the last one, then one delivery. */
  method Turn(sha: Digest, store: EncryptedFileSessionStore, id: string, k: nat, j: nat, post: (nat, nat) -> Post,
              m: Meanwhile, ghost left: nat)
    returns (out: Delivered)
    requires SoundDisk(store.disk) && id in store.disk && GrowsOnly(m)
    modifies store`disk
    ensures SoundDisk(store.disk) && OthersGrew(old(store.disk), store.disk, id) && id in store.disk
    ensures Drained(old(store.disk)[id], store.disk[id], if out.Acked? || out.Refused? then 1 else 0)
    ensures out.Deferred? ==> Transient(post(k, j).reply) && NotYet(store.disk[id], post(k, j).now)
    ensures out.Idle? ==> store.disk[id].pending == [] || NotYet(store.disk[id], post(k, j).now)
    ensures Final(post(k, j)) && Unhindered(old(store.disk)[id], post, left + 1) ==>
              && !out.Fault? && !out.Deferred? && (out.Idle? ==> store.disk[id].pending == [])
              && (out.Acked? || out.Refused? ==> Unhindered(store.disk[id], post, left))
  {
    hide Inv, SoundDisk, OpaqueId, DeliveryContract, Drained, NoObstacle, OthersGrew, GrowsOnly, Grown, Unhindered, Due;
    var p := post(k, j);
    ghost var disk1 := store.disk;
    Wait(store, m, k, j, 0, id);
    ghost var disk2 := store.disk;
    SoundIsInv(disk1, id);
    SoundIsInv(disk2, id);
    GrownDrains(disk1[id], disk2[id]);
    ghost var posted;
    out, posted := DeliverNext(sha, store, id, p.now, p.reply, p.reserveSave, p.settleSave, m, k, j);
    SoundIsInv(store.disk, id);
    GrewComposes(disk1, disk2, store.disk, id);
    TurnHolds(disk1[id], disk2[id], store.disk[id], posted, out, post, k, j, left);
  }

  lemma TurnHolds(a: Record, r: Record, n: Record, posted: Option<Posting>, out: Delivered, post: (nat, nat) -> Post,
                  k: nat, j: nat, left: nat)
    requires Inv(a) && Inv(r) && Inv(n) && Grown(a, r)
    requires var p := post(k, j);
             && DeliveryContract(r, n, p.now, p.reply, posted, out)
             && (!Due(r, p.now) ==> out.Idle? && n == r)
             && (NoObstacle(r, p.now, p.reserveSave, p.settleSave) ==> Decided(p.reply, out))
    ensures Drained(a, n, if out.Acked? || out.Refused? then 1 else 0)
    ensures out.Deferred? ==> Transient(post(k, j).reply) && NotYet(n, post(k, j).now)
    ensures out.Idle? ==> n.pending == [] || NotYet(n, post(k, j).now)
    ensures Final(post(k, j)) && Unhindered(a, post, left + 1) ==>
              && !out.Fault? && !out.Deferred? && (out.Idle? ==> n.pending == [])
              && (out.Acked? || out.Refused? ==> Unhindered(n, post, left))
  {
    var p := post(k, j);
    GrownDrains(a, r);
    DeliveryDrains(r, n, p.now, p.reply, posted, out);
    DrainedComposes(a, r, n, 0, if out.Acked? || out.Refused? then 1 else 0);
    if out.Deferred? {
      DeferredIsTransient(r, n, p.now, p.reply, posted, out);
    }
    IdleIsNotDue(r, n, p.now, p.reply, posted, out);
    if Final(p) && Unhindered(a, post, left + 1) {
      GrownUnhindered(a, r, post, left + 1);
      UnhinderedIsDecided(r, post, left + 1, p, k, j);
      if out.Acked? || out.Refused? {
        SettledUnhindered(r, n, p.now, p.reply, posted, out, post, left);
      }
    }
    hide Inv, Grown, DeliveryContract, Drained, Unhindered, NoObstacle;
  }

  lemma IdleIsNotDue(r: Record, n: Record, now: Time, reply: Reply, posted: Option<Posting>, out: Delivered)
    requires DeliveryContract(r, n, now, reply, posted, out)
    ensures out.Idle? ==> n == r && (r.pending == [] || NotYet(r, now))
  {
    hide Inv, Grown, Charged;
  }

  method Deliveries(sha: Digest, store: EncryptedFileSessionStore, id: string, chances: nat, k: nat,
                    post: (nat, nat) -> Post, cancelled: (nat, nat) -> bool, m: Meanwhile)
    returns (res: Result<Sweep>, ghost held: bool)
    requires SoundDisk(store.disk) && id in store.disk && GrowsOnly(m)
    modifies store`disk
    ensures SoundDisk(store.disk) && OthersGrew(old(store.disk), store.disk, id) && id in store.disk
    ensures Drained(old(store.disk)[id], store.disk[id], 0)
    ensures held ==> HeldUp(store.disk[id], post)
    ensures res == Ok(Complete) && !held ==>
              Drained(old(store.disk)[id], store.disk[id], Least(chances, |old(store.disk)[id].pending|))
    ensures (forall j :: !cancelled(k, j) && Final(post(k, j))) && Unhindered(old(store.disk)[id], post, chances) ==>
              res == Ok(Complete) && !held
  {
    hide Inv, SoundDisk, OpaqueId, Drained, OthersGrew, GrowsOnly, Grown, HeldUp, Unhindered, NotYet, Final, Transient;
    ghost var disk0 := store.disk;
    ghost var good := (forall j :: !cancelled(k, j) && Final(post(k, j))) && Unhindered(disk0[id], post, chances);
    NothingMoved(disk0, id);
    GrownDrains(disk0[id], disk0[id]);
    SoundIsInv(disk0, id);
    held := false;
    for j := 0 to chances
      invariant SoundDisk(store.disk) && OthersGrew(disk0, store.disk, id) && id in store.disk
      invariant Drained(disk0[id], store.disk[id], j) && !held
      invariant good ==> Unhindered(store.disk[id], post, chances - j)
    {
      ghost var r := store.disk[id];
      DrainedWeakens(disk0[id], r, j, 0);
      if cancelled(k, j) {
        return Ok(Cancelled), held;
      }
      ghost var disk1 := store.disk;
      SoundIsInv(disk1, id);
      var out := Turn(sha, store, id, k, j, post, m, chances - j - 1);
      DrainedComposes(disk0[id], r, store.disk[id], j, if out.Acked? || out.Refused? then 1 else 0);
      GrewComposes(disk0, disk1, store.disk, id);
      match out {
        case Acked =>
        case Refused(_, _) =>
        case Idle =>
          DrainedWeakens(disk0[id], store.disk[id], j, 0);
          held := IdleIsHeldUp(disk0[id], store.disk[id], post, k, j, chances);
          return Ok(Complete), held;
        case Deferred(_, _) =>
          DrainedWeakens(disk0[id], store.disk[id], j, 0);
          WaitingHoldsUp(store.disk[id], post, k, j);
          held := true;
          return Ok(Complete), held;
        case Fault(e) =>
          DrainedWeakens(disk0[id], store.disk[id], j, 0);
          return Err(e), held;
      }
    }
    DrainedWeakens(disk0[id], store.disk[id], chances, Least(chances, |disk0[id].pending|));
    DrainedWeakens(disk0[id], store.disk[id], chances, 0);
    return Ok(Complete), held;
  }

  lemma WaitingHoldsUp(n: Record, post: (nat, nat) -> Post, k: nat, j: nat)
    requires NotYet(n, post(k, j).now)
    ensures HeldUp(n, post)
  {
  }

  /** A deferred event waits for its next attempt. */
  lemma DeferredIsTransient(r: Record, n: Record, now: Time, reply: Reply, posted: Option<Posting>, out: Delivered)
    requires DeliveryContract(r, n, now, reply, posted, out) && out.Deferred?
    ensures Transient(reply) && NotYet(n, now)
  {
    hide Inv, Later, Due, Attempts;
  }

  /** Nothing was posted because nothing is left, or because the head is not due. */
  lemma IdleIsHeldUp(r: Record, q: Record, post: (nat, nat) -> Post, k: nat, j: nat, chances: nat) returns (held: bool)
    requires Drained(r, q, 0) && (q.pending == [] || NotYet(q, post(k, j).now))
    ensures if held then HeldUp(q, post) else Drained(r, q, Least(chances, |r.pending|))
    ensures held <==> q.pending != []
  {
    hide Drained;
    held := q.pending != [];
    if !held {
      EmptyIsDrained(r, q);
      DrainedWeakens(r, q, |r.pending|, Least(chances, |r.pending|));
    }
  }

  method EraseIfDone(store: EncryptedFileSessionStore, id: string, save: SaveOutcome, m: Meanwhile, k: nat, j: nat)
    returns (res: Result<()>)
    requires SoundDisk(store.disk) && id in store.disk && GrowsOnly(m)
    modifies store`disk
    ensures SoundDisk(store.disk) && OthersGrew(old(store.disk), store.disk, id) && id in store.disk
    ensures Drained(old(store.disk)[id], store.disk[id], 0) && (res.Ok? ==> Erased(store.disk[id]))
    ensures save.Committed? ==> res.Ok?
    ensures old(store.disk)[id].pending != [] ==> store.disk == old(store.disk)
  {
    hide Inv, LoadResult, SoundDisk, OpaqueId, Performs, Safe, OthersGrew, GrowsOnly, Grown, Drained, OnlyTouches;
    NothingMoved(store.disk, id);
    GrownDrains(store.disk[id], store.disk[id]);
    var loaded := store.LoadLocked(id);
    SoundDiskLoads(store.disk, id);
    var current := loaded.value;
    SoundLoadIsCurrent(store.disk, id);
    if !current.state.Active? && |current.pending| == 0 && current.secrets.Some? {
      ghost var disk0 := store.disk;
      Wait(store, m, k, j, 3, id);
      ghost var disk1 := store.disk;
      ClosedStays(current, disk1[id]);
      SoundIsInv(disk1, id);
      ClearVerdict(disk1[id]);
      ClearedDrains(disk1[id]);
      SoundName(disk1, id);
      hide ClearTerminalSecrets;
      res := store.ClearTerminalSecrets(id, save);
      OpLands(disk1, store.disk, id, save, ErrorOf(res), r => SessionSteps.ClearTerminalSecrets(r));
      TouchedGrew(disk1, store.disk, id);
      GrewComposes(disk0, disk1, store.disk, id);
      GrownDrains(disk0[id], disk1[id]);
      DrainedComposes(disk0[id], disk1[id], store.disk[id], 0, 0);
    } else {
      return Ok(());
    }
  }

  /** What was written soundly can be read again. */
  lemma SoundDiskLoads(disk: map<string, Record>, id: string)
    requires SoundDisk(disk) && id in disk
    ensures LoadResult(disk, id).Ok?
  {
    hide Inv;
    SoundLoad(disk, id);
  }

  lemma ClosedStays(r: Record, n: Record)
    requires Grown(r, n) && !r.state.Active? && r.pending == []
    ensures !n.state.Active? && n.pending == [] && Drained(n, n, 0)
  {
    LaterStaysClosed(r, n);
    InvLifecycle(n);
    LaterIsReflexive(n);
    hide Inv, Later;
    assert DrainedBy(n, n, [], 0);
  }

  /** Nothing outside stands in the way of a sweep. */
  ghost predicate Favourable(disk: map<string, Record>, post: (nat, nat) -> Post, cancelled: (nat, nat) -> bool,
                             clearSave: nat -> SaveOutcome)
  {
    && (forall k, j :: !cancelled(k, j)) && (forall k, j :: Final(post(k, j))) && (forall k :: clearSave(k).Committed?)
    && forall id <- disk :: Unhindered(disk[id], post, |disk[id].pending|)
  }

  /** A completed sweep settled every event listed at its start, in order, except in
      sessions whose head now waits for an attempt later than one of their turns;
      with nothing in the way it completes without such an exception. It erased the
      secrets of every closed session whose outbox is empty, and any sweep, however
      it ends, drains outboxes only from the front. All of it while every other
      caller of the store goes on. */
  method SweepOnce(sha: Digest, store: EncryptedFileSessionStore, post: (nat, nat) -> Post,
                   cancelled: (nat, nat) -> bool, clearSave: nat -> SaveOutcome, m: Meanwhile)
    returns (res: Result<Sweep>)
    requires SoundDisk(store.disk) && GrowsOnly(m)
    modifies store`disk
    ensures SoundDisk(store.disk) && old(store.disk).Keys <= store.disk.Keys
    ensures forall id <- old(store.disk) :: Drained(old(store.disk)[id], store.disk[id], 0)
    ensures res == Ok(Complete) ==> forall id <- store.disk :: Erased(store.disk[id])
    ensures res == Ok(Complete) ==> forall id <- old(store.disk) ::
                || Drained(old(store.disk)[id], store.disk[id], |old(store.disk)[id].pending|)
                || HeldUp(store.disk[id], post)
    ensures Favourable(old(store.disk), post, cancelled, clearSave) ==>
              && res == Ok(Complete)
              && forall id <- old(store.disk) :: Drained(old(store.disk)[id], store.disk[id], |old(store.disk)[id].pending|)
  {
    hide SoundDisk, OpaqueId, Drained, Erased, OthersGrew, SweepListed, GrowsOnly, Inv, Waiting, Sweeping,
      Favourable, HeldUp, Final, Unhindered, Grown, Least;
    ghost var before := store.disk;
    ghost var held := {};
    AllDrainedAtFirst(before);
    var records := SweepList(store);
    SweepStarts(before, records, post);
    for k := 0 to |records|
      invariant SoundDisk(store.disk) && Sweeping(before, store.disk, records, k, held, post)
      invariant Favourable(before, post, cancelled, clearSave) ==> held == {}
    {
      ghost var mid := store.disk;
      var id := records[k].brokerId;
      ListedIsThere(before, mid, records, k, held, post);
      FavourableHere(before, mid, id, post, cancelled, clearSave, k);
      var one, stuck := DrainOne(sha, store, id, |records[k].pending|, k, post, cancelled, clearSave(k), m);
      SweepStops(before, mid, store.disk, records, k, held, post);
      if one != Ok(Complete) {
        return one;
      }
      SweepContinues(before, mid, store.disk, records, k, held, stuck, post);
      held := if stuck then held + {id} else held;
    }
    SweepEnds(before, store.disk, records, held, post);
    return Ok(Complete);
  }

  /** The state of a sweep before it visits the k-th listed session. */
  ghost predicate Sweeping(before: map<string, Record>, disk: map<string, Record>, records: seq<Record>, k: nat,
                           held: set<string>, post: (nat, nat) -> Post)
  {
    && SweepListed(before, records)
    && AllDrained(before, disk) && AllSwept(before, disk, records, k, held)
    && (forall id <- disk :: Erased(disk[id]) || Waiting(records, k, id))
    && HeldHaveCause(disk, held, post) && (forall id <- held :: !Waiting(records, k, id))
  }

  ghost predicate HeldHaveCause(disk: map<string, Record>, held: set<string>, post: (nat, nat) -> Post)
  {
    forall id <- held :: id in disk && HeldUp(disk[id], post)
  }

  lemma CausesStay(mid: map<string, Record>, after: map<string, Record>, id: string, held: set<string>, stuck: bool,
                   post: (nat, nat) -> Post)
    requires HeldHaveCause(mid, held, post) && OthersGrew(mid, after, id) && id !in held && id in after
    requires stuck ==> HeldUp(after[id], post)
    ensures HeldHaveCause(after, if stuck then held + {id} else held, post)
  {
    hide HeldUp, Grown, Erased;
    forall other | other in held ensures other in after && HeldUp(after[other], post) {
      GrownHeldUp(mid[other], after[other], post);
    }
  }

  lemma SweepStarts(before: map<string, Record>, records: seq<Record>, post: (nat, nat) -> Post)
    requires SoundDisk(before) && SweepListed(before, records) && AllDrained(before, before)
    requires forall id <- before :: Erased(before[id]) || Waiting(records, 0, id)
    ensures Sweeping(before, before, records, 0, {}, post)
  {
    NobodySwept(before, records);
    hide AllSwept, AllDrained, Erased, Waiting, SoundDisk, SweepListed;
  }

  /** Wherever a sweep stops, outboxes were drained from the front. */
  lemma SweepStops(before: map<string, Record>, mid: map<string, Record>, after: map<string, Record>,
                   records: seq<Record>, k: nat, held: set<string>, post: (nat, nat) -> Post)
    requires SoundDisk(before) && SoundDisk(mid) && k < |records| && Sweeping(before, mid, records, k, held, post)
    requires records[k].brokerId in mid && records[k].brokerId in after && OthersGrew(mid, after, records[k].brokerId)
    requires Drained(mid[records[k].brokerId], after[records[k].brokerId], 0)
    ensures AllDrained(before, after) && before.Keys <= after.Keys
    ensures forall other <- before :: Drained(before[other], after[other], 0)
  {
    hide Erased, AllSwept, SweepListed, OthersGrew, Drained, Waiting, HeldUp, SoundDisk;
    AllDrainedStep(before, mid, after, records[k].brokerId);
  }

  lemma SweepContinues(before: map<string, Record>, mid: map<string, Record>, after: map<string, Record>,
                       records: seq<Record>, k: nat, held: set<string>, stuck: bool, post: (nat, nat) -> Post)
    requires SoundDisk(before) && SoundDisk(mid) && k < |records| && Sweeping(before, mid, records, k, held, post)
    requires var id := records[k].brokerId;
             && id in mid && id in after && id in before && before[id] == records[k]
             && OthersGrew(mid, after, id) && Grown(before[id], mid[id]) && Erased(after[id])
             && (!stuck ==> Drained(mid[id], after[id], Least(|records[k].pending|, |mid[id].pending|)))
             && (stuck ==> HeldUp(after[id], post))
    requires AllDrained(before, after)
    ensures Sweeping(before, after, records, k + 1, if stuck then held + {records[k].brokerId} else held, post)
  {
    hide Erased, AllSwept, SweepListed, OthersGrew, Drained, Waiting, HeldUp, AllDrained, Grown, Least, Inv, OpaqueId;
    HeldAreVisited(before, records, k, held);
    CausesStay(mid, after, records[k].brokerId, held, stuck, post);
    hide SoundDisk, HeldHaveCause;
    AllSweptStep(before, mid, after, records, k, held, stuck);
    WaitingStep(mid, after, records, k);
  }

  lemma SweepEnds(before: map<string, Record>, disk: map<string, Record>, records: seq<Record>, held: set<string>,
                  post: (nat, nat) -> Post)
    requires Sweeping(before, disk, records, |records|, held, post)
    ensures before.Keys <= disk.Keys && forall id <- before :: Drained(before[id], disk[id], 0)
    ensures forall id <- disk :: Erased(disk[id])
    ensures forall id <- before ::
              id in held || Drained(before[id], disk[id], |before[id].pending|)
    ensures forall id <- held :: id in disk && HeldUp(disk[id], post)
  {
    NobodyWaits(before, disk, records);
    EverybodySwept(before, disk, records, held);
    hide Drained, Erased, Waiting, HeldUp, SweepListed, AllSwept;
  }

  /** The listed sessions are on the disk as listed, each once, and nothing else
      needs erasing or has anything to deliver. */
  ghost predicate SweepListed(disk: map<string, Record>, records: seq<Record>)
  {
    && (forall i :: 0 <= i < |records| ==> records[i].brokerId in disk && disk[records[i].brokerId] == records[i])
    && (forall i, j :: 0 <= i < j < |records| ==> records[i].brokerId != records[j].brokerId)
    && (forall id <- disk :: (Erased(disk[id]) && disk[id].pending == []) || Waiting(records, 0, id))
  }

  /** Still to be visited. */
  ghost predicate Waiting(records: seq<Record>, k: nat, id: string)
  {
    exists i :: k <= i < |records| && records[i].brokerId == id
  }

  ghost predicate AllDrained(before: map<string, Record>, disk: map<string, Record>)
  {
    before.Keys <= disk.Keys && forall id <- before :: Drained(before[id], disk[id], 0)
  }

  /** Sessions still to be visited only grew; the others were emptied of what they
      held at the start, or held up. */
  ghost predicate AllSwept(before: map<string, Record>, disk: map<string, Record>, records: seq<Record>, k: nat,
                           held: set<string>)
  {
    && before.Keys <= disk.Keys
    && forall id <- before ::
         if Waiting(records, k, id) then Grown(before[id], disk[id])
         else id in held || Drained(before[id], disk[id], |before[id].pending|)
  }

  /** The listing never fails on a sound disk. */
  method SweepList(store: EncryptedFileSessionStore) returns (records: seq<Record>)
    requires SoundDisk(store.disk)
    ensures SweepListed(store.disk, records)
    ensures forall id <- store.disk :: Erased(store.disk[id]) || Waiting(records, 0, id)
  {
    hide SoundDisk, LoadResult, Erased, NeedsRecovery, Waiting;
    AllLoad(store.disk);
    var listed := Recoverable(store);
    records := listed.value;
    UnlistedAreErased(store.disk, records);
  }

  lemma AllLoad(disk: map<string, Record>)
    requires SoundDisk(disk)
    ensures forall id <- disk :: LoadResult(disk, id).Ok?
  {
    forall id | id in disk ensures LoadResult(disk, id).Ok? {
      SoundDiskLoads(disk, id);
    }
    hide SoundDisk, LoadResult;
  }

  lemma AllDrainedAtFirst(disk: map<string, Record>)
    requires SoundDisk(disk)
    ensures AllDrained(disk, disk) && forall id <- disk :: Drained(disk[id], disk[id], 0)
  {
    hide Drained, Inv, Grown, OpaqueId;
    forall id | id in disk ensures Drained(disk[id], disk[id], 0) {
      GrownIsReflexive(disk[id]);
      GrownDrains(disk[id], disk[id]);
    }
  }

  lemma NobodySwept(disk: map<string, Record>, records: seq<Record>)
    requires SoundDisk(disk) && SweepListed(disk, records)
    ensures AllSwept(disk, disk, records, 0, {})
  {
    hide Drained, Inv, Grown, OpaqueId, Erased, Waiting;
    forall id | id in disk
      ensures if Waiting(records, 0, id) then Grown(disk[id], disk[id]) else Drained(disk[id], disk[id], |disk[id].pending|)
    {
      GrownIsReflexive(disk[id]);
      GrownDrains(disk[id], disk[id]);
    }
  }

  lemma ListedIsThere(before: map<string, Record>, disk: map<string, Record>, records: seq<Record>, k: nat,
                      held: set<string>, post: (nat, nat) -> Post)
    requires Sweeping(before, disk, records, k, held, post) && k < |records|
    ensures var id := records[k].brokerId; id in disk && id in before && before[id] == records[k] && Grown(before[id], disk[id])
  {
    hide Drained, Erased, Grown;
    assert Waiting(records, k, records[k].brokerId);
  }

  lemma FavourableHere(before: map<string, Record>, mid: map<string, Record>, id: string, post: (nat, nat) -> Post,
                       cancelled: (nat, nat) -> bool, clearSave: nat -> SaveOutcome, k: nat)
    requires id in before && id in mid && Grown(before[id], mid[id])
    ensures Favourable(before, post, cancelled, clearSave) ==>
              && (forall j :: !cancelled(k, j) && Final(post(k, j))) && clearSave(k).Committed?
              && Unhindered(mid[id], post, |before[id].pending|)
  {
    hide Grown, Final, Unhindered;
    if Favourable(before, post, cancelled, clearSave) {
      GrownUnhindered(before[id], mid[id], post, |before[id].pending|);
    }
  }

  lemma AllDrainedStep(before: map<string, Record>, mid: map<string, Record>, after: map<string, Record>, id: string)
    requires SoundDisk(before) && SoundDisk(mid) && AllDrained(before, mid) && id in mid && id in after
    requires OthersGrew(mid, after, id) && Drained(mid[id], after[id], 0)
    ensures AllDrained(before, after) && before.Keys <= after.Keys
    ensures forall other <- before :: Drained(before[other], after[other], 0)
  {
    hide Drained, Erased, Inv, Grown, OpaqueId;
    forall other | other in before ensures other in after && Drained(before[other], after[other], 0) {
      assert other in mid && Inv(before[other]) && Inv(mid[other]);
      if other != id {
        GrownDrains(mid[other], after[other]);
      }
      DrainedComposes(before[other], mid[other], after[other], 0, 0);
    }
  }

  lemma AllSweptStep(before: map<string, Record>, mid: map<string, Record>, after: map<string, Record>,
                     records: seq<Record>, k: nat, held: set<string>, stuck: bool)
    requires SoundDisk(before) && SoundDisk(mid) && SweepListed(before, records) && k < |records|
    requires AllSwept(before, mid, records, k, held)
    requires var id := records[k].brokerId;
             && id in mid && id in after && id in before && OthersGrew(mid, after, id) && Grown(before[id], mid[id])
             && (!stuck ==> Drained(mid[id], after[id], Least(|records[k].pending|, |mid[id].pending|)))
    ensures AllSwept(before, after, records, k + 1, if stuck then held + {records[k].brokerId} else held)
  {
    hide Drained, Erased, Inv, OpaqueId, Grown;
    var id := records[k].brokerId;
    forall other | other in before
      ensures if Waiting(records, k + 1, other) then Grown(before[other], after[other])
              else other in held || (stuck && other == id) || Drained(before[other], after[other], |before[other].pending|)
    {
      if other == id {
        NotAgain(before, records, k);
        if !stuck {
          GrowsLonger(before[id], mid[id]);
          GrownDrains(before[id], mid[id]);
          DrainedComposes(before[id], mid[id], after[id], 0, |before[id].pending|);
        }
      } else {
        WaitingNext(records, k, other);
        if Waiting(records, k, other) {
          GrownIsTransitive(before[other], mid[other], after[other]);
        } else if other !in held {
          GrownDrains(mid[other], after[other]);
          DrainedComposes(before[other], mid[other], after[other], |before[other].pending|, 0);
        }
      }
    }
  }

  lemma GrowsLonger(r: Record, n: Record)
    requires Grown(r, n)
    ensures |r.pending| <= |n.pending|
  {
    hide Inv, Later;
  }

  lemma NotAgain(disk: map<string, Record>, records: seq<Record>, k: nat)
    requires SweepListed(disk, records) && k < |records|
    ensures !Waiting(records, k + 1, records[k].brokerId)
  {
    hide Erased;
  }

  lemma HeldAreVisited(before: map<string, Record>, records: seq<Record>, k: nat, held: set<string>)
    requires SweepListed(before, records) && k < |records| && forall id <- held :: !Waiting(records, k, id)
    ensures records[k].brokerId !in held
    ensures forall id <- held + {records[k].brokerId} :: !Waiting(records, k + 1, id)
  {
    NotAgain(before, records, k);
    assert Waiting(records, k, records[k].brokerId);
    hide SweepListed;
  }

  lemma WaitingNext(records: seq<Record>, k: nat, id: string)
    requires k < |records| && id != records[k].brokerId
    ensures Waiting(records, k + 1, id) <==> Waiting(records, k, id)
  {
  }

  lemma EverybodySwept(before: map<string, Record>, disk: map<string, Record>, records: seq<Record>, held: set<string>)
    requires AllSwept(before, disk, records, |records|, held)
    ensures forall id <- before :: id in disk && (id in held || Drained(before[id], disk[id], |before[id].pending|))
  {
    hide Drained, Grown;
  }

  lemma WaitingStep(mid: map<string, Record>, after: map<string, Record>, records: seq<Record>, k: nat)
    requires k < |records| && OthersGrew(mid, after, records[k].brokerId)
    requires records[k].brokerId in after && Erased(after[records[k].brokerId])
    requires forall id <- mid :: Erased(mid[id]) || Waiting(records, k, id)
    ensures forall id <- after :: Erased(after[id]) || Waiting(records, k + 1, id)
  {
    hide Erased, Grown;
    forall id | id in after ensures Erased(after[id]) || Waiting(records, k + 1, id) {
      if id != records[k].brokerId && id in mid {
        if Erased(mid[id]) {
          ErasedStays(mid[id], after[id]);
        } else {
          var i :| k <= i < |records| && records[i].brokerId == id;
          assert k + 1 <= i;
        }
      }
    }
  }

  lemma NobodyWaits(before: map<string, Record>, disk: map<string, Record>, records: seq<Record>)
    requires AllDrained(before, disk)
    requires forall id <- disk :: Erased(disk[id]) || Waiting(records, |records|, id)
    ensures before.Keys <= disk.Keys && forall id <- before :: Drained(before[id], disk[id], 0)
    ensures forall id <- disk :: Erased(disk[id])
  {
    hide Erased, Drained;
  }

  lemma UnlistedAreErased(disk: map<string, Record>, records: seq<Record>)
    requires SoundDisk(disk)
    requires forall r :: r in records <==> r.brokerId in disk && LoadResult(disk, r.brokerId) == Ok(r) && NeedsRecovery(r)
    requires forall i, j :: 0 <= i < j < |records| ==> records[i].brokerId != records[j].brokerId
    ensures SweepListed(disk, records)
    ensures forall id <- disk :: Erased(disk[id]) || Waiting(records, 0, id)
  {
    hide Inv, LoadResult;
    forall i | 0 <= i < |records| ensures records[i].brokerId in disk && disk[records[i].brokerId] == records[i] {
      assert records[i] in records;
      SoundLoad(disk, records[i].brokerId);
    }
    forall id | id in disk ensures (Erased(disk[id]) && disk[id].pending == []) || Waiting(records, 0, id) {
      SoundLoad(disk, id);
      if NeedsRecovery(disk[id]) {
        assert disk[id] in records;
      }
    }
  }
}
