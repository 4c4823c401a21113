/** Restarting a workload: executions in sequence, and how the last one closes it. */
module AbrResume {
  import opened Basics
  import opened AbrContract
  import opened AbrJournal
  import opened AbrCheckpoints
  import opened AbrStore
  import opened AbrExecutor

  // -------------------------------------------------------- across crash points

  /** Execution k found `journals[k]`, made `uploads[k]` and left `journals[k + 1]`,
      whether it finished, failed or died. */
  ghost predicate Resumed(journals: seq<Journal>, uploads: seq<seq<Upload>>)
  {
    && |journals| == |uploads| + 1
    && forall k :: 0 <= k < |uploads| ==> Logged(journals[k], journals[k + 1], uploads[k])
  }

  lemma {:induction false} CheckpointsSurvive(journals: seq<Journal>, uploads: seq<seq<Upload>>, m: nat, k: nat,
                                              name: string)
    requires Resumed(journals, uploads) && m <= k <= |uploads|
    ensures name in journals[m].delivered ==> name in journals[k].delivered && journals[k].delivered[name] == journals[m].delivered[name]
    ensures journals[m].manifestDelivered != "" ==> journals[k].manifestDelivered == journals[m].manifestDelivered
    decreases k
  {
    if m < k {
      CheckpointsSurvive(journals, uploads, m, k - 1, name);
      assert Logged(journals[k - 1], journals[k], uploads[k - 1]);
    }
  }

  /** Once an artifact's delivered checkpoint is durable, no later execution from
      any crash point uploads it again, and the checkpoint is what will be billed. */
  lemma DeliveredIsNeverUploadedAgain(journals: seq<Journal>, uploads: seq<seq<Upload>>, m: nat, k: nat, name: string)
    requires Resumed(journals, uploads) && m <= k < |uploads|
    ensures name in journals[m].delivered ==>
              && PlaylistUpload(name) !in uploads[k] && StreamUpload(name) !in uploads[k]
              && name in journals[k + 1].delivered && journals[k + 1].delivered[name] == journals[m].delivered[name]
    ensures journals[m].manifestDelivered != "" ==> ManifestUpload !in uploads[k]
  {
    CheckpointsSurvive(journals, uploads, m, k, name);
    CheckpointsSurvive(journals, uploads, m, k + 1, name);
    assert Logged(journals[k], journals[k + 1], uploads[k]);
  }

  /** Conversely, a delivery that appeared during the runs was really uploaded,
      in exactly one of them. */
  lemma {:induction false} DeliveryHasOneExecution(journals: seq<Journal>, uploads: seq<seq<Upload>>, n: nat,
                                                   name: string) returns (k: nat)
    requires Resumed(journals, uploads) && n <= |uploads|
    requires name in journals[n].delivered && name !in journals[0].delivered
    ensures k < n && BothPut(name, uploads[k])
    ensures forall m :: k < m < |uploads| ==> PlaylistUpload(name) !in uploads[m] && StreamUpload(name) !in uploads[m]
    decreases n
  {
    assert Logged(journals[n - 1], journals[n], uploads[n - 1]);
    if name in journals[n - 1].delivered {
      k := DeliveryHasOneExecution(journals, uploads, n - 1, name);
    } else {
      k := n - 1;
      forall m | k < m < |uploads| ensures PlaylistUpload(name) !in uploads[m] && StreamUpload(name) !in uploads[m] {
        DeliveredIsNeverUploadedAgain(journals, uploads, n, m, name);
      }
    }
  }

  /** The same for one request, each execution in a world of its own. */
  ghost predicate ResumedFor(job: Job, preset: seq<string>, worlds: seq<World>, journals: seq<Journal>,
                             uploads: seq<seq<Upload>>)
  {
    && Resumed(journals, uploads) && |worlds| == |uploads|
    && (forall k :: 0 <= k < |uploads| ==> Products(job, preset, worlds[k], journals[k], journals[k + 1]))
    && (forall k :: 0 <= k < |journals| ==> Ours(job, preset, journals[k]) || journals[k].terminal.Some?)
    && (forall k :: 0 <= k < |journals| ==> forall name <- journals[k].delivered :: name in preset)
  }

  /** However often the executor died and was started again: a rendition delivered
      since the first journal names exactly the destinations of the request, and is
      what the execution that delivered it found prepared or encoded. */
  lemma {:induction false} DeliveredAsRequested(job: Job, preset: seq<string>, worlds: seq<World>, journals: seq<Journal>,
                                                uploads: seq<seq<Upload>>, n: nat, name: string)
    returns (k: nat, i: nat)
    requires ResumedFor(job, preset, worlds, journals, uploads) && n <= |uploads|
    requires name in journals[n].delivered && name !in journals[0].delivered
    ensures k < n && i < |preset| && preset[i] == name && name !in journals[k].delivered
    ensures Carries(job, Made(worlds[k], journals[k].prepared, preset, i), journals[n].delivered[name])
    decreases n
  {
    hide Ours, Carries, Made;
    assert Logged(journals[n - 1], journals[n], uploads[n - 1]);
    if name in journals[n - 1].delivered {
      k, i := DeliveredAsRequested(job, preset, worlds, journals, uploads, n - 1, name);
    } else {
      hide Logged;
      assert Products(job, preset, worlds[n - 1], journals[n - 1], journals[n - 1 + 1]);
      k := n - 1;
      i :| 0 <= i < |preset| && preset[i] == name;
    }
  }

  // -------------------------------------------------------------- closing a run

  /** What is told about a failure. */
  datatype Failure = Failure(code: string, message: string, retryable: bool)

  /** Only a code and message the journal would accept leave the runner. */
  function SafeFailure(code: string, message: string, retryable: bool): (safe: Failure)
    ensures safe.code != "" && safe.message != "" && Redacted(safe.message)
    ensures code != "" && message != "" && Redacted(message) ==> safe == Failure(code, message, retryable)
    ensures code == "" || message == "" || !Redacted(message) ==> safe == Failure("execution_failed", "ABR execution failed", true)
  {
    FallbackIsRedacted();
    if code != "" && message != "" && Redacted(message) then Failure(code, message, retryable)
    else Failure("execution_failed", "ABR execution failed", true)
  }

  /** The stored failure is the one that happened, if it may be told, and a fixed
      retryable one otherwise; it bills the delivered checkpoints. */
  ghost predicate Tells(job: Job, n: Journal, code: string, message: string, retryable: bool)
  {
    && n.terminal.Some? && n.terminal.value.body.ErrorBody?
    && var f := n.terminal.value.body.failure;
       && f.workloadId == job.workloadId && f.requestSha256 == job.requestSha256 && CheckpointUnits(n.delivered) == Some(f.units)
       && if code == "" || message == "" || !Redacted(message)
          then f.code == "execution_failed" && f.message == "ABR execution failed" && f.retryable
          else f.code == code && f.message == message && f.retryable == retryable
  }

  /** One run of the coordinator for a workload: execute, then close unless the
      run was cancelled. True when subscribers are told about a terminal event. */
  method Run(store: FileWorkloadStore, job: Job, preset: seq<string>, w: World, cancelled: bool, message: string,
             retryable: bool, closeSave: SaveOutcome)
    returns (notified: bool, out: Outcome, uploads: seq<Upload>)
    requires Sound(store.disk) && ValidJob(job, preset) && job.workloadId in store.disk
    requires Ours(job, preset, store.disk[job.workloadId])
    requires store.disk[job.workloadId].nextSequence + Remaining(w, 0, |preset|) + 4 <= MAX_UINT64
    modifies store`disk
    ensures Sound(store.disk) && OnlyTouches(old(store.disk), store.disk, job.workloadId)
    ensures Logged(old(store.disk)[job.workloadId], store.disk[job.workloadId], uploads)
    ensures var n := store.disk[job.workloadId];
            && (notified ==> n.terminal.Some?)
            && (n.terminal.Some? ==> Claim(n.terminal.value) == CheckpointUnits(n.delivered))
            && (!cancelled && closeSave.Committed? && out.Finished? ==> notified && n.state.Succeeded?)
            && (!cancelled && closeSave.Committed? && out.Broken? ==> (notified <==> CheckpointUnits(n.delivered).Some?))
            && (cancelled || out.Crashed? ==> !notified && n.state.InProgress?)
            && (Smooth(preset, w) && !cancelled && closeSave.Committed? ==>
                  (n.state.Succeeded? <==> CheckpointUnits(n.delivered).Some?))
            && (n.terminal.Some? ==> !out.Crashed?)
            && (n.terminal.Some? && out.Broken? ==> Tells(job, n, out.code, message, retryable))
            && (n.terminal.Some? && out.Finished? ==>
                  n.terminal.value.body == ResultBody(out.result) && ResultOf(job, preset, n, out.result))
    ensures Products(job, preset, w, old(store.disk)[job.workloadId], store.disk[job.workloadId])
    ensures Blamed(preset, w, out)
    ensures Ours(job, preset, store.disk[job.workloadId]) || store.disk[job.workloadId].terminal.Some?
  {
    hide Smooth, Inv, Sound, Ours, Logged, OnlyTouches, ValidJob, Remaining, RecordResult, CheckpointUnits, Units,
      ErrorAccepted, Products, Blamed, ManifestMade, Tells, ResultOf;
    ghost var j0, disk0 := store.disk[job.workloadId], store.disk;
    var id := job.workloadId;
    notified := false;
    out, uploads := Execute(store, job, preset, w);
    ghost var mid := store.disk;
    TouchesKeep(disk0, mid, id);
    OursIsOpen(job, preset, mid[id]);
    JobIsIdentified(job, preset);
    ClaimsMatch(mid, id);
    OpenUntilTerminal(mid, id);
    if cancelled || out.Crashed? {
      return;
    }
    if out.Finished? {
      notified := RecordSuccess(store, id, out.result, closeSave);
    } else {
      notified := RecordFailure(store, id, job, out.code, message, retryable, closeSave);
    }
    TouchesCompose(disk0, mid, store.disk, id);
    TouchesKeep(disk0, store.disk, id);
    ClosingKeepsLog(j0, mid[id], store.disk[id], uploads);
    ClosingKeepsProducts(job, preset, w, j0, mid[id], store.disk[id]);
    if out.Finished? {
      ClosingKeepsResult(job, preset, mid[id], store.disk[id], out.result);
    }
    ClaimsMatch(store.disk, id);
  }

  /** Left alone, or closed without touching a checkpoint. */
  predicate OnlyClosed(r: Journal, n: Journal)
  {
    n == r || (n.terminal.Some? && n.prepared == r.prepared && n.delivered == r.delivered && n.manifestDelivered == r.manifestDelivered)
  }

  lemma JobIsIdentified(job: Job, preset: seq<string>)
    requires ValidJob(job, preset)
    ensures OpaqueId(job.workloadId) && IsSha256Hex(job.requestSha256)
  {
  }

  lemma ClaimsMatch(disk: map<string, Journal>, id: string)
    requires Sound(disk) && id in disk
    ensures disk[id].terminal.Some? ==> Claim(disk[id].terminal.value) == CheckpointUnits(disk[id].delivered)
  {
    SoundLoads(disk, id);
    hide JournalAccepted, Billed, Windowed, CheckpointUnits;
  }

  lemma ClosingKeepsLog(j0: Journal, r: Journal, n: Journal, uploads: seq<Upload>)
    requires Logged(j0, r, uploads) && OnlyClosed(r, n)
    ensures Logged(j0, n, uploads)
  {
  }

  lemma ClosingKeepsProducts(job: Job, preset: seq<string>, w: World, j0: Journal, r: Journal, n: Journal)
    requires Products(job, preset, w, j0, r) && OnlyClosed(r, n)
    ensures Products(job, preset, w, j0, n)
  {
  }

  lemma ClosingKeepsResult(job: Job, preset: seq<string>, r: Journal, n: Journal, result: TerminalResult)
    requires ResultOf(job, preset, r, result) && OnlyClosed(r, n)
    ensures ResultOf(job, preset, n, result)
  {
  }

  method RecordSuccess(store: FileWorkloadStore, id: string, result: TerminalResult,
                       save: SaveOutcome) returns (done: bool)
    requires Sound(store.disk) && id in store.disk && store.disk[id].nextSequence < MAX_UINT64
    requires RecordResult(store.disk[id], result).Save?
    modifies store`disk
    ensures Sound(store.disk) && OnlyTouches(old(store.disk), store.disk, id)
    ensures OnlyClosed(old(store.disk)[id], store.disk[id])
    ensures done ==> store.disk[id].terminal.Some? && store.disk[id].state.Succeeded?
    ensures store.disk[id].terminal.Some? ==> store.disk[id].terminal.value.body == ResultBody(result)
    ensures save.Committed? ==> done
  {
    hide Inv, Sound, OnlyTouches, ResultAccepted, ReportsCheckpoints, Extends;
    SoundLoads(store.disk, id);
    OpenUntilTerminal(store.disk, id);
    hide LoadResult;
    var res := store.RecordTerminalResult(id, result, save);
    WriteEffect(old(store.disk), store.disk, id, save, res, ResultOp(result));
    done := res.Ok?;
  }

  /** The failure claim: what the delivered checkpoints bill, or zero when that overflows. */
  method RecordFailure(store: FileWorkloadStore, id: string, job: Job, code: string, message: string,
                       retryable: bool, save: SaveOutcome)
    returns (done: bool)
    requires Sound(store.disk) && id in store.disk && store.disk[id].nextSequence < MAX_UINT64
    requires store.disk[id].state.InProgress? && store.disk[id].workloadId == job.workloadId
    requires store.disk[id].requestSha256 == job.requestSha256 && OpaqueId(job.workloadId) && IsSha256Hex(job.requestSha256)
    modifies store`disk
    ensures Sound(store.disk) && OnlyTouches(old(store.disk), store.disk, id)
    ensures OnlyClosed(old(store.disk)[id], store.disk[id])
    ensures (done ==> store.disk[id].terminal.Some?) && !store.disk[id].state.Succeeded?
    ensures store.disk[id].terminal.Some? ==> Tells(job, store.disk[id], code, message, retryable)
    ensures save.Committed? ==> (done <==> CheckpointUnits(store.disk[id].delivered).Some?)
  {
    hide Inv, Sound, OnlyTouches, Extends, CheckpointUnits, Redacted;
    SoundLoads(store.disk, id);
    OpenUntilTerminal(store.disk, id);
    NothingTouched(store.disk, id);
    var loaded := store.LoadLocked(id);
    hide LoadResult;
    if loaded.Err? {
      return false;
    }
    var safe := SafeFailure(code, message, retryable);
    var units := DeliveredUnits(loaded.value.delivered);
    UsageFailureIsRedacted();
    var failure :=
      if units.Some? then TerminalError(job.workloadId, job.requestSha256, safe.code, safe.message, safe.retryable, units.value)
      else TerminalError(job.workloadId, job.requestSha256, "usage_failed", "usage measurement failed", false, 0);
    CountedErrorCloses(store.disk[id], failure);
    var res := store.RecordTerminalError(id, failure, save);
    WriteEffect(old(store.disk), store.disk, id, save, res, ErrorOp(failure));
    done := res.Ok?;
  }

  // ------------------------------------------------------ one request, served

  /** An open journal under this request's own hash was written for this request. */
  ghost predicate Expected(disk: map<string, Journal>, job: Job, preset: seq<string>)
  {
    job.workloadId in disk && disk[job.workloadId].requestSha256 == job.requestSha256 && disk[job.workloadId].state.InProgress? ==>
      Ours(job, preset, disk[job.workloadId])
  }

  /** A new workload starts where Execute may start, and Execute ends where it may
      start again. */
  lemma FreshIsOurs(job: Job, preset: seq<string>)
    requires ValidJob(job, preset)
    ensures var j := Fresh(job.workloadId, job.requestSha256); Ours(job, preset, j) && Inv(j)
  {
    FreshKeepsInv(job.workloadId, job.requestSha256);
  }

  lemma FreshIsExpected(disk: map<string, Journal>, job: Job, preset: seq<string>)
    requires Sound(disk) && ValidJob(job, preset)
    ensures var after := disk[job.workloadId := Fresh(job.workloadId, job.requestSha256)];
            Sound(after) && Expected(after, job, preset)
  {
    FreshIsOurs(job, preset);
    JobIsIdentified(job, preset);
    hide Inv, Ours, ValidJob, OpaqueId;
  }

  datatype Served = Replayed(journal: Journal) | Rejected | Unavailable | Ran(notified: bool, out: Outcome)

  ghost function Found(disk: map<string, Journal>, job: Job): (j: Journal)
  {
    if job.workloadId in disk then disk[job.workloadId] else Fresh(job.workloadId, job.requestSha256)
  }

  ghost predicate KeepsOthers(before: map<string, Journal>, after: map<string, Journal>, id: string)
  {
    forall other :: other != id ==> (other in before <==> other in after) && (other in before ==> after[other] == before[other])
  }

  /** One accepted request that finds no execution to join: load or create its
      journal, then replay it, refuse it, or run it. It needs nothing but what
      every such request leaves behind. */
  method Serve(store: FileWorkloadStore, job: Job, preset: seq<string>, w: World, createSave: SaveOutcome,
               cancelled: bool, message: string, retryable: bool, closeSave: SaveOutcome)
    returns (served: Served, uploads: seq<Upload>)
    requires Sound(store.disk) && ValidJob(job, preset) && Expected(store.disk, job, preset)
    requires Found(store.disk, job).nextSequence + Remaining(w, 0, |preset|) + 4 <= MAX_UINT64
    modifies store`disk
    ensures Sound(store.disk) && Expected(store.disk, job, preset) && KeepsOthers(old(store.disk), store.disk, job.workloadId)
    ensures served.Rejected? <==> Found(old(store.disk), job).requestSha256 != job.requestSha256
    ensures served.Replayed? <==>
              Found(old(store.disk), job).requestSha256 == job.requestSha256 && Found(old(store.disk), job).terminal.Some?
    ensures served.Unavailable? <==> job.workloadId !in old(store.disk) && !createSave.Committed?
    ensures served.Replayed? ==> served.journal == old(store.disk)[job.workloadId]
    ensures served.Rejected? || served.Replayed? ==> store.disk == old(store.disk)
    ensures !served.Ran? ==> uploads == []
    ensures served.Ran? ==>
              && job.workloadId in store.disk
              && Logged(Found(old(store.disk), job), store.disk[job.workloadId], uploads)
              && (served.notified ==> store.disk[job.workloadId].terminal.Some?)
  {
    hide Inv, Sound, Ours, Logged, OnlyTouches, ValidJob, Remaining, RecordResult, CheckpointUnits, Units, ErrorAccepted,
      Smooth, JournalAccepted;
    var id := job.workloadId;
    uploads := [];
    JobIsIdentified(job, preset);
    FreshIsExpected(store.disk, job, preset);
    if id in store.disk {
      SoundLoads(store.disk, id);
      OpenUntilTerminal(store.disk, id);
    }
    var loaded := store.LoadOrCreate(id, job.requestSha256, createSave);
    if loaded.Err? {
      return Unavailable, [];
    }
    var (record, disposition) := loaded.value;
    if disposition.RejectIdReuse? {
      return Rejected, [];
    }
    if disposition.ReplayTerminal? {
      return Replayed(record), [];
    }
    ghost var mid := store.disk;
    var notified, out;
    notified, out, uploads := Run(store, job, preset, w, cancelled, message, retryable, closeSave);
    TouchesOthers(mid, store.disk, id);
    TouchesKeep(mid, store.disk, id);
    OpenUntilTerminal(store.disk, id);
    return Ran(notified, out), uploads;
  }

  lemma TouchesOthers(before: map<string, Journal>, after: map<string, Journal>, id: string)
    requires OnlyTouches(before, after, id)
    ensures KeepsOthers(before, after, id)
  {
    forall other | other != id
      ensures (other in before <==> other in after) && (other in before ==> after[other] == before[other])
    {
      assert other in before.Keys <==> other in after.Keys;
    }
  }

  lemma OpenUntilTerminal(disk: map<string, Journal>, id: string)
    requires Sound(disk) && id in disk
    ensures disk[id].state.InProgress? <==> disk[id].terminal.None?
  {
    SoundLoads(disk, id);
    hide CheckpointsAccepted, ManifestAccepted, Billed, Windowed, ClaimMatches;
  }
}
