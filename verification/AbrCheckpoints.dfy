/** What every checkpoint write keeps, and what a subscriber reading the journal sees. */
module AbrCheckpoints {
  import opened Basics
  import opened AbrContract
  import opened Paths
  import opened AbrJournal

  datatype Op =
    | AppendOp(body: Body)
    | PreparedOp(prepared: Prepared)
    | DeliveredOp(result: RenditionResult)
    | PreparedManifestOp(artifact: PreparedArtifact)
    | DeliveredManifestOp(uri: string)
    | ResultOp(terminal: TerminalResult)
    | ErrorOp(failure: TerminalError)

  ghost function Decide(j: Journal, op: Op): (v: Verdict)
  {
    match op
    case AppendOp(body) => if body.Progress? then AppendProgress(j, body) else Refuse
    case PreparedOp(p) => SavePrepared(j, p)
    case DeliveredOp(r) => SaveDelivered(j, r)
    case PreparedManifestOp(a) => SavePreparedManifest(j, a)
    case DeliveredManifestOp(uri) => SaveDeliveredManifest(j, uri)
    case ResultOp(result) => RecordResult(j, result)
    case ErrorOp(failure) => RecordError(j, failure)
  }

  predicate Numbers(op: Op) { op.AppendOp? || op.ResultOp? || op.ErrorOp? }

  // ------------------------------------------------------------ strengthening

  /** Checkpoints hold what a terminal result will need, beyond what a load asks. */
  predicate Billed(j: Journal)
  {
    && (forall name <- j.prepared :: name != "" && NonZero(j.prepared[name].video))
    && (forall name <- j.delivered :: ArtifactUri(j.delivered[name].playlistUri) && ArtifactUri(j.delivered[name].streamUri))
  }

  /** Sequence of the next event that is not a progress event yet. */
  function Top(j: Journal): (n: nat)
  {
    if j.terminal.Some? then j.terminal.value.sequence else j.nextSequence
  }

  /** The stored window is the most recent progress, without holes. */
  predicate Windowed(j: Journal)
  {
    && 1 <= Top(j)
    && |j.progress| == (if Top(j) - 1 < PROGRESS_WINDOW then Top(j) - 1 else PROGRESS_WINDOW)
    && (forall i :: 0 <= i < |j.progress| ==>
          j.progress[i].sequence == Top(j) - |j.progress| + i && j.progress[i].body.Progress?)
    && (j.terminal.Some? ==> j.nextSequence == j.terminal.value.sequence + 1)
  }

  function Claim(e: StoredEvent): (units: Option<uint64>)
  {
    match e.body
    case ResultBody(result) => Some(result.units)
    case ErrorBody(failure) => Some(failure.units)
    case Progress(_, _, _, _) => None
  }

  /** A closed workload bills exactly its delivered checkpoints. */
  ghost predicate ClaimMatches(j: Journal)
  {
    j.terminal.Some? ==> Claim(j.terminal.value).Some? && Claim(j.terminal.value) == CheckpointUnits(j.delivered)
  }

  ghost predicate Inv(j: Journal)
  {
    JournalAccepted(j, j.workloadId) && Billed(j) && Windowed(j) && ClaimMatches(j)
  }

  lemma FreshKeepsInv(id: string, requestSha256: string)
    requires OpaqueId(id) && IsSha256Hex(requestSha256)
    ensures Inv(Fresh(id, requestSha256))
  {
  }

  lemma AppendKeepsInv(j: Journal, body: Body)
    requires Inv(j) && body.Progress? && j.nextSequence < MAX_UINT64
    ensures AppendProgress(j, body).Save? ==> Inv(AppendProgress(j, body).next)
  {
    hide CheckpointsAccepted, ManifestAccepted, OpaqueId, IsSha256Hex, Billed;
    var v := AppendProgress(j, body);
    if v.Save? {
      SameCheckpoints(j, v.next);
    }
  }

  lemma SameCheckpoints(j: Journal, n: Journal)
    requires n.prepared == j.prepared && n.delivered == j.delivered
    requires n.manifestPrepared == j.manifestPrepared && n.manifestDelivered == j.manifestDelivered
    ensures CheckpointsAccepted(n) == CheckpointsAccepted(j) && ManifestAccepted(n) == ManifestAccepted(j) && Billed(n) == Billed(j)
  {
  }

  lemma CheckpointKeepsInv(j: Journal, op: Op)
    requires Inv(j) && !Numbers(op)
    ensures Decide(j, op).Save? ==> Inv(Decide(j, op).next)
  {
    hide ArtifactUri, SafePath, OpaqueId, IsSha256Hex, CheckpointUnits;
  }

  /** A recorded result lists the checkpoints in some order, so it bills them. */
  lemma ResultBillsCheckpoints(j: Journal, result: TerminalResult)
    requires DistinctNames(result.renditions) && ReportsCheckpoints(j, result)
    ensures Units(result.renditions) == CheckpointUnits(j.delivered)
  {
    var names := seq(|result.renditions|, i requires 0 <= i < |result.renditions| => result.renditions[i].name);
    NamesCover(names, j.delivered);
    assert Values(names, j.delivered) == result.renditions;
    AnyOrderGivesCheckpointUnits(j.delivered, names);
  }

  lemma NamesCover(names: seq<string>, m: map<string, RenditionResult>)
    requires |names| == |m| && forall i :: 0 <= i < |names| ==> names[i] in m
    requires forall i, j :: 0 <= i < j < |names| ==> names[i] != names[j]
    ensures Enumerates(names, m)
  {
    var used := set i | 0 <= i < |names| :: names[i];
    DistinctCount(names);
    assert |m.Keys| == |m|;
    SubsetOfEqualSize(used, m.Keys);
  }

  lemma {:induction false} DistinctCount(names: seq<string>)
    requires forall i, j :: 0 <= i < j < |names| ==> names[i] != names[j]
    ensures |set i | 0 <= i < |names| :: names[i]| == |names|
  {
    if names != [] {
      var init := names[..|names| - 1];
      DistinctCount(init);
      var used := set i | 0 <= i < |init| :: init[i];
      assert (set i | 0 <= i < |names| :: names[i]) == used + {names[|init|]};
    }
  }

  lemma SubsetOfEqualSize<T>(a: set<T>, b: set<T>)
    requires a <= b && |a| == |b|
    ensures a == b
  {
    assert b == a + (b - a);
    assert |b| == |a| + |b - a|;
  }

  lemma ClosingKeepsInv(j: Journal, state: JournalState, phase: string, body: Body)
    requires Inv(j) && j.state.InProgress? && !state.InProgress? && j.nextSequence < MAX_UINT64
    requires Claim(StoredEvent(j.nextSequence, body)).Some?
    requires Claim(StoredEvent(j.nextSequence, body)) == CheckpointUnits(j.delivered)
    ensures Inv(Closed(j, state, phase, body))
  {
    hide CheckpointsAccepted, ManifestAccepted, OpaqueId, IsSha256Hex, Billed, CheckpointUnits;
    SameCheckpoints(j, Closed(j, state, phase, body));
  }

  lemma TerminalKeepsInv(j: Journal, op: Op)
    requires Inv(j) && (op.ResultOp? || op.ErrorOp?) && j.nextSequence < MAX_UINT64
    ensures Decide(j, op).Save? ==> Inv(Decide(j, op).next)
  {
    hide Inv, CheckpointUnits, ReportsCheckpoints, Closed;
    if Decide(j, op).Save? {
      match op {
        case ResultOp(result) =>
          ResultBillsCheckpoints(j, result);
          ClosingKeepsInv(j, Succeeded, "succeeded", ResultBody(result));
        case ErrorOp(failure) =>
          ClosingKeepsInv(j, JournalState.Failed, "failed", ErrorBody(failure));
      }
    }
  }

  /** Every checkpoint write keeps the journal loadable, up to the one case the
      source leaves open: numbering an event after the last 64-bit sequence. */
  lemma WriteKeepsInvIffNumbered(j: Journal, op: Op)
    requires Inv(j) && Decide(j, op).Save?
    ensures var n := Decide(j, op).next;
            && (Inv(n) <==> !Numbers(op) || j.nextSequence < MAX_UINT64)
            && (JournalAccepted(n, n.workloadId) <==> !Numbers(op) || j.nextSequence < MAX_UINT64)
  {
    if !Numbers(op) {
      CheckpointKeepsInv(j, op);
    } else if j.nextSequence < MAX_UINT64 {
      if op.AppendOp? {
        AppendKeepsInv(j, op.body);
      } else {
        TerminalKeepsInv(j, op);
      }
    } else {
      hide CheckpointsAccepted, ManifestAccepted, OpaqueId, IsSha256Hex, Billed, ResultAccepted, ErrorAccepted,
        CheckpointUnits, Windowed;
    }
  }

  // ------------------------------------------------------- what only moves on

  predicate SameArtifact(a: RenditionResult, b: RenditionResult) { b.video == a.video && b.fileSize == a.fileSize }

  /** Deliveries are never withdrawn, what was made for them and what they bill
      never changes, and nothing follows the terminal event. */
  predicate Extends(a: Journal, b: Journal)
  {
    && b.workloadId == a.workloadId && b.requestSha256 == a.requestSha256
    && (forall name <- a.delivered :: name in b.delivered && SameArtifact(a.delivered[name], b.delivered[name]))
    && (forall name <- a.delivered :: name in a.prepared ==> name in b.prepared && b.prepared[name] == a.prepared[name])
    && (a.manifestDelivered != "" ==> b.manifestDelivered != "" && b.manifestPrepared == a.manifestPrepared)
    && Top(a) <= Top(b)
    && (a.terminal.Some? ==> b == a)
  }

  lemma ExtendsIsTransitive(a: Journal, b: Journal, c: Journal)
    requires Extends(a, b) && Extends(b, c)
    ensures Extends(a, c)
  {
  }

  lemma OpenUntilSaved(j: Journal, op: Op)
    requires Inv(j) && Decide(j, op).Save?
    ensures j.state.InProgress? && j.terminal.None?
    ensures op.DeliveredOp? ==> op.result.name in j.prepared && Matches(j.prepared[op.result.name], op.result)
    ensures op.DeliveredManifestOp? ==> op.uri != ""
    ensures forall name <- j.delivered :: name in j.prepared && Matches(j.prepared[name], j.delivered[name])
  {
    hide SafePath, OpaqueId, IsSha256Hex, CheckpointUnits, ResultAccepted, ErrorAccepted, ReportsCheckpoints;
  }

  lemma DeliveryExtends(j: Journal, r: RenditionResult)
    requires j.terminal.None? && r.name in j.prepared && Matches(j.prepared[r.name], r)
    requires forall name <- j.delivered :: name in j.prepared && Matches(j.prepared[name], j.delivered[name])
    ensures Extends(j, j.(delivered := j.delivered[r.name := r]))
  {
  }

  lemma KeptDeliveriesExtend(j: Journal, n: Journal)
    requires n.workloadId == j.workloadId && n.requestSha256 == j.requestSha256 && n.delivered == j.delivered
    requires forall name <- j.delivered :: name in j.prepared ==> name in n.prepared && n.prepared[name] == j.prepared[name]
    requires j.manifestDelivered != "" ==> n.manifestDelivered != "" && n.manifestPrepared == j.manifestPrepared
    requires Top(j) <= Top(n) && j.terminal.None?
    ensures Extends(j, n)
  {
  }

  lemma WriteExtends(j: Journal, op: Op)
    requires Inv(j) && Decide(j, op).Save? && (Numbers(op) ==> j.nextSequence < MAX_UINT64)
    ensures Extends(j, Decide(j, op).next)
  {
    hide Inv, ArtifactUri, PreparedAccepted, NonZero, SafePath, IsSha256Hex, LastWindow, CheckpointUnits,
      ResultAccepted, ErrorAccepted, ReportsCheckpoints;
    OpenUntilSaved(j, op);
    if op.DeliveredOp? {
      DeliveryExtends(j, op.result);
    } else {
      hide Matches, SaveDelivered;
      KeptDeliveriesExtend(j, Decide(j, op).next);
    }
  }

  /** When the delivered pixels overflow, the runner claims zero units, and no
      terminal record of any kind is ever accepted: the workload cannot close. */
  lemma OverflowNeverCloses(j: Journal, op: Op)
    requires Inv(j) && CheckpointUnits(j.delivered).None? && (op.ResultOp? || op.ErrorOp?)
    ensures Decide(j, op).Refuse?
  {
    hide SafePath, ArtifactUri, OpaqueId, IsSha256Hex;
    if op.ResultOp? && ReportsCheckpoints(j, op.terminal) && DistinctNames(op.terminal.renditions) {
      ResultBillsCheckpoints(j, op.terminal);
    }
    hide Inv, CheckpointUnits, Units;
  }

  /** A workload that is open and whose checkpoints can be counted accepts the
      error claim the coordinator computes from them. */
  lemma CountedErrorCloses(j: Journal, failure: TerminalError)
    requires Inv(j) && j.state.InProgress? && ErrorAccepted(failure)
    requires failure.workloadId == j.workloadId && failure.requestSha256 == j.requestSha256
    ensures RecordError(j, failure).Save? <==> CheckpointUnits(j.delivered) == Some(failure.units)
  {
    hide Inv, CheckpointUnits;
  }

  predicate Closes(op: Op) { op.ResultOp? || op.ErrorOp? }

  /** An open workload can be closed at all if and only if the pixels of its
      delivered checkpoints fit in 64 bits. */
  lemma ClosesIffCountable(j: Journal)
    requires Inv(j) && j.state.InProgress?
    ensures (exists op :: Closes(op) && Decide(j, op).Save?) <==> CheckpointUnits(j.delivered).Some?
  {
    var units := CheckpointUnits(j.delivered);
    if units.Some? {
      FallbackIsRedacted();
      var failure :=
        TerminalError(j.workloadId, j.requestSha256, "execution_failed", "ABR execution failed", true, units.value);
      hide CheckpointUnits, Redacted, Billed, Windowed, ClaimMatches, CheckpointsAccepted, ManifestAccepted;
      CountedErrorCloses(j, failure);
      assert Closes(ErrorOp(failure)) && Decide(j, ErrorOp(failure)).Save?;
    } else {
      hide Inv, CheckpointUnits, Decide;
      forall op | Closes(op) ensures Decide(j, op).Refuse? {
        OverflowNeverCloses(j, op);
      }
    }
  }
}
