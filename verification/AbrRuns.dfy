/** Whole histories of one workload's journal: any checkpoint writes, in any order,
    with any save outcome. */
module AbrRuns {
  import opened Basics
  import opened AbrContract
  import opened AbrJournal
  import opened AbrCheckpoints
  import opened AbrStore
  import opened Text
  import opened Paths

  /** A call of a checkpoint write and how its save ends. */
  datatype Write = Write(op: Op, save: SaveOutcome)

  ghost predicate Commits(j: Journal, w: Write)
  {
    Decide(j, w.op).Save? && !w.save.FailedBeforeRename?
  }

  /** The durable journal after the call: refused and unsaved writes leave it. */
  ghost function After(j: Journal, w: Write): (n: Journal)
  {
    if Commits(j, w) then Decide(j, w.op).next else j
  }

  /** `states[k]` is the durable journal after k calls, from creation on. */
  ghost predicate Chain(states: seq<Journal>, writes: seq<Write>)
  {
    && |states| == |writes| + 1
    && Created(states[0])
    && forall k :: 0 <= k < |writes| ==> states[k + 1] == After(states[k], writes[k])
  }

  /** The write does not number an event past the last 64-bit sequence. */
  ghost predicate HasNumber(j: Journal, w: Write)
  {
    Commits(j, w) && Numbers(w.op) ==> j.nextSequence < MAX_UINT64
  }

  ghost predicate Numbered(states: seq<Journal>, writes: seq<Write>)
    requires |states| == |writes| + 1
  {
    forall k :: 0 <= k < |writes| ==> HasNumber(states[k], writes[k])
  }

  ghost predicate History(states: seq<Journal>, writes: seq<Write>)
  {
    Chain(states, writes) && Numbered(states, writes)
  }

  ghost predicate Created(j: Journal)
  {
    exists id, requestSha256 :: OpaqueId(id) && IsSha256Hex(requestSha256) && j == Fresh(id, requestSha256)
  }

  /** A store call on a journal is one such write to it. */
  lemma StoreCallIsWrite(before: map<string, Journal>, after: map<string, Journal>, id: string, save: SaveOutcome,
                         res: Result<()>, op: Op)
    requires id in before && LoadResult(before, id) == Ok(before[id])
    requires Performs(before, after, id, save, res, op)
    ensures id in after && after[id] == After(before[id], Write(op, save))
    ensures res.Ok? <==> Decide(before[id], op).Save? && save.Committed?
  {
    assert before[id].workloadId == id;
    NextKeepsId(before[id], op);
    hide LoadResult, Decide;
  }

  lemma NextKeepsId(j: Journal, op: Op)
    ensures Decide(j, op).Save? ==> Decide(j, op).next.workloadId == j.workloadId
  {
    hide ResultAccepted, ErrorAccepted, ReportsCheckpoints, CheckpointUnits, PreparedAccepted, ArtifactUri, LastWindow;
  }

  lemma AfterKeepsInv(j: Journal, w: Write)
    requires Inv(j)
    ensures HasNumber(j, w) <==> Inv(After(j, w))
    ensures HasNumber(j, w) ==> Extends(j, After(j, w))
  {
    if Commits(j, w) {
      WriteKeepsInvIffNumbered(j, w.op);
      if HasNumber(j, w) {
        WriteExtends(j, w.op);
      }
    } else {
      JournalExtendsItself(j);
    }
    hide Inv, Decide, Extends;
  }

  lemma {:induction false} HistoriesKeepInv(states: seq<Journal>, writes: seq<Write>, k: nat)
    requires History(states, writes) && k < |states|
    ensures Inv(states[k])
  {
    hide Inv, After, HasNumber;
    if k == 0 {
      var id, requestSha256 :| OpaqueId(id) && IsSha256Hex(requestSha256) && states[0] == Fresh(id, requestSha256);
      FreshKeepsInv(id, requestSha256);
    } else {
      HistoriesKeepInv(states, writes, k - 1);
      assert states[k - 1 + 1] == After(states[k - 1], writes[k - 1]) && HasNumber(states[k - 1], writes[k - 1]);
      AfterKeepsInv(states[k - 1], writes[k - 1]);
    }
  }

  /** Every journal a history passes through can be loaded again and bills its
      checkpoints, if and only if the sequence numbers never run out. */
  lemma HistoriesStaySoundIff(states: seq<Journal>, writes: seq<Write>)
    requires Chain(states, writes)
    ensures Numbered(states, writes) <==> forall k :: 0 <= k < |states| ==> Inv(states[k])
  {
    hide Inv, After, HasNumber;
    if Numbered(states, writes) {
      forall k | 0 <= k < |states| ensures Inv(states[k]) {
        HistoriesKeepInv(states, writes, k);
      }
    }
    if forall k :: 0 <= k < |states| ==> Inv(states[k]) {
      forall k | 0 <= k < |writes| ensures HasNumber(states[k], writes[k]) {
        assert Inv(states[k]) && Inv(states[k + 1]) && states[k + 1] == After(states[k], writes[k]);
        AfterKeepsInv(states[k], writes[k]);
      }
    }
  }

  /** Whatever happens in between, a later journal extends an earlier one. */
  lemma {:induction false} HistoriesExtend(states: seq<Journal>, writes: seq<Write>, i: nat, j: nat)
    requires History(states, writes) && i <= j < |states|
    ensures Extends(states[i], states[j])
    decreases j
  {
    hide Inv, After, HasNumber;
    if i < j {
      HistoriesExtend(states, writes, i, j - 1);
      HistoriesKeepInv(states, writes, j - 1);
      assert states[j - 1 + 1] == After(states[j - 1], writes[j - 1]) && HasNumber(states[j - 1], writes[j - 1]);
      AfterKeepsInv(states[j - 1], writes[j - 1]);
      hide Extends, History;
      ExtendsIsTransitive(states[i], states[j - 1], states[j]);
    } else {
      hide *;
      JournalExtendsItself(states[j]);
    }
  }

  lemma JournalExtendsItself(j: Journal)
    ensures Extends(j, j)
  {
  }

  /** How a request is answered by the journal after k writes. */
  function Answer(j: Journal, requestSha256: string): (d: Disposition)
  {
    ClassifyReplay(j.requestSha256, requestSha256, !j.state.InProgress?)
  }

  /** Whatever is written in between, a workload ID stays with its request, and
      once its outcome is stored every identical request is answered with it and
      none starts an execution again. */
  lemma ReplayIsStable(states: seq<Journal>, writes: seq<Write>, i: nat, j: nat, requestSha256: string)
    requires History(states, writes) && i <= j < |states|
    ensures Answer(states[i], requestSha256).RejectIdReuse? <==> Answer(states[j], requestSha256).RejectIdReuse?
    ensures Answer(states[i], requestSha256).ReplayTerminal? ==>
              Answer(states[j], requestSha256).ReplayTerminal? && states[j].terminal == states[i].terminal != None
    ensures Answer(states[j], requestSha256).ResumeExisting? ==> states[i].terminal.None? && states[j].terminal.None?
  {
    HistoriesKeepInv(states, writes, i);
    HistoriesKeepInv(states, writes, j);
    HistoriesExtend(states, writes, i, j);
    hide History, CheckpointsAccepted, ManifestAccepted, Billed, Windowed, ClaimMatches, OpaqueId, IsSha256Hex;
  }

  /** Once the delivered pixels overflow, no later write ever closes the workload. */
  lemma OverflowIsForGood(states: seq<Journal>, writes: seq<Write>, i: nat, j: nat)
    requires History(states, writes) && i <= j < |states| && CheckpointUnits(states[i].delivered).None?
    ensures states[j].state.InProgress? && CheckpointUnits(states[j].delivered).None?
  {
    HistoriesKeepInv(states, writes, j);
    HistoriesExtend(states, writes, i, j);
    hide History, CheckpointUnits, CheckpointsAccepted, ManifestAccepted, Billed, Windowed, OpaqueId, IsSha256Hex;
    OverflowStays(states[i].delivered, states[j].delivered);
  }

  /** And two writes suffice to get there: a rendition whose frames times width
      leave 64 bits is accepted as prepared and as delivered. */
  lemma OverflowIsReachable()
    ensures exists states: seq<Journal>, writes: seq<Write> ::
              History(states, writes) && |writes| == 2 && CheckpointUnits(states[2].delivered).None?
  {
    hide SafePath;
    var video := Some(Video(MAX_UINT64, 2, 1));
    var prepared := Prepared("a", "a", "a", ZERO_DIGEST, ZERO_DIGEST, video, 0);
    var result := RenditionResult("a", "u", "u", video, 0);
    var writes := [Write(PreparedOp(prepared), Committed), Write(DeliveredOp(result), Committed)];
    var first := Fresh("w", ZERO_DIGEST);
    var second := first.(prepared := map["a" := prepared]);
    var third := second.(delivered := map["a" := result]);
    var states := [first, second, third];
    assert After(first, writes[0]) == second by { TwoWritesFit(prepared, result); }
    assert After(second, writes[1]) == third by { TwoWritesFit(prepared, result); }
    hide After;
    assert History(states, writes);
    AnyOrderGivesCheckpointUnits(map["a" := result], ["a"]);
    assert Values(["a"], map["a" := result]) == [result];
    assert !Countable([result][0]);
  }

  lemma TwoWritesFit(prepared: Prepared, result: RenditionResult)
    requires prepared.playlistPath == prepared.streamPath == "a" && prepared.playlistSha256 == prepared.streamSha256 == ZERO_DIGEST
    requires result.playlistUri == result.streamUri == "u"
    ensures PreparedAccepted(prepared) && ArtifactUri(result.playlistUri) && ArtifactUri(result.streamUri)
  {
    NameIsSafe("a");
    hide SafePath;
    PlainByteLength("u");
    assert !IsSpace("u"[0]);
  }
}
