/** The resumable executor: encode, upload, checkpoint, from any crash point. */
module AbrExecutor {
  import opened Basics
  import opened AbrContract
  import opened Paths
  import opened AbrJournal
  import opened AbrCheckpoints
  import opened AbrStore
  import opened Text

  datatype Destination = Destination(playlistUri: string, streamUri: string)

  /** The parts of a validated request the executor uses; `requestSha256` is its content hash. */
  datatype Job = Job(workloadId: string, requestSha256: string, manifestUri: string, destinations: map<string, Destination>)

  /** ValidateABRRequestV2 against the preset's rendition names. */
  predicate ValidJob(job: Job, preset: seq<string>)
  {
    && OpaqueId(job.workloadId) && IsSha256Hex(job.requestSha256) && ArtifactUri(job.manifestUri)
    && preset != []
    && (forall i, j :: 0 <= i < j < |preset| ==> preset[i] != preset[j])
    && (forall i :: 0 <= i < |preset| ==>
          && preset[i] in job.destinations
          && ArtifactUri(job.destinations[preset[i]].playlistUri) && ArtifactUri(job.destinations[preset[i]].streamUri))
  }

  datatype Upload = PlaylistUpload(name: string) | StreamUpload(name: string) | ManifestUpload

  /** Every place where the outside world can fail the executor or end the process. */
  datatype Site =
    | InputStage | DownloadReport | ProbeReport | ProbeStage
    | EncodeReport(i: nat, n: nat) | EncodeStage(i: nat) | PreparedSave(i: nat)
    | UploadReport(i: nat) | PlaylistPut(i: nat) | StreamPut(i: nat) | DeliveredSave(i: nat)
    | PackageReport | ManifestStage | ManifestPreparedSave | ManifestPut | ManifestDeliveredSave

  datatype Moment = Moment(crash: bool, works: bool, save: SaveOutcome)

  datatype World = World(
    at: Site -> Moment,
    inputPresent: bool,
    filesValid: nat -> bool,
    reports: nat -> nat,
    percent: (nat, nat) -> real,
    frames: (nat, nat) -> uint64,
    encoded: nat -> Prepared,
    manifestValid: bool,
    packaged: PreparedArtifact)

  /** A failure code is empty when a checkpoint write failed. */
  datatype Outcome = Finished(result: TerminalResult) | Broken(code: string) | Crashed

  type Halt = o: Outcome | !o.Finished? witness Crashed

  datatype Step<+T> = Done(value: T) | Stop(outcome: Halt)

  ghost predicate Sound(disk: map<string, Journal>)
  {
    forall id <- disk :: OpaqueId(id) && disk[id].workloadId == id && Inv(disk[id])
  }

  ghost predicate OnlyTouches(before: map<string, Journal>, after: map<string, Journal>, id: string)
  {
    after.Keys == before.Keys && forall other <- before :: other != id ==> after[other] == before[other]
  }

  /** A checkpoint write leaves the journal as it was, or moves it by that write. */
  lemma WriteEffect(before: map<string, Journal>, after: map<string, Journal>, id: string, save: SaveOutcome,
                    res: Result<()>, op: Op)
    requires Sound(before) && id in before && Performs(before, after, id, save, res, op)
    requires Numbers(op) ==> before[id].nextSequence < MAX_UINT64
    ensures Sound(after) && OnlyTouches(before, after, id)
    ensures after[id] == before[id] || (Decide(before[id], op).Save? && after[id] == Decide(before[id], op).next)
    ensures res.Ok? ==> after[id] == Decide(before[id], op).next
    ensures res.Ok? <==> Decide(before[id], op).Save? && save.Committed?
    ensures Extends(before[id], after[id])
  {
    var j := before[id];
    SoundLoads(before, id);
    VerdictIsSound(j, op);
    hide Inv, Decide, LoadResult, OpaqueId, Extends, Sound;
    var v := Decide(j, op);
    if v.Save? && !save.FailedBeforeRename? {
      assert after == before[id := v.next];
      SoundUpdate(before, id, v.next);
    } else {
      assert after == before;
    }
  }

  lemma SoundUpdate(disk: map<string, Journal>, id: string, next: Journal)
    requires Sound(disk) && id in disk && Inv(next) && next.workloadId == id
    ensures Sound(disk[id := next]) && OnlyTouches(disk, disk[id := next], id)
  {
    hide Inv, OpaqueId;
  }

  lemma SoundLoads(disk: map<string, Journal>, id: string)
    requires Sound(disk) && id in disk
    ensures Inv(disk[id]) && disk[id].workloadId == id && LoadResult(disk, id) == Ok(disk[id])
  {
    hide OpaqueId, CheckpointsAccepted, ManifestAccepted, OutcomeAccepted, Billed, Windowed, ClaimMatches;
  }

  lemma VerdictIsSound(j: Journal, op: Op)
    requires Inv(j) && (Numbers(op) ==> j.nextSequence < MAX_UINT64)
    ensures Decide(j, op).Save? ==> Inv(Decide(j, op).next) && Extends(j, Decide(j, op).next)
    ensures Decide(j, op).Save? ==> Decide(j, op).next.workloadId == j.workloadId
    ensures Extends(j, j)
  {
    if Decide(j, op).Save? {
      WriteKeepsInvIffNumbered(j, op);
      WriteExtends(j, op);
    }
    hide Inv, Decide;
  }

  // ------------------------------------------------- what a few steps may change

  /** Only progress was reported, at most `count` times. */
  predicate Reported(r: Journal, n: Journal, count: nat)
  {
    && n == r.(nextSequence := n.nextSequence, phase := n.phase, progress := n.progress)
    && r.nextSequence <= n.nextSequence <= r.nextSequence + count
  }

  /** Besides progress, only the checkpoints of one rendition moved. */
  predicate MovedOnly(r: Journal, n: Journal, name: string, count: nat)
  {
    && n == r.(nextSequence := n.nextSequence, phase := n.phase, progress := n.progress, prepared := n.prepared, delivered := n.delivered)
    && r.nextSequence <= n.nextSequence <= r.nextSequence + count
    && n.prepared - {name} == r.prepared - {name} && n.delivered - {name} == r.delivered - {name}
    && (name in r.prepared ==> name in n.prepared)
    && (name in r.delivered ==> name in n.delivered && n.delivered[name] == r.delivered[name])
  }

  lemma ReportedMovesNothing(r: Journal, n: Journal, name: string, count: nat)
    requires Reported(r, n, count)
    ensures MovedOnly(r, n, name, count)
  {
  }

  lemma MovesCompose(a: Journal, b: Journal, c: Journal, name: string, m: nat, n: nat)
    requires MovedOnly(a, b, name, m) && MovedOnly(b, c, name, n)
    ensures MovedOnly(a, c, name, m + n)
  {
  }

  // ------------------------------------------------------------ a calm world

  predicate Calm(m: Moment) { !m.crash && m.works && m.save.Committed? }

  /** A name that is one clean path element. */
  predicate PresetNameOk(name: string) { SafePath(name) && forall i :: 0 <= i < |name| ==> name[i] != '/' }

  /** What the encoder leaves behind can be checkpointed, under whatever name. */
  predicate Encodes(p: Prepared)
  {
    PreparedAccepted(p) && NonZero(p.video) && p.playlistPath != "" && p.streamPath != ""
  }

  /** No crash, every stage works, every save is committed, and the encoder and
      the packager leave valid files. */
  ghost predicate Smooth(preset: seq<string>, w: World)
  {
    && (forall site :: Calm(w.at(site)))
    && (forall k, n :: 0.0 <= w.percent(k, n) <= 100.0)
    && (forall k :: Encodes(w.encoded(k)))
    && SafePath(w.packaged.path) && IsSha256Hex(w.packaged.sha256)
    && (forall i :: 0 <= i < |preset| ==> PresetNameOk(preset[i]))
  }

  lemma SmoothSite(preset: seq<string>, w: World, site: Site)
    ensures Smooth(preset, w) ==> Calm(w.at(site))
  {
    hide Encodes, PresetNameOk, SafePath, IsSha256Hex;
  }

  lemma SmoothRendition(preset: seq<string>, w: World, k: nat)
    requires k < |preset|
    ensures Smooth(preset, w) ==> PresetNameOk(preset[k]) && Encodes(w.encoded(k))
    ensures PresetNameOk(preset[k]) ==> preset[k] != ""
  {
    hide Encodes, IsSha256Hex;
    if preset[k] == "" {
      assert Split(preset[k], '/')[0] == "" && "" in Split(preset[k], '/');
    }
  }

  // -------------------------------------------- what is delivered, and who is to blame

  /** The prepared rendition an execution delivers: the checkpoint it found, as long
      as its files are still valid, or else what it encodes. */
  function Made(w: World, found: map<string, Prepared>, preset: seq<string>, k: nat): (p: Prepared)
    requires k < |preset|
  {
    if preset[k] in found && w.filesValid(k) then found[preset[k]] else w.encoded(k).(name := preset[k])
  }

  /** A delivered rendition names the requested destinations and what was made. */
  predicate Carries(job: Job, p: Prepared, r: RenditionResult)
  {
    && r.name == p.name && r.name in job.destinations
    && r.playlistUri == job.destinations[r.name].playlistUri && r.streamUri == job.destinations[r.name].streamUri
    && r.video == p.video && r.fileSize == p.fileSize
  }

  /** Every rendition delivered between two journals is what this execution made of
      it, under the destinations of the request; its prepared checkpoint agrees. */
  ghost predicate Products(job: Job, preset: seq<string>, w: World, j0: Journal, j: Journal)
  {
    forall k :: 0 <= k < |preset| && preset[k] in j.delivered && preset[k] !in j0.delivered ==>
      && preset[k] in j.prepared && j.prepared[preset[k]] == Made(w, j0.prepared, preset, k)
      && Carries(job, j.prepared[preset[k]], j.delivered[preset[k]])
  }

  /** A failure code names a stage that did go wrong; it is empty for a checkpoint
      write, and there is no crash without one. */
  ghost predicate Blamed(preset: seq<string>, w: World, o: Outcome)
  {
    && (o.Crashed? ==> exists site :: w.at(site).crash)
    && (o.Broken? ==>
          o.code in {"", "download_failed", "probe_failed", "encode_failed", "upload_failed", "storage_failed", "preset_invalid",
                     "usage_failed"})
    && (o == Broken("download_failed") ==> !w.inputPresent && !w.at(InputStage).works)
    && (o == Broken("probe_failed") ==> !w.at(ProbeStage).works)
    && (o == Broken("encode_failed") ==> exists k :: 0 <= k < |preset| && !w.at(EncodeStage(k)).works)
    && (o == Broken("upload_failed") ==>
          || !w.at(ManifestPut).works
          || exists k :: 0 <= k < |preset| && (!w.at(PlaylistPut(k)).works || !w.at(StreamPut(k)).works))
    && (o == Broken("storage_failed") ==> !w.at(ManifestStage).works)
    && (o == Broken("preset_invalid") ==> exists k :: 0 <= k < |preset| && !PresetNameOk(preset[k]))
  }

  lemma CrashIsBlamed(preset: seq<string>, w: World, site: Site)
    ensures w.at(site).crash ==> Blamed(preset, w, Crashed)
  {
  }

  function RenditionPercent(index: nat, count: nat, within: real): (percent: real)
  {
    if count == 0 then 5.0 else 5.0 + ((index as real + within / 100.0) / count as real) * 90.0
  }

  /** A stage outside the store: it works, it fails with its code, or the process dies. */
  method Stage(m: Moment, code: string) returns (s: Step<()>)
    ensures s == if m.crash then Stop(Crashed) else if m.works then Done(()) else Stop(Broken(code))
  {
    if m.crash {
      return Stop(Crashed);
    }
    return if m.works then Done(()) else Stop(Broken(code));
  }

  predicate IsPercent(percent: real) { 0.0 <= percent <= 100.0 }

  lemma RenditionPercentFits(index: nat, count: nat, within: real)
    requires index < count && IsPercent(within)
    ensures IsPercent(RenditionPercent(index, count, within))
  {
    var done, all := index as real + within / 100.0, count as real;
    assert index as real + 1.0 <= all && 0.0 <= done <= all;
    assert 0.0 <= done / all <= 1.0;
  }

  /** Overall progress starts at 5, ends at 95, goes on from one rendition to the
      next where the last one ended, and never falls. */
  lemma ProgressRunsUp(i: nat, a: real, j: nat, b: real, count: nat)
    requires i < count && j < count && IsPercent(a) && IsPercent(b) && (i < j || (i == j && a <= b))
    ensures RenditionPercent(i, count, a) <= RenditionPercent(j, count, b)
    ensures RenditionPercent(0, count, 0.0) == 5.0 && RenditionPercent(count - 1, count, 100.0) == 95.0
    ensures i + 1 < count ==> RenditionPercent(i, count, 100.0) == RenditionPercent(i + 1, count, 0.0)
  {
    var all := count as real;
    assert i < j ==> i as real + 1.0 <= j as real;
    DividesUp(i as real + a / 100.0, j as real + b / 100.0, all);
    WholeIsOne(all);
    assert (count - 1) as real + 100.0 / 100.0 == all;
  }

  lemma WholeIsOne(all: real)
    requires all > 0.0
    ensures all / all == 1.0 && 0.0 / all == 0.0
  {
  }

  lemma DividesUp(x: real, y: real, all: real)
    requires x <= y && all > 0.0
    ensures x / all <= y / all
  {
  }

  method Report(store: FileWorkloadStore, id: string, phase: string, percent: real, name: string, frames: uint64,
                m: Moment)
    returns (s: Step<()>)
    requires Sound(store.disk) && id in store.disk && store.disk[id].nextSequence < MAX_UINT64
    modifies store`disk
    ensures Sound(store.disk) && OnlyTouches(old(store.disk), store.disk, id)
    ensures Reported(old(store.disk)[id], store.disk[id], 1)
    ensures Calm(m) && old(store.disk)[id].state.InProgress? && phase in PHASES && IsPercent(percent) ==> s.Done?
    ensures s.Stop? && s.outcome.Crashed? <==> m.crash
    ensures s.Stop? ==> s.outcome == if m.crash then Crashed else Broken("")
    ensures s.Done? ==> Decide(old(store.disk)[id], AppendOp(Progress(phase, percent, name, frames))) == Save(store.disk[id])
  {
    hide Inv, Sound, Performs, Extends, OnlyTouches, LastWindow;
    SoundNumbers(store.disk, id);
    if m.crash {
      NothingTouched(store.disk, id);
      return Stop(Crashed);
    }
    var body := Progress(phase, percent, name, frames);
    var res := store.AppendProgress(id, body, m.save);
    WriteEffect(old(store.disk), store.disk, id, m.save, res, AppendOp(body));
    return if res.Ok? then Done(()) else Stop(Broken(""));
  }

  lemma SoundNumbers(disk: map<string, Journal>, id: string)
    requires Sound(disk) && id in disk
    ensures disk[id].nextSequence != 0
  {
    hide OpaqueId, CheckpointsAccepted, ManifestAccepted, Billed, Windowed, ClaimMatches;
  }

  lemma NothingTouched(disk: map<string, Journal>, id: string)
    ensures OnlyTouches(disk, disk, id)
  {
  }

  lemma TouchesCompose(a: map<string, Journal>, b: map<string, Journal>, c: map<string, Journal>, id: string)
    requires OnlyTouches(a, b, id) && OnlyTouches(b, c, id)
    ensures OnlyTouches(a, c, id)
  {
  }

  /** The encode of one rendition, ending in its prepared checkpoint. A report
      that fails kills the encoder; one that has already exited cleanly makes
      the failure go unnoticed. */
  method EncodeRendition(store: FileWorkloadStore, id: string, preset: seq<string>, k: nat, w: World)
    returns (s: Step<Prepared>)
    requires Sound(store.disk) && id in store.disk && k < |preset| && preset[k] !in store.disk[id].delivered
    requires store.disk[id].nextSequence + w.reports(k) + 1 <= MAX_UINT64
    modifies store`disk
    ensures Sound(store.disk) && OnlyTouches(old(store.disk), store.disk, id)
    ensures MovedOnly(old(store.disk)[id], store.disk[id], preset[k], w.reports(k) + 1)
    ensures store.disk[id].delivered == old(store.disk)[id].delivered
    ensures s.Done? ==> preset[k] in store.disk[id].prepared && store.disk[id].prepared[preset[k]] == s.value
    ensures s.Done? ==> s.value == w.encoded(k).(name := preset[k])
    ensures Smooth(preset, w) && old(store.disk)[id].state.InProgress? ==> s.Done?
    ensures s.Stop? ==> Blamed(preset, w, s.outcome)
  {
    hide Inv, Sound, OnlyTouches, Smooth, PresetNameOk, Reported, MovedOnly;
    CrashIsBlamed(preset, w, EncodeStage(k));
    CrashIsBlamed(preset, w, PreparedSave(k));
    var name := preset[k];
    var encoding := ReportEncoding(store, id, preset, k, w);
    TouchesKeep(old(store.disk), store.disk, id);
    ReportedCheckpoints(old(store.disk)[id], store.disk[id], w.reports(k) + 1);
    ReportedMovesNothing(old(store.disk)[id], store.disk[id], name, w.reports(k) + 1);
    ReportedAtMost(old(store.disk)[id], store.disk[id], w.reports(k) + 1);
    if encoding.Stop? {
      return Stop(encoding.outcome);
    }
    SmoothSite(preset, w, EncodeStage(k));
    var encoded := Stage(w.at(EncodeStage(k)), "encode_failed");
    if encoded.Stop? {
      return Stop(encoded.outcome);
    }
    SmoothRendition(preset, w, k);
    SmoothSite(preset, w, PreparedSave(k));
    var prepared := w.encoded(k).(name := name);
    var m := w.at(PreparedSave(k));
    if m.crash {
      return Stop(Crashed);
    }
    ghost var mid := store.disk;
    var saved := Checkpoint(store, id, prepared, m.save);
    TouchesCompose(old(store.disk), mid, store.disk, id);
    MovesCompose(old(store.disk)[id], mid[id], store.disk[id], name, w.reports(k) + 1, 0);
    return if saved then Done(prepared) else Stop(Broken(""));
  }

  /** The progress reports of one encode: one before it, and some while it runs. */
  method ReportEncoding(store: FileWorkloadStore, id: string, preset: seq<string>, k: nat, w: World)
    returns (s: Step<()>)
    requires Sound(store.disk) && id in store.disk && k < |preset|
    requires store.disk[id].nextSequence + w.reports(k) + 1 <= MAX_UINT64
    modifies store`disk
    ensures Sound(store.disk) && OnlyTouches(old(store.disk), store.disk, id)
    ensures Reported(old(store.disk)[id], store.disk[id], w.reports(k) + 1)
    ensures Smooth(preset, w) && old(store.disk)[id].state.InProgress? ==> s.Done?
    ensures s.Stop? ==> Blamed(preset, w, s.outcome)
  {
    hide Inv, Sound, OnlyTouches, Smooth, RenditionPercent;
    NothingTouched(store.disk, id);
    for n := 0 to w.reports(k) + 1
      invariant Sound(store.disk) && OnlyTouches(old(store.disk), store.disk, id) && id in store.disk
      invariant Reported(old(store.disk)[id], store.disk[id], n)
    {
      ghost var mid := store.disk;
      SmoothPercent(preset, w, k, n);
      SmoothSite(preset, w, EncodeReport(k, n));
      CrashIsBlamed(preset, w, EncodeReport(k, n));
      var percent := RenditionPercent(k, |preset|, if n == 0 then 5.0 else w.percent(k, n));
      var frames := if n == 0 then 0 else w.frames(k, n);
      var reported := Report(store, id, "encoding", percent, preset[k], frames, w.at(EncodeReport(k, n)));
      TouchesCompose(old(store.disk), mid, store.disk, id);
      if reported.Stop? {
        if n == 0 || reported.outcome.Crashed? || !w.at(EncodeReport(k, n)).works {
          return reported;
        }
        return Done(());
      }
    }
    return Done(());
  }

  lemma SmoothPercent(preset: seq<string>, w: World, k: nat, n: nat)
    requires k < |preset|
    ensures IsPercent(RenditionPercent(k, |preset|, 5.0))
    ensures Smooth(preset, w) ==> IsPercent(RenditionPercent(k, |preset|, w.percent(k, n)))
  {
    RenditionPercentFits(k, |preset|, 5.0);
    hide Encodes, PresetNameOk, SafePath, IsSha256Hex, RenditionPercent;
    if Smooth(preset, w) {
      assert 0.0 <= w.percent(k, n) <= 100.0;
      RenditionPercentFits(k, |preset|, w.percent(k, n));
    }
  }

  /** The prepared checkpoint of an encoded rendition. */
  method Checkpoint(store: FileWorkloadStore, id: string, prepared: Prepared, save: SaveOutcome) returns (saved: bool)
    requires Sound(store.disk) && id in store.disk && prepared.name !in store.disk[id].delivered
    modifies store`disk
    ensures Sound(store.disk) && OnlyTouches(old(store.disk), store.disk, id)
    ensures MovedOnly(old(store.disk)[id], store.disk[id], prepared.name, 0)
    ensures store.disk[id].delivered == old(store.disk)[id].delivered
    ensures saved ==> prepared.name in store.disk[id].prepared && store.disk[id].prepared[prepared.name] == prepared
    ensures save.Committed? && old(store.disk)[id].state.InProgress? && prepared.name != "" && Encodes(prepared) ==> saved
  {
    hide Inv, Sound, Performs, Extends, OnlyTouches, PreparedAccepted;
    var res := store.SavePrepared(id, prepared, save);
    WriteEffect(old(store.disk), store.disk, id, save, res, PreparedOp(prepared));
    return res.Ok?;
  }

  /** Uploads of one rendition so far: none, the playlist, or playlist then stream. */
  predicate PutsOf(name: string, puts: seq<Upload>)
  {
    puts == [] || puts == [PlaylistUpload(name)] || puts == [PlaylistUpload(name), StreamUpload(name)]
  }

  predicate BothPut(name: string, uploads: seq<Upload>)
  {
    PlaylistUpload(name) in uploads && StreamUpload(name) in uploads
  }

  /** Upload a prepared rendition and make its delivery durable. */
  method PutRendition(store: FileWorkloadStore, id: string, job: Job, preset: seq<string>, k: nat,
                      prepared: Prepared, w: World)
    returns (s: Step<RenditionResult>, puts: seq<Upload>)
    requires Sound(store.disk) && id in store.disk && k < |preset| && preset[k] in job.destinations
    requires prepared.name == preset[k] && preset[k] in store.disk[id].prepared && store.disk[id].prepared[preset[k]] == prepared
    requires preset[k] !in store.disk[id].delivered && store.disk[id].nextSequence < MAX_UINT64
    modifies store`disk
    ensures Sound(store.disk) && OnlyTouches(old(store.disk), store.disk, id)
    ensures MovedOnly(old(store.disk)[id], store.disk[id], preset[k], 1)
    ensures store.disk[id].prepared == old(store.disk)[id].prepared && PutsOf(preset[k], puts)
    ensures preset[k] in store.disk[id].delivered ==> BothPut(preset[k], puts)
    ensures s.Done? ==> preset[k] in store.disk[id].delivered && store.disk[id].delivered[preset[k]] == s.value
    ensures preset[k] in store.disk[id].delivered ==> Carries(job, prepared, store.disk[id].delivered[preset[k]])
    ensures ValidJob(job, preset) && Smooth(preset, w) && old(store.disk)[id].state.InProgress? ==> s.Done?
    ensures s.Stop? ==> Blamed(preset, w, s.outcome)
  {
    hide Inv, Sound, Smooth, Blamed, Carries, OnlyTouches, MovedOnly, Reported, ValidJob, ArtifactUri, Matches;
    var name := preset[k];
    ghost var disk0 := store.disk;
    var put;
    put, puts := PutFiles(store, id, preset, k, prepared, w);
    ghost var disk1 := store.disk;
    TouchesKeep(disk0, disk1, id);
    ReportedMovesNothing(disk0[id], disk1[id], name, 1);
    ReportedCheckpoints(disk0[id], disk1[id], 1);
    if put.Stop? {
      return Stop(put.outcome), puts;
    }
    var destination := job.destinations[name];
    var result := RenditionResult(name, destination.playlistUri, destination.streamUri, prepared.video, prepared.fileSize);
    ResultCarries(job, prepared, result);
    s := DeliverAs(store, id, result, w.at(DeliveredSave(k)));
    TouchesCompose(disk0, disk1, store.disk, id);
    MovesCompose(disk0[id], disk1[id], store.disk[id], name, 1, 0);
    SmoothPuts(preset, w, k);
    PutsAreBlamed(preset, w, k);
    DestinationsAreUris(job, preset, k);
  }

  /** The delivered checkpoint, unless the process dies first. */
  method DeliverAs(store: FileWorkloadStore, id: string, result: RenditionResult, m: Moment) returns (s: Step<RenditionResult>)
    requires Sound(store.disk) && id in store.disk && result.name in store.disk[id].prepared
    requires result.name !in store.disk[id].delivered && Matches(store.disk[id].prepared[result.name], result)
    modifies store`disk
    ensures Sound(store.disk) && OnlyTouches(old(store.disk), store.disk, id) && id in store.disk
    ensures MovedOnly(old(store.disk)[id], store.disk[id], result.name, 0)
    ensures store.disk[id].prepared == old(store.disk)[id].prepared
    ensures result.name in store.disk[id].delivered ==> store.disk[id].delivered[result.name] == result
    ensures s.Done? ==> result.name in store.disk[id].delivered && s.value == result
    ensures s.Stop? ==> s.outcome == if m.crash then Crashed else Broken("")
    ensures Calm(m) && old(store.disk)[id].state.InProgress? && ArtifactUri(result.playlistUri) && ArtifactUri(result.streamUri) ==>
              s.Done?
  {
    hide Inv, Sound, OnlyTouches, ArtifactUri, Matches;
    NothingTouched(store.disk, id);
    if m.crash {
      return Stop(Crashed);
    }
    var saved := Deliver(store, id, result, m.save);
    TouchesKeep(old(store.disk), store.disk, id);
    return if saved then Done(result) else Stop(Broken(""));
  }

  /** The two uploads of one rendition, playlist first. */
  method PutFiles(store: FileWorkloadStore, id: string, preset: seq<string>, k: nat, prepared: Prepared, w: World)
    returns (s: Step<()>, puts: seq<Upload>)
    requires Sound(store.disk) && id in store.disk && k < |preset| && store.disk[id].nextSequence < MAX_UINT64
    modifies store`disk
    ensures Sound(store.disk) && OnlyTouches(old(store.disk), store.disk, id)
    ensures Reported(old(store.disk)[id], store.disk[id], 1) && PutsOf(preset[k], puts)
    ensures s.Done? ==> BothPut(preset[k], puts)
    ensures Smooth(preset, w) && old(store.disk)[id].state.InProgress? ==> s.Done?
    ensures s.Stop? ==> Blamed(preset, w, s.outcome)
  {
    hide Inv, Sound, Smooth, Blamed, OnlyTouches, Reported, RenditionPercent, Decide, IsPercent;
    var frames := if prepared.video.Some? then prepared.video.value.frames else 0;
    RenditionPercentFits(k, |preset|, 90.0);
    SmoothPuts(preset, w, k);
    s := Report(store, id, "uploading", RenditionPercent(k, |preset|, 90.0), preset[k], frames, w.at(UploadReport(k)));
    puts := [];
    if s.Done? {
      puts := [PlaylistUpload(preset[k])];
      s := Stage(w.at(PlaylistPut(k)), "upload_failed");
      if s.Done? {
        puts := puts + [StreamUpload(preset[k])];
        s := Stage(w.at(StreamPut(k)), "upload_failed");
      }
    }
    PutsAreBlamed(preset, w, k);
  }

  lemma ResultCarries(job: Job, p: Prepared, r: RenditionResult)
    requires p.name in job.destinations
    requires r == RenditionResult(p.name, job.destinations[p.name].playlistUri, job.destinations[p.name].streamUri, p.video, p.fileSize)
    ensures Carries(job, p, r) && Matches(p, r)
  {
  }

  lemma PutsAreBlamed(preset: seq<string>, w: World, k: nat)
    requires k < |preset|
    ensures w.at(UploadReport(k)).crash || w.at(PlaylistPut(k)).crash || w.at(StreamPut(k)).crash || w.at(DeliveredSave(k)).crash ==>
              Blamed(preset, w, Crashed)
    ensures !w.at(PlaylistPut(k)).works || !w.at(StreamPut(k)).works ==> Blamed(preset, w, Broken("upload_failed"))
    ensures Blamed(preset, w, Broken(""))
  {
    CrashIsBlamed(preset, w, UploadReport(k));
    CrashIsBlamed(preset, w, PlaylistPut(k));
    CrashIsBlamed(preset, w, StreamPut(k));
    CrashIsBlamed(preset, w, DeliveredSave(k));
  }

  lemma SmoothPuts(preset: seq<string>, w: World, k: nat)
    ensures Smooth(preset, w) ==>
              Calm(w.at(UploadReport(k))) && Calm(w.at(PlaylistPut(k))) && Calm(w.at(StreamPut(k))) && Calm(w.at(DeliveredSave(k)))
  {
    hide Encodes, PresetNameOk, SafePath, IsSha256Hex;
  }

  lemma DestinationsAreUris(job: Job, preset: seq<string>, k: nat)
    requires k < |preset| && preset[k] in job.destinations
    ensures ValidJob(job, preset) ==>
              ArtifactUri(job.destinations[preset[k]].playlistUri) && ArtifactUri(job.destinations[preset[k]].streamUri)
  {
  }

  lemma ReportedCheckpoints(r: Journal, n: Journal, count: nat)
    requires Reported(r, n, count)
    ensures n.prepared == r.prepared && n.delivered == r.delivered && n.state == r.state
    ensures n.manifestPrepared == r.manifestPrepared && n.manifestDelivered == r.manifestDelivered
  {
  }

  /** The delivered checkpoint of an uploaded rendition. */
  method Deliver(store: FileWorkloadStore, id: string, result: RenditionResult, save: SaveOutcome) returns (saved: bool)
    requires Sound(store.disk) && id in store.disk && result.name in store.disk[id].prepared
    requires result.name !in store.disk[id].delivered && Matches(store.disk[id].prepared[result.name], result)
    modifies store`disk
    ensures Sound(store.disk) && OnlyTouches(old(store.disk), store.disk, id)
    ensures MovedOnly(old(store.disk)[id], store.disk[id], result.name, 0)
    ensures store.disk[id].prepared == old(store.disk)[id].prepared
    ensures saved ==> result.name in store.disk[id].delivered && store.disk[id].delivered[result.name] == result
    ensures result.name in store.disk[id].delivered ==> store.disk[id].delivered[result.name] == result
    ensures save.Committed? && old(store.disk)[id].state.InProgress? && ArtifactUri(result.playlistUri) && ArtifactUri(result.streamUri) ==>
              saved
  {
    hide Inv, Sound, Performs, Extends, OnlyTouches, ArtifactUri;
    var res := store.SaveDelivered(id, result, save);
    WriteEffect(old(store.disk), store.disk, id, save, res, DeliveredOp(result));
    return res.Ok?;
  }

  /** One turn of the rendition loop, for a rendition without a delivered checkpoint. */
  method DeliverRendition(store: FileWorkloadStore, id: string, job: Job, preset: seq<string>, k: nat,
                          record: Journal, w: World)
    returns (s: Step<RenditionResult>, puts: seq<Upload>)
    requires Sound(store.disk) && id in store.disk && k < |preset| && preset[k] in job.destinations
    requires preset[k] !in store.disk[id].delivered
    requires preset[k] in record.prepared ==> preset[k] in store.disk[id].prepared && store.disk[id].prepared[preset[k]] == record.prepared[preset[k]]
    requires store.disk[id].nextSequence + w.reports(k) + 2 <= MAX_UINT64
    modifies store`disk
    ensures Sound(store.disk) && OnlyTouches(old(store.disk), store.disk, id)
    ensures MovedOnly(old(store.disk)[id], store.disk[id], preset[k], w.reports(k) + 2)
    ensures preset[k] in store.disk[id].delivered ==>
              && preset[k] in store.disk[id].prepared && store.disk[id].prepared[preset[k]] == Made(w, record.prepared, preset, k)
              && Carries(job, store.disk[id].prepared[preset[k]], store.disk[id].delivered[preset[k]])
    ensures ValidJob(job, preset) && Smooth(preset, w) && old(store.disk)[id].state.InProgress? ==> s.Done?
    ensures s.Stop? ==> Blamed(preset, w, s.outcome)
    ensures PutsOf(preset[k], puts) && (puts != [] ==> preset[k] in store.disk[id].prepared)
    ensures preset[k] in store.disk[id].delivered ==> BothPut(preset[k], puts)
    ensures s.Done? ==> preset[k] in store.disk[id].delivered && store.disk[id].delivered[preset[k]] == s.value
  {
    hide Inv, Sound, Smooth, ValidJob, Blamed, Carries;
    var name := preset[k];
    NothingTouched(store.disk, id);
    var prepared;
    if name in record.prepared && w.filesValid(k) {
      prepared := record.prepared[name];
      PreparedIsNamed(store.disk, id, name);
    } else {
      var encoded := EncodeRendition(store, id, preset, k, w);
      if encoded.Stop? {
        return Stop(encoded.outcome), [];
      }
      prepared := encoded.value;
    }
    ghost var mid := store.disk;
    s, puts := PutRendition(store, id, job, preset, k, prepared, w);
    TouchesCompose(old(store.disk), mid, store.disk, id);
  }

  lemma PreparedIsNamed(disk: map<string, Journal>, id: string, name: string)
    requires Sound(disk) && id in disk && name in disk[id].prepared
    ensures disk[id].prepared[name].name == name
  {
    SoundLoads(disk, id);
  }

  // ------------------------------------------------------------ one execution

  /** The journal belongs to this request: only its renditions were delivered. */
  ghost predicate Ours(job: Job, preset: seq<string>, j: Journal)
  {
    && j.workloadId == job.workloadId && j.requestSha256 == job.requestSha256 && j.state.InProgress?
    && (forall name <- j.delivered :: name in preset)
    && j.manifestDelivered in {"", job.manifestUri}
  }

  /** How the uploads of one execution, its first journal `j0` and its current
      journal `j` hang together: nothing delivered before is uploaded, nothing is
      uploaded twice or unprepared, and nothing counts as delivered without it. */
  ghost predicate Logged(j0: Journal, j: Journal, uploads: seq<Upload>)
  {
    && (forall a, b :: 0 <= a < b < |uploads| ==> uploads[a] != uploads[b])
    && (forall u <- uploads :: if u.ManifestUpload? then j0.manifestDelivered == "" else u.name !in j0.delivered && u.name in j.prepared)
    && (forall name <- j0.delivered :: name in j.delivered && j.delivered[name] == j0.delivered[name])
    && (forall name <- j.delivered :: name in j0.delivered || BothPut(name, uploads))
    && (j.manifestDelivered != "" ==> j0.manifestDelivered != "" || ManifestUpload in uploads)
    && (j0.manifestDelivered != "" ==> j.manifestDelivered == j0.manifestDelivered)
  }

  predicate SameCheckpoint(r: Journal, j: Journal, name: string)
  {
    && (name in r.prepared <==> name in j.prepared) && (name in r.prepared ==> r.prepared[name] == j.prepared[name])
    && (name in r.delivered <==> name in j.delivered) && (name in r.delivered ==> r.delivered[name] == j.delivered[name])
  }

  /** The state of the rendition loop before turn k. */
  ghost predicate Midway(preset: seq<string>, j0: Journal, record: Journal, j: Journal, k: nat,
                         uploads: seq<Upload>, results: seq<RenditionResult>)
    requires k <= |preset|
  {
    && Logged(j0, j, uploads) && |results| == k
    && (forall i :: k <= i < |preset| ==>
          SameCheckpoint(record, j, preset[i]) && PlaylistUpload(preset[i]) !in uploads && StreamUpload(preset[i]) !in uploads)
    && (forall i :: 0 <= i < k ==> preset[i] in j.delivered && j.delivered[preset[i]] == results[i])
    && ManifestUpload !in uploads
    && j.manifestPrepared == record.manifestPrepared && j.manifestDelivered == record.manifestDelivered
    && record.manifestDelivered == j0.manifestDelivered
    && (forall name <- j0.delivered :: name in record.delivered) && (forall name <- record.delivered :: name in j0.delivered)
  }

  predicate DistinctPreset(preset: seq<string>)
  {
    forall i, j :: 0 <= i < j < |preset| ==> preset[i] != preset[j]
  }

  lemma SkipTurn(preset: seq<string>, j0: Journal, record: Journal, j: Journal, k: nat, uploads: seq<Upload>,
                 results: seq<RenditionResult>)
    requires k < |preset| && Midway(preset, j0, record, j, k, uploads, results) && preset[k] in record.delivered
    ensures Midway(preset, j0, record, j, k + 1, uploads, results + [record.delivered[preset[k]]])
  {
    hide Logged;
    assert SameCheckpoint(record, j, preset[k]);
  }

  lemma TurnIsLogged(preset: seq<string>, j0: Journal, record: Journal, j: Journal, n: Journal, k: nat,
                     uploads: seq<Upload>,
                     results: seq<RenditionResult>, puts: seq<Upload>, count: nat)
    requires k < |preset| && Midway(preset, j0, record, j, k, uploads, results) && preset[k] !in record.delivered
    requires MovedOnly(j, n, preset[k], count) && PutsOf(preset[k], puts) && (puts != [] ==> preset[k] in n.prepared)
    requires preset[k] in n.delivered ==> BothPut(preset[k], puts)
    ensures Logged(j0, n, uploads + puts)
  {
    var name, all := preset[k], uploads + puts;
    assert SameCheckpoint(record, j, name);
    forall a, b | 0 <= a < b < |all| ensures all[a] != all[b] {
      if b >= |uploads| && a < |uploads| {
        assert all[a] in uploads && all[b] in puts;
      }
    }
    forall u | u in all
      ensures if u.ManifestUpload? then j0.manifestDelivered == "" else u.name !in j0.delivered && u.name in n.prepared
    {
      if u in uploads && !u.ManifestUpload? && u.name != name {
        assert u.name in j.prepared - {name};
      }
    }
    forall other | other in j0.delivered ensures other in n.delivered && n.delivered[other] == j0.delivered[other] {
      assert other != name && other in j.delivered - {name};
    }
    forall other | other in n.delivered ensures other in j0.delivered || BothPut(other, all) {
      if other != name {
        assert other in n.delivered - {name};
        assert other in j.delivered;
      }
    }
  }

  lemma TurnIsDone(preset: seq<string>, j0: Journal, record: Journal, j: Journal, n: Journal, k: nat,
                   uploads: seq<Upload>,
                   results: seq<RenditionResult>, puts: seq<Upload>, count: nat)
    requires k < |preset| && Midway(preset, j0, record, j, k, uploads, results) && DistinctPreset(preset)
    requires MovedOnly(j, n, preset[k], count) && PutsOf(preset[k], puts) && Logged(j0, n, uploads + puts)
    requires preset[k] in n.delivered
    ensures Midway(preset, j0, record, n, k + 1, uploads + puts, results + [n.delivered[preset[k]]])
  {
    hide Logged;
    var name := preset[k];
    forall i | k + 1 <= i < |preset|
      ensures SameCheckpoint(record, n, preset[i]) && PlaylistUpload(preset[i]) !in uploads + puts && StreamUpload(preset[i]) !in uploads + puts
    {
      assert SameCheckpoint(record, j, preset[i]) && preset[i] != name;
      assert preset[i] in j.prepared - {name} <==> preset[i] in n.prepared - {name};
      assert preset[i] in j.delivered - {name} <==> preset[i] in n.delivered - {name};
      if preset[i] in j.prepared { assert (j.prepared - {name})[preset[i]] == (n.prepared - {name})[preset[i]]; }
      if preset[i] in j.delivered { assert (j.delivered - {name})[preset[i]] == (n.delivered - {name})[preset[i]]; }
    }
    forall i | 0 <= i < k ensures preset[i] in n.delivered && n.delivered[preset[i]] == results[i] {
      assert preset[i] != name;
      assert (j.delivered - {name})[preset[i]] == (n.delivered - {name})[preset[i]];
    }
  }

  /** Progress events the turns from k on may still report. */
  function Remaining(w: World, k: nat, n: nat): (count: nat)
    decreases n - k
  {
    if k >= n then 0 else w.reports(k) + 2 + Remaining(w, k + 1, n)
  }

  lemma OursMoves(job: Job, preset: seq<string>, r: Journal, n: Journal, name: string, count: nat)
    requires Ours(job, preset, r) && MovedOnly(r, n, name, count) && name in preset
    ensures Ours(job, preset, n)
  {
    forall other | other in n.delivered ensures other in preset {
      if other != name {
        assert other in n.delivered - {name};
        assert other in r.delivered;
      }
    }
  }

  lemma OursIsOpen(job: Job, preset: seq<string>, j: Journal)
    requires Ours(job, preset, j)
    ensures j.state.InProgress? && j.workloadId == job.workloadId && j.requestSha256 == job.requestSha256
  {
  }

  method DeliverAll(store: FileWorkloadStore, job: Job, preset: seq<string>, record: Journal, w: World,
                    ghost j0: Journal)
    returns (s: Step<seq<RenditionResult>>, uploads: seq<Upload>)
    requires Sound(store.disk) && job.workloadId in store.disk && store.disk[job.workloadId] == record
    requires ValidJob(job, preset) && Ours(job, preset, record) && Midway(preset, j0, record, record, 0, [], [])
    requires record.nextSequence + Remaining(w, 0, |preset|) <= MAX_UINT64
    modifies store`disk
    ensures Sound(store.disk) && OnlyTouches(old(store.disk), store.disk, job.workloadId)
    ensures Logged(j0, store.disk[job.workloadId], uploads) && Ours(job, preset, store.disk[job.workloadId])
    ensures s.Done? ==> Midway(preset, j0, record, store.disk[job.workloadId], |preset|, uploads, s.value)
    ensures store.disk[job.workloadId].nextSequence <= record.nextSequence + Remaining(w, 0, |preset|)
    ensures Products(job, preset, w, record, store.disk[job.workloadId])
    ensures store.disk[job.workloadId].manifestPrepared == record.manifestPrepared
    ensures store.disk[job.workloadId].manifestDelivered == record.manifestDelivered
    ensures Smooth(preset, w) ==> s.Done?
    ensures s.Stop? ==> Blamed(preset, w, s.outcome)
  {
    NothingMade(job, preset, w, record);
    BadNameIsBlamed(preset, w);
    hide Inv, Sound, Midway, Ours, Logged, OnlyTouches, MovedOnly, PresetNameOk, Smooth, Products, Blamed, Carries, Made, ArtifactUri, IsSha256Hex, OpaqueId;
    var id := job.workloadId;
    var results: seq<RenditionResult> := [];
    uploads := [];
    NothingTouched(store.disk, id);
    MidwayIsLogged(preset, j0, record, record, 0, [], []);
    for k := 0 to |preset|
      invariant Sound(store.disk) && OnlyTouches(old(store.disk), store.disk, id) && id in store.disk
      invariant Ours(job, preset, store.disk[id]) && Logged(j0, store.disk[id], uploads)
      invariant Midway(preset, j0, record, store.disk[id], k, uploads, results)
      invariant Products(job, preset, w, record, store.disk[id])
      invariant SameManifest(record, store.disk[id])
      invariant store.disk[id].nextSequence + Remaining(w, k, |preset|) <= record.nextSequence + Remaining(w, 0, |preset|)
    {
      var name := preset[k];
      SmoothRendition(preset, w, k);
      OursIsOpen(job, preset, store.disk[id]);
      if !PresetNameOk(name) {
        return Stop(Broken("preset_invalid")), uploads;
      }
      if name in record.delivered {
        SkipTurn(preset, j0, record, store.disk[id], k, uploads, results);
        results := results + [record.delivered[name]];
        continue;
      }
      MidwayAhead(preset, j0, record, store.disk[id], k, uploads, results);
      ghost var mid := store.disk;
      var turn, puts := DeliverRendition(store, id, job, preset, k, record, w);
      TouchesCompose(old(store.disk), mid, store.disk, id);
      TouchesKeep(old(store.disk), store.disk, id);
      TurnIsLogged(preset, j0, record, mid[id], store.disk[id], k, uploads, results, puts, w.reports(k) + 2);
      OursMoves(job, preset, mid[id], store.disk[id], name, w.reports(k) + 2);
      MovesAtMost(mid[id], store.disk[id], name, w.reports(k) + 2);
      TurnProduces(job, preset, w, record, mid[id], store.disk[id], k, w.reports(k) + 2);
      assert Remaining(w, k, |preset|) == w.reports(k) + 2 + Remaining(w, k + 1, |preset|);
      if turn.Stop? {
        return Stop(turn.outcome), uploads + puts;
      }
      TurnIsDone(preset, j0, record, mid[id], store.disk[id], k, uploads, results, puts, w.reports(k) + 2);
      uploads := uploads + puts;
      results := results + [turn.value];
    }
    return Done(results), uploads;
  }

  predicate SameManifest(r: Journal, n: Journal)
  {
    n.manifestPrepared == r.manifestPrepared && n.manifestDelivered == r.manifestDelivered
  }

  lemma NothingMade(job: Job, preset: seq<string>, w: World, j: Journal)
    ensures Products(job, preset, w, j, j) && SameManifest(j, j)
  {
  }

  lemma BadNameIsBlamed(preset: seq<string>, w: World)
    ensures (exists k :: 0 <= k < |preset| && !PresetNameOk(preset[k])) ==> Blamed(preset, w, Broken("preset_invalid"))
  {
    hide PresetNameOk;
  }

  lemma TurnProduces(job: Job, preset: seq<string>, w: World, record: Journal, j: Journal, n: Journal, k: nat, count: nat)
    requires k < |preset| && DistinctPreset(preset) && Products(job, preset, w, record, j) && SameManifest(record, j)
    requires MovedOnly(j, n, preset[k], count) && preset[k] !in record.delivered
    requires preset[k] in n.delivered ==>
               && preset[k] in n.prepared && n.prepared[preset[k]] == Made(w, record.prepared, preset, k)
               && Carries(job, n.prepared[preset[k]], n.delivered[preset[k]])
    ensures Products(job, preset, w, record, n) && SameManifest(record, n)
  {
    hide Carries, Made;
    var name := preset[k];
    forall i | 0 <= i < |preset| && preset[i] in n.delivered && preset[i] !in record.delivered
      ensures && preset[i] in n.prepared && n.prepared[preset[i]] == Made(w, record.prepared, preset, i)
              && Carries(job, n.prepared[preset[i]], n.delivered[preset[i]])
    {
      if i != k {
        assert preset[i] in n.delivered - {name} && preset[i] in j.delivered;
        assert preset[i] in j.prepared - {name} && preset[i] in n.prepared - {name};
        assert (n.prepared - {name})[preset[i]] == (j.prepared - {name})[preset[i]];
        assert (n.delivered - {name})[preset[i]] == (j.delivered - {name})[preset[i]];
      }
    }
  }

  lemma MidwayIsLogged(preset: seq<string>, j0: Journal, record: Journal, j: Journal, k: nat, uploads: seq<Upload>,
                       results: seq<RenditionResult>)
    requires k <= |preset| && Midway(preset, j0, record, j, k, uploads, results)
    ensures Logged(j0, j, uploads) && ManifestUpload !in uploads
  {
    hide Logged;
  }

  lemma MidwayAhead(preset: seq<string>, j0: Journal, record: Journal, j: Journal, k: nat, uploads: seq<Upload>,
                    results: seq<RenditionResult>)
    requires k < |preset| && Midway(preset, j0, record, j, k, uploads, results)
    ensures SameCheckpoint(record, j, preset[k])
  {
    hide Logged, SameCheckpoint;
  }

  lemma TouchesKeep(before: map<string, Journal>, after: map<string, Journal>, id: string)
    requires OnlyTouches(before, after, id)
    ensures after.Keys == before.Keys
  {
  }

  lemma MovesAtMost(r: Journal, n: Journal, name: string, count: nat)
    requires MovedOnly(r, n, name, count)
    ensures n.nextSequence <= r.nextSequence + count
  {
  }

  /** Only the manifest checkpoint moved. */
  predicate ManifestMoved(r: Journal, n: Journal, uri: string, puts: seq<Upload>)
  {
    && n == r.(manifestPrepared := n.manifestPrepared, manifestDelivered := n.manifestDelivered)
    && (if r.manifestDelivered != "" then puts == [] && n == r
        else (puts == [] || puts == [ManifestUpload])
             && (n.manifestDelivered == "" || (n.manifestDelivered == uri && puts == [ManifestUpload])))
  }

  /** Package the master playlist unless it is delivered already. */
  method DeliverManifest(store: FileWorkloadStore, job: Job, record: Journal, w: World, ghost preset: seq<string>)
    returns (s: Step<()>, puts: seq<Upload>)
    requires Sound(store.disk) && job.workloadId in store.disk && job.manifestUri != ""
    requires store.disk[job.workloadId].manifestDelivered == record.manifestDelivered
    requires store.disk[job.workloadId].manifestPrepared == record.manifestPrepared
    modifies store`disk
    ensures Sound(store.disk) && OnlyTouches(old(store.disk), store.disk, job.workloadId)
    ensures ManifestMoved(old(store.disk)[job.workloadId], store.disk[job.workloadId], job.manifestUri, puts)
    ensures s.Done? ==> store.disk[job.workloadId].manifestDelivered != ""
    ensures ManifestMade(w, old(store.disk)[job.workloadId], store.disk[job.workloadId])
    ensures Smooth(preset, w) && old(store.disk)[job.workloadId].state.InProgress? && ArtifactUri(job.manifestUri) ==> s.Done?
    ensures s.Stop? ==> Blamed(preset, w, s.outcome)
  {
    ManifestIsBlamed(preset, w);
    hide Inv, Sound, Smooth, OnlyTouches, ArtifactUri, Blamed;
    var id := job.workloadId;
    NothingTouched(store.disk, id);
    if record.manifestDelivered != "" {
      return Done(()), [];
    }
    SmoothManifest(preset, w);
    if record.manifestPrepared.None? || !w.manifestValid {
      var written := Stage(w.at(ManifestStage), "storage_failed");
      if written.Stop? {
        return written, [];
      }
      var m := w.at(ManifestPreparedSave);
      if m.crash {
        return Stop(Crashed), [];
      }
      var packaged := CheckpointManifest(store, id, w.packaged, m.save);
      if !packaged {
        return Stop(Broken("")), [];
      }
    }
    puts := [ManifestUpload];
    var put := Stage(w.at(ManifestPut), "upload_failed");
    if put.Stop? {
      return put, puts;
    }
    var m := w.at(ManifestDeliveredSave);
    if m.crash {
      return Stop(Crashed), puts;
    }
    ghost var mid := store.disk;
    TouchesKeep(old(store.disk), mid, id);
    var saved := CheckpointManifestUri(store, id, job.manifestUri, m.save);
    TouchesCompose(old(store.disk), mid, store.disk, id);
    return if saved then Done(()) else Stop(Broken("")), puts;
  }

  /** A manifest delivered between two journals is the prepared one it found, as
      long as its file is still valid, or else the one it packaged. */
  predicate ManifestMade(w: World, j0: Journal, j: Journal)
  {
    j0.manifestDelivered == "" && j.manifestDelivered != "" ==>
      j.manifestPrepared == if j0.manifestPrepared.Some? && w.manifestValid then j0.manifestPrepared else Some(w.packaged)
  }

  lemma ManifestIsBlamed(preset: seq<string>, w: World)
    ensures w.at(PackageReport).crash || w.at(ManifestStage).crash || w.at(ManifestPreparedSave).crash || w.at(ManifestPut).crash
            || w.at(ManifestDeliveredSave).crash ==>
              Blamed(preset, w, Crashed)
    ensures !w.at(ManifestStage).works ==> Blamed(preset, w, Broken("storage_failed"))
    ensures !w.at(ManifestPut).works ==> Blamed(preset, w, Broken("upload_failed"))
    ensures Blamed(preset, w, Broken("")) && Blamed(preset, w, Broken("usage_failed"))
  {
    CrashIsBlamed(preset, w, PackageReport);
    CrashIsBlamed(preset, w, ManifestStage);
    CrashIsBlamed(preset, w, ManifestPreparedSave);
    CrashIsBlamed(preset, w, ManifestPut);
    CrashIsBlamed(preset, w, ManifestDeliveredSave);
  }

  lemma SmoothManifest(preset: seq<string>, w: World)
    ensures Smooth(preset, w) ==>
              && Calm(w.at(PackageReport)) && Calm(w.at(ManifestStage)) && Calm(w.at(ManifestPreparedSave))
              && Calm(w.at(ManifestPut)) && Calm(w.at(ManifestDeliveredSave))
              && SafePath(w.packaged.path) && IsSha256Hex(w.packaged.sha256)
  {
    hide Encodes, PresetNameOk, SafePath, IsSha256Hex;
  }

  method CheckpointManifest(store: FileWorkloadStore, id: string, artifact: PreparedArtifact, save: SaveOutcome)
    returns (saved: bool)
    requires Sound(store.disk) && id in store.disk && store.disk[id].manifestDelivered == ""
    modifies store`disk
    ensures Sound(store.disk) && OnlyTouches(old(store.disk), store.disk, id)
    ensures store.disk[id] == old(store.disk)[id].(manifestPrepared := store.disk[id].manifestPrepared)
    ensures saved ==> store.disk[id].manifestPrepared == Some(artifact)
    ensures save.Committed? && old(store.disk)[id].state.InProgress? && SafePath(artifact.path) && IsSha256Hex(artifact.sha256) ==> saved
  {
    hide Inv, Sound, Performs, Extends, OnlyTouches, SafePath, IsSha256Hex;
    var res := store.SavePreparedManifest(id, artifact, save);
    WriteEffect(old(store.disk), store.disk, id, save, res, PreparedManifestOp(artifact));
    TouchesKeep(old(store.disk), store.disk, id);
    return res.Ok?;
  }

  method CheckpointManifestUri(store: FileWorkloadStore, id: string, uri: string, save: SaveOutcome)
    returns (saved: bool)
    requires Sound(store.disk) && id in store.disk && uri != "" && store.disk[id].manifestDelivered == ""
    modifies store`disk
    ensures Sound(store.disk) && OnlyTouches(old(store.disk), store.disk, id)
    ensures store.disk[id] == old(store.disk)[id].(manifestDelivered := store.disk[id].manifestDelivered)
    ensures store.disk[id].manifestDelivered in {"", uri} && (saved ==> store.disk[id].manifestDelivered == uri)
    ensures save.Committed? && old(store.disk)[id].state.InProgress? && old(store.disk)[id].manifestPrepared.Some? && ArtifactUri(uri) ==>
              saved
  {
    hide Inv, Sound, Performs, Extends, OnlyTouches, ArtifactUri;
    var res := store.SaveDeliveredManifest(id, uri, save);
    WriteEffect(old(store.disk), store.disk, id, save, res, DeliveredManifestOp(uri));
    TouchesKeep(old(store.disk), store.disk, id);
    return res.Ok?;
  }

  lemma PresetCovers(preset: seq<string>, delivered: map<string, RenditionResult>)
    requires DistinctPreset(preset) && (forall name <- delivered :: name in preset)
    requires forall i :: 0 <= i < |preset| ==> preset[i] in delivered
    ensures |delivered| == |preset|
  {
    DistinctCount(preset);
    assert delivered.Keys == set i | 0 <= i < |preset| :: preset[i];
    assert |delivered.Keys| == |delivered|;
  }

  lemma CheckpointIsAccepted(j: Journal, name: string)
    requires Inv(j) && name in j.delivered
    ensures RenditionAccepted(j.delivered[name]) && j.delivered[name].name == name
  {
    hide ArtifactUri, SafePath, IsSha256Hex, OpaqueId, OutcomeAccepted, ManifestAccepted, Windowed, ClaimMatches;
    assert name in j.prepared && Matches(j.prepared[name], j.delivered[name]);
  }

  /** The store accepts the result of a finished execution. */
  lemma FinishedIsRecordable(job: Job, preset: seq<string>, j: Journal, results: seq<RenditionResult>,
                             result: TerminalResult)
    requires Inv(j) && Ours(job, preset, j) && ValidJob(job, preset) && j.manifestDelivered == job.manifestUri
    requires |results| == |preset|
    requires forall i :: 0 <= i < |preset| ==> preset[i] in j.delivered && j.delivered[preset[i]] == results[i]
    requires result == TerminalResult(job.workloadId, job.requestSha256, job.manifestUri, results, result.units)
    requires Units(results) == Some(result.units)
    ensures RecordResult(j, result).Save?
  {
    hide ArtifactUri, IsSha256Hex, OpaqueId, Units, RenditionAccepted, SafePath;
    PresetCovers(preset, j.delivered);
    forall i | 0 <= i < |results| ensures RenditionAccepted(results[i]) && results[i].name == preset[i] {
      CheckpointIsAccepted(j, preset[i]);
    }
    hide Inv, Closed;
  }

  lemma ReportsKeep(job: Job, preset: seq<string>, j0: Journal, r: Journal, n: Journal, uploads: seq<Upload>,
                    count: nat)
    requires Reported(r, n, count) && Ours(job, preset, r) && Logged(j0, r, uploads)
    ensures Ours(job, preset, n) && Logged(j0, n, uploads)
  {
  }

  lemma StartIsLogged(preset: seq<string>, j0: Journal, record: Journal, count: nat)
    requires Reported(j0, record, count)
    ensures Logged(j0, j0, []) && Midway(preset, j0, record, record, 0, [], [])
  {
  }

  lemma ManifestKeeps(job: Job, preset: seq<string>, j0: Journal, r: Journal, n: Journal, uploads: seq<Upload>,
                      puts: seq<Upload>)
    requires ManifestMoved(r, n, job.manifestUri, puts) && Ours(job, preset, r) && Logged(j0, r, uploads)
    requires ManifestUpload !in uploads && (r.manifestDelivered == "" ==> j0.manifestDelivered == "")
    ensures Ours(job, preset, n) && Logged(j0, n, uploads + puts)
  {
  }

  lemma ReportedNothing(j: Journal)
    ensures Reported(j, j, 0)
  {
  }

  lemma ReportsCompose(a: Journal, b: Journal, c: Journal, m: nat, n: nat)
    requires Reported(a, b, m) && Reported(b, c, n)
    ensures Reported(a, c, m + n)
  {
  }

  lemma ReportedAtMost(r: Journal, n: Journal, count: nat)
    requires Reported(r, n, count)
    ensures n.nextSequence <= r.nextSequence + count && n.delivered == r.delivered && n.manifestDelivered == r.manifestDelivered
  {
  }

  lemma ReportsWiden(r: Journal, n: Journal, m: nat, count: nat)
    requires Reported(r, n, m) && m <= count
    ensures Reported(r, n, count)
  {
  }

  lemma StartIsBlamed(preset: seq<string>, w: World)
    ensures w.at(DownloadReport).crash || w.at(InputStage).crash || w.at(ProbeReport).crash || w.at(ProbeStage).crash ==>
              Blamed(preset, w, Crashed)
    ensures !w.inputPresent && !w.at(InputStage).works ==> Blamed(preset, w, Broken("download_failed"))
    ensures !w.at(ProbeStage).works ==> Blamed(preset, w, Broken("probe_failed"))
    ensures Blamed(preset, w, Broken(""))
  {
    CrashIsBlamed(preset, w, DownloadReport);
    CrashIsBlamed(preset, w, InputStage);
    CrashIsBlamed(preset, w, ProbeReport);
    CrashIsBlamed(preset, w, ProbeStage);
  }

  lemma SmoothStart(preset: seq<string>, w: World)
    ensures Smooth(preset, w) ==>
              Calm(w.at(DownloadReport)) && Calm(w.at(InputStage)) && Calm(w.at(ProbeReport)) && Calm(w.at(ProbeStage))
  {
    hide Encodes, PresetNameOk, SafePath, IsSha256Hex;
  }

  /** Fetch the input unless it is there, then probe it. */
  method Prepare(store: FileWorkloadStore, id: string, w: World, ghost preset: seq<string>) returns (s: Step<()>)
    requires Sound(store.disk) && id in store.disk && store.disk[id].nextSequence + 2 <= MAX_UINT64
    modifies store`disk
    ensures Sound(store.disk) && OnlyTouches(old(store.disk), store.disk, id)
    ensures Reported(old(store.disk)[id], store.disk[id], 2)
    ensures Smooth(preset, w) && old(store.disk)[id].state.InProgress? ==> s.Done?
    ensures s.Stop? ==> Blamed(preset, w, s.outcome)
  {
    StartIsBlamed(preset, w);
    hide Inv, Sound, Reported, Smooth, Blamed;
    SmoothStart(preset, w);
    ghost var disk0 := store.disk;
    ReportedNothing(disk0[id]);
    ReportsWiden(disk0[id], disk0[id], 0, 1);
    ReportsWiden(disk0[id], disk0[id], 0, 2);
    if !w.inputPresent {
      var reported := Report(store, id, "downloading", 0.0, "", 0, w.at(DownloadReport));
      ReportsWiden(disk0[id], store.disk[id], 1, 2);
      if reported.Stop? {
        return reported;
      }
      var fetched := Stage(w.at(InputStage), "download_failed");
      if fetched.Stop? {
        return fetched;
      }
    }
    ghost var mid := store.disk;
    ReportedAtMost(disk0[id], mid[id], 1);
    ReportedCheckpoints(disk0[id], mid[id], 1);
    var probing := Report(store, id, "probing", 5.0, "", 0, w.at(ProbeReport));
    TouchesCompose(disk0, mid, store.disk, id);
    ReportsCompose(disk0[id], mid[id], store.disk[id], 1, 1);
    if probing.Stop? {
      return probing;
    }
    s := Stage(w.at(ProbeStage), "probe_failed");
  }

  lemma MidwayEnds(preset: seq<string>, j0: Journal, record: Journal, j: Journal, uploads: seq<Upload>,
                   results: seq<RenditionResult>)
    requires Midway(preset, j0, record, j, |preset|, uploads, results)
    ensures Logged(j0, j, uploads) && ManifestUpload !in uploads && |results| == |preset|
    ensures j.manifestDelivered == record.manifestDelivered == j0.manifestDelivered && j.manifestPrepared == record.manifestPrepared
    ensures forall i :: 0 <= i < |preset| ==> preset[i] in j.delivered && j.delivered[preset[i]] == results[i]
  {
    hide Logged, SameCheckpoint;
  }

  /** The results an execution bills are the delivered checkpoints. */
  lemma DeliveredAreResults(job: Job, preset: seq<string>, j: Journal, results: seq<RenditionResult>)
    requires ValidJob(job, preset) && Ours(job, preset, j) && |results| == |preset|
    requires forall i :: 0 <= i < |preset| ==> preset[i] in j.delivered && j.delivered[preset[i]] == results[i]
    ensures Units(results) == CheckpointUnits(j.delivered)
  {
    PresetCovers(preset, j.delivered);
    NamesCover(preset, j.delivered);
    hide Ours, ValidJob, Units;
    assert Values(preset, j.delivered) == results;
    AnyOrderGivesCheckpointUnits(j.delivered, preset);
  }

  /** Manifest, bill and result, once every rendition is delivered. */
  method Conclude(store: FileWorkloadStore, job: Job, preset: seq<string>, record: Journal, w: World, ghost j0: Journal,
                  before: seq<Upload>, results: seq<RenditionResult>)
    returns (out: Outcome, uploads: seq<Upload>)
    requires Sound(store.disk) && ValidJob(job, preset) && job.workloadId in store.disk
    requires Ours(job, preset, store.disk[job.workloadId])
    requires Midway(preset, j0, record, store.disk[job.workloadId], |preset|, before, results)
    requires store.disk[job.workloadId].nextSequence + 2 <= MAX_UINT64
    modifies store`disk
    ensures Sound(store.disk) && OnlyTouches(old(store.disk), store.disk, job.workloadId)
    ensures Ours(job, preset, store.disk[job.workloadId]) && Logged(j0, store.disk[job.workloadId], uploads)
    ensures SameRenditions(old(store.disk)[job.workloadId], store.disk[job.workloadId])
    ensures ManifestMade(w, old(store.disk)[job.workloadId], store.disk[job.workloadId])
    ensures out.Finished? ==> ResultOf(job, preset, store.disk[job.workloadId], out.result)
    ensures Blamed(preset, w, out)
    ensures out.Finished? ==> RecordResult(store.disk[job.workloadId], out.result).Save?
    ensures store.disk[job.workloadId].nextSequence < MAX_UINT64
    ensures Smooth(preset, w) ==>
              if CheckpointUnits(store.disk[job.workloadId].delivered).Some? then out.Finished? else out == Broken("usage_failed")
  {
    ManifestIsBlamed(preset, w);
    hide SafePath, IsSha256Hex, OpaqueId;
    hide Inv, Sound, Midway, Ours, Logged, OnlyTouches, ValidJob, RecordResult, Reported, ManifestMoved, Units, Smooth,
      ArtifactUri, CheckpointUnits, Blamed;
    var id := job.workloadId;
    SmoothManifest(preset, w);
    OursIsOpen(job, preset, store.disk[id]);
    uploads := before;
    ghost var disk0 := store.disk;
    MidwayEnds(preset, j0, record, disk0[id], before, results);
    JobHasManifest(job, preset);
    var packaging := Report(store, id, "packaging", 98.0, "", 0, w.at(PackageReport));
    TouchesKeep(disk0, store.disk, id);
    ReportsKeep(job, preset, j0, disk0[id], store.disk[id], uploads, 1);
    ReportedAtMost(disk0[id], store.disk[id], 1);
    ReportedCheckpoints(disk0[id], store.disk[id], 1);
    if packaging.Stop? {
      return packaging.outcome, uploads;
    }
    ghost var disk1 := store.disk;
    var manifest, puts := DeliverManifest(store, job, record, w, preset);
    TouchesCompose(disk0, disk1, store.disk, id);
    TouchesKeep(disk0, store.disk, id);
    ManifestKeeps(job, preset, j0, disk1[id], store.disk[id], uploads, puts);
    ManifestFrame(disk1[id], store.disk[id], job.manifestUri, puts);
    uploads := uploads + puts;
    if manifest.Stop? {
      return manifest.outcome, uploads;
    }
    var units := CalculateFrameMegapixelUnits(results);
    DeliveredAreResults(job, preset, store.disk[id], results);
    if units.None? {
      return Broken("usage_failed"), uploads;
    }
    var result := TerminalResult(job.workloadId, job.requestSha256, job.manifestUri, results, units.value);
    SoundLoads(store.disk, id);
    OursManifest(job, preset, store.disk[id]);
    FinishedIsRecordable(job, preset, store.disk[id], results, result);
    FinishIsBlameless(preset, w, result);
    return Finished(result), uploads;
  }

  predicate SameRenditions(r: Journal, n: Journal) { n.prepared == r.prepared && n.delivered == r.delivered }

  lemma FinishIsBlameless(preset: seq<string>, w: World, result: TerminalResult)
    ensures Blamed(preset, w, Finished(result))
  {
  }

  /** The result of an execution lists the delivered checkpoints in preset order. */
  predicate ResultOf(job: Job, preset: seq<string>, j: Journal, result: TerminalResult)
  {
    && result.workloadId == job.workloadId && result.requestSha256 == job.requestSha256 && result.manifestUri == job.manifestUri
    && |result.renditions| == |preset|
    && forall i :: 0 <= i < |preset| ==> preset[i] in j.delivered && result.renditions[i] == j.delivered[preset[i]]
  }

  lemma JobHasManifest(job: Job, preset: seq<string>)
    requires ValidJob(job, preset)
    ensures job.manifestUri != "" && ArtifactUri(job.manifestUri)
  {
  }

  lemma OursManifest(job: Job, preset: seq<string>, j: Journal)
    requires Ours(job, preset, j) && j.manifestDelivered != ""
    ensures j.manifestDelivered == job.manifestUri
  {
  }

  lemma ManifestFrame(r: Journal, n: Journal, uri: string, puts: seq<Upload>)
    requires ManifestMoved(r, n, uri, puts)
    ensures n.nextSequence == r.nextSequence && SameRenditions(r, n)
  {
  }

  /** One execution, from whatever the journal holds to a result, a failure or a
      crash. Whatever was durably delivered before is not uploaded again; whatever
      is delivered is what was made, under the requested destinations; a failure
      code names a stage that went wrong; and when nothing goes wrong outside, the
      execution finishes unless the pixels overflow. */
  method Execute(store: FileWorkloadStore, job: Job, preset: seq<string>, w: World)
    returns (out: Outcome, uploads: seq<Upload>)
    requires Sound(store.disk) && ValidJob(job, preset) && job.workloadId in store.disk
    requires Ours(job, preset, store.disk[job.workloadId])
    requires store.disk[job.workloadId].nextSequence + Remaining(w, 0, |preset|) + 4 <= MAX_UINT64
    modifies store`disk
    ensures Sound(store.disk) && OnlyTouches(old(store.disk), store.disk, job.workloadId)
    ensures Ours(job, preset, store.disk[job.workloadId])
    ensures Logged(old(store.disk)[job.workloadId], store.disk[job.workloadId], uploads)
    ensures Products(job, preset, w, old(store.disk)[job.workloadId], store.disk[job.workloadId])
    ensures ManifestMade(w, old(store.disk)[job.workloadId], store.disk[job.workloadId])
    ensures out.Finished? ==> RecordResult(store.disk[job.workloadId], out.result).Save?
    ensures out.Finished? ==> ResultOf(job, preset, store.disk[job.workloadId], out.result)
    ensures Blamed(preset, w, out)
    ensures store.disk[job.workloadId].nextSequence < MAX_UINT64
    ensures Smooth(preset, w) ==>
              if CheckpointUnits(store.disk[job.workloadId].delivered).Some? then out.Finished? else out == Broken("usage_failed")
  {
    ManifestIsBlamed(preset, w);
    hide Smooth, CheckpointUnits, Inv, Sound, Midway, Ours, Logged, OnlyTouches, ValidJob, Remaining, ArtifactUri, RecordResult,
      Reported, Products, Blamed, ManifestMade, ResultOf;
    var id := job.workloadId;
    uploads := [];
    ghost var disk0, j0 := store.disk, store.disk[id];
    NothingTouched(disk0, id);
    OursIsOpen(job, preset, j0);
    ReportedNothing(j0);
    StartIsLogged(preset, j0, j0, 0);
    var ready := Prepare(store, id, w, preset);
    TouchesKeep(disk0, store.disk, id);
    ReportsKeep(job, preset, j0, j0, store.disk[id], uploads, 2);
    ReportedAtMost(j0, store.disk[id], 2);
    ReportedCheckpoints(j0, store.disk[id], 2);
    SameProducts(job, preset, w, j0, store.disk[id], j0, store.disk[id]);
    if ready.Stop? {
      return ready.outcome, uploads;
    }
    SoundLoads(store.disk, id);
    var loaded := store.LoadLocked(id);
    if loaded.Err? {
      return Broken(""), uploads;
    }
    var record := loaded.value;
    StartIsLogged(preset, j0, record, 2);
    ghost var disk1 := store.disk;
    var all;
    all, uploads := DeliverAll(store, job, preset, record, w, j0);
    TouchesCompose(disk0, disk1, store.disk, id);
    SameProducts(job, preset, w, j0, record, store.disk[id], store.disk[id]);
    if all.Stop? {
      return all.outcome, uploads;
    }
    ghost var disk2 := store.disk;
    out, uploads := Conclude(store, job, preset, record, w, j0, uploads, all.value);
    TouchesCompose(disk0, disk2, store.disk, id);
    SameProducts(job, preset, w, j0, record, disk2[id], store.disk[id]);
  }

  /** Progress reports and the manifest leave the products as they were. */
  lemma SameProducts(job: Job, preset: seq<string>, w: World, j0: Journal, record: Journal, j: Journal, n: Journal)
    requires record.prepared == j0.prepared && record.delivered == j0.delivered && SameManifest(j0, record)
    requires j == j0 || (Products(job, preset, w, record, j) && SameManifest(record, j))
    requires SameRenditions(j, n)
    ensures Products(job, preset, w, j0, n)
    ensures SameManifest(j0, n) || ManifestMade(w, j, n) ==> ManifestMade(w, j0, n)
  {
  }
}
