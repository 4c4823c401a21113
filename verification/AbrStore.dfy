/** The file-backed workload store: load, check, change, save under one lock. */
module AbrStore {
  import opened Basics
  import opened AbrContract
  import opened Paths
  import opened AbrJournal
  import opened AbrCheckpoints

  datatype Result<+T> = Ok(value: T) | Err(fault: Fault)

  function LoadResult(disk: map<string, Journal>, id: string): (res: Result<Journal>)
  {
    if !OpaqueId(id) then Err(Refused)
    else if id !in disk then Err(NotFound)
    else if JournalAccepted(disk[id], id) then Ok(disk[id])
    else Err(Corrupt)
  }

  function Written(disk: map<string, Journal>, j: Journal, save: SaveOutcome): (after: map<string, Journal>)
  {
    if save.FailedBeforeRename? then disk else disk[j.workloadId := j]
  }

  /** One locked load-decide-save round on one journal and nothing else. */
  ghost predicate Performs(before: map<string, Journal>, after: map<string, Journal>, id: string, save: SaveOutcome,
                           res: Result<()>, op: Op)
  {
    match LoadResult(before, id)
    case Err(e) => after == before && res == Err(e)
    case Ok(j) =>
      match Decide(j, op)
      case Refuse => after == before && res == Err(Refused)
      case Save(next) => after == Written(before, next, save) && res == if save.Committed? then Ok(()) else Err(SaveFailed)
  }

  class FileWorkloadStore {
    var disk: map<string, Journal>

    constructor ()
      ensures disk == map[]
    {
      disk := map[];
    }

    method LoadLocked(id: string) returns (res: Result<Journal>)
      ensures res == LoadResult(disk, id)
    {
      if !OpaqueId(id) {
        return Err(Refused);
      }
      if id !in disk {
        return Err(NotFound);
      }
      var record := disk[id];
      if record.workloadId != id || !IsSha256Hex(record.requestSha256) {
        return Err(Corrupt);
      }
      var valid := ValidateJournal(record);
      return if valid then Ok(record) else Err(Corrupt);
    }

    method SaveLocked(j: Journal, save: SaveOutcome) returns (res: Result<()>)
      modifies this`disk
      ensures disk == Written(old(disk), j, save) && res == if save.Committed? then Ok(()) else Err(SaveFailed)
    {
      if save.FailedBeforeRename? {
        return Err(SaveFailed);
      }
      disk := disk[j.workloadId := j];
      return if save.Committed? then Ok(()) else Err(SaveFailed);
    }

    /** A workload ID belongs to one request for good. */
    method LoadOrCreate(id: string, requestSha256: string, save: SaveOutcome)
      returns (res: Result<(Journal, Disposition)>)
      modifies this`disk
      ensures OpaqueId(id) && IsSha256Hex(requestSha256) ==>
                match LoadResult(old(disk), id)
                case Ok(j) =>
                  && disk == old(disk) && res.Ok? && res.value.0 == j
                  && (res.value.1.RejectIdReuse? <==> j.requestSha256 != requestSha256)
                  && (res.value.1.ReplayTerminal? <==> j.requestSha256 == requestSha256 && j.terminal.Some?)
                case Err(NotFound) =>
                  && disk == Written(old(disk), Fresh(id, requestSha256), save)
                  && res == if save.Committed? then Ok((Fresh(id, requestSha256), ResumeExisting)) else Err(SaveFailed)
                case Err(e) => disk == old(disk) && res == Err(e)
      ensures !OpaqueId(id) || !IsSha256Hex(requestSha256) ==> disk == old(disk) && res == Err(Refused)
    {
      if !OpaqueId(id) || !IsSha256Hex(requestSha256) {
        return Err(Refused);
      }
      var loaded := LoadLocked(id);
      if loaded.Ok? {
        var terminal := loaded.value.state.Succeeded? || loaded.value.state.Failed?;
        return Ok((loaded.value, ClassifyReplay(loaded.value.requestSha256, requestSha256, terminal)));
      }
      if !loaded.fault.NotFound? {
        return Err(loaded.fault);
      }
      var created := Journal(id, requestSha256, InProgress, "accepted", 1, map[], map[], None, "", [], None);
      var saved := SaveLocked(created, save);
      return if saved.Ok? then Ok((created, ResumeExisting)) else Err(saved.fault);
    }

    method AppendProgress(id: string, body: Body, save: SaveOutcome) returns (res: Result<()>)
      requires body.Progress?
      modifies this`disk
      ensures Performs(old(disk), disk, id, save, res, AppendOp(body))
    {
      hide JournalAccepted;
      var loaded := LoadLocked(id);
      if loaded.Err? {
        return Err(loaded.fault);
      }
      var record := loaded.value;
      if !record.state.InProgress? {
        return Err(Refused);
      }
      if record.nextSequence == 0 || body.phase !in PHASES || body.percent < 0.0 || body.percent > 100.0 {
        return Err(Refused);
      }
      var event := StoredEvent(record.nextSequence, body);
      record := record.(nextSequence := Wrap64(record.nextSequence + 1), phase := body.phase, progress := record.progress + [event]);
      if |record.progress| > PROGRESS_WINDOW {
        record := record.(progress := record.progress[|record.progress| - PROGRESS_WINDOW..]);
      }
      res := SaveLocked(record, save);
    }

    method SavePrepared(id: string, prepared: Prepared, save: SaveOutcome) returns (res: Result<()>)
      modifies this`disk
      ensures Performs(old(disk), disk, id, save, res, PreparedOp(prepared))
    {
      hide JournalAccepted, SafePath, IsSha256Hex;
      var loaded := LoadLocked(id);
      if loaded.Err? {
        return Err(loaded.fault);
      }
      var record := loaded.value;
      if !record.state.InProgress? || prepared.name == "" || prepared.playlistPath == "" || prepared.streamPath == ""
         || !SafePath(prepared.playlistPath) || !SafePath(prepared.streamPath)
         || !IsSha256Hex(prepared.playlistSha256) || !IsSha256Hex(prepared.streamSha256)
         || (prepared.video.Some? && (prepared.video.value.frames == 0 || prepared.video.value.width == 0 || prepared.video.value.height == 0))
      {
        return Err(Refused);
      }
      if prepared.name in record.delivered {
        return Err(Refused);
      }
      record := record.(prepared := record.prepared[prepared.name := prepared]);
      res := SaveLocked(record, save);
    }

    method SaveDelivered(id: string, result: RenditionResult, save: SaveOutcome) returns (res: Result<()>)
      modifies this`disk
      ensures Performs(old(disk), disk, id, save, res, DeliveredOp(result))
    {
      hide JournalAccepted, ArtifactUri;
      var loaded := LoadLocked(id);
      if loaded.Err? {
        return Err(loaded.fault);
      }
      var record := loaded.value;
      if !record.state.InProgress? {
        return Err(Refused);
      }
      if result.name !in record.prepared || !Matches(record.prepared[result.name], result) {
        return Err(Refused);
      }
      if !ArtifactUri(result.playlistUri) || !ArtifactUri(result.streamUri) {
        return Err(Refused);
      }
      record := record.(delivered := record.delivered[result.name := result]);
      res := SaveLocked(record, save);
    }

    method SavePreparedManifest(id: string, artifact: PreparedArtifact, save: SaveOutcome) returns (res: Result<()>)
      modifies this`disk
      ensures Performs(old(disk), disk, id, save, res, PreparedManifestOp(artifact))
    {
      hide JournalAccepted, SafePath, IsSha256Hex;
      var loaded := LoadLocked(id);
      if loaded.Err? {
        return Err(loaded.fault);
      }
      var record := loaded.value;
      if !record.state.InProgress? || record.manifestDelivered != "" || !SafePath(artifact.path) || !IsSha256Hex(artifact.sha256) {
        return Err(Refused);
      }
      record := record.(manifestPrepared := Some(artifact));
      res := SaveLocked(record, save);
    }

    method SaveDeliveredManifest(id: string, uri: string, save: SaveOutcome) returns (res: Result<()>)
      modifies this`disk
      ensures Performs(old(disk), disk, id, save, res, DeliveredManifestOp(uri))
    {
      hide JournalAccepted, ArtifactUri;
      var loaded := LoadLocked(id);
      if loaded.Err? {
        return Err(loaded.fault);
      }
      var record := loaded.value;
      if !record.state.InProgress? || record.manifestPrepared.None? || !ArtifactUri(uri) {
        return Err(Refused);
      }
      record := record.(manifestDelivered := uri);
      res := SaveLocked(record, save);
    }

    method RecordTerminalResult(id: string, result: TerminalResult, save: SaveOutcome) returns (res: Result<()>)
      modifies this`disk
      ensures !ResultAccepted(result) ==> disk == old(disk) && res == Err(Refused)
      ensures ResultAccepted(result) ==> Performs(old(disk), disk, id, save, res, ResultOp(result))
    {
      hide JournalAccepted, ResultAccepted;
      var accepted := ValidateTerminalResult(result);
      if !accepted {
        return Err(Refused);
      }
      var loaded := LoadLocked(id);
      if loaded.Err? {
        return Err(loaded.fault);
      }
      var record := loaded.value;
      if !record.state.InProgress? || result.workloadId != record.workloadId || result.requestSha256 != record.requestSha256 {
        return Err(Refused);
      }
      if result.manifestUri != record.manifestDelivered || |result.renditions| != |record.delivered| {
        return Err(Refused);
      }
      for k := 0 to |result.renditions|
        invariant disk == old(disk)
        invariant forall i :: 0 <= i < k ==>
                    result.renditions[i].name in record.delivered && record.delivered[result.renditions[i].name] == result.renditions[i]
      {
        var rendition := result.renditions[k];
        if rendition.name !in record.delivered || record.delivered[rendition.name] != rendition {
          return Err(Refused);
        }
      }
      record := record.(nextSequence := Wrap64(record.nextSequence + 1), state := Succeeded, phase := "succeeded",
                        terminal := Some(StoredEvent(record.nextSequence, ResultBody(result))));
      res := SaveLocked(record, save);
    }

    method RecordTerminalError(id: string, failure: TerminalError, save: SaveOutcome) returns (res: Result<()>)
      modifies this`disk
      ensures !ErrorAccepted(failure) ==> disk == old(disk) && res == Err(Refused)
      ensures ErrorAccepted(failure) ==> Performs(old(disk), disk, id, save, res, ErrorOp(failure))
    {
      hide JournalAccepted, ErrorAccepted, CheckpointUnits, Units;
      if !ErrorAccepted(failure) {
        return Err(Refused);
      }
      var loaded := LoadLocked(id);
      if loaded.Err? {
        return Err(loaded.fault);
      }
      var record := loaded.value;
      if !record.state.InProgress? || failure.workloadId != record.workloadId || failure.requestSha256 != record.requestSha256 {
        return Err(Refused);
      }
      var units := DeliveredUnits(record.delivered);
      if units.None? || failure.units != units.value {
        return Err(Refused);
      }
      record := record.(nextSequence := Wrap64(record.nextSequence + 1), state := JournalState.Failed, phase := "failed",
                        terminal := Some(StoredEvent(record.nextSequence, ErrorBody(failure))));
      res := SaveLocked(record, save);
    }
  }

  /** Lists the map in whatever order iteration yields, then bills the list. */
  method DeliveredUnits(delivered: map<string, RenditionResult>) returns (units: Option<uint64>)
    ensures units == CheckpointUnits(delivered)
  {
    var names: seq<string> := [];
    var todo := delivered.Keys;
    assert |delivered.Keys| == |delivered|;
    while todo != {}
      invariant todo <= delivered.Keys && |names| + |todo| == |delivered|
      invariant forall name :: name in names <==> name in delivered.Keys - todo
      invariant forall i, j :: 0 <= i < j < |names| ==> names[i] != names[j]
      decreases todo
    {
      var name :| name in todo;
      todo := todo - {name};
      assert forall i :: 0 <= i < |names| ==> names[i] in names;
      names := names + [name];
    }
    AnyOrderGivesCheckpointUnits(delivered, names);
    units := CalculateFrameMegapixelUnits(Values(names, delivered));
  }

  method ValidateJournal(j: Journal) returns (ok: bool)
    ensures ok <==> OutcomeAccepted(j) && CheckpointsAccepted(j) && ManifestAccepted(j)
  {
    hide SafePath, IsSha256Hex, ArtifactUri;
    if !OutcomeAccepted(j) {
      return false;
    }
    var todo := j.prepared.Keys;
    while todo != {}
      invariant todo <= j.prepared.Keys
      invariant forall name <- j.prepared.Keys - todo :: j.prepared[name].name == name && PreparedAccepted(j.prepared[name])
      decreases todo
    {
      var name :| name in todo;
      todo := todo - {name};
      if j.prepared[name].name != name || !PreparedAccepted(j.prepared[name]) {
        return false;
      }
    }
    todo := j.delivered.Keys;
    while todo != {}
      invariant todo <= j.delivered.Keys
      invariant forall name <- j.delivered.Keys - todo ::
                  j.delivered[name].name == name && name in j.prepared && Matches(j.prepared[name], j.delivered[name])
      decreases todo
    {
      var name :| name in todo;
      todo := todo - {name};
      if j.delivered[name].name != name || name !in j.prepared || !Matches(j.prepared[name], j.delivered[name]) {
        return false;
      }
    }
    return ManifestAccepted(j);
  }
}
