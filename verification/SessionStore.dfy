/** The encrypted file store: load, check, change, save under one lock. */
module SessionStore {
  import opened Basics
  import opened LiveContract
  import opened SessionRecord
  import opened SessionSteps
  import opened SessionInvariant
  import opened SessionRuns
  import RetryDelay

  ghost function LoadResult(disk: map<string, Record>, id: string): (res: Result<Record>)
  {
    if !OpaqueId(id) then Err(InvalidInput)
    else if id !in disk then Err(NotFound)
    else if Loadable(disk[id], id) then Ok(Normalize(disk[id]))
    else Err(Corrupt)
  }

  function Written(disk: map<string, Record>, r: Record, save: SaveOutcome): (after: map<string, Record>)
  {
    if save.FailedBeforeRename? then disk else disk[r.brokerId := r]
  }

  /** A locked load-decide-save round on one record and nothing else. */
  ghost predicate Performs(before: map<string, Record>, after: map<string, Record>, id: string, save: SaveOutcome,
                           error: Option<Error>, decide: Record -> Verdict)
  {
    match LoadResult(before, id)
    case Err(e) => after == before && error == Some(e)
    case Ok(r) =>
      match decide(r)
      case Refuse(e) => after == before && error == Some(e)
      case Keep => after == before && error == None
      case Save(next, _) =>
        after == Written(before, next, save) && error == if save.Committed? then None else Some(SaveFailed)
  }

  /** The verdict the current record gets; defined whenever the load succeeds. */
  ghost function Ruling(disk: map<string, Record>, id: string, decide: Record -> Verdict): (v: Verdict)
  {
    match LoadResult(disk, id)
    case Err(e) => Refuse(e)
    case Ok(r) => decide(r)
  }

  function ErrorOf<T>(res: Result<T>): (error: Option<Error>)
  {
    match res
    case Ok(_) => None
    case Err(e) => Some(e)
  }

  function Metering(sha: Digest, batch: seq<Segment>, now: Time): (decide: Record -> Verdict)
  {
    r => AddSegments(sha, r, batch, now)
  }

  function Reserving(sha: Digest, eventId: string, at: Time, initial: int, maximum: int): (decide: Record -> Verdict)
    requires 0 < initial <= maximum
  {
    r => ReserveAttempt(sha, r, eventId, at, initial, maximum)
  }

  class EncryptedFileSessionStore {
    var disk: map<string, Record>
    var fences: set<string>

    constructor ()
      ensures disk == map[] && fences == {}
    {
      disk, fences := map[], {};
    }

    method LoadLocked(id: string) returns (res: Result<Record>)
      ensures res == LoadResult(disk, id)
      ensures res.Ok? ==> res.value.brokerId == id
    {
      if !OpaqueId(id) {
        return Err(InvalidInput);
      }
      if id !in disk {
        return Err(NotFound);
      }
      var record := Normalize(disk[id]);
      var accepted := ValidateRecord(record, id);
      if !accepted || !SecretsAccepted(record) {
        return Err(Corrupt);
      }
      return Ok(record);
    }

    method SaveLocked(r: Record, save: SaveOutcome) returns (saved: bool)
      modifies this`disk
      ensures disk == Written(old(disk), r, save) && (saved <==> save.Committed?)
    {
      if save.FailedBeforeRename? {
        return false;
      }
      disk := disk[r.brokerId := r];
      return save.Committed?;
    }

    method Commit(v: Verdict, save: SaveOutcome) returns (error: Option<Error>)
      modifies this`disk
      ensures match v
              case Refuse(e) => disk == old(disk) && error == Some(e)
              case Keep => disk == old(disk) && error == None
              case Save(next, _) =>
                disk == Written(old(disk), next, save) && error == if save.Committed? then None else Some(SaveFailed)
    {
      match v {
        case Refuse(e) => return Some(e);
        case Keep => return None;
        case Save(next, _) =>
          var saved := SaveLocked(next, save);
          return if saved then None else Some(SaveFailed);
      }
    }

    method CreateOrReplay(request: CreateRequest, response: CreateResponse, now: Time, save: SaveOutcome)
      returns (res: Result<Record>)
      modifies this`disk
      ensures !ValidCreation(request, response) ==> res == Err(InvalidInput) && disk == old(disk)
      ensures ValidCreation(request, response) ==>
                match LoadResult(old(disk), request.sessionId)
                case Ok(r) =>
                  && disk == old(disk)
                  && res == (if r.fingerprint != request then Err(SessionIdReuse)
                             else if !Live(r) || r.secrets.None? then Err(SessionTerminal) else Ok(r))
                case Err(NotFound) =>
                  if request.sessionId in fences then disk == old(disk) && res == Err(CreateFenced)
                  else
                    && disk == Written(old(disk), Created(request, response, now), save)
                    && res == (if save.Committed? then Ok(Created(request, response, now)) else Err(SaveFailed))
                case Err(e) => disk == old(disk) && res == Err(e)
    {
      if !ValidCreateRequest(request) || !ValidCreateResponse(response) {
        return Err(InvalidInput);
      }
      var loaded := LoadLocked(request.sessionId);
      if loaded.Ok? {
        var record := loaded.value;
        if record.fingerprint != request {
          return Err(SessionIdReuse);
        }
        if !record.state.Active? || record.stopping || record.secrets.None? {
          return Err(SessionTerminal);
        }
        return Ok(record);
      }
      if !loaded.error.NotFound? {
        return Err(loaded.error);
      }
      if request.sessionId in fences {
        return Err(CreateFenced);
      }
      var record := Created(request, response, now);
      var saved := SaveLocked(record, save);
      return if saved then Ok(record) else Err(SaveFailed);
    }

    /** "created" with the runner ID, or a durable refusal of every later create. */
    method ReconcileCreate(id: string, save: SaveOutcome) returns (res: Result<Option<string>>)
      modifies this`fences
      ensures match LoadResult(disk, id)
              case Ok(r) => fences == old(fences) && res == Ok(Some(r.runnerId))
              case Err(NotFound) =>
                && fences == (if save.FailedBeforeRename? then old(fences) else old(fences) + {id})
                && (res == Ok(None) ==> id in fences)
                && (save.Committed? ==> res == Ok(None))
                && (!save.Committed? ==> res == Err(SaveFailed))
              case Err(e) => fences == old(fences) && res == Err(e)
    {
      var loaded := LoadLocked(id);
      if loaded.Ok? {
        return Ok(Some(loaded.value.runnerId));
      }
      if !loaded.error.NotFound? {
        return Err(loaded.error);
      }
      if id !in fences {
        if save.FailedBeforeRename? {
          return Err(SaveFailed);
        }
        fences := fences + {id};
      }
      // The directory is synced on a retry as well.
      return if save.Committed? then Ok(None) else Err(SaveFailed);
    }

    method Advance(id: string, e: Event, save: SaveOutcome) returns (res: Result<()>)
      modifies this`disk
      ensures Performs(old(disk), disk, id, save, ErrorOf(res), r => SessionSteps.Advance(r, e))
    {
      var loaded := LoadLocked(id);
      if loaded.Err? {
        return Err(loaded.error);
      }
      var record := loaded.value;
      if !record.state.Active? || (record.stopping && e.state.Active?) {
        return Err(SessionTerminal);
      }
      if record.stopping && e.closeReason != Some(record.pendingReason) {
        return Err(CloseReasonDiffers);
      }
      if e.id != EventId(record.runnerId, e.sequence) {
        return Err(InvalidEvent);
      }
      if (record.metered > 0 || |record.segments| > 0) && e.usage.Some? && e.usage.value != record.metered / MICROS_PER_SECOND {
        return Err(UsageDiffersFromMeter);
      }
      var cursor := new EventCursor(Cursor(record.lastSequence, record.usageTotal, record.lastSequence > 0, set p <- record.pending :: p.id));
      var accepted := cursor.Accept(e);
      if accepted.Err? {
        return Err(accepted.error);
      }
      record := record.(lastSequence := cursor.sequence, usageTotal := cursor.usageTotal,
                        lastEventAt := Some(e.time), pending := record.pending + [e]);
      if !e.state.Active? {
        record := record.(state := e.state, closeReason := e.closeReason.value, stopping := false,
                          pendingReason := "", pendingState := None, pendingKey := "");
      }
      var saved := SaveLocked(record, save);
      return if saved then Ok(()) else Err(SaveFailed);
    }

    /** True when a usage tick was emitted. */
    method RecordFinalizedSegments(sha: Digest, id: string, batch: seq<Segment>, now: Time,
                                   save: SaveOutcome) returns (res: Result<bool>)
      modifies this`disk
      ensures now == ZERO_TIME ==> res == Err(InvalidInput) && disk == old(disk)
      ensures now != ZERO_TIME ==> Performs(old(disk), disk, id, save, ErrorOf(res), Metering(sha, batch, now))
      ensures res.Ok? ==>
                var v := Ruling(old(disk), id, Metering(sha, batch, now));
                res.value <==> v.Save? && v.effect.Appended?
    {
      if now == ZERO_TIME {
        return Err(InvalidInput);
      }
      var loaded := LoadLocked(id);
      if loaded.Err? {
        return Err(loaded.error);
      }
      var verdict := CountSegments(sha, loaded.value, batch, now);
      hide AddSegments, Loadable, Normalize;
      var error := Commit(verdict, save);
      return if error.None? then Ok(verdict.Save? && verdict.effect.Appended?) else Err(error.value);
    }

    /** True when a heartbeat was emitted. */
    method RecordHeartbeat(id: string, now: Time, interval: int, save: SaveOutcome) returns (res: Result<bool>)
      modifies this`disk
      ensures now == ZERO_TIME || interval <= 0 ==> res == Err(InvalidInput) && disk == old(disk)
      ensures now != ZERO_TIME && interval > 0 ==>
                Performs(old(disk), disk, id, save, ErrorOf(res), r => SessionSteps.RecordHeartbeat(r, now, interval))
      ensures res.Ok? ==> (res.value <==> Ruling(old(disk), id, r => SessionSteps.RecordHeartbeat(r, now, interval)).Save?)
    {
      if now == ZERO_TIME || interval <= 0 {
        return Err(InvalidInput);
      }
      var loaded := LoadLocked(id);
      if loaded.Err? {
        return Err(loaded.error);
      }
      var record := loaded.value;
      if !record.state.Active? || record.stopping {
        return Err(SessionTerminal);
      }
      if record.lastSequence == 0 {
        return Err(SessionNotStarted);
      }
      if record.lastEventAt.Some? && now < record.lastEventAt.value + interval {
        return Ok(false);
      }
      var verdict := AppendActiveEvent(record, Heartbeat, now, Some(record.usageTotal));
      var error := Commit(verdict, save);
      return if error.None? then Ok(true) else Err(error.value);
    }

    method RecordIngestPresence(id: string, online: bool, now: Time, save: SaveOutcome) returns (res: Result<()>)
      modifies this`disk
      ensures now == ZERO_TIME ==> res == Err(InvalidInput) && disk == old(disk)
      ensures now != ZERO_TIME ==> Performs(old(disk), disk, id, save, ErrorOf(res), r => RecordPresence(r, online, now))
    {
      if now == ZERO_TIME {
        return Err(InvalidInput);
      }
      var loaded := LoadLocked(id);
      if loaded.Err? {
        return Err(loaded.error);
      }
      var record, changed := loaded.value, false;
      if !record.state.Active? || record.stopping {
        return Err(SessionTerminal);
      }
      if online && record.onlineAt.None? {
        record := record.(onlineAt := Some(now), publisherSeen := true, offlineSince := None, deadline := None,
                          output := Waiting, outputSince := Some(now));
        changed := true;
      }
      if !online && record.onlineAt.Some? {
        record := record.(onlineAt := None, publisherSeen := true, offlineSince := Some(now), deadline := None,
                          output := Waiting, outputSince := Some(now), ladderWindowAt := None, ladderFailures := 0);
        changed := true;
      }
      if !changed {
        return Ok(());
      }
      var saved := SaveLocked(record, save);
      return if saved then Ok(()) else Err(SaveFailed);
    }

    /** True when this call pinned the disconnect and the save was confirmed. */
    method ExpireAbsentPublisher(id: string, now: Time, initialWait: int, grace: int, save: SaveOutcome)
      returns (res: Result<bool>)
      modifies this`disk
      ensures now == ZERO_TIME || initialWait <= 0 || grace <= 0 ==> res == Err(InvalidInput) && disk == old(disk)
      ensures now != ZERO_TIME && initialWait > 0 && grace > 0 ==>
                Performs(old(disk), disk, id, save, ErrorOf(res), r => ExpirePublisher(r, now, initialWait, grace))
      ensures res.Ok? ==>
                var v := Ruling(old(disk), id, r => ExpirePublisher(r, now, initialWait, grace));
                res.value <==> v.Save? && v.next.stopping
    {
      if now == ZERO_TIME || initialWait <= 0 || grace <= 0 {
        return Err(InvalidInput);
      }
      var loaded := LoadLocked(id);
      if loaded.Err? {
        return Err(loaded.error);
      }
      var record := loaded.value;
      OutputStarted(disk, id);
      hide LoadResult;
      if !record.state.Active? || record.stopping {
        return Err(SessionTerminal);
      }
      if record.onlineAt.Some? {
        return Ok(false);
      }
      var clocked := Clocked(record, now, initialWait, grace);
      var expired := now >= clocked.deadline.value;
      if expired {
        clocked := clocked.(stopping := true, pendingReason := "publisher_disconnect", pendingState := Some(Ended), pendingKey := "");
      }
      if expired || record.deadline.None? {
        var saved := SaveLocked(clocked, save);
        if !saved {
          return Err(SaveFailed);
        }
      }
      return Ok(expired);
    }

    method RecordLadderRestart(id: string, code: string, now: Time, window: int, save: SaveOutcome)
      returns (res: Result<uint32>)
      modifies this`disk
      ensures !ValidLadderCode(code, false) || now == ZERO_TIME || window <= 0 ==> res == Err(InvalidInput) && disk == old(disk)
      ensures ValidLadderCode(code, false) && now != ZERO_TIME && window > 0 ==>
                Performs(old(disk), disk, id, save, ErrorOf(res), r => RestartLadder(r, code, now, window))
      ensures res.Ok? ==>
                var v := Ruling(old(disk), id, r => RestartLadder(r, code, now, window));
                v.Save? && res.value == v.next.ladderFailures
    {
      if !ValidLadderCode(code, false) || now == ZERO_TIME || window <= 0 {
        return Err(InvalidInput);
      }
      var loaded := LoadLocked(id);
      if loaded.Err? {
        return Err(loaded.error);
      }
      var verdict := CountLadderFailure(loaded.value, code, now, window);
      hide RestartLadder, Loadable, Normalize;
      var error := Commit(verdict, save);
      return if error.None? then Ok(verdict.next.ladderFailures) else Err(error.value);
    }

    method CountLadderFailure(r: Record, code: string, now: Time, window: int) returns (v: Verdict)
      ensures v == RestartLadder(r, code, now, window) && !v.Keep?
    {
      hide ValidEvent, EventId;
      var record := r;
      if !record.state.Active? || record.stopping {
        return Refuse(SessionTerminal);
      }
      var windowAt := if record.ladderWindowAt.Some? then record.ladderWindowAt.value else ZERO_TIME;
      if windowAt == ZERO_TIME || TimeSub(now, windowAt) > window {
        record := record.(ladderWindowAt := Some(now), ladderFailures := 0);
      }
      if record.ladderFailures == MAX_UINT32 || record.lastSequence == MAX_UINT64 {
        return Refuse(CounterOverflow);
      }
      record := record.(ladderFailures := record.ladderFailures + 1, ladderCode := code);
      v := AppendActiveEvent(record, LadderRestart, now, None);
    }

    /** (failed, stalled): at most one of them, and stalled only with a durable notice. */
    method EvaluateOutputHealth(id: string, now: Time, stallAfter: int, failAfter: int, save: SaveOutcome)
      returns (res: Result<(bool, bool)>)
      modifies this`disk
      ensures now == ZERO_TIME || stallAfter <= 0 || failAfter <= stallAfter ==> res == Err(InvalidInput) && disk == old(disk)
      ensures now != ZERO_TIME && 0 < stallAfter < failAfter ==>
                Performs(old(disk), disk, id, save, ErrorOf(res), r => Evaluate(r, now, stallAfter, failAfter))
      ensures res.Ok? ==>
                && LoadResult(old(disk), id).Ok?
                && var r := LoadResult(old(disk), id).value;
                   && Live(r)
                   && (res.value.0 <==> BothOlder(r, now, failAfter))
                   && (res.value.1 <==> !r.output.Stalled? && BothOlder(r, now, stallAfter) && !BothOlder(r, now, failAfter))
    {
      if now == ZERO_TIME || stallAfter <= 0 || failAfter <= stallAfter {
        return Err(InvalidInput);
      }
      var loaded := LoadLocked(id);
      if loaded.Err? {
        return Err(loaded.error);
      }
      var record := loaded.value;
      if !record.state.Active? || record.stopping {
        return Err(SessionTerminal);
      }
      if record.onlineAt.None? {
        return Ok((false, false));
      }
      var base := record.onlineAt.value;
      if record.lastSegmentAt.Some? && record.lastSegmentAt.value > base {
        base := record.lastSegmentAt.value;
      }
      var elapsed := TimeSub(now, base);
      if elapsed >= failAfter {
        return Ok((true, false));
      }
      if elapsed < stallAfter || record.output.Stalled? {
        return Ok((false, false));
      }
      var verdict := AppendActiveEvent(record.(output := Stalled, outputSince := Some(now)), OutputStalled, now, None);
      var error := Commit(verdict, save);
      return if error.None? then Ok((false, true)) else Err(error.value);
    }

    method RecordOutputStalled(id: string, now: Time, save: SaveOutcome) returns (res: Result<bool>)
      modifies this`disk
      ensures now == ZERO_TIME ==> res == Err(InvalidInput) && disk == old(disk)
      ensures now != ZERO_TIME ==> Performs(old(disk), disk, id, save, ErrorOf(res), r => RecordStalled(r, now))
      ensures res.Ok? ==> (res.value <==> Ruling(old(disk), id, r => RecordStalled(r, now)).Save?)
    {
      if now == ZERO_TIME {
        return Err(InvalidInput);
      }
      var loaded := LoadLocked(id);
      if loaded.Err? {
        return Err(loaded.error);
      }
      var record := loaded.value;
      if !record.state.Active? || record.stopping {
        return Err(SessionTerminal);
      }
      if record.output.Stalled? {
        return Ok(false);
      }
      var verdict := AppendActiveEvent(record.(output := Stalled, outputSince := Some(now)), OutputStalled, now, None);
      var error := Commit(verdict, save);
      return if error.None? then Ok(true) else Err(error.value);
    }

    /** BeginTermination and BeginFailure: the record now durable, and whether this call pinned it. */
    method BeginTerminal(id: string, reason: string, target: State, save: SaveOutcome)
      returns (res: Result<(Record, bool)>)
      modifies this`disk
      ensures !ValidCloseReason(reason) || target.Active? ==> res == Err(InvalidInput) && disk == old(disk)
      ensures ValidCloseReason(reason) && !target.Active? ==>
                Performs(old(disk), disk, id, save, ErrorOf(res), r => BeginTermination(r, reason, target))
      ensures res.Ok? ==>
                && LoadResult(old(disk), id).Ok?
                && var before := LoadResult(old(disk), id).value;
                   res.value == if Live(before) then (Stop(before, reason, target), true) else (before, false)
    {
      if !ValidCloseReason(reason) || target.Active? {
        return Err(InvalidInput);
      }
      var loaded := LoadLocked(id);
      if loaded.Err? {
        return Err(loaded.error);
      }
      var record := loaded.value;
      if !record.state.Active? || record.stopping {
        return Ok((record, false));
      }
      record := record.(stopping := true, pendingReason := reason, pendingState := Some(target), pendingKey := "");
      var saved := SaveLocked(record, save);
      return if saved then Ok((record, true)) else Err(SaveFailed);
    }

    method AcknowledgeEvent(id: string, eventId: string, save: SaveOutcome) returns (res: Result<()>)
      modifies this`disk
      ensures Performs(old(disk), disk, id, save, ErrorOf(res), r => SessionSteps.AcknowledgeEvent(r, eventId))
    {
      var loaded := LoadLocked(id);
      if loaded.Err? {
        return Err(loaded.error);
      }
      var record := loaded.value;
      if |record.pending| == 0 || record.pending[0].id != eventId {
        return Err(OutOfOrder);
      }
      record := record.(pending := record.pending[1..], delivery := None);
      var saved := SaveLocked(record, save);
      return if saved then Ok(()) else Err(SaveFailed);
    }

    /** Makes the attempt durable before the callback is posted. */
    method ReserveCallbackAttempt(sha: Digest, id: string, eventId: string, at: Time, initial: RetryDelay.int64,
                                  maximum: RetryDelay.int64, save: SaveOutcome)
      returns (res: Result<Delivery>)
      modifies this`disk
      ensures eventId == "" || at == ZERO_TIME || initial <= 0 || maximum < initial ==> res == Err(InvalidInput) && disk == old(disk)
      ensures eventId != "" && at != ZERO_TIME && 0 < initial <= maximum ==>
                Performs(old(disk), disk, id, save, ErrorOf(res), Reserving(sha, eventId, at, initial, maximum))
      ensures res.Ok? ==> id in disk && disk[id].delivery == Some(res.value)
    {
      hide RetryDelay.Delay, RetryDelay.JitterFactor, Loadable, Normalize, IsSha256Hex, ReserveAttempt;
      if eventId == "" || at == ZERO_TIME || initial <= 0 || maximum < initial {
        return Err(InvalidInput);
      }
      var loaded := LoadLocked(id);
      if loaded.Err? {
        return Err(loaded.error);
      }
      var record := loaded.value;
      var attempt := NextAttempt(sha, record, eventId, at, initial, maximum);
      if attempt.Err? {
        return Err(attempt.error);
      }
      var saved := SaveLocked(record.(delivery := Some(attempt.value)), save);
      return if saved then attempt else Err(SaveFailed);
    }

    method RecordCallbackRetryFailure(id: string, eventId: string, status: int, code: string, save: SaveOutcome)
      returns (res: Result<()>)
      modifies this`disk
      ensures !ValidCallbackFailure(status, code, true) ==> res == Err(InvalidInput) && disk == old(disk)
      ensures ValidCallbackFailure(status, code, true) ==>
                Performs(old(disk), disk, id, save, ErrorOf(res), r => RecordRetryFailure(r, eventId, status, code))
    {
      if !ValidCallbackFailure(status, code, true) {
        return Err(InvalidInput);
      }
      var loaded := LoadLocked(id);
      if loaded.Err? {
        return Err(loaded.error);
      }
      var record := loaded.value;
      if record.delivery.None? || record.delivery.value.eventId != eventId || |record.pending| == 0 || record.pending[0].id != eventId {
        return Err(OutOfOrder);
      }
      record := record.(delivery := Some(record.delivery.value.(status := status, code := code)));
      var saved := SaveLocked(record, save);
      return if saved then Ok(()) else Err(SaveFailed);
    }

    method ParkCallbackRejection(id: string, eventId: string, status: int, code: string, at: Time, save: SaveOutcome)
      returns (res: Result<()>)
      modifies this`disk
      ensures at == ZERO_TIME || !ValidCallbackFailure(status, code, false) ==> res == Err(InvalidInput) && disk == old(disk)
      ensures at != ZERO_TIME && ValidCallbackFailure(status, code, false) ==>
                Performs(old(disk), disk, id, save, ErrorOf(res), r => ParkRejection(r, eventId, status, code, at))
    {
      if at == ZERO_TIME || !ValidCallbackFailure(status, code, false) {
        return Err(InvalidInput);
      }
      var loaded := LoadLocked(id);
      if loaded.Err? {
        return Err(loaded.error);
      }
      hide Loadable, Normalize, ValidCallbackFailure;
      var verdict := Reject(loaded.value, eventId, status, code, at);
      hide ParkRejection;
      var error := Commit(verdict, save);
      return if error.None? then Ok(()) else Err(error.value);
    }

    method Reject(r: Record, eventId: string, status: int, code: string, at: Time) returns (v: Verdict)
      ensures v == ParkRejection(r, eventId, status, code, at) && !v.Keep?
    {
      var record := r;
      if |record.pending| == 0 || record.pending[0].id != eventId || record.delivery.None? || record.delivery.value.eventId != eventId {
        return Refuse(OutOfOrder);
      }
      var letter := DeadLetter(record.pending[0], record.delivery.value.attempts, status, code, at);
      record := record.(pending := record.pending[1..], delivery := None);
      if record.rejectedTotal == MAX_UINT64 {
        return Refuse(CounterOverflow);
      }
      record := record.(rejectedTotal := record.rejectedTotal + 1, deadLetters := record.deadLetters + [letter]);
      if |record.deadLetters| > MAX_DEAD_LETTERS {
        record := record.(deadLetters := record.deadLetters[|record.deadLetters| - MAX_DEAD_LETTERS..]);
      }
      return Save(record, Parked(letter));
    }

    method ClearTerminalSecrets(id: string, save: SaveOutcome) returns (res: Result<()>)
      modifies this`disk
      ensures Performs(old(disk), disk, id, save, ErrorOf(res), r => SessionSteps.ClearTerminalSecrets(r))
    {
      var loaded := LoadLocked(id);
      if loaded.Err? {
        return Err(loaded.error);
      }
      var record := loaded.value;
      if record.state.Active? || |record.pending| != 0 {
        return Err(OutOfOrder);
      }
      var saved := SaveLocked(record.(secrets := None), save);
      return if saved then Ok(()) else Err(SaveFailed);
    }

    /** The response to hand out, and whether it is a replay of a stored one. */
    method RecordKeyIssue(id: string, request: KeyRequest, response: KeyResponse, save: SaveOutcome)
      returns (res: Result<(KeyResponse, bool)>)
      modifies this`disk
      ensures !ValidKeyRequest(request) || !ValidKeyResponse(request, response) ==> res == Err(InvalidInput) && disk == old(disk)
      ensures ValidKeyRequest(request) && ValidKeyResponse(request, response) ==>
                Performs(old(disk), disk, id, save, ErrorOf(res), r => SessionSteps.RecordKeyIssue(r, request, response))
      ensures res.Ok? ==>
                && LoadResult(old(disk), id).Ok?
                && var r := LoadResult(old(disk), id).value;
                   && r.secrets.Some?
                   && res.value == if request.id in r.secrets.value.issues then (r.secrets.value.issues[request.id].response, true)
                                   else (response, false)
    {
      if !ValidKeyRequest(request) || !ValidKeyResponse(request, response) {
        return Err(InvalidInput);
      }
      var loaded := LoadLocked(id);
      if loaded.Err? {
        return Err(loaded.error);
      }
      var record := loaded.value;
      if !record.state.Active? || record.stopping || record.secrets.None? {
        return Err(SessionTerminal);
      }
      var secrets := record.secrets.value;
      if request.id in secrets.issues {
        var stored := secrets.issues[request.id];
        if stored.fingerprint != request {
          return Err(RequestIdReuse);
        }
        if secrets.currentKey != request.id {
          return Err(RequestSuperseded);
        }
        return Ok((stored.response, true));
      }
      if record.pendingKey != "" {
        return Err(KeyActivationInFlight);
      }
      var issues := BlankStreamKeys(secrets.issues);
      if secrets.currentKey != "" {
        record := record.(pendingKey := request.id);
      }
      secrets := secrets.(issues := issues[request.id := KeyIssue(request, request, response)], currentKey := request.id);
      record := record.(secrets := Some(secrets));
      var saved := SaveLocked(record, save);
      return if saved then Ok((response, false)) else Err(SaveFailed);
    }

    method BlankStreamKeys(issues: map<string, KeyIssue>) returns (blanked: map<string, KeyIssue>)
      ensures blanked == Blanked(issues)
    {
      blanked := issues;
      var todo := issues.Keys;
      while todo != {}
        invariant todo <= issues.Keys == blanked.Keys
        invariant forall id :: id in issues.Keys - todo ==> blanked[id] == Blanked(issues)[id]
        invariant forall id :: id in todo ==> blanked[id] == issues[id]
        decreases todo
      {
        var id :| id in todo;
        blanked := blanked[id := blanked[id].(response := blanked[id].response.(streamKey := ""))];
        todo := todo - {id};
      }
    }

    method CompleteKeyActivation(id: string, requestId: string, save: SaveOutcome) returns (res: Result<()>)
      modifies this`disk
      ensures !OpaqueId(requestId) ==> res == Err(InvalidInput) && disk == old(disk)
      ensures OpaqueId(requestId) ==>
                Performs(old(disk), disk, id, save, ErrorOf(res), r => CompleteActivation(r, requestId))
    {
      if !OpaqueId(requestId) {
        return Err(InvalidInput);
      }
      var loaded := LoadLocked(id);
      if loaded.Err? {
        return Err(loaded.error);
      }
      var record := loaded.value;
      if !record.state.Active? || record.stopping || record.secrets.None? {
        return Err(SessionTerminal);
      }
      if record.pendingKey == "" {
        return Ok(());
      }
      if record.pendingKey != requestId || record.secrets.value.currentKey != requestId {
        return Err(OutOfOrder);
      }
      var saved := SaveLocked(record.(pendingKey := ""), save);
      return if saved then Ok(()) else Err(SaveFailed);
    }
  }

  lemma OutputStarted(disk: map<string, Record>, id: string)
    ensures LoadResult(disk, id).Ok? ==> LoadResult(disk, id).value.outputSince.Some?
  {
  }

  /** Starts the absence clock unless it runs already. */
  method Clocked(record: Record, now: Time, initialWait: int, grace: int) returns (clocked: Record)
    requires record.outputSince.Some?
    ensures clocked == if record.deadline.Some? then record else WithDeadline(record, now, initialWait, grace)
  {
    clocked := record;
    if record.deadline.None? {
      var base, wait := record.outputSince.value, initialWait;
      if record.publisherSeen || record.lastSegmentAt.Some? {
        wait := grace;
        if record.offlineSince.None? {
          clocked := record.(offlineSince := Some(now));
        }
        base := clocked.offlineSince.value;
      }
      clocked := clocked.(deadline := Some(base + wait));
    }
  }

  method NextAttempt(sha: Digest, record: Record, eventId: string, at: Time, initial: RetryDelay.int64,
                     maximum: RetryDelay.int64)
    returns (res: Result<Delivery>)
    requires 0 < initial <= maximum
    ensures match res
            case Err(e) => ReserveAttempt(sha, record, eventId, at, initial, maximum) == Refuse(e)
            case Ok(d) =>
              ReserveAttempt(sha, record, eventId, at, initial, maximum) == Save(record.(delivery := Some(d)), Silent)
  {
    ReserveByNumber(sha, record, eventId, at, initial, maximum);
    hide RetryDelay.Delay, IsSha256Hex, ReserveAttempt, NumberOf;
    var attempts := AttemptNumber(record, eventId, at);
    if attempts.Err? {
      return Err(attempts.error);
    }
    var delay := RetryDelay.CallbackRetryDelay(sha, eventId, attempts.value, initial, maximum);
    return Ok(Delivery(eventId, attempts.value, at, at + delay, 0, ""));
  }

  function NumberOf(r: Record, eventId: string, at: Time): (n: Result<uint32>)
    ensures n.Ok? ==> n.value > 0
  {
    if !IsHead(r, eventId) then Err(OutOfOrder)
    else if r.delivery.None? then Ok(1)
    else if r.delivery.value.eventId != eventId then Err(OutOfOrder)
    else if r.delivery.value.attempts == MAX_UINT32 then Err(CounterOverflow)
    else if at < r.delivery.value.nextAt then Err(NotDue)
    else Ok(r.delivery.value.attempts + 1)
  }

  lemma ReserveByNumber(sha: Digest, r: Record, eventId: string, at: Time, initial: int, maximum: int)
    requires 0 < initial <= maximum
    ensures ReserveAttempt(sha, r, eventId, at, initial, maximum) ==
              match NumberOf(r, eventId, at)
              case Err(e) => Refuse(e)
              case Ok(n) =>
                var next := at + RetryDelay.Delay(sha, eventId, n, initial, maximum);
                Save(r.(delivery := Some(Delivery(eventId, n, at, next, 0, ""))), Silent)
  {
    hide RetryDelay.Delay, RetryDelay.JitterFactor, RetryDelay.Backoff, RetryDelay.Jittered, OpaqueId;
  }

  /** Only the head can be attempted, in order, when due, and while the counter lasts. */
  method AttemptNumber(record: Record, eventId: string, at: Time) returns (res: Result<uint32>)
    ensures res == NumberOf(record, eventId, at) && (res.Ok? ==> res.value > 0)
  {
    if |record.pending| == 0 || record.pending[0].id != eventId {
      return Err(OutOfOrder);
    }
    var attempts: uint32 := 1;
    if record.delivery.Some? {
      if record.delivery.value.eventId != eventId {
        return Err(OutOfOrder);
      }
      if record.delivery.value.attempts == MAX_UINT32 {
        return Err(CounterOverflow);
      }
      if at < record.delivery.value.nextAt {
        return Err(NotDue);
      }
      attempts := record.delivery.value.attempts + 1;
    }
    return Ok(attempts);
  }

  /** The field updates and the tick that follow a changed meter. */
  method AfterMetering(r: Record, metered: uint64, identities: seq<string>, now: Time) returns (v: Verdict)
    ensures v == var counted := Counted(r, Meter(metered, identities), now);
                 var total := metered / MICROS_PER_SECOND;
                 if total > r.usageTotal then Emit(counted.(usageTotal := total), UsageTick, now, Some(total))
                 else Save(counted, Silent)
  {
    var record := r.(metered := metered, segments := identities);
    if record.firstSegmentAt.None? {
      record := record.(firstSegmentAt := Some(now));
    }
    record := record.(lastSegmentAt := Some(now));
    if !record.output.Producing? {
      record := record.(output := Producing, outputSince := Some(now));
    }
    record := record.(ladderWindowAt := None, ladderFailures := 0);
    var total := record.metered / MICROS_PER_SECOND;
    if total <= record.usageTotal {
      return Save(record, Silent);
    }
    v := AppendActiveEvent(record.(usageTotal := total), UsageTick, now, Some(total));
  }

  method AppendActiveEvent(r: Record, kind: EventKind, now: Time, usage: Option<uint64>) returns (v: Verdict)
    ensures v == Emit(r, kind, now, usage)
  {
    if r.lastSequence == MAX_UINT64 {
      return Refuse(SequenceOverflow);
    }
    var sequence := r.lastSequence + 1;
    var e := Event(EventId(r.runnerId, sequence), sequence, kind, now, Active, usage, None);
    if !ValidEvent(e) {
      return Refuse(InvalidEvent);
    }
    return Save(r.(lastSequence := sequence, lastEventAt := Some(now), pending := r.pending + [e]), Appended(e));
  }

  /** The segment loop: skip what was metered before, refuse on overflow. */
  method MeterSegments(sha: Digest, start: Meter, batch: seq<Segment>) returns (res: Result<Meter>)
    ensures res == MeterBatch(sha, start, batch)
  {
    hide IsSha256Hex;
    var metered: uint64, identities := start.micros, start.identities;
    var seen := Elements(identities);
    for k := 0 to |batch|
      invariant MeterBatch(sha, start, batch[..k]) == Ok(Meter(metered, identities))
      invariant seen == Elements(identities)
    {
      var segment := batch[k];
      MeterBatchStep(sha, start, batch, k);
      hide MeterBatch, Elements;
      if segment.uri == "" || segment.micros == 0 {
        BatchFailsWithPrefix(sha, start, batch, k + 1);
        return Err(InvalidInput);
      }
      var identity := Hash(sha, segment.uri);
      if identity !in seen {
        if metered + segment.micros > MAX_UINT64 {
          BatchFailsWithPrefix(sha, start, batch, k + 1);
          return Err(TimelineOverflow);
        }
        metered := metered + segment.micros;
        ElementsAppend(identities, identity);
        identities := identities + [identity];
        seen := seen + {identity};
      }
    }
    assert batch[..|batch|] == batch;
    return Ok(Meter(metered, identities));
  }

  function Elements(s: seq<string>): (all: set<string>)
    ensures forall x :: x in all <==> x in s
  {
    set x <- s
  }

  lemma ElementsAppend(s: seq<string>, x: string)
    ensures Elements(s + [x]) == Elements(s) + {x}
  {
  }

  lemma MeterBatchStep(sha: Digest, m: Meter, batch: seq<Segment>, k: nat)
    requires k < |batch| && MeterBatch(sha, m, batch[..k]).Ok?
    ensures MeterBatch(sha, m, batch[..k + 1]) == MeterOne(sha, MeterBatch(sha, m, batch[..k]).value, batch[k])
  {
    assert batch[..k + 1][..|batch[..k + 1]| - 1] == batch[..k];
  }

  method CountSegments(sha: Digest, record: Record, batch: seq<Segment>, now: Time) returns (v: Verdict)
    ensures v == AddSegments(sha, record, batch, now)
  {
    if !record.state.Active? || record.stopping {
      return Refuse(SessionTerminal);
    }
    if record.lastSequence == 0 {
      return Refuse(SessionNotStarted);
    }
    var meter := MeterSegments(sha, Meter(record.metered, record.segments), batch);
    hide MeterBatch, Emit;
    if meter.Err? {
      return Refuse(meter.error);
    }
    if meter.value.identities == record.segments {
      return Keep;
    }
    v := AfterMetering(record, meter.value.micros, meter.value.identities, now);
  }

  lemma {:induction false} BatchFailsWithPrefix(sha: Digest, m: Meter, batch: seq<Segment>, k: nat)
    requires k <= |batch| && MeterBatch(sha, m, batch[..k]).Err?
    ensures MeterBatch(sha, m, batch) == MeterBatch(sha, m, batch[..k])
  {
    if k == |batch| {
      assert batch[..k] == batch;
    } else {
      var init := batch[..|batch| - 1];
      assert init[..k] == batch[..k];
      BatchFailsWithPrefix(sha, m, init, k);
    }
  }
}
