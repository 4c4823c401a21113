/** What each store mutator decides, as a function of the loaded record. */
module SessionSteps {
  import opened Basics
  import opened LiveContract
  import opened SessionRecord
  import RetryDelay

  datatype Segment = Segment(uri: string, micros: uint64)

  /** Ghost label of a committed mutation: what it did to the outbox. */
  datatype Effect = Silent | Appended(event: Event) | Acknowledged(event: Event) | Parked(letter: DeadLetter)

  datatype Verdict = Refuse(error: Error) | Keep | Save(next: Record, effect: Effect)

  datatype Op =
    | Segments(batch: seq<Segment>, now: Time)
    | HeartbeatOp(now: Time, interval: int)
    | Presence(online: bool, now: Time)
    | ExpireAbsent(now: Time, initialWait: int, grace: int)
    | LadderRestartOp(code: string, now: Time, window: int)
    | EvaluateHealth(now: Time, stallAfter: int, failAfter: int)
    | StallOutput(now: Time)
    | BeginTerminal(reason: string, target: State)
    | Acknowledge(eventId: string)
    | Reserve(eventId: string, at: Time, initial: RetryDelay.int64, maximum: RetryDelay.int64)
    | RetryFailure(eventId: string, status: int, code: string)
    | Park(eventId: string, status: int, code: string, at: Time)
    | ClearSecrets
    | IssueKey(request: KeyRequest, response: KeyResponse)
    | CompleteKey(requestId: string)

  /** The argument checks made before the record is loaded. */
  predicate Admissible(op: Op)
  {
    match op
    case Segments(_, now) => now != ZERO_TIME
    case HeartbeatOp(now, interval) => now != ZERO_TIME && interval > 0
    case Presence(_, now) => now != ZERO_TIME
    case ExpireAbsent(now, initialWait, grace) => now != ZERO_TIME && initialWait > 0 && grace > 0
    case LadderRestartOp(code, now, window) => ValidLadderCode(code, false) && now != ZERO_TIME && window > 0
    case EvaluateHealth(now, stallAfter, failAfter) => now != ZERO_TIME && stallAfter > 0 && failAfter > stallAfter
    case StallOutput(now) => now != ZERO_TIME
    case BeginTerminal(reason, target) => ValidCloseReason(reason) && IsTerminal(target)
    case Acknowledge(_) => true
    case Reserve(eventId, at, initial, maximum) => eventId != "" && at != ZERO_TIME && initial > 0 && maximum >= initial
    case RetryFailure(_, status, code) => ValidCallbackFailure(status, code, true)
    case Park(_, status, code, at) => at != ZERO_TIME && ValidCallbackFailure(status, code, false)
    case ClearSecrets => true
    case IssueKey(request, response) => ValidKeyRequest(request) && ValidKeyResponse(request, response)
    case CompleteKey(requestId) => OpaqueId(requestId)
  }

  /** Runs only while the session is neither stopping nor terminal. */
  predicate Live(r: Record) { r.state.Active? && !r.stopping }

  /** Append one active-state event at the next sequence number. */
  function Emit(r: Record, kind: EventKind, now: Time, usage: Option<uint64>): (v: Verdict)
  {
    if r.lastSequence == MAX_UINT64 then Refuse(SequenceOverflow)
    else
      var sequence := r.lastSequence + 1;
      var e := Event(EventId(r.runnerId, sequence), sequence, kind, now, Active, usage, None);
      if !ValidEvent(e) then Refuse(InvalidEvent)
      else Save(r.(lastSequence := sequence, lastEventAt := Some(now), pending := r.pending + [e]), Appended(e))
  }

  // ----------------------------------------------------------------- Advance

  /** Accepts an event built elsewhere; see StartEvent and TerminalEvent for its real callers. */
  function Advance(r: Record, e: Event): (v: Verdict)
  {
    if !r.state.Active? || (r.stopping && e.state.Active?) then Refuse(SessionTerminal)
    else if r.stopping && e.closeReason != Some(r.pendingReason) then Refuse(CloseReasonDiffers)
    else if e.id != EventId(r.runnerId, e.sequence) then Refuse(InvalidEvent)
    else if (r.metered > 0 || r.segments != []) && e.usage.Some? && e.usage.value != r.metered / MICROS_PER_SECOND then
      Refuse(UsageDiffersFromMeter)
    else
      var cursor := Cursor(r.lastSequence, r.usageTotal, r.lastSequence > 0, set p <- r.pending :: p.id);
      match AcceptNext(cursor, e)
      case Err(error) => Refuse(error)
      case Ok(next) =>
        var advanced := r.(lastSequence := next.sequence, usageTotal := next.usageTotal,
                           lastEventAt := Some(e.time), pending := r.pending + [e]);
        if e.state.Active? then Save(advanced, Appended(e))
        else Save(advanced.(state := e.state, closeReason := e.closeReason.value, stopping := false,
                            pendingReason := "", pendingState := None, pendingKey := ""), Appended(e))
  }

  /** The event EnsureSession sends from a snapshot with no events yet. */
  function StartEvent(snapshot: Record, now: Time): (e: Event)
  {
    Event(EventId(snapshot.runnerId, 1), 1, Started, now, Active, None, None)
  }

  /** The event FinalizeLiveTerminationV1 builds from its unlocked Load. The
      sequence increment is unchecked in the source. */
  function TerminalEvent(snapshot: Record, now: Time): (e: Event)
  {
    var target := if snapshot.pendingState.Some? then snapshot.pendingState.value else Ended;
    var sequence := Wrap64(snapshot.lastSequence + 1);
    Event(EventId(snapshot.runnerId, sequence), sequence, if target.Failed? then SessionFailed else SessionEnded,
          now, target, Some(snapshot.usageTotal), Some(snapshot.pendingReason))
  }

  // ---------------------------------------------------------------- metering

  datatype Meter = Meter(micros: uint64, identities: seq<string>)

  function MeterOne(sha: Digest, m: Meter, s: Segment): (r: Result<Meter>)
  {
    if s.uri == "" || s.micros == 0 then Err(InvalidInput)
    else if Hash(sha, s.uri) in m.identities then Ok(m)
    else if m.micros + s.micros > MAX_UINT64 then Err(TimelineOverflow)
    else Ok(Meter(m.micros + s.micros, m.identities + [Hash(sha, s.uri)]))
  }

  function MeterBatch(sha: Digest, m: Meter, batch: seq<Segment>): (r: Result<Meter>)
  {
    if batch == [] then Ok(m)
    else match MeterBatch(sha, m, batch[..|batch| - 1])
         case Err(error) => Err(error)
         case Ok(before) => MeterOne(sha, before, batch[|batch| - 1])
  }

  function AddSegments(sha: Digest, r: Record, batch: seq<Segment>, now: Time): (v: Verdict)
  {
    if !Live(r) then Refuse(SessionTerminal)
    else if r.lastSequence == 0 then Refuse(SessionNotStarted)
    else match MeterBatch(sha, Meter(r.metered, r.segments), batch)
         case Err(error) => Refuse(error)
         case Ok(m) =>
           if m.identities == r.segments then Keep
           else
             var total := m.micros / MICROS_PER_SECOND;
             var counted := r.(
               metered := m.micros, segments := m.identities,
               firstSegmentAt := if r.firstSegmentAt.None? then Some(now) else r.firstSegmentAt,
               lastSegmentAt := Some(now),
               output := Producing,
               outputSince := if r.output.Producing? then r.outputSince else Some(now),
               ladderWindowAt := None, ladderFailures := 0);
             if total > r.usageTotal then Emit(counted.(usageTotal := total), UsageTick, now, Some(total))
             else Save(counted, Silent)
  }

  function RecordHeartbeat(r: Record, now: Time, interval: int): (v: Verdict)
  {
    if !Live(r) then Refuse(SessionTerminal)
    else if r.lastSequence == 0 then Refuse(SessionNotStarted)
    else if r.lastEventAt.Some? && now < r.lastEventAt.value + interval then Keep
    else Emit(r, Heartbeat, now, Some(r.usageTotal))
  }

  // --------------------------------------------------- publisher and output

  function RecordPresence(r: Record, online: bool, now: Time): (v: Verdict)
  {
    if !Live(r) then Refuse(SessionTerminal)
    else if online && r.onlineAt.None? then
      Save(r.(onlineAt := Some(now), publisherSeen := true, offlineSince := None, deadline := None,
              output := Waiting, outputSince := Some(now)), Silent)
    else if !online && r.onlineAt.Some? then
      Save(r.(onlineAt := None, publisherSeen := true, offlineSince := Some(now), deadline := None,
              output := Waiting, outputSince := Some(now), ladderWindowAt := None, ladderFailures := 0), Silent)
    else Keep
  }

  function Stop(r: Record, reason: string, target: State): (next: Record)
  {
    r.(stopping := true, pendingReason := reason, pendingState := Some(target), pendingKey := "")
  }

  /** The absence clock: a started deadline is never recomputed. */
  function WithDeadline(r: Record, now: Time, initialWait: int, grace: int): (next: Record)
    requires r.outputSince.Some?
    ensures next.deadline.Some? && next == r.(offlineSince := next.offlineSince, deadline := next.deadline)
  {
    if r.deadline.Some? then r
    else if r.publisherSeen || r.lastSegmentAt.Some? then
      var base := if r.offlineSince.Some? then r.offlineSince.value else now;
      r.(offlineSince := Some(base), deadline := Some(base + grace))
    else r.(deadline := Some(r.outputSince.value + initialWait))
  }

  function ExpirePublisher(r: Record, now: Time, initialWait: int, grace: int): (v: Verdict)
  {
    if !Live(r) then Refuse(SessionTerminal)
    else if r.onlineAt.Some? then Keep
    else if r.deadline.None? && r.outputSince.None? then Refuse(Corrupt)
    else
      var clocked := if r.deadline.Some? then r else WithDeadline(r, now, initialWait, grace);
      if now >= clocked.deadline.value then Save(Stop(clocked, "publisher_disconnect", Ended), Silent)
      else if r.deadline.None? then Save(clocked, Silent)
      else Keep
  }

  function RestartLadder(r: Record, code: string, now: Time, window: int): (v: Verdict)
  {
    if !Live(r) then Refuse(SessionTerminal)
    else
      var restarted := r.ladderWindowAt.None? || r.ladderWindowAt.value == ZERO_TIME || TimeSub(now, r.ladderWindowAt.value) > window;
      var windowed := if restarted then r.(ladderWindowAt := Some(now), ladderFailures := 0) else r;
      if windowed.ladderFailures == MAX_UINT32 || r.lastSequence == MAX_UINT64 then Refuse(CounterOverflow)
      else Emit(windowed.(ladderFailures := windowed.ladderFailures + 1, ladderCode := code), LadderRestart, now, None)
  }

  function OutputBase(r: Record): (base: Time)
    requires r.onlineAt.Some?
  {
    if r.lastSegmentAt.Some? && r.lastSegmentAt.value > r.onlineAt.value then r.lastSegmentAt.value else r.onlineAt.value
  }

  predicate OutputFailing(r: Record, now: Time, failAfter: int)
  {
    Live(r) && r.onlineAt.Some? && TimeSub(now, OutputBase(r)) >= failAfter
  }

  /** The report of the publisher and the last segment, if any, are at least this old. */
  predicate BothOlder(r: Record, now: Time, age: int)
  {
    && r.onlineAt.Some? && TimeSub(now, r.onlineAt.value) >= age
    && (r.lastSegmentAt.Some? ==> TimeSub(now, r.lastSegmentAt.value) >= age)
  }

  function Evaluate(r: Record, now: Time, stallAfter: int, failAfter: int): (v: Verdict)
  {
    if !Live(r) then Refuse(SessionTerminal)
    else if r.onlineAt.None? || OutputFailing(r, now, failAfter) then Keep
    else if TimeSub(now, OutputBase(r)) < stallAfter || r.output.Stalled? then Keep
    else MarkStalled(r, now)
  }

  function MarkStalled(r: Record, now: Time): (v: Verdict)
  {
    Emit(r.(output := Stalled, outputSince := Some(now)), OutputStalled, now, None)
  }

  function RecordStalled(r: Record, now: Time): (v: Verdict)
  {
    if !Live(r) then Refuse(SessionTerminal)
    else if r.output.Stalled? then Keep
    else MarkStalled(r, now)
  }

  function BeginTermination(r: Record, reason: string, target: State): (v: Verdict)
  {
    if Live(r) then Save(Stop(r, reason, target), Silent) else Keep
  }

  // ------------------------------------------------------------------ outbox

  predicate IsHead(r: Record, eventId: string) { r.pending != [] && r.pending[0].id == eventId }

  function AcknowledgeEvent(r: Record, eventId: string): (v: Verdict)
  {
    if !IsHead(r, eventId) then Refuse(OutOfOrder)
    else Save(r.(pending := r.pending[1..], delivery := None), Acknowledged(r.pending[0]))
  }

  function ReserveAttempt(sha: Digest, r: Record, eventId: string, at: Time, initial: int, maximum: int): (v: Verdict)
    requires 0 < initial <= maximum
  {
    if !IsHead(r, eventId) then Refuse(OutOfOrder)
    else if r.delivery.Some? && r.delivery.value.eventId != eventId then Refuse(OutOfOrder)
    else if r.delivery.Some? && r.delivery.value.attempts == MAX_UINT32 then Refuse(CounterOverflow)
    else if r.delivery.Some? && at < r.delivery.value.nextAt then Refuse(NotDue)
    else
      var attempts := if r.delivery.Some? then r.delivery.value.attempts + 1 else 1;
      var next := at + RetryDelay.Delay(sha, eventId, attempts, initial, maximum);
      Save(r.(delivery := Some(Delivery(eventId, attempts, at, next, 0, ""))), Silent)
  }

  predicate IsReserved(r: Record, eventId: string)
  {
    IsHead(r, eventId) && r.delivery.Some? && r.delivery.value.eventId == eventId
  }

  function RecordRetryFailure(r: Record, eventId: string, status: int, code: string): (v: Verdict)
  {
    if !IsReserved(r, eventId) then Refuse(OutOfOrder)
    else Save(r.(delivery := Some(r.delivery.value.(status := status, code := code))), Silent)
  }

  function LastLetters(letters: seq<DeadLetter>): (kept: seq<DeadLetter>)
  {
    if |letters| > MAX_DEAD_LETTERS then letters[|letters| - MAX_DEAD_LETTERS..] else letters
  }

  function ParkRejection(r: Record, eventId: string, status: int, code: string, at: Time): (v: Verdict)
  {
    if !IsReserved(r, eventId) then Refuse(OutOfOrder)
    else if r.rejectedTotal == MAX_UINT64 then Refuse(CounterOverflow)
    else
      var letter := DeadLetter(r.pending[0], r.delivery.value.attempts, status, code, at);
      Save(r.(pending := r.pending[1..], delivery := None, rejectedTotal := r.rejectedTotal + 1,
              deadLetters := LastLetters(r.deadLetters + [letter])), Parked(letter))
  }

  function ClearTerminalSecrets(r: Record): (v: Verdict)
  {
    if r.state.Active? || r.pending != [] then Refuse(OutOfOrder) else Save(r.(secrets := None), Silent)
  }

  // -------------------------------------------------------------------- keys

  function Blanked(issues: map<string, KeyIssue>): (blanked: map<string, KeyIssue>)
    ensures blanked.Keys == issues.Keys
  {
    map id <- issues :: issues[id].(response := issues[id].response.(streamKey := ""))
  }

  function RecordKeyIssue(r: Record, request: KeyRequest, response: KeyResponse): (v: Verdict)
  {
    if !Live(r) || r.secrets.None? then Refuse(SessionTerminal)
    else
      var s := r.secrets.value;
      if request.id in s.issues then
        if s.issues[request.id].fingerprint != request then Refuse(RequestIdReuse)
        else if s.currentKey != request.id then Refuse(RequestSuperseded)
        else Keep
      else if r.pendingKey != "" then Refuse(KeyActivationInFlight)
      else
        var issues := Blanked(s.issues)[request.id := KeyIssue(request, request, response)];
        Save(r.(pendingKey := if s.currentKey != "" then request.id else r.pendingKey,
                secrets := Some(s.(issues := issues, currentKey := request.id))), Silent)
  }

  function CompleteActivation(r: Record, requestId: string): (v: Verdict)
  {
    if !Live(r) || r.secrets.None? then Refuse(SessionTerminal)
    else if r.pendingKey == "" then Keep
    else if r.pendingKey != requestId || r.secrets.value.currentKey != requestId then Refuse(OutOfOrder)
    else Save(r.(pendingKey := ""), Silent)
  }

  // ---------------------------------------------------------------- dispatch

  function Decide(sha: Digest, r: Record, op: Op): (v: Verdict)
  {
    if !Admissible(op) then Refuse(InvalidInput)
    else match op
         case Segments(batch, now) => AddSegments(sha, r, batch, now)
         case HeartbeatOp(now, interval) => RecordHeartbeat(r, now, interval)
         case Presence(online, now) => RecordPresence(r, online, now)
         case ExpireAbsent(now, initialWait, grace) => ExpirePublisher(r, now, initialWait, grace)
         case LadderRestartOp(code, now, window) => RestartLadder(r, code, now, window)
         case EvaluateHealth(now, stallAfter, failAfter) => Evaluate(r, now, stallAfter, failAfter)
         case StallOutput(now) => RecordStalled(r, now)
         case BeginTerminal(reason, target) => BeginTermination(r, reason, target)
         case Acknowledge(eventId) => AcknowledgeEvent(r, eventId)
         case Reserve(eventId, at, initial, maximum) => ReserveAttempt(sha, r, eventId, at, initial, maximum)
         case RetryFailure(eventId, status, code) => RecordRetryFailure(r, eventId, status, code)
         case Park(eventId, status, code, at) => ParkRejection(r, eventId, status, code, at)
         case ClearSecrets => ClearTerminalSecrets(r)
         case IssueKey(request, response) => RecordKeyIssue(r, request, response)
         case CompleteKey(requestId) => CompleteActivation(r, requestId)
  }
}
