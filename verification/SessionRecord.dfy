/** The durable session record and the checks every load applies to it. */
module SessionRecord {
  import opened Basics
  import opened LiveContract

  /** `wellFormed` stands for the URL and parameter checks on the opaque rest. */
  datatype CreateRequest = CreateRequest(sessionId: string, body: string, wellFormed: bool)

  /** `published` is the public runtime descriptor together with the grant audit. */
  datatype CreateResponse = CreateResponse(runnerId: string, published: string, wellFormed: bool)

  datatype Audience = GatewayRelay | DirectPublisher
  datatype KeyRequest = KeyRequest(id: string, audience: Audience)
  /** An expiry that does not parse is None. */
  datatype KeyResponse = KeyResponse(requestId: string, streamKey: string, expiresAt: Option<Time>)
  datatype KeyIssue = KeyIssue(fingerprint: KeyRequest, request: KeyRequest, response: KeyResponse)

  datatype Secrets = Secrets(
    request: CreateRequest,
    response: CreateResponse,
    currentKey: string,
    issues: map<string, KeyIssue>)

  datatype OutputState = Unset | Waiting | Producing | Stalled

  datatype Delivery = Delivery(
    eventId: string,
    attempts: uint32,
    lastAt: Time,
    nextAt: Time,
    status: int,
    code: string)

  datatype DeadLetter = DeadLetter(event: Event, attempts: uint32, status: int, code: string, rejectedAt: Time)

  /** Empty text timestamps are None; the four envelope fields are one Option. */
  datatype Record = Record(
    brokerId: string,
    runnerId: string,
    fingerprint: CreateRequest,
    published: string,
    state: State,
    stopping: bool,
    pendingReason: string,
    pendingState: Option<State>,
    pendingKey: string,
    usageTotal: uint64,
    lastSequence: uint64,
    metered: uint64,
    segments: seq<string>,
    publisherSeen: bool,
    offlineSince: Option<Time>,
    deadline: Option<Time>,
    onlineAt: Option<Time>,
    firstSegmentAt: Option<Time>,
    lastSegmentAt: Option<Time>,
    output: OutputState,
    outputSince: Option<Time>,
    ladderCode: string,
    ladderWindowAt: Option<Time>,
    ladderFailures: uint32,
    lastEventAt: Option<Time>,
    pending: seq<Event>,
    delivery: Option<Delivery>,
    deadLetters: seq<DeadLetter>,
    rejectedTotal: uint64,
    closeReason: string,
    secrets: Option<Secrets>)

  const MAX_DEAD_LETTERS := 32

  const LADDER_CODES: set<string> := {
    "encoder_init_failed", "hwaccel_init_failed", "input_unavailable",
    "output_rejected", "process_killed", "unknown" }

  predicate ValidLadderCode(code: string, allowEmpty: bool)
  {
    if code == "" then allowEmpty else code in LADDER_CODES
  }

  /** `^[a-z][a-z0-9_.-]{0,63}$` */
  predicate CallbackErrorCode(code: string)
  {
    && 1 <= |code| <= 64
    && 'a' <= code[0] <= 'z'
    && forall i :: 0 <= i < |code| ==> 'a' <= code[i] <= 'z' || IsDigit(code[i]) || code[i] in "_.-"
  }

  predicate ValidCallbackFailure(status: int, code: string, allowTransport: bool)
  {
    if status == 0 then allowTransport && (code == "" || code == "transport_error")
    else 100 <= status <= 599 && CallbackErrorCode(code)
  }

  predicate ValidCreateRequest(q: CreateRequest) { OpaqueId(q.sessionId) && q.wellFormed }

  predicate ValidCreateResponse(a: CreateResponse) { OpaqueId(a.runnerId) && a.wellFormed }

  predicate ValidKeyRequest(q: KeyRequest) { OpaqueId(q.id) }

  predicate Blank(s: string) { forall i :: 0 <= i < |s| ==> IsSpace(s[i]) }

  predicate ValidKeyResponse(q: KeyRequest, a: KeyResponse)
  {
    a.requestId == q.id && !Blank(a.streamKey) && ByteLength(a.streamKey) <= 512 && a.expiresAt.Some?
  }

  // ------------------------------------------------------------ normalisation

  /** loadLocked fills in fields that older records lack before validating. */
  function Normalize(r: Record): (n: Record)
  {
    var withOutput :=
      if r.output.Unset? then
        r.(output := Waiting, outputSince := if r.lastEventAt.Some? then r.lastEventAt else Some(UNIX_EPOCH))
      else r;
    if withOutput.stopping && withOutput.pendingState.None? then withOutput.(pendingState := Some(Ended)) else withOutput
  }

  // --------------------------------------------------------------- validation

  predicate OwnEvent(r: Record, e: Event)
  {
    ValidEvent(e) && e.id == EventId(r.runnerId, e.sequence) && e.sequence <= r.lastSequence
  }

  ghost predicate OutboxAccepted(r: Record)
  {
    OutboxPrefixAccepted(r, |r.pending|)
  }

  ghost predicate OutboxPrefixAccepted(r: Record, k: nat)
    requires k <= |r.pending|
  {
    && (forall i :: 0 <= i < k ==> OwnEvent(r, r.pending[i]))
    && (forall i, j :: 0 <= i < j < k ==> OutboxOrder(r.pending[i], r.pending[j]))
  }

  predicate OutboxOrder(a: Event, b: Event)
  {
    a.sequence < b.sequence && (a.usage.Some? && b.usage.Some? ==> a.usage.value <= b.usage.value)
  }

  predicate TailAccepted(r: Record)
  {
    r.pending != [] ==>
      var last := r.pending[|r.pending| - 1];
      last.sequence == r.lastSequence && (last.usage.Some? ==> last.usage.value == r.usageTotal)
  }

  predicate HealthAccepted(r: Record)
  {
    && !r.output.Unset?
    && ValidLadderCode(r.ladderCode, true)
    && r.outputSince.Some?
    && (r.ladderFailures > 0 <==> r.ladderWindowAt.Some?)
  }

  predicate LifecycleAccepted(r: Record)
  {
    && (r.state.Active? ==> r.secrets.Some?)
    && (IsTerminal(r.state) <==> r.closeReason != "")
    && (r.closeReason != "" ==> ValidCloseReason(r.closeReason))
    && (r.stopping <==> r.pendingReason != "")
    && (r.stopping <==> r.pendingState.Some?)
    && (r.pendingState.Some? ==> IsTerminal(r.pendingState.value))
    && (r.pendingReason != "" ==> ValidCloseReason(r.pendingReason))
    && !(IsTerminal(r.state) && r.stopping)
    && (r.pendingKey != "" ==> OpaqueId(r.pendingKey) && r.state.Active? && !r.stopping)
  }

  predicate DeliveryAccepted(r: Record)
  {
    && (r.delivery.Some? ==>
          var d := r.delivery.value;
          && r.pending != [] && r.pending[0].id == d.eventId && d.attempts != 0
          && ValidCallbackFailure(d.status, d.code, true)
          && d.lastAt <= d.nextAt)
    && |r.deadLetters| <= MAX_DEAD_LETTERS
    && |r.deadLetters| <= r.rejectedTotal
    && (forall i :: 0 <= i < |r.deadLetters| ==>
          var l := r.deadLetters[i];
          OwnEvent(r, l.event) && l.attempts != 0 && ValidCallbackFailure(l.status, l.code, false))
  }

  predicate MeterAccepted(r: Record)
  {
    && (r.usageTotal > 0 ==> r.lastSequence != 0)
    && (r.lastEventAt.Some? ==> r.lastSequence != 0)
    && (r.metered > 0 || r.segments != [] ==> r.metered / MICROS_PER_SECOND == r.usageTotal)
    && (r.segments != [] ==> r.metered != 0)
  }

  ghost predicate SegmentsAccepted(r: Record)
  {
    && (forall i :: 0 <= i < |r.segments| ==> IsSha256Hex(r.segments[i]))
    && (forall i, j :: 0 <= i < j < |r.segments| ==> r.segments[i] != r.segments[j])
  }

  /** validateSessionRecordV1 as one declarative condition. */
  ghost predicate RecordAccepted(r: Record, id: string)
  {
    && r.brokerId == id && OpaqueId(r.runnerId)
    && HealthAccepted(r)
    && LifecycleAccepted(r)
    && OutboxAccepted(r)
    && DeliveryAccepted(r)
    && MeterAccepted(r)
    && SegmentsAccepted(r)
    && TailAccepted(r)
  }

  /** validateSessionSecretsV1 and the identity check in front of it. */
  predicate SecretsAccepted(r: Record)
  {
    r.secrets.Some? ==>
      var s := r.secrets.value;
      && ValidCreateRequest(s.request) && ValidCreateResponse(s.response)
      && s.request == r.fingerprint
      && s.request.sessionId == r.brokerId
      && s.response.runnerId == r.runnerId
      && s.response.published == r.published
      && (s.currentKey != "" ==> s.currentKey in s.issues)
      && (r.pendingKey != "" ==> s.currentKey == r.pendingKey)
      && (forall id <- s.issues ::
            && id == s.issues[id].request.id
            && s.issues[id].fingerprint == s.issues[id].request
            && (if id == s.currentKey then ValidKeyResponse(s.issues[id].request, s.issues[id].response)
                else s.issues[id].response.requestId == id && s.issues[id].response.streamKey == ""))
  }

  ghost predicate Loadable(r: Record, id: string)
  {
    RecordAccepted(Normalize(r), id) && SecretsAccepted(Normalize(r))
  }

  /** The outbox check with its running cursors. */
  method CheckOutbox(r: Record) returns (ok: bool)
    ensures ok <==> OutboxAccepted(r)
  {
    var previousSequence: uint64, previousUsage: uint64, hasUsage := 0, 0, false;
    for k := 0 to |r.pending|
      invariant OutboxPrefixAccepted(r, k)
      invariant previousSequence == if k == 0 then 0 else r.pending[k - 1].sequence
      invariant forall i :: 0 <= i < k && r.pending[i].usage.Some? ==> hasUsage && r.pending[i].usage.value <= previousUsage
      invariant hasUsage ==> exists i :: 0 <= i < k && r.pending[i].usage == Some(previousUsage)
    {
      var e := r.pending[k];
      assert forall i :: 0 <= i < k - 1 ==> OutboxOrder(r.pending[i], r.pending[k - 1]);
      if !OwnEvent(r, e) || e.sequence <= previousSequence {
        assert k > 0 ==> !OutboxOrder(r.pending[k - 1], e) || !OwnEvent(r, e);
        return false;
      }
      if e.usage.Some? && hasUsage && e.usage.value < previousUsage {
        ghost var i :| 0 <= i < k && r.pending[i].usage == Some(previousUsage);
        assert !OutboxOrder(r.pending[i], r.pending[k]);
        return false;
      }
      previousSequence := e.sequence;
      if e.usage.Some? {
        previousUsage := e.usage.value;
        hasUsage := true;
        assert r.pending[k].usage == Some(previousUsage);
      }
    }
    return true;
  }

  method CheckSegments(r: Record) returns (ok: bool)
    ensures ok <==> SegmentsAccepted(r)
  {
    var seen: set<string> := {};
    for k := 0 to |r.segments|
      invariant forall i :: 0 <= i < k ==> IsSha256Hex(r.segments[i])
      invariant forall i, j :: 0 <= i < j < k ==> r.segments[i] != r.segments[j]
      invariant forall i :: 0 <= i < k ==> r.segments[i] in seen
      invariant forall x :: x in seen ==> exists i :: 0 <= i < k && r.segments[i] == x
    {
      if !IsSha256Hex(r.segments[k]) || r.segments[k] in seen {
        return false;
      }
      seen := seen + {r.segments[k]};
    }
    return true;
  }

  method ValidateRecord(r: Record, id: string) returns (ok: bool)
    ensures ok <==> RecordAccepted(r, id)
  {
    if r.brokerId != id || !OpaqueId(r.runnerId) {
      return false;
    }
    if !HealthAccepted(r) || !LifecycleAccepted(r) {
      return false;
    }
    var outboxOk := CheckOutbox(r);
    if !outboxOk || !DeliveryAccepted(r) || !MeterAccepted(r) {
      return false;
    }
    var segmentsOk := CheckSegments(r);
    return segmentsOk && TailAccepted(r);
  }
}
