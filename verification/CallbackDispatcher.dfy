/** Outbox delivery: reserve, post, then acknowledge, defer or park the head. */
module CallbackDispatcher {
  import opened Basics
  import opened LiveContract
  import opened SessionRecord
  import opened SessionSteps
  import opened SessionInvariant
  import opened SessionRuns
  import opened SessionStore
  import opened StoreRuns
  import opened LiveRecovery
  import opened SessionProgress
  import opened OutboxGrowth
  import RetryDelay

  const RETRY_INITIAL: RetryDelay.int64 := 500_000_000
  const RETRY_MAXIMUM: RetryDelay.int64 := 30_000_000_000

  type HttpStatus = n: int | 0 <= n <= 999

  /** The broker's reply; a JSON body yields its "error" and "code" members. */
  datatype Reply = NoReply | Answer(status: HttpStatus, error: Option<string>, code: Option<string>)

  datatype Delivered =
    | Acked
    | Idle
    | Deferred(status: int, code: string)
    | Refused(status: int, code: string)
    | Fault(error: Error)

  predicate RetryableStatus(status: int) { status == 408 || status == 429 || 500 <= status <= 599 }

  const BROKER_CODES: set<string> := {
    "duplicate_event", "event_not_supported", "invalid_event", "sequence_conflict", "session_terminal" }

  function SafeErrorCode(reply: Reply): (code: string)
    requires reply.Answer?
  {
    if reply.status == 401 || reply.status == 403 then "callback_auth_rejected"
    else if reply.status == 404 || reply.status == 410 then "broker_session_terminal"
    else if reply.error.Some? && reply.error.value in BROKER_CODES then reply.error.value
    else if reply.code.Some? && reply.code.value in BROKER_CODES then reply.code.value
    else "http_" + Decimal(reply.status)
  }

  lemma SmallDecimal(n: nat)
    requires n <= 999
    ensures |Decimal(n)| <= 3
  {
    assert n >= 10 ==> |Decimal(n / 10)| <= 2;
  }

  lemma FixedCodesAreAccepted(code: string)
    requires code in BROKER_CODES + {"callback_auth_rejected", "broker_session_terminal"}
    ensures CallbackErrorCode(code) && code != "transport_error"
  {
  }

  lemma HttpCodeIsAccepted(status: nat)
    requires status <= 999
    ensures CallbackErrorCode("http_" + Decimal(status)) && "http_" + Decimal(status) != "transport_error"
  {
    SmallDecimal(status);
    var digits := Decimal(status);
    hide Decimal;
    var code := "http_" + digits;
    forall i | 0 <= i < |code| ensures 'a' <= code[i] <= 'z' || IsDigit(code[i]) || code[i] in "_.-" {
      if i >= 5 {
        assert code[i] == digits[i - 5];
      }
    }
  }

  /** Whatever the broker sends, the recorded code is one the validator accepts,
      and only an out-of-range status can be refused by the store. */
  lemma SafeCodeIsAccepted(reply: Reply, allowTransport: bool)
    requires reply.Answer?
    ensures CallbackErrorCode(SafeErrorCode(reply))
    ensures ValidCallbackFailure(reply.status, SafeErrorCode(reply), allowTransport) <==> 100 <= reply.status <= 599
  {
    hide CallbackErrorCode;
    var code := SafeErrorCode(reply);
    assert CallbackErrorCode(code) && code != "transport_error" && code != "" by {
      if code == "http_" + Decimal(reply.status) {
        HttpCodeIsAccepted(reply.status);
      } else {
        FixedCodesAreAccepted(code);
      }
    }
  }

  // ------------------------------------------------- the four store operations

  predicate Due(r: Record, now: Time)
  {
    r.pending != [] && (r.delivery.Some? ==> r.delivery.value.nextAt <= now)
  }

  function Attempts(r: Record): (n: uint32) { if r.delivery.Some? then r.delivery.value.attempts else 0 }

  /** The head is kept, with one more attempt charged to it; the next one is at
      least 375 milliseconds and at most 30 seconds away. */
  predicate Charged(r: Record, n: Record, now: Time)
  {
    && n == r.(delivery := n.delivery)
    && r.pending != [] && n.delivery.Some?
    && var d := n.delivery.value;
       && d.eventId == r.pending[0].id && d.attempts == Attempts(r) + 1 && d.lastAt == now
       && now + 375_000_000 <= d.nextAt <= now + 30_000_000_000
  }

  predicate Dropped(r: Record, n: Record)
  {
    && r.pending != [] && n.delivery.None?
    && n == r.(pending := r.pending[1..], delivery := None, rejectedTotal := n.rejectedTotal, deadLetters := n.deadLetters)
  }

  lemma ReserveVerdict(sha: Digest, r: Record, now: Time)
    requires Inv(r) && r.pending != []
    ensures var v := ReserveAttempt(sha, r, r.pending[0].id, now, RETRY_INITIAL, RETRY_MAXIMUM);
            && Safe(v) && !v.Keep?
            && (v.Save? ==> v.next.brokerId == r.brokerId && Charged(r, v.next, now) && Due(r, now))
            && (Due(r, now) && Attempts(r) < MAX_UINT32 ==> v.Save?)
            && (v.Refuse? && v.error.NotDue? ==> !Due(r, now))
  {
    CursorNamesHead(r);
    ReserveKeepsInv(sha, r, r.pending[0].id, now, RETRY_INITIAL, RETRY_MAXIMUM);
    hide Inv, Safe;
    ReserveShape(sha, r, now);
  }

  lemma CursorNamesHead(r: Record)
    requires Inv(r)
    ensures r.delivery.Some? ==> r.pending != [] && r.delivery.value.eventId == r.pending[0].id
  {
  }

  lemma DelayIsBounded(sha: Digest, eventId: string, attempts: nat)
    requires attempts > 0
    ensures 375_000_000 <= RetryDelay.Delay(sha, eventId, attempts, RETRY_INITIAL, RETRY_MAXIMUM) <= 30_000_000_000
  {
    RetryDelay.DelayBounds(sha, eventId, attempts, RETRY_INITIAL, RETRY_MAXIMUM);
    RetryDelay.BackoffIsBounded(RETRY_INITIAL, attempts, RETRY_MAXIMUM);
    hide RetryDelay.Delay, RetryDelay.Backoff;
  }

  lemma ReserveShape(sha: Digest, r: Record, now: Time)
    requires r.pending != [] && (r.delivery.Some? ==> r.delivery.value.eventId == r.pending[0].id)
    ensures var v := ReserveAttempt(sha, r, r.pending[0].id, now, RETRY_INITIAL, RETRY_MAXIMUM);
            && !v.Keep?
            && (v.Save? ==> v.next.brokerId == r.brokerId && Charged(r, v.next, now) && Due(r, now))
            && (Due(r, now) && Attempts(r) < MAX_UINT32 ==> v.Save?)
            && (v.Refuse? && v.error.NotDue? ==> !Due(r, now))
  {
    var attempts := if r.delivery.Some? then r.delivery.value.attempts + 1 else 1;
    DelayIsBounded(sha, r.pending[0].id, attempts);
    hide RetryDelay.Delay, RetryDelay.JitterFactor, IsSha256Hex;
  }

  method ReserveHead(sha: Digest, store: EncryptedFileSessionStore, id: string, eventId: string, now: Time,
                     save: SaveOutcome)
    returns (res: Result<Delivery>)
    requires SoundDisk(store.disk) && id in store.disk
    requires store.disk[id].pending != [] && store.disk[id].pending[0].id == eventId
    modifies store`disk
    ensures SoundDisk(store.disk) && OnlyTouches(old(store.disk), store.disk, id)
    ensures var r, n := old(store.disk)[id], store.disk[id];
            && (n == r || (Charged(r, n, now) && Due(r, now)))
            && (res.Ok? ==> Charged(r, n, now) && Due(r, now))
            && (res == Err(NotDue) ==> n == r && !Due(r, now))
            && (Due(r, now) && Attempts(r) < MAX_UINT32 && eventId != "" && now != ZERO_TIME && save.Committed? ==> res.Ok?)
  {
    hide Inv, Safe, Performs, Lands, Charged, Due, ReserveAttempt, LoadResult, SoundDisk, IsSha256Hex, RetryDelay.Delay;
    ghost var r := store.disk[id];
    SoundName(store.disk, id);
    ReserveVerdict(sha, r, now);
    res := store.ReserveCallbackAttempt(sha, id, eventId, now, RETRY_INITIAL, RETRY_MAXIMUM, save);
    if eventId == "" || now == ZERO_TIME {
      return;
    }
    ghost var decide := Reserving(sha, eventId, now, RETRY_INITIAL, RETRY_MAXIMUM);
    OpLands(old(store.disk), store.disk, id, save, ErrorOf(res), decide);
  }

  lemma OpLands(before: map<string, Record>, after: map<string, Record>, id: string, save: SaveOutcome,
                error: Option<Error>, decide: Record -> Verdict)
    requires SoundDisk(before) && id in before
    requires Performs(before, after, id, save, error, decide)
    requires Safe(decide(before[id])) && (decide(before[id]).Save? ==> decide(before[id]).next.brokerId == before[id].brokerId)
    ensures SoundDisk(after) && OnlyTouches(before, after, id)
    ensures var v := decide(before[id]);
            && after[id] == (if v.Save? && !save.FailedBeforeRename? then v.next else before[id])
            && error == (match v
                         case Refuse(e) => Some(e)
                         case Keep => None
                         case Save(_, _) => if save.Committed? then None else Some(SaveFailed))
  {
    hide Inv, Safe, Performs, OpaqueId;
    var v := decide(before[id]);
    SoundName(before, id);
    SoundPerforms(before, after, id, save, error, decide);
    LandsKeepsSound(before, after, id, save, error, v);
  }

  lemma SettleVerdicts(r: Record, eventId: string, status: int, code: string, now: Time)
    requires Inv(r) && IsReserved(r, eventId)
    ensures var v := AcknowledgeEvent(r, eventId);
            v.Save? && Safe(v) && Dropped(r, v.next) && v.next.rejectedTotal == r.rejectedTotal && v.next.deadLetters == r.deadLetters
    ensures ValidCallbackFailure(status, code, true) ==>
              var v := RecordRetryFailure(r, eventId, status, code);
              v.Save? && Safe(v) && Noted(r, v.next, status, code)
    ensures ValidCallbackFailure(status, code, false) ==>
              var v := ParkRejection(r, eventId, status, code, now);
              && Safe(v) && !v.Keep? && (v.Save? <==> r.rejectedTotal < MAX_UINT64)
              && (v.Save? ==> ParkedAs(r, v.next, status, code, now))
  {
    AcknowledgeKeepsInv(r, eventId);
    if ValidCallbackFailure(status, code, true) {
      RetryFailureKeepsInv(r, eventId, status, code);
    }
    if ValidCallbackFailure(status, code, false) {
      ParkKeepsInv(r, eventId, status, code, now);
    }
    hide Inv, Safe, ValidCallbackFailure;
  }

  /** Only the recorded outcome of the last attempt differs. */
  predicate SameCharge(r: Record, n: Record)
  {
    && r.delivery.Some? && n.delivery.Some? && n == r.(delivery := n.delivery)
    && n.delivery.value == r.delivery.value.(status := n.delivery.value.status, code := n.delivery.value.code)
  }

  predicate Noted(r: Record, n: Record, status: int, code: string)
  {
    SameCharge(r, n) && n.delivery.value.status == status && n.delivery.value.code == code
  }

  /** The head is gone, counted, and on record as the newest rejection. */
  predicate ParkedAs(r: Record, n: Record, status: int, code: string, at: Time)
  {
    && Dropped(r, n) && r.delivery.Some? && n.rejectedTotal == r.rejectedTotal + 1
    && n.deadLetters != []
    && n.deadLetters[|n.deadLetters| - 1] == DeadLetter(r.pending[0], r.delivery.value.attempts, status, code, at)
  }

  method AcknowledgeHead(store: EncryptedFileSessionStore, id: string, eventId: string,
                         save: SaveOutcome) returns (res: Result<()>)
    requires SoundDisk(store.disk) && id in store.disk && IsReserved(store.disk[id], eventId)
    modifies store`disk
    ensures SoundDisk(store.disk) && OnlyTouches(old(store.disk), store.disk, id)
    ensures var r, n := old(store.disk)[id], store.disk[id];
            && (n == r || (Dropped(r, n) && n.rejectedTotal == r.rejectedTotal && n.deadLetters == r.deadLetters))
            && (res.Ok? ==> n != r) && (save.Committed? ==> res.Ok?)
  {
    hide Inv, Safe, Performs, LoadResult, SoundDisk, OpaqueId, AcknowledgeEvent;
    SoundName(store.disk, id);
    SettleVerdicts(store.disk[id], eventId, 0, "", 0);
    res := store.AcknowledgeEvent(id, eventId, save);
    OpLands(old(store.disk), store.disk, id, save, ErrorOf(res), r => SessionSteps.AcknowledgeEvent(r, eventId));
  }

  method DeferHead(store: EncryptedFileSessionStore, id: string, eventId: string, status: int, code: string,
                   save: SaveOutcome)
    returns (res: Result<()>)
    requires SoundDisk(store.disk) && id in store.disk && IsReserved(store.disk[id], eventId)
    modifies store`disk
    ensures SoundDisk(store.disk) && OnlyTouches(old(store.disk), store.disk, id)
    ensures SameCharge(old(store.disk)[id], store.disk[id])
    ensures res.Ok? ==> Noted(old(store.disk)[id], store.disk[id], status, code)
    ensures ValidCallbackFailure(status, code, true) && save.Committed? ==> res.Ok?
  {
    hide Inv, Safe, Performs, LoadResult, SoundDisk, OpaqueId, RecordRetryFailure, ValidCallbackFailure;
    SoundName(store.disk, id);
    SettleVerdicts(store.disk[id], eventId, status, code, 0);
    res := store.RecordCallbackRetryFailure(id, eventId, status, code, save);
    if ValidCallbackFailure(status, code, true) {
      OpLands(old(store.disk), store.disk, id, save, ErrorOf(res), r => RecordRetryFailure(r, eventId, status, code));
    }
  }

  method ParkHead(store: EncryptedFileSessionStore, id: string, eventId: string, status: int, code: string,
                  now: Time, save: SaveOutcome)
    returns (res: Result<()>)
    requires SoundDisk(store.disk) && id in store.disk && IsReserved(store.disk[id], eventId)
    modifies store`disk
    ensures SoundDisk(store.disk) && OnlyTouches(old(store.disk), store.disk, id)
    ensures var r, n := old(store.disk)[id], store.disk[id];
            && (n == r || (ParkedAs(r, n, status, code, now) && ValidCallbackFailure(status, code, false)))
            && (res.Ok? ==> n != r)
            && (now != ZERO_TIME && ValidCallbackFailure(status, code, false) && r.rejectedTotal < MAX_UINT64 && save.Committed? ==> res.Ok?)
  {
    hide Inv, Safe, Performs, LoadResult, SoundDisk, OpaqueId, ParkRejection, ValidCallbackFailure;
    SoundName(store.disk, id);
    SettleVerdicts(store.disk[id], eventId, status, code, now);
    res := store.ParkCallbackRejection(id, eventId, status, code, now, save);
    if now != ZERO_TIME && ValidCallbackFailure(status, code, false) {
      OpLands(old(store.disk), store.disk, id, save, ErrorOf(res), r => ParkRejection(r, eventId, status, code, now));
    }
  }

  // -------------------------------------------------------------- DeliverNext

  /** The code on record says what the broker said, or at least its status. */
  predicate SaysWhy(reply: Reply, code: string)
    requires reply.Answer?
  {
    if reply.status in {401, 403} then code == "callback_auth_rejected"
    else if reply.status in {404, 410} then code == "broker_session_terminal"
    else if reply.error.Some? && reply.error.value in KNOWN_REASONS then code == reply.error.value
    else if reply.code.Some? && reply.code.value in KNOWN_REASONS then code == reply.code.value
    else code == "http_" + Decimal(reply.status)
  }

  /** The reasons of the callback contract that may be stored as they are. */
  const KNOWN_REASONS: set<string> :=
    { "duplicate_event", "event_not_supported", "invalid_event", "sequence_conflict", "session_terminal" }

  predicate Delivers(reply: Reply) { reply.Answer? && 200 <= reply.status <= 299 }

  predicate Transient(reply: Reply)
  {
    reply.NoReply? || reply.status == 408 || reply.status == 429 || 500 <= reply.status <= 599
  }

  /** What a reply does to the record that was durable when the event was posted. */
  ghost predicate Settles(p: Record, n: Record, now: Time, reply: Reply, out: Delivered)
  {
    match out
    case Acked => Delivers(reply) && Dropped(p, n) && n.rejectedTotal == p.rejectedTotal && n.deadLetters == p.deadLetters
    case Idle => false
    case Deferred(status, code) =>
      && Transient(reply) && Noted(p, n, status, code) && n.pending == p.pending
      && if reply.NoReply? then status == 0 && code == "transport_error" else status == reply.status && SaysWhy(reply, code)
    case Refused(status, code) =>
      && !Delivers(reply) && !Transient(reply) && status == reply.status && SaysWhy(reply, code)
      && ParkedAs(p, n, status, code, now)
    case Fault(_) =>
      || n == p || (Transient(reply) && SameCharge(p, n))
      || (Delivers(reply) && Dropped(p, n) && n.rejectedTotal == p.rejectedTotal)
      || (!Delivers(reply) && !Transient(reply) && Dropped(p, n) && n.rejectedTotal == p.rejectedTotal + 1)
  }

  /** The record at the reservation, as reserved and posted, and when the reply is recorded. */
  datatype Posting = Posting(found: Record, charged: Record, answered: Record)

  /** `r` is the record before, `n` the one after; in between others may append. An
      event is posted only from a due record, after the attempt was charged to it
      durably, and the reply settles that very event. */
  ghost predicate DeliveryContract(r: Record, n: Record, now: Time, reply: Reply, posted: Option<Posting>,
                                   out: Delivered)
  {
    match posted
    case Some(p) =>
      && Grown(r, p.found) && Due(p.found, now) && Charged(p.found, p.charged, now) && Inv(p.charged)
      && Grown(p.charged, p.answered) && Settles(p.answered, n, now, reply, out)
    case None =>
      && (Grown(r, n) || exists found :: Grown(r, found) && Charged(found, n, now))
      && (out.Fault? || (out.Idle? && n == r && !Due(r, now)))
  }

  /** Nothing but the reply decides what becomes of a due head. */
  predicate NoObstacle(r: Record, now: Time, reserveSave: SaveOutcome, settleSave: SaveOutcome)
  {
    && Due(r, now) && now != ZERO_TIME && Attempts(r) < MAX_UINT32 && r.rejectedTotal < MAX_UINT64
    && reserveSave.Committed? && settleSave.Committed?
  }

  /** Success settles, no reply and 408, 429 and 5xx are tried again, every other
      status the store can record is final. */
  predicate Decided(reply: Reply, out: Delivered)
  {
    && (out.Acked? <==> reply.Answer? && 200 <= reply.status <= 299)
    && (out.Deferred? <==> reply.NoReply? || reply.status in {408, 429} || 500 <= reply.status <= 599)
    && (out.Refused? <==>
          reply.Answer? && (100 <= reply.status <= 199 || 300 <= reply.status <= 499) && reply.status !in {408, 429})
    && !out.Idle?
  }

  lemma HeadIsDeliverable(r: Record)
    requires Inv(r) && r.pending != []
    ensures r.pending[0].id != "" && r.secrets.Some?
  {
    assert OwnEvent(r, r.pending[0]);
  }

  lemma ChargedIsReserved(r: Record, n: Record, now: Time)
    requires Charged(r, n, now)
    ensures IsReserved(n, r.pending[0].id) && n.pending == r.pending && n.rejectedTotal == r.rejectedTotal
  {
  }

  // ------------------------------------------------- what others do meanwhile

  /** Nothing is kept once a closed session has nothing left to say. */
  predicate Erased(n: Record) { !n.state.Active? && n.pending == [] ==> n.secrets.None? }

  /** The other callers of the store, at each point where the worker holds no lock:
      a turn of a session's share of a sweep, and a place in that turn. */
  datatype Meanwhile = Meanwhile(apply: (nat, nat, nat, map<string, Record>) -> map<string, Record>)

  /** Records other than `id` only grew, and new ones still keep what they need. */
  ghost predicate OthersGrew(before: map<string, Record>, after: map<string, Record>, id: string)
  {
    && before.Keys <= after.Keys
    && (forall other <- before :: other != id ==> Grown(before[other], after[other]))
    && (forall other <- after :: other !in before ==> Erased(after[other]))
  }

  ghost predicate GrownDisk(before: map<string, Record>, after: map<string, Record>)
  {
    && SoundDisk(after) && before.Keys <= after.Keys
    && (forall id <- before :: Grown(before[id], after[id]))
    && (forall id <- after :: id !in before ==> Erased(after[id]))
  }

  ghost predicate GrowsOnly(m: Meanwhile)
  {
    forall k, j, at, disk :: SoundDisk(disk) ==> GrownDisk(disk, m.apply(k, j, at, disk))
  }

  method Wait(store: EncryptedFileSessionStore, m: Meanwhile, k: nat, j: nat, at: nat, ghost id: string)
    requires SoundDisk(store.disk) && GrowsOnly(m) && id in store.disk
    modifies store`disk
    ensures SoundDisk(store.disk) && OthersGrew(old(store.disk), store.disk, id) && id in store.disk
    ensures Grown(old(store.disk)[id], store.disk[id])
  {
    hide SoundDisk, Grown, Erased;
    assert GrownDisk(store.disk, m.apply(k, j, at, store.disk));
    store.disk := m.apply(k, j, at, store.disk);
  }

  lemma ErasedStays(r: Record, n: Record)
    requires Grown(r, n) && Erased(r)
    ensures Erased(n)
  {
    hide Inv, Later;
  }

  lemma TouchedGrew(before: map<string, Record>, after: map<string, Record>, id: string)
    requires SoundDisk(before) && OnlyTouches(before, after, id)
    ensures OthersGrew(before, after, id) && after.Keys == before.Keys
  {
    hide Inv, Grown, OpaqueId, Erased;
    forall other | other in before && other != id ensures Grown(before[other], after[other]) {
      GrownIsReflexive(before[other]);
    }
    assert forall other <- after.Keys :: other in before.Keys;
  }

  lemma GrewComposes(a: map<string, Record>, b: map<string, Record>, c: map<string, Record>, id: string)
    requires SoundDisk(a) && id in a && OthersGrew(a, b, id) && OthersGrew(b, c, id)
    ensures OthersGrew(a, c, id)
  {
    hide Inv, Grown, OpaqueId, Erased;
    forall other | other in a && other != id ensures Grown(a[other], c[other]) {
      GrownIsTransitive(a[other], b[other], c[other]);
    }
    forall other | other in c && other !in a ensures Erased(c[other]) {
      if other in b {
        ErasedStays(b[other], c[other]);
      }
    }
  }

  /** Growth keeps the head, its attempt and the count of rejections. */
  lemma GrownKeepsHead(r: Record, n: Record, now: Time)
    requires Grown(r, n) && r.pending != []
    ensures n.pending != [] && n.pending[0] == r.pending[0] && (Due(n, now) <==> Due(r, now))
    ensures Attempts(n) == Attempts(r) && n.rejectedTotal == r.rejectedTotal
    ensures IsReserved(r, r.pending[0].id) ==> IsReserved(n, r.pending[0].id)
  {
    hide Inv, Later;
  }

  /** At most one event leaves the outbox, it is the head that was posted, its
      attempt was made durable before the post, and only a final reply lets it
      leave; whatever other callers append meanwhile stays behind it. */
  method DeliverNext(sha: Digest, store: EncryptedFileSessionStore, id: string, now: Time, reply: Reply,
                     reserveSave: SaveOutcome, settleSave: SaveOutcome, m: Meanwhile, k: nat, j: nat)
    returns (out: Delivered, ghost posted: Option<Posting>)
    requires SoundDisk(store.disk) && GrowsOnly(m)
    modifies store`disk
    ensures SoundDisk(store.disk) && OthersGrew(old(store.disk), store.disk, id)
    ensures id !in old(store.disk) ==> out.Fault? && store.disk == old(store.disk)
    ensures id in old(store.disk) ==>
              id in store.disk && DeliveryContract(old(store.disk)[id], store.disk[id], now, reply, posted, out)
    ensures id in old(store.disk) && !Due(old(store.disk)[id], now) ==> out.Idle? && store.disk == old(store.disk)
    ensures id in old(store.disk) && NoObstacle(old(store.disk)[id], now, reserveSave, settleSave) ==> Decided(reply, out)
  {
    hide Inv, LoadResult, SoundDisk, OpaqueId, Charged, Dropped, SameCharge, Settles, Decided, Due, IsReserved, Grown,
      GrowsOnly, OthersGrew, OnlyTouches, Attempts;
    var eventId;
    NothingMoved(store.disk, id);
    out, eventId := Look(store, id, now);
    if eventId == "" {
      return out, None;
    }
    ghost var disk0 := store.disk;
    Wait(store, m, k, j, 1, id);
    ghost var disk1 := store.disk;
    GrownKeepsHead(disk0[id], disk1[id], now);
    var reserved := ReserveHead(sha, store, id, eventId, now, reserveSave);
    ghost var disk2 := store.disk;
    TouchedGrew(disk1, disk2, id);
    GrewComposes(disk0, disk1, disk2, id);
    if reserved.Err? {
      return if reserved.error.NotDue? then Idle else Fault(reserved.error), None;
    }
    ChargedIsReserved(disk1[id], disk2[id], now);
    Wait(store, m, k, j, 2, id);
    ghost var disk3 := store.disk;
    GrewComposes(disk0, disk2, disk3, id);
    GrownKeepsHead(disk2[id], disk3[id], now);
    SoundIsInv(disk2, id);
    posted := Some(Posting(disk1[id], disk2[id], disk3[id]));
    out := Settle(store, id, eventId, now, reply, settleSave);
    TouchedGrew(disk3, store.disk, id);
    GrewComposes(disk0, disk3, store.disk, id);
  }

  lemma SoundIsInv(disk: map<string, Record>, id: string)
    requires SoundDisk(disk) && id in disk
    ensures Inv(disk[id])
  {
    hide Inv, OpaqueId;
  }

  lemma NothingMoved(disk: map<string, Record>, id: string)
    requires SoundDisk(disk)
    ensures OthersGrew(disk, disk, id) && (id in disk ==> Grown(disk[id], disk[id]))
  {
    hide Inv, Grown, OpaqueId, Erased;
    forall other | other in disk ensures Grown(disk[other], disk[other]) {
      GrownIsReflexive(disk[other]);
    }
  }

  /** DeliverNext up to the reservation; the event ID is empty when nothing is to be posted. */
  method Look(store: EncryptedFileSessionStore, id: string, now: Time) returns (out: Delivered, eventId: string)
    requires SoundDisk(store.disk)
    ensures id !in store.disk ==> out.Fault? && eventId == ""
    ensures id in store.disk ==>
              var r := store.disk[id];
              if eventId == "" then !Due(r, now) && out.Idle?
              else Due(r, now) && r.pending != [] && r.pending[0].id == eventId
  {
    hide Inv, LoadResult, SoundDisk, OpaqueId;
    var loaded := store.LoadLocked(id);
    if loaded.Err? {
      SoundLoadMisses(store.disk, id);
      return Fault(loaded.error), "";
    }
    var record := loaded.value;
    SoundLoadIsCurrent(store.disk, id);
    if |record.pending| == 0 {
      return Idle, "";
    }
    HeadIsDeliverable(record);
    if record.secrets.None? {
      return Fault(Corrupt), "";
    }
    eventId := record.pending[0].id;
    if record.delivery.Some? && now < record.delivery.value.nextAt {
      return Idle, "";
    }
    out := Idle;
  }

  lemma SoundLoadIsCurrent(disk: map<string, Record>, id: string)
    requires SoundDisk(disk) && LoadResult(disk, id).Ok?
    ensures id in disk && LoadResult(disk, id).value == disk[id] && Inv(disk[id])
  {
    hide Inv;
    SoundLoad(disk, id);
  }

  lemma SoundLoadMisses(disk: map<string, Record>, id: string)
    requires SoundDisk(disk) && LoadResult(disk, id).Err?
    ensures id !in disk
  {
    hide Inv;
    SoundLoad(disk, id);
  }

  /** What DeliverNext does with the reply to a post. */
  method Settle(store: EncryptedFileSessionStore, id: string, eventId: string, now: Time, reply: Reply,
                save: SaveOutcome)
    returns (out: Delivered)
    requires SoundDisk(store.disk) && id in store.disk && IsReserved(store.disk[id], eventId)
    modifies store`disk
    ensures SoundDisk(store.disk) && OnlyTouches(old(store.disk), store.disk, id)
    ensures Settles(old(store.disk)[id], store.disk[id], now, reply, out)
    ensures now != ZERO_TIME && old(store.disk)[id].rejectedTotal < MAX_UINT64 && save.Committed? ==> Decided(reply, out)
  {
    hide Inv, SoundDisk, Dropped, SafeErrorCode, ValidCallbackFailure, CallbackErrorCode, IsReserved, SaysWhy;
    if reply.NoReply? {
      TransportErrorIsAccepted();
      var noted := DeferHead(store, id, eventId, 0, "transport_error", save);
      return if noted.Ok? then Deferred(0, "transport_error") else Fault(noted.error);
    }
    if reply.status < 200 || reply.status >= 300 {
      var code := SafeErrorCode(reply);
      SafeCodeIsAccepted(reply, true);
      SafeCodeIsAccepted(reply, false);
      SafeCodeSaysWhy(reply);
      if RetryableStatus(reply.status) {
        var noted := DeferHead(store, id, eventId, reply.status, code, save);
        return if noted.Ok? then Deferred(reply.status, code) else Fault(noted.error);
      }
      var parked := ParkHead(store, id, eventId, reply.status, code, now, save);
      return if parked.Ok? then Refused(reply.status, code) else Fault(parked.error);
    }
    var acked := AcknowledgeHead(store, id, eventId, save);
    return if acked.Ok? then Acked else Fault(acked.error);
  }

  lemma SafeCodeSaysWhy(reply: Reply)
    requires reply.Answer?
    ensures SaysWhy(reply, SafeErrorCode(reply))
  {
  }

  lemma TransportErrorIsAccepted()
    ensures ValidCallbackFailure(0, "transport_error", true)
  {
  }
}
