/** The runner event contract: event validation and the consumer's cursor. */
module LiveContract {
  import opened Basics

  datatype Error =
    | NotFound
    | Corrupt
    | InvalidInput
    | InvalidEvent
    | SequenceNotAdvanced
    | EventIdReused
    | UsageDecreased
    | UsageDiffersFromMeter
    | CloseReasonDiffers
    | SessionTerminal
    | SessionNotStarted
    | SequenceOverflow
    | TimelineOverflow
    | CounterOverflow
    | OutOfOrder
    | NotDue
    | SessionIdReuse
    | RequestIdReuse
    | RequestSuperseded
    | KeyActivationInFlight
    | CreateFenced
    | SaveFailed
    | RuntimeFailed

  datatype Result<+T> = Ok(value: T) | Err(error: Error)

  datatype State = Active | Ended | Failed

  datatype EventKind = Started | Heartbeat | LadderRestart | OutputStalled | UsageTick | SessionFailed | SessionEnded

  /** `details` is opaque and always valid; the one work unit is implicit in `usage`. */
  datatype Event = Event(
    id: string,
    sequence: uint64,
    kind: EventKind,
    time: Time,
    state: State,
    usage: Option<uint64>,
    closeReason: Option<string>)

  const MICROS_PER_SECOND := 1_000_000

  const CLOSE_REASONS: set<string> := {
    "gateway_close", "lease_expired", "heartbeat_lost", "runway_exhausted", "refill_refused",
    "recovery_failed", "payment_unrecoverable", "runner_failed", "ingest_failed", "output_failed",
    "runner_ended", "insufficient_balance", "authorization_exhausted", "open_failed",
    "capacity_exhausted", "lease_exhausted", "customer_end", "publisher_disconnect", "broker_ended",
    "relay_failure", "refill_preannounced_refusal", "refill_policy_exhausted", "refill_total_exceeded" }

  predicate ValidCloseReason(reason: string) { reason in CLOSE_REASONS }

  predicate IsTerminal(state: State) { !state.Active? }

  predicate ValidEvent(e: Event)
  {
    && OpaqueId(e.id)
    && e.sequence != 0
    && match e.kind
       case UsageTick => e.state.Active? && e.usage.Some?
       case SessionFailed => e.state.Failed? && e.usage.Some? && e.closeReason.Some? && ValidCloseReason(e.closeReason.value)
       case SessionEnded => e.state.Ended? && e.usage.Some? && e.closeReason.Some? && ValidCloseReason(e.closeReason.value)
       case _ => e.state.Active?
  }

  function EventId(runnerId: string, sequence: nat): (id: string)
  {
    runnerId + ":" + Decimal(sequence)
  }

  lemma EventIdInjective(runnerId: string, a: nat, b: nat)
    requires EventId(runnerId, a) == EventId(runnerId, b)
    ensures a == b
  {
    var cut := |runnerId| + 1;
    assert EventId(runnerId, a)[cut..] == Decimal(a);
    assert EventId(runnerId, b)[cut..] == Decimal(b);
    DecimalInjective(a, b);
  }

  // ---------------------------------------------------------------- consumer

  datatype Cursor = Cursor(sequence: uint64, usageTotal: uint64, hasUsage: bool, seen: set<string>)

  const FRESH_CURSOR := Cursor(0, 0, false, {})

  function AcceptNext(c: Cursor, e: Event): (r: Result<Cursor>)
  {
    if !ValidEvent(e) then Err(InvalidEvent)
    else if e.sequence <= c.sequence then Err(SequenceNotAdvanced)
    else if e.id in c.seen then Err(EventIdReused)
    else if e.usage.Some? && c.hasUsage && e.usage.value < c.usageTotal then Err(UsageDecreased)
    else Ok(Cursor(
              e.sequence,
              if e.usage.Some? then e.usage.value else c.usageTotal,
              c.hasUsage || e.usage.Some?,
              c.seen + {e.id}))
  }

  class EventCursor {
    var sequence: uint64
    var usageTotal: uint64
    var hasUsage: bool
    var seenIds: set<string>

    function View(): (c: Cursor)
      reads this
    {
      Cursor(sequence, usageTotal, hasUsage, seenIds)
    }

    constructor (start: Cursor)
      ensures View() == start
    {
      sequence, usageTotal, hasUsage, seenIds := start.sequence, start.usageTotal, start.hasUsage, start.seen;
    }

    /** Err(error) leaves the cursor where it was. */
    method Accept(e: Event) returns (r: Result<()>)
      modifies this
      ensures match AcceptNext(old(View()), e)
              case Ok(next) => r == Ok(()) && View() == next
              case Err(error) => r == Err(error) && View() == old(View())
    {
      if !ValidEvent(e) {
        return Err(InvalidEvent);
      }
      if e.sequence <= sequence {
        return Err(SequenceNotAdvanced);
      }
      if e.id in seenIds {
        return Err(EventIdReused);
      }
      if e.usage.Some? && hasUsage && e.usage.value < usageTotal {
        return Err(UsageDecreased);
      }
      sequence := e.sequence;
      seenIds := seenIds + {e.id};
      if e.usage.Some? {
        usageTotal := e.usage.value;
        hasUsage := true;
      }
      return Ok(());
    }
  }

  function Consume(h: seq<Event>): (c: Option<Cursor>)
  {
    if h == [] then Some(FRESH_CURSOR)
    else match Consume(h[..|h| - 1])
         case None => None
         case Some(c) =>
           match AcceptNext(c, h[|h| - 1])
           case Ok(next) => Some(next)
           case Err(_) => None
  }

  /** What a consumer may rely on, stated pairwise and without any cursor. */
  ghost predicate Conforming(h: seq<Event>)
  {
    && (forall i :: 0 <= i < |h| ==> ValidEvent(h[i]))
    && (forall i, j :: 0 <= i < j < |h| ==> InOrder(h[i], h[j]))
  }

  ghost predicate InOrder(a: Event, b: Event)
  {
    && a.sequence < b.sequence
    && a.id != b.id
    && (a.usage.Some? && b.usage.Some? ==> a.usage.value <= b.usage.value)
  }

  ghost predicate CursorDescribes(c: Cursor, h: seq<Event>)
  {
    && c.sequence == (if h == [] then 0 else h[|h| - 1].sequence)
    && c.seen == (set i | 0 <= i < |h| :: h[i].id)
    && (forall i :: 0 <= i < |h| && h[i].usage.Some? ==> c.hasUsage && h[i].usage.value <= c.usageTotal)
    && (c.hasUsage ==> exists i :: 0 <= i < |h| && h[i].usage == Some(c.usageTotal))
  }

  lemma AcceptNextDecidesOrder(c: Cursor, h: seq<Event>, e: Event)
    requires Conforming(h) && CursorDescribes(c, h)
    ensures AcceptNext(c, e).Ok? <==> ValidEvent(e) && forall i :: 0 <= i < |h| ==> InOrder(h[i], e)
  {
    if h != [] {
      assert forall i :: 0 <= i < |h| - 1 ==> InOrder(h[i], h[|h| - 1]);
      assert forall i :: 0 <= i < |h| ==> h[i].sequence <= c.sequence;
    }
    assert forall i :: 0 <= i < |h| ==> h[i].id in c.seen;
  }

  lemma AcceptNextDescribes(c: Cursor, h: seq<Event>, e: Event)
    requires CursorDescribes(c, h) && AcceptNext(c, e).Ok?
    ensures CursorDescribes(AcceptNext(c, e).value, h + [e])
  {
    var next, g := AcceptNext(c, e).value, h + [e];
    forall x | x in next.seen ensures x in (set i | 0 <= i < |g| :: g[i].id) {
      if x in c.seen {
        var i :| 0 <= i < |h| && h[i].id == x;
        assert g[i].id == x;
      } else {
        assert g[|h|].id == x;
      }
    }
    assert next.seen == (set i | 0 <= i < |g| :: g[i].id);
    if e.usage.Some? {
      assert g[|h|].usage == Some(next.usageTotal);
    } else if c.hasUsage {
      var i :| 0 <= i < |h| && h[i].usage == Some(c.usageTotal);
      assert g[i].usage == Some(next.usageTotal);
    }
  }

  lemma ConformingAppend(h: seq<Event>, e: Event)
    ensures Conforming(h + [e]) <==> Conforming(h) && ValidEvent(e) && forall i :: 0 <= i < |h| ==> InOrder(h[i], e)
  {
    var g := h + [e];
    assert forall i :: 0 <= i < |h| ==> g[i] == h[i];
    if Conforming(g) {
      forall i | 0 <= i < |h| ensures InOrder(h[i], e) && ValidEvent(h[i]) {
        assert InOrder(g[i], g[|h|]) && ValidEvent(g[i]);
      }
      forall i, j | 0 <= i < j < |h| ensures InOrder(h[i], h[j]) {
        assert InOrder(g[i], g[j]);
      }
      assert ValidEvent(g[|h|]);
    }
  }

  /** The one-pass cursor accepts exactly the streams that are pairwise in order. */
  lemma {:induction false} ConsumeAcceptsExactlyConforming(h: seq<Event>)
    ensures Consume(h).Some? <==> Conforming(h)
    ensures Consume(h).Some? ==> CursorDescribes(Consume(h).value, h)
  {
    if h != [] {
      var init, last := h[..|h| - 1], h[|h| - 1];
      ConsumeAcceptsExactlyConforming(init);
      ConformingAppend(init, last);
      assert init + [last] == h;
      if Consume(init).Some? {
        AcceptNextDecidesOrder(Consume(init).value, init, last);
        if AcceptNext(Consume(init).value, last).Ok? {
          AcceptNextDescribes(Consume(init).value, init, last);
        }
      }
    }
  }

  /** sub is full with some events left out. */
  ghost predicate Subsequence(sub: seq<Event>, full: seq<Event>)
  {
    if sub == [] then true
    else if full == [] then false
    else
      || Subsequence(sub, full[..|full| - 1])
      || (sub[|sub| - 1] == full[|full| - 1] && Subsequence(sub[..|sub| - 1], full[..|full| - 1]))
  }

  lemma {:induction false} SubsequenceMembers(sub: seq<Event>, full: seq<Event>)
    requires Subsequence(sub, full)
    ensures forall e :: e in sub ==> e in full
    decreases |full|
  {
    if sub != [] {
      var init := full[..|full| - 1];
      if Subsequence(sub, init) {
        SubsequenceMembers(sub, init);
      } else {
        SubsequenceMembers(sub[..|sub| - 1], init);
        assert sub == sub[..|sub| - 1] + [sub[|sub| - 1]];
      }
    }
  }

  /** Leaving events out (as parking does) never makes a conforming stream unacceptable. */
  lemma {:induction false} SubsequenceConforms(sub: seq<Event>, full: seq<Event>)
    requires Conforming(full) && Subsequence(sub, full)
    ensures Conforming(sub) && Consume(sub).Some?
    decreases |full|
  {
    ConsumeAcceptsExactlyConforming(sub);
    if sub != [] {
      var init := full[..|full| - 1];
      assert Conforming(init);
      if Subsequence(sub, init) {
        SubsequenceConforms(sub, init);
      } else {
        var subInit := sub[..|sub| - 1];
        SubsequenceConforms(subInit, init);
        SubsequenceMembers(subInit, init);
        forall i | 0 <= i < |subInit| ensures InOrder(sub[i], sub[|sub| - 1]) {
          assert subInit[i] in init;
          var j :| 0 <= j < |init| && init[j] == subInit[i];
          assert InOrder(full[j], full[|full| - 1]);
        }
        forall i, j | 0 <= i < j < |sub| ensures InOrder(sub[i], sub[j]) {
          if j < |subInit| {
            assert InOrder(subInit[i], subInit[j]);
          }
        }
        assert forall i :: 0 <= i < |subInit| ==> ValidEvent(subInit[i]);
        assert ValidEvent(full[|full| - 1]);
      }
    }
  }

  // ---------------------------------------------------------------- metering

  function Sum(durations: seq<uint64>): (total: nat)
  {
    if durations == [] then 0 else Sum(durations[..|durations| - 1]) + durations[|durations| - 1]
  }

  lemma {:induction false} SumMonotone(durations: seq<uint64>, k: nat)
    requires k <= |durations|
    ensures Sum(durations[..k]) <= Sum(durations)
  {
    if k < |durations| {
      SumMonotone(durations[..|durations| - 1], k);
      assert durations[..|durations| - 1][..k] == durations[..k];
    } else {
      assert durations[..k] == durations;
    }
  }

  /** Floors once, after summing; refuses exactly when the exact sum leaves uint64. */
  method CalculateOutputSeconds(durations: seq<uint64>) returns (r: Result<uint64>)
    ensures r.Ok? <==> Sum(durations) <= 0xFFFF_FFFF_FFFF_FFFF
    ensures r.Ok? ==> r.value == Sum(durations) / 1_000_000
    ensures r.Err? ==> r.error == TimelineOverflow
  {
    var total: uint64 := 0;
    for i := 0 to |durations|
      invariant total == Sum(durations[..i])
    {
      assert durations[..i + 1][..i] == durations[..i];
      if total + durations[i] > MAX_UINT64 {
        SumMonotone(durations, i + 1);
        return Err(TimelineOverflow);
      }
      total := total + durations[i];
    }
    assert durations[..|durations|] == durations;
    return Ok(total / MICROS_PER_SECOND);
  }
}
