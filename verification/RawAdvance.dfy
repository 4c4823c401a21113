/** Advance taken alone is not safe: when exactly it keeps the invariants its
    two real callers rely on, and what happens when it does not. */
module RawAdvance {
  import opened Basics
  import opened LiveContract
  import opened SessionRecord
  import opened SessionSteps
  import opened SessionInvariant
  import opened SessionRuns
  import opened SessionProgress

  lemma AdvanceShape(r: Record, e: Event)
    requires Inv(r) && Advance(r, e).Save?
    ensures var next := Advance(r, e).next;
            && ValidEvent(e) && e.id == EventId(r.runnerId, e.sequence) && r.lastSequence < e.sequence == next.lastSequence
            && next.pending == r.pending + [e] && next.runnerId == r.runnerId
            && r.usageTotal <= next.usageTotal
            && (if e.usage.Some? then next.usageTotal == e.usage.value else next.usageTotal == r.usageTotal)
            && SameMicros(r, next)
            && next.delivery == r.delivery && next.deadLetters == r.deadLetters && next.rejectedTotal == r.rejectedTotal
            && next.secrets == r.secrets && r.state.Active? && next.lastEventAt == Some(e.time)
            && (r.metered > 0 || r.segments != [] ==> e.usage.Some? ==> e.usage.value == r.metered / MICROS_PER_SECOND)
  {
  }

  /** What every accepted event keeps, metered or not. */
  lemma AdvanceKeepsOutbox(r: Record, e: Event)
    requires Inv(r) && Advance(r, e).Save?
    ensures var next := Advance(r, e).next;
            && OutboxAccepted(next) && SegmentsAccepted(next) && DeliveryAccepted(next) && TailAccepted(next)
  {
    AdvanceShape(r, e);
    hide Advance;
    var next := Advance(r, e).next;
    OwnEventsCarry(r, next);
    forall i, j | 0 <= i < j < |next.pending| ensures OutboxOrder(next.pending[i], next.pending[j]) {
      assert OwnEvent(r, r.pending[i]);
      if j < |r.pending| {
        assert OutboxOrder(r.pending[i], r.pending[j]);
      }
    }
    assert forall i :: 0 <= i < |next.pending| ==> OwnEvent(next, next.pending[i]);
  }

  lemma AdvanceKeepsLifecycle(r: Record, e: Event)
    requires Inv(r) && Advance(r, e).Save?
    ensures var next := Advance(r, e).next;
            LifecycleAccepted(next) && HealthAccepted(next) && SecretsAccepted(next) && PublisherClock(next)
  {
    assert "" !in CLOSE_REASONS;
  }

  lemma AdvanceTotals(r: Record, e: Event)
    requires Inv(r) && Advance(r, e).Save?
    ensures var next := Advance(r, e).next;
            && (Strengthening(next) <==> (e.usage.Some? ==> e.usage.value == r.metered / MICROS_PER_SECOND))
            && MeterAccepted(next)
  {
    AdvanceShape(r, e);
    hide Advance;
    var next := Advance(r, e).next;
    assert forall i :: 0 <= i < |r.pending| ==> next.pending[i] == r.pending[i];
  }

  /** Advance keeps the record sound exactly when a reported usage is the metered one. */
  lemma AdvanceIsSafeIffUsageIsMetered(r: Record, e: Event)
    requires Inv(r) && Advance(r, e).Save?
    ensures Inv(Advance(r, e).next) <==> (e.usage.Some? ==> e.usage.value == r.metered / MICROS_PER_SECOND)
  {
    AdvanceKeepsOutbox(r, e);
    AdvanceKeepsLifecycle(r, e);
    AdvanceTotals(r, e);
    hide OutboxAccepted, SegmentsAccepted, DeliveryAccepted, TailAccepted, LifecycleAccepted, HealthAccepted,
      SecretsAccepted,
      PublisherClock, Strengthening, MeterAccepted;
  }

  lemma OneSegmentMeter(sha: Digest, uri: string, micros: uint64)
    requires uri != "" && micros > 0
    ensures MeterBatch(sha, Meter(0, []), [Segment(uri, micros)]) == Ok(Meter(micros, [Hash(sha, uri)]))
  {
    var batch := [Segment(uri, micros)];
    assert batch[..|batch| - 1] == [];
    assert MeterBatch(sha, Meter(0, []), batch[..|batch| - 1]) == Ok(Meter(0, []));
    assert [] + [Hash(sha, uri)] == [Hash(sha, uri)];
  }

  lemma OverReportIsLoadable(r: Record, e: Event)
    requires Inv(r) && Live(r) && r.metered == 0 && r.segments == []
    requires Advance(r, e).Save? && e.state.Active?
    ensures Loadable(Advance(r, e).next, r.brokerId)
  {
    AdvanceKeepsOutbox(r, e);
    AdvanceKeepsLifecycle(r, e);
    AdvanceTotals(r, e);
  }

  lemma MismatchIsUnloadable(r: Record, id: string)
    requires r.metered > 0 && r.metered / MICROS_PER_SECOND != r.usageTotal
    ensures !Loadable(r, id)
  {
  }

  lemma FirstSegmentVerdict(sha: Digest, r: Record, uri: string, now: Time)
    requires Live(r) && r.lastSequence > 0 && r.metered == 0 && r.segments == [] && r.usageTotal > 1 && uri != ""
    ensures var v := AddSegments(sha, r, [Segment(uri, MICROS_PER_SECOND)], now);
            v.Save? && v.next.metered == MICROS_PER_SECOND && v.next.usageTotal == r.usageTotal
  {
    OneSegmentMeter(sha, uri, MICROS_PER_SECOND);
    hide MeterBatch, ValidEvent, EventId;
  }

  /** An event that over-reports an empty meter is accepted, and the next metered
      segment then saves a record that can never be loaded again. */
  lemma OverReportStrandsSession(sha: Digest, r: Record, e: Event, uri: string, now: Time)
    requires Inv(r) && Live(r) && r.metered == 0 && r.segments == []
    requires Advance(r, e).Save? && e.state.Active? && e.usage.Some? && e.usage.value > 1
    requires uri != ""
    ensures Loadable(Advance(r, e).next, r.brokerId)
    ensures var v := AddSegments(sha, Advance(r, e).next, [Segment(uri, MICROS_PER_SECOND)], now);
            v.Save? && !Loadable(v.next, r.brokerId)
  {
    hide AddSegments, Loadable, Inv;
    var next := Advance(r, e).next;
    OverReportIsLoadable(r, e);
    FirstSegmentVerdict(sha, next, uri, now);
    MismatchIsUnloadable(AddSegments(sha, next, [Segment(uri, MICROS_PER_SECOND)], now).next, r.brokerId);
  }

  /** Once a termination is pinned, Advance follows it exactly when the event
      names the pinned target, the next number and the frozen total. */
  lemma AdvanceFollowsPinIffTargetMatches(r: Record, e: Event)
    requires Inv(r) && r.stopping && Advance(r, e).Save?
    ensures KeepsPinnedTermination(r, Advance(r, e).next) <==>
            && e.state == r.pendingState.value
            && e.sequence == r.lastSequence + 1
            && e.usage == Some(r.usageTotal)
  {
  }

  /** A pinned "ended" can be overridden to "failed" by a raw caller. */
  lemma PinnedTargetCanBeOverridden(request: CreateRequest, response: CreateResponse, now: Time)
    requires ValidCreation(request, response) && |response.runnerId| <= 100
    ensures var r := Stop(Created(request, response, now), "gateway_close", Ended);
            var e := Event(EventId(r.runnerId, 1), 1, SessionFailed, now, Failed, Some(0), Some("gateway_close"));
            Inv(r) && Advance(r, e).Save? && Advance(r, e).next.state.Failed? && r.pendingState == Some(Ended)
  {
    var start := Created(request, response, now);
    assert Inv(start);
    assert ValidCloseReason("gateway_close");
    StopKeepsInv(start, "gateway_close", Ended);
    assert Decimal(1) == [DigitChar(1)];
  }
}
