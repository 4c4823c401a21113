/** The promises of the session store, read off the run invariant. */
module SessionGuarantees {
  import opened Basics
  import opened LiveContract
  import opened SessionRecord
  import opened SessionSteps
  import opened SessionInvariant
  import opened SessionRuns
  import opened SessionProgress
  import opened SessionTheorems

  /** Some creation followed by some interleaving of actions leads to this run. */
  ghost predicate Reachable(sha: Digest, run: Run)
  {
    exists request, response, now, actions ::
      ValidCreation(request, response) && run == Exec(sha, Begin(request, response, now), actions)
  }

  lemma ReachableIsSound(sha: Digest, run: Run)
    requires Reachable(sha, run)
    ensures RunInv(sha, run)
  {
    hide RunInv, Exec;
    var request, response, now, actions :|
      ValidCreation(request, response) && run == Exec(sha, Begin(request, response, now), actions);
    BeginIsSound(sha, request, response, now);
    RunsKeepInv(sha, Begin(request, response, now), actions);
  }

  /** No run, with any save outcome anywhere, leaves a record the next load rejects. */
  lemma NoSessionIsStranded(sha: Digest, run: Run, k: nat)
    requires Reachable(sha, run) && k < |run.states|
    ensures Loadable(run.states[k], run.states[0].brokerId)
  {
    hide Reachable, Later, Loadable;
    ReachableIsSound(sha, run);
    InvIsLoadable(run.states[k]);
    SameIdentity(run.states, k);
  }

  lemma SameIdentity(states: seq<Record>, k: nat)
    requires StatesSound(states) && k < |states|
    ensures states[k].brokerId == states[0].brokerId && states[k].runnerId == states[0].runnerId
  {
    hide Inv;
    assert Later(states[0], states[k]);
  }

  // ------------------------------------------------------------------ outbox

  /** Appended history is the settled prefix followed by the outbox; each settled
      event was settled once, in order; the audit copy is bounded; and whatever
      is still pending can still be delivered. */
  lemma OutboxIsUnsettledHistory(sha: Digest, run: Run)
    requires Reachable(sha, run)
    ensures run.appended == Events(run.settled) + Now(run).pending
    ensures forall i, j :: 0 <= i < j < |run.settled| ==> SettledEvent(run.settled[i]).id != SettledEvent(run.settled[j]).id
    ensures Now(run).rejectedTotal == |Letters(run.settled)|
    ensures var letters := Letters(run.settled);
            var kept := if |letters| < 32 then |letters| else 32;
            Now(run).deadLetters == letters[|letters| - kept..]
    ensures Now(run).pending != [] ==> Now(run).secrets.Some?
  {
    hide Reachable, Later, Metered, Outbox, History;
    ReachableIsSound(sha, run);
    assert Inv(Now(run));
    OutboxParts(run.appended, run.settled, Now(run));
  }

  lemma OutboxParts(h: seq<Event>, settled: seq<Settled>, r: Record)
    requires History(h, r) && Outbox(h, settled, r) && Inv(r)
    ensures h == Events(settled) + r.pending
    ensures forall i, j :: 0 <= i < j < |settled| ==> SettledEvent(settled[i]).id != SettledEvent(settled[j]).id
    ensures r.rejectedTotal == |Letters(settled)|
    ensures r.deadLetters == LastLetters(Letters(settled))
    ensures r.pending != [] ==> r.secrets.Some?
  {
    hide Inv;
    forall i, j | 0 <= i < j < |settled| ensures SettledEvent(settled[i]).id != SettledEvent(settled[j]).id {
      assert h[i] == SettledEvent(settled[i]) && h[j] == SettledEvent(settled[j]);
      assert InOrder(h[i], h[j]);
    }
    PendingKeepsSecrets(r);
  }

  lemma PendingKeepsSecrets(r: Record)
    requires Inv(r)
    ensures r.pending != [] ==> r.secrets.Some?
  {
  }

  lemma {:induction false} AcknowledgementsAreSubsequence(settled: seq<Settled>)
    ensures Subsequence(Acknowledgements(settled), Events(settled))
  {
    if settled != [] {
      var init := settled[..|settled| - 1];
      AcknowledgementsAreSubsequence(init);
      assert Events(settled)[..|settled| - 1] == Events(init);
      if settled[|settled| - 1].Delivered? {
        var acks := Acknowledgements(settled);
        assert acks[..|acks| - 1] == Acknowledgements(init);
      }
    }
  }

  lemma {:induction false} SubsequenceOfLonger(sub: seq<Event>, full: seq<Event>, rest: seq<Event>)
    requires Subsequence(sub, full)
    ensures Subsequence(sub, full + rest)
    decreases |rest|
  {
    if rest == [] {
      assert full + rest == full;
    } else {
      var longer := full + rest;
      SubsequenceOfLonger(sub, full, rest[..|rest| - 1]);
      assert longer[..|longer| - 1] == full + rest[..|rest| - 1];
    }
  }

  lemma AcknowledgedPartConforms(h: seq<Event>, settled: seq<Settled>, rest: seq<Event>)
    requires Conforming(h) && h == Events(settled) + rest
    ensures Consume(Acknowledgements(settled)).Some?
  {
    AcknowledgementsAreSubsequence(settled);
    SubsequenceOfLonger(Acknowledgements(settled), Events(settled), rest);
    SubsequenceConforms(Acknowledgements(settled), h);
  }

  lemma ConformingIsAccepted(h: seq<Event>, sub: seq<Event>)
    requires Conforming(h)
    ensures Consume(h).Some? && (Subsequence(sub, h) ==> Consume(sub).Some?)
  {
    ConsumeAcceptsExactlyConforming(h);
    if Subsequence(sub, h) {
      SubsequenceConforms(sub, h);
    }
  }

  /** A consumer applying the event contract accepts the whole history, any part
      of it, and in particular what is left when some events were parked. */
  lemma ConsumersNeverReject(sha: Digest, run: Run, sub: seq<Event>)
    requires Reachable(sha, run)
    ensures forall i :: 0 <= i < |run.appended| ==> run.appended[i].sequence == i + 1
    ensures |run.appended| == Now(run).lastSequence
    ensures Consume(run.appended).Some? && (Subsequence(sub, run.appended) ==> Consume(sub).Some?)
    ensures Consume(Acknowledgements(run.settled)).Some?
  {
    hide Reachable, Inv, Later, Metered, Outbox, History, Subsequence, Consume, Acknowledgements;
    ReachableIsSound(sha, run);
    HistoryIsAccepted(run.appended, run.settled, Now(run), sub);
  }

  lemma HistoryIsAccepted(h: seq<Event>, settled: seq<Settled>, r: Record, sub: seq<Event>)
    requires History(h, r) && Outbox(h, settled, r)
    ensures (forall i :: 0 <= i < |h| ==> h[i].sequence == i + 1) && |h| == r.lastSequence
    ensures Consume(h).Some? && (Subsequence(sub, h) ==> Consume(sub).Some?)
    ensures Consume(Acknowledgements(settled)).Some?
  {
    hide Conforming, Subsequence, Consume, Acknowledgements;
    ConformingIsAccepted(h, sub);
    AcknowledgedPartConforms(h, settled, r.pending);
  }

  // ------------------------------------------------------------- termination

  function TerminalEvents(h: seq<Event>): (n: nat)
  {
    if h == [] then 0 else TerminalEvents(h[..|h| - 1]) + if IsTerminal(h[|h| - 1].state) then 1 else 0
  }

  lemma {:induction false} NoTerminalEvents(h: seq<Event>)
    requires forall i :: 0 <= i < |h| ==> !IsTerminal(h[i].state)
    ensures TerminalEvents(h) == 0
  {
    if h != [] {
      NoTerminalEvents(h[..|h| - 1]);
    }
  }

  /** However many finishers race, history holds one terminal event exactly when
      the record is terminal, and it bills the floor of the metered seconds. */
  lemma OneTerminalEvent(sha: Digest, run: Run)
    requires Reachable(sha, run)
    ensures TerminalEvents(run.appended) == if IsTerminal(Now(run).state) then 1 else 0
    ensures IsTerminal(Now(run).state) ==>
              var last := run.appended[|run.appended| - 1];
              && last.closeReason == Some(Now(run).closeReason)
              && last.usage == Some(Now(run).metered / 1_000_000)
  {
    hide Reachable, Later;
    ReachableIsSound(sha, run);
    assert Inv(Now(run));
    hide Inv;
    var h := run.appended;
    if IsTerminal(Now(run).state) {
      NoTerminalEvents(h[..|h| - 1]);
    } else {
      NoTerminalEvents(h);
    }
  }

  /** The first pinned reason and target win, and the bill is frozen at the pin. */
  lemma FirstPinWins(sha: Digest, run: Run, i: nat, j: nat)
    requires Reachable(sha, run) && i <= j < |run.states|
    requires run.states[i].stopping
    ensures var a, b := run.states[i], run.states[j];
            && SameMeter(a, b)
            && a.pendingState.Some?
            && (if b.state.Active? then
                  b.stopping && b.pendingReason == a.pendingReason && b.pendingState == a.pendingState
                  && b.lastSequence == a.lastSequence
                else
                  b.state == a.pendingState.value && b.closeReason == a.pendingReason && b.lastSequence == a.lastSequence + 1)
  {
    hide Reachable;
    ReachableIsSound(sha, run);
    var a, b := run.states[i], run.states[j];
    assert Later(a, b);
    InvLifecycle(a);
    InvLifecycle(b);
  }

  lemma EventIdFits(runnerId: string, sequence: nat)
    requires OpaqueId(runnerId)
    ensures OpaqueId(EventId(runnerId, sequence)) <==> |EventId(runnerId, sequence)| <= 128
  {
  }

  /** Whether a terminal event can still be numbered and named. */
  predicate CanFinish(r: Record)
  {
    r.lastSequence < MAX_UINT64 && |EventId(r.runnerId, r.lastSequence + 1)| <= 128
  }

  lemma FinishVerdict(r: Record, snapshot: Record, now: Time)
    requires Inv(r) && Inv(snapshot) && Later(snapshot, r) && snapshot.state.Active? && snapshot.stopping
    ensures var v := Advance(r, TerminalEvent(snapshot, now));
            if r.state.Active? then v.Save? <==> CanFinish(r) else v == Refuse(SessionTerminal)
  {
    FinishIsSound(r, snapshot, now);
    hide Inv, Later, TerminalEvent, Advance;
    if r.state.Active? {
      TerminalAdvanceVerdict(r, now);
    } else {
      ClosedAdvanceVerdict(r, TerminalEvent(snapshot, now));
    }
  }

  /** The gap between the unlocked load and the append is harmless: the append
      succeeds, or someone else finished first, or the identity itself no longer
      fits. It never fails because the load was stale. */
  lemma FinishNeverGoesStale(sha: Digest, run: Run, loaded: nat, now: Time, save: SaveOutcome)
    requires Reachable(sha, run) && loaded < |run.states| && now != ZERO_TIME
    requires run.states[loaded].state.Active? && run.states[loaded].stopping
    ensures var r, v := Now(run), Verdicts(sha, run.states, Finish(loaded, now, save));
            if r.state.Active? then v.Save? <==> CanFinish(r) else v == Refuse(SessionTerminal)
  {
    hide Reachable, Inv, Later, TerminalEvent, Advance, CanFinish, History, Outbox, Metered;
    ReachableIsSound(sha, run);
    FinishVerdict(Now(run), run.states[loaded], now);
  }

  lemma ClosedAdvanceVerdict(r: Record, e: Event)
    requires !r.state.Active?
    ensures Advance(r, e) == Refuse(SessionTerminal)
  {
  }

  lemma TerminalAdvanceVerdict(r: Record, now: Time)
    requires Inv(r) && r.state.Active? && r.stopping
    ensures Advance(r, TerminalEvent(r, now)).Save? <==> CanFinish(r)
  {
    PinIsComplete(r);
    NextIdIsFresh(r);
    hide Inv, OpaqueId, EventId, ValidCloseReason, ValidEvent;
    var e := TerminalEvent(r, now);
    ValidIffItFits(r.runnerId, e);
    EventIdFits(r.runnerId, r.lastSequence + 1);
  }

  lemma ValidIffItFits(runnerId: string, e: Event)
    requires e.id == EventId(runnerId, e.sequence) && OpaqueId(runnerId) && e.usage.Some?
    requires e.closeReason.Some? && ValidCloseReason(e.closeReason.value)
    requires e.kind == (if e.state.Failed? then SessionFailed else SessionEnded) && IsTerminal(e.state)
    ensures ValidEvent(e) <==> e.sequence != 0 && |EventId(runnerId, e.sequence)| <= 128
  {
    EventIdFits(runnerId, e.sequence);
    hide OpaqueId, EventId, ValidCloseReason;
  }

  lemma PinIsComplete(r: Record)
    requires Inv(r) && r.stopping
    ensures ValidCloseReason(r.pendingReason) && r.pendingState.Some? && IsTerminal(r.pendingState.value)
    ensures OpaqueId(r.runnerId) && r.usageTotal == r.metered / MICROS_PER_SECOND
  {
  }

  lemma NextIdIsFresh(r: Record)
    requires Inv(r)
    ensures forall p :: p in r.pending ==> p.id != EventId(r.runnerId, r.lastSequence + 1)
  {
    forall p | p in r.pending ensures p.id != EventId(r.runnerId, r.lastSequence + 1) {
      var i :| 0 <= i < |r.pending| && r.pending[i] == p;
      assert OwnEvent(r, r.pending[i]);
      if p.id == EventId(r.runnerId, r.lastSequence + 1) {
        EventIdInjective(r.runnerId, p.sequence, r.lastSequence + 1);
      }
    }
  }

  // ---------------------------------------------------------------- metering

  /** Keep the first segment of each identity. */
  function FirstSeen(sha: Digest, offered: seq<Segment>): (kept: seq<Segment>)
  {
    if offered == [] then []
    else
      var before, last := offered[..|offered| - 1], offered[|offered| - 1];
      if exists i :: 0 <= i < |before| && Hash(sha, before[i].uri) == Hash(sha, last.uri) then FirstSeen(sha, before)
      else FirstSeen(sha, before) + [last]
  }

  function Durations(segments: seq<Segment>): (d: seq<uint64>)
    ensures |d| == |segments|
  {
    seq(|segments|, i requires 0 <= i < |segments| => segments[i].micros)
  }

  function Identities(sha: Digest, segments: seq<Segment>): (d: seq<string>)
    ensures |d| == |segments|
  {
    seq(|segments|, i requires 0 <= i < |segments| => Hash(sha, segments[i].uri))
  }

  /** Exactly the offered identities have been metered. */
  lemma {:induction false} MeterCoversOffered(sha: Digest, offered: seq<Segment>)
    requires MeterBatch(sha, Meter(0, []), offered).Ok?
    ensures var m := MeterBatch(sha, Meter(0, []), offered).value;
            && (forall i :: 0 <= i < |offered| ==> Hash(sha, offered[i].uri) in m.identities)
            && (forall x :: x in m.identities ==> exists i :: 0 <= i < |offered| && Hash(sha, offered[i].uri) == x)
  {
    if offered != [] {
      var before, last := offered[..|offered| - 1], offered[|offered| - 1];
      MeterCoversOffered(sha, before);
      var m, n := MeterBatch(sha, Meter(0, []), before).value, MeterBatch(sha, Meter(0, []), offered).value;
      assert MeterOne(sha, m, last) == Ok(n);
      assert Hash(sha, last.uri) in n.identities;
      forall x | x in n.identities ensures exists i :: 0 <= i < |offered| && Hash(sha, offered[i].uri) == x {
        if x in m.identities {
          var i :| 0 <= i < |before| && Hash(sha, before[i].uri) == x;
          assert offered[i] == before[i];
        } else {
          assert Hash(sha, offered[|before|].uri) == x;
        }
      }
      forall i | 0 <= i < |offered| ensures Hash(sha, offered[i].uri) in n.identities {
        if i < |before| {
          assert before[i] == offered[i];
        }
      }
    }
  }

  lemma {:induction false} MeterCountsFirstSeen(sha: Digest, offered: seq<Segment>)
    requires MeterBatch(sha, Meter(0, []), offered).Ok?
    ensures var m, kept := MeterBatch(sha, Meter(0, []), offered).value, FirstSeen(sha, offered);
            m.identities == Identities(sha, kept) && m.micros == Sum(Durations(kept))
  {
    if offered != [] {
      var before, last := offered[..|offered| - 1], offered[|offered| - 1];
      MeterCountsFirstSeen(sha, before);
      MeterCoversOffered(sha, before);
      var m, kept := MeterBatch(sha, Meter(0, []), before).value, FirstSeen(sha, before);
      assert MeterOne(sha, m, last) == MeterBatch(sha, Meter(0, []), offered);
      if Hash(sha, last.uri) !in m.identities {
        assert FirstSeen(sha, offered) == kept + [last];
        assert Identities(sha, kept + [last]) == Identities(sha, kept) + [Hash(sha, last.uri)];
        assert Durations(kept + [last]) == Durations(kept) + [last.micros];
        assert (Durations(kept) + [last.micros])[..|kept|] == Durations(kept);
      }
    }
  }

  /** Over overlapping, replayed and interrupted batches, the meter is the sum of
      first-seen durations, and the bill is its floor. */
  lemma MeteringIsExactlyOnce(sha: Digest, run: Run)
    requires Reachable(sha, run)
    ensures var r, kept := Now(run), FirstSeen(sha, run.offered);
            && r.segments == Identities(sha, kept)
            && r.metered == Sum(Durations(kept))
            && r.usageTotal == Sum(Durations(kept)) / 1_000_000
  {
    hide Reachable, Later;
    ReachableIsSound(sha, run);
    assert Inv(Now(run));
    hide Inv;
    MeterCountsFirstSeen(sha, run.offered);
  }

  ghost predicate Separates(sha: Digest, offered: seq<Segment>)
  {
    forall a, b :: a in offered && b in offered && Hash(sha, a.uri) == Hash(sha, b.uri) ==> a.uri == b.uri
  }

  /** When the digest separates the URIs in use, every URI is billed exactly once. */
  lemma EveryUriBilledOnce(sha: Digest, run: Run, k: nat)
    requires Reachable(sha, run) && k < |run.offered|
    requires Separates(sha, run.offered)
    ensures exists i :: 0 <= i < |FirstSeen(sha, run.offered)| && FirstSeen(sha, run.offered)[i].uri == run.offered[k].uri
    ensures var kept := FirstSeen(sha, run.offered);
            forall i, j :: 0 <= i < j < |kept| ==> kept[i].uri != kept[j].uri
  {
    hide Reachable, Later, History, Outbox;
    ReachableIsSound(sha, run);
    UrisOfMeter(sha, run.offered, Now(run), k);
  }

  lemma UrisOfMeter(sha: Digest, offered: seq<Segment>, r: Record, k: nat)
    requires Metered(sha, offered, r) && Inv(r) && Separates(sha, offered) && k < |offered|
    ensures exists i :: 0 <= i < |FirstSeen(sha, offered)| && FirstSeen(sha, offered)[i].uri == offered[k].uri
    ensures var kept := FirstSeen(sha, offered);
            forall i, j :: 0 <= i < j < |kept| ==> kept[i].uri != kept[j].uri
  {
    assert SegmentsAccepted(r);
    hide Inv;
    var kept := FirstSeen(sha, offered);
    MeterCountsFirstSeen(sha, offered);
    MeterCoversOffered(sha, offered);
    assert Hash(sha, offered[k].uri) in Identities(sha, kept);
    var i :| 0 <= i < |kept| && Identities(sha, kept)[i] == Hash(sha, offered[k].uri);
    FirstSeenWereOffered(sha, offered, i);
    var from :| 0 <= from < |offered| && offered[from] == kept[i];
    forall a, b | 0 <= a < b < |kept| ensures kept[a].uri != kept[b].uri {
      assert Identities(sha, kept)[a] != Identities(sha, kept)[b];
    }
  }

  lemma {:induction false} FirstSeenWereOffered(sha: Digest, offered: seq<Segment>, i: nat)
    requires i < |FirstSeen(sha, offered)|
    ensures exists k :: 0 <= k < |offered| && offered[k] == FirstSeen(sha, offered)[i]
  {
    var before := offered[..|offered| - 1];
    if i < |FirstSeen(sha, before)| {
      FirstSeenWereOffered(sha, before, i);
      var k :| 0 <= k < |before| && before[k] == FirstSeen(sha, before)[i];
      assert offered[k] == before[k];
    }
  }

  /** A tick is emitted exactly when the floor rises, and says where it rose to. */
  lemma TickExactlyWhenFloorRises(sha: Digest, r: Record, batch: seq<Segment>, now: Time)
    requires Inv(r) && AddSegments(sha, r, batch, now).Save?
    ensures var v := AddSegments(sha, r, batch, now);
            && (v.effect.Appended? <==> r.metered / 1_000_000 < v.next.metered / 1_000_000)
            && (v.effect.Appended? ==> v.effect.event.kind.UsageTick?
                                       && v.effect.event.usage == Some(v.next.metered / 1_000_000))
  {
    assert r.usageTotal == r.metered / MICROS_PER_SECOND;
    hide Inv, MeterBatch, ValidEvent, EventId;
  }

  predicate WellFormed(segments: seq<Segment>)
  {
    forall i :: 0 <= i < |segments| ==> segments[i].uri != "" && segments[i].micros > 0
  }

  lemma {:induction false} MeterAcceptsIff(sha: Digest, segments: seq<Segment>)
    ensures MeterBatch(sha, Meter(0, []), segments).Ok? <==>
              WellFormed(segments) && Sum(Durations(FirstSeen(sha, segments))) <= 0xFFFF_FFFF_FFFF_FFFF
  {
    if segments != [] {
      var before, last := segments[..|segments| - 1], segments[|segments| - 1];
      assert segments == before + [last];
      MeterAcceptsIff(sha, before);
      var kept := FirstSeen(sha, before);
      assert Durations(kept + [last]) == Durations(kept) + [last.micros];
      assert (Durations(kept) + [last.micros])[..|kept|] == Durations(kept);
      if MeterBatch(sha, Meter(0, []), before).Ok? {
        MeterCountsFirstSeen(sha, before);
        MeterCoversOffered(sha, before);
      }
    }
  }

  lemma AddingDecides(sha: Digest, r: Record, batch: seq<Segment>, now: Time)
    requires Inv(r) && CanFinish(r)
    ensures var v, m := AddSegments(sha, r, batch, now), MeterBatch(sha, Meter(r.metered, r.segments), batch);
            && (!v.Refuse? <==> r.state.Active? && !r.stopping && r.lastSequence > 0 && m.Ok?)
            && (v.Save? <==> !v.Refuse? && m.value.identities != r.segments)
  {
    hide Emit, MeterBatch, Inv, CanFinish, OpaqueId;
    RunnerIdFits(r);
    var m := MeterBatch(sha, Meter(r.metered, r.segments), batch);
    if m.Ok? {
      var total := m.value.micros / MICROS_PER_SECOND;
      var counted := Counted(r, m.value, now).(usageTotal := total);
      SameNumbersFinish(r, counted);
      TickSaves(counted, now, total);
    }
  }

  lemma SameNumbersFinish(r: Record, n: Record)
    requires n.runnerId == r.runnerId && n.lastSequence == r.lastSequence
    ensures CanFinish(n) <==> CanFinish(r)
  {
    hide EventId;
  }

  lemma RunnerIdFits(r: Record)
    requires Inv(r)
    ensures OpaqueId(r.runnerId)
  {
  }

  lemma TickSaves(r: Record, now: Time, total: uint64)
    requires OpaqueId(r.runnerId) && CanFinish(r)
    ensures Emit(r, UsageTick, now, Some(total)).Save?
  {
    EventIdFits(r.runnerId, r.lastSequence + 1);
    hide OpaqueId, EventId;
  }

  /** Finalized segments are taken if and only if the session is live and started,
      every one is well formed and the first-seen durations of the whole run still
      add up within 64 bits; the record changes if and only if one of them is new. */
  lemma SegmentsAreTakenIff(sha: Digest, run: Run, batch: seq<Segment>, now: Time)
    requires Reachable(sha, run) && CanFinish(Now(run))
    ensures var v, r, all := AddSegments(sha, Now(run), batch, now), Now(run), run.offered + batch;
            && (!v.Refuse? <==>
                  && r.state.Active? && !r.stopping && r.lastSequence > 0
                  && WellFormed(batch) && Sum(Durations(FirstSeen(sha, all))) <= 0xFFFF_FFFF_FFFF_FFFF)
            && (v.Save? <==> !v.Refuse? && |FirstSeen(sha, all)| > |FirstSeen(sha, run.offered)|)
  {
    hide *;
    ReachableIsSound(sha, run);
    RunIsMetered(sha, run);
    TakenIff(sha, run.offered, Now(run), batch, now);
  }

  lemma RunIsMetered(sha: Digest, run: Run)
    requires RunInv(sha, run)
    ensures run.states != [] && Inv(Now(run)) && Metered(sha, run.offered, Now(run))
  {
    hide Inv, Later, Metered, History, Outbox;
  }

  lemma TakenIff(sha: Digest, offered: seq<Segment>, r: Record, batch: seq<Segment>, now: Time)
    requires Metered(sha, offered, r) && Inv(r) && CanFinish(r)
    ensures var v, all := AddSegments(sha, r, batch, now), offered + batch;
            && (!v.Refuse? <==>
                  && r.state.Active? && !r.stopping && r.lastSequence > 0
                  && WellFormed(batch) && Sum(Durations(FirstSeen(sha, all))) <= 0xFFFF_FFFF_FFFF_FFFF)
            && (v.Save? <==> !v.Refuse? && |FirstSeen(sha, all)| > |FirstSeen(sha, offered)|)
  {
    hide Inv, CanFinish, AddSegments;
    AddingDecides(sha, r, batch, now);
    MeterBatchConcat(sha, Meter(0, []), offered, batch);
    MeterAcceptsIff(sha, offered);
    MeterAcceptsIff(sha, offered + batch);
    MeterCountsFirstSeen(sha, offered);
    if MeterBatch(sha, Meter(0, []), offered + batch).Ok? {
      MeterCountsFirstSeen(sha, offered + batch);
      FirstSeenGrows(sha, offered, batch);
    }
    WellFormedConcat(offered, batch);
  }

  lemma WellFormedConcat(a: seq<Segment>, b: seq<Segment>)
    ensures WellFormed(a + b) <==> WellFormed(a) && WellFormed(b)
  {
    if WellFormed(a + b) {
      forall i | 0 <= i < |a| ensures a[i].uri != "" && a[i].micros > 0 {
        assert (a + b)[i] == a[i];
      }
      forall i | 0 <= i < |b| ensures b[i].uri != "" && b[i].micros > 0 {
        assert (a + b)[|a| + i] == b[i];
      }
    }
  }

  lemma {:induction false} FirstSeenGrows(sha: Digest, a: seq<Segment>, b: seq<Segment>)
    ensures FirstSeen(sha, a) <= FirstSeen(sha, a + b)
  {
    if b == [] {
      assert a + b == a;
    } else {
      FirstSeenGrows(sha, a, b[..|b| - 1]);
      assert (a + b)[..|a + b| - 1] == a + b[..|b| - 1];
    }
  }
}
