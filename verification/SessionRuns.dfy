/** Runs of one session: every interleaving of store mutations, of callers that
    act on an earlier unlocked load, and of the three save outcomes. */
module SessionRuns {
  import opened Basics
  import opened LiveContract
  import opened SessionRecord
  import opened SessionSteps
  import opened SessionInvariant

  datatype Action =
    | Do(op: Op, save: SaveOutcome)
      /** EnsureSession and FinalizeLiveTerminationV1 call Advance with an event
          built from the record that was durable after `loaded` earlier actions. */
    | Start(loaded: nat, now: Time, save: SaveOutcome)
    | Finish(loaded: nat, now: Time, save: SaveOutcome)

  datatype Settled = Delivered(event: Event) | Rejected(letter: DeadLetter)

  /** `states[k]` is the durable record after k actions; the rest is history. */
  datatype Run = Run(states: seq<Record>, appended: seq<Event>, settled: seq<Settled>, offered: seq<Segment>)

  function Now(run: Run): (r: Record)
    requires run.states != []
  {
    run.states[|run.states| - 1]
  }

  /** The record CreateOrReplay first saves. */
  function Created(request: CreateRequest, response: CreateResponse, now: Time): (r: Record)
  {
    Record(
      request.sessionId, response.runnerId, request, response.published,
      Active, false, "", None, "",
      0, 0, 0, [],
      false, None, None, None, None, None, Waiting, Some(now), "", None, 0, None,
      [], None, [], 0, "", Some(Secrets(request, response, "", map[])))
  }

  predicate ValidCreation(request: CreateRequest, response: CreateResponse)
  {
    ValidCreateRequest(request) && ValidCreateResponse(response)
  }

  function Begin(request: CreateRequest, response: CreateResponse, now: Time): (run: Run)
    ensures |run.states| == 1
  {
    Run([Created(request, response, now)], [], [], [])
  }

  /** What an action decides, given everything that was ever durable. */
  function Verdicts(sha: Digest, states: seq<Record>, a: Action): (v: Verdict)
    requires states != []
  {
    var r := states[|states| - 1];
    match a
    case Do(op, _) => Decide(sha, r, op)
    case Start(loaded, now, _) =>
      if loaded < |states| && Live(states[loaded]) && states[loaded].lastSequence == 0
      then Advance(r, StartEvent(states[loaded], now)) else Keep
    case Finish(loaded, now, _) =>
      if loaded < |states| && states[loaded].state.Active? && states[loaded].stopping && now != ZERO_TIME
      then Advance(r, TerminalEvent(states[loaded], now)) else Keep
  }

  predicate Commits(v: Verdict, a: Action)
  {
    v.Save? && !a.save.FailedBeforeRename?
  }

  /** The batch counts as offered once it was metered or found to hold nothing new. */
  predicate Offers(v: Verdict, a: Action)
  {
    a.Do? && a.op.Segments? && (v.Keep? || Commits(v, a))
  }

  /** Commit a verdict to the run, or leave the durable record as it is. */
  function Apply(run: Run, a: Action, v: Verdict): (next: Run)
    requires run.states != []
    ensures |next.states| == |run.states| + 1 && next.states[..|run.states|] == run.states
  {
    var offered := if Offers(v, a) then run.offered + a.op.batch else run.offered;
    if Commits(v, a) then
      Run(run.states + [v.next],
          if v.effect.Appended? then run.appended + [v.effect.event] else run.appended,
          match v.effect
          case Acknowledged(event) => run.settled + [Delivered(event)]
          case Parked(letter) => run.settled + [Rejected(letter)]
          case _ => run.settled,
          offered)
    else Run(run.states + [Now(run)], run.appended, run.settled, offered)
  }

  function Step(sha: Digest, run: Run, a: Action): (next: Run)
    requires run.states != []
  {
    Apply(run, a, Verdicts(sha, run.states, a))
  }

  function Exec(sha: Digest, start: Run, actions: seq<Action>): (run: Run)
    requires start.states != []
    ensures |run.states| == |start.states| + |actions|
  {
    if actions == [] then start
    else Step(sha, Exec(sha, start, actions[..|actions| - 1]), actions[|actions| - 1])
  }

  // -------------------------------------------------- what never comes undone

  predicate SameMicros(a: Record, b: Record) { a.metered == b.metered && a.segments == b.segments }

  predicate SameMeter(a: Record, b: Record) { a.usageTotal == b.usageTotal && SameMicros(a, b) }

  predicate KeysOnlyAdvance(a: Record, b: Record)
  {
    a.secrets.Some? && b.secrets.Some? ==>
      var s, t := a.secrets.value, b.secrets.value;
      forall id <- s.issues ::
        && id in t.issues && t.issues[id].fingerprint == s.issues[id].fingerprint
        && (id != s.currentKey ==> id != t.currentKey)
        && (id == t.currentKey ==> t.issues[id] == s.issues[id])
  }

  /** The termination this record has pinned is the only one that can follow. */
  predicate KeepsPinnedTermination(a: Record, b: Record)
  {
    a.stopping && a.pendingState.Some? ==>
      && SameMeter(a, b)
      && (if b.stopping then
            b.state.Active? && b.pendingReason == a.pendingReason && b.pendingState == a.pendingState
            && b.lastSequence == a.lastSequence
          else
            b.state == a.pendingState.value && b.closeReason == a.pendingReason
            && b.lastSequence == a.lastSequence + 1)
  }

  predicate StaysClosed(a: Record, b: Record)
  {
    IsTerminal(a.state) ==>
      && b.state == a.state && b.closeReason == a.closeReason && !b.stopping
      && b.lastSequence == a.lastSequence && SameMeter(a, b)
  }

  /** b may be found on disk after a. */
  predicate Later(a: Record, b: Record)
  {
    && b.brokerId == a.brokerId && b.runnerId == a.runnerId && b.fingerprint == a.fingerprint && b.published == a.published
    && a.lastSequence <= b.lastSequence && a.usageTotal <= b.usageTotal && a.metered <= b.metered
    && a.segments <= b.segments && a.rejectedTotal <= b.rejectedTotal
    && (a.secrets.None? ==> b.secrets.None?)
    && KeepsPinnedTermination(a, b)
    && StaysClosed(a, b)
    && KeysOnlyAdvance(a, b)
  }

  lemma LaterIsReflexive(a: Record)
    requires LifecycleAccepted(a)
    ensures Later(a, a)
  {
  }

  lemma LaterIsTransitive(a: Record, b: Record, c: Record)
    requires Later(a, b) && Later(b, c) && LifecycleAccepted(a) && LifecycleAccepted(b)
    ensures Later(a, c)
  {
    if a.secrets.Some? && c.secrets.Some? {
      var s, t, u := a.secrets.value, b.secrets.value, c.secrets.value;
      forall id | id in s.issues
        ensures
          && id in u.issues && u.issues[id].fingerprint == s.issues[id].fingerprint
          && (id != s.currentKey ==> id != u.currentKey)
          && (id == u.currentKey ==> u.issues[id] == s.issues[id])
      {
        assert id in t.issues;
      }
    }
  }
}
