/** The imperative store takes exactly the steps the run theorems are about. */
module StoreRuns {
  import opened Basics
  import opened LiveContract
  import opened SessionRecord
  import opened SessionSteps
  import opened SessionInvariant
  import opened SessionRuns
  import opened SessionStore
  import opened SessionProgress
  import opened SessionTheorems

  /** Every file holds a record some run can reach, under its own name. */
  ghost predicate SoundDisk(disk: map<string, Record>)
  {
    forall id <- disk :: OpaqueId(id) && disk[id].brokerId == id && Inv(disk[id])
  }

  /** What a verdict on the current record does to the disk, loads aside. */
  ghost predicate Lands(before: map<string, Record>, after: map<string, Record>, id: string, save: SaveOutcome,
                        error: Option<Error>, v: Verdict)
    requires id in before
  {
    match v
    case Refuse(e) => after == before && error == Some(e)
    case Keep => after == before && error == None
    case Save(next, _) =>
      && error == (if save.Committed? then None else Some(SaveFailed))
      && after == if save.FailedBeforeRename? then before else before[id := next]
  }

  lemma SoundLoad(disk: map<string, Record>, id: string)
    requires SoundDisk(disk)
    ensures LoadResult(disk, id) == if !OpaqueId(id) then Err(InvalidInput) else if id !in disk then Err(NotFound) else Ok(disk[id])
  {
    hide Inv, Loadable, Normalize, OpaqueId;
    if id in disk {
      InvIsLoadable(disk[id]);
    }
  }

  lemma SoundPerforms(before: map<string, Record>, after: map<string, Record>, id: string, save: SaveOutcome,
                      error: Option<Error>, decide: Record -> Verdict)
    requires SoundDisk(before) && id in before
    requires Performs(before, after, id, save, error, decide)
    requires decide(before[id]).Save? ==> decide(before[id]).next.brokerId == id
    ensures Lands(before, after, id, save, error, decide(before[id]))
  {
    hide Inv, LoadResult, OpaqueId;
    SoundLoad(before, id);
  }

  lemma LandsKeepsSound(before: map<string, Record>, after: map<string, Record>, id: string, save: SaveOutcome,
                        error: Option<Error>, v: Verdict)
    requires SoundDisk(before) && id in before && Lands(before, after, id, save, error, v)
    requires Safe(v) && (v.Save? ==> v.next.brokerId == id)
    ensures SoundDisk(after)
  {
    hide Inv, OpaqueId;
  }

  lemma ApplyNow(run: Run, a: Action, v: Verdict)
    requires run.states != []
    ensures Now(Apply(run, a, v)) == if Commits(v, a) then v.next else Now(run)
  {
  }

  lemma RunStates(sha: Digest, run: Run)
    requires RunInv(sha, run)
    ensures StatesSound(run.states)
  {
    hide Inv, Later, History, Outbox, Metered;
  }

  lemma VerdictKeepsIdentity(sha: Digest, run: Run, a: Action)
    requires run.states != [] && RunInv(sha, run)
    ensures var v := Verdicts(sha, run.states, a); Safe(v) && (v.Save? ==> v.next.brokerId == Now(run).brokerId)
  {
    hide RunInv, Verdicts, Safe, Progress, StatesSound;
    RunStates(sha, run);
    VerdictIsSound(sha, run.states, a);
    ProgressKeepsIdentity(Now(run), Verdicts(sha, run.states, a));
  }

  lemma ProgressKeepsIdentity(r: Record, v: Verdict)
    requires Progress(r, v)
    ensures v.Save? ==> v.next.brokerId == r.brokerId
  {
    hide Shaped, KeysOnlyAdvance, KeepsPinnedTermination, StaysClosed;
  }

  /** A mutator call on a session is one step of that session's run. */
  lemma MutatorIsRunStep(sha: Digest, run: Run, a: Action, before: map<string, Record>, after: map<string, Record>,
                         id: string, error: Option<Error>, decide: Record -> Verdict)
    requires run.states != [] && RunInv(sha, run) && SoundDisk(before) && id in before && before[id] == Now(run)
    requires decide(Now(run)) == Verdicts(sha, run.states, a)
    requires Performs(before, after, id, a.save, error, decide)
    ensures RunInv(sha, Step(sha, run, a)) && SoundDisk(after)
    ensures after == before[id := Now(Step(sha, run, a))]
    ensures error.None? <==> Verdicts(sha, run.states, a).Keep? || (Verdicts(sha, run.states, a).Save? && a.save.Committed?)
  {
    hide Performs, Verdicts, RunInv, Safe, SoundDisk, Apply;
    VerdictKeepsIdentity(sha, run, a);
    StepKeepsRunInv(sha, run, a);
    MutatorLands(run, a, Verdicts(sha, run.states, a), before, after, id, error, decide);
  }

  lemma MutatorLands(run: Run, a: Action, v: Verdict, before: map<string, Record>, after: map<string, Record>,
                     id: string, error: Option<Error>, decide: Record -> Verdict)
    requires run.states != [] && SoundDisk(before) && id in before && before[id] == Now(run)
    requires Safe(v) && (v.Save? ==> v.next.brokerId == Now(run).brokerId)
    requires decide(Now(run)) == v && Performs(before, after, id, a.save, error, decide)
    ensures SoundDisk(after) && after == before[id := Now(Apply(run, a, v))]
    ensures error.None? <==> v.Keep? || (v.Save? && a.save.Committed?)
  {
    hide Performs, Safe, SoundDisk, Apply;
    SoundName(before, id);
    SoundPerforms(before, after, id, a.save, error, decide);
    LandsKeepsSound(before, after, id, a.save, error, v);
    ApplyNow(run, a, v);
  }

  lemma SoundName(disk: map<string, Record>, id: string)
    requires SoundDisk(disk) && id in disk
    ensures disk[id].brokerId == id && Inv(disk[id])
  {
    hide Inv, OpaqueId;
  }

  /** CreateOrReplay writes the first state of a run. */
  lemma CreationBeginsRun(sha: Digest, request: CreateRequest, response: CreateResponse, now: Time,
                          before: map<string, Record>)
    requires SoundDisk(before) && ValidCreation(request, response)
    ensures SoundDisk(before[request.sessionId := Created(request, response, now)])
    ensures RunInv(sha, Begin(request, response, now))
  {
    hide RunInv, Inv, StatesSound;
    BeginIsSound(sha, request, response, now);
    RunStates(sha, Begin(request, response, now));
    assert Inv(Created(request, response, now)) by { FirstState(Begin(request, response, now).states); }
  }

  lemma FirstState(states: seq<Record>)
    requires StatesSound(states)
    ensures Inv(states[0])
  {
    hide Inv, Later;
  }
}
