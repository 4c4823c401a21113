/** Create, reconcile and every later mutation of one session ID. */
module CreateResolution {
  import opened Basics
  import opened LiveContract
  import opened SessionRecord
  import opened SessionSteps
  import opened SessionInvariant
  import opened SessionRuns
  import opened SessionStore
  import opened StoreRuns

  /** The two files an ID can have. */
  datatype Slot = Slot(record: Option<Record>, fenced: bool)

  datatype Call =
    | Create(request: CreateRequest, response: CreateResponse, now: Time, save: SaveOutcome)
    | Reconcile(id: string, save: SaveOutcome)
      /** Any other mutator: it moves the record to a later sound one. */
    | Mutate(next: Record)

  datatype Answer = CreatedAs(runnerId: string) | Fenced | Declined(error: Error) | Silence

  /** The ID a call is about is fixed; a mutation needs a record to move. */
  ghost predicate Concerns(id: string, s: Slot, c: Call)
  {
    match c
    case Create(request, _, _, _) => request.sessionId == id
    case Reconcile(asked, _) => asked == id
    case Mutate(next) => s.record.Some? && Later(s.record.value, next)
  }

  function Next(s: Slot, c: Call): (n: Slot)
  {
    match c
    case Create(request, response, now, save) =>
      if !ValidCreation(request, response) || s.record.Some? || s.fenced || save.FailedBeforeRename? then s
      else s.(record := Some(Created(request, response, now)))
    case Reconcile(id, save) =>
      if !OpaqueId(id) || s.record.Some? || save.FailedBeforeRename? then s else s.(fenced := true)
    case Mutate(next) => s.(record := Some(next))
  }

  function Reply(s: Slot, c: Call): (a: Answer)
  {
    match c
    case Create(request, response, now, save) =>
      if !ValidCreation(request, response) then Declined(InvalidInput)
      else if s.record.Some? then
        if s.record.value.fingerprint != request then Declined(SessionIdReuse)
        else if !Live(s.record.value) || s.record.value.secrets.None? then Declined(SessionTerminal)
        else CreatedAs(s.record.value.runnerId)
      else if s.fenced then Declined(CreateFenced)
      else if save.Committed? then CreatedAs(response.runnerId)
      else Declined(SaveFailed)
    case Reconcile(id, save) =>
      if !OpaqueId(id) then Declined(InvalidInput)
      else if s.record.Some? then CreatedAs(s.record.value.runnerId)
      else if save.Committed? then Fenced
      else Declined(SaveFailed)
    case Mutate(_) => Silence
  }

  /** `slots[k]` is what is on disk before call k. */
  ghost predicate History(id: string, slots: seq<Slot>, calls: seq<Call>)
  {
    && |slots| == |calls| + 1
    && slots[0] == Slot(None, false)
    && forall k :: 0 <= k < |calls| ==> Concerns(id, slots[k], calls[k]) && slots[k + 1] == Next(slots[k], calls[k])
  }

  /** What never comes undone: a record keeps its runner ID, a fence stays. */
  predicate Grown(a: Slot, b: Slot)
  {
    && (a.fenced ==> b.fenced)
    && (a.record.Some? ==> b.record.Some? && b.record.value.runnerId == a.record.value.runnerId)
  }

  predicate Exclusive(s: Slot) { s.record.None? || !s.fenced }

  lemma StepGrows(id: string, s: Slot, c: Call)
    requires Concerns(id, s, c)
    ensures Grown(s, Next(s, c)) && (Exclusive(s) ==> Exclusive(Next(s, c)))
  {
    hide KeysOnlyAdvance, KeepsPinnedTermination, StaysClosed;
  }

  lemma {:induction false} SlotsGrow(id: string, slots: seq<Slot>, calls: seq<Call>, i: nat, j: nat)
    requires History(id, slots, calls) && i <= j < |slots|
    ensures Grown(slots[i], slots[j])
    decreases j
  {
    hide Concerns, Next;
    if i < j {
      SlotsGrow(id, slots, calls, i, j - 1);
      StepGrows(id, slots[j - 1], calls[j - 1]);
    }
  }

  /** A session record and a create fence for one ID never coexist. */
  lemma {:induction false} RecordAndFenceExclude(id: string, slots: seq<Slot>, calls: seq<Call>, k: nat)
    requires History(id, slots, calls) && k < |slots|
    ensures slots[k].record.None? || !slots[k].fenced
  {
    hide Concerns, Next;
    if k > 0 {
      RecordAndFenceExclude(id, slots, calls, k - 1);
      StepGrows(id, slots[k - 1], calls[k - 1]);
    }
  }

  lemma AnswerIsDurable(s: Slot, c: Call)
    ensures Reply(s, c).CreatedAs? ==>
              Next(s, c).record.Some? && Next(s, c).record.value.runnerId == Reply(s, c).runnerId
    ensures Reply(s, c).Fenced? ==> Next(s, c).fenced
  {
  }

  /** All answers ever given for an ID agree, whoever asked and in any order: one
      runner ID from creates and reconciles alike, or never one at all. */
  lemma AnswersAgree(id: string, slots: seq<Slot>, calls: seq<Call>, i: nat, j: nat)
    requires History(id, slots, calls) && i < |calls| && j < |calls|
    requires Reply(slots[i], calls[i]).CreatedAs?
    ensures !Reply(slots[j], calls[j]).Fenced?
    ensures Reply(slots[j], calls[j]).CreatedAs? ==> Reply(slots[j], calls[j]).runnerId == Reply(slots[i], calls[i]).runnerId
  {
    AnswerIsDurable(slots[i], calls[i]);
    AnswerIsDurable(slots[j], calls[j]);
    hide Concerns, Next, Reply;
    SlotsGrow(id, slots, calls, i + 1, |calls|);
    SlotsGrow(id, slots, calls, j + 1, |calls|);
    RecordAndFenceExclude(id, slots, calls, |calls|);
  }

  /** Once fenced, always refused, even when the fence itself was reported as failed. */
  lemma FencedRefusesEveryCreate(id: string, slots: seq<Slot>, calls: seq<Call>, i: nat, j: nat)
    requires History(id, slots, calls) && i < j < |calls|
    requires slots[i + 1].fenced && calls[j].Create?
    ensures Reply(slots[j], calls[j]) == Declined(if ValidCreation(calls[j].request, calls[j].response) then CreateFenced else InvalidInput)
    ensures slots[j + 1] == slots[j]
  {
    SlotsGrow(id, slots, calls, i + 1, j);
    RecordAndFenceExclude(id, slots, calls, j);
  }

  /** A create that failed after its rename is still the session reconcile reports. */
  lemma LostCreateIsReported(id: string, slots: seq<Slot>, calls: seq<Call>, i: nat, j: nat)
    requires History(id, slots, calls) && i < j < |calls|
    requires calls[i].Create? && slots[i].record.None? && slots[i + 1].record.Some? && calls[j].Reconcile?
    ensures Reply(slots[j], calls[j]) == CreatedAs(calls[i].response.runnerId)
  {
    SlotsGrow(id, slots, calls, i + 1, j);
  }

  // ------------------------------------------------- what each caller is told

  /** Call i is the create that made the record, whatever it was told. */
  predicate Founds(calls: seq<Call>, slots: seq<Slot>, i: nat)
    requires |slots| == |calls| + 1 && i < |calls|
  {
    && calls[i].Create? && ValidCreateRequest(calls[i].request) && ValidCreateResponse(calls[i].response)
    && !calls[i].save.FailedBeforeRename? && slots[i] == Slot(None, false)
  }

  /** Call i is a reconcile that put up a fence, whatever it was told. */
  predicate Fences(calls: seq<Call>, slots: seq<Slot>, i: nat)
    requires |slots| == |calls| + 1 && i < |calls|
  {
    calls[i].Reconcile? && OpaqueId(calls[i].id) && !calls[i].save.FailedBeforeRename? && slots[i].record.None?
  }

  /** The ID is fresh until the first call that made a record or put up a fence. */
  predicate Untouched(calls: seq<Call>, slots: seq<Slot>, k: nat)
    requires |slots| == |calls| + 1 && k <= |calls|
  {
    forall i :: 0 <= i < k ==> !Founds(calls, slots, i) && !Fences(calls, slots, i)
  }

  lemma {:induction false} FreshIffUntouched(id: string, slots: seq<Slot>, calls: seq<Call>, k: nat)
    requires History(id, slots, calls) && k < |slots|
    ensures slots[k] == Slot(None, false) <==> Untouched(calls, slots, k)
  {
    hide Later;
    if k > 0 {
      FreshIffUntouched(id, slots, calls, k - 1);
      assert Concerns(id, slots[k - 1], calls[k - 1]) && slots[k - 1 + 1] == Next(slots[k - 1], calls[k - 1]);
      if Untouched(calls, slots, k) {
        assert !Founds(calls, slots, k - 1) && !Fences(calls, slots, k - 1);
      }
    }
  }

  lemma {:induction false} RecordFollowsFounder(id: string, slots: seq<Slot>, calls: seq<Call>, i: nat, k: nat)
    requires History(id, slots, calls) && i < k < |slots| && Founds(calls, slots, i)
    ensures slots[k].record.Some?
    ensures slots[k].record.value.fingerprint == calls[i].request && slots[k].record.value.runnerId == calls[i].response.runnerId
    decreases k
  {
    assert Concerns(id, slots[k - 1], calls[k - 1]) && slots[k - 1 + 1] == Next(slots[k - 1], calls[k - 1]);
    if i < k - 1 {
      RecordFollowsFounder(id, slots, calls, i, k - 1);
    }
    hide KeysOnlyAdvance, KeepsPinnedTermination, StaysClosed;
  }

  /** A valid create on a fresh ID makes the session and is told its own runner ID,
      if it was saved; one that repeats the founding request of a session still
      open is told the runner ID of that session; any other request for it is
      declined, as is everything once the ID is fenced (FencedRefusesEveryCreate). */
  lemma CreateIsAnswered(id: string, slots: seq<Slot>, calls: seq<Call>, j: nat)
    requires History(id, slots, calls) && j < |calls|
    requires calls[j].Create? && ValidCreateRequest(calls[j].request) && ValidCreateResponse(calls[j].response)
    ensures Untouched(calls, slots, j) ==>
              && Reply(slots[j], calls[j]) ==
                 (if calls[j].save.Committed? then CreatedAs(calls[j].response.runnerId) else Declined(SaveFailed))
              && (slots[j + 1].record.Some? <==> !calls[j].save.FailedBeforeRename?)
    ensures forall i: nat :: i < j && Founds(calls, slots, i) ==>
              && slots[j].record.Some?
              && var r := slots[j].record.value;
              && Reply(slots[j], calls[j]) ==
                 (if calls[j].request != calls[i].request then Declined(SessionIdReuse)
                  else if !r.state.Active? || r.stopping || r.secrets.None? then Declined(SessionTerminal)
                  else CreatedAs(calls[i].response.runnerId))
  {
    FreshIffUntouched(id, slots, calls, j);
    assert slots[j + 1] == Next(slots[j], calls[j]);
    forall i: nat | i < j && Founds(calls, slots, i)
      ensures slots[j].record.Some?
      ensures slots[j].record.value.fingerprint == calls[i].request
      ensures slots[j].record.value.runnerId == calls[i].response.runnerId
    {
      RecordFollowsFounder(id, slots, calls, i, j);
    }
    hide Concerns, Untouched, Founds, Created, ValidCreateRequest, ValidCreateResponse;
  }

  /** Without a record a reconcile puts up the fence and says so, if it was saved. */
  lemma ReconcileIsAnswered(id: string, slots: seq<Slot>, calls: seq<Call>, j: nat)
    requires History(id, slots, calls) && j < |calls|
    requires calls[j].Reconcile? && OpaqueId(id)
    ensures (forall i :: 0 <= i < j ==> !Founds(calls, slots, i)) ==>
              && Reply(slots[j], calls[j]) == (if calls[j].save.Committed? then Fenced else Declined(SaveFailed))
              && (!calls[j].save.FailedBeforeRename? ==> slots[j + 1] == Slot(None, true))
    ensures forall i: nat :: i < j && Founds(calls, slots, i) ==>
              Reply(slots[j], calls[j]) == CreatedAs(calls[i].response.runnerId)
  {
    if forall i :: 0 <= i < j ==> !Founds(calls, slots, i) {
      NoFounderNoRecord(id, slots, calls, j);
    }
    assert Concerns(id, slots[j], calls[j]) && slots[j + 1] == Next(slots[j], calls[j]);
    forall i: nat | i < j && Founds(calls, slots, i)
      ensures slots[j].record.Some?
      ensures slots[j].record.value.runnerId == calls[i].response.runnerId
    {
      RecordFollowsFounder(id, slots, calls, i, j);
    }
    hide Founds;
  }

  lemma {:induction false} NoFounderNoRecord(id: string, slots: seq<Slot>, calls: seq<Call>, k: nat)
    requires History(id, slots, calls) && k < |slots|
    requires forall i :: 0 <= i < k ==> !Founds(calls, slots, i)
    ensures slots[k].record.None?
  {
    hide Later;
    if k > 0 {
      NoFounderNoRecord(id, slots, calls, k - 1);
      assert Concerns(id, slots[k - 1], calls[k - 1]) && slots[k - 1 + 1] == Next(slots[k - 1], calls[k - 1]);
      assert !Founds(calls, slots, k - 1);
    }
  }

  // ------------------------------------------------------ the store's own calls

  function SlotOf(disk: map<string, Record>, fences: set<string>, id: string): (s: Slot)
  {
    Slot(if id in disk then Some(disk[id]) else None, id in fences)
  }

  method CreateOrReplay(store: EncryptedFileSessionStore, request: CreateRequest, response: CreateResponse,
                        now: Time, save: SaveOutcome)
    returns (answer: Answer)
    requires SoundDisk(store.disk)
    modifies store
    ensures SoundDisk(store.disk)
    ensures var s, c := old(SlotOf(store.disk, store.fences, request.sessionId)), Create(request, response, now, save);
            answer == Reply(s, c) && SlotOf(store.disk, store.fences, request.sessionId) == Next(s, c)
  {
    hide Inv, Loadable, Normalize;
    SoundLoad(store.disk, request.sessionId);
    CreatedIsSound(store.disk, request, response, now);
    hide SoundDisk, LoadResult;
    var res := store.CreateOrReplay(request, response, now, save);
    return if res.Ok? then CreatedAs(res.value.runnerId) else Declined(res.error);
  }

  lemma CreatedIsSound(disk: map<string, Record>, request: CreateRequest, response: CreateResponse, now: Time)
    requires SoundDisk(disk)
    ensures ValidCreation(request, response) ==> OpaqueId(request.sessionId) && SoundDisk(disk[request.sessionId := Created(request, response, now)])
  {
    if ValidCreation(request, response) {
      assert Inv(Created(request, response, now));
      hide Inv;
    }
  }

  method ReconcileCreate(store: EncryptedFileSessionStore, id: string, save: SaveOutcome) returns (answer: Answer)
    requires SoundDisk(store.disk)
    modifies store
    ensures store.disk == old(store.disk)
    ensures var s, c := old(SlotOf(store.disk, store.fences, id)), Reconcile(id, save);
            answer == Reply(s, c) && SlotOf(store.disk, store.fences, id) == Next(s, c)
  {
    hide Inv, SoundDisk;
    SoundLoad(store.disk, id);
    hide LoadResult, OpaqueId;
    var res := store.ReconcileCreate(id, save);
    return match res
           case Ok(Some(runnerId)) => CreatedAs(runnerId)
           case Ok(None) => Fenced
           case Err(e) => Declined(e);
  }
}
