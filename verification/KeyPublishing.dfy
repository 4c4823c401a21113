/** Who may publish, and when, told by what was issued and activated. */
module KeyPublishing {
  import opened Basics
  import opened LiveContract
  import opened SessionRecord
  import opened SessionSteps
  import opened SessionInvariant
  import opened SessionRuns
  import opened SessionProgress
  import opened SessionTheorems
  import opened SessionGates
  import opened PublisherRuns
  import opened SessionGuarantees
  import opened KeyRotation

  // ---------------------------------------------------------------- one step

  /** The action issued a new stream key, and that was saved. */
  predicate IssuesKey(r: Record, a: Action, n: Record) { a.Do? && a.op.IssueKey? && n != r }

  /** A new request became the current one; it waits for its activation unless it
      is the first. */
  predicate KeyIssued(r: Record, request: KeyRequest, response: KeyResponse, n: Record)
  {
    && Live(r) && r.secrets.Some? && r.pendingKey == "" && n.secrets.Some?
    && var s, t := r.secrets.value, n.secrets.value;
    && request.id != "" && request.id !in s.issues
    && t.issues.Keys == s.issues.Keys + {request.id}
    && t.currentKey == request.id && t.issues[request.id].response == response
    && t.issues[request.id].fingerprint == request
    && n.pendingKey == if s.currentKey == "" then "" else request.id
  }

  predicate KeyStep(r: Record, a: Action, n: Record)
  {
    if IssuesKey(r, a, n) then KeyIssued(r, a.op.request, a.op.response, n)
    else Live(n) ==>
      && Live(r) && n.secrets == r.secrets
      && n.pendingKey == if Activates(a, r.pendingKey) then "" else r.pendingKey
  }

  lemma IssueIsKeyStep(r: Record, request: KeyRequest, response: KeyResponse)
    requires ValidKeyRequest(request)
    ensures var v := RecordKeyIssue(r, request, response); v.Save? ==> KeyIssued(r, request, response, v.next) && v.next != r
  {
    if RecordKeyIssue(r, request, response).Save? {
      var s := r.secrets.value;
      var issues := Blanked(s.issues)[request.id := KeyIssue(request, request, response)];
      assert issues.Keys == s.issues.Keys + {request.id};
    }
    hide Blanked, Live;
  }

  lemma CompletionDecides(r: Record)
    requires Inv(r) && Live(r) && r.pendingKey != "" && r.secrets.Some?
    ensures OpaqueId(r.pendingKey) && CompleteActivation(r, r.pendingKey) == Save(r.(pendingKey := ""), Silent)
  {
  }

  /** A live record keeps its secrets and, short of its completion, its pending key. */
  lemma GatesAreKeySteps(r: Record, a: Action, v: Verdict)
    requires MindsGates(r, a, v) && (Live(Outcome(r, a, v)) ==> Live(r) && Outcome(r, a, v).secrets.Some?)
    requires a.Do? && a.op == CompleteKey(r.pendingKey) && Live(r) && r.pendingKey != "" && r.secrets.Some? ==>
               v == Save(r.(pendingKey := ""), Silent)
    requires r.secrets.None? ==> !Live(r)
    ensures KeyStep(r, a, Outcome(r, a, v))
  {
    if v.Save? && a.Do? && a.op.IssueKey? {
      hide KeyIssued, RecordKeyIssue;
      IssueIsKeyStep(r, a.op.request, a.op.response);
    }
    hide KeyIssued, RecordKeyIssue;
  }

  lemma CompletionDecision(sha: Digest, r: Record)
    requires Inv(r) && Live(r) && r.pendingKey != "" && r.secrets.Some?
    ensures Decide(sha, r, CompleteKey(r.pendingKey)) == Save(r.(pendingKey := ""), Silent)
  {
    hide Inv, CompleteActivation, OpaqueId, Live;
    CompletionDecides(r);
  }

  lemma CompletionVerdict(sha: Digest, states: seq<Record>, a: Action)
    requires states != []
    requires var r := states[|states| - 1];
             && Inv(r) && Live(r) && r.pendingKey != "" && r.secrets.Some?
             && a.Do? && a.op == CompleteKey(r.pendingKey)
    ensures var r := states[|states| - 1]; Verdicts(sha, states, a) == Save(r.(pendingKey := ""), Silent)
  {
    hide Inv, Decide, Live;
    CompletionDecision(sha, states[|states| - 1]);
  }

  lemma LiveHasSecrets(r: Record)
    requires Inv(r)
    ensures Live(r) ==> r.secrets.Some?
  {
  }

  lemma BeginHasSecrets(sha: Digest, actions: seq<Action>, run: Run)
    requires Execution(sha, actions, run)
    ensures run.states != []
    ensures var r := run.states[0];
            r.pendingKey == "" && r.secrets.Some? && r.secrets.value.currentKey == "" && r.secrets.value.issues == map[]
  {
    hide Verdicts;
    var request, response, now :| ValidCreation(request, response) && run == Exec(sha, Begin(request, response, now), actions);
    ExecKeepsFirst(sha, Begin(request, response, now), actions);
  }

  lemma LivenessStep(sha: Digest, actions: seq<Action>, run: Run, k: nat)
    requires Execution(sha, actions, run) && |run.states| == |actions| + 1 && k < |actions|
    ensures Inv(run.states[k]) && Inv(run.states[k + 1]) && (Live(run.states[k + 1]) ==> Live(run.states[k]))
  {
    hide *;
    ExecutionIsReachable(sha, actions, run);
    LaterStates(sha, run, k, k + 1);
    if Live(run.states[k + 1]) {
      LaterLiveness(run.states[k], run.states[k + 1]);
    }
  }

  lemma RunIsKeyStep(sha: Digest, actions: seq<Action>, run: Run, k: nat)
    requires Execution(sha, actions, run) && |run.states| == |actions| + 1 && k < |actions|
    ensures KeyStep(run.states[k], actions[k], run.states[k + 1])
  {
    hide *;
    GateStep(sha, actions, run, k);
    LivenessStep(sha, actions, run, k);
    LiveHasSecrets(run.states[k]);
    LiveHasSecrets(run.states[k + 1]);
    StepOfKeys(sha, run.states[..k + 1], actions[k]);
  }

  lemma StepOfKeys(sha: Digest, states: seq<Record>, a: Action)
    requires states != []
    requires var r := states[|states| - 1];
             && Inv(r) && MindsGates(r, a, Verdicts(sha, states, a)) && (Live(r) ==> r.secrets.Some?)
             && var n := Outcome(r, a, Verdicts(sha, states, a)); (Live(n) ==> Live(r) && n.secrets.Some?)
    ensures var r := states[|states| - 1]; KeyStep(r, a, Outcome(r, a, Verdicts(sha, states, a)))
  {
    hide *;
    var r := states[|states| - 1];
    if a.Do? && a.op == CompleteKey(r.pendingKey) && Live(r) && r.pendingKey != "" && r.secrets.Some? {
      CompletionVerdict(sha, states, a);
    }
    GatesAreKeySteps(r, a, Verdicts(sha, states, a));
  }

  // -------------------------------------------------------------- whole runs

  ghost predicate KeyStory(states: seq<Record>, actions: seq<Action>)
  {
    && |states| == |actions| + 1
    && states[0].pendingKey == "" && states[0].secrets.Some?
    && states[0].secrets.value.currentKey == "" && states[0].secrets.value.issues == map[]
    && forall k :: 0 <= k < |actions| ==> KeyStep(states[k], actions[k], states[k + 1])
  }

  lemma RunIsKeyStory(sha: Digest, actions: seq<Action>, run: Run)
    requires Execution(sha, actions, run) && |run.states| == |actions| + 1
    ensures KeyStory(run.states, actions)
  {
    BeginHasSecrets(sha, actions, run);
    hide Execution, KeyStep;
    forall k | 0 <= k < |actions| ensures KeyStep(run.states[k], actions[k], run.states[k + 1]) {
      RunIsKeyStep(sha, actions, run, k);
    }
  }

  /** What the record of a live session holds: the request IDs issued so far, the
      latest issue as the current one, and its activation as pending or done. */
  predicate KeysAre(r: Record, ids: set<string>, latest: Option<KeyIssue>, inForce: bool)
  {
    Live(r) ==>
      && r.secrets.Some?
      && var s := r.secrets.value;
      && s.issues.Keys == ids
      && match latest
         case None => s.currentKey == "" && r.pendingKey == "" && ids == {}
         case Some(issue) =>
           && issue.request.id != "" && s.currentKey == issue.request.id && s.currentKey in ids
           && s.issues[s.currentKey].response == issue.response && s.issues[s.currentKey].fingerprint == issue.fingerprint
           && r.pendingKey == if inForce then "" else s.currentKey
  }

  lemma IssueBecomesLatest(r: Record, a: Action, n: Record, ids: set<string>, latest: Option<KeyIssue>, inForce: bool)
    requires KeysAre(r, ids, latest, inForce) && IssuesKey(r, a, n) && KeyStep(r, a, n)
    ensures KeysAre(n, ids + {a.op.request.id}, Some(KeyIssue(a.op.request, a.op.request, a.op.response)), latest.None?)
  {
  }

  lemma OthersKeepLatest(r: Record, a: Action, n: Record, ids: set<string>, latest: Option<KeyIssue>, inForce: bool)
    requires KeysAre(r, ids, latest, inForce) && !IssuesKey(r, a, n) && KeyStep(r, a, n)
    ensures KeysAre(n, ids, latest, inForce || (latest.Some? && Activates(a, latest.value.request.id)))
  {
    hide IssuesKey, KeyIssued;
  }

  /** The last of the first j actions that issued a key. */
  function LatestIssue(states: seq<Record>, actions: seq<Action>, j: nat): (k: Option<nat>)
    requires |states| == |actions| + 1 && j <= |actions|
    ensures k.Some? ==> k.value < j && actions[k.value].Do? && actions[k.value].op.IssueKey?
  {
    if j == 0 then None
    else if IssuesKey(states[j - 1], actions[j - 1], states[j - 1 + 1]) then Some(j - 1)
    else LatestIssue(states, actions, j - 1)
  }

  /** The request IDs under which the first j actions issued keys. */
  function IssuedIds(states: seq<Record>, actions: seq<Action>, j: nat): (ids: set<string>)
    requires |states| == |actions| + 1 && j <= |actions|
  {
    if j == 0 then {}
    else if IssuesKey(states[j - 1], actions[j - 1], states[j - 1 + 1]) then
      IssuedIds(states, actions, j - 1) + {actions[j - 1].op.request.id}
    else IssuedIds(states, actions, j - 1)
  }

  /** The activation of this request was completed, and saved, from action m on. */
  predicate Activated(actions: seq<Action>, m: nat, j: nat, id: string)
    requires j <= |actions|
  {
    exists a: nat :: m <= a < j && Activates(actions[a], id)
  }

  /** The first issue needs no activation, every other one does. */
  predicate InForce(states: seq<Record>, actions: seq<Action>, k: nat, j: nat)
    requires |states| == |actions| + 1 && k < j <= |actions| && actions[k].Do? && actions[k].op.IssueKey?
  {
    LatestIssue(states, actions, k).None? || Activated(actions, k + 1, j, actions[k].op.request.id)
  }

  function IssueOf(a: Action): (issue: KeyIssue)
    requires a.Do? && a.op.IssueKey?
  {
    KeyIssue(a.op.request, a.op.request, a.op.response)
  }

  ghost predicate KeysMatch(states: seq<Record>, actions: seq<Action>, j: nat)
    requires |states| == |actions| + 1 && j <= |actions|
  {
    match LatestIssue(states, actions, j)
    case None => KeysAre(states[j], IssuedIds(states, actions, j), None, false)
    case Some(k) => KeysAre(states[j], IssuedIds(states, actions, j), Some(IssueOf(actions[k])), InForce(states, actions, k, j))
  }

  lemma ActivatedByNow(actions: seq<Action>, m: nat, j: nat, id: string)
    requires m <= j < |actions|
    ensures Activated(actions, m, j + 1, id) <==> Activated(actions, m, j, id) || Activates(actions[j], id)
    ensures !Activated(actions, j + 1, j + 1, id)
  {
    hide Activates;
  }

  lemma IssueMatches(states: seq<Record>, actions: seq<Action>, j: nat)
    requires |states| == |actions| + 1 && j < |actions| && KeysMatch(states, actions, j)
    requires IssuesKey(states[j], actions[j], states[j + 1]) && KeyStep(states[j], actions[j], states[j + 1])
    ensures KeysMatch(states, actions, j + 1)
  {
    hide KeysAre, KeyStep, Activated;
    ActivatedByNow(actions, j, j, actions[j].op.request.id);
    var ids := IssuedIds(states, actions, j);
    match LatestIssue(states, actions, j) {
      case None => IssueBecomesLatest(states[j], actions[j], states[j + 1], ids, None, false);
      case Some(k) =>
        IssueBecomesLatest(states[j], actions[j], states[j + 1], ids, Some(IssueOf(actions[k])), InForce(states, actions, k, j));
    }
  }

  lemma QuietMatches(states: seq<Record>, actions: seq<Action>, j: nat)
    requires |states| == |actions| + 1 && j < |actions| && KeysMatch(states, actions, j)
    requires !IssuesKey(states[j], actions[j], states[j + 1]) && KeyStep(states[j], actions[j], states[j + 1])
    ensures KeysMatch(states, actions, j + 1)
  {
    hide KeysAre, KeyStep, Activated, IssuesKey, Activates;
    var ids := IssuedIds(states, actions, j);
    match LatestIssue(states, actions, j) {
      case None => OthersKeepLatest(states[j], actions[j], states[j + 1], ids, None, false);
      case Some(k) =>
        ActivatedByNow(actions, k + 1, j, actions[k].op.request.id);
        OthersKeepLatest(states[j], actions[j], states[j + 1], ids, Some(IssueOf(actions[k])), InForce(states, actions, k, j));
    }
  }

  lemma {:induction false} KeysFollowIssues(states: seq<Record>, actions: seq<Action>, j: nat)
    requires KeyStory(states, actions) && j <= |actions|
    ensures KeysMatch(states, actions, j)
  {
    if j > 0 {
      KeysFollowIssues(states, actions, j - 1);
      assert KeyStep(states[j - 1], actions[j - 1], states[j - 1 + 1]);
      hide *;
      if IssuesKey(states[j - 1], actions[j - 1], states[j - 1 + 1]) {
        IssueMatches(states, actions, j - 1);
      } else {
        QuietMatches(states, actions, j - 1);
      }
    }
  }

  // -------------------------------------------------------------- publishing

  /** The latest issue is in force, unexpired, and of this path and token. */
  predicate Opens(sha: Digest, parse: KeyParser, states: seq<Record>, actions: seq<Action>, j: nat,
                  path: string, token: string, now: Time)
    requires |states| == |actions| + 1 && j <= |actions|
  {
    match LatestIssue(states, actions, j)
    case None => false
    case Some(k) =>
      var answer := actions[k].op.response;
      && InForce(states, actions, k, j)
      && answer.expiresAt.Some? && now < answer.expiresAt.value
      && match parse(answer.streamKey)
         case None => false
         case Some(key) => key.path == path && Hash(sha, token) == Hash(sha, key.token)
  }

  lemma KeysDecidePublishing(sha: Digest, parse: KeyParser, r: Record, ids: set<string>, latest: Option<KeyIssue>,
                             inForce: bool, path: string, token: string, now: Time)
    requires KeysAre(r, ids, latest, inForce)
    ensures CanPublish(sha, parse, r, path, token, now) <==>
              && r.state.Active? && !r.stopping && latest.Some? && inForce
              && var answer := latest.value.response;
              && answer.expiresAt.Some? && now < answer.expiresAt.value
              && match parse(answer.streamKey)
                 case None => false
                 case Some(key) => key.path == path && Hash(sha, token) == Hash(sha, key.token)
  {
  }

  lemma MatchDecidesPublishing(sha: Digest, parse: KeyParser, states: seq<Record>, actions: seq<Action>, j: nat,
                               path: string, token: string, now: Time)
    requires |states| == |actions| + 1 && j <= |actions| && KeysMatch(states, actions, j)
    ensures CanPublish(sha, parse, states[j], path, token, now) <==>
              states[j].state.Active? && !states[j].stopping && Opens(sha, parse, states, actions, j, path, token, now)
  {
    hide KeysAre, CanPublish, Live, InForce, LatestIssue, IssuedIds;
    var ids := IssuedIds(states, actions, j);
    match LatestIssue(states, actions, j) {
      case None => KeysDecidePublishing(sha, parse, states[j], ids, None, false, path, token, now);
      case Some(k) =>
        KeysDecidePublishing(sha, parse, states[j], ids, Some(IssueOf(actions[k])), InForce(states, actions, k, j), path, token, now);
    }
  }

  lemma IngestIsCanPublish(sha: Digest, parse: KeyParser, r: Record, path: string, token: string, internalToken: string, now: Time)
    ensures Authorize(sha, parse, r, Ingest, Rtmp, Publish, path, token, internalToken, now) <==>
            CanPublish(sha, parse, r, path, token, now)
  {
    hide MayPublish;
  }

  /** A publisher is let in if and only if the session is live, the key issued last
      is the first one or its activation was completed, it has not expired, and the
      path and the token are its own. */
  lemma PublishesIff(sha: Digest, parse: KeyParser, actions: seq<Action>, run: Run, j: nat,
                     path: string, token: string, internalToken: string, now: Time)
    requires Execution(sha, actions, run) && |run.states| == |actions| + 1 && j <= |actions|
    ensures Authorize(sha, parse, run.states[j], Ingest, Rtmp, Publish, path, token, internalToken, now) <==>
              && run.states[j].state.Active? && !run.states[j].stopping
              && Opens(sha, parse, run.states, actions, j, path, token, now)
  {
    hide *;
    RunIsKeyStory(sha, actions, run);
    KeysFollowIssues(run.states, actions, j);
    MatchDecidesPublishing(sha, parse, run.states, actions, j, path, token, now);
    IngestIsCanPublish(sha, parse, run.states[j], path, token, internalToken, now);
  }

  lemma {:induction false} LatestStays(states: seq<Record>, actions: seq<Action>, k: nat, j: nat)
    requires |states| == |actions| + 1 && k < j <= |actions|
    requires IssuesKey(states[k], actions[k], states[k + 1])
    requires forall i :: k < i < j ==> !IssuesKey(states[i], actions[i], states[i + 1])
    ensures LatestIssue(states, actions, j) == Some(k)
    decreases j
  {
    hide IssuesKey;
    if k + 1 < j {
      LatestStays(states, actions, k, j - 1);
      assert !IssuesKey(states[j - 1], actions[j - 1], states[j - 1 + 1]);
    }
  }

  /** An issue in force opens the ingest to its own path and token at every moment
      before it expires, and to nobody from then on; until the next issue. */
  lemma KeyOpensUntilExpiry(sha: Digest, parse: KeyParser, actions: seq<Action>, run: Run, k: nat, j: nat,
                            key: StreamKey, expiry: Time, now: Time)
    requires Execution(sha, actions, run) && |run.states| == |actions| + 1 && k < j <= |actions|
    requires IssuesKey(run.states[k], actions[k], run.states[k + 1]) && InForce(run.states, actions, k, j)
    requires forall i :: k < i < j ==> !IssuesKey(run.states[i], actions[i], run.states[i + 1])
    requires run.states[j].state.Active? && !run.states[j].stopping
    requires actions[k].op.response.expiresAt == Some(expiry) && parse(actions[k].op.response.streamKey) == Some(key)
    ensures CanPublish(sha, parse, run.states[j], key.path, key.token, now) <==> now < expiry
    ensures forall path, token :: now >= expiry ==> !CanPublish(sha, parse, run.states[j], path, token, now)
  {
    hide *;
    RunIsKeyStory(sha, actions, run);
    KeysFollowIssues(run.states, actions, j);
    MatchOpens(sha, parse, run.states, actions, k, j, key, expiry, now);
  }

  lemma MatchOpens(sha: Digest, parse: KeyParser, states: seq<Record>, actions: seq<Action>, k: nat, j: nat,
                   key: StreamKey, expiry: Time, now: Time)
    requires |states| == |actions| + 1 && k < j <= |actions| && KeysMatch(states, actions, j)
    requires states[j].state.Active? && !states[j].stopping
    requires IssuesKey(states[k], actions[k], states[k + 1]) && InForce(states, actions, k, j)
    requires forall i :: k < i < j ==> !IssuesKey(states[i], actions[i], states[i + 1])
    requires actions[k].op.response.expiresAt == Some(expiry) && parse(actions[k].op.response.streamKey) == Some(key)
    ensures CanPublish(sha, parse, states[j], key.path, key.token, now) <==> now < expiry
    ensures forall path, token :: now >= expiry ==> !CanPublish(sha, parse, states[j], path, token, now)
  {
    LatestStays(states, actions, k, j);
    hide CanPublish, InForce, Live, IssuesKey, LatestIssue, KeysMatch;
    MatchDecidesPublishing(sha, parse, states, actions, j, key.path, key.token, now);
    forall path, token ensures now >= expiry ==> !CanPublish(sha, parse, states[j], path, token, now) {
      MatchDecidesPublishing(sha, parse, states, actions, j, path, token, now);
    }
  }

  // ----------------------------------------------------------------- issuing

  lemma {:induction false} IssuedIdsAre(states: seq<Record>, actions: seq<Action>, j: nat)
    requires |states| == |actions| + 1 && j <= |actions|
    ensures forall id :: id in IssuedIds(states, actions, j) <==> IssuedBefore(states, actions, j, id)
  {
    if j > 0 {
      IssuedIdsAre(states, actions, j - 1);
      hide IssuesKey;
    }
  }

  /** Some earlier action issued a key under this request ID. */
  predicate IssuedBefore(states: seq<Record>, actions: seq<Action>, j: nat, id: string)
    requires |states| == |actions| + 1 && j <= |actions|
  {
    exists k: nat :: k < j && IssuesKey(states[k], actions[k], states[k + 1]) && actions[k].op.request.id == id
  }

  lemma IssueDecides(r: Record, request: KeyRequest, response: KeyResponse, ids: set<string>, latest: Option<KeyIssue>,
                     inForce: bool)
    requires KeysAre(r, ids, latest, inForce) && Live(r)
    ensures var v := RecordKeyIssue(r, request, response);
            && (v.Save? <==> request.id !in ids && (latest.Some? ==> inForce))
            && (v.Keep? <==> latest.Some? && latest.value.request.id == request.id && latest.value.fingerprint == request)
  {
    hide Live, Blanked;
  }

  /** On a live session a request for a key is honoured if and only if its ID was
      never used and the latest key, if there is one, is in force; it is answered
      as a replay if and only if it repeats the latest one. */
  lemma IssueIsHonouredIff(sha: Digest, actions: seq<Action>, run: Run, j: nat, request: KeyRequest, response: KeyResponse)
    requires Execution(sha, actions, run) && |run.states| == |actions| + 1 && j <= |actions| && Live(run.states[j])
    ensures var v, latest := RecordKeyIssue(run.states[j], request, response), LatestIssue(run.states, actions, j);
            && (v.Save? <==>
                  && !IssuedBefore(run.states, actions, j, request.id)
                  && (latest.Some? ==> InForce(run.states, actions, latest.value, j)))
            && (v.Keep? <==> latest.Some? && actions[latest.value].op.request == request)
  {
    hide *;
    RunIsKeyStory(sha, actions, run);
    KeysFollowIssues(run.states, actions, j);
    MatchDecidesIssue(run.states, actions, j, request, response);
  }

  lemma MatchDecidesIssue(states: seq<Record>, actions: seq<Action>, j: nat, request: KeyRequest, response: KeyResponse)
    requires |states| == |actions| + 1 && j <= |actions| && KeysMatch(states, actions, j) && Live(states[j])
    ensures var v, latest := RecordKeyIssue(states[j], request, response), LatestIssue(states, actions, j);
            && (v.Save? <==>
                  !IssuedBefore(states, actions, j, request.id) && (latest.Some? ==> InForce(states, actions, latest.value, j)))
            && (v.Keep? <==> latest.Some? && actions[latest.value].op.request == request)
  {
    IssuedIdsAre(states, actions, j);
    hide KeysAre, RecordKeyIssue, Live, InForce, LatestIssue, IssuedIds, IssuedBefore;
    var ids := IssuedIds(states, actions, j);
    match LatestIssue(states, actions, j) {
      case None => IssueDecides(states[j], request, response, ids, None, false);
      case Some(k) => IssueDecides(states[j], request, response, ids, Some(IssueOf(actions[k])), InForce(states, actions, k, j));
    }
  }

  // ------------------------------------------------------- everything else

  /** Nobody but a publisher of the ingest, the runner itself and the readers of a
      live session's renditions is let in. */
  lemma OthersAreAuthorizedIff(sha: Digest, parse: KeyParser, actions: seq<Action>, run: Run, j: nat, kind: MediaPath,
                               protocol: Protocol, action: MediaAction, path: string, token: string,
                               internalToken: string, now: Time)
    requires Execution(sha, actions, run) && |run.states| == |actions| + 1 && j <= |actions|
    requires !(kind == Ingest && protocol == Rtmp && action == Publish)
    ensures Authorize(sha, parse, run.states[j], kind, protocol, action, path, token, internalToken, now) <==>
              && run.states[j].state.Active? && !run.states[j].stopping
              && match protocol
                 case Rtmp => (kind == Ingest <==> action == Read) && action != OtherAction
                              && Hash(sha, token) == Hash(sha, internalToken)
                 case Hls => kind == Renditions && action == Read
                 case OtherProtocol => false
  {
    hide Execution, MayPublish, Inv;
    ExecutionIsSound(sha, actions, run);
    LiveHasSecrets(run.states[j]);
  }
}
