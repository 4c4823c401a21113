/** Stream-key rotation over runs, and the publish authorisation that observes it. */
module KeyRotation {
  import opened Basics
  import opened LiveContract
  import opened SessionRecord
  import opened SessionSteps
  import opened SessionInvariant
  import opened SessionRuns
  import opened SessionProgress
  import opened SessionTheorems
  import opened SessionGates
  import opened PublisherRuns
  import opened SessionGuarantees

  datatype MediaPath = Ingest | Renditions
  datatype Protocol = Rtmp | Hls | OtherProtocol
  datatype MediaAction = Publish | Read | OtherAction

  /** A parsed private ingest key: the path it opens and its token. */
  datatype StreamKey = StreamKey(path: string, token: string)

  /** URL query parsing stays abstract; text without '?' never parses. */
  type KeyParser = f: string -> Option<StreamKey> | f("").None? witness (s: string) => None

  /** secureEqualV1 compares digests. */
  predicate SecureEqual(sha: Digest, a: string, b: string) { Hash(sha, a) == Hash(sha, b) }

  predicate MayPublish(sha: Digest, parse: KeyParser, s: Secrets, path: string, token: string, now: Time)
  {
    && s.currentKey in s.issues
    && var answer := s.issues[s.currentKey].response;
    && parse(answer.streamKey).Some?
    && answer.expiresAt.Some? && now < answer.expiresAt.value
    && parse(answer.streamKey).value.path == path
    && SecureEqual(sha, token, parse(answer.streamKey).value.token)
  }

  /** MediaMTXAuthorizerV1.Authorize for a path that parsed to this session. */
  predicate Authorize(sha: Digest, parse: KeyParser, r: Record, kind: MediaPath, protocol: Protocol,
                      action: MediaAction,
                      path: string, token: string, internalToken: string, now: Time)
  {
    && !protocol.OtherProtocol?
    && r.state.Active? && !r.stopping && r.secrets.Some?
    && match (kind, protocol, action)
       case (Ingest, Rtmp, Publish) => r.pendingKey == "" && MayPublish(sha, parse, r.secrets.value, path, token, now)
       case (Ingest, Rtmp, Read) => SecureEqual(sha, token, internalToken)
       case (Renditions, Rtmp, Publish) => SecureEqual(sha, token, internalToken)
       case (Renditions, Hls, Read) => true
       case _ => false
  }

  predicate CanPublish(sha: Digest, parse: KeyParser, r: Record, path: string, token: string, now: Time)
  {
    Authorize(sha, parse, r, Ingest, Rtmp, Publish, path, token, "", now)
  }

  /** The request ID names a recorded issue that is no longer the current one. */
  predicate Superseded(r: Record, id: string)
  {
    r.secrets.Some? && id in r.secrets.value.issues && id != r.secrets.value.currentKey
  }

  predicate Current(r: Record, id: string)
  {
    r.secrets.Some? && id in r.secrets.value.issues && id == r.secrets.value.currentKey
  }

  lemma LaterStates(sha: Digest, run: Run, i: nat, j: nat)
    requires Reachable(sha, run) && i <= j < |run.states|
    ensures Inv(run.states[i]) && Inv(run.states[j]) && Later(run.states[i], run.states[j])
  {
    hide Reachable, Inv, Later;
    ReachableIsSound(sha, run);
  }

  /** Only the current issue still holds a stream key. */
  lemma OnlyCurrentKeepsItsKey(sha: Digest, run: Run, k: nat, id: string)
    requires Reachable(sha, run) && k < |run.states|
    requires Superseded(run.states[k], id)
    ensures run.states[k].secrets.value.issues[id].response.streamKey == ""
  {
    hide Reachable;
    LaterStates(sha, run, k, k);
  }

  /** A superseded request ID stays superseded, and every replay of it is refused. */
  lemma SupersededStaysSuperseded(sha: Digest, run: Run, i: nat, j: nat, request: KeyRequest, response: KeyResponse)
    requires Reachable(sha, run) && i <= j < |run.states|
    requires Superseded(run.states[i], request.id)
    ensures run.states[j].secrets.Some? ==> Superseded(run.states[j], request.id)
    ensures var v := RecordKeyIssue(run.states[j], request, response);
            v.Refuse? && v.error in {SessionTerminal, RequestIdReuse, RequestSuperseded}
  {
    hide Reachable, Inv;
    LaterStates(sha, run, i, j);
  }

  /** While an issue stays current it is the stored one, and re-issuing it
      identically changes nothing: the answer is the stored response. */
  lemma CurrentReplaysStoredResponse(sha: Digest, run: Run, i: nat, j: nat, id: string, response: KeyResponse)
    requires Reachable(sha, run) && i <= j < |run.states|
    requires Current(run.states[i], id) && Current(run.states[j], id)
    ensures run.states[j].secrets.value.issues[id] == run.states[i].secrets.value.issues[id]
    ensures Live(run.states[j]) ==>
              RecordKeyIssue(run.states[j], run.states[i].secrets.value.issues[id].request, response) == Keep
  {
    hide Reachable;
    LaterStates(sha, run, i, j);
  }

  /** The token the record still holds for a request ID. */
  function IssuedToken(parse: KeyParser, r: Record, id: string): (token: Option<string>)
  {
    if r.secrets.Some? && id in r.secrets.value.issues then
      match parse(r.secrets.value.issues[id].response.streamKey)
      case Some(key) => Some(key.token)
      case None => None
    else None
  }

  /** Tokens issued under different request IDs have different digests. */
  ghost predicate DistinctTokens(sha: Digest, parse: KeyParser, states: seq<Record>)
  {
    forall i, j, a, b ::
      0 <= i < |states| && 0 <= j < |states| && a != b
      && IssuedToken(parse, states[i], a).Some? && IssuedToken(parse, states[j], b).Some?
      ==> Hash(sha, IssuedToken(parse, states[i], a).value) != Hash(sha, IssuedToken(parse, states[j], b).value)
  }

  lemma PublishNeedsCurrentToken(sha: Digest, parse: KeyParser, r: Record, path: string, token: string, now: Time)
    requires CanPublish(sha, parse, r, path, token, now)
    ensures var current := r.secrets.value.currentKey;
            IssuedToken(parse, r, current).Some? && Hash(sha, token) == Hash(sha, IssuedToken(parse, r, current).value)
  {
  }

  /** Once another request is current, the token issued under the old one never
      opens the ingest again, at that moment or later. */
  lemma SupersededTokenNeverPublishes(sha: Digest, parse: KeyParser, run: Run, i: nat, j: nat, k: nat, id: string,
                                      path: string, now: Time)
    requires Reachable(sha, run) && DistinctTokens(sha, parse, run.states)
    requires i <= j <= k < |run.states|
    requires IssuedToken(parse, run.states[i], id).Some? && Superseded(run.states[j], id)
    ensures !CanPublish(sha, parse, run.states[k], path, IssuedToken(parse, run.states[i], id).value, now)
  {
    hide Reachable, Inv, CanPublish, IssuedToken;
    LaterStates(sha, run, j, k);
    var r, token := run.states[k], IssuedToken(parse, run.states[i], id).value;
    if CanPublish(sha, parse, r, path, token, now) {
      PublishNeedsCurrentToken(sha, parse, r, path, token, now);
      PublishNeedsSecrets(sha, parse, r, path, token, now);
    }
  }

  lemma PublishNeedsSecrets(sha: Digest, parse: KeyParser, r: Record, path: string, token: string, now: Time)
    ensures CanPublish(sha, parse, r, path, token, now) ==> r.secrets.Some?
  {
  }

  lemma PublishNeedsLiveSession(sha: Digest, parse: KeyParser, r: Record, path: string, token: string, now: Time)
    requires CanPublish(sha, parse, r, path, token, now)
    ensures Live(r) && r.pendingKey == ""
  {
  }

  /** The pending activation of this request ID completes, and the result is saved. */
  predicate Activates(a: Action, id: string)
  {
    a.Do? && a.op == CompleteKey(id) && !a.save.FailedBeforeRename?
  }

  lemma ExecutionIsReachable(sha: Digest, actions: seq<Action>, run: Run)
    requires Execution(sha, actions, run)
    ensures Reachable(sha, run)
  {
    hide Exec;
  }

  /** A live session keeps its pending activation unless this action completes it. */
  predicate KeepsPending(r: Record, a: Action, next: Record)
  {
    Live(next) ==> Live(r) && (r.pendingKey != "" && !Activates(a, r.pendingKey) ==> next.pendingKey == r.pendingKey)
  }

  lemma GatesKeepPending(r: Record, a: Action, v: Verdict)
    requires MindsGates(r, a, v) && (Live(Outcome(r, a, v)) ==> Live(r))
    ensures KeepsPending(r, a, Outcome(r, a, v))
  {
  }

  lemma PendingStep(sha: Digest, actions: seq<Action>, run: Run, k: nat)
    requires Execution(sha, actions, run) && k < |actions| && |run.states| == |actions| + 1
    ensures KeepsPending(run.states[k], actions[k], run.states[k + 1])
  {
    ExecutionIsReachable(sha, actions, run);
    hide *;
    GateStep(sha, actions, run, k);
    LaterStates(sha, run, k, k + 1);
    if Live(run.states[k + 1]) {
      LaterLiveness(run.states[k], run.states[k + 1]);
    }
    GatesKeepPending(run.states[k], actions[k], Verdicts(sha, run.states[..k + 1], actions[k]));
  }

  lemma StepsKeepPending(sha: Digest, actions: seq<Action>, run: Run)
    requires Execution(sha, actions, run) && |run.states| == |actions| + 1
    ensures forall k :: 0 <= k < |actions| ==> KeepsPending(run.states[k], actions[k], run.states[k + 1])
  {
    hide *;
    forall k | 0 <= k < |actions| ensures KeepsPending(run.states[k], actions[k], run.states[k + 1]) {
      PendingStep(sha, actions, run, k);
    }
  }

  lemma {:induction false} PendingStays(states: seq<Record>, actions: seq<Action>, i: nat, j: nat)
    requires |states| == |actions| + 1 && i <= j <= |actions| && states[i].pendingKey != ""
    requires forall k :: i <= k < j ==> KeepsPending(states[k], actions[k], states[k + 1])
    requires forall k :: i <= k < j ==> !Activates(actions[k], states[i].pendingKey)
    ensures Live(states[j]) ==> states[j].pendingKey == states[i].pendingKey
  {
    hide Activates;
    if i < j {
      PendingStays(states, actions, i, j - 1);
      assert KeepsPending(states[j - 1], actions[j - 1], states[j - 1 + 1]);
    }
  }

  lemma LaterLiveness(a: Record, b: Record)
    requires Inv(a) && Later(a, b) && Live(b)
    ensures Live(a)
  {
  }

  /** While an activation is pending no token opens the ingest; only the saved
      completion of that very activation can open it again. */
  lemma PendingKeyClosesPublishing(sha: Digest, parse: KeyParser, actions: seq<Action>, run: Run, i: nat, j: nat,
                                   path: string, token: string, now: Time)
    requires Execution(sha, actions, run) && |run.states| == |actions| + 1
    requires i <= j <= |actions| && run.states[i].pendingKey != ""
    requires forall k :: i <= k < j ==> !Activates(actions[k], run.states[i].pendingKey)
    ensures !CanPublish(sha, parse, run.states[j], path, token, now)
  {
    StepsKeepPending(sha, actions, run);
    hide Execution, CanPublish, Activates, KeepsPending;
    PendingStays(run.states, actions, i, j);
    if CanPublish(sha, parse, run.states[j], path, token, now) {
      PublishNeedsLiveSession(sha, parse, run.states[j], path, token, now);
    }
  }

  /** The k-th action issued this request ID while another key was current. */
  predicate Rotates(run: Run, k: nat, id: string)
  {
    && k + 1 < |run.states| && run.states[k].secrets.Some? && run.states[k + 1].secrets.Some?
    && run.states[k].secrets.value.currentKey != ""
    && id !in run.states[k].secrets.value.issues && id in run.states[k + 1].secrets.value.issues
  }

  lemma RotationPends(sha: Digest, actions: seq<Action>, run: Run, k: nat, id: string)
    requires Execution(sha, actions, run) && |run.states| == |actions| + 1 && Rotates(run, k, id)
    ensures run.states[k + 1].pendingKey == id != ""
  {
    hide Execution, Verdicts, Inv;
    GateStep(sha, actions, run, k);
    hide Blanked;
  }

  /** From a rotation until its activation the ingest is closed to every token. */
  lemma RotationClosesPublishing(sha: Digest, parse: KeyParser, actions: seq<Action>, run: Run, i: nat, j: nat,
                                 id: string, path: string, token: string, now: Time)
    requires Execution(sha, actions, run) && |run.states| == |actions| + 1
    requires Rotates(run, i, id) && i < j <= |actions|
    requires forall k :: i < k < j ==> !Activates(actions[k], id)
    ensures !CanPublish(sha, parse, run.states[j], path, token, now)
  {
    hide *;
    RotationPends(sha, actions, run, i, id);
    PendingKeyClosesPublishing(sha, parse, actions, run, i + 1, j, path, token, now);
  }

  /** So does pinning a termination, for good. */
  lemma TerminationClosesPublishing(sha: Digest, parse: KeyParser, run: Run, i: nat, j: nat, path: string,
                                    token: string, now: Time)
    requires Reachable(sha, run) && i <= j < |run.states| && !Live(run.states[i])
    ensures !CanPublish(sha, parse, run.states[j], path, token, now)
  {
    hide Reachable, CanPublish;
    LaterStates(sha, run, i, j);
    if CanPublish(sha, parse, run.states[j], path, token, now) {
      PublishNeedsLiveSession(sha, parse, run.states[j], path, token, now);
    }
  }
}
