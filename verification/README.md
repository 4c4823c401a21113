# Transcode runners: a verified model

This project models the durable and concurrent protocols of the transcode
runners and proves what they promise.

* **Live session store and callback outbox** (`SessionRecord`, `SessionSteps`,
  `SessionInvariant`, `SessionRuns`, `SessionProgress`, `SessionTheorems`,
  `SessionGuarantees`, `SessionStore`, `StoreRuns`). `SessionSteps` says what each
  mutator decides on a loaded record. `SessionStore` holds the store itself as a
  class whose methods load, check, change and save under one lock, each proved
  against that decision. A run is any sequence of mutator calls, of callers that
  act on an earlier unlocked load, and of the three ways a save can end: committed,
  failed before the rename, failed after the rename. The rename is the commit point.
* **What rests on it**: the raw `Advance` limits (`RawAdvance`), publisher and
  output health, heartbeats and ladder restarts (`PublisherRuns`, `PublisherHealth`,
  `SessionCadence`, from the traces in `SessionTraces` and `SessionGates`), key rotation
  as seen by the media authoriser (`KeyRotation`, `KeyPublishing`), termination and
  start-up recovery (`LiveRecovery`), callback delivery and its schedule
  (`CallbackDispatcher`, `CallbackSweep`, `CallbackRuns`, `OutboxGrowth`, `RetryDelay`),
  and the create/reconcile protocol (`CreateResolution`).
* **ABR workloads**: billing and terminal claims (`AbrContract`), the checkpoint
  journal (`AbrJournal`, `AbrCheckpoints`, `AbrStore`, `AbrRuns`), the resumable executor
  (`AbrExecutor`, `AbrResume`), the event stream (`AbrStream`), and the coordinator
  as a state machine over atomic steps with its critical sections as class methods
  (`AbrCoordinator`, `AbrServing`, `AbrCapacity`, `AbrCancellation`, `AbrRegistry`).
* **GPU admission** over three lock files (`GpuAdmission`, `GpuGate`).
* **Parsers**: HLS media playlists (`Playlist`, section 4.3.2.1 of RFC 8216) and
  attribute lists (`HlsAttributes`, section 4.2 of RFC 8216).

`Basics`, `Text`, `Paths` and `LiveContract` hold the shared vocabulary. `dafny verify
dfyconfig.toml` checks everything.

## Reading the model

Time is an integer count of nanoseconds since Go's zero time, and an optional text
timestamp is an `Option`. Machine integers are subset types; wherever the source
can wrap, the wrap is written out. SHA-256 is a parameter, any function with
64-digit lower-case hex results: collision freedom is never assumed silently, and
the two properties that need it (`EveryUriBilledOnce`,
`SupersededTokenNeverPublishes`) say so. Request fingerprints stand for the
requests themselves. The public runtime descriptor and the grant audit are one
opaque value; event details are opaque and valid; the single work unit is implicit;
URL checks are one well-formedness flag. The secrets envelope is an `Option`.

The record validator of the live store is not inductive by itself. What has to be
added is `SessionInvariant.Strengthening`: every pending usage is at most the total,
the total is the floor of the meter even before the first segment, and an outbox
implies that the credentials are still there.

Where the code promises less than it seems to, the model follows the code:

* `Advance` alone accepts any usage on an empty meter and any terminal state; only
  its real callers are safe. `RawAdvance` gives the exact conditions and the inputs
  that break.
* The 58-bit limit on the seconds of a segment does not keep their product with a
  million from wrapping; `Playlist` gives the exact condition.
* The journal's `NextSequence` is incremented without a check; `AbrCheckpoints`
  gives the exact condition, and `AbrExecutor.Execute` asks for room.
* On pixel overflow the coordinator claims zero units, which the store refuses; such
  a workload never closes (`AbrCheckpoints.ClosesIffCountable`, `AbrRuns.OverflowIsForGood`).
* A request may attach to a run that was cancelled or is about to end, and then end
  without a terminal event; `AbrServing.AttachedIsServedIff` gives the exact condition.
* A failed progress report kills the encoder; one that has just exited cleanly makes
  the executor forget the failure and go on (`AbrExecutor.EncodeRendition`).
* A broker status outside 100..599 neither acknowledges, defers nor parks the head:
  the store refuses the record of it (`CallbackDispatcher.SafeCodeIsAccepted`).

## Model

| member | source | states |
|---|---|---|
| `LiveContract.EventIdInjective` | live-runner/store.go:299-318 | Two sequence numbers of one runner never share an event ID: decimal rendering is injective. |
| `LiveContract.EventCursor.Accept` | live-runner/contract.go:394-417 | The mutable cursor accepts exactly when its specification does, moves to that next cursor, and is untouched on an error. |
| `LiveContract.ConsumeAcceptsExactlyConforming` | live-runner/contract.go:394-417 | Folding Accept over a stream succeeds if and only if the stream is pairwise in order: numbers increase, IDs are new, usage never falls. |
| `LiveContract.SubsequenceConforms` | live-runner/contract.go:394-417 | Whatever subsequence of an acceptable stream is left after parking is still acceptable. |
| `LiveContract.CalculateOutputSeconds` | live-runner/contract.go:478-488 | The loop returns the floor of the exact sum in seconds, and refuses exactly when the sum leaves 64 bits. |
| `SessionRecord.CheckOutbox` | live-runner/store.go:1132-1147 | The one-pass cursor check accepts exactly the outboxes whose events are valid, own, strictly increasing in sequence and pairwise non-decreasing in usage. |
| `SessionRecord.CheckSegments` | live-runner/store.go:1180-1189 | The loop accepts exactly the lists of distinct SHA-256 identities. |
| `SessionRecord.ValidateRecord` | live-runner/store.go:1080-1202 | The whole validator equals one declarative condition on the record. |
| `RetryDelay.DoubledBase` | live-runner/callback.go:218-226 | The doubling loop equals min(initial * 2^(attempt - 1), maximum), and every intermediate value is a signed 64-bit integer. |
| `RetryDelay.SplitDivision` | live-runner/callback.go:239-243 | The split division equals the exact floor(base * delta / 1000). |
| `RetryDelay.ApplyJitter` | live-runner/callback.go:235-247 | The jitter branches equal exact scaling by factor / 1000 with a cap, without 64-bit overflow. |
| `RetryDelay.CallbackRetryDelay` | live-runner/callback.go:218-248 | The computed delay is the specified one for every attempt number. |
| `RetryDelay.DelayBounds` | live-runner/callback.go:218-248 | ceil(3/4 base) <= delay <= min(maximum, floor(5/4 base)), and the delay is positive. |
| `RetryDelay.JitterReachesExactly` | live-runner/callback.go:228-248 | For every event and attempt, the jitter factors of all possible digests are exactly 750 to 1250 thousandths. |
| `SessionInvariant.InvIsLoadable` | live-runner/store.go:914-986 | The strengthened invariant implies that a load accepts the record unchanged. |
| `SessionInvariant.OlderRecordLoads` | live-runner/store.go:931-941 | A record written before output health and pinned targets existed is read as the one a newer runner would have written. |
| `SessionInvariant.MeterBatchKeepsReady` | live-runner/store.go:339-362 | A metered batch keeps identities distinct and well formed, only extends the list, and adds time exactly when it adds an identity. |
| `SessionInvariant.AddSegmentsKeepsInv` | live-runner/store.go:323-401 | Metering a batch keeps the invariant, with or without a tick. |
| `SessionInvariant.ParkKeepsInv` | live-runner/store.go:810-839 | Parking a rejected head keeps the invariant, bounded audit list included. |
| `SessionInvariant.IssueKeyKeepsInv` | live-runner/store.go:206-254 | Issuing a key, with every older key blanked, keeps the invariant. |
| `SessionInvariant.ReserveKeepsInv` | live-runner/store.go:746-787 | Reserving an attempt keeps the invariant. |
| `SessionInvariant.StepKeepsInv` | live-runner/store.go:206-856 | Every mutator keeps the strengthened invariant on every record and argument. |
| `SessionProgress.StepProgresses` | live-runner/store.go:206-856 | Every mutator moves to a later record (identity, meter, pinned termination, closed state and key order only advance) and changes the outbox only as its label says. |
| `SessionProgress.StartIsSound` | live-runner/runtime.go:266-279 | The start event built from an older snapshot keeps the invariant whenever the store accepts it. |
| `SessionProgress.FinishIsSound` | live-runner/recovery.go:76-96 | The terminal event built from an unlocked load keeps the invariant, and rebuilding it from the current record gives the same event. |
| `SessionTheorems.MeterBatchConcat` | live-runner/store.go:339-362 | Metering two batches one after the other equals metering their concatenation. |
| `SessionTheorems.VerdictIsSound` | live-runner/store.go:206-856 | In every state of a run, every action, including ones that act on an older load, decides soundly. |
| `SessionTheorems.RunsKeepInv` | live-runner/store.go:206-856 | Any interleaving of actions with any save outcomes keeps the run invariant. |
| `SessionGuarantees.NoSessionIsStranded` | live-runner/store.go:1080-1241 | No run, with any save outcome anywhere, leaves a record that a later load rejects. |
| `SessionGuarantees.OutboxIsUnsettledHistory` | live-runner/store.go:727-856 | Appended history is the settled events followed by the outbox; each was settled once and in order; the rejected total counts the parked ones; dead letters are the last min(32, parked); a pending event still has its credentials. |
| `SessionGuarantees.ConsumersNeverReject` | live-runner/contract.go:394-417 | The history of every run is numbered exactly 1..LastSequence, and a consumer accepts it, every subsequence of it, and what was acknowledged of it. |
| `SessionGuarantees.OneTerminalEvent` | live-runner/recovery.go:64-105 | However many finishers race, history has exactly one terminal event once closed and none before; it carries the recorded reason and bills the floor of the metered seconds. |
| `SessionGuarantees.FirstPinWins` | live-runner/store.go:698-725 | From the first pin on, reason, target, sequence and bill are frozen, and the session can only close as pinned. |
| `SessionGuarantees.FinishNeverGoesStale` | live-runner/recovery.go:68-104 | The append after an unlocked load succeeds exactly when the next number and ID still fit, or finds the session closed by someone else; it never fails for staleness. |
| `SessionGuarantees.MeterCountsFirstSeen` | live-runner/store.go:339-362 | The meter is the list of first-seen identities and the sum of their durations. |
| `SessionGuarantees.MeteringIsExactlyOnce` | live-runner/store.go:323-401 | Over overlapping, replayed and interrupted batches the meter is the sum of first-seen durations and the bill is its floor in seconds. |
| `SessionGuarantees.SegmentsAreTakenIff` | live-runner/store.go:323-401 | In every run a batch is taken if and only if the session is live and started, every segment is well formed, and the first-seen durations of the whole run still add up within 64 bits; the record changes if and only if some segment is new. |
| `SessionGuarantees.EveryUriBilledOnce` | live-runner/store.go:339-362 | When the digest separates the URIs in use, every offered URI is billed once and only once. |
| `SessionGuarantees.TickExactlyWhenFloorRises` | live-runner/store.go:376-400 | A usage tick is appended if and only if the floor rises, and reports the new floor. |
| `RawAdvance.AdvanceIsSafeIffUsageIsMetered` | live-runner/store.go:279-318 | A raw accepted event keeps the record sound if and only if the usage it reports, if any, is the metered one. |
| `RawAdvance.OverReportStrandsSession` | live-runner/store.go:295-297 | A family of inputs outside the real callers: an over-reporting event on an empty meter is accepted, and the next metered segment makes the session unloadable. |
| `RawAdvance.AdvanceFollowsPinIffTargetMatches` | live-runner/store.go:285-316 | A raw event carries out the pinned termination if and only if it names the pinned state, the next number and the frozen total. |
| `RawAdvance.PinnedTargetCanBeOverridden` | live-runner/store.go:285-316 | A concrete raw event closes a session pinned to end as failed instead. |
| `PublisherRuns.OnlineMeansNoClock` | live-runner/store.go:466-475 | In every state of every run, an online publisher has no deadline and no offline mark. |
| `PublisherRuns.DeadlineNeverMoves` | live-runner/store.go:497-548 | A persisted deadline stays where it is until an online observation. |
| `PublisherRuns.DeadlineHasOrigin` | live-runner/store.go:517-536 | Every recorded deadline is the base plus wait of one earlier absence check. |
| `PublisherRuns.DisconnectWaitsForDeadline` | live-runner/store.go:537-547 | An absence check stops a session only once the recorded deadline, which is some base plus wait, has passed. |
| `PublisherRuns.StopHasCause` | live-runner/store.go:537-547 | In every run a session begins to stop only by a requested termination, with exactly the reason and target asked for, or by an absence check past a deadline that is some base plus wait. |
| `PublisherRuns.RequestedStopIsImmediate` | live-runner/store.go:698-725 | A requested termination of a live session, whatever its reason, stops it at once and without a deadline, if and only if reason and target are valid and the save got past its rename. |
| `PublisherRuns.StallsAreSeparated` | live-runner/store.go:591-680 | Between two stall notices there is a finalized segment or an ingest change. |
| `PublisherHealth.OutputFailsIffSilent` | live-runner/store.go:591-622 | In every state of every run the output has failed at a moment if and only if the session is active and not stopping, the publisher is online and was reported so at least failAfter before, and no segment was metered within failAfter. |
| `PublisherHealth.StallIsAnnouncedIff` | live-runner/store.go:591-634 | A health check announces a stall if and only if both reports are at least stallAfter but not both failAfter old, no stall stands and the save got past its rename. |
| `PublisherHealth.FreshOutputIsHealthy` | live-runner/store.go:611-622 | A check within stallAfter of the last metered segment finds neither a failure nor a stall and changes nothing. |
| `PublisherHealth.ReportedStallIsAnnounced` | live-runner/store.go:636-659 | A stall reported by the runtime is announced if and only if none stands and the save got past its rename. |
| `PublisherHealth.ReportsAreObserved` | live-runner/store.go:453-492 | After a saved report the publisher is online if and only if the report says so; a report of what is known changes nothing. |
| `PublisherHealth.AbsenceStopsIff` | live-runner/store.go:497-548 | An absence check stops a live session if and only if the publisher is away, the deadline, recorded before or set by this check, has come, and the save got past its rename. |
| `PublisherHealth.GraceRunsFromTheReport` | live-runner/store.go:517-536 | After a publisher was reported gone, the grace period counts from the time of that very report. |
| `SessionCadence.HeartbeatIffSilent` | live-runner/store.go:403-448 | In every run a heartbeat is appended if and only if the session is active and not stopping, has said something, and its last event is at least the interval old; it carries the present time and the bill so far. |
| `SessionCadence.LadderCountsRestarts` | live-runner/store.go:550-587 | In every state of every run the failure count is the number of recorded restarts since the one that opened the window: a restart too late for the window opens a new one, and new output or a departing publisher closes it. |
| `SessionCadence.RestartIsRecorded` | live-runner/store.go:550-587 | A ladder failure of a live session is recorded with its code and announced, as long as the counter has room. |
| `KeyRotation.OnlyCurrentKeepsItsKey` | live-runner/store.go:236-248 | In every state of every run only the current issue still holds a stream key. |
| `KeyRotation.SupersededStaysSuperseded` | live-runner/store.go:218-232 | A superseded request ID never becomes current again, and re-issuing it is refused. |
| `KeyRotation.CurrentReplaysStoredResponse` | live-runner/store.go:218-232 | An identical re-issue of the current request returns the stored response, which has not changed since it became current. |
| `KeyRotation.SupersededTokenNeverPublishes` | live-runner/media.go:134-169 | Given distinct tokens, a token that was superseded is never authorised to publish again; when a token is authorised, `KeyPublishing.PublishesIff` says. |
| `KeyRotation.RotationClosesPublishing` | live-runner/media.go:147-157 | In every run, from the step that records a rotation on, nobody may publish with any token until that very activation is completed and saved. |
| `KeyRotation.PendingKeyClosesPublishing` | live-runner/store.go:256-277 | Whatever happens in between, a session with a pending activation stays closed to publishers: no other request, failed save or other activation opens it. |
| `KeyRotation.TerminationClosesPublishing` | live-runner/media.go:134-146 | Once a session is stopping or closed nobody may ever publish to it again. |
| `KeyPublishing.PublishesIff` | live-runner/media.go:134-169 | In every state of every run a publisher is let in if and only if the session is active and not stopping, the key issued last is the first one or had its activation completed and saved, it has not expired, and path and token are the ones in it. |
| `KeyPublishing.KeyOpensUntilExpiry` | live-runner/media.go:147-159 | An issue in force opens the ingest to its own path and token at every moment before its expiry and to no path and token from then on, until the next issue or stop. |
| `KeyPublishing.IssueIsHonouredIff` | live-runner/store.go:223-254 | On a live session a key request is honoured if and only if its ID was never issued before and the latest key is in force; it is a replay if and only if it repeats the latest one. |
| `KeyPublishing.OthersAreAuthorizedIff` | live-runner/media.go:134-169 | Every other path, protocol and action: the runner itself reads the ingest and publishes renditions with the internal token, anyone reads the renditions of a live session over HLS, nothing else is allowed. |
| `SessionStore.EncryptedFileSessionStore.LoadLocked` | live-runner/store.go:914-986 | Invalid ID, missing file, rejected record and normalised success are told apart exactly. |
| `SessionStore.EncryptedFileSessionStore.SaveLocked` | live-runner/store.go:1018-1054 | The disk changes if and only if the rename happened; success is reported only when everything did. |
| `SessionStore.EncryptedFileSessionStore.CreateOrReplay` | live-runner/store.go:141-189 | Replay, ID reuse, closed session, fence, creation and each save outcome, with the disk after each. |
| `SessionStore.EncryptedFileSessionStore.Advance` | live-runner/store.go:279-318 | One locked load, decision and save on one record, with the decision of the specification. |
| `SessionStore.EncryptedFileSessionStore.RecordFinalizedSegments` | live-runner/store.go:323-401 | One locked load, decision and save; the result says whether a usage tick was appended. |
| `SessionStore.EncryptedFileSessionStore.RecordHeartbeat` | live-runner/store.go:403-448 | One locked load, decision and save; the result says whether a heartbeat was appended. |
| `SessionStore.EncryptedFileSessionStore.RecordIngestPresence` | live-runner/store.go:453-492 | One locked load, decision and save for a publisher seen coming or going. |
| `SessionStore.EncryptedFileSessionStore.ExpireAbsentPublisher` | live-runner/store.go:497-548 | One locked load, decision and save; the result says whether this call pinned the disconnect. |
| `SessionStore.EncryptedFileSessionStore.RecordLadderRestart` | live-runner/store.go:550-587 | One locked load, decision and save; the result is the new failure count in the window. |
| `SessionStore.EncryptedFileSessionStore.EvaluateOutputHealth` | live-runner/store.go:591-634 | One locked load, decision and save; failed exactly when the publisher report and the last segment, if any, are both at least failAfter old, and a stall announced exactly when both are stallAfter but not both failAfter old and none stands. |
| `SessionStore.EncryptedFileSessionStore.RecordOutputStalled` | live-runner/store.go:636-659 | One locked load, decision and save; the result says whether this call announced the stall. |
| `SessionStore.EncryptedFileSessionStore.BeginTerminal` | live-runner/store.go:698-725 | One locked load, decision and save; the result is the record as pinned, with whether this call pinned it. |
| `SessionStore.EncryptedFileSessionStore.AcknowledgeEvent` | live-runner/store.go:727-740 | One locked load, decision and save: only the head is dropped, under its own ID. |
| `SessionStore.EncryptedFileSessionStore.ReserveCallbackAttempt` | live-runner/store.go:746-787 | One locked load, decision and save; the returned attempt is the one now on disk. |
| `SessionStore.EncryptedFileSessionStore.RecordCallbackRetryFailure` | live-runner/store.go:789-805 | One locked load, decision and save: only the outcome of the reserved attempt is noted. |
| `SessionStore.EncryptedFileSessionStore.ParkCallbackRejection` | live-runner/store.go:810-839 | One locked load, decision and save: the head moves to the bounded audit list and the total rises by one. |
| `SessionStore.EncryptedFileSessionStore.ClearTerminalSecrets` | live-runner/store.go:841-856 | One locked load, decision and save: secrets go only from a closed session with an empty outbox. |
| `SessionStore.EncryptedFileSessionStore.RecordKeyIssue` | live-runner/store.go:206-254 | One locked load, decision and save; the response handed out is the stored one on a replay. |
| `SessionStore.EncryptedFileSessionStore.CompleteKeyActivation` | live-runner/store.go:256-277 | One locked load, decision and save: only the pending activation of the current key is completed. |
| `SessionStore.EncryptedFileSessionStore.ReconcileCreate` | live-runner/create_recovery.go:41-90 | A recorded session is reported with its runner ID, otherwise the ID is fenced, with the fence set after each save outcome. |
| `SessionStore.MeterSegments` | live-runner/store.go:339-362 | The loop with its seen map equals the specified fold, errors and overflow included. |
| `StoreRuns.MutatorIsRunStep` | live-runner/store.go:206-856 | A mutator call on a session is one step of that session's run: the new file is the new state, other files stay, and success is reported only for a committed or needless save. |
| `StoreRuns.CreationBeginsRun` | live-runner/store.go:165-189 | A creation writes the first state of a sound run. |
| `LiveRecovery.FinalizeLiveTermination` | live-runner/recovery.go:64-105 | A pinned session closes as pinned with one terminal event and an unchanged bill, exactly when the event can be numbered and the save got past its rename; a closed one is returned as it is; nothing else changes. |
| `LiveRecovery.EnsureSession` | live-runner/runtime.go:236-289 | From a record that may have been loaded earlier: the first launch of a live session announces it, once and as event number one; a session that runs or was announced already is left as it is, as is one that may no longer run. |
| `LiveRecovery.ActivationVerdict` | live-runner/store.go:256-277 | In a sound record a pending activation names the current key, so completing it is never refused. |
| `LiveRecovery.Recoverable` | live-runner/store.go:858-881 | The listing succeeds exactly when every file loads, and is exactly the records that are active, pending or still hold secrets, each once. |
| `LiveRecovery.RecoverLiveSessions` | live-runner/recovery.go:10-52 | While the sessions already launched go on changing the store: after success pinned sessions are closed, every session that was live was launched with no activation pending, and whatever is stopping or pending is a later record of one launched here; undisturbed, no record is stopping or pending and no other session changed state; after a failure the store is still sound. |
| `CallbackDispatcher.SafeCodeIsAccepted` | live-runner/callback.go:250-288 | Whatever the broker answers, the recorded code is well formed, and the store accepts the failure if and only if the status is in 100..599. |
| `CallbackDispatcher.DeliverNext` | live-runner/callback.go:142-212 | While other callers append: nothing happens unless the head is due; it is posted after its attempt is durable, and the reply settles that very event. With committed saves the head is kept for a retry if and only if there was no reply or the status is 408, 429 or 500..599, parked with its status, reason and attempts if and only if it is another one of 100..599 outside 200..299, and acknowledged if and only if it is 200..299; any other status settles nothing. |
| `CallbackDispatcher.DelayIsBounded` | live-runner/callback.go:142-168 | The next attempt is never less than 375 milliseconds nor more than 30 seconds away. |
| `CallbackSweep.SweepOnce` | live-runner/callback.go:99-137 | While other callers append, close and create sessions: outboxes drain only from the front, rejections are counted at most once per event gone, and secrets disappear only from closed sessions with nothing pending. A completed sweep leaves no such session with secrets and none of the events listed at its start pending, except in a session whose head, deferred or not due, now waits for an attempt later than one of its turns; when all is due, saved and finally answered, it completes and settles the whole snapshot in order. |
| `CallbackRuns.AttemptsAreSpaced` | live-runner/callback.go:142-168 | Recorded attempts at one event, across any restarts, count up, and the later one was not made before the jittered, capped, doubled delay of the earlier one. |
| `CallbackRuns.StaleSettlementHitsItsOwnEvent` | live-runner/callback.go:142-212 | However stale a dispatcher's load is, acknowledging or parking under an event ID settles that very event or nothing. |
| `OutboxGrowth.OthersGrow` | live-runner/store.go:206-725 | Each single step of any other caller, stale loads included, grows a record in that sense. |
| `OutboxGrowth.StretchesGrow` | live-runner/store.go:206-725 | Over any stretch of a run in which the callback worker does nothing, the outbox only grows at its end: head, attempt, rejections and secrets stay, a closed session appends nothing, and a session that closes has something to say. |
| `CreateResolution.RecordAndFenceExclude` | live-runner/create_recovery.go:41-90 | A session record and a create fence for one ID never coexist. |
| `CreateResolution.AnswersAgree` | live-runner/create_recovery.go:41-90 | All answers ever given for an ID by creates and reconciles agree: one runner ID, or never one. |
| `CreateResolution.FencedRefusesEveryCreate` | live-runner/store.go:141-189 | Once fenced, every later create is refused and changes nothing, even when the fence itself was reported as failed. |
| `CreateResolution.LostCreateIsReported` | live-runner/create_recovery.go:41-56 | A create that failed after its rename is still the session reconcile reports. |
| `CreateResolution.CreateIsAnswered` | live-runner/store.go:141-189 | A valid create on an untouched ID makes the session and is told its own runner ID if saved; repeating the founding request of an open session gives the runner ID of that session, another request or a closed session is refused. |
| `CreateResolution.ReconcileIsAnswered` | live-runner/create_recovery.go:41-90 | A reconcile reports the founding runner ID if there was a founding create, and otherwise puts up the fence and says so if saved. |
| `CreateResolution.CreateOrReplay` | live-runner/store.go:141-189 | The store's create is the create step of an ID's history, on a sound store. |
| `CreateResolution.ReconcileCreate` | live-runner/create_recovery.go:41-90 | The store's reconcile is the reconcile step of an ID's history, for valid and invalid IDs alike. |
| `AbrRuns.ReplayIsStable` | abr-runner/contract_v2.go:140-150 | Over any history of a journal, whatever is written in between: an ID refused to a request stays refused to it, a request that was answered with the stored outcome always gets that same outcome, and a request is told to resume only while no outcome has ever been stored. |
| `AbrContract.CalculateFrameMegapixelUnits` | abr-runner/contract_v2.go:297-323 | The carry arithmetic returns ceil(sum of frames * width * height / 1e6) over unbounded integers, or fails exactly when a frames * width, rendition or total product exceeds 2^64 - 1. |
| `AbrContract.OneMoreIsBilled` | abr-runner/contract_v2.go:297-323 | One more rendition adds frames * width * height to the total before it is rounded up; audio adds nothing. |
| `AbrContract.UnitsAreOrderFree` | abr-runner/contract_v2.go:297-323 | Amount and failure depend only on the multiset of renditions. |
| `AbrContract.ValidateTerminalResult` | abr-runner/contract_v2.go:232-272 | The validator with its seen map equals one condition: identity, URIs, distinct names, non-zero video and the exact unit claim. |
| `AbrContract.RedactedHidesCredentials` | abr-runner/contract_v2.go:274-292 | No message that leaves the runner holds a URL or a signature at any place and in any case of the letters. |
| `AbrJournal.AnyOrderGivesCheckpointUnits` | abr-runner/workload_store_v2.go:262-276 | Listing the delivered checkpoints in sorted order, map order or any other gives the same claim. |
| `Paths.SafePathsStayInside` | abr-runner/workload_store_v2.go:463-466 | The comparison with the cleaned path accepts exactly the relative paths with no empty, "." or ".." element, and ".". |
| `AbrCheckpoints.ResultBillsCheckpoints` | abr-runner/workload_store_v2.go:281-294 | A result that passes the comparison with the checkpoints bills exactly the checkpoints. |
| `AbrCheckpoints.WriteKeepsInvIffNumbered` | abr-runner/workload_store_v2.go:119-306 | Every checkpoint write keeps the journal loadable, and the stronger invariant, if and only if it does not number an event after the last 64-bit sequence. |
| `AbrCheckpoints.WriteExtends` | abr-runner/workload_store_v2.go:119-306 | Deliveries are never withdrawn, what was prepared for them and what they bill never changes, sequences only grow, and nothing follows the terminal event. |
| `AbrCheckpoints.OverflowNeverCloses` | abr-runner/abr_handler_v2.go:167-183 | When the delivered pixels overflow, no terminal result or error of any kind is ever accepted. |
| `AbrCheckpoints.ClosesIffCountable` | abr-runner/workload_store_v2.go:247-306 | An open workload accepts some terminal result or error if and only if the pixels of its delivered checkpoints can be counted in 64 bits. |
| `AbrRuns.StoreCallIsWrite` | abr-runner/workload_store_v2.go:119-306 | A store call on a journal is one write of such a history, and succeeds exactly for an accepted write with a committed save. |
| `AbrRuns.HistoriesStaySoundIff` | abr-runner/workload_store_v2.go:119-306 | From creation on, every journal of a history can be loaded and bills its checkpoints, if and only if no saved write numbers an event past the last 64-bit sequence. |
| `AbrRuns.HistoriesExtend` | abr-runner/workload_store_v2.go:119-306 | Over any history of checkpoint writes with any save outcomes, every later journal extends every earlier one. |
| `AbrRuns.OverflowIsForGood` | abr-runner/workload_store_v2.go:178-306 | Once they overflow, no later write of any kind ever closes the workload. |
| `AbrRuns.OverflowIsReachable` | abr-runner/workload_store_v2.go:158-200 | A concrete history of two accepted writes after which the delivered pixels overflow. |
| `AbrStore.FileWorkloadStore.LoadLocked` | abr-runner/workload_store_v2.go:333-363 | Invalid ID, missing, corrupt and accepted journals are told apart exactly. |
| `AbrStore.FileWorkloadStore.LoadOrCreate` | abr-runner/workload_store_v2.go:81-110 | Creates a fresh journal or classifies the replay; an ID belongs to one request for good. |
| `AbrStore.FileWorkloadStore.AppendProgress` | abr-runner/workload_store_v2.go:119-156 | One locked load, decision and save, with the decision of the specification and the window of 256. |
| `AbrStore.FileWorkloadStore.SavePrepared` | abr-runner/workload_store_v2.go:158-176 | One locked load, decision and save: refused for a delivered rendition or an invalid checkpoint. |
| `AbrStore.FileWorkloadStore.SaveDelivered` | abr-runner/workload_store_v2.go:178-200 | One locked load, decision and save: only for a matching prepared checkpoint and stable URIs. |
| `AbrStore.FileWorkloadStore.SavePreparedManifest` | abr-runner/workload_store_v2.go:202-214 | One locked load, decision and save: refused once the manifest is delivered. |
| `AbrStore.FileWorkloadStore.SaveDeliveredManifest` | abr-runner/workload_store_v2.go:216-231 | One locked load, decision and save: only after a prepared manifest. |
| `AbrStore.FileWorkloadStore.RecordTerminalResult` | abr-runner/workload_store_v2.go:233-306 | One locked load, decision and save: only a valid result that reports the checkpoints; the loop compares them all. |
| `AbrStore.FileWorkloadStore.RecordTerminalError` | abr-runner/workload_store_v2.go:240-306 | One locked load, decision and save: only a valid error whose claim equals the recomputation in map order. |
| `AbrStore.DeliveredUnits` | abr-runner/abr_handler_v2.go:190-205 | Listing the delivered map in iteration order and billing the list gives the claim of the checkpoints. |
| `AbrStore.ValidateJournal` | abr-runner/workload_store_v2.go:403-441 | The validator's loops over both maps equal one condition on the journal. |
| `AbrExecutor.WriteEffect` | abr-runner/workload_store_v2.go:119-306 | On a sound store every checkpoint write leaves the journal as it was or moves it by exactly that write, and touches nothing else. |
| `AbrExecutor.EncodeRendition` | abr-runner/abr_executor_v2.go:170-241 | An encode, whatever it reports, changes only the progress and this rendition's prepared checkpoint, which is durable when it succeeds; when nothing goes wrong outside, it succeeds. |
| `AbrExecutor.PutRendition` | abr-runner/abr_executor_v2.go:80-98 | Playlist before stream, both before the delivered checkpoint, which carries the playlist and stream destinations of the request under that name and the video and size of the prepared checkpoint; when nothing goes wrong outside, it is delivered. |
| `AbrExecutor.DeliverAll` | abr-runner/abr_executor_v2.go:55-99 | The rendition loop skips what was delivered before, uploads nothing twice, and ends with one result per preset name, equal to its checkpoint. |
| `AbrExecutor.DeliverManifest` | abr-runner/abr_executor_v2.go:101-125 | The manifest is uploaded only when it was not delivered before, and delivered only after the upload. |
| `AbrExecutor.FinishedIsRecordable` | abr-runner/abr_executor_v2.go:126-136 | The store accepts the result of a finished execution, with the units of the checkpoints. |
| `AbrExecutor.Execute` | abr-runner/abr_executor_v2.go:32-136 | From any journal and any failures or crash: nothing durably delivered before is uploaded, no artifact is uploaded twice, delivery implies upload and a prepared checkpoint, every new delivery carries exactly the destinations of the request and the video and size it was prepared with, a finished result lists those values, and a failure names a stage that failed. With no crash, working stages, committed saves and valid files it finishes if and only if the delivered pixels can be counted. |
| `AbrExecutor.ProgressRunsUp` | abr-runner/abr_executor_v2.go:334-339 | Reported progress starts at 5, ends at 95, carries over from one rendition to the next and never falls. |
| `AbrResume.DeliveredIsNeverUploadedAgain` | abr-runner/abr_executor_v2.go:49-136 | Over any sequence of executions and crashes, once a delivered checkpoint is durable no later execution uploads that rendition or manifest, and the checkpoint itself never changes. |
| `AbrResume.DeliveryHasOneExecution` | abr-runner/abr_executor_v2.go:49-136 | A delivery that appeared during those runs was uploaded in full by one execution and by none after it. |
| `AbrResume.DeliveredAsRequested` | abr-runner/abr_executor_v2.go:80-98 | Over any sequence of executions and crashes, a rendition delivered since the first journal carries the destinations of the request and the video and size of what the execution that delivered it found prepared or encoded. |
| `AbrResume.SafeFailure` | abr-runner/abr_handler_v2.go:207-220 | Whatever the executor failed with, code and message that leave the runner are non-empty and redacted; a valid failure leaves as it is, any other as a retryable execution_failed. |
| `AbrResume.Run` | abr-runner/abr_handler_v2.go:161-188 | An uncancelled run with a committed save closes with a result after success, and after a failure closes exactly when the checkpoints can be counted, with the failure of the stage that failed; every closed workload bills its delivered checkpoints, and a result lists them as delivered; a cancelled or dead run closes nothing; when nothing goes wrong outside, the workload succeeds if and only if its pixels can be counted. |
| `AbrResume.Serve` | abr-runner/abr_handler_v2.go:320-336 | A request that finds no execution to join is refused, replayed or run exactly as its journal says, a replay writes and uploads nothing, and what it needs of the store is what it leaves for the next request. |
| `AbrStream.WriteJournalEvents` | abr-runner/abr_handler_v2.go:455-475 | Writes exactly the stored events above the last sequence and then the terminal event, or a prefix of them when the client goes away. |
| `AbrStream.NewsIsConsecutive` | abr-runner/abr_handler_v2.go:455-475 | One read sends consecutive numbers, from right after the last one or the oldest stored one up to the newest, terminal last. |
| `AbrStream.StreamIsOrdered` | abr-runner/abr_handler_v2.go:366-406 | At whatever moments of whatever history of checkpoint writes the handler reads: sequence numbers strictly increase, the terminal event comes at most once and last, and a read of an open journal catches up with it. |
| `AbrStream.StreamIsGapFreeIff` | abr-runner/abr_handler_v2.go:366-406 | Such a stream is exactly 1, 2, 3, ... without gaps if and only if no read comes more than 256 progress events after the one before it. |
| `AbrCoordinator.StepKeepsInv` | abr-runner/abr_handler_v2.go:94-246 | Every atomic step keeps the coordinator invariant. |
| `AbrCoordinator.RunsAreExclusiveAndBounded` | abr-runner/abr_handler_v2.go:94-146 | In every reachable state: at most one live run per workload, at most the limit of runs, count and leases equal to the active entries, and an uncancelled run has a subscriber. |
| `AbrCoordinator.SendsAndClosesHitOpenChannels` | abr-runner/abr_handler_v2.go:222-246 | Every channel a notification or a close reaches is still open. |
| `AbrCoordinator.StaleDetachIsHarmless` | abr-runner/abr_handler_v2.go:148-159 | Detaching from a finished run never touches or cancels a newer run of the same workload. |
| `AbrCoordinator.NoTerminalIsLost` | abr-runner/abr_handler_v2.go:222-246 | Until a listening handler has written the durable terminal event there is a token, a closed channel, a received signal, or its own run still owes a notification or a close. |
| `AbrCoordinator.OwedStepsDeliver` | abr-runner/abr_handler_v2.go:366-406 | The steps still owed suffice to write the terminal event, exactly once. |
| `AbrCoordinator.TerminalAtMostOnce` | abr-runner/abr_handler_v2.go:366-406 | A subscription writes at most one terminal event, and only a durable one. |
| `AbrCoordinator.ExecutionsMatchTheirJournal` | abr-runner/abr_handler_v2.go:98-136 | As long as no journal changes its request, the check for an execution of another request never fires. |
| `AbrServing.ServedIffNotDoomed` | abr-runner/abr_handler_v2.go:161-246 | The same at any later moment, for every reachable state and listener: served whatever happens, if and only if its run is not doomed. |
| `AbrServing.AttachedIsServedIff` | abr-runner/abr_handler_v2.go:109-145 | An attached request that does not give up, on a run whose outcome gets stored if it is written, is told the outcome in every continuation in which its handler ends, if and only if the run it attached to was neither cancelled and still executing nor already finishing. |
| `AbrServing.OutcomeIsPossible` | abr-runner/abr_handler_v2.go:161-188 | A listener whose run is not doomed can be told the outcome: some continuation writes the terminal event to it. |
| `AbrServing.LateSubscriberMayGetNothing` | abr-runner/abr_handler_v2.go:109-145 | A concrete run in which a request attaches to an already cancelled run and, without giving up, ends without a terminal event. |
| `AbrCapacity.RefusedIffFull` | abr-runner/abr_handler_v2.go:109-122 | In every reachable state a request with its own open journal is refused for capacity if and only if its workload has no run and the unfinished runs have reached the limit or the gate is full. |
| `AbrCapacity.RoomStartsOneRun` | abr-runner/abr_handler_v2.go:109-145 | With fewer unfinished runs than the limit and a free gate it is attached and exactly one run is added. |
| `AbrCapacity.RunningIsJoined` | abr-runner/abr_handler_v2.go:109-145 | With a run of the same request it joins that run, however full the runner is. |
| `AbrCapacity.ProgressIsSignalled` | abr-runner/abr_handler_v2.go:222-231 | A reported progress leaves a signal for every listener of that run. |
| `AbrCancellation.CancelledIffAbandoned` | abr-runner/abr_handler_v2.go:148-159 | Over every sequence of steps a run is cancelled if and only if at some step its last listener left it. |
| `AbrRegistry.ExecutionCoordinator.Subscribe` | abr-runner/abr_handler_v2.go:94-146 | The critical section is the subscribe step, and each answer, a failed load, a changed identity, a terminal journal, no capacity, a faulty lease, a mismatching execution and an attached request, comes exactly under its own condition on the registry; without an attachment nothing changes. |
| `AbrRegistry.ExecutionCoordinator.Detach` | abr-runner/abr_handler_v2.go:148-159 | The critical section is the detach step. |
| `AbrRegistry.ExecutionCoordinator.Notify` | abr-runner/abr_handler_v2.go:222-231 | The loop over the subscribers leaves one token in every registered channel and nothing elsewhere. |
| `AbrRegistry.ExecutionCoordinator.Finish` | abr-runner/abr_handler_v2.go:233-246 | Removes the entry, gives back count and lease, and closes every registered channel. |
| `AbrRegistry.NotifierIsActive` | abr-runner/abr_handler_v2.go:222-231 | A goroutine that still notifies or finishes always finds its own active entry. |
| `GpuAdmission.CohortsNeverOverlap` | transcode-core/gpu_admission.go:69-121 | For any interleaving of lock operations by any number of processes that may die anywhere, a live and a batch lease are never held together. |
| `GpuAdmission.RefusedIffOpposingLease` | transcode-core/gpu_admission.go:95-106 | An attempt is refused if and only if an opposing lease is held at its probe. |
| `GpuAdmission.OwnShareNeverFails` | transcode-core/gpu_admission.go:108-118 | After a successful probe the own shared lock is always granted. |
| `GpuAdmission.RefusalsComeFromProbes` | transcode-core/gpu_admission.go:69-121 | Every refusal ever returned goes back to an opposing lease held at that attempt's probe. |
| `GpuAdmission.NoLeaseNoRefusal` | transcode-core/gpu_admission.go:23-27 | Crashed processes strand no capacity: with no lease left the probe succeeds. |
| `GpuAdmission.CloseIsOneShot` | transcode-core/gpu_admission.go:141-157 | Closing twice equals closing once, and closing what was never granted changes nothing. |
| `GpuGate.LockFiles.Acquire` | transcode-core/gpu_admission.go:69-121 | Every path gives the mutex back and leaves the opposing file as it was; a share is held exactly when granted; capacity exactly when an opposing share is held. |
| `GpuGate.LockFiles.AcquireIn` | transcode-core/gpu_admission.go:69-121 | In any sound world of many processes, Acquire is those lock operations one after the other: same files after it, same answer, and its preconditions follow from the world. |
| `GpuGate.AcquireAnswers` | transcode-core/gpu_admission.go:69-121 | In any run of the protocol, the lock operations of one Acquire end in a refusal exactly when an opposing lease is held, and in a lease exactly when none is and both files open. |
| `GpuGate.Lease.Close` | transcode-core/gpu_admission.go:141-157 | The lock is released on the first close only. |
| `Playlist.ExactIffItFits` | live-runner/metering.go:98-122 | For every plain decimal the parsed duration is the denoted one if and only if that is positive and fits 64 bits. |
| `Playlist.ShortDurationsAreExact` | live-runner/metering.go:98-122 | Every duration of at most 18446744073708 whole seconds is exact. |
| `Playlist.LongDurationsWrap` | live-runner/metering.go:106-117 | Every whole number of seconds from 18446744073710 up to the 58-bit limit is parsed as something else or refused; the first one as 448384 microseconds. |
| `Playlist.PrintRoundTrip` | live-runner/metering.go:98-122 | Printing any positive 64-bit microsecond count with six digits and parsing it gives it back. |
| `Playlist.ParseFinalizedHLSSegments` | live-runner/metering.go:27-96 | The line loop with its pending duration and seen map equals the specified scan, failures included. |
| `Playlist.DeduplicationIsExact` | live-runner/metering.go:74-82 | Deduplication is defined exactly when no URI has two durations, and then keeps every segment once, URIs distinct. |
| `Playlist.PlaylistRoundTrip` | live-runner/metering.go:27-96 | EXTINF/URI pairs with any other tag lines around and between parse back to the list without repeats, and fail only when one URI has two durations. |
| `HlsAttributes.ParseAttributes` | live-runner/hls_master.go:109-127 | The scan with its start index and quote flag equals cutting at unquoted commas and collecting the pieces. |
| `HlsAttributes.AttributesRoundTrip` | live-runner/hls_master.go:109-127 | Joining well-formed attributes with distinct keys and parsing the text gives exactly their map. |
| `HlsAttributes.AcceptedTextRejoins` | live-runner/hls_master.go:109-127 | Every accepted text is the comma-join of the attributes it yields, so the accepted language is exactly those joins. |
| `HlsAttributes.PlainAttributeIsWellFormed` | live-runner/hls_master.go:109-127 | Keys free of "=", "," and quotes with values whose commas are all quoted are well formed. |

## Left out

- AES-GCM sealing, the integrity MAC, key derivation and JSON encoding: secrets are one optional value, and a stored file decodes to what was written.
- RFC 3339 text and time zones: times are integers; a stored time that does not parse is not modelled, except for a key expiry.
- File-system behaviour beyond the three save outcomes, in particular a rename that a power loss undoes because the directory was not synced; the "created" answer of reconcile does not sync again.
- URL, query and redirect handling, cookies, CORS, the HLS proxy and the HTTP handlers: abstract predicates or inputs.
- MediaMTX, ffmpeg and ffprobe processes, file hashing and uploads: their outcomes are inputs; `Execute` takes them from a `World`.
- `poll` and the restart loop of the live runtime as loops: every store call they make is an action, and the results hold for any order of them.
- The event-stream bytes and the work-units trailer: `AbrStream` works on the events themselves.
- The playlist's byte limit and line splitting: the parser takes the scanner's lines and whether the scanner failed.
- Unicode case mapping, except for the letters whose lower case is ASCII.
- transcode-runner/vod_v2.go: a single-rendition copy of the ABR journal.
- Presets, bitrates, codec strings, encoder arguments, metrics and configuration: tables without a property to prove.
- LiveRecovery.RecoverLiveSessions: only launched sessions act on the store meanwhile, because the callback worker and the server start after recovery (live-runner/app.go:285-310).
- CallbackDispatcher.DeliverNext: other callers may do anything but settle callbacks or clear secrets meanwhile, because there is one callback worker; what a second one could do is covered by `CallbackRuns.StaleSettlementHitsItsOwnEvent`.
- Which local file goes to which upload URL: an upload is known by its rendition and by whether it is the playlist or the stream.
- AbrExecutor.Execute: asks that the sequence numbers its progress reports need still fit 64 bits, because the source increments them unchecked.
- AbrCoordinator.NoTerminalIsLost: safety only; that goroutines, timers and handlers are eventually scheduled is not modelled.
- GpuGate.LockFiles.Acquire: starts when the blocking mutex lock is granted, and runs without a lease being closed or a process dying in between; the interleaved protocol is `GpuAdmission`.
