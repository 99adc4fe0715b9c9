# Verified model of the Material Agent control plane

The repository is a fail-closed control plane for materials discovery: a gateway that runs literature
companions behind one-time operator grants, a DFT job stage that survives lost responses and crashes, a
bounded document fetcher, and an evidence pipeline whose stages cross-check one another. This project
models that logic in Dafny 4.11 and proves what it is for. `dafny verify dfyconfig.toml` checks all of it.

## How it is organised

- **Gateway run protocol.** `GatewayModels` holds the values and the check of companion replies;
  `GatewayRepository` proves the locked dictionaries and the SQLite tables against one specification and
  runs both on every sequence of calls; `Authorization` does the same for the grant store. `GatewayProtocol`
  is the concurrent system: callers that may die between any two atomic steps, an operator who issues and
  recovers grants, and theorems over every run of it. `GatewayService` ties the four tools to those steps,
  and `GatewayOffline` composes the protocol with the offline companion.
- **DFT job lifecycle.** `DftSubmission` is idempotent submission through a lossy bridge, by any number of
  interleaved starts that may die between any two of their steps; `DftLedger` is the append-only status
  ledger with any number of interleaved reconcilers and arbitrary observations; `DftOverlaps` takes each
  write apart into its test and its replacement: it says exactly when an existing artifact can change,
  proves ledgers sound in every run without overlaps, and lists overlaps that break them; `DftRunner` gives
  `start` and `reconcile` as methods that take those steps; `DftMock` is the mock backend, its crash
  refinement, and what becomes of a cancel. `Workflows` is the layered topological sort of task templates.
- **Document fetching.** `Fetch` is the retry and redirect loop; the network is an arbitrary parameter.
- **Evidence pipeline.** `EvidenceCards`, `BridgePackets`, `FeedbackLineage` and `FeedbackReview` over
  `EvidenceModels` and `Normalizing`: exactly when the outputs of one stage satisfy every check of the next;
  `PipelineLimits` holds the runs on which they do not. `RecordLinks` and `FeedbackCounts` say what the
  checks, packets and rows mean in terms of the run's own records, without lookups.
- **Kernels.** `Identity` (candidate merge), `PassageWindows` and `PassageSelection`, `HtmlFrames`,
  `InvertedAbstracts`, `Texts` and `CodeSpans` (report code spans against section 6.1 of CommonMark
  0.31.2), `AttemptLedger`; `Ordering` is Python's string order.

Methods carry the loops and the state of the source and are proved against specification functions;
lemmas state the properties of those functions over every input or every run. SHA-256 over canonical
JSON is modelled by free constructors or injective parameters, so equal digests mean equal payloads.
Times, scores and delays are reals. What a companion, backend, resolver or network answers is a parameter.

## Where the code and its promises differ

- `recover_consumed_grant` compares a new reference with the current one and with earlier recoveries
  only, so the original reference can come back once: `Authorization.RecoveryTakes` gives the exact case
  and `Authorization.OriginalComesBack` such a history.
- A caller that dies before its first commit strands the run, unless another caller holds its record:
  `GatewayProtocol.RunningChangesIffHeld`, and `GatewayProtocol.CrashBeforeFirstCommitStrands` for a run.
- Immutable artifacts are tested for and replaced in two steps without a lock, so two writers can change
  one: `DftOverlaps.ChangesIffOverlap` says exactly when, `DftOverlaps.SnapshotOverlapBreaksLedger` which
  overlapping snapshots can break a ledger, and `DftOverlaps.StalledWriterBreaksTheLedger` is a run of two
  reconcilers that ends with a terminal record its own ledger contradicts. Operation records are not
  affected: `DftSubmission.OperationsAreWriteOnce`.
- `cancel` is not recorded durably, and rebuilds a lost job as CREATED whatever the ledger says:
  `DftMock.LedgerRecordsCancelIff` is the exact condition for CANCELLED to be recorded;
  `DftMock.ForgottenCancel` and `DftMock.CancelAfterTheEnd` are runs in which a confirmed cancel is not.
- A waiting status without an external name makes the call fail although its snapshot stays recorded:
  `DftRunner.DFTStageRunner.Reconcile` says exactly when the call waits, ends or fails.
- The fetch loop can end without its ledger after an open: `Fetch.LedgerIsComplete` says exactly when.
  `Fetch.CrashesLoseTheLedger` has a call for each of a `Location` that cannot be joined, a redirect target
  that cannot be recorded (not HTTPS, or with a bad port), a `Retry-After` that passes `isdigit` but is no
  number, and an unexpected exception of the transport at the open or in the body;
  `Fetch.ChangingResolverLosesTheLedger` and `Fetch.RedirectCheckLosesTheLedger` have one for a resolver that
  changes its answer and for one that raises something unexpected.
- The bridge row validator of the feedback review can reject cards with several passages; the exact
  condition is `FeedbackLineage.CountsAgreeIff`, pipeline cards always meet it, and
  `PipelineLimits.TracedElsewhere` is a card that passes every earlier check and does not.
- A bridge row holds at most 32 observed tags and 256 cards, and nothing before the review limits them:
  `FeedbackReview.PipelineRowsValidIff`, and `PipelineLimits.RowCannotHoldTags` for three cards with too many tags.
- A packet for a supported rule can still be refused for its size limits, its source-tag kinds or an
  unknown query tag: `BridgePackets.PacketAcceptedIff` is the exact condition, and
  `PipelineLimits.SourceTagRefusesPacket` a packet refused.

## Model

| member | source | states |
|---|---|---|
| GatewayModels.SettledIsSafe | src/material_agent/gateway/service.py:260-341 | whatever a companion call gives back, the transition the service commits binds its result to the run, its URI and both digests, keeps it within top-k and every budget, and never repeats the interaction just answered |
| GatewayModels.AcceptableIsCommitted | src/material_agent/gateway/service.py:110-341 | a reply is committed unchanged exactly when it is acceptable: a result under its own digest, run, URI and within every budget line for the two terminal states, no result for any other state, and a fresh interaction; every other reply becomes the failure of its kind |
| GatewayRepository.ReplaceKeepsValid | src/material_agent/gateway/memory.py:45-86 | every replacement, stored or refused, leaves runs under their own derived ID and each stored result bound by the state of its run |
| GatewayRepository.ReplacesIff | src/material_agent/gateway/memory.py:45-86 | a replacement is stored exactly when run, request and revision match, its result is the one its state names, and no other result is stored |
| GatewayRepository.ResultsAreImmutable | src/material_agent/gateway/memory.py:79-86 | no replacement changes or detaches a stored result |
| GatewayRepository.InMemoryGatewayRepository.CreateOrGetRun | src/material_agent/gateway/memory.py:26-39 | the dictionaries under the lock implement create-or-get of the specification, through the submission index |
| GatewayRepository.InMemoryGatewayRepository.Replace | src/material_agent/gateway/memory.py:45-86 | a replacement is stored exactly when the revision, request and result conditions of the specification hold, and the new contents are the specified ones |
| GatewayRepository.InMemoryGatewayRepository.FetchResult | src/material_agent/gateway/memory.py:88-103 | returns the stored result or nothing; its integrity error is unreachable |
| GatewayRepository.SqliteGatewayRepository.CreateOrGetRun | src/material_agent/gateway/persistence.py:204-235 | the OR-query finds at most one row, and the outcome is that of the specification |
| GatewayRepository.SqliteGatewayRepository.Replace | src/material_agent/gateway/persistence.py:161-171 | the transaction that updates first and may roll back leaves exactly the specified contents |
| GatewayRepository.SqliteGatewayRepository.ReplaceInTransaction | src/material_agent/gateway/persistence.py:245-327 | the body of the transaction succeeds exactly when the specification lets the replacement through |
| GatewayRepository.SqliteGatewayRepository.Get | src/material_agent/gateway/persistence.py:237-243 | a stored row always decodes, to the specified record |
| GatewayRepository.SqliteGatewayRepository.FetchResult | src/material_agent/gateway/persistence.py:329-369 | the join and the digest checks always succeed for a stored result |
| GatewayRepository.StepsAreSound | src/material_agent/gateway/persistence.py:186-202 | no sequence of calls ever meets an integrity error |
| GatewayRepository.RunOnBoth | src/material_agent/gateway/memory.py:17-103 | for every sequence of calls the dictionaries and the tables give the same outcomes and the same contents |
| Authorization.IssueAccounts | src/material_agent/gateway/authorization.py:325-372 | issuing keeps the ledger valid and changes no binding's use count |
| Authorization.RecoverAccounts | src/material_agent/gateway/authorization.py:404-473 | recovering trades the consumed bit for one more, fresh recovery reference: the use count stays and references stay distinct |
| Authorization.AuthorizeAccounts | src/material_agent/gateway/authorization.py:502-534 | a successful authorization uses its binding exactly once and no other binding |
| Authorization.RecoveryTakes | src/material_agent/gateway/authorization.py:422-463 | exactly which references a recovery accepts; the original one exactly when an earlier recovery replaced it and none has brought it back |
| Authorization.OriginalComesBack | src/material_agent/gateway/authorization.py:426-430 | issued, recovered under a second reference and consumed again, a grant is recovered under its original reference; an immediate repetition of either reference is refused |
| Authorization.AuthorizesIff | src/material_agent/gateway/authorization.py:484-534 | an action is authorized exactly when it answers its interaction and has an unused grant, which it uses up |
| Authorization.IssueReplays | src/material_agent/gateway/authorization.py:315-372 | repeating an issue is harmless until the grant is used; another reference, a used grant and a recovered grant cannot be issued |
| Authorization.ReferenceFormat | src/material_agent/gateway/authorization.py:36-46 | a confirmation reference is a letter or digit and 2 to 255 more characters from the listed alphabet, and nothing else |
| Authorization.SqliteOneTimeActionGrantStore.IssueGrant | src/material_agent/gateway/authorization.py:281-372 | the grant table implements the specified issue, keyed by binding; each binding keeps at most one row |
| Authorization.SqliteOneTimeActionGrantStore.RecoverConsumedGrant | src/material_agent/gateway/authorization.py:374-482 | the two tables implement the specified recovery, with the unique constraint on used references |
| Authorization.SqliteOneTimeActionGrantStore.AuthorizeAndConsume | src/material_agent/gateway/authorization.py:484-540 | the conditional update implements the specified authorization |
| Authorization.AbstractPut | src/material_agent/gateway/authorization.py:212-241 | writing one grant row, with any recoveries of that grant, changes exactly one entry of the ledger |
| Authorization.GrantRecord | src/material_agent/gateway/authorization.py:573-610 | the operator's issuer takes exactly the approve action of a record that waits for the freeze of the expected manifest, issues or recovers that one binding, and leaves the store alone otherwise |
| Authorization.GrantAuthorizesOnce | src/material_agent/gateway/authorization.py:573-610 | an accepted grant or recovery authorizes the granted action once and not twice |
| GatewayProtocol.EveryRunIsSafe | src/material_agent/gateway/service.py:81-205 | every interleaving of submissions, starts, reads, consumptions, actions, commits, grants, recoveries and crashes keeps all four invariants of the protocol |
| GatewayProtocol.GrantConservation | src/material_agent/gateway/service.py:167-204 | a binding's authorizations equal its recoveries plus its consumed bit, companion actions never exceed authorizations nor one plus the recoveries, and recovery references are pairwise distinct |
| GatewayProtocol.OneCommitPerRevision | src/material_agent/gateway/service.py:343-358 | the commits of a run are exactly its revisions 1, 2, up to the current one, in order |
| GatewayProtocol.AtMostOneCommit | src/material_agent/gateway/persistence.py:286-301 | at most one commit succeeds per run and revision |
| GatewayProtocol.StartedAtMostOnce | src/material_agent/gateway/service.py:110-136 | the companion's start is called at most once per submission |
| GatewayProtocol.RequestsAreImmutable | src/material_agent/gateway/persistence.py:266-270 | the request never changes and the revision never falls, nor rises by more than one per step |
| GatewayProtocol.ResultsAreBound | src/material_agent/gateway/persistence.py:271-285 | a result is stored exactly for succeeded and partial runs, and matches run, URI and both digests |
| GatewayProtocol.TerminalForever | src/material_agent/gateway/service.py:343-358 | a terminal run and its result are the same after any further steps |
| GatewayProtocol.SettledForever | src/material_agent/gateway/service.py:156-205 | a run that waits for no interaction and whose current record no caller holds never changes again |
| GatewayProtocol.CommitFailsOnlyOnRace | src/material_agent/gateway/persistence.py:256-325 | a caller's commit is refused if and only if the run moved on since the caller read it |
| GatewayProtocol.CrashBeforeFirstCommitStrands | src/material_agent/gateway/service.py:110-136 | a submitter that dies at once leaves the run RUNNING at revision 0 under every continuation |
| GatewayProtocol.RunningChangesIffHeld | src/material_agent/gateway/service.py:110-136 | in every reachable state a RUNNING record can still change in some continuation if and only if some caller holds it |
| GatewayProtocol.CommitKeepsRuns | src/material_agent/gateway/service.py:343-358 | a commit keeps every other caller's snapshot either current or outdated, and results matched to states |
| GatewayProtocol.ActStep | src/material_agent/gateway/service.py:167-190 | a companion action needs a caller that holds an authorization, and uses it up |
| GatewayProtocol.StartStep | src/material_agent/gateway/service.py:110-119 | only an accepted submission adds a caller that may start, and a start uses one up |
| GatewayService.MaterialsGatewayService.MaterialsInspirationRun | src/material_agent/gateway/service.py:81-136 | one undisturbed submission is the protocol's own steps: a new run is stored at revision 1 in the state and with the result its reply was settled to, and nothing else changes; an old one is returned, or is a conflict exactly when its request differs |
| GatewayService.MaterialsGatewayService.MaterialsRunAct | src/material_agent/gateway/service.py:144-205 | one undisturbed action is the protocol's own steps: which of the four errors it meets, or that it succeeds; then its grant is used up and the run moves one revision on to what its reply was settled to, and a refused one changes neither store |
| GatewayService.MaterialsGatewayService.MaterialsResultGet | src/material_agent/gateway/service.py:207-252 | the stored result comes back exactly with artifact bytes of its authoritative digest within the size limit; the run and result cross-checks never fail |
| GatewayService.MaterialsGatewayService.MaterialsRunGet | src/material_agent/gateway/service.py:138-142 | the status view is that of the stored run, and is read only |
| GatewayService.SettledCommits | src/material_agent/gateway/service.py:343-358 | a transition settled against the record just read can always be stored, and binds its result |
| GatewayService.RecoveredGrantActs | src/material_agent/gateway/service.py:167-205 | in any sound state a grant whose caller died after consuming it can be recovered, after which any caller can act on it and the run moves on by the companion's reply |
| GatewayOffline.ExecutionBindsStage | src/material_agent/gateway/companion.py:341-441 | a result that comes out of an execution is the runner's own: run, project, request, outcome, candidates and report agree |
| GatewayOffline.ApprovalExecutes | src/material_agent/gateway/companion.py:300-441 | an approved action calls the runner exactly when the inputs prepared now are the approved ones, and the reply is the projected result, a success without and partial with warnings, exactly when stage and projection fit; an exception is raised exactly where a collaborator raised |
| GatewayOffline.OtherActions | src/material_agent/gateway/companion.py:284-339 | resuming and retrying execute on what is prepared now; every other pair of interaction and action is refused |
| GatewayOffline.ForeignRunsRefused | src/material_agent/gateway/companion.py:253-294 | under another run ID than the submission's, or without a pending interaction, start and act are refused |
| GatewayOffline.RefusalCancels | src/material_agent/gateway/companion.py:284-320 | cancelling any interaction and rejecting an approval cancel the run without calling the runner |
| GatewayOffline.StartAsksForApproval | src/material_agent/gateway/companion.py:253-282 | a start asks for the approval of exactly the inputs it prepared, whenever it could prepare them |
| GatewayOffline.ApprovedRunSucceeds | src/material_agent/gateway/companion.py:253-441 | for every request, inputs and fitting result within the limits: submitted, prepared, granted and approved, the run succeeds at revision 2 with that result after exactly one runner call |
| GatewayOffline.OfflineRunsHaveThreeStages | src/material_agent/gateway/companion.py:253-339 | every reachable run is RUNNING at revision 0, then waits for its requirement freeze or has FAILED at 1, then is terminal at 2; resume, retry and clarification never appear |
| GatewayOffline.RunnerRunsWhatWasApproved | src/material_agent/gateway/companion.py:348-367 | every runner call is on inputs whose manifest hash equals the one in the approved interaction, after at least one authorization of exactly that approval |
| GatewayOffline.RunnerRunsAreBounded | src/material_agent/gateway/companion.py:284-367 | all runner calls of a submission share one binding and number at most one plus its recoveries |
| GatewayOffline.CallMatchesApproval | src/material_agent/gateway/companion.py:300-367 | the manifest check before the runner call, traced back to the interaction the run asked for |
| GatewayOffline.HowRunsChange | src/material_agent/gateway/service.py:343-358 | a run is created as submitted, left alone, or moved by a caller that holds its current record |
| DftSubmission.FakeVASPilotBridgeTransport.IndexesAgree | src/material_agent/dft/fake_bridge.py:59-66 | the index by key and the index by ID are in one-to-one agreement |
| DftSubmission.FakeVASPilotBridgeTransport.SubmitWorkflow | src/material_agent/dft/fake_bridge.py:134-181 | an accepted submission is stored in both indexes as one object even when its response is lost |
| DftSubmission.FakeVASPilotBridgeTransport.GetById | src/material_agent/dft/fake_bridge.py:128-131 | polling by ID advances the same workflow that the key index shows |
| DftSubmission.SubmitSucceedsIff | src/material_agent/dft/vaspilot_backend.py:93-122 | the outcome of a submission under lost requests, lost responses and a lost lookup: the reference of this key and request exactly when the key is free or already this request's and an answer gets through, and which error otherwise |
| DftSubmission.SubmitKeepsBridge | src/material_agent/dft/vaspilot_backend.py:106-122 | a submission adds at most its own workflow, changes no other, and a returned reference names the workflow of this key and this request |
| DftSubmission.OwnRecordsMatch | src/material_agent/dft/vaspilot_backend.py:218-237 | of all records a bridge could answer with, the adapter accepts exactly those a workflow of this very submission could have |
| DftSubmission.BridgeLifecycle | src/material_agent/dft/fake_bridge.py:189-205 | a workflow is queued, running and succeeded at its first three polls, and an ended one stays as it is |
| DftSubmission.VASPilotBackend.SubmitJob | src/material_agent/dft/vaspilot_backend.py:93-122 | the adapter over the fake bridge is the specified submission |
| DftSubmission.ExactlyOnce | src/material_agent/dft/runner.py:217-248 | however any number of starts interleave their lookups, submissions, tests and writes, whatever is lost and whoever dies, at most one workflow is created per key, and exactly one for a recorded operation |
| DftSubmission.OneReferencePerKey | src/material_agent/dft/vaspilot_backend.py:218-237 | every reference ever returned for a key is the same and belongs to the same request |
| DftSubmission.RecordedReferenceIsTheReturnedOne | src/material_agent/dft/runner.py:223-248 | the recorded operation carries the very request and reference every successful submission of its key had |
| DftSubmission.OperationsAreWriteOnce | src/material_agent/retrieval/storage.py:49-74 | in every interleaving of starts a recorded operation never changes, although its place is tested and replaced in two steps |
| DftSubmission.WritersAgree | src/material_agent/dft/runner.py:224-247 | two callers about to write the operation of one key are about to write the same record |
| DftSubmission.UndisturbedStart | src/material_agent/dft/runner.py:217-248 | the steps of one caller in a row are the adapter's submission and at most one record, none when the operation was there |
| DftSubmission.StartRecords | src/material_agent/dft/runner.py:217-248 | a start records its workflow under the reference of its key and request whenever the key is free, or already this request's, and an answer gets through |
| DftSubmission.RunStarts | src/material_agent/dft/runner.py:217-248 | after any run, five steps of a caller that nobody disturbs are one start |
| DftSubmission.RacingStarts | src/material_agent/dft/runner.py:217-248 | two starts of one key that both look before either posts, one of them losing its response, end with one workflow, one record and one reference for both |
| DftSubmission.RemoteEnds | src/material_agent/dft/fake_bridge.py:189-205 | in any run three polls end a new workflow, and a remote cancel ends one that has not ended |
| DftLedger.LedgersAreSound | src/material_agent/dft/runner.py:274-308 | with each artifact write taken as one step, every ledger any interleaving of reconcilers can write is numbered without gaps, never falls in rank, and holds at most one terminal status |
| DftLedger.TerminalRecordIsFinal | src/material_agent/dft/runner.py:219-222 | with each artifact write taken as one step, once the terminal record exists, every later call reports the same status, number and result, which are those of the ledger and fit the recorded request and job |
| DftLedger.LedgerIsValid | src/material_agent/dft/runner.py:450-460 | the recorded statuses form one legal chain from any recorded status on |
| DftLedger.RecordedIffInLedger | src/material_agent/dft/runner.py:450-460 | a number is recorded if and only if the reader reaches it |
| DftLedger.LatestIs | src/material_agent/dft/runner.py:450-460 | a sound store has one last snapshot, the end of the ledger |
| DftLedger.TransitionIff | src/material_agent/dft/runner.py:462-492 | an observation is accepted exactly when it neither goes back a stage nor leaves the last one |
| DftLedger.StepExtends | src/material_agent/dft/runner.py:284-304 | no reconcile step whose write is one test-and-set changes or removes an artifact |
| DftOverlaps.OverlapFreeRefines | src/material_agent/retrieval/storage.py:49-74 | with test and replacement as separate steps of any number of callers, a run in which no two of them are between the two steps for one artifact with different content is a run of one-step writes |
| DftOverlaps.OverlapFreeLedgersAreSound | src/material_agent/dft/runner.py:274-308 | in every such run every ledger is gap-free, never falls in rank and holds at most one terminal status |
| DftOverlaps.OverlapFreeIsWriteOnce | src/material_agent/retrieval/storage.py:49-62 | in every such run no artifact ever changes and a terminal record is final |
| DftOverlaps.ChangesIffOverlap | src/material_agent/retrieval/storage.py:49-74 | at the end of any run without an earlier overlap, the callers between test and replacement can change an existing artifact if and only if two of them overlap with different content |
| DftOverlaps.SnapshotOverlapBreaksLedger | src/material_agent/retrieval/storage.py:49-74 | after any run without an earlier overlap, two overlapping snapshots whose statuses differ in rank or are two different ends have a continuation of five steps after which the ledger is unsound |
| DftOverlaps.StalledWriterBreaksTheLedger | src/material_agent/retrieval/storage.py:49-74 | a stalled reconciler that polled RUNNING replaces snapshot 1 after another one finished the job: the terminal record still names number 1 as SUCCEEDED |
| DftLedger.StepKeepsOk | src/material_agent/dft/runner.py:274-304 | each single poll or one-step write keeps the invariant of the store and of all reconcilers in flight, even where the terminal record appeared after it was tested for |
| DftRunner.DFTStageRunner.ReadLatest | src/material_agent/dft/runner.py:450-460 | the loop over numbered snapshots returns the last status of a legal ledger, or fails |
| DftRunner.DFTStageRunner.OutcomeFromOperation | src/material_agent/dft/runner.py:436-448 | a record with a result is reported as ended exactly when that result is stored with matching content and the status is terminal; a record without one is reported by its latest status |
| DftRunner.DFTStageRunner.Start | src/material_agent/dft/runner.py:205-250 | the backend is asked only when neither a terminal record nor an operation exists, and its answer is recorded as a new operation; otherwise the call reports the terminal record, or the last snapshot |
| DftRunner.DFTStageRunner.Reconcile | src/material_agent/dft/runner.py:252-308 | for any backend answers: without an operation of exactly this key and reference the call fails and writes nothing; a terminal record is replayed; otherwise the observation becomes the next snapshot exactly when it may follow the last one, a terminal one with a fitting result also the result and the terminal record, and the outcome is the stated one |
| DftRunner.LocalArtifactStore.WriteJson | src/material_agent/retrieval/storage.py:39-74 | one caller's write without another in between: the same content again is accepted, other content is refused, new content is stored |
| DftMock.Lifecycle | src/material_agent/dft/mock_backend.py:94-109 | the status of every scenario at every poll, in closed form |
| DftMock.MockDFTBackend.Submit | src/material_agent/dft/mock_backend.py:46-64 | idempotent in the key; another plan hash under the same key is refused |
| DftMock.MockDFTBackend.RestoreJob | src/material_agent/dft/mock_backend.py:66-92 | an existing job is kept, a lost one is rebuilt with the given polls and status |
| DftMock.MockDFTBackend.Status | src/material_agent/dft/mock_backend.py:94-109 | one poll of the job of exactly this reference |
| DftMock.MockDFTBackend.Cancel | src/material_agent/dft/mock_backend.py:111-116 | cancels an unfinished job, leaves a finished one as it ended, and refuses an unknown reference |
| DftMock.SnapshotsAreUninterrupted | src/material_agent/dft/runner.py:274-288 | for every scenario and every placement of crashes, without a cancel the k-th durable snapshot is the k-th status of an uninterrupted backend |
| DftMock.SnapshotsFollowTheMock | src/material_agent/dft/runner.py:274-288 | with cancels as well, each durable snapshot is that status or CANCELLED |
| DftMock.ReconcileAdvances | src/material_agent/dft/runner.py:274-288 | a reconcile that survives its first write adds exactly one snapshot, whatever was lost before it, and none exactly when the process holds a cancelled job and the ledger has ended otherwise |
| DftMock.ReconcileRefines | src/material_agent/dft/mock_backend.py:66-92 | restoring with as many polls as there are snapshots rebuilds the lost job exactly |
| DftMock.EndIsRecorded | src/material_agent/dft/runner.py:274-308 | after any crashes and cancels, a reconcile that is neither stuck nor cut short leaves a terminal record exactly when the status it took is terminal: that status, its number and the fetched result |
| DftMock.CancelRecorded | src/material_agent/dft/runner.py:310-326 | only a job the backend does not know is rebuilt, as CREATED after no polls from the operation record; the cancel is confirmed exactly for an unfinished job |
| DftMock.CancelLeaves | src/material_agent/dft/runner.py:310-326 | a cancel leaves the remembered job cancelled or finished as it was, a lost one rebuilt as never polled and cancelled, and writes nothing |
| DftMock.LedgerRecordsCancelIff | src/material_agent/dft/runner.py:310-332 | for every run of starts, reconciles, cancels and crashes, the ledger records CANCELLED if and only if a reconcile of the process that had a cancel confirmed writes its snapshot before that process dies and meets a ledger that has not ended |
| DftMock.CancelDoesNotSurviveACrash | src/material_agent/dft/runner.py:310-332 | a cancel whose process dies is never recorded by any continuation without another cancel |
| DftMock.ForgottenCancel | src/material_agent/dft/runner.py:310-332 | in every scenario a confirmed cancel and a crash are followed by the first status of the uninterrupted job |
| DftMock.CancelAfterTheEnd | src/material_agent/dft/runner.py:315-325 | a cancel is confirmed although the ledger has ended with TIMEOUT, and that process can record nothing any more |
| Workflows.RoundIsLongestChain | src/material_agent/dft/workflows.py:72-86 | a task is emitted in the round given by its longest dependency chain, and only there |
| Workflows.OrderAtCorrect | src/material_agent/dft/workflows.py:72-86 | the output is free of repetitions and puts every dependency first |
| Workflows.OrderAtByDepth | src/material_agent/dft/workflows.py:72-86 | tasks come out by length of their longest chain, then by key |
| Workflows.StuckIffCycle | src/material_agent/dft/workflows.py:76-80 | the sort gets stuck if and only if the dependency graph has a cycle |
| Workflows.CorrectSortIsUnique | src/material_agent/dft/workflows.py:72-86 | a graph has one correct outcome |
| Workflows.SortIgnoresTupleOrder | src/material_agent/dft/workflows.py:72-86 | the outcome does not depend on the order of the task tuple |
| Workflows.TopologicalTaskKeys | src/material_agent/dft/workflows.py:72-86 | the loop over the shrinking dictionary terminates with the correct outcome: the ordered permutation, or the cycle error |
| Workflows.GraphGuard | src/material_agent/dft/workflows.py:57-70 | a template is accepted if and only if its keys are unique, its references are closed and its graph has no cycle |
| Fetch.FetchIsBounded | src/material_agent/inspiration/fetch.py:464-587 | for any network and however the call ends: physical opens within the allowance and within 1 + redirects + retries, at most the last one unrecorded, waiting within the limit, every open just after a passed check of its own URL, and every redirect followed to a URL no earlier open requested |
| Fetch.LedgerIsComplete | src/material_agent/inspiration/fetch.py:464-711 | every typed end carries one consecutively numbered record per open, each for the URL the one before led to; an untyped end happens exactly when the first check or some loop head meets an unexpected exception or one of the crashing replies, a bare refusal after an open exactly when the check at a later loop head fails, which needs a resolver that changed its answer |
| Fetch.TurnLosesLedgerIff | src/material_agent/inspiration/fetch.py:464-711 | a turn ends untyped exactly when both budgets are left and the check raises something unexpected, or passes and the open crashes, or answers with a redirect that cannot be joined, recorded or checked, with a transient status that may be retried and an unreadable Retry-After, or with an accepted body that crashes while being read |
| Fetch.TurnMeans | src/material_agent/inspiration/fetch.py:480-711 | once a URL was opened, the call goes round again exactly for a redirect to follow or a fault to retry and ends with a document exactly when the reply delivers one; each leaves exactly its record, delay and charge |
| Fetch.OtherRepliesFail | src/material_agent/inspiration/fetch.py:530-711 | every other recorded reply ends the call with the error, status and bytes of its objection |
| Fetch.BudgetsEnd | src/material_agent/inspiration/fetch.py:464-478 | with a budget used up the call ends at the head of the loop and opens nothing more |
| Fetch.CrashesLoseTheLedger | src/material_agent/inspiration/fetch.py:484-653 | a call for each of the five crashing replies ends untyped after one open that no record names |
| Fetch.ChangingResolverLosesTheLedger | src/material_agent/inspiration/fetch.py:480 | a call whose third check complains ends after one open without its record, typed or not as the check does |
| Fetch.RedirectCheckLosesTheLedger | src/material_agent/inspiration/fetch.py:571-587 | a redirect whose target makes the resolver raise something unexpected ends the call untyped, its record lost |
| Fetch.RedirectedDocument | src/material_agent/inspiration/fetch.py:571-699 | a document reached by a redirect is reported under the URL it came from |
| Fetch.ReadCrashesIff | src/material_agent/inspiration/fetch.py:1032-1087 | reading a body crashes exactly when a read does, after chunks that are non-empty, no larger than asked for, and within the cap |
| Fetch.BytesAreBounded | src/material_agent/inspiration/fetch.py:617-716 | a success stays within the byte allowance and the per-response limit; a failure exceeds the allowance by at most one byte unless the transport itself reports bytes |
| Fetch.FetchDocument | src/material_agent/inspiration/fetch.py:421-716 | the loop terminates with the specified outcome, a document being reported under the URL the recorded redirects led to; at every head the remaining budget is the allowance less the recorded bytes, and the time slept is the sum of the recorded delays |
| Fetch.TakeTurn | src/material_agent/inspiration/fetch.py:480-716 | one turn of the loop with the body read chunk by chunk |
| Fetch.TurnDecreases | src/material_agent/inspiration/fetch.py:464-653 | every turn that goes round again has used up a redirect or a retry |
| Fetch.TurnKeeps | src/material_agent/inspiration/fetch.py:464-716 | one turn keeps or hands over every bound and the ledger |
| Fetch.TurnDelivers | src/material_agent/inspiration/fetch.py:590-653 | a fetched document is the whole body of the last, 2xx reply, reported under the URL that was opened, and no PDF |
| Fetch.RetryDelayIsSafe | src/material_agent/inspiration/fetch.py:754-778 | only transient errors within all limits are retried, with a delay within the per-retry and total limits, taken from Retry-After when that is a number |
| Fetch.RetriedIff | src/material_agent/inspiration/fetch.py:754-778 | a retry happens exactly for a transient error within every limit, after what the server asks for or the doubling back-off, cut to the limit |
| Fetch.ReadFromIs | src/material_agent/inspiration/fetch.py:1032-1087 | a body is all the chunks up to the empty one and fits the cap; an error charges at most one byte more than the cap beyond what the error itself reports |
| Fetch.ReadStops | src/material_agent/inspiration/fetch.py:1032-1087 | reading goes on as long as reads give pieces, and the first other read decides the body or the error |
| Fetch.PdfIff | src/material_agent/inspiration/fetch.py:1321-1322 | a payload counts as PDF exactly when white space and then the magic bytes, in either case, begin it |
| Fetch.ReadBounded | src/material_agent/inspiration/fetch.py:1032-1087 | the chunk loop terminates with the specified result, never with more than the cap |
| Fetch.MovesAreDistinct | src/material_agent/inspiration/fetch.py:571-588 | two followed redirects never led to the same URL |
| Normalizing.NormalizedUnique | src/material_agent/inspiration/feedback.py:824-839 | a normalized list is determined by its members |
| Normalizing.Normalize | src/material_agent/inspiration/feedback.py:824-923 | succeeds exactly when no identifier has two definitions, and returns each record once in key order |
| Normalizing.NormalizeTwice | src/material_agent/inspiration/feedback.py:824-923 | reordering or repeating the records changes neither acceptance nor result |
| EvidenceCards.BuildEvidenceCards | src/material_agent/inspiration/evidence.py:37-155 | succeeds exactly when every passage closes over the run; cards come in passage order and the per-rule lists are those of the cards found for the rule |
| EvidenceCards.CardsMembers | src/material_agent/inspiration/evidence.py:55-140 | the cards are one per passage with a mechanism tag, and nothing else |
| EvidenceCards.CardsAreUnique | src/material_agent/inspiration/evidence.py:122-130 | distinct passages get distinct cards |
| EvidenceCards.CardIsGrounded | src/material_agent/inspiration/evidence.py:99-120 | a SUPPORT card rests on a bridge and no counter query of its hit, a COUNTER card the other way round, a CONTEXT card on neither |
| EvidenceCards.CardTags | src/material_agent/inspiration/evidence.py:83-97 | the tags of a card are exactly the matched mechanism tags of its passage |
| EvidenceCards.PassageAcceptedIff | src/material_agent/inspiration/evidence.py:55-120 | a passage is accepted exactly when its hit, document, queries, tags and rule are records of the run, at most one rule led to the hit, and a card for it has at most sixteen tags and no mixed queries |
| EvidenceCards.RuleCard | src/material_agent/inspiration/evidence.py:99-140 | a card led to by a rule is counterevidence under its breaking conditions if a counter query found the hit, and support under its required conditions if none did |
| EvidenceCards.ContextCard | src/material_agent/inspiration/evidence.py:99-140 | a card no rule led to is context and says that nothing was transferred |
| EvidenceModels.UniqueIndex | src/material_agent/inspiration/evidence.py:158-165 | the index exists exactly when identifiers are unique, and finds each item under its own |
| BridgePackets.BuildBridges | src/material_agent/inspiration/bridge.py:33-139 | succeeds exactly when all references close, no card spans rules and every wanted packet passes its check; every rule becomes a packet or is reported as skipped |
| BridgePackets.PacketsMembers | src/material_agent/inspiration/bridge.py:85-139 | a packet is built exactly for the rules whose SUPPORT cards cover the required tags and that were queried |
| BridgePackets.SkipsMembers | src/material_agent/inspiration/bridge.py:85-139 | every rule becomes a packet or is reported as skipped, never both |
| BridgePackets.EvidenceNeverSpans | src/material_agent/inspiration/bridge.py:60-83 | cards of the evidence stage never span rules, so the builder's input checks pass if and only if every query names a known rule |
| BridgePackets.SupportedIsQueried | src/material_agent/inspiration/bridge.py:96-112 | for evidence-stage cards a supported rule always has an executed query: the second skip is unreachable |
| BridgePackets.PacketAcceptedIff | src/material_agent/inspiration/validation.py:89-257 | a packet of the pipeline passes the full closure check exactly when it fits its two size limits, its source tags are analogy domains and the queries behind its cards carry known tags |
| BridgePackets.PipelineCloses | src/material_agent/inspiration/bridge.py:33-139 | fed with the evidence stage's cards the builder fails only for those reasons, and builds a packet exactly for the supported rules |
| RecordLinks.CardLinks | src/material_agent/inspiration/bridge.py:60-83 | a card is closed when all its passages are known, and belongs to exactly the rules that queries behind it were issued for |
| RecordLinks.BridgeInputsIff | src/material_agent/inspiration/bridge.py:33-83 | the builder takes exactly inputs whose cards are known and span no rules and whose queries name known rules |
| RecordLinks.PacketMeans | src/material_agent/inspiration/bridge.py:85-139 | a rule gets a packet exactly when SUPPORT cards it led to carry all required tags and it was queried; the packet lists those cards and query texts in order |
| RecordLinks.SkipMeans | src/material_agent/inspiration/bridge.py:96-112 | a skipped rule is reported with exactly the required tags no SUPPORT card carries, or as not queried when none is missing |
| RecordLinks.PacketValidIff | src/material_agent/inspiration/validation.py:89-257 | the closure check accepts a packet, built by anyone over any run, exactly when rule, tags, cards, passages, hits and queries all close and a bridge query is behind a SUPPORT card |
| RecordLinks.LinksIff | src/material_agent/inspiration/feedback.py:450-616 | the checks of the review before its rows accept exactly inputs whose records all link up |
| FeedbackLineage.CountsAgreeIff | src/material_agent/inspiration/feedback.py:246-251 | a bridge row's lineage counts equal its identifier lists exactly when every card of the rule is traced, through its least passage, to a query of that rule |
| FeedbackLineage.EvidenceCountsAgree | src/material_agent/inspiration/feedback.py:562-569 | the lineage count of cards never exceeds the list, and equals it exactly in that case |
| FeedbackLineage.PacketCountsAgree | src/material_agent/inspiration/feedback.py:618-625 | a packet is counted for its own rule and for no other |
| FeedbackLineage.PipelineIsTraced | src/material_agent/inspiration/feedback.py:537-569 | pipeline cards pass the evidence checks and are always traced to their rules |
| FeedbackLineage.TouchedBounds | src/material_agent/inspiration/feedback.py:627-688 | an inclusive count is at least that of each query and at most their sum |
| FeedbackReview.PipelineRowsValidIff | src/material_agent/inspiration/feedback.py:181-252 | cards and packets of the pipeline pass every card and packet check, and a bridge row passes exactly when the rule's SUPPORT cards carry at most 32 tags and its cards are at most 256 |
| PipelineLimits.RowCannotHoldTags | src/material_agent/inspiration/feedback.py:193-195 | three SUPPORT cards with sixteen tags each: evidence and bridge stage succeed, all links of the review close, and the review is refused |
| PipelineLimits.TracedElsewhere | src/material_agent/inspiration/feedback.py:246-251 | a card whose least passage was found by a direct query: graph, links and every check before the rows pass, but the card is listed in its rule's row and not counted there, so the row and the review are refused |
| PipelineLimits.SourceTagRefusesPacket | src/material_agent/inspiration/validation.py:89-257 | a supported rule whose source tag is no analogy domain has its packet refused |
| FeedbackReview.BridgeRowValidIff | src/material_agent/inspiration/feedback.py:181-252 | for arbitrary accepted inputs a bridge row passes its validator exactly when every card of its rule is traced to a query of the rule and neither list is longer than the row allows |
| FeedbackCounts.MetricsCount | src/material_agent/inspiration/feedback.py:627-688 | each of the thirteen metrics counts, or adds up, exactly the attempts, hits, documents, passages, vectors, cards, packets and fetches that belong to the row's queries |
| FeedbackCounts.BridgeRowMeans | src/material_agent/inspiration/feedback.py:717-772 | a bridge row's status, required, observed and missing tags, cards, packet and query counts, in terms of the inputs |
| FeedbackCounts.QueryAndTagRowsMean | src/material_agent/inspiration/feedback.py:690-715 | a query row's and a tag row's tags, execution and query counts, in terms of the inputs |
| FeedbackCounts.AnyBridgeRowValidIff | src/material_agent/inspiration/feedback.py:208-252 | what the bridge row validator accepts of any row whatever |
| FeedbackCounts.QueryAndTagRowsValidIff | src/material_agent/inspiration/feedback.py:134-175 | what the other two row validators accept of any rows whatever |
| FeedbackCounts.ConsistentMeans | src/material_agent/inspiration/feedback.py:824-923 | inputs conflict exactly when two different records of a kind share an identifier; attempts are identified by query and number |
| FeedbackCounts.CompiledIff | src/material_agent/inspiration/feedback.py:386-815 | normalized inputs are compiled exactly when their records link up, at most 512 queries are planned, and every rule's cards are traced to its queries and fit into its row |
| FeedbackReview.QueryAndTagRowsValid | src/material_agent/inspiration/feedback.py:134-175 | query and tag rows always pass their validators |
| FeedbackReview.InclusiveBounds | src/material_agent/inspiration/feedback.py:627-715 | every one of the thirteen metrics of a row lies between the largest and the sum of its queries' metrics |
| FeedbackReview.QueryRequestsAddUp | src/material_agent/inspiration/feedback.py:690-700 | the query rows' search requests sum to the number of distinct attempts |
| FeedbackReview.BridgeRequestsAddUp | src/material_agent/inspiration/feedback.py:717-772 | the bridge rows' search requests sum to the attempts of bridge and counter queries |
| FeedbackReview.CompileReview | src/material_agent/inspiration/feedback.py:386-815 | compiles exactly the consistent inputs that close over one run, plan at most 512 queries and give bridge rows that agree and fit, into the specified rows in identifier order |
| FeedbackReview.CompileTwice | src/material_agent/inspiration/feedback.py:429-446 | the review is unchanged by reordering or repeating any of its inputs |
| FeedbackReview.TraceCards | src/material_agent/inspiration/feedback.py:537-569 | the loop that fills the lineage dictionaries accepts exactly the closed, one-rule cards and records their queries and rule |
| FeedbackReview.CollectPackets | src/material_agent/inspiration/feedback.py:571-616 | the loop over packets accepts exactly those whose evidence matches, at most one per rule, and indexes them by rule |
| Identity.Merge | src/material_agent/inspiration/identity.py:252-428 | succeeds if and only if the set of proposals is mergeable, and the result is the merge of that set: order and repetitions do not matter |
| Identity.MergeTwice | src/material_agent/inspiration/identity.py:252-428 | two lists of the same records merge to the same candidates |
| Identity.MergeIsUnique | src/material_agent/inspiration/identity.py:324-428 | the result is determined by the set of proposals |
| Identity.EveryRouteLandsOnce | src/material_agent/inspiration/identity.py:344-363 | every input route lands in exactly one candidate, the one of its structure |
| Identity.MergedLineageIsValid | src/material_agent/inspiration/models.py:831-882 | every merged candidate passes the contract's own recomputation of plan, route, parent, tag, evidence and signature lineage |
| Identity.MergedMeans | src/material_agent/inspiration/identity.py:331-426 | every field of a merged record in terms of its proposals: structure, artifact, families, routes, parents, tags, evidence and signature of all, plan, scores and next step of the first in the stated order |
| Identity.MergeableMeans | src/material_agent/inspiration/identity.py:283-372 | a merge succeeds exactly when all proposals are of the run, no route hash or plan ID is used twice, and the proposals of one structure agree and stay within 128 routes, 32 parents, 32 tags and 64 cards |
| Identity.ScoresComeFromOneProposal | src/material_agent/inspiration/identity.py:359-397 | the score components are those of the best proposal, not independent maxima |
| Identity.CheckOwners | src/material_agent/inspiration/identity.py:303-322 | the owner dictionaries accept exactly the lists in which no route hash and no plan ID belongs to two different records |
| Identity.MergeGroup | src/material_agent/inspiration/identity.py:331-426 | a group merges exactly when it has one structure and artifact and fits the limits |
| Identity.Representative | src/material_agent/inspiration/identity.py:359-367 | the minimum over the stated key is a least record of the group |
| PassageWindows.BoundedWindows | src/material_agent/inspiration/passages.py:255-360 | every window is exactly its slice of the text with between min and max tokens; which windows exist for which relevant sentence is determined, and the slice of an over-long sentence holds the token at its preferred character |
| PassageWindows.ExpandIsMaximal | src/material_agent/inspiration/passages.py:309-338 | the alternating expansion stops only when neither neighbouring sentence fits |
| PassageWindows.ExpandSentences | src/material_agent/inspiration/passages.py:309-338 | the loop computes that maximal expansion |
| PassageWindows.TokenSlice | src/material_agent/inspiration/passages.py:362-396 | a slice holds exactly the allowed number of tokens and keeps the token at the preferred character |
| PassageWindows.StripKeepsTokens | src/material_agent/inspiration/passages.py:362-396 | stripping a slice loses no token |
| PassageSelection.SelectPassages | src/material_agent/inspiration/passages.py:233-252 | the ranked greedy selection of the specification |
| PassageSelection.GreedyDifferent | src/material_agent/inspiration/passages.py:236-252 | selected passages are pairwise below the similarity threshold and never equal |
| PassageSelection.GreedySkips | src/material_agent/inspiration/passages.py:236-252 | a candidate is skipped only for the limit or a clash with an accepted higher-ranked one |
| PassageSelection.SelectionIgnoresDraftOrder | src/material_agent/inspiration/passages.py:233-252 | the selected texts do not depend on the order of the drafts |
| PassageSelection.RankedUnique | src/material_agent/inspiration/passages.py:463-475 | the ranking key orders the candidates in one way |
| PassageSelection.RankPrefers | src/material_agent/inspiration/passages.py:463-475 | one window ranks before another by more score, tags, lexical hits, cues, a section bonus, then a lower tier and an earlier place |
| PassageSelection.JaccardMeans | src/material_agent/inspiration/passages.py:457-460 | similarity is symmetric, 1 exactly for equal token sets, 0 exactly for disjoint ones, and the shared part of all tokens |
| PassageSelection.ClashIff | src/material_agent/inspiration/passages.py:236-248 | two windows clash exactly when their digests agree or the tokens they share reach the threshold part of all |
| HtmlFrames.IssuedSelectorsDistinct | src/material_agent/inspiration/extractors.py:805-863 | for every sequence of start, end and text events all selectors ever issued are pairwise distinct |
| HtmlFrames.SelectorInjective | src/material_agent/inspiration/extractors.py:805-830 | different element paths have different selector texts |
| HtmlFrames.NextPathIsNew | src/material_agent/inspiration/extractors.py:805-830 | the path computed for a new element was never issued before |
| HtmlFrames.NextPathIsPosition | src/material_agent/inspiration/extractors.py:814-823 | the number in a new element's selector is one more than its earlier siblings of that tag |
| HtmlFrames.DecimalReads | src/material_agent/inspiration/extractors.py:817 | the number is printed in decimal |
| HtmlFrames.ArticleHTMLParser.HandleStartTag | src/material_agent/inspiration/extractors.py:805-863 | pushes one frame with a new selector, numbered by the element's position among the siblings of its tag, that skips and captures as its tag, attributes and parent say, and records a meta element under its selector |
| HtmlFrames.ArticleHTMLParser.HandleEndTag | src/material_agent/inspiration/extractors.py:883-897 | closes down to the innermost open element of the tag, if any |
| HtmlFrames.ArticleHTMLParser.HandleData | src/material_agent/inspiration/extractors.py:873-881 | text goes to the innermost frame that captures it |
| HtmlFrames.ArticleHTMLParser.Finalize | src/material_agent/inspiration/extractors.py:905-925 | what a closed element leaves behind: a JSON-LD script, the current heading, the first title, or a paragraph block under its selector and heading |
| HtmlFrames.ArticleHTMLParser.Feed | src/material_agent/inspiration/extractors.py:805-903 | every sequence of events keeps the invariant of the stack |
| InvertedAbstracts.Rebuild | src/material_agent/inspiration/extractors.py:988-1005 | rebuilding from the inverted index of any word list returns that list |
| InvertedAbstracts.Reconstruct | src/material_agent/inspiration/extractors.py:988-1005 | the result is the listed words in position order, positions that are no index being skipped; there is none exactly when two words claim one position or only blanks are listed |
| Texts.NormalizedIdempotent | src/material_agent/inspiration/reporting.py:39-42 | whitespace normalization is idempotent |
| Texts.SplitsAtSpace | src/material_agent/inspiration/reporting.py:39-46 | text is split exactly at whitespace: both sides of any of it split on their own, and a word stays whole |
| CodeSpans.SpanRoundTrip | src/material_agent/inspiration/reporting.py:39-49 | parsing a printed span by the code-span rule gives back the text, whatever follows short of another backtick |
| CodeSpans.SpanShape | src/material_agent/inspiration/reporting.py:39-49 | a span's delimiters are one backtick longer than the longest run in its text, and blanks stand only around a text that begins or ends with a backtick |
| CodeSpans.LineRoundTrip | src/material_agent/inspiration/reporting.py:39-49 | every value printed on a line is recovered from the line, in order, for any backtick-free text between that does not escape the backtick after it |
| CodeSpans.OpenEscapeIff | src/material_agent/inspiration/reporting.py:39-49 | text before a value escapes its opening backtick exactly when an odd number of backslashes ends the text |
| CodeSpans.CodeRoundTrip | src/material_agent/inspiration/reporting.py:39-49 | for every input value the shown text is exactly the normalized value, or the placeholder when there is nothing to show |
| AttemptLedger.CheckedIffCanonical | integrations/hermes/scripts/verify_completed_inspiration_run.py:1885-1987 | the checks accept exactly the ledgers that are the plan-order concatenation of one run per query, k - 1 transient failures then one success, numbered 1 to k |
| AttemptLedger.VerifyLedger | integrations/hermes/scripts/verify_completed_inspiration_run.py:1885-1987 | the loops over queries and attempts decide exactly that |
| AttemptLedger.SplitIntoRuns | integrations/hermes/scripts/verify_completed_inspiration_run.py:1960-1987 | a ledger with the expected keys splits into the runs of its queries |
| AttemptLedger.RetriesAreFailures | src/material_agent/inspiration/reporting.py:147 | for an accepted ledger the report's retry figure is exactly the number of failed attempts |

## Left out

- SQL text, file modes, symlink checks, WAL settings and schema versions: only atomic transactions with rollback and unique constraints are kept.
- HTTP, DNS, TLS, URL parsing and media-type tables: the reply to each open, the preflight of a URL and whether a URL can be recorded are parameters.
- MCP binding, command lines, bootstrap and bundle scripts, fixtures: input and output glue.
- Length limits and string patterns of fields, except the confirmation-reference pattern and the limits that decide whether a merge, a card, a packet or a bridge row succeeds; a row's limits that its inputs' own limits already imply are not repeated.
- Structure enumeration and matching in `engine.py` and `parent_catalog.py`: their meaning lies in libraries outside the repository.
- Preflight and claim-gate checklists: independent checks, one branch each.
- Report prose apart from code spans, remediation texts and the classification of exception messages; failed outcomes carry no reason.
- Hash collisions, including those of the 24-digit truncated identifiers: identifiers derived from hashes are injective here.
- Regular-expression engines: tokens and sentences are given spans of the text, and a token is never cut by a slice bound.
- A reconcile's reads: the terminal record may be tested for at any earlier time, but the ledger is read at the moment its last test fails, when the snapshots read before are still the same as long as writes do not overlap.
- Inline constructs of CommonMark other than code spans and backslash escapes, such as autolinks and raw HTML.
- Result limits and media types of the fetched body beyond what the loop reads.
- GatewayOffline.RunnerRunsWhatWasApproved: identifies inputs by the manifest hash of the request without its submission ID, as the source does.
- DftMock.SnapshotsAreUninterrupted: one reconciler, so no write of a snapshot is refused.
- DftMock.CancelRecorded: takes the operation record its caller found; the search through the other records for the same reference is not modelled, nor is the status name reported to the caller.
- DftRunner.LocalArtifactStore.WriteJson: one undisturbed call; what several processes can do to one another is in `DftOverlaps`.
- HtmlFrames.ArticleHTMLParser.HandleData: does not claim that skipped text is excluded, since a skipped child of a paragraph still feeds the paragraph; frames are values on a sequence, so aliasing between a frame and the stack is not modelled.
- DftSubmission.ExactlyOnce: counts the workflows of one bridge; a second bridge behind the same key is not modelled.
- FeedbackReview.CompileReview: leaves out the artifact pointers, the fingerprint and the feedback identifier.
