# FireViewer orchestrator: a verified model

FireViewer's orchestrator turns a batch of evidence (frames, audio, articles, satellite feeds) into results a human
reviews. This project models its own logic, not the models it drives: the staged session with its gates, the pod's job
queue, the one-shot validation server, the lock around the GPU, the merge of event evidence, the deterministic event
pipeline, and the projection of a session into a v2 result with its report. `dafny verify dfyconfig.toml` checks
everything.

Whatever is outside the code modelled here is an arbitrary answer. A model, a judge, the consensus evaluator, the
challenge rule, the item validator, the clock, the dedicated vision stages: each is a table or a function the theorems
quantify over, and each may raise. A table fixed in advance is no restriction, since every adaptive behaviour gives
rise to one such table per run.

## How it is laid out

| files | content |
|---|---|
| `Prelude`, `Ordering` | option and outcome types; sorting as the unique strictly ascending listing of a set |
| `TemporalSampling` | the even sample of an item's frames |
| `SessionModel`, `StageGates`, `CandidateProtocol` | results and patches; capabilities and the two gates; one candidate, one judge |
| `SessionSpec`, `Session` | a stage and a whole session as functions of the answers |
| `SessionRunner` | the runner as a class, each method proved equal to its function, with a log of adapters |
| `StageShapes`, `SessionTheorems`, `AdapterResidency`, `SessionExamples` | what every session guarantees, and a session that shows what a hypothesis is needed for |
| `StageLaws`, `SessionLaws` | a stage, and each stage of a session, told by the answers alone |
| `PodQueue`, `PodServer` | the queue under all interleavings; the same steps over real job objects |
| `ValidationProtocol`, `ValidationServer` | the validation server under all races; its methods as runs of that machine |
| `GpuLock`, `JobHandler`, `JobLaws` | the GPU lock under all interleavings and exceptions; `handle_job` as runs of that machine; what it answers |
| `EvidenceMerge`, `EvidenceLaws` | the merge of event evidence as a partial join, and field by field |
| `EventPipeline`, `EventLaws` | anchors to attempts to proposals, and the envelope check on them; told by anchors and evidence |
| `SpatialProposals`, `Report`, `V2Projection` | the geometry, the report and the numbering of a v2 result |
| `SpatialLaws`, `ReportLaws`, `V2Laws` | the same told by feeds, facts, and the batch with the stages' answers |

Loops and updated objects of the source are methods and classes here, proved against functions; the theorems are
lemmas about those functions. The `Laws` modules restate what the functions come to in terms of their inputs, not of
the helpers they are built from. Exceptions are values: `Raised(e)`, with the classes the code tells apart.

## What the proofs brought out

- The runner looks the chosen id up among all executed candidates and asks only whether results are there
  (`session_runner.py:818-830`), and a candidate whose payload cannot be built keeps its results although it has failed
  (`session_runner.py:473`). That an accepted candidate has succeeded therefore rests on the consensus choosing among
  the candidates it is shown, which are the successful ones. The consensus evaluator and the adjudication rule of the
  vision runtime do so; under that hypothesis and with distinct candidate ids, which the constructor checks, a batch is
  succeeded exactly when every stage is clean and never `failed` (`SucceededMeansClean`). For a consensus that may
  answer anything, `StatusMeaning` gives the status and `StatusMissesExactly` says when a clean batch has not
  succeeded; the session of `FailedIsReachable` needs a consensus that names a candidate it was never shown.
- A judge that fails only in its last step (the final synchronisation, or reading the payload) is recorded as failed
  but its verdict is used, and the error list says nothing about it (`JudgeVerdict`, `ErrorsMeaning`).
- Capabilities are not monotone: a patch replaces whole fields, so an answer can take the transcript away
  (`PatchDropsTranscriptIff`).
- The merged fields of event evidence do not depend on the order of the arguments; the other fields are those of the
  first argument, so whole results agree exactly when the first arguments agree on them
  (`OrderAndRepetitionIrrelevant`). Merging one record gives it back exactly when its collections are already strictly
  sorted by id (`Idempotent`). The validation at the end of a merge never refuses valid evidence (`MergeKeepsValidity`).
- The event pipeline raises when the projected evidence of anything but a front is not a point, because the contract of
  a proposal then refuses it (`RunPipeline`, `Malformed`).
- Turning a v2 batch into proposals raises for a satellite feed with a number too large for a float, and for a point
  placed on an image coarser than 50 km a pixel (`HotspotProposals`, `FallbackProposals`); the projection then raises as a
  whole (`FromLegacyOutput`).
- If the validation thread cannot be started, the started flag stays set: the status remains `pending` and every later
  upload is refused (`Settled`, `StartValidation`).
- A v2 result with a burned-area trace but no pointing trace has a gap in its numbering, because the number handed to
  the burned areas counts the pointing trace (`NumberingNeedsPointing`). `handle_job` always passes both.

## Model

| member | source | states |
|---|---|---|
| TemporalSampling.SampleIsEven | src/fireviewer_orchestrator/session_runner.py:168-174 | of n > limit >= 2 frames exactly `limit` are taken, both ends included, in order, every gap the floor or ceiling of (n-1)/(limit-1) with half-to-even rounding |
| TemporalSampling.SampleIsRounded | src/fireviewer_orchestrator/session_runner.py:173-174 | which frames: the p-th sample is the one at p * (n-1) / (limit-1), rounded to the nearest and half to even |
| TemporalSampling.SampleSize | src/fireviewer_orchestrator/session_runner.py:168-174 | distinct frames give min(n, limit) distinct frames of the input |
| TemporalSampling.Nearest | src/fireviewer_orchestrator/session_runner.py:173 | half-to-even rounding picks a nearest integer |
| TemporalSampling.SampleEdges | src/fireviewer_orchestrator/session_runner.py:168-174 | a list within the limit is kept as it is, and a single sample is the one in the middle |
| SessionLaws.InitialMeaning | src/fireviewer_orchestrator/session_runner.py:117-165 | before any model ran an item has no findings and one selection per frame, or one for itself without frames; chosen are those of the even sample of eight, with the reason |
| SessionLaws.InitialMap | src/fireviewer_orchestrator/session_runner.py:613-614 | the initial map files under each batch id the initial result of the last item with that id |
| SessionExamples.InitialSelectionSize | src/fireviewer_orchestrator/session_runner.py:137-154 | an initial item has one selection per visual source and flags exactly min(n, 8) of them |
| SessionModel.MergeLaws | src/fireviewer_orchestrator/session_runner.py:177-201 | handing a model's own view back changes nothing; of two patches the later wins in each of the six fields, and neither touches identity or metadata |
| SessionModel.ValidatedMeaning | src/fireviewer_orchestrator/session_runner.py:204-216 | an answer is accepted exactly when it names only known items and every item passes its check as patched; each item then has its patch merged or is as it was |
| SessionModel.ValidatedCandidates | src/fireviewer_orchestrator/session_runner.py:204-216 | in whatever order the patches come, the answer is the base map with every patch merged, or the validation error when an unknown item is named or an item fails its check |
| StageGates.DeriveCapabilities | src/fireviewer_orchestrator/stage_gates.py:42-65 | a capability is derived exactly when some item brings it or some result yields it |
| StageGates.AddYields | src/fireviewer_orchestrator/stage_gates.py:54-64 | one result adds exactly the capabilities it yields and takes none away |
| StageGates.AddInputs | src/fireviewer_orchestrator/stage_gates.py:47-52 | the batch adds exactly the direct inputs its items bring |
| StageGates.CapabilitySources | src/fireviewer_orchestrator/stage_gates.py:42-65 | where each of the eight capabilities comes from, item field by item field, and that no other is ever derived |
| StageGates.PatchDropsTranscriptIff | src/fireviewer_orchestrator/session_runner.py:188-201 | for any batch, results and answer: the transcript capability is lost exactly when some item has a transcript, every such item gets it emptied and no other item gets one |
| StageGates.PreflightMeaning | src/fireviewer_orchestrator/stage_gates.py:98-149 | a stage may run exactly when the batch fits and all required capabilities, and one of the alternatives, are there; otherwise which of the four refusals is given, exactly; never a retry |
| StageGates.PreflightRecord | src/fireviewer_orchestrator/stage_gates.py:98-149 | the reason, the capabilities, exactly what is missing, and whether later stages may go on |
| StageGates.MissingMeaning | src/fireviewer_orchestrator/stage_gates.py:74-81 | what counts as missing, and that nothing is exactly when every requirement is met |
| StageGates.PostflightMeaning | src/fireviewer_orchestrator/stage_gates.py:151-227 | when a departing stage blocks the batch and when it asks for a retry, over all statuses, times, sizes and outputs |
| StageGates.PostflightRecord | src/fireviewer_orchestrator/stage_gates.py:151-227 | decision, reason, missing output and what later stages may count on, for every status, time and size |
| CandidateProtocol.AttemptProtocol | src/fireviewer_orchestrator/session_runner.py:356-483 | at most two attempts in one of the listed shapes, the repair only after an invalid first answer and with a budget; inference time is the sum of the attempts; repaired exactly when the second succeeded |
| CandidateProtocol.CandidateVerdict | src/fireviewer_orchestrator/session_runner.py:473-525 | how status, error code, payload and results of a candidate hang together, and the one case in which results are kept although it failed |
| CandidateProtocol.CandidateOutcome | src/fireviewer_orchestrator/session_runner.py:356-484 | from the answers alone: a candidate failed exactly when an exception reached the handlers, its code is `invalid_model_output` exactly for malformed or invalid output and `model_runtime_error` exactly for anything else, and it holds results exactly when an answer was good |
| CandidateProtocol.AttemptsFollowTheAnswers | src/fireviewer_orchestrator/session_runner.py:361-472 | from the answers alone: how many attempts there are, and the kind, time, status and code of each |
| CandidateProtocol.CandidateEscapes | src/fireviewer_orchestrator/session_runner.py:345-483 | an exception escapes exactly when no adapter could be created or an interruption reached the handlers |
| CandidateProtocol.RecordsNameTheCandidate | src/fireviewer_orchestrator/session_runner.py:485-525 | both records name the candidate, its place and model, and agree on status, times and code |
| CandidateProtocol.ResultsComeFromLastAnswer | src/fireviewer_orchestrator/session_runner.py:363-398 | kept results are the base map patched by the answer of the last attempt, fully validated; a succeeded candidate publishes that answer |
| CandidateProtocol.JudgeVerdict | src/fireviewer_orchestrator/session_runner.py:546-611 | a succeeded judge has a verdict; a failed one has a verdict exactly when only its final step failed |
| CandidateProtocol.JudgeOutcome | src/fireviewer_orchestrator/session_runner.py:546-611 | from the answers alone: status, code, verdict, repair, time and payload of a judge; only a malformed verdict gives `invalid_model_output` |
| SessionRunner.SessionRunner.AttemptCandidate | src/fireviewer_orchestrator/session_runner.py:356-480 | the guarded part, left at any of its steps, leaves the locals the protocol says |
| SessionRunner.SessionRunner.ExecuteCandidate | src/fireviewer_orchestrator/session_runner.py:334-525 | the try/except/finally code gives the protocol's outcome, and logs one creation followed by one release whatever is raised |
| SessionRunner.SessionRunner.ExecuteAdjudicator | src/fireviewer_orchestrator/session_runner.py:527-611 | the same for the judge |
| SessionRunner.SessionRunner.ExecuteCandidates | src/fireviewer_orchestrator/session_runner.py:710-733 | the candidate loop runs the whole group, or stops after the first candidate under the cascade's conditions |
| SessionRunner.SessionRunner.Consensus | src/fireviewer_orchestrator/session_runner.py:735-793 | evaluation, and adjudication only when required |
| SessionRunner.SessionRunner.Settle | src/fireviewer_orchestrator/session_runner.py:818-882 | acceptance or refusal of a map, the run reported, the postflight and the errors, without a repeated gate error |
| SessionRunner.SessionRunner.Conclude | src/fireviewer_orchestrator/session_runner.py:735-882 | what follows the candidates of a stage: decision, settlement and the judge's adapter in the log |
| SessionRunner.SessionRunner.RunModels | src/fireviewer_orchestrator/session_runner.py:710-882 | a stage that runs: candidates, consensus, settlement, and the adapter log of all of them |
| SessionRunner.SessionRunner.RunOne | src/fireviewer_orchestrator/session_runner.py:622-708 | one role: gate, skip, unconfigured or run |
| SessionRunner.SessionRunner.RunStages | src/fireviewer_orchestrator/session_runner.py:613-919 | the loop over the roles and its growing lists give the session's output, and its adapter log |
| SessionRunner.SessionRunner.RunWithTrace | src/fireviewer_orchestrator/session_runner.py:328-332 | the output of the session, and a finalization at the very end also when an exception escapes |
| StageShapes.StageIsShaped | src/fireviewer_orchestrator/session_runner.py:622-882 | every stage record has one of three shapes: skipped at the gate, unconfigured, or run with a sound prefix of the group |
| StageShapes.RecordsChain | src/fireviewer_orchestrator/session_runner.py:622-882 | in every session each stage starts from the map the stage before it left |
| StageLaws.CourseOfStage | src/fireviewer_orchestrator/session_runner.py:622-710 | a stage is skipped exactly when its preflight does not let it run, unconfigured exactly when it may run without a group; a group without candidates ends the session |
| StageLaws.SkippedRecord | src/fireviewer_orchestrator/session_runner.py:633-665 | a skipped stage changes and runs nothing, and names the reason unless it does not apply |
| StageLaws.UnconfiguredRecord | src/fireviewer_orchestrator/session_runner.py:666-708 | an unconfigured stage names the missing checkpoint or model and abstains |
| StageLaws.WhomAStageExecutes | src/fireviewer_orchestrator/session_runner.py:710-733 | the candidates executed, in order and from one map: the first alone exactly when a content cascade is told it needs no challenger, otherwise all |
| StageLaws.WhatIsDecided | src/fireviewer_orchestrator/session_runner.py:744-793 | the evaluation a stage settles on: the consensus, the adjudication when one was required and the judge ruled, and a refusal otherwise |
| StageLaws.WhoIsAccepted | src/fireviewer_orchestrator/session_runner.py:818-851 | a candidate is accepted exactly when later stages may use the result and the first executed candidate of the selected id holds results; then its map, run and attempts are the stage's, otherwise the map stays |
| StageLaws.WhatARefusalReports | src/fireviewer_orchestrator/session_runner.py:836-851 | the run of a refused stage: the first one, marked as failed by the consensus exactly when some candidate had succeeded |
| StageLaws.HowAStageDeparts | src/fireviewer_orchestrator/session_runner.py:851-861 | what the postflight of a stage that ran is asked |
| StageLaws.OutputCountMeaning | src/fireviewer_orchestrator/session_runner.py:219-242 | what the size limit counts in each stage, regions with repetition |
| StageLaws.ErrorsOfARun | src/fireviewer_orchestrator/session_runner.py:722-882 | exactly which errors a stage that ran adds: failed candidates with their codes, a judge without a verdict, a refusal, a postflight that blocks |
| StageLaws.ErrorsInOrder | src/fireviewer_orchestrator/session_runner.py:722-882 | in which order: the candidates as executed, then judge, consensus and gate, at most one each |
| StageLaws.AdaptersOfAStage | src/fireviewer_orchestrator/session_runner.py:710-765 | one adapter per executed candidate, created and released in turn, then the judge's; none when a stage does not run |
| StageLaws.CompletesWhenAllAnswer | src/fireviewer_orchestrator/session_runner.py:710-882 | a configured stage completes when everything it can ask for comes back |
| StageLaws.HowAStageEndsTheSession | src/fireviewer_orchestrator/session_runner.py:710-793 | when a stage ends the session, and with which exception, in order: the first candidate one escapes from or the challenge rule, then consensus, adjudicator and adjudication, then a refusal without a reason |
| SessionTheorems.ResultMapProvenance | src/fireviewer_orchestrator/session_runner.py:818-851 | at every point of every session, the map is keyed by exactly the batch ids and is the initial map or a fully validated map of the last accepted stage |
| SessionTheorems.CandidatesShareTheBase | src/fireviewer_orchestrator/session_runner.py:712-719 | all candidates of a stage start from one map, and a refused stage hands that map on |
| SessionLaws.AcceptanceInASession | src/fireviewer_orchestrator/session_runner.py:818-851 | the acceptance rule for every stage of every session, also one that an exception ends |
| SessionLaws.SessionRaises | src/fireviewer_orchestrator/session_runner.py:613-919 | a session ends with an exception exactly when some stage does, with that stage's exception |
| SessionTheorems.DepartureBlocks | src/fireviewer_orchestrator/session_runner.py:851-861 | the postflight of a stage that ran blocks the batch always after a failure, asks for a retry exactly after a runtime error or past the time budget, and never calls an accepted stage not applicable |
| SessionTheorems.ItemsKeepTheirIdentity | src/fireviewer_orchestrator/session_runner.py:188-216 | the output's items are the batch's, in order, with their own ids and metadata, whatever the models answer |
| SessionTheorems.TakenHasSucceeded | src/fireviewer_orchestrator/session_runner.py:735-744 | a stage takes only a succeeded candidate, although it looks the chosen id up among all executed ones |
| SessionTheorems.AcceptedHasSucceeded | src/fireviewer_orchestrator/session_runner.py:826-835 | when the consensus chooses among the candidates it is shown, an accepted candidate has succeeded and its published payload makes the new map |
| SessionTheorems.StatusMeaning | src/fireviewer_orchestrator/session_runner.py:884-900 | exactly when a batch is succeeded and exactly when failed, with no assumption |
| SessionTheorems.SucceededMeansClean | src/fireviewer_orchestrator/session_runner.py:884-900 | when the consensus chooses among the candidates it is shown, succeeded exactly when every stage was not applicable or accepted with a pass or an abstention, and never failed |
| SessionTheorems.StatusMissesExactly | src/fireviewer_orchestrator/session_runner.py:473-483 | for a consensus that may answer anything: with all stages clean, a batch misses succeeded if and only if a stage took a candidate whose payload could not be built |
| SessionExamples.FailedIsReachable | src/fireviewer_orchestrator/session_runner.py:818-830 | with a consensus that names a candidate it was never shown, a concrete session has all stages clean and the status failed: the hypothesis of `SucceededMeansClean` is needed |
| SessionTheorems.SuccessNeedsExtraction | src/fireviewer_orchestrator/stage_gates.py:84-94 | a succeeded batch has an accepted extraction candidate, because that stage is never not applicable |
| SessionTheorems.ErrorsMeaning | src/fireviewer_orchestrator/session_runner.py:722-882 | a batch that has not succeeded has errors; exactly when the error list is empty |
| SessionTheorems.RetryMeaning | src/fireviewer_orchestrator/session_runner.py:904-906 | retryable exactly when a trace is, and exactly when some stage failed with a first candidate recorded with the runtime code or accepted after its time budget |
| SessionLaws.RetryFollowsTheAnswers | src/fireviewer_orchestrator/session_runner.py:904-906 | retryable exactly when in some stage every executed candidate died, the first of something other than invalid output, or a candidate was taken after the time was up; said of the exceptions themselves |
| SessionTheorems.RefusalIsFinal | src/fireviewer_orchestrator/session_runner.py:836-850 | a refusal among successful candidates ends in a terminal failure, never a retry |
| SessionTheorems.TraceConservation | src/fireviewer_orchestrator/session_runner.py:622-632 | four runs and four traces in role order, numbered 1 to 4; the gate records are the traces' gates in order; each stage finds the capabilities the one before left |
| SessionLaws.TracesAreTheRecords | src/fireviewer_orchestrator/session_runner.py:863-874 | every field of every trace and every run is that of its stage |
| SessionLaws.ConsensusIsReported | src/fireviewer_orchestrator/session_runner.py:795-816 | one consensus result per stage that ran, with its rules, candidates, count of successes and decision |
| SessionLaws.SessionReportsItsStages | src/fireviewer_orchestrator/session_runner.py:901-919 | the lists of the output are those of the stages in order, and each item is what the running map holds under its id |
| SessionTheorems.CandidateRunsFollowTheGroups | src/fireviewer_orchestrator/session_runner.py:711-767 | the candidate runs are, stage by stage, one or all of the group in order, then the group's adjudicator as the judge when one was used |
| AdapterResidency.SessionIsPaired | src/fireviewer_orchestrator/session_runner.py:481-483 | over every session, creations and releases of adapters come in adjacent pairs |
| AdapterResidency.AtMostOneResident | src/fireviewer_orchestrator/session_runner.py:481-483 | at every moment of a paired log at most one adapter is created and not yet released |
| AdapterResidency.JobLog | src/fireviewer_orchestrator/session_runner.py:328-332 | at most one adapter resident at any moment, each released by the next event, one finalization, last, with none resident |
| PodQueue.StepKeepsInv | src/fireviewer_orchestrator/pod_server.py:54-105 | every action of submitter, canceller and consumer keeps the queue invariant |
| PodQueue.EveryRun | src/fireviewer_orchestrator/pod_server.py:54-105 | under every interleaving the handler is called for the put ids in order with cancelled ones left out, each at most once; at most one job is in progress; a popped id is always registered |
| PodQueue.WaitingPlaces | src/fireviewer_orchestrator/pod_server.py:54-83 | a job in the queue is in exactly one of registered, pending, held |
| PodQueue.Accounting | src/fireviewer_orchestrator/pod_server.py:87-105 | unfinished work is the pending jobs and the one in hand; an output is there exactly for completed and failed jobs |
| PodQueue.StepShows | src/fireviewer_orchestrator/pod_server.py:54-105 | one step makes a job show just what it brings about, besides what it showed |
| PodQueue.JobHistory | src/fireviewer_orchestrator/pod_server.py:54-105 | over every run: a job is completed with this output and time exactly when the handler returned them for it, failed with this output and no time exactly when the handler raised, cancelled exactly when a cancel met it in the queue; request and delay are those it was registered and started with |
| PodQueue.StatusShows | src/fireviewer_orchestrator/pod_server.py:26-47 | over every run: what each status goes with; in progress is the job in the consumer's hand |
| PodQueue.TerminalForever | src/fireviewer_orchestrator/pod_server.py:65-103 | a terminal job never changes again |
| PodQueue.CancelIsFinal | src/fireviewer_orchestrator/pod_server.py:65-79 | a cancel that took effect keeps the job from the handler for ever |
| PodQueue.Progress | src/fireviewer_orchestrator/pod_server.py:72-105 | every serving action brings the end nearer, one is enabled while work is owed, and when none is owed all jobs are terminal |
| PodQueue.ServedOut | src/fireviewer_orchestrator/pod_server.py:72-105 | without new submissions a run has boundedly many serving steps, and one after which no serving step is possible leaves every job terminal |
| PodServer.PodJobQueue.Register | src/fireviewer_orchestrator/pod_server.py:54-57 | the locked half of a submission is the machine's registration of a fresh job object |
| PodServer.PodJobQueue.Put | src/fireviewer_orchestrator/pod_server.py:58-59 | the other half is the machine's put |
| PodServer.PodJobQueue.Get | src/fireviewer_orchestrator/pod_server.py:61-63 | the job returned is the stored object, and shows the request, status, output and times the machine has for that id; none is returned exactly for an id the machine does not know |
| PodServer.PodJobQueue.Cancel | src/fireviewer_orchestrator/pod_server.py:65-70 | cancels exactly a waiting job and returns the job |
| PodServer.PodJobQueue.Take | src/fireviewer_orchestrator/pod_server.py:73-74 | the consumer takes the oldest pending id |
| PodServer.PodJobQueue.Start | src/fireviewer_orchestrator/pod_server.py:76-83 | the look-up succeeds; a cancelled job is skipped, any other goes to the handler with its own request |
| PodServer.PodJobQueue.Finish | src/fireviewer_orchestrator/pod_server.py:85-90 | the machine's step, and directly: that job is completed with this output and this time, every other job is as before |
| PodServer.PodJobQueue.Crash | src/fireviewer_orchestrator/pod_server.py:91-103 | the machine's step, and directly: that job is failed with this output and without a time, every other job is as before |
| PodServer.PodJobQueue.Finalize | src/fireviewer_orchestrator/pod_server.py:104-105 | each taken id is accounted for once |
| ValidationProtocol.BootInv | src/fireviewer_orchestrator/pod_validation.py:454-485 | a server that starts satisfies the invariant; it waits for an upload exactly when assets are required and none were given, and otherwise stands at the lock with exactly the required assets |
| ValidationProtocol.StepKeepsInv | src/fireviewer_orchestrator/pod_validation.py:288-332 | every step of uploads, boot and worker keeps the server's invariant |
| ValidationProtocol.OneWorker | src/fireviewer_orchestrator/pod_validation.py:319-332 | under any race at most one worker is started and one caller accepted; the worker holds that caller's assets, named exactly as required; a loser is told so only after somebody won |
| ValidationProtocol.PublishedOrder | src/fireviewer_orchestrator/pod_validation.py:288-451 | the published statuses are the first one followed by a prefix of pending, running, outcome; report exactly when completed, error exactly when failed |
| ValidationProtocol.OnlyForward | src/fireviewer_orchestrator/pod_validation.py:295-305 | the status never moves back and a final one stays |
| ValidationProtocol.VerdictHistory | src/fireviewer_orchestrator/pod_validation.py:423-451 | over every run: the server shows a report exactly when the validation has returned it and an error exactly when it has raised it |
| ValidationProtocol.SomeoneMoves | src/fireviewer_orchestrator/pod_validation.py:319-332 | while a caller is not answered some caller can move: no deadlock on the worker lock |
| ValidationProtocol.OwnStepsOnly | src/fireviewer_orchestrator/pod_validation.py:380-420 | a caller is moved only by its own steps, each of which takes it further |
| ValidationProtocol.Settled | src/fireviewer_orchestrator/pod_validation.py:319-332 | when all callers are answered the lock is free, and validation was started exactly if one was accepted or failed to start the thread |
| ValidationServer.ValidationHttpServer.StartValidation | src/fireviewer_orchestrator/pod_validation.py:319-332 | an uninterrupted call is the machine's critical section, with its three outcomes |
| ValidationServer.ValidationHttpServer.Post | src/fireviewer_orchestrator/pod_validation.py:387-420 | the answer to an upload, and that a refused upload changes nothing |
| ValidationServer.ValidationHttpServer.Work | src/fireviewer_orchestrator/pod_validation.py:423-451 | running first, then completed with the report, failed with the error, or running for ever when the thread dies |
| GpuLock.StepKeepsInv | src/fireviewer_orchestrator/handler.py:186-430 | every step of every call keeps the log of the GPU a sequence of sessions of one call each |
| GpuLock.GpuIsExclusive | src/fireviewer_orchestrator/handler.py:186-430 | at most one call in a GPU section; a call that left took the lock once and released it once; a losing call never touched the GPU; no release of an unlocked lock |
| GpuLock.LockIsNeverAbandoned | src/fireviewer_orchestrator/handler.py:290-430 | when all calls have ended the lock is free, and while one has not some call can move |
| JobHandler.GpuSession.Attempt | src/fireviewer_orchestrator/handler.py:375-430 | one step inside the section is logged, and its exception leaves the section with nothing further begun |
| JobHandler.GpuSession.Release | src/fireviewer_orchestrator/handler.py:429-430 | however the section is left, the lock is free and the log holds one whole session |
| JobHandler.GpuSession.HoldForProbe | src/fireviewer_orchestrator/handler.py:183-187 | the `with` of the laboratory probe, left at any step |
| JobHandler.GpuSession.HoldForEvent | src/fireviewer_orchestrator/handler.py:281-291 | the `try` of an event's perception, left at any step |
| JobHandler.GpuSession.HoldForResearch | src/fireviewer_orchestrator/handler.py:331-336 | the `try` of a research, returning or raising |
| JobHandler.GpuSession.HoldForBatch | src/fireviewer_orchestrator/handler.py:395-430 | the `try` of a batch: scope, session, pointing, burned areas, spatial pipeline, projection, dump, left at any step |
| JobHandler.GpuSession.HandleResearch | src/fireviewer_orchestrator/handler.py:321-361 | a research that loses the GPU answers busy; which exceptions become failures |
| JobHandler.GpuSession.HandleBatch | src/fireviewer_orchestrator/handler.py:362-434 | a batch that loses the GPU answers busy; which exceptions become failures |
| JobHandler.GpuSession.HandleEvent | src/fireviewer_orchestrator/handler.py:189-320 | an event that loses the GPU goes on without it; its steps run in order up to the first exception; validation errors become a failed result |
| JobHandler.GpuSession.HandleJob | src/fireviewer_orchestrator/handler.py:163-434 | every request leaves the lock as it found it and adds one whole session to the log, with the steps up to the first exception, or nothing; which requests are answered busy, disabled or invalid, and that all others settle their course |
| JobLaws.WhoAsks | src/fireviewer_orchestrator/handler.py:163-434 | which requests get as far as the lock |
| JobLaws.StepsUnderTheLock | src/fireviewer_orchestrator/handler.py:183-430 | the steps under the lock, in order |
| JobLaws.CourseIsOutcome | src/fireviewer_orchestrator/handler.py:163-434 | a call comes to the first exception among all its steps, or to what the last one returned |
| JobLaws.WhatAnExceptionBecomes | src/fireviewer_orchestrator/handler.py:306-450 | for each kind of request which exceptions become a final failure, which one worth a retry, and which escape |
| EvidenceMerge.MergeRecords | src/fireviewer_orchestrator/mvp/orchestration/evidence_merge.py:9-23 | succeeds exactly when no two records share an id but differ; the result is the canonical listing of all of them; otherwise the first clash is reported |
| EvidenceMerge.MergeCollection | src/fireviewer_orchestrator/mvp/orchestration/evidence_merge.py:17-22 | one collection goes into the dictionary completely, or stops at a record that clashes |
| EvidenceMerge.MergeCollections | src/fireviewer_orchestrator/mvp/orchestration/evidence_merge.py:40-91 | the nine collections and the review flag of the join, or the first clash of the first kind that has one |
| EvidenceMerge.CheckHeaders | src/fireviewer_orchestrator/mvp/orchestration/evidence_merge.py:29-38 | the checks against the first record find no difference exactly when all headers agree, and report that of the first record that differs |
| EvidenceMerge.CanonicalLists | src/fireviewer_orchestrator/mvp/orchestration/evidence_merge.py:23 | the listing is strictly sorted by id and has exactly the given records |
| EvidenceMerge.ListingUnique | src/fireviewer_orchestrator/mvp/orchestration/evidence_merge.py:23 | there is only one such listing |
| EvidenceMerge.MergeEventEvidence | src/fireviewer_orchestrator/mvp/orchestration/evidence_merge.py:26-91 | merges exactly the joinable records whose join is valid; each refusal is that of the first record whose header differs, or of the first clash in the first kind that has one, or of an invalid join |
| EvidenceLaws.JoinableMeaning | src/fireviewer_orchestrator/mvp/orchestration/evidence_merge.py:9-38 | records can be merged exactly when there is one, all have the event, time window and area of the first, and no two records of one kind share an id but differ |
| EvidenceLaws.JoinMeaning | src/fireviewer_orchestrator/mvp/orchestration/evidence_merge.py:40-91 | the result field by field: the header of the first, each collection the sorted union of that collection, a review when one needs it |
| EvidenceLaws.ValidityMeaning | src/fireviewer_orchestrator/mvp/orchestration/evidence_merge.py:40-91 | what the final validation asks: distinct ids within a kind and every reference leading to a record of its kinds, a video of its group or this event |
| EvidenceMerge.MergeKeepsValidity | src/fireviewer_orchestrator/mvp/orchestration/evidence_merge.py:40-91 | the join of valid records is valid: references stay resolved and no id is doubled, so the final validation refuses none |
| EvidenceMerge.OrderAndRepetitionIrrelevant | src/fireviewer_orchestrator/mvp/orchestration/evidence_merge.py:26-91 | success and all merged fields depend only on which records are given |
| EvidenceMerge.GroupingIrrelevant | src/fireviewer_orchestrator/mvp/orchestration/evidence_merge.py:26-91 | merging groups first and then the merges succeeds exactly when merging at once does, with the same result |
| EvidenceMerge.Idempotent | src/fireviewer_orchestrator/mvp/orchestration/evidence_merge.py:26-91 | repeating a record or merging a merge changes nothing; exactly when a record is its own merge |
| EventPipeline.BearingIsCompass | src/fireviewer_orchestrator/event_pipeline.py:416-426 | for a contracted viewpoint and anchor the bearing is in [0, 360) and is the anchor's direction up to one turn; the uncertainty is between 1 and 9 degrees |
| EventPipeline.BearingRange | src/fireviewer_orchestrator/event_pipeline.py:416-426 | for any input a bearing is within one turn either way, and negative exactly when the anchor lies more than a turn to the left of north and not a whole number of turns |
| EventPipeline.ExternalSummary | src/fireviewer_orchestrator/event_pipeline.py:437-448 | the sorted families, and exactly the contradicting pairs in strict order |
| EventPipeline.ContradictionMeaning | src/fireviewer_orchestrator/event_pipeline.py:441-447 | a pair is two different known observations, smaller first, one of which names the other; who names whom does not matter |
| EventPipeline.RunPipeline | src/fireviewer_orchestrator/event_pipeline.py:459-634 | raises exactly when evidence to be localized lacks geometry or accuracy, or is no point for anything but a front; otherwise attempts, proposals, review status, contradictions and reason codes as specified |
| EventPipeline.LocalizeAnchors | src/fireviewer_orchestrator/event_pipeline.py:465-583 | the loop over the anchors: one attempt each, and the promotions so far |
| EventPipeline.AddFailures | src/fireviewer_orchestrator/event_pipeline.py:585-610 | one attempt per failure after those of the anchors, or a single one that says there was no anchor |
| EventPipeline.LocalizeOne | src/fireviewer_orchestrator/event_pipeline.py:470-583 | the branches for one anchor give its attempt, and a proposal exactly for a promotable attempt |
| EventPipeline.AttemptMeaning | src/fireviewer_orchestrator/event_pipeline.py:470-583 | localized exactly when the anchor's evidence projects, with that evidence's geometry and accuracy; no geometry otherwise; never a cross-view geometry |
| EventLaws.WhoseAttempt | src/fireviewer_orchestrator/event_pipeline.py:429-434 | the attempt is a front exactly for a front, a smoke origin exactly for the base of a smoke column, an active fire exactly for everything else; ids and model are the anchor's |
| EventLaws.AttemptOnProjection | src/fireviewer_orchestrator/event_pipeline.py:473-536 | on projected evidence: localized there when usable, marked exactly when a front is no line; otherwise which abstention, and when it is only a shadow |
| EventLaws.AttemptWithoutProjection | src/fireviewer_orchestrator/event_pipeline.py:552-583 | without it: a sector exactly when viewpoint and anchor give a direction, else an abstention with the evidence's reasons |
| EventLaws.RaisesExactly | src/fireviewer_orchestrator/event_pipeline.py:511-550 | an anchor makes the run raise exactly when its usable evidence has no geometry or accuracy, or is no point although the anchor is no front |
| EventLaws.ProposalsFollowTheAnchors | src/fireviewer_orchestrator/event_pipeline.py:534-551 | one proposal for each anchor with usable evidence of a kind its own phenomenon allows, in the order of the anchors, with that place, accuracy and time, and no other |
| EventLaws.FailuresAreReported | src/fireviewer_orchestrator/event_pipeline.py:585-601 | each perception failure is an abstention with its own reason and model |
| EventLaws.NothingToLocalize | src/fireviewer_orchestrator/event_pipeline.py:603-610 | with neither anchor nor failure one abstention says so |
| EventLaws.CodesOfARun | src/fireviewer_orchestrator/event_pipeline.py:618-622 | the reason codes of a run, exactly |
| EventLaws.ViewMeaning | src/fireviewer_orchestrator/event_pipeline.py:391-403 | the view profile, exactly |
| EventPipeline.NoInventedGeometry | src/fireviewer_orchestrator/event_pipeline.py:465-610 | attempts follow the anchors then the failures; each proposal carries the geometry of its own anchor's evidence, of a kind its phenomenon allows, and every localized attempt without a reason code has its proposal |
| EventPipeline.LookupOnRun | src/fireviewer_orchestrator/event_pipeline.py:656-661 | on attempts of a run, the ids that look up to a localized attempt are exactly those of projecting anchors |
| EventPipeline.EnvelopeOnRun | src/fireviewer_orchestrator/event_pipeline.py:652-669 | on attempts of a run an envelope is accepted exactly when all supports are localized and not all are smoke origins; the rejection of hotspots, burned areas and simulations never fires |
| EventLaws.EnvelopeMeaning | src/fireviewer_orchestrator/event_pipeline.py:652-669 | over any attempts: which verdict an envelope gets, in which precedence |
| SpatialProposals.HotspotProposals | src/fireviewer_orchestrator/v2_runner.py:300-386 | raises exactly for a feed the parser gives up on or a position too large for a float; otherwise never empty: one refusal with its reason, or exactly the usable point features inside the feed's own box, in order and under their positions |
| SpatialProposals.FallbackProposals | src/fireviewer_orchestrator/v2_runner.py:217-297 | raises exactly when the feed does or a point falls on too coarse an image; otherwise the feed's proposals, or one per annotation in order, projected exactly when the image's geotransform puts the point on the globe, at that place |
| SpatialLaws.RefusalOfAFeed | src/fireviewer_orchestrator/v2_runner.py:304-344 | the reason for which a feed is refused, exactly |
| SpatialLaws.FeedRaisesExactly | src/fireviewer_orchestrator/v2_runner.py:323-361 | a feed raises exactly when its text defeats the parser or a point has a position too large for a float |
| SpatialLaws.FeedTells | src/fireviewer_orchestrator/v2_runner.py:345-386 | one proposal for each point in the box, in order, at its longitude and latitude, and a refusal when there is none |
| SpatialLaws.WhereAnAnnotationLies | src/fireviewer_orchestrator/v2_runner.py:217-252 | where the affine transform puts a point, exactly when it is placed, and with which accuracy and time |
| SpatialLaws.WhyNotPlaced | src/fireviewer_orchestrator/v2_runner.py:255-266 | why a point is not placed, exactly |
| Report.BuildReport | src/fireviewer_orchestrator/v2_runner.py:495-583 | raises exactly when a fact's input is unknown; otherwise builds the report as specified |
| Report.SortFacts | src/fireviewer_orchestrator/v2_runner.py:524-527 | the nested loops put every fact into the list of its section, in order |
| Report.AddContent | src/fireviewer_orchestrator/v2_runner.py:528-540 | the sections with facts, in the fixed order; it fails exactly when a fact's input is unknown |
| Report.SectionsConserveFacts | src/fireviewer_orchestrator/v2_runner.py:524-540 | the four content sections together are a rearrangement of all facts |
| Report.SectionKeepsOrder | src/fireviewer_orchestrator/v2_runner.py:524-527 | a section has exactly the facts of its categories, in input order |
| Report.ReportConservesFacts | src/fireviewer_orchestrator/v2_runner.py:524-577 | the report is never empty, its content sections conserve the fact ids, its last section lists all facts or stands alone as the limitations with at least one code |
| Report.ReportFilesFacts | src/fireviewer_orchestrator/v2_runner.py:528-540 | a content section appears once and only with facts, with one line per fact |
| Report.EachOnce | src/fireviewer_orchestrator/v2_runner.py:524-540 | facts with distinct ids are each in the content sections exactly once |
| Report.CollectSources | src/fireviewer_orchestrator/v2_runner.py:543-549 | the dictionary has the keys in first-occurrence order, each with its last value |
| Report.SourcesAreDistinct | src/fireviewer_orchestrator/v2_runner.py:541-560 | one line per distinct source key, in the order of first occurrence, showing the source of the last fact with that key |
| ReportLaws.SectionTable | src/fireviewer_orchestrator/v2_runner.py:496-505 | the section of every category |
| ReportLaws.LineTellsFact | src/fireviewer_orchestrator/v2_runner.py:514-522 | what the line of a fact says: summary, time, whom it names, and when a cross-check is asked |
| ReportLaws.LineTellsSource | src/fireviewer_orchestrator/v2_runner.py:545-549 | what the line of a source says |
| ReportLaws.SectionsTellTheFacts | src/fireviewer_orchestrator/v2_runner.py:524-540 | the content sections in the fixed order, each with exactly the facts of its categories in input order, a line telling each |
| ReportLaws.NothingToReport | src/fireviewer_orchestrator/v2_runner.py:561-577 | a report without facts is one section with the sorted uncertainty codes, or its own code when there are none |
| V2Projection.FromLegacyOutput | src/fireviewer_orchestrator/v2_runner.py:586-748 | raises exactly when an item of the session is not in the batch or something it calls raises, never for the report; otherwise gives the projection (`V2Laws` says what it holds) |
| V2Projection.Prepare | src/fireviewer_orchestrator/v2_runner.py:598-619 | every session item with its source and annotations, and the dictionary shown to the spatial pipeline; it fails exactly when an item is not in the batch or its annotations raise |
| V2Projection.BuildItems | src/fireviewer_orchestrator/v2_runner.py:636-671 | one v2 item per prepared item; it fails exactly when the proposals of one raise |
| V2Laws.ItemsGetTheirAnswers | src/fireviewer_orchestrator/v2_runner.py:598-671 | each item of the result has the id, the session result, the annotations, the proposals and the facts due to it |
| V2Laws.ItsProposals | src/fireviewer_orchestrator/v2_runner.py:637-665 | hotspots for a satellite feed, else non-empty burned areas, else the spatial entry even when empty, else the fallback; and when that raises |
| V2Laws.ItsAnnotations | src/fireviewer_orchestrator/v2_runner.py:604-617 | burned areas first, then pointing if it found anything, otherwise the session's regions |
| V2Laws.SpatialIsAsked | src/fireviewer_orchestrator/v2_runner.py:618-635 | the spatial pipeline is shown the annotations of the last item of each id and the number after all earlier traces |
| V2Laws.RaisesExactly | src/fireviewer_orchestrator/v2_runner.py:598-671 | the projection raises exactly when an item is not in the batch, its annotations or its one source of proposals raises, or the spatial pipeline does |
| V2Laws.TracesInOrder | src/fireviewer_orchestrator/v2_runner.py:620-720 | the traces place by place, and what the fusion says |
| V2Laws.RunsInOrder | src/fireviewer_orchestrator/v2_runner.py:672-694 | the runs in order, fire detection under its new name |
| V2Laws.ReportIsGiven | src/fireviewer_orchestrator/v2_runner.py:512-577 | the report gets the provenance of the last item of each id and the facts and uncertainty codes of each result item |
| V2Projection.NumberingIsKept | src/fireviewer_orchestrator/v2_runner.py:620-720 | a result is numbered 1 to N exactly when the traces it was given are |
| V2Projection.JobNumbering | src/fireviewer_orchestrator/handler.py:399-427 | from the session's enumeration through pointing, burned areas and the spatial pipeline to fusion and report the traces are numbered 1 to N |
| V2Projection.NumberingNeedsPointing | src/fireviewer_orchestrator/handler.py:403-413 | burned areas without pointing leave a gap |
| V2Projection.SucceededEndToEnd | src/fireviewer_orchestrator/v2_runner.py:721-738 | end to end: a v2 result has succeeded exactly when every stage of the session is clean and no dedicated stage failed, and it is never failed |
| V2Laws.StatusOfAResult | src/fireviewer_orchestrator/v2_runner.py:721-738 | the status of a result from the session's and from the failures the dedicated stages report |
| V2Projection.SessionProjects | src/fireviewer_orchestrator/v2_runner.py:601-603 | the output of a session over the same ids always projects |
| V2Projection.ItemsFollowTheBatch | src/fireviewer_orchestrator/v2_runner.py:637-671 | whatever the models answer, the v2 items are the session's batch in order, with one fact per observation of that item |
| V2Projection.FactIdsAreDistinct | src/fireviewer_orchestrator/v2_runner.py:453-492 | items with distinct ids give facts with distinct ids |
| V2Projection.EveryFactIsReportedOnce | src/fireviewer_orchestrator/v2_runner.py:495-748 | end to end, whatever the models and stages answer, every fact is in the content sections of the report exactly once |
| V2Laws.EachFactOfEachItem | src/fireviewer_orchestrator/v2_runner.py:495-748 | the same said of the k-th fact of the i-th item of the result |

## Left out

- SessionTheorems.SucceededMeansClean: that the consensus chooses among the candidates it is shown is a hypothesis, since the evaluator is outside this model; `StatusMissesExactly` covers any consensus.
- SessionTheorems.SuccessNeedsExtraction: assumes the extraction contract is filed under its own role, which the registry (not part of this model) provides.
- PodQueue.ServedOut: the job handler returns or raises an `Exception`; anything else would end the consumer thread with its job in progress.
- PodServer.PodJobQueue.Register: a fresh job id is required where the source draws a random one.
- SessionModel.ValidatedCandidates: the item validator (`validate_item_result`) is an arbitrary predicate.
- EvidenceMerge.MergeEventEvidence: the size limits of the collections are not checked again by the final validation in this model; fields the merge does not touch are carried as one value, and what a record refers to is a list of references.
- EventPipeline.LookupOnRun: attempt ids are told apart by what is digested, so two anchors with distinct ids have distinct attempts; `EnvelopeOnRun` shares this.
- V2Projection.FactIdsAreDistinct: fact ids are likewise told apart by what is digested, and an observation is one value.
- V2Projection.JobNumbering: the pointing, burned-area and spatial stages are taken to use the numbers they are handed.
- JobHandler.GpuSession.HandleJob: one uninterrupted call; interleavings are in `GpuLock`. Leaving the scope of the adapters is not a step of its own.
- ValidationServer.ValidationHttpServer.Post: one uninterrupted upload; interleavings are in `ValidationProtocol`.
- Floating point: sampling positions, bearings and coordinates are exact rationals or reals, without rounding, infinities or not-a-number.
- The order inside capability tuples, which is alphabetical; capabilities and missing requirements are sets here.
- Timestamps, peak memory, digests, contract digests, agreement scores and comparison payloads: recorded by the source, read by nothing modelled.
- The bodies of the consensus evaluator, the adjudication rule, the challenge rule, the models and the vision and spatial stages: arbitrary answers.
- Memory management calls and contract constructors are taken to succeed; the normalisation of the model registry in the runner's constructor is taken as done.
- The body of `_candidate_payload`: whether it raises is an arbitrary answer.
- The mapping of location origins to location statuses in an initial result, carried as one metadata value.
- HTTP handling, tokens, header and body limits, JSON and gzip decoding: an upload's bundle is given as decoded or not.
- The removal of anchors of assets with refused links before an event runs, and the link checks themselves.
- Report text: headings and the rendering of lines into Markdown; keyword matching of fact categories and the cleaning of fact keys.
- Input conversion from v2 to the session's format, source annotations and the copied fields of a v2 item.
- Process, build, cost, corpus and cloud-service wrappers, and the point-bundle and incident-update tables: they would add only easy members.
