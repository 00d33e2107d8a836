# Swarmlet: a verified model of its control plane, node agent and certification

Swarmlet serves language models on machines their owners lend. This project models the parts of it that must
not go wrong and proves what they promise, for every input and every run.

- **Native stage executor.** `LayerModel` is the model as layers with caches, and its greedy continuation with no
  cache at all. `StagePlan` is the admission of a layout, `WorkerPool` the workers' commands, each of which may fail
  before or after taking effect, `StageExecutor` the executor itself. `StageLease` is its lease and cleanup as a
  transition system over any number of concurrent generations, and `StageRefinement` shows that the state a generation
  of the executor leaves is one a fair run of that system reaches.
- **Deployment protocol.** `Deployments` holds the steps of one deployment, `DeploymentSteps` the invariant each of
  them keeps, `DeploymentRuns` control as a whole. `DeploymentSafety` and `DeploymentLease` hold what is true of every
  run, `DeploymentEffects` what each event does, `DeploymentProgress` what can always be brought to its end,
  `DeploymentWitnesses` the runs that show where a wish fails, `DeploymentManager` the manager's fields and loops.
  `UpdateNonce` is the handler of signed lease requests.
- **Node agent.** `Agent` is the assignment runner as a transition system, `AgentProgress` what it gets done,
  `AgentRunner` its fields and its recovery loop.
- **Placement and capacity.** `Sorting`, `Planner` and `PlanSplit` place a split, `TensorSplit` is the engine's rounding
  of weights to layers, `Resources`, `Admission`, `Reserved` and `Fleet` are the shared ledger and what is admitted on it.
- **Redundant certification.** `Canonical` and `CanonicalParser` are the canonical text of a JSON value and its parser,
  `Voting` the tally, `Suite` the instances, `Certification` the four workers, the reconciliation and the verdict.
- **Socket outbox.** `Outbox` is a queue under backpressure and the class that keeps it.

How the model is cut: the code between two awaits is one step, and any other event may fall between two steps. The one
exception is a start between the call and the beginning of its teardown, and between the end of its teardown and its
first assignment: only resolved promises separate these, so calls may fall there, but no message of an agent and no
change of a connection, each of which has a turn of the event loop of its own. Time is an integer that never runs
backwards. Answers of workers, nodes, sockets and scripts are arbitrary, given by functions
of a call number or by the event itself. A class keeps the source's fields; its methods are proved to take the steps of
a transition system or to compute a specification function, and the promises are proved of those.

Where a wish does not hold as stated, a run shows it and the exact condition under which it does is proved:

- a leased node can have a request in flight if an external deployment on it had flapped out of routing with the
  request still running; otherwise, whatever agents report and whatever deployments do, the lease isolates its node
  for as long as it lasts (`DeploymentLease.LeaseHoldsExactly`, `DeploymentWitnesses.FlapIsReachable`);
- a signed lease request stamped exactly 30 s ahead of its receipt can take effect twice
  (`UpdateNonce.OnceExactly`, `UpdateNonce.Replay`);
- workers of an idle deployment are empty throughout a run if and only if every recovery acknowledged in it finds empty
  workers, which the executor does not check; workers started after the last generation are (`StageLease.SafeExactly`,
  `StageLease.VouchedIsRenewed`, `StageRefinement.AcknowledgedTooSoon`);
- certified results need not be about their instances: in every finished run they are if and only if every confirmed
  answer names the instance that was asked for, which the coordinator does not compare; a single node that always gives
  the same answer is certified in every interleaving (`Certification.Certify`, `Certification.AnotherInstanceCertifies`);
- in the vote tally, `-0` and `0`, and any two scores that are not finite, share a key though they are different results
  (`Voting.KeysDecideResults`).

That an endpoint and `ready` coincide holds in every run in which no agent reports life for an assignment it has reported
stopped. With such an agent it can fail, and the one step that can break it is named
(`DeploymentSafety.EndpointExactlyWhenReady`, `DeploymentSafety.LawExactly`, `DeploymentWitnesses.RevivalBreaksLaw`).

## Model

| member | source | states |
|---|---|---|
| `StagePlan.ValidatePlan` | swarmlet/control/stage-execution.ts:51-73 | a plan is accepted if and only if its endpoints are distinct and qualified and their layer intervals partition the 24 layers in order, or are two full copies with a qualified binary pair |
| `StagePlan.ContiguousIsPartition` | swarmlet/control/stage-execution.ts:65-71 | the running-boundary check accepts exactly the interval lists that partition the layers |
| `LayerModel.SplitBatch` | swarmlet/control/stage-execution.ts:200-220 | a layer stack cut in two computes the same activations and caches as the uncut stack |
| `LayerModel.AdvanceSession` | swarmlet/control/stage-execution.ts:200-214 | feeding a context in batches leaves the caches and the pick of feeding it whole |
| `LayerModel.ReferenceRun` | swarmlet/control/stage-execution.ts:223-240 | the reference continuation unfolds into one entry per pick, with the right finish |
| `WorkerPool.Pool.Eval` | swarmlet/control/stage-execution.ts:146-153 | an acknowledged evaluation advanced exactly its own worker's session by its input; a failed one left that session only disturbed; it goes through unless the command fails or session, position or input do not fit |
| `WorkerPool.Pool.Import` | swarmlet/control/stage-execution.ts:215-222 | importing a capsule gives the caches that were exported, without replaying a token; it goes through if the command does not fail and the two files belong to the session and to each other |
| `WorkerPool.Pool.StateWrite` | swarmlet/control/stage-execution.ts:155-178 | a write extends a file its generation has tracked; before and after every command each file on a worker is tracked or was there before |
| `StageExecution.StageExecutor.EvalChain` | swarmlet/control/stage-execution.ts:205-213 | a chain of stages returns the whole model's pick and keeps all stages at one position; it fails only if a command does |
| `StageExecution.StageExecutor.Prefill` | swarmlet/control/stage-execution.ts:202-214 | 64-token batches end with every stage at the prompt's end and the whole model's next pick; it fails only if a command does |
| `StageExecution.StageExecutor.CopyFile` | swarmlet/control/stage-execution.ts:160-182 | the chunk loop terminates and the destination holds exactly the bytes read; files are tracked before they exist; without a failure and with honest reads a file new to the destination is copied |
| `StageExecution.StageExecutor.Transfer` | swarmlet/control/stage-execution.ts:155-183 | on success both files of the capsule are on the destination as exported; on any failure every created file is tracked; without a failure and with honest reads a capsule within the bounds arrives |
| `StageExecution.StageExecutor.Decode` | swarmlet/control/stage-execution.ts:223-240 | greedy decoding stops at end-of-generation or at the limit, emits exactly the reference's tokens and never evaluates the last token; it fails only if a command or the caller does |
| `StageExecution.StageExecutor.Cleanup` | swarmlet/control/stage-execution.ts:243-257 | with no cleanup failure every worker has an empty session, position 0 and none of its tracked files; after a generation that succeeded it fails only if a command does |
| `StageExecution.StageExecutor.Generate` | swarmlet/control/stage-execution.ts:185-267 | a normal return is the whole model's greedy completion; an admitted request on matching idle workers, with tokens that fit, returns normally unless a command fails or, for a state transfer, a read is not honest, the capsule is out of bounds or the binaries are not the qualified pair; positions stay below ctx; the decode worker never replays the prompt; unless the deployment becomes unsafe its workers are left empty; no other worker is touched; the state it leaves is one that a fair run of the lease protocol reaches |
| `StageExecution.StageExecutor.AcknowledgeRecovery` | swarmlet/control/stage-execution.ts:91-94 | refused during a generation, otherwise lifts the unsafe mark |
| `StageLease.LeaseIsSafe` | swarmlet/control/stage-execution.ts:185-265 | in every run whose recoveries are acknowledged on workers started after the last generation: one generation per deployment, active exactly while it runs, and a deployment neither active nor unsafe has only empty workers |
| `StageLease.AlwaysInv` | swarmlet/control/stage-execution.ts:128-265 | if commands create only tracked files and recoveries find empty workers, files on a worker are tracked by the generation that holds the lease, at every await |
| `StageLease.SafeExactly` | swarmlet/control/stage-execution.ts:91-94 | the workers of idle deployments are empty at every point of a run if and only if every recovery acknowledged in it finds empty workers |
| `StageLease.VouchedIsRenewed` | swarmlet/control/stage-execution.ts:90-94 | workers started after the last generation are still empty when their recovery is acknowledged |
| `StageRefinement.GenerationIsARun` | swarmlet/control/stage-execution.ts:185-265 | if only tracked files were added and cleanup deleted what it reports, the workers a generation leaves are reached from those it found by a fair run of that protocol, which ends unsafe exactly if cleanup failed |
| `StageRefinement.AcknowledgedTooSoon` | swarmlet/control/stage-execution.ts:91-94 | a run in which a recovery is acknowledged on a worker that still holds a session |
| `DeploymentSteps.HelloRowGood` | swarmlet/control/deployments.ts:307-344 | a node's return keeps every invariant of a deployment, in each of its branches |
| `DeploymentSteps.GreetGood` | swarmlet/control/channel.ts:134-149 | so does recording what the node reported before |
| `DeploymentSteps.BeginGood` | swarmlet/control/deployments.ts:1238-1244 | an operation that begins lists what is to stop and retires the first of it: no watch of an external deployment is live while its start clears up |
| `DeploymentSteps.ThrowGood` | swarmlet/control/deployments.ts:968-974 | a start that fails while current records it and has every row covered by a second teardown; a stale one just ends |
| `DeploymentSteps.StageGood` | swarmlet/control/deployments.ts:1079-1198 | a start that lays down its plan and sends assignments keeps the invariant |
| `DeploymentSteps.WatchGood` | swarmlet/control/deployments.ts:1067-1077 | an external start sends its watch only with every earlier one stopped, and with no endpoint published |
| `DeploymentRuns.ActGood` | swarmlet/control/deployments.ts:267-370 | every step of a deployment keeps routes, queue order, teardown coverage and watches |
| `DeploymentRuns.RestoredGood` | swarmlet/control/deployments.ts:147-177 | a restart on any persisted row with any intent gives a sound deployment |
| `DeploymentRuns.AlwaysInv` | swarmlet/control/deployments.ts:82-370 | the invariant holds in every run, and the in-flight counter is the number of admitted, unfinished requests |
| `DeploymentRuns.FinishedInv` | swarmlet/control/router.ts:114-119 | a release takes one off the count and running it again changes nothing |
| `DeploymentSafety.EndpointExactlyWhenReady` | swarmlet/control/deployments.ts:267-303 | in every run an endpoint and `ready` coincide and only a deployment meant to run is ready, unless an agent has reported life for an assignment it had reported stopped; even then what parts them is not routable |
| `DeploymentSafety.LawStep` | swarmlet/control/deployments.ts:1067-1077 | of all steps only one breaks that law: a start that sends its watch for a deployment in routing |
| `DeploymentSafety.LawExactly` | swarmlet/control/deployments.ts:267-303 | a run keeps the law at every point if and only if it has no such step |
| `DeploymentWitnesses.RevivalBreaksLaw` | swarmlet/control/deployments.ts:276-288 | a run with a revived watch that breaks the law |
| `DeploymentSafety.ExternalsUnique` | swarmlet/control/deployments.ts:1276-1283 | in every run two deployments meant to run never watch the same server, so a restart finds no duplicate, torn intents included |
| `DeploymentSafety.StopIsFinal` | swarmlet/control/deployments.ts:978-992 | after a stop, no event but a later start makes the deployment routable |
| `DeploymentSafety.OnlyCurrentStartActs` | swarmlet/control/deployments.ts:1316-1318 | a start step that publishes, plans or sends belongs to the current generation of a deployment meant to run |
| `DeploymentSafety.StaleStartIsVoid` | swarmlet/control/deployments.ts:1307-1318 | once cancelled, no later step of that start publishes, plans or sends anything, over any run |
| `DeploymentSafety.TeardownIsAcknowledged` | swarmlet/control/deployments.ts:1238-1266 | past a teardown every earlier assignment is stopped, or retired on an offline node and then only for a start |
| `DeploymentSafety.StoppedMeansStopped` | swarmlet/control/deployments.ts:987-991 | `stopped` is written only when every assignment is stopped |
| `DeploymentLease.OneLease` | swarmlet/control/deployments.ts:120-139 | a grant needs no lease in force, and withdraws every route on the node at once |
| `DeploymentLease.NextLeaseWaits` | swarmlet/control/deployments.ts:120-139 | between a lease and the next, every route it withdrew was found ready again, deleted or not meant to run, by an attempt made when no lease was in force and nothing was under way |
| `DeploymentLease.LeaseIsolates` | swarmlet/control/deployments.ts:113-144 | for as long as the lease lasts nothing on the node is in flight or routable, if no external deployment there had flapped; agents may report anything |
| `DeploymentLease.LeaseHoldsExactly` | swarmlet/control/deployments.ts:129-134 | the lease isolates its node if and only if no external deployment there had flapped with a request in flight |
| `DeploymentWitnesses.FlapIsReachable` | swarmlet/control/deployments.ts:280-288 | such a deployment can stand beside a grantable lease |
| `DeploymentEffects.LostHasNoRoute` | swarmlet/control/deployments.ts:346-370 | whatever is placed on a lost node or has an assignment there has no route any more |
| `DeploymentEffects.DeadEngineFails` | swarmlet/control/deployments.ts:289-303 | the death of an engine the deployment depends on fails it, voids its starts and queues a teardown |
| `DeploymentEffects.WatchFollowsHealth` | swarmlet/control/deployments.ts:279-288 | a watched server leaves routing when it is unhealthy and returns when it is healthy |
| `DeploymentEffects.AbsentIsStopped` | swarmlet/control/deployments.ts:323-333 | a row its node no longer runs is stopped, unless it is a watch to be sent again; a managed deployment that expected it fails |
| `DeploymentEffects.UnwantedIsRetired` | swarmlet/control/deployments.ts:334-338 | a row nobody wants is told to stop |
| `DeploymentEffects.FailedOnReturn` | swarmlet/control/deployments.ts:340-342 | a node that returns with a failed engine fails the deployment that wants it |
| `DeploymentEffects.RestartWithdraws` | swarmlet/control/deployments.ts:147-177 | after a restart nothing is routed; what was meant to run waits or has failed, the rest goes on draining |
| `DeploymentProgress.BecomesRoutable` | swarmlet/control/deployments.ts:937-976 | a managed deployment that may start can be brought into routing by steps of its own, on any plan, with all earlier assignments stopped |
| `DeploymentProgress.WatchBecomesRoutable` | swarmlet/control/deployments.ts:1067-1077 | so can a watched server on a connected node |
| `DeploymentProgress.CanBeStopped` | swarmlet/control/deployments.ts:978-992 | in every run any deployment can be stopped by steps of its own: no assignment, operation or route is left |
| `DeploymentProgress.RoutedAgain` | swarmlet/control/deployments.ts:346-370 | in every run a routed managed deployment that loses a node leaves routing at once and can be routed again on other nodes |
| `DeploymentManager.Manager.Start` | swarmlet/control/deployments.ts:937-957 | the start event; accepted exactly if there is no lease, operation or shutdown, the state can start and no other deployment claims the server; then placing, without endpoint, with its start queued |
| `DeploymentManager.Manager.Stop` | swarmlet/control/deployments.ts:978-987 | the stop event; the deployment is not routable afterwards, drains, and its stop is queued |
| `DeploymentManager.Manager.Fail` | swarmlet/control/deployments.ts:1202-1208 | the failure event; a deployment that is not at rest is failed, without route, its starts void and a teardown queued |
| `DeploymentManager.Manager.FinishDraining` | swarmlet/control/deployments.ts:1291-1297 | the draining check; a draining deployment becomes stopped exactly if all its assignments are |
| `DeploymentManager.Manager.OnOffline` | swarmlet/control/deployments.ts:346-370 | the loop is one node-loss event per deployment; afterwards nothing placed on the node or with an assignment there is routable; a managed deployment that was running waits to reconnect with its starts void and a teardown queued, a watched one waits for its agent, all others are as they were |
| `DeploymentManager.Manager.OnAssignmentState` | swarmlet/control/deployments.ts:267-303 | the report event, only for the node that owns the row; an engine that dies on its own fails its deployment and takes it out of routing |
| `DeploymentManager.Manager.OnHello` | swarmlet/control/deployments.ts:307-344 | the loop is one greeting per row of the node, in the order listed; a watch is a duplicate exactly if an earlier one of its deployment was wanted |
| `DeploymentManager.Manager.Routing` | swarmlet/control/deployments.ts:1002-1018 | the table lists exactly the routable deployments |
| `DeploymentManager.Manager.Admit` | swarmlet/control/router.ts:80-109 | admission succeeds exactly for a routable deployment and counts the request in the same step |
| `DeploymentManager.Manager.AcquireUpdate` | swarmlet/control/deployments.ts:120-139 | both loops grant exactly when granting is due, for this node and two minutes, and leave the state of the grant |
| `DeploymentManager.Manager.PruneRecovery` | swarmlet/control/deployments.ts:124-127 | exactly the unsettled deployments stay on the list |
| `DeploymentManager.Manager.ReleaseUpdate` | swarmlet/control/deployments.ts:140-144 | a lease is released only by its own node and token, and then there is none |
| `UpdateNonce.AtMostOnce` | swarmlet/control/update-lease.ts:15-31 | over any interleaving, two effects of one message mean it was stamped exactly 30 s ahead of its first receipt |
| `UpdateNonce.EffectsAreGenuine` | swarmlet/control/update-lease.ts:15-31 | over any interleaving, every effect was received in its window, its signature found genuine, and its nonce then found unused, by one call and in this order |
| `UpdateNonce.ForgedIsDropped` | swarmlet/control/update-lease.ts:20-21 | a request with a false signature is dropped and changes nothing else |
| `UpdateNonce.FirstDelivery` | swarmlet/control/update-lease.ts:15-31 | receipt, signature and key of a message in the window leave an idle handler with exactly that effect and its nonce remembered for a minute |
| `UpdateNonce.OnceExactly` | swarmlet/control/update-lease.ts:17-29 | after the delivery of a message to an idle handler the message is in effect at most once in every continuation if and only if its stamp is less than 30 s ahead |
| `UpdateNonce.Replay` | swarmlet/control/update-lease.ts:22-29 | a continuation of that delivery in which it takes effect twice |
| `UpdateNonce.LeaseHandler.Accept` | swarmlet/control/update-lease.ts:15-19 | the receive event; a request goes on exactly if its stamp is in the window |
| `UpdateNonce.LeaseHandler.Evict` | swarmlet/control/update-lease.ts:22 | the loop forgets exactly the nonces whose memory has run out |
| `UpdateNonce.LeaseHandler.Check` | swarmlet/control/update-lease.ts:20-25 | the signature event; goes on exactly for a genuine signature, an unknown nonce and a memory with room |
| `UpdateNonce.LeaseHandler.Take` | swarmlet/control/update-lease.ts:28-29 | the key event; takes effect exactly if the nonce is still unknown and the stamp still in the window |
| `Agent.ResumeSound` | swarmlet/node-agent/assignments.ts:408-537 | every step of the start task keeps the instance sound |
| `Agent.StoppingBeginsNothing` | swarmlet/node-agent/assignments.ts:408-537 | once a stop is under way no step of the start task spawns, dials, arms a timer or stops an external |
| `Agent.TurnedSound` | swarmlet/node-agent/assignments.ts:321-354 | an external is restored only once the startup has settled and everything it opened is closed again |
| `Agent.AlwaysInv` | swarmlet/node-agent/assignments.ts:303-587 | the invariant holds in every run, crashes and failed writes included |
| `Agent.StoppedIsQuiet` | swarmlet/node-agent/assignments.ts:321-333 | an assignment reported stopped has no process, no startup under way, no stopped external, no dialer, stream or timer |
| `Agent.StoppedStaysQuiet` | swarmlet/node-agent/assignments.ts:336-354 | and nothing of that start ever brings one back |
| `Agent.DownIsNamed` | swarmlet/node-agent/assignments.ts:501-548 | at every point of every run an external the runner has down is named in the snapshot on disk |
| `Agent.CrashThenRecover` | swarmlet/node-agent/assignments.ts:128-154 | a crash at any point and a recovery in any order bring every external up |
| `Agent.RecoveredMeansUp` | swarmlet/node-agent/assignments.ts:128-154 | a recovery, however interrupted, completes only with every external up |
| `AgentProgress.StartRuns` | swarmlet/node-agent/assignments.ts:303-318 | from any state an accepted assignment whose start runs undisturbed has a running engine |
| `AgentProgress.StartCompletes` | swarmlet/node-agent/assignments.ts:408-537 | a start that needs room takes its external down, on record, and then has engine, dialer, stream and timer |
| `AgentProgress.ExitFails` | swarmlet/node-agent/assignments.ts:489-493 | an engine that exits outside a stop fails its assignment and begins its cleanup; inside one it only ends |
| `AgentProgress.RejectionFails` | swarmlet/node-agent/assignments.ts:569-578 | so does a start that ends before it is done |
| `AgentProgress.StopCompletes` | swarmlet/node-agent/assignments.ts:321-354 | wherever an assignment stands, events of its own bring its stop to the end: reported stopped, nothing of it left, and no external down on its account |
| `AgentRunner.AssignmentRunner.Handle` | swarmlet/node-agent/assignments.ts:303-318 | one instance per assignment, whose start is then scheduled; nothing starts if it cannot be recorded |
| `AgentRunner.AssignmentRunner.Spawn` | swarmlet/node-agent/assignments.ts:479-499 | the engine runs exactly if no stop came first and its record is written; otherwise the start fails |
| `AgentRunner.AssignmentRunner.OnExit` | swarmlet/node-agent/assignments.ts:489-493 | the exit event; outside a stop the assignment fails and its cleanup begins |
| `AgentRunner.AssignmentRunner.Stop` | swarmlet/node-agent/assignments.ts:321-334 | a stop joins the one under way or begins a cleanup |
| `AgentRunner.AssignmentRunner.Cleanup` | swarmlet/node-agent/assignments.ts:336-342 | one cleanup at a time; it closes timer, dialer and stream before it waits |
| `AgentRunner.AssignmentRunner.AskStop` | swarmlet/node-agent/assignments.ts:515-520 | the stop command runs only with its external already on disk |
| `AgentRunner.AssignmentRunner.Persist` | swarmlet/node-agent/assignments.ts:580-587 | the file holds the new snapshot or the old one |
| `AgentRunner.AssignmentRunner.Recover` | swarmlet/node-agent/assignments.ts:128-154 | the loop succeeds exactly if every named external starts and the result is written; on failure the snapshot stays |
| `Canonical.SortFacts` | sin-harness/core/sign.ts:16-18 | sorting keeps every key with its value, in code unit order |
| `Canonical.LessExactly` | sin-harness/core/sign.ts:18 | the order of two keys is decided by the first code unit in which they differ; a proper prefix comes first |
| `Canonical.SameIsNormal` | sin-harness/core/sign.ts:11-20 | two values are equal up to key order exactly when their sorted forms are equal |
| `CanonicalParser.StringRoundTrip` | sin-harness/core/sign.ts:12 | a quoted string is read back, escapes, surrogate pairs and lone surrogates included |
| `CanonicalParser.RoundTrip` | sin-harness/core/sign.ts:11-20 | parsing the canonical text of a value gives the value back, keys sorted |
| `CanonicalParser.Faithful` | sin-harness/core/sign.ts:11-20 | two values have the same canonical text if and only if they are equal with key order ignored |
| `Voting.KeysDecideResults` | sin-harness/mesh/protocol.ts:65-82 | two results share a tally key if and only if they are the same result, or differ only in scores JSON writes alike |
| `Voting.OrdinaryScoresAgree` | sin-harness/mesh/coordinator.ts:373-382 | for all other scores tally keys coincide with sameResult |
| `Voting.ZeroScoresTalliedTogether` | sin-harness/mesh/protocol.ts:75-82 | votes that differ in the sign of a zero score are tallied together |
| `Voting.Tally` | sin-harness/mesh/coordinator.ts:373-382 | the map holds for every key how often it was cast |
| `Voting.Leading` | sin-harness/mesh/coordinator.ts:398-411 | the leading count is a strict majority exactly when some key has one |
| `Voting.MajorityUnique` | sin-harness/mesh/coordinator.ts:401 | at most one answer has a strict majority |
| `Voting.MajorityWasCast` | sin-harness/mesh/coordinator.ts:401 | a majority answer is one that was given |
| `Suite.Rename` | sin-harness/evals/generate.ts:40-44 | the renaming loop terminates with the fewest suffixes no earlier slot holds |
| `Suite.GenerateSuite` | sin-harness/evals/generate.ts:19-49 | exactly for a positive count: that many distinct ids, each its drawn id minimally renamed |
| `Certification.BuildQueue` | sin-harness/mesh/coordinator.ts:243-251 | every instance once, every twentieth with two further copies |
| `Certification.Coordinator.PickNode` | sin-harness/mesh/coordinator.ts:263-273 | a living node, an excluded one only if all living ones are; none only if none lives |
| `Certification.Coordinator.Record` | sin-harness/mesh/coordinator.ts:275-288 | a result goes under its instance, to the votes exactly if it is redundant |
| `Certification.Coordinator.Dispatch` | sin-harness/mesh/coordinator.ts:329-345 | an item is in one worker's hands or once in the unread queue |
| `Certification.Coordinator.Answered` | sin-harness/mesh/coordinator.ts:290-318 | only a non-empty, correctly signed answer of the node that was asked changes the record, and it files the first result under the instance asked for and nothing else |
| `Certification.AnsweredFiling` | sin-harness/mesh/coordinator.ts:290-318 | with every confirmed answer, all confirmed answers no longer awaited stay on file under the instance asked for |
| `Certification.Coordinator.Settle` | sin-harness/mesh/coordinator.ts:346-359 | a refusing node is dead from then on; the item is tried again or given up, never both |
| `Certification.Coordinator.RunWorkers` | sin-harness/mesh/coordinator.ts:326-361 | four workers terminate in any interleaving, with each item processed at most MAX_ATTEMPTS + 1 times; if every answer is confirmed nothing is given up and every instance is on record |
| `Certification.Coordinator.Reconcile` | sin-harness/mesh/coordinator.ts:398-419 | a majority is never asked again; otherwise, while a node lives, it asks exactly three further copies of this instance and, if still no majority stands, three more, each of a living node outside the last three if there is one; files exactly the confirmed answers; agreed exactly if a strict majority stands |
| `Certification.ReconciledVerdict` | sin-harness/mesh/coordinator.ts:398-411 | how the votes can end: unchanged with a majority or without a living node; with confirmed answers three or six more, and six if there is no agreement |
| `Certification.FurtherVotesDecide` | sin-harness/mesh/coordinator.ts:398-411 | if all further answers give one result, the reconciliation agrees exactly if six more votes for it make a strict majority |
| `Certification.Coordinator.Conclude` | sin-harness/mesh/coordinator.ts:393-427 | accepted exactly if nothing was given up, every vote has a majority, all instances are covered and a node lives |
| `Certification.Covered` | sin-harness/mesh/coordinator.ts:422-427 | as many results as instances means a verified result for every instance |
| `Certification.AllRecorded` | sin-harness/mesh/coordinator.ts:326-361 | once every item is done there are as many results as instances |
| `Certification.AboutExactly` | sin-harness/mesh/coordinator.ts:305-308 | once no answer is awaited, the results on record are about their instances if and only if every confirmed answer names the instance asked for |
| `Certification.AnotherInstanceCertifies` | sin-harness/mesh/coordinator.ts:305-308 | with one node that always gives the same answer every run is accepted, and its results are about their instances only if the one instance asked for is the one the answer names |
| `Certification.Certify` | sin-harness/mesh/coordinator.ts:232-427 | an accepted certificate has a verified result for each of the distinct instances and a majority for each redundant one; if all answers are confirmed it is accepted exactly if every vote has a majority, and a vote without one has six more votes than the workers left; in every finished run all results are about their instances if and only if all confirmed answers name what was asked |
| `Planner.MaxFitIsMax` | swarmlet/control/planner.ts:324-328 | a positive number of layers is at most the fit exactly if it fits both the GPU and the RAM offer |
| `Planner.PickPort` | swarmlet/control/planner.ts:235-240 | the first free pair of ports, or none is free |
| `Planner.Shave` | swarmlet/control/planner.ts:486-493 | terminates with total min(sum of fits, layers - 1), within every fit, with the smallest possible largest share, and a layer for everyone when there are fewer workers than layers |
| `Planner.LevelIsOptimal` | swarmlet/control/planner.ts:488-493 | no allocation with that total has a smaller largest share |
| `Planner.ChooseRow` | swarmlet/control/planner.ts:342-384 | the admissible row with the most layers, earliest on ties; none exactly if none is admissible |
| `Planner.AutomaticLayers` | swarmlet/control/planner.ts:483-497 | the shares of the best admissible row, its own count or the levelled fits; they fit every worker and leave the coordinator a layer |
| `Planner.RequestedLayers` | swarmlet/control/planner.ts:412-429 | explicit counts pass exactly if each suits a row and its own node and the coordinator keeps a layer |
| `Planner.PlaceResident` | swarmlet/control/planner.ts:279-309 | passes exactly if the share fits the node's offer; the CPU only on nodes without a usable GPU |
| `PlanSplit.ChooseCoordinator` | swarmlet/control/planner.ts:434-443 | the named node, or the one with the largest RAM offer of all that could coordinate, first by host among equals; none exactly if none can |
| `PlanSplit.NamedWorkers` | swarmlet/control/planner.ts:447-463 | distinct usable workers in the order listed, none of them the coordinator; refused only if one listed is not such a worker |
| `PlanSplit.AllWorkers` | swarmlet/control/planner.ts:464-476 | every node that can work, direct paths first, each group by round trip and host |
| `PlanSplit.AssignPorts` | swarmlet/control/planner.ts:503-512 | every worker has a free port pair on its own node; refused exactly if some node has none |
| `PlanSplit.Split` | swarmlet/control/planner.ts:431-535 | a plan exactly if the coordinator, the workers and the layers asked for exist, the rest fits the coordinator and ports are free; it places every layer where it fits, on distinct usable nodes; an automatic one has the shares of the best row |
| `PlanSplit.OneChoice` | swarmlet/control/planner.ts:447-476 | a request determines its workers and their order |
| `PlanSplit.PlanCovers` | swarmlet/control/planner.ts:513-520 | the split adds up to the model's layers, leaves the coordinator at least one and repeats no node |
| `TensorSplit.Bounds` | swarmlet/e2e/placement-qualify.py:107-112 | the accumulating loop gives the normalised running sums |
| `TensorSplit.CorrectedIsExact` | swarmlet/e2e/placement-qualify.py:107-117 | with one more weight on the coordinator and any strictly increasing rounding, every device gets exactly its blocks and the output is last |
| `TensorSplit.HistoricalMapping` | swarmlet/control/planner.ts:513-520 | with the historical weights and exact arithmetic, block k lands where the running sum reaches k |
| `TensorSplit.HistoricalShiftsOne` | swarmlet/control/planner.ts:513-520 | then the first worker with weight has one block more, the coordinator one fewer and the output |
| `TensorSplit.HistoricalAlone` | swarmlet/control/planner.ts:513-520 | without any worker weight the coordinator keeps everything |
| `TensorSplit.HistoricalPlacement` | swarmlet/e2e/placement-qualify.py:107-117 | from the loop's bounds to the placement: with the historical weights and exact arithmetic exactly one block moves to the first worker with weight, or the coordinator keeps everything |
| `Resources.ResourceLedger.Add` | swarmlet/control/resources.ts:10-20 | the ledger grows on every node and GPU by exactly what is added |
| `Resources.FreeWithin` | swarmlet/control/resources.ts:64-73 | free GPU memory with what is reserved stays within the offer |
| `Admission.PlanReplica` | swarmlet/control/planner.ts:386-410 | the whole model on the node asked for, or the first by host that can take it; refused exactly if it does not fit there, there is none or a chain is asked for |
| `Admission.PlanDeployment` | swarmlet/control/planner.ts:706-748 | a plan of either kind exactly if there is one to make; it uses different nodes, all online with an enabled offer |
| `Admission.ParseAllocations` | swarmlet/control/resources.ts:75-89 | accepts exactly 1 to 1000 positive budgets for different nodes and GPUs |
| `Admission.CheckBudgets` | swarmlet/control/resources.ts:119-127 | passes exactly if every budget fits what a node that supports budgets still offers |
| `Admission.BudgetWithin` | swarmlet/control/resources.ts:91-99 | a budget that fits what is left fits, with what is reserved, in the offer |
| `Admission.WholeSpends` | swarmlet/control/resources.ts:142 | a node whose free part is charged has nothing left to lend |
| `Admission.PlanWithResources` | swarmlet/control/resources.ts:119-145 | on every node of the plan, what was reserved and what it takes stay within RAM, CPU and every GPU's offer; without budgets it succeeds exactly if the free nodes allow a plan; budgets are refused only if they are malformed, not on offer, allow no plan or do not match the plan they allow |
| `Reserved.ReservedResources` | swarmlet/control/resources.ts:33-62 | the loops reserve exactly the charges of the counted deployments and of orphaned assignments |
| `Reserved.ChargedUntilStopped` | swarmlet/control/resources.ts:46-56 | a live assignment keeps its node charged by its plan's budget or by the whole offer |
| `Reserved.LedgerSplits` | swarmlet/control/fleet.ts:102-106 | the ledger without a set of deployments and the ledger of that set add up to the full ledger, per node and GPU |
| `Reserved.ReservedIsGood` | swarmlet/control/resources.ts:33-62 | what the loops reserve is nowhere negative, so admission can work with it |
| `Fleet.Admit` | swarmlet/control/deployments.ts:829-830 | an admitted plan is charged in full; without budgets all its nodes have nothing left to lend |
| `Fleet.AdmitCovers` | swarmlet/control/fleet.ts:238 | one more admitted plan keeps every earlier allocation within the offers |
| `Fleet.OccupyPorts` | swarmlet/control/fleet.ts:95-97 | ports in use stay in use and the plan's ports join them |
| `Fleet.BestPlan` | swarmlet/control/fleet.ts:151-233 | of all candidates that admission accepts and the hosts have room for, the first with the lowest score; none exactly if there is none |
| `Fleet.PlaceEntry` | swarmlet/control/fleet.ts:151-238 | the entry is the best of what admission made of every candidate, and placing it keeps the whole round sound |
| `Fleet.PreviewFleet` | swarmlet/control/fleet.ts:132-249 | no placed node is overcommitted, and no two workers of any entries share a port of a node; in every round each entry is the best choice after those before it, and the result is the first of the rounds with the most entries placed and then the lowest cost |
| `Fleet.Preview` | swarmlet/control/fleet.ts:132-249 | the preview starts from exactly what the other deployments keep reserved, overcommits no node on top of that, shares no port and returns the best round |
| `Outbox.AlwaysInv` | swarmlet/control/socket-outbox.ts:20-73 | after any calls: taken is a prefix of accepted, while open taken and pending are all of it, the byte count is exact and within the limit, pending means blocked |
| `Outbox.LossIsLast` | swarmlet/control/socket-outbox.ts:60-73 | a lost frame is the last one ever submitted |
| `Outbox.ClosedIsFinal` | swarmlet/control/socket-outbox.ts:50-54 | once closed nothing is submitted or accepted, and disconnect does not fire again |
| `Outbox.SendsAtOnce` | swarmlet/control/socket-outbox.ts:20-25 | a free socket is given the frame at once; it is blocked afterwards exactly if it pressed, closed exactly if it lost the frame |
| `Outbox.WaitsForDrain` | swarmlet/control/socket-outbox.ts:20-35 | under backpressure nothing is submitted before the next flush, over any calls, and what is accepted waits |
| `Outbox.PumpExactly` | swarmlet/control/socket-outbox.ts:37-48 | a flush sends the longest beginning of the queue the socket takes and stops only under backpressure, at a loss or with none left |
| `Outbox.DrainEmpties` | swarmlet/control/socket-outbox.ts:30-48 | once the socket drains and takes what it is given, every accepted frame has gone out |
| `Outbox.SocketOutbox.SendFrame` | swarmlet/control/socket-outbox.ts:20-28 | the array with its dead head does what the queue does |
| `Outbox.SocketOutbox.PumpBox` | swarmlet/control/socket-outbox.ts:40-45 | the flush loop sends pending frames in order until backpressure or loss |
| `Outbox.SocketOutbox.FlushBox` | swarmlet/control/socket-outbox.ts:37-48 | a flush, compaction included, is the queue's flush |

## Left out

- Chat messages: a generation request is a prompt text; chat templates and the decoding of bytes to text are not modelled, completions are tokens and bytes.
- The callback after an unsafe cleanup and token streaming to a client: they change nothing the executor keeps.
- Native reply shapes beyond those the proofs use, response size bounds and timeouts: a reply that fails a check is a failed command.
- `externalOrigin`: the origin of an external server is a number, and deployments are created in the order of their names.
- Reconnect deadlines, recovery backoff, automatic model choice and the decision to move a deployment: when they act they are start, stop and failure events at arbitrary moments. Termination of redistribution is not claimed.
- Fleet runs: a run's withdrawal, stops and starts are the events of its deployments.
- DeploymentManager.Manager.OnHello: the order of the node's rows is an input.
- StageLease.LeaseIsSafe: that a recovery is acknowledged only on workers started after the last generation is assumed of the caller; the router acknowledges one for every new lifetime of a native deployment.
- StageRefinement.GenerationIsARun: only the first and the last state of a generation are joined by a run; the executor's own sequence of commands is not shown to be that run.
- StageLease.AlwaysInv: that a deletion or a reset creates no file, and an acknowledged deletion took place, is assumed of the workers.
- DeploymentLease.NextLeaseWaits: a restart of control between the two leases is left out; it forgets what was withdrawn.
- DeploymentSafety.EndpointExactlyWhenReady: asks for agents that do not report life for an assignment they have reported stopped.
- DeploymentSafety.TeardownIsAcknowledged: asks for the same.
- DeploymentSafety.StoppedMeansStopped: asks for the same.
- A maintenance script that outlives a crash of the agent, and the engine processes a recovery stops by their recorded ids.
- Per-node statistics, chaos injection and the signed certificate file of a certification; that every requeued item is retried is not claimed.
- `undefined` members, which canonicalize drops, and objects that are not JSON values; numbers are named by their decimal text.
- Native plans (stage and prefill placement), plan environment variables and reasons, and the figures behind the minima a budget must cover.
- Admission.PlanWithResources: whether budgets cover the model's minima is an input, and the plan that refused budgets do not match is not shown to be the only one they allow.
- Candidate generation, scores and host memory readings of the fleet preview: inputs of `Fleet.PreviewFleet`.
- Parsing of logs around the layer proof, and rounding of running sums, which are small integers.
- Re-entrant calls from inside the socket's own send.
- HTTP, WebSocket and database plumbing, cryptography, engines, discovery, telemetry, evaluation templates, user interface and scripts.
