# Hookploy: a verified model

Hookploy deploys services from one main process. A deploy is a rollout: one execution per
instance, grouped in waves. Executions run on the main host or on remote edges, which keep a
session to main and deliver results over separate requests. This project models the parts of
Hookploy that carry its guarantees and proves those guarantees for every input and every
interleaving.

- **Deploy state machine** (`Model`, `Store`, `Rollout*`): the status rules, the tables with
  their compare-and-set updates, and one rollout as a coordinator and one goroutine per
  execution whose atomic sections interleave freely. `Rollout.dfy` is the machine,
  `RolloutTables.dfy` what its steps are on the store's tables,
  `RolloutProof.dfy` its invariant, `RolloutTheorems.dfy` and `RolloutDigest.dfy` the results
  for every rollout. `RolloutImage*.dfy` says for exactly which plans every run pins one image,
  `RolloutFrozen.dfy` and `RolloutStale.dfy` for exactly which every run ends with the right
  status recorded; `RolloutDrive.dfy` builds the runs that show the other half of both.
- **Scheduling and recovery** (`Lane`, `Scheduler`, `Crash`): one lane per service with a
  latest-wins slot, what a restart makes of the tables a crash left behind, and the crashes in
  the middle of a rollout after which it does too little.
- **Edge sessions** (`EdgeHub*`, `EdgeAgent`, `EdgeBuffer`, `EdgeSession*`, `EdgeRegistry`): main's hub with
  its grace timers, the edge's result buffer, and both together with a network that drops,
  delays and repeats.
- **Pipelines from configuration to engine** (`Ops`, `Config`, `Interpolate`, `Expansion`, `Build`, `Waves`,
  `PlanConfig`, `Engine`, `Answers`): what the loader accepts, how a pipeline is interpolated
  and cut into snapshots, that every plan is a rollout of the machine above, what the engine
  guarantees about retries and pinned images, and that what it answers, here or from an edge,
  is what the rollout expects.
- **Streams and reports** (`Logs`, `Sse`, `Notify`, `Watch`): following a deploy's log, the
  event-stream frames between main and edge ("Server-sent events", section 9.2 of the WHATWG
  HTML Living Standard), the bounded notification queue, and the outage watcher.

State that the source updates in place is a class (`Store.Store`, `Scheduler.Scheduler`,
`EdgeHub.Hub`, `EdgeAgent.Agent`, `Engine.Host`, `Logs.Broadcaster`, `Sse.Reader`,
`Notify.Hub`, `Watch.Watcher`) whose methods are proved against functions on values; runs with
several goroutines or processes are step systems over those same functions. Anything outside
the process (commands, the container runtime, downloads, clocks, the network) answers
arbitrarily. Times are milliseconds; identifiers are opaque numbers.

## Where the code falls short of what it says

Each of these is stated with a concrete run or with the exact condition under which the
promise holds.

- A finished deploy can read `running` for good: the non-terminal write of
  `RecomputeDeployStatus` has no `finished_at` guard. Every run of a rollout ends with the
  aggregate of its executions recorded if and only if no two executions of its last wave run
  side by side (`RolloutStale.StatusIsRightExactly`; `RolloutStale.StaleStatusStays` is the run
  that does not). In any single state, the recorded status is frozen exactly when no recompute
  still holds a snapshot that would record another one
  (`RolloutTheorems.FrozenExactlyWhenNothingStale`). The settled report itself is unique.
- `RecoverInFlight` finishes a started deploy exactly when it still holds an unsettled
  execution (`Scheduler.RecoveryFinishesExactly`). A crash at some moment of a rollout leaves
  it unfinished and on no lane exactly when everything had settled and the recompute had not
  been written (`Crash.RecoveryMissesExactly`), and every rollout has such a moment
  (`Crash.RecoveryCanMissADeploy`).
- A rollout may run two images. Every run pins one digest only if and only if the trigger
  brought it, or there is no second `image.pin`, or the first instance of the first wave that
  pins does so, once (`RolloutImageExactly.OneImageExactly`). The loader accepts services whose
  `on:` keeps `image.pin` off that instance (`PlanConfig.AcceptedServiceCanRunTwoImages`).
- A session request that main attaches settles awaited work that is alive on the edge if and
  only if it was dialed no later than the session the work was sent on
  (`EdgeSessionProof.AttachKillsLiveWorkExactly`), and late requests do arrive
  (`EdgeSessionProof.LateRequestKillsLiveWork`).
- The hub calls the registry after releasing its lock: an attached edge can end up not
  acquirable, and a server without an edge acquirable (`EdgeRegistry.ReconnectCanUnregister`,
  `EdgeRegistry.LateAttachCanRegister`). In any state this is ruled out exactly when all
  outstanding calls agree with who is attached (`EdgeRegistry.RegisteredIffAttachedExactly`).
- A follower whose re-read finds the deploy finished skips the lines waiting in its live feed
  (`Logs.RereadMissesExactly`). A follower waits for ever if and only if its feed is full when
  Done is published to it (`Logs.DoneStrandsExactly`, `Logs.StrandedExactly`); for every
  capacity there is a run in which it is (`Logs.FullFeedStrands`).
- An execution whose outcome nobody knows is to be recorded as unreachable, not as failed. It is
  recorded so exactly while its deadline has not passed (`Answers.UnreachableExactly`): an edge
  that disconnects for good less than a grace window before the deadline leaves a failed
  execution (`Answers.UnreachableCanReadFailed`).
- `popIf` recognises its item by key only. A finished delivery removes the item delivered, and
  a failed one charges or gives up the item tried, if and only if that item was not evicted
  with another of its key now at the head (`Notify.DeliveryRemovesItsItemExactly`,
  `Notify.FailureChargesItsItemExactly`, `Notify.GivingUpRemovesItsItemExactly`); for every
  bound there is a run in which it was (`Notify.EvictedItemTakesItsSuccessor`).
- The backoff is the doubled base capped at the maximum, except that it does not cap its first
  pause (`Notify.BackoffClosedForm`).
- Duplicate instance names are not rejected, so the default rollout lists such a name more than
  once (`Config.RolloutListsOnce`).

## Model

| member | source | states |
|---|---|---|
| Model.AggregateStatus | internal/model/model.go:107-127 | no execution reads queued; all equal give that status; otherwise any failed, unreachable or canceled one gives failed, and none of them running |
| Model.AllTerminal | internal/model/model.go:133-140 | true exactly when every status that occurs is terminal |
| Model.TerminalAggregateStays | internal/store/deploys.go:238-243 | while settled executions do not move, a terminal aggregate never becomes non-terminal again |
| Model.SettledSnapshotIsCurrent | internal/store/deploys.go:232-259 | a snapshot in which everything had settled is still the state when it is written |
| Model.EndedRolloutAggregatesTerminal | internal/model/model.go:107-127 | executions ended in any way a rollout ends them aggregate to a terminal status |
| Model.TerminalMixAggregates | internal/model/model.go:107-127 | settled executions aggregate to a terminal status except for exactly the mix of superseded and succeeded |
| Store.Store.constructor | internal/store/deploys.go:11-40 | an empty store satisfies the table constraints |
| Store.Store.TransitionExecution | internal/store/deploys.go:179-201 | a compare-and-set on the status: it wins exactly when the row has the expected status, then stamps started on running and finished and the error on a terminal status; a loser changes nothing |
| Store.Store.ExecStatuses | internal/store/deploys.go:204-219 | lists exactly the statuses of the deploy's executions |
| Store.Store.RecomputeDeployStatus | internal/store/deploys.go:232-264 | reports settled exactly when the deploy was unfinished and its rollout is over, and publishes Done exactly then |
| Store.Store.MarkDeploySuperseded | internal/store/deploys.go:267-280 | every queued execution of the deploy reads superseded and is finished, every other execution is as before; the row too if it was queued; Done is published |
| Store.SupersedeSettles | internal/store/deploys.go:267-280 | no execution of the deploy stays queued; if it held nothing else its rollout is over and its row reads what its executions aggregate to |
| Store.Store.SelectInFlight | internal/store/deploys.go:319-338 | selects, each once, exactly the unfinished deploys holding an unsettled execution that started or belongs to a started deploy |
| Store.Store.CloseOut | internal/store/deploys.go:339-354 | of that deploy what was dispatching or running has failed and what was queued is canceled, finished and with the reason; nothing else changes |
| Store.Store.RecoverInFlight | internal/store/deploys.go:318-356 | closes out exactly the selected deploys and leaves every other execution alone |
| Store.Store.ListQueuedDeploys | internal/store/deploys.go:359-375 | the queued deploys in creation order |
| Store.QueuedInOrder | internal/store/deploys.go:359-375 | listing keeps the creation order, in both directions |
| Store.RecomputeFreezesFinished | internal/store/deploys.go:232-264 | taken as one step, a recompute never changes the row of a finished deploy |
| RolloutTables.WriteIsRecompute | internal/store/deploys.go:232-264 | the rollout machine's recompute, with nobody in between, is the store's |
| RolloutTables.PromotionIsSetDigest | internal/scheduler/scheduler.go:136-146 | the machine's promotion of a digest is SetDeployDigest on the tables, or nothing |
| RolloutTables.CompareAndSetIsTransition | internal/store/deploys.go:179-201 | the machine's compare-and-set wins and writes as TransitionExecution does |
| RolloutProof.RunKeeps | internal/scheduler/scheduler.go:108-257 | every reachable state of a rollout keeps the invariant relating coordinator, goroutines, statuses, snapshots and the settled report |
| RolloutTheorems.WaveGating | internal/scheduler/scheduler.go:117-176 | whatever has started has every execution of every earlier wave succeeded behind it |
| RolloutTheorems.ReturnsSettled | internal/scheduler/scheduler.go:108-190 | when runDeploy returns, all executions are terminal, the deploy is finished, and exactly one recompute reported settled, with the aggregate of the final statuses |
| RolloutTheorems.NothingStartsOnceStopped | internal/scheduler/scheduler.go:122-172 | once a failure or the shutdown has been seen, what had not started never starts and is canceled when runDeploy returns |
| RolloutTheorems.StoppedBeforeItsTurn | internal/scheduler/scheduler.go:122-172 | that is so of every wave reached after it, and of the siblings of a first instance that failed |
| RolloutTheorems.ProgressIsOneWay | internal/store/deploys.go:179-264 | settled executions never move, a terminal aggregate stays terminal, a settled deploy is never reported again |
| RolloutTheorems.FrozenExactlyWhenNothingStale | internal/store/deploys.go:233-262 | the recorded status of a finished deploy is constant on every continuation if and only if no recompute holds a snapshot that would record another |
| RolloutTheorems.StaleWriteLands | internal/store/deploys.go:260-263 | a stale recompute can write at any moment, and then changes the recorded status |
| RolloutDigest.DigestIsFixed | internal/scheduler/scheduler.go:117-162 | the digest handed out is unresolved for an initial run of dispatches and one fixed value ever after, and is recorded at most once |
| RolloutDigest.RestIsHandedWhatFirstReported | internal/scheduler/scheduler.go:136-162 | the siblings of a wave's first instance are handed exactly what it reported, resolved or not |
| RolloutImage.OneImagePerRollout | internal/scheduler/scheduler.go:117-162 | if the trigger brought the digest, or there is no second image.pin, or the first pin is that of a wave's first instance, no run pins two digests |
| RolloutImage.OneImageEverywhere | internal/scheduler/scheduler.go:117-162 | then a finished rollout's successful executions have each pinned as often as their snapshots say, all of them one digest |
| RolloutImageExactly.OtherwiseTwoImages | internal/scheduler/scheduler.go:136-162 | every other plan has a run that pins two different digests |
| RolloutImageExactly.OneImageExactly | internal/scheduler/scheduler.go:117-162 | the two together: an if and only if about all runs of a plan |
| RolloutFrozen.FinishedReadsRight | internal/store/deploys.go:232-264 | if no two executions of the last wave run side by side, a finished deploy records the aggregate of its executions in every state of every run |
| RolloutStale.StaleStatusStays | internal/store/deploys.go:260-263 | any two that do have a run after which runDeploy has returned, the deploy is finished and reported succeeded, and its row reads running |
| RolloutStale.StatusIsRightExactly | internal/scheduler/scheduler.go:108-190 | the two together: an if and only if about all runs of a plan |
| Lane.LatestWins | internal/scheduler/scheduler.go:64-106 | at most one rollout per service at a time, rollouts in enqueue order, every enqueued deploy exactly one of started, pending, superseded, and the newest never superseded |
| Lane.NothingWaitsIdle | internal/scheduler/scheduler.go:64-106 | before shutdown what is pending is the newest and waits behind a running rollout |
| Lane.NewestRunsLast | internal/scheduler/scheduler.go:90-106 | a lane that has drained before shutdown ran the newest deploy last |
| Scheduler.Scheduler.Enqueue | internal/scheduler/scheduler.go:64-82 | takes the lane to its next state and supersedes exactly the deploy that was pending, leaving none of its executions queued and, if it never started, its rollout over |
| Scheduler.Scheduler.LoopNext | internal/scheduler/scheduler.go:90-106 | the loop goes on with the pending deploy, or leaves when there is none or main shuts down |
| Scheduler.Scheduler.RecoverTables | internal/scheduler/scheduler.go:262-288 | the tables become what recovery promises, and the map holds exactly the newest waiting deploy of each service |
| Scheduler.Scheduler.SupersedeOvertaken | internal/scheduler/scheduler.go:280-288 | supersedes every queued deploy followed by another of its service, and no other |
| Scheduler.Scheduler.Recover | internal/scheduler/scheduler.go:262-293 | after it, each service's lane runs exactly its newest waiting deploy, and services without one have no lane |
| Scheduler.RecoveryFinishesStarted | internal/scheduler/scheduler.go:262-275 | every started deploy with an unsettled execution is finished with the terminal aggregate of settled executions |
| Scheduler.RecoveryKeepsResults | internal/store/deploys.go:338-354 | recorded results are never rewritten |
| Scheduler.RecoveryFinishesExactly | internal/store/deploys.go:318-337 | a started, unfinished deploy is finished by recovery if and only if it still had an unsettled execution |
| Scheduler.RecoveryKeepsNewestOnly | internal/scheduler/scheduler.go:276-291 | of the waiting deploys of a service one is kept and all others are superseded and finished |
| Scheduler.RecoverySupersedes | internal/scheduler/scheduler.go:276-288 | a deploy recovery supersedes has no queued execution left; if it held nothing else it is over and its row reads their aggregate |
| Scheduler.RecoveryClosesOut | internal/store/deploys.go:338-354 | of a rollout closed out, what was under way has failed and what was queued is canceled, for the reason given |
| Scheduler.RecoveryLeavesTheRest | internal/store/deploys.go:318-354 | executions of any other deploy are as before |
| Scheduler.OneNewestPerService | internal/scheduler/scheduler.go:280-291 | the deploy a service keeps is unique |
| Crash.RecoveryMissesExactly | internal/store/deploys.go:318-337 | after a crash in any state of a rollout, recovery finishes the deploy or puts it back on its lane if and only if the crash was not between the last settle and its recompute |
| Crash.RecoveryCanMissADeploy | internal/store/deploys.go:318-337 | every rollout has a run to such a state; recovery leaves its tables as they are, with the deploy unfinished and on no lane |
| EdgeHub.Hub.SettleEach | internal/edgehub/hub.go:83-88 | delivers a result to every held execution of a set; a channel that already has one keeps it |
| EdgeHub.Hub.Attach | internal/edgehub/hub.go:127-187 | installs the session, makes pending timers stale, settles exactly the held executions the edge does not claim, closes the previous connection |
| EdgeHub.Hub.Detach | internal/edgehub/hub.go:192-222 | a no-op for a replaced session; otherwise arms a timer of a new generation if there is work and a grace window, else settles everything |
| EdgeHub.Hub.ExpireGrace | internal/edgehub/hub.go:226-239 | settles everything exactly when the generation is current and nobody is connected |
| EdgeHub.Hub.HandleDone | internal/edgehub/hub.go:293-297 | delivers a report to the execution it names, if the server holds it |
| EdgeHub.Hub.BeginExecute | internal/edgehub/hub.go:329-341 | registers the call and nothing else, or refuses it and changes nothing |
| EdgeHub.Hub.Receive | internal/edgehub/hub.go:357-374 | turns the delivered result into digest and error; the handed digest stands in for a missing one |
| EdgeHub.Hub.EndExecute | internal/edgehub/hub.go:343-349 | removes the registration |
| EdgeHubRuns.RunKeeps | internal/edgehub/hub.go:104-375 | every reachable hub state implements what its log of events says |
| EdgeHubRuns.FirstTerminalWins | internal/edgehub/hub.go:104-116 | a call returns the first terminal event addressed to its execution, read off the log without generations or channels |
| EdgeHubRuns.AdmittedExactly | internal/edgehub/hub.go:300-341 | read off the log: a call is admitted, to the current session, if and only if there is one and, for a pipeline that needs it, its attach said it honors step modifiers; otherwise it is refused as unattached or as too old |
| EdgeHubRuns.LaterEventsChangeNothing | internal/edgehub/hub.go:111-116 | once there is a first terminal event nothing later changes it |
| EdgeHubRuns.NoneStranded | internal/edgehub/hub.go:192-222 | an unsettled execution on a server without a connection has an armed timer of the current generation |
| EdgeHubRuns.CurrentTimerSettles | internal/edgehub/hub.go:226-239 | when that timer fires the execution is settled |
| EdgeHubRuns.StaleTimerIsHarmless | internal/edgehub/hub.go:226-239 | a timer settles nothing once a session attached after it was armed |
| EdgeHubRuns.AdoptedWorkSurvives | internal/edgehub/hub.go:127-187 | work the returning edge claims is adopted untouched and no older timer can end it |
| EdgeAgent.Agent.InflightIDs | internal/edge/agent.go:162-181 | advertises exactly the running and the unacknowledged executions, each once |
| EdgeAgent.Agent.Start | internal/edge/agent.go:185-201 | launches exactly what is not running already |
| EdgeAgent.Agent.BufferDone | internal/edge/agent.go:270-286 | replaces the result of the same execution or appends, and reports the oldest as dropped exactly when the buffer was full |
| EdgeAgent.Agent.AckDone | internal/edge/agent.go:345-354 | removes the acknowledged result |
| EdgeAgent.Agent.FlushResults | internal/edge/agent.go:322-343 | delivers results in order up to the first refusal and keeps the rest |
| EdgeAgent.Agent.FlushOne | internal/edge/agent.go:322-343 | one result leaves the buffer exactly when main takes it |
| EdgeAgent.BufferedKeeps | internal/edge/agent.go:270-286 | buffering keeps ids distinct and the bound, holds the new result, and forgets at most one other |
| EdgeAgent.AckedKeeps | internal/edge/agent.go:345-354 | acknowledging removes exactly that execution's result |
| EdgeBuffer.NewestLast | internal/edge/agent.go:270-286 | a repeated execution keeps its place, another one comes last, and the first makes room for it exactly when the buffer is full |
| EdgeBuffer.OthersKept | internal/edge/agent.go:270-286 | the buffered result is the one that came last, and no other result is altered |
| EdgeBuffer.AckedLeaves | internal/edge/agent.go:345-354 | an acknowledged result leaves and the others close up |
| EdgeBuffer.InOrderOfArrival | internal/edge/agent.go:259-354 | over any sequence of results and acknowledgements, what stands before something else has been held longer |
| EdgeBuffer.OldestIsDropped | internal/edge/agent.go:276-284 | what is dropped is what has been held longest, and only by another execution's result in a full buffer |
| EdgeSessionProof.RunKeeps | internal/httpapi/edge.go:79-166 | every reachable state of main, edge and network keeps the protocol's invariant, in whatever order session requests arrive |
| EdgeSessionProof.AttachKillsLiveWorkExactly | internal/edgehub/hub.go:169-187 | attaching a request settles awaited work alive on the edge if and only if the request was dialed no later than the session the work was sent on |
| EdgeSessionProof.LaterDialOrphansOnlyUnstarted | internal/edgehub/hub.go:169-187 | what a later dial settles as "reconnected without it" never started on the edge, unless the edge was restarted or its buffer overflowed |
| EdgeSessionProof.OrphanNeverStarted | internal/edgehub/hub.go:169-187 | with requests in dial order that is everything an attach settles so |
| EdgeSessionProof.AttachNeverKillsLiveWork | internal/edgehub/hub.go:169-187 | with requests in dial order no attach settles work that is running on the edge or whose result it still holds |
| EdgeSessionProof.ResultsSurvive | internal/edge/agent.go:259-354 | a finished execution's result is buffered, seen by main, or forgotten by the edge, and main never holds a different one |
| EdgeSessionProof.LateRequestKillsLiveWork | internal/httpapi/edge.go:79-127 | without dial order there is a run in which running work is settled as orphaned |
| EdgeRegistry.RegisteredIffAttachedExactly | internal/edgehub/hub.go:127-222 | no order of making the outstanding registry calls ends wrong, if and only if each of them agrees with who is attached |
| EdgeRegistry.RegisteredIffAttachedWhenAtomic | internal/edgehub/hub.go:127-222 | with attach and detach atomic they always agree, and a server is acquirable exactly when it is attached |
| EdgeRegistry.ReconnectCanUnregister | internal/edgehub/hub.go:212-216 | as the calls are made, a server can end up attached and not acquirable |
| EdgeRegistry.LateAttachCanRegister | internal/edgehub/hub.go:148-154 | as the calls are made, a server can end up acquirable and not attached |
| Ops.StepsFor | internal/ops/types.go:60-68 | the selection of an instance's steps in order |
| Ops.SelectedElements | internal/ops/types.go:41-68 | an instance keeps exactly the steps that run on it |
| Ops.SelectedConcat | internal/ops/types.go:60-68 | selection distributes over concatenation, so order is kept |
| Config.Find | internal/config/config.go:117-124 | the first instance of a name, or none exactly when the name is not declared |
| Config.EveryStepRunsSomewhere | internal/config/config.go:430-456 | no step of an accepted pipeline is for nobody |
| Config.EveryInstanceRunsSomething | internal/config/config.go:430-456 | no instance has nothing to run, and each one's last pin has a later compose.up of its own |
| Config.TasksRunWhole | internal/config/config.go:403-414 | a task runs its whole pipeline, whichever instance it runs on |
| Config.NormalizeInstances | internal/config/config.go:322-352 | accepts exactly a single placement with server and directory, or instances each on a known server with a directory, their own before the service's |
| Config.NormalizeRollout | internal/config/config.go:354-382 | accepts a custom rollout exactly when it lists every instance name once; the default is one wave per instance |
| Config.CheckWave | internal/config/config.go:359-371 | rejects only rollouts that name an unknown instance or one twice |
| Config.RolloutListsOnce | internal/config/config.go:354-382 | an accepted rollout lists every name once if and only if it is custom or the names are distinct |
| Config.ValidatePin | internal/config/config.go:482-498 | accepts exactly the pipelines without a pin or with a compose.up after the last one |
| Config.ValidateStepBudget | internal/config/config.go:462-479 | accepts exactly the steps whose attempts, one more than their retries (two for image.pin and artifact.extract if none are written), and the pauses between them fit the service timeout |
| Config.ValidatePipeline | internal/config/config.go:430-456 | accepts exactly the pipelines whose steps and whose share of every instance keep the rules |
| Config.ValidateTask | internal/config/config.go:403-414 | a task pipeline must not use `on:` and must keep the pipeline rules |
| Config.NormalizeService | internal/config/config.go:294-419 | accepts exactly the definitions whose normal form keeps every rule, and returns it: the pipelines as written, the default timeout and the default rollout only where none is given |
| Interpolate.MatchExact | internal/ops/interpolate.go:12-12 | the pattern matches at the start of a string exactly when a valid reference is written there; the grammar is unambiguous |
| Interpolate.FirstPiece | internal/ops/interpolate.go:76-78 | a reference is taken where one is written, and a character stands for itself only elsewhere |
| Interpolate.ParseWritten | internal/ops/interpolate.go:76-78 | writing the pieces out gives the string back, and no reference is missed |
| Interpolate.ParseUnique | internal/ops/interpolate.go:76-78 | any decomposition that misses no reference is the one found |
| Interpolate.Pieces | internal/ops/interpolate.go:76-98 | scanning left to right finds that decomposition |
| Interpolate.SplitJoined | internal/ops/interpolate.go:102-104 | the parts of a path hold no dot and join back to it |
| Interpolate.LookupPayload | internal/ops/interpolate.go:102-128 | walks to the value at the path: its text if scalar, absent where a part or an object is missing, compound otherwise |
| Interpolate.Substitute | internal/ops/interpolate.go:78-96 | what one reference turns into: its text, or nothing with the problem it has |
| Interpolate.Combine | internal/ops/interpolate.go:76-98 | the texts in order and the first problem |
| Interpolate.InterpolateString | internal/ops/interpolate.go:76-98 | a string becomes its pieces' values concatenated once; the error is that of the first failing reference |
| Interpolate.FailsExactly | internal/ops/interpolate.go:81-94 | a string fails if and only if it holds a required missing reference or one that is not a scalar |
| Interpolate.ParseAround | internal/ops/interpolate.go:76-98 | a reference written anywhere in a string is found there, and what surrounds it is cut up as if it stood alone |
| Interpolate.ReplacedInPlace | internal/ops/interpolate.go:76-98 | so it is replaced where it stands: inserted text is never expanded again, and the first problem in reading order is the one reported |
| Expansion.WithoutReferencesUnchanged | internal/ops/interpolate.go:76-98 | a string without references stays as it is |
| Expansion.NameFinds | internal/ops/interpolate.go:102-128 | a name finds the text of what the payload holds under it, by kind of value |
| Expansion.PathFinds | internal/ops/interpolate.go:102-113 | a path goes on inside the object its first name finds, and finds nothing elsewhere |
| Expansion.ExpandedAt | internal/ops/interpolate.go:40-74 | wherever a string stood in an argument its text stands, and nowhere else a string |
| Expansion.SoundExactly | internal/ops/interpolate.go:40-74 | interpolating an argument succeeds if and only if no string in it has a problem |
| Interpolate.InterpolateValue | internal/ops/interpolate.go:40-74 | succeeds exactly when every string inside is sound, and expands every one of them |
| Interpolate.InterpolateEntries | internal/ops/interpolate.go:54-65 | whatever the order of the keys, the values are expanded and the keys kept |
| Interpolate.Interpolate | internal/ops/interpolate.go:19-38 | succeeds exactly when every step is sound; only arguments change |
| Interpolate.ShapeKept | internal/ops/interpolate.go:40-74 | list lengths, map keys and everything that is not text are kept |
| Interpolate.CommutesWithSelection | internal/scheduler/build.go:31-44 | interpolating and then selecting an instance's steps equals selecting first |
| Build.HexValueInjective | internal/scheduler/build.go:15-15 | two digests of the same value are the same text |
| Build.PayloadDigestExactly | internal/scheduler/build.go:46-53 | a digest is malformed exactly if it is given and is not sha256: and 64 lower-case hex digits |
| Build.DigestsToldApart | internal/scheduler/build.go:46-53 | two payloads with different digests make deploys with different digests |
| Build.Snapshots | internal/scheduler/build.go:37-44 | every instance's snapshot is its share of the pipeline, interpolated |
| Build.PlannedCarriesShare | internal/scheduler/build.go:31-44 | each planned execution carries its instance's selected steps one by one, with their op, timeout and retries and their arguments interpolated |
| Build.Named | internal/scheduler/build.go:101-103 | the first instance of that name |
| Build.PlanWave | internal/scheduler/build.go:100-104 | one wave adds one execution per entry, in order, numbered with the wave |
| Build.PlanTask | internal/scheduler/build.go:87-98 | a task has one execution, on the named instance or the only one, and is refused exactly when that is not determined |
| Build.PlanRollout | internal/scheduler/build.go:99-105 | one execution per entry of the rollout |
| Build.BuildDeploy | internal/scheduler/build.go:23-107 | refused exactly for an unknown task, an unresolvable reference, a malformed digest or an undetermined target; otherwise the plan of the rollout or the one target of the task, every execution carrying its instance's share of the deploy's or task's pipeline |
| Waves.GroupWaves | internal/scheduler/scheduler.go:295-313 | the executions of each wave that has any, in wave order, each wave in the order it came |
| Waves.GroupingInvertsPlanning | internal/scheduler/scheduler.go:295-313 | regrouping a plan gives back the rollout's waves that name anyone |
| Waves.BucketIsWave | internal/scheduler/scheduler.go:302-305 | each bucket holds exactly the executions of its wave of the rollout, in order |
| Waves.OneExecutionPerInstance | internal/scheduler/build.go:86-105 | with distinct names every instance has exactly one execution |
| PlanConfig.ConfigHasTheGroups | internal/scheduler/scheduler.go:117-125 | a rollout that has the groups for waves is well formed, and its waves are exactly the groups |
| PlanConfig.PlanIsRollout | internal/scheduler/scheduler.go:108-125 | every plan with an execution is a rollout: groupWaves's groups, the snapshots' pins, the trigger's digest |
| PlanConfig.SnapshotPins | internal/scheduler/build.go:37-44 | a snapshot pins as often as the instance's share of the pipeline |
| PlanConfig.AcceptedServiceCanRunTwoImages | internal/config/config.go:421-456 | a service the loader accepts, with a trigger and a plan whose rollout has a run that pins two images |
| Waves.SnapshotKeepsChecks | internal/config/config.go:421-456 | every snapshot of a checked pipeline verifies what it pins, and its steps fit the timeout |
| Waves.RunStepOf | internal/config/config.go:458-479 | the first step of an accepted service's snapshot makes every attempt it promises within the service timeout, and a later one whenever what is left covers its budget |
| Waves.RunLocally | internal/scheduler/scheduler.go:223-256 | starts no op past its timeout or the shutdown; if it succeeds it ran its whole snapshot, with the pin verified exactly when the snapshot allows it; every compose.up behind a pin starts the image pinned last |
| Waves.EveryInstanceListed | internal/config/config.go:354-382 | the rollout of an accepted service names every instance, duplicate names or not |
| Waves.RunTrigger | internal/config/config.go:421-429 | no white pin: from an accepted service and any deploy or task that reaches an instance, with whatever digest it is handed, success with a pin means the image pinned last was verified after the last compose.up, and every compose.up behind a pin started the image pinned last |
| Engine.PinImage | internal/engine/pin.go:20-66 | whatever the runtime held before: after a pin that works :latest names the digest, which is present, an inspection made after it was pulled answered the id remembered, and the digest is the one handed over or what :latest was resolved to; one that fails is not remembered |
| Engine.VerifyPin | internal/engine/pin.go:71-93 | succeeds exactly when some container uses the pinned image and every one before it could be inspected |
| Engine.RunStep | internal/engine/engine.go:100-135 | a step other than a pin leaves the pin state alone |
| Engine.RunAttempt | internal/engine/attempts.go:59-70 | ends by the step's timeout, and past it no failure counts as permanent |
| Engine.AttemptsPromised | internal/ops/modifiers.go:63-68 | a step promises one attempt more than its retries, or three for image.pin and artifact.extract and one for any other op if none are written |
| Engine.RunAttempts | internal/engine/attempts.go:27-54 | never more attempts than promised, and all of them when each fails transiently and time remains; one pause between neighbours; an accepted step makes them within its budget |
| Engine.ScanMeansGuarded | internal/engine/engine.go:66-68 | the summary of the events agrees with the direct statement that the last pin was verified after the last compose.up |
| Engine.LastUp | internal/engine/engine.go:72-77 | the position of the last compose.up, or -1 |
| Engine.RunOp | internal/engine/engine.go:82-87 | one op records its start and end, and pins only if it is an image.pin that succeeded |
| Engine.Verify | internal/engine/engine.go:91-95 | records the verified id exactly when a listing of the containers shows it |
| Engine.Execute | internal/engine/engine.go:69-98 | succeeds exactly when every op was started in order and the last one succeeded; the events keep the law below; every image.pin pinned, and the last pin is guarded if and only if a compose.up follows it; the result is the last pinned digest, else the one handed over |
| Engine.NothingBehindAFailure | internal/engine/engine.go:78-96 | nothing follows the failure of an op |
| Engine.StartsInTime | internal/engine/engine.go:79-81 | no op starts once the execution's context is done |
| Engine.StartsOnThePinnedImage | internal/engine/pin.go:58-61 | whenever an op starts behind a pin, :latest names the digest pinned last |
| Engine.PinsAndVerificationsShow | internal/engine/pin.go:20-93 | every recorded pin shows in the runtime, every verification in a listing of the containers |
| Engine.Advance | internal/engine/engine.go:78-96 | one op with its retries and its verification carries what Execute promises one op further; when it fails, what was pinned is still accounted for |
| Answers.LocalAnswersArePossible | internal/scheduler/scheduler.go:230-256 | what Execute leaves behind on the main host is an answer the rollout allows for an execution with that many pins |
| Answers.EdgeAnswersArePossible | internal/edgehub/hub.go:324-375 | so is what the edge's executor returns, however its call ends |
| Answers.UnreachableExactly | internal/scheduler/scheduler.go:242-253 | of a call of Execute main records unreachable exactly when no edge was attached or it did not come back within its grace window, and the execution's deadline has not passed |
| Answers.UnreachableCanReadFailed | internal/scheduler/scheduler.go:244-251 | an edge that stays away makes the call return the unreachable error; past the deadline it is recorded as failed |
| Answers.ReadsUnreachableExactly | internal/scheduler/scheduler.go:204-257 | when runDeploy has returned, an execution reads unreachable if and only if Acquire reported it unreachable or Execute's answer was recorded so |
| Logs.Broadcaster.Subscribe | internal/store/logs.go:164-173 | adds a new empty channel to that deploy's subscribers only |
| Logs.Broadcaster.Unsubscribe | internal/store/logs.go:175-187 | removes and closes that channel, if it is subscribed |
| Logs.Broadcaster.Publish | internal/store/logs.go:189-198 | offers the event to exactly the subscribers of the deploy; a full channel drops it |
| Logs.OfferIsPublish | internal/store/logs.go:189-198 | what the interleaved machine offers a follower is what Publish does to its channel |
| Logs.Follow | internal/store/logs.go:104-150 | the replay, then Done at once if finished, else the live feed without replayed lines up to its first Done |
| Logs.RunKeeps | internal/store/logs.go:21-198 | every interleaving of writers, publisher and follower keeps the invariant |
| Logs.FollowerGetsEachLineOnce | internal/store/logs.go:81-152 | no line twice, replay first and in order, and Done exactly once, last, when the follower ends by itself |
| Logs.LiveDoneIsComplete | internal/store/logs.go:131-149 | a line published before a Done from the live feed was passed on if and only if it was replayed or did not find the feed full |
| Logs.NeverWaitsPastTheEnd | internal/store/logs.go:122-149 | once Done was published a live follower has it ahead if and only if it did not find the feed full |
| Logs.DoneStrandsExactly | internal/store/logs.go:189-198 | publishing Done strands a live follower if and only if its feed is full just then |
| Logs.StrandedExactly | internal/store/logs.go:122-198 | in every state of every run a follower is stranded if and only if it is still following and its feed was full when Done was published |
| Logs.RereadMissesExactly | internal/store/logs.go:126-130 | the re-read's Done comes after every published line if and only if neither the feed nor what it dropped holds one behind the replay |
| Logs.RereadCanSkipALine | internal/store/logs.go:126-130 | a run in which that happens with nothing dropped |
| Logs.StrandedForGood | internal/store/logs.go:189-198 | a follower whose Done was dropped stays without one whatever happens next |
| Logs.FullFeedStrands | internal/store/logs.go:189-198 | for every capacity a run that strands a follower |
| Sse.Reader.Next | internal/edge/sseread.go:32-62 | the loop computes the recursive definition of the next event, and leaves the rest unread |
| Sse.OneLineEvent | internal/httpapi/edge.go:225-232 | a one-line event comes back with its name trimmed and a final carriage return lost |
| Sse.CarriageReturnsDoNotMatter | internal/edge/sseread.go:37-37 | lines may end in a carriage return and a line feed |
| Sse.OtherFieldsIgnored | internal/edge/sseread.go:38-62 | an unknown field changes nothing |
| Sse.DataIsJoined | internal/edge/sseread.go:50-58 | data over several lines is joined by line feeds |
| Sse.FaithfulExactly | internal/httpapi/edge.go:225-232 | which events EventReadBack speaks of, in terms of their first and last characters |
| Sse.HeartbeatRead | internal/httpapi/edge.go:234-236 | a heartbeat comes back as the event without name and data |
| Sse.FurtherLinesShrink | internal/edge/sseread.go:51-58 | data over several lines comes back shorter than it was written |
| Sse.EventReadBack | internal/httpapi/edge.go:225-232 | an event comes back as it was meant if and only if name and body are on one line, the name has no space around it and the body no final carriage return |
| Sse.StreamReadBack | internal/edge/sseread.go:32-62 | a whole stream of events and heartbeats comes back in order if and only if every event is of that kind |
| Notify.Hub.constructor | internal/notify/notify.go:434-462 | each tunable is the configured value if that is positive, else its default |
| Notify.SameKeyExactly | internal/notify/notify.go:133-142 | two items are repeats exactly if they are the same deploy, or the same kind of news about the same node |
| Notify.Hub.Enqueue | internal/notify/notify.go:262-288 | collapses a repeat of a queued key, evicts the oldest when full, otherwise appends; keys stay distinct within the bound |
| Notify.EnqueuedBounded | internal/notify/notify.go:262-288 | what is enqueued is in the queue or stands for a repeat there, and the bound holds |
| Notify.Hub.PopIf | internal/notify/notify.go:410-416 | drops the head exactly when it has that key |
| Notify.Hub.SetAttempts | internal/notify/notify.go:418-424 | counts on the head exactly when it has that key |
| Notify.Hub.TryHead | internal/notify/notify.go:326-351 | one try of the head: it leaves when delivered or out of attempts, otherwise it is charged and the backoff of that attempt is waited |
| Notify.Hub.Drain | internal/notify/notify.go:326-351 | a pass nobody adds to ends empty, having tried every item in order until delivered or out of attempts, with the backoff of the attempt that failed between two tries of an item and no other pause |
| Notify.FewTries | internal/notify/notify.go:326-351 | such a pass makes at least one and at most maxAttempts tries per item |
| Notify.BackoffClosedForm | internal/notify/notify.go:437-448 | the doubling loop's pause is base·2^(n-1) capped at max, if and only if base is at most max or it is not the first |
| Notify.PauseBehind | internal/notify/notify.go:326-351 | one pause for each try followed by another of its item and none besides, behind that try and doubled for every try before |
| Notify.Backoff | internal/notify/notify.go:437-448 | the loop computes that pause |
| Notify.StepsAreTheHubs | internal/notify/notify.go:262-351 | the interleaved machine's steps change the queue as the hub's methods do |
| Notify.QueueIsBoundedSuffix | internal/notify/notify.go:262-351 | under any interleaving keys stay distinct, the bound holds, no item is tried more than maxAttempts times, and items leave oldest first |
| Notify.DeliveryRemovesItsItemExactly | internal/notify/notify.go:408-416 | a delivery removes the item delivered, or nothing if it was evicted, if and only if no other item of its key has taken its place |
| Notify.FailureChargesItsItemExactly | internal/notify/notify.go:418-424 | a failure to be retried is charged to the item tried, under exactly that condition |
| Notify.GivingUpRemovesItsItemExactly | internal/notify/notify.go:408-416 | a failure that gives up removes the item it gave up on, under exactly that condition |
| Notify.EvictedItemTakesItsSuccessor | internal/notify/notify.go:408-416 | for every bound and number of attempts a run in which a delivery removes news that was never sent |
| Watch.ServerState.Outage | internal/edgewatch/watcher.go:78-84 | the duration lies between 0 and the time since last seen |
| Watch.Watcher.Visit | internal/edgewatch/watcher.go:139-163 | one sample of one server |
| Watch.Watcher.Tick | internal/edgewatch/watcher.go:126-174 | every declared remote server is judged on its own and the others are forgotten |
| Watch.OfflineExactly | internal/edgewatch/watcher.go:155-163 | offline is reported if and only if the server is absent from this and every sample since last seen, for at least the positive threshold, and it was not reported yet |
| Watch.OfflineNamesVersion | internal/edgewatch/watcher.go:160-163 | the report names the version the edge had when it was last seen |
| Watch.OnlineExactly | internal/edgewatch/watcher.go:78-153 | an all-clear is reported if and only if the server is back after an announced outage, which lasted until the edge attached if that lies in the window observed, and until this sample otherwise |
| Watch.OfflineThenOnline | internal/edgewatch/watcher.go:135-164 | between two outage reports there is an all-clear |
| Watch.OnlineAfterOffline | internal/edgewatch/watcher.go:135-164 | before every all-clear there is an outage report with no all-clear in between |
| Watch.DurationsBounded | internal/edgewatch/watcher.go:78-84 | with an ordered clock every reported duration lies between 0 and the time since last seen |

## Left out

- Rollout goroutines: runDeploy and runExecution are a step system over values, not methods, because their interleavings are the point; store writes are assumed to succeed.
- Hub, agent and network together: EdgeSession keeps the hub's and the agent's state as values and calls the functions their methods are proved against; the pointer identity of an in-flight call is a ticket, and the frames of one session are an unordered set.
- EdgeSessionProof.OrphanNeverStarted: assumes session requests reach main in dial order; LaterDialOrphansOnlyUnstarted and AttachKillsLiveWorkExactly say without it what the order decides.
- EdgeHubRuns.FirstTerminalWins: an execution is dispatched at most once, which the compare-and-set from queued guarantees; a context that ends may pre-empt the result.
- Two edge processes that share one token, sessions over gRPC (which cannot resume), the version handshake beyond "new enough for the pipeline", and edge log and op-boundary frames.
- sseConn: its bounded queue and its kick channel are one step that may fail, and its socket handling is not modelled.
- HTTP, gRPC and TCP plumbing, keepalives, authentication and tokens.
- SQL text, migrations, time formatting, retention, op records and the contents of log lines: tables are maps and the creation order of deploys is given.
- What commands other than those of image.pin do to the :latest tag, a compose.pull behind the pin above all: Engine.StartsOnThePinnedImage speaks of what the execution itself does to it.
- Which pipelines need an edge that honors step modifiers (NeedsModifierSupport) and how versions compare: both reach the hub as booleans.
- Docker commands, processes, downloads, archives, health checks, env files and directory swaps: an op other than image.pin is a command that may end any way.
- A digest that is not of the sha256 form cannot be written down in the model: BuildDeploy refuses it, and the engine's second check of the digest handed to it is not modelled.
- Interpolate.InterpolateValue: returns a new value where the source updates a deep copy in place; which of several failing map entries is reported is left open, as it is in the source.
- YAML decoding, JSON encoding of snapshots and payloads, and schema generation: the model starts from typed steps, takes the encoding as exact, and keeps a number as the text it is written as.
- Webhook, repository and notification settings of a service, and the classification and rendering of notifications.
- The status carried by a Done event, and subscriptions to several deploys by one follower.
- Notify: a pass that is cut short by shutdown, and the configuration reload between tries; delivery may fail or succeed arbitrarily.
- Watch: the order in which servers are visited within a sample, which the source leaves open too.
- Negative service timeouts, which the loader takes as they are: a timeout is a natural number.
- Machine-integer overflow of durations, retry counts and sequence numbers.
- Web UI, command line and API documents: no property of this kind lives there.
