# ArkheKernel: a verified model

ArkheKernel is a deterministic, single-threaded state machine with a replayable log. This project models the path
from admission to replay: what `submit` lets in, how `step` pops, gates, stages and commits one action per instance
and routes its signals, what the Canonical Input Log records, and how replay re-derives the rest.

There are two levels. Values and functions describe what each operation does to a state (`InstanceSnapshot`,
`KernelState`, `WalState`, ...). Classes with fields and loops, in the form of the source (`Scheduler`,
`ResourceLedger`, `Instance`, `StepStage`, `WalWriter`, `ObserverRegistry`, `Kernel`), are proved to do exactly that.
The theorems about runs are stated over the functions; `Driver.Drive` carries them over to the objects.

| file | models |
|---|---|
| `Abi.dfy`, `Event.dfy`, `Authz.dfy` | identifiers, saturating arithmetic, events and masks, the authorization gate |
| `Validation.dfy` | which fault the scheduler's validator names |
| `Sums.dfy`, `Ledger.dfy` | resource accounting and its cached total |
| `Scheduler.dfy`, `SchedulerList.dfy` | the three-table scheduler, its validator, and the plain list it refines |
| `Instance.dfy`, `Stage.dfy`, `Step.dfy` | one instance, the step stage (dispatch and commit), one pop |
| `Verdicts.dfy`, `Effects.dfy` | what one pop answers and leaves, in terms of the action's own operations, without gates, dispatcher or stage |
| `Mail.dfy`, `Reports.dfy` | what lies in an inbox, and what the reports of a step and a replay count |
| `Kernel.dfy`, `KernelObject.dfy`, `Observer.dfy`, `Driver.dfy` | the orchestrator as values and as an object; observers; a caller that drives it through a run |
| `Admission.dfy` | what is admitted and what is logged |
| `Wal.dfy`, `WalTheorems.dfy` | records, hash chain, verification, and what a tip pins down |
| `Replay.dfy`, `ReplayObject.dfy`, `ReplayTheorems.dfy`, `ReplayLimits.dfy`, `ReplayDrift.dfy`, `ReplayExact.dfy`, `ReplayAnchored.dfy` | replay, its completeness and soundness, what an anchor adds, and exactly which runs the log is too short for |
| `Scenarios.dfy` | literal runs from an empty kernel at which documented promises fail |
| `Moves.dfy`, `Invariants.dfy`, `Limits.dfy`, `Projection.dfy`, `Signals.dfy`, `Isolation.dfy`, `Narrowing.dfy`, `Restoring.dfy` | properties of every run |
| `Quota.dfy` | distribution of a shrinking quota over children |

Reading aids: `Run(reg, k, inputs)` is the kernel after a sequence of creations, submissions, steps and forced unloads;
`React` is one of them; `Process` is one popped action end to end; `Private(i)` is an instance without inbox and
in-flight counts; a "move" is anything that can happen to one instance; an "occasion" is one pop of a run with the
instance as it then stands.

## Model

| member | source | states |
|---|---|---|
| `ReplayTheorems.ReplayReproducesRun` | arkhe-kernel/src/persist/replay.rs:238-369 | the log of any run of any length (submissions accepted or refused, steps, creations, unloads in any order), replayed into a kernel with the same registry and manifest in which the same instances were created first, is accepted, ends in equal instances and measures the live tip, provided no unload found a reference and no signal was lost for want of an instance created later |
| `ReplayTheorems.ReplayReproducesRecordedRun` | arkhe-kernel/src/persist/replay.rs:227-369 | with the instances created up front and no unload, every run of submissions and steps is reproduced with no further assumption |
| `ReplayExact.ReplayReproducesExactly` | arkhe-kernel/src/persist/replay.rs:227-369 | a run of submissions, steps, creations and unloads in any order is reproduced bit for bit if and only if no unload found a reference to drop and no signal was lost for want of an instance created later; late instances uncapped, starting counts positive, final counts below their caps |
| `ReplayExact.LeadReact` | arkhe-kernel/src/runtime/kernel.rs:284-607 | the replica's mail never falls behind the live mail, and whatever the log failed to tell stays visible in it |
| `Scenarios.UnloadedRunIsNotReproduced` | arkhe-kernel/src/runtime/kernel.rs:284-307 | a literal run replay does not reproduce: an instance signals itself, the route is unloaded, the instance steps again |
| `Scenarios.LateCreationIsNotReproduced` | arkhe-kernel/src/persist/replay.rs:345-355 | a literal run replay does not reproduce: a signal names an instance that is created afterwards |
| `ReplayTheorems.ReplayAcceptsExactly` | arkhe-kernel/src/persist/replay.rs:238-343 | a verified log replays successfully if and only if re-execution derives every recorded popped id, verdict and digest, the sequence numbers are 1, 2, 3, ... and a non-empty log was verified for the world its header names; the instances reached are then the re-derived ones |
| `ReplayAnchored.AnchoredReplayIsTheRun` | arkhe-kernel/src/persist/replay.rs:371-386 | end to end: against an anchor that pins the tip of a traceable live run, an arbitrary log that verified replay accepts ends in the instances that run reached; and it accepts exactly the logs that pass the header gates and the anchored chain and name that world |
| `ReplayAnchored.PinnedReplays` | arkhe-kernel/src/persist/replay.rs:238-343 | an arbitrary log under an anchor that pins the tip of a replayable one replays if and only if its header names the world it is checked under, and then to the same instances |
| `ReplayTheorems.LoopFollowsRederivation` | arkhe-kernel/src/persist/replay.rs:245-330 | the record loop runs through exactly when the entries re-derive themselves, and its writer has then appended exactly them |
| `ReplayTheorems.WriterContents` | arkhe-kernel/src/persist/wal.rs:442-546 | a writer rebuilt from a header numbers the entries consecutively from one and holds a chain that checks |
| `ReplayTheorems.ProcessAhead` | arkhe-kernel/src/runtime/kernel.rs:487-607 | a step goes the same way among instances that do not exist yet, if it signals none of them |
| `ReplayTheorems.RunKeepsLogging` | arkhe-kernel/src/runtime/kernel.rs:368-379 | along any run the attached writer keeps its header and a chain that verifies |
| `ReplayTheorems.RefusalNamesFirstDivergence` | arkhe-kernel/src/persist/replay.rs:245-337 | a replay that fails names the first record re-execution contradicts, by what and with the recorded fact as the expected one; or, if none does, the sealed tip as expected and the measured one |
| `Reports.ReplayReportsTheRun` | arkhe-kernel/src/persist/replay.rs:238-342 | for any run at all, an accepted replay of its log reports as many submissions as were accepted, as many steps as there were pops, and the totals the live pops applied and denied, capped at 32 bits |
| `Reports.AcceptedReplayCounts` | arkhe-kernel/src/persist/replay.rs:238-342 | an accepted replay of any log reports as many submissions and steps as the log records and the totals of what those steps, run again, applied and denied |
| `ReplayDrift.OnlyDigestsDiverge` | arkhe-kernel/src/persist/replay.rs:283-342 | for any run at all, unloads and late creations included, replay of the live log is accepted or stopped by a state digest: it never runs out of due work, meets another popped id or verdict, or measures another tip, and what it reaches differs from the live instances in their mail at most |
| `ReplayDrift.StepInStep` | arkhe-kernel/src/persist/replay.rs:278-327 | one replayed step pops the live id, reaches the live verdict and the live private state |
| `ReplayDrift.AdmittedAlike` | arkhe-kernel/src/runtime/kernel.rs:390-423 | replay-side admission succeeds wherever the live one did and leaves the same private state |
| `ReplayLimits.MailDivergesExactly` | arkhe-kernel/src/persist/replay.rs:283-306 | where the replica's instance has the live one's private state, replaying the live step stops if and only if inbox, inbox sequence or in-flight counts differ, and it stops at the state digest |
| `ReplayLimits.UnloadDivergesExactly` | arkhe-kernel/src/runtime/kernel.rs:284-307 | a forced unload is not logged: replay of the next step of an instance diverges if and only if the instance held references on the route |
| `ReplayLimits.EarlySignalDivergesExactly` | arkhe-kernel/src/persist/replay.rs:345-355 | replay needs its instances up front: where one batch of signals was routed before an instance was created and its first submission queued, replay of its first step diverges if and only if the batch named it |
| `ReplayLimits.EarlyCreationShowsExactly` | arkhe-kernel/src/runtime/kernel.rs:561-599 | creating an instance before a batch of signals is routed leaves it other than fresh if and only if one of them names it |
| `ReplayObject.ReplayRecords` | arkhe-kernel/src/persist/replay.rs:238-343 | the loop over a kernel object and a rebuilt writer computes the replay function: instances, counters, measured tip, first error |
| `ReplayObject.ReplayEach` | arkhe-kernel/src/persist/replay.rs:245-330 | every record in order until the first failure, with the kernel as it then stands |
| `ReplayObject.ReplayStep` | arkhe-kernel/src/persist/replay.rs:278-327 | re-executes one recorded step, then compares popped id, verdict and digest in that order; a missing or idle instance is an underflow |
| `ReplayObject.ReplaySubmit` | arkhe-kernel/src/persist/replay.rs:247-277 | re-admits one recorded submission under its recorded id and re-seals it |
| `ReplayObject.ReplayInto` | arkhe-kernel/src/persist/replay.rs:355-369 | the five header gates in order, the manifest and the chain are checked before any record is applied |
| `ReplayObject.ReplayIntoVerified` | arkhe-kernel/src/persist/replay.rs:377-386 | the five header gates in order and the anchored chain, under the caller's world id, are checked before any record is applied |
| `Replay.HeaderGateExactly` | arkhe-kernel/src/persist/replay.rs:188-225 | condition of a documentation disagreement below: the gates pass exactly the logs of this magic, kernel major, ABI, codec and hash; the first that fails decides, in that order, and its error carries the running version as expected and the header's as got |
| `Replay.OtherMajorIsReported` | arkhe-kernel/src/persist/replay.rs:197-202 | headers of another kernel major, ABI, codec or hash are reported with this kernel's as the expected one |
| `WalTheorems.TipDeterminesHistory` | arkhe-kernel/src/persist/wal.rs:599-659 | two logs that verify under one world id with equal tips hold equal contents in equal order and number |
| `WalTheorems.AnchoredExcludesForgery` | arkhe-kernel/src/persist/wal.rs:684-725 | a log accepted against an anchor that pins an honest tip has exactly the honest contents, and carries the pinned keys' signatures on every record |
| `WalTheorems.EveryWrittenLogVerifies` | arkhe-kernel/src/persist/wal.rs:457-491 | whatever a writer is given to record, under any signature class, its log verifies under its own world id |
| `WalTheorems.AppendKeepsSound` | arkhe-kernel/src/persist/wal.rs:473-546 | one more record keeps the whole chain verifiable |
| `WalTheorems.WorldIsPinned` | arkhe-kernel/src/persist/wal.rs:390-393 | a non-empty log verifies under at most one world id |
| `WalTheorems.HashDeterminesContents` | arkhe-kernel/src/persist/wal.rs:612-657 | equal running hashes come from equal contents and equal keys |
| `WalTheorems.ResealAgrees` | arkhe-kernel/src/persist/wal.rs:437-452 | re-sealing the same entries measures the same hashes whoever signs |
| `WalTheorems.ChainAcceptsExactly` | arkhe-kernel/src/persist/wal.rs:599-659 | a log verifies if and only if its header's keys are usable and every record follows the one before it, hashes to what it says under that world and carries their signatures |
| `WalTheorems.RefusalNamesFirst` | arkhe-kernel/src/persist/wal.rs:612-657 | a refused log names its first faulty record and what is wrong with it |
| `WalTheorems.AnchorAcceptsExactly` | arkhe-kernel/src/persist/wal.rs:684-725 | an anchored log is accepted if and only if its header reaches the tier floor, carries each pinned key and the pinned manifest, its chain verifies and it ends in the pinned tip; each refusal has its exact condition |
| `Wal.VerifyRecords` | arkhe-kernel/src/persist/wal.rs:599-659 | the verification loop returns the first refusal in record order, or acceptance |
| `Wal.FirstRefusalStands` | arkhe-kernel/src/persist/wal.rs:612-657 | once a record is refused no later record changes the answer |
| `Wal.VerifyAnchored` | arkhe-kernel/src/persist/wal.rs:684-725 | tier floor, both key pins, manifest, chain and sealed tip, in that order |
| `Wal.WalWriter.AppendEntry` | arkhe-kernel/src/persist/wal.rs:473-546 | the whole new writer state: the sealed record under the next sequence number and the new running hash |
| `Wal.WalWriter.SealBody` | arkhe-kernel/src/persist/wal.rs:457-471 | keyed hash over the previous hash and the body; one, two or no signatures over the same body |
| `Wal.WalWriter.Rebuild` | arkhe-kernel/src/persist/wal.rs:442-452 | a measurement-only writer: same chain key, fresh chain, no signing |
| `Isolation.RunIsolated` | arkhe-kernel/src/runtime/kernel.rs:440-607 | over any run an instance's admissions, popped ids, verdicts, counts and private state are those of that instance run alone on its own submissions and the same steps |
| `Isolation.ProcessIsPrivate` | arkhe-kernel/src/runtime/kernel.rs:487-607 | one processed instance moves its own private state as its step says and nobody else's at all |
| `Isolation.StepReadsPrivate` | arkhe-kernel/src/runtime/kernel.rs:651-892 | what a step does and reports, digest aside, depends on private state only |
| `Isolation.RouterKeepsPrivate` | arkhe-kernel/src/runtime/kernel.rs:561-605 | the router changes inboxes and in-flight counts and nothing else |
| `Narrowing.CapabilitiesOnlyNarrow` | arkhe-kernel/src/runtime/dispatch.rs:99-125 | in every state of every run each queued entry has its root submission's principal and a ceiling within that submission's caps; one scheduled from inside is also within the defaults and every session ceiling its ancestors ran under |
| `Narrowing.StepTraced` | arkhe-kernel/src/runtime/kernel.rs:714-720 | the children of one step are bounded by their parent's lineage extended with this step's session |
| `Authz.EffectiveCaps` | arkhe-kernel/src/state/authz.rs:120-129 | a bit is resolved if and only if the principal is authenticated and both the defaults and the ceiling have it |
| `Authz.AuthorizedExactly` | arkhe-kernel/src/state/authz.rs:141-175 | the gate passes exactly the authenticated effects, with the SYSTEM bit where scheduling or signalling is asked for |
| `Authz.AuthorizationMonotone` | arkhe-kernel/src/state/authz.rs:141-175 | widening the mask never turns an allowed operation into a denied one |
| `Verdicts.AuthDeniedExactly` | arkhe-kernel/src/runtime/kernel.rs:714-860 | a popped action of a registered, decodable type is denied if and only if its principal is unauthenticated and it computes anything, or it computes a schedule or a signal and SYSTEM is missing from the instance's defaults, the entry's ceiling or the session |
| `Verdicts.AdmittedExactly` | arkhe-kernel/src/runtime/kernel.rs:743-833 | an authorized operation goes through if and only if the byte projection with it fits a set budget, a spawn finds entities before the step plus spawns admitted so far below a set limit, and a schedule likewise against the queue after the pop; a refusal names the first of the three it does not fit |
| `Verdicts.StepAnswers` | arkhe-kernel/src/runtime/kernel.rs:714-892 | what a step answers in terms of the operations the action computes: denied on one failed authorization, with nothing applied or sent; otherwise committed if and only if nothing was refused, partial with the number of refusals, as many applied as were admitted, failures and domain events in the order of the operations, the admitted signals under the action's principal; and `compute` is shown exactly the actor, tick, instance, entity and component counts and local tick |
| `Verdicts.IdleExactly` | arkhe-kernel/src/runtime/kernel.rs:660 | a step does nothing exactly when nothing queued has come due |
| `Verdicts.SkipAnswers` | arkhe-kernel/src/runtime/kernel.rs:673-712 | an action that cannot run is popped and named, and changes, sends and counts nothing |
| `Effects.CommitLeaves` | arkhe-kernel/src/runtime/apply.rs:39-159 | what a committed step leaves, place by place: the last spawn or despawn decides an entity, the last set to a living entity or removal decides a component and its accounted size, each child is filed, the counters move by the admitted operations, and nothing else changes |
| `Effects.ChildFollowsOperation` | arkhe-kernel/src/runtime/dispatch.rs:99-125 | each admitted schedule has its child, under the next id in order, at the operation's own tick, with its actor, type and bytes, the action's principal, and exactly the bits the defaults, the action's ceiling and the session have in common |
| `Effects.RollbackLeaves` | arkhe-kernel/src/runtime/kernel.rs:844-860 | a denied step leaves the instance as it was without the popped entry |
| `Step.StagingPreservesMeaning` | arkhe-kernel/src/runtime/apply.rs:39-159 | committing the buckets one after another equals executing the admitted operations one at a time in order, with the same signals; any other verdict leaves exactly the state after the pop |
| `Step.DeniedExactly` | arkhe-kernel/src/runtime/kernel.rs:743-860 | a step rolls back exactly when some operation fails authorization; quota refusals never roll back and nothing undoes a denial |
| `Step.GatedStandsFor` | arkhe-kernel/src/runtime/kernel.rs:743-842 | whatever the gates decide, the stage stands for exactly the operations they admitted |
| `Stage.DispatchExtends` | arkhe-kernel/src/runtime/dispatch.rs:23-144 | dispatching one more operation extends what the stage stands for by that operation |
| `Stage.ApplyAfterDispatch` | arkhe-kernel/src/runtime/apply.rs:39-159 | applying a stage with one more dispatched operation is applying the stage, then executing the operation |
| `Stage.DispatchInto` | arkhe-kernel/src/runtime/dispatch.rs:23-144 | the bucket entries of one authorized operation and the next scheduled id |
| `Stage.CommitStage` | arkhe-kernel/src/runtime/apply.rs:39-159 | the whole new instance after all buckets are drained, which buckets are empty afterwards, and the signals handed out |
| `Stage.DrainStateOps` | arkhe-kernel/src/runtime/apply.rs:54-88 | entity and component changes, sets gated on a live entity |
| `Stage.DrainLedgerOps` | arkhe-kernel/src/runtime/apply.rs:90-117 | the accounting bucket applied to the ledger |
| `Stage.DrainScheduleDeltas` | arkhe-kernel/src/runtime/apply.rs:119-148 | staged schedules enter the scheduler under their own ids; no lookup can fail |
| `Stage.StepStage.Clear` | arkhe-kernel/src/runtime/stage.rs:57-78 | all nine buckets are as in a new stage, whatever an earlier action left |
| `Step.ProjectComponentBytes` | arkhe-kernel/src/runtime/stage.rs:165-186 | the projection loop over the staged accounting operations |
| `Step.CheckQuotas` | arkhe-kernel/src/runtime/kernel.rs:747-833 | the first of the three quota gates that refuses an operation |
| `Step.GateLoop` | arkhe-kernel/src/runtime/kernel.rs:731-842 | the gate loop's stage, counters and id cursor over one action's operations |
| `Step.RunPopped` | arkhe-kernel/src/runtime/kernel.rs:661-892 | skip, roll back or commit one popped entry, independently of what the scratch held |
| `Step.StepOneCore` | arkhe-kernel/src/runtime/kernel.rs:651-892 | at most one due entry is popped and run; otherwise the instance is untouched |
| `KernelObject.Kernel.Submit` | arkhe-kernel/src/runtime/kernel.rs:325-381 | the whole new kernel and the answer: unknown instance, back-pressure, or the next id, queued and logged |
| `KernelObject.Kernel.SubmitWithId` | arkhe-kernel/src/runtime/kernel.rs:390-423 | replay-side admission: recorded id, counter raised to it, no back-pressure, no record |
| `KernelObject.Kernel.Step` | arkhe-kernel/src/runtime/kernel.rs:429-474 | instances, log and report of a pass are those of the observer-free kernel whatever the observers are and do; the observers are shown exactly the pass's events in order; evictions are counted from those |
| `Reports.StepReports` | arkhe-kernel/src/runtime/kernel.rs:429-474 | a step's report is the number of its pops and the totals of what they applied, denied and emitted, capped at 32 bits |
| `Reports.PopAnswers` | arkhe-kernel/src/runtime/kernel.rs:487-607 | what one pop reports and shows the observers, in terms of the action's own operations: staged events, the announcement of a commit, then the router's |
| `KernelObject.Kernel.VisitInstance` | arkhe-kernel/src/runtime/kernel.rs:441-471 | one instance of a pass: nothing, or its effect, its tally and one record |
| `KernelObject.Kernel.ProcessInstanceRecord` | arkhe-kernel/src/runtime/kernel.rs:487-607 | one due action end to end; a missing instance or an empty queue changes nothing |
| `KernelObject.Kernel.FinishStep` | arkhe-kernel/src/runtime/kernel.rs:530-604 | staged events first, ActionExecuted only after a commit, then one event per routed signal |
| `KernelObject.Kernel.RouteSignal` | arkhe-kernel/src/runtime/kernel.rs:561-599 | one signal delivered and counted, or dropped for a full queue or a missing target |
| `KernelObject.Kernel.ForceUnload` | arkhe-kernel/src/runtime/kernel.rs:284-307 | with the unload capability the route is dropped everywhere, the count returned and announced; without it nothing happens |
| `KernelObject.Kernel.CreateInstance` | arkhe-kernel/src/runtime/kernel.rs:204-209 | a fresh instance under the next instance id |
| `KernelObject.Kernel.RegisterAction` | arkhe-kernel/src/runtime/kernel.rs:178-180 | the registry gains or replaces one action type |
| `KernelObject.Kernel.Snapshot` | arkhe-kernel/src/runtime/kernel.rs:229-236 | instances and instance counter, and nothing else, are captured |
| `KernelObject.Kernel.FromSnapshot` | arkhe-kernel/src/runtime/kernel.rs:241-256 | a kernel with the captured instances, no actions, no observers and no log |
| `Driver.Drive` | arkhe-kernel/src/runtime/observer.rs:73-98 | over any run of any inputs the kernel object ends where the observer-free run ends, instances and log alike, and the observers are shown exactly the run's events in order, whatever they are and do |
| `Driver.Perform` | arkhe-kernel/src/runtime/kernel.rs:204-474 | one input of any kind: the observer-free reaction, and its events to the observers |
| `Admission.StepPopsTheDue` | arkhe-kernel/src/runtime/kernel.rs:429-474 | a step pops exactly the instances whose head was due before it, each once and in ascending order, whatever they send each other during the pass |
| `Admission.StepWritesItsPops` | arkhe-kernel/src/runtime/kernel.rs:457-470 | a step appends the records of its pops, in order, as many as there are instances due before it: one record if and only if exactly one instance is due |
| `Admission.PassPopsDue` | arkhe-kernel/src/runtime/kernel.rs:429-474 | a pass over distinct instances pops those due at its start, and never touches the private state of an instance it does not visit |
| `Admission.RunWritesExactly` | arkhe-kernel/src/runtime/kernel.rs:368-470 | over any run the log is exactly the accepted submissions and the pops, in order |
| `Admission.PassPopsOccasions` | arkhe-kernel/src/runtime/kernel.rs:429-474 | the pops of a pass are the steps of its occasions, in order |
| `Admission.SubmitAcceptsExactly` | arkhe-kernel/src/runtime/kernel.rs:325-381 | condition of a documentation disagreement below: a submission is accepted if and only if its instance exists and its queue is below a set limit, whatever its type and bytes; a refusal changes nothing |
| `Admission.SkippedExactly` | arkhe-kernel/src/runtime/kernel.rs:673-712 | condition of a documentation disagreement below: exactly an unregistered type is skipped as such when its entry runs, exactly undecodable bytes as such, and a skip leaves the state after the pop |
| `Admission.SubmitPinsCaps` | arkhe-kernel/src/runtime/kernel.rs:357-365 | a submission is queued under the next id at its tick with its actor, principal, type, bytes and exactly the caps it was granted, and nothing else is touched: all-permissive if and only if those caps are |
| `Admission.ReadmitsExactly` | arkhe-kernel/src/runtime/kernel.rs:390-423 | on replay an admission takes the recorded id, is never refused for want of room, and raises the counter to that id but never lowers it |
| `Admission.CreatedIsEmpty` | arkhe-kernel/src/runtime/kernel.rs:204-209 | a created instance has the configuration asked for, the next id and nothing in it; the others and the log are as they were |
| `Scenarios.UnregisteredIsAcceptedThenSkipped` | arkhe-kernel/src/runtime/kernel.rs:175-180 | a literal run in which an unregistered type is accepted, then skipped at its pop |
| `Scenarios.IdleStepWritesNothing` | arkhe-kernel/src/persist/wal.rs:375-376 | a step with nothing due writes no record |
| `Scenarios.CeilingIsNotPermissive` | arkhe-kernel/src/state/scheduler.rs:62-71 | a submission granted one capability is queued under that one alone |
| `Restoring.RestoreIsBisimulation` | arkhe-kernel/src/runtime/kernel.rs:229-256 | a restored kernel with the same registry answers every later sequence of inputs with the same ids, verdicts, counts and events and passes through the same instance states |
| `Restoring.ReachableSnapshotsValidate` | arkhe-kernel/src/persist/snapshot.rs:94-102 | every snapshot of a run passes validation while no instance has exhausted its scheduled ids |
| `Restoring.ValidateStructure` | arkhe-kernel/src/persist/snapshot.rs:94-102 | accepts exactly the snapshots whose schedulers are all consistent; a refusal names the first faulty instance and its first fault |
| `Restoring.ValidatedRestoresSafely` | arkhe-kernel/src/persist/snapshot.rs:51-63 | no scheduler lookup can fail in a kernel restored from a validated snapshot |
| `Scheduler.Scheduler.Validate` | arkhe-kernel/src/state/scheduler.rs:249-299 | Ok exactly when `ready` and `by_id` are inverse, `by_actor` is the exact nonempty index and the counters dominate; otherwise the first fault in the order the tables are walked, and it is really there |
| `Validation.FirstFaultIsFirst` | arkhe-kernel/src/state/scheduler.rs:249-299 | the fault named is the first on the validator's way: sizes, the queue in key order, the actors and their ids ascending, the queue against the actors, the counters |
| `Scheduler.CountingClosesInverse` | arkhe-kernel/src/state/scheduler.rs:250-262 | with equal sizes, `ready` mapping into `by_id` and back leaves nothing over in `by_id` |
| `Scheduler.AcceptedTablesNeverPanic` | arkhe-kernel/src/state/scheduler.rs:185-243 | on accepted tables no lookup of a cancel or a pop can fail |
| `Scheduler.OperationsKeepAnchored` | arkhe-kernel/src/state/scheduler.rs:146-243 | every operation keeps every lookup safe, even when ids repeat or counters saturate |
| `Scheduler.InsertKeepsConsistent` | arkhe-kernel/src/state/scheduler.rs:146-179 | scheduling under a fresh id keeps the three tables in lockstep |
| `Scheduler.CancelKeepsConsistent` | arkhe-kernel/src/state/scheduler.rs:185-200 | cancelling keeps the three tables in lockstep |
| `Scheduler.ActorCancelKeepsConsistent` | arkhe-kernel/src/state/scheduler.rs:207-220 | bulk cancellation keeps the three tables in lockstep |
| `Scheduler.PopIsCancel` | arkhe-kernel/src/state/scheduler.rs:224-243 | popping an entry is cancelling its id |
| `Scheduler.Scheduler.Schedule` | arkhe-kernel/src/state/scheduler.rs:102-140 | the entry is queued under the id after the last one seen |
| `Scheduler.Scheduler.ScheduleWithId` | arkhe-kernel/src/state/scheduler.rs:146-179 | the whole new scheduler after queueing under a given id |
| `Scheduler.Scheduler.Cancel` | arkhe-kernel/src/state/scheduler.rs:185-200 | removes a known id from all tables and returns its entry; an unknown id changes nothing |
| `Scheduler.Scheduler.CancelByActor` | arkhe-kernel/src/state/scheduler.rs:207-220 | takes the actor's ids out in ascending order on any tables; where lookups are safe it removes every entry of the actor and returns them in id order |
| `Scheduler.Scheduler.PopDue` | arkhe-kernel/src/state/scheduler.rs:224-243 | removes the least key if it is due; otherwise nothing changes |
| `SchedulerList.TablesRefineList` | arkhe-kernel/src/state/scheduler.rs:146-243 | any interleaving of scheduling, cancelling, bulk cancelling and popping takes out the same entries as a plain insertion-ordered list whose pop removes the first entry of least tick |
| `SchedulerList.NewSchedulerHoldsNothing` | arkhe-kernel/src/state/scheduler.rs:86-94 | a new scheduler is consistent and holds the empty list |
| `SchedulerList.DrainIsStableSort` | arkhe-kernel/src/state/scheduler.rs:43-50 | draining yields the list stably sorted by tick |
| `SchedulerList.SortByTickIsStable` | arkhe-kernel/src/state/scheduler.rs:43-50 | the reference sort ascends by tick and keeps the order and number of the entries of each tick |
| `SchedulerList.CancelledInSchedulerOrderExactly` | arkhe-kernel/src/state/scheduler.rs:202-220 | bulk cancellation returns scheduler order, as documented, if and only if no entry of the actor is due before one scheduled earlier |
| `SchedulerList.CancelledOutOfOrder` | arkhe-kernel/src/state/scheduler.rs:202-220 | two entries that come back in the opposite order |
| `Invariants.CancelledInSchedulerOrderInEveryRun` | arkhe-kernel/src/state/scheduler.rs:202-220 | the same in every reachable state whose ids are not exhausted, with no assumption on the tables |
| `SchedulerList.CancelledIsWhatGoes` | arkhe-kernel/src/state/scheduler.rs:207-220 | the returned sequence holds exactly the entries the list loses, each once |
| `Invariants.StoresAgreeInEveryRun` | arkhe-kernel/src/runtime/apply.rs:54-117 | in every reachable state entities and components agree with the ledger key by key, every component's entity is live, and the cached total never overstates |
| `Invariants.TotalsExactInEveryRun` | arkhe-kernel/src/state/ledger.rs:106-140 | through any run from exact totals, the cached total of every instance is the true sum at every point of every step if and only if that sum fits 64 bits at every such point; every state reached is then exact, whatever the budgets |
| `Invariants.TotalExactWhileItFits` | arkhe-kernel/src/state/ledger.rs:106-140 | the same for the operations of one action |
| `Invariants.IdsInStepInEveryRun` | arkhe-kernel/src/runtime/kernel.rs:354-366 | in every reachable state scheduler and instance counters are equal and, below saturation, the scheduler passes its validator |
| `Invariants.NewIdsExceedOldOnes` | arkhe-kernel/src/runtime/dispatch.rs:105-124 | below saturation every newly queued id exceeds every id queued before |
| `Ledger.ResourceLedger.DropEntity` | arkhe-kernel/src/state/ledger.rs:87-104 | the cascade loop removes every component of the entity and subtracts and returns the sum of their stored sizes |
| `Ledger.ResourceLedger.PutComponent` | arkhe-kernel/src/state/ledger.rs:110-126 | a replace moves the total by the difference; an unknown entity is refused |
| `Ledger.ResourceLedger.DropComponent` | arkhe-kernel/src/state/ledger.rs:132-140 | the stored size is subtracted, the declared one ignored |
| `Ledger.CacheExactWhenItFits` | arkhe-kernel/src/state/ledger.rs:80-140 | from an exact cache one operation leaves an exact cache if and only if the new true sum fits 64 bits |
| `Ledger.CacheNeverOverstates` | arkhe-kernel/src/state/ledger.rs:80-140 | whatever saturates, the cache never claims more than is stored |
| `Limits.CountsHoldInEveryRun` | arkhe-kernel/src/runtime/kernel.rs:797-833 | non-zero entity and schedule limits bound every reachable state across submissions, pops, spawns, despawns and children of one step |
| `Limits.BudgetHoldsInEveryRun` | arkhe-kernel/src/runtime/kernel.rs:747-796 | from any kernel within its budgets, through any run none of whose committed steps credits the removal of a stored component twice, every budget below the 64-bit maximum holds with an exact total |
| `Limits.BudgetHoldsWhereNothingIsRemovedTwice` | arkhe-kernel/src/runtime/kernel.rs:747-796 | in particular when nothing computed along the run names one component in two removals |
| `Limits.StepKeepsBudget` | arkhe-kernel/src/runtime/kernel.rs:747-796 | one step keeps the budget when its staged removals credit no stored component twice, despite replaces, despawn cascades and sets on unknown entities |
| `Limits.ProjectionBounds` | arkhe-kernel/src/runtime/stage.rs:145-186 | the projection is an upper bound on the post-commit total when removals credit no stored component twice |
| `Limits.DoubleRemovalBreaksBudget` | arkhe-kernel/src/runtime/kernel.rs:766-787 | removing one component twice lets an instance within its budget of 10 end the step with 15 bytes, every operation admitted |
| `Scenarios.DoubleRemovalOverruns` | arkhe-kernel/src/runtime/kernel.rs:766-787 | a literal run from an empty kernel that ends with 15 bytes under a budget of 10 |
| `Projection.UpperBoundExactly` | arkhe-kernel/src/runtime/stage.rs:145-186 | the documented upper bound holds on every ledger if and only if the staged operations remove no component twice |
| `Projection.DoubleRemovalMisleads` | arkhe-kernel/src/runtime/stage.rs:155-181 | for every list with a double removal, a ledger on which the projection falls below what is stored |
| `Signals.SignalsConserved` | arkhe-kernel/src/runtime/kernel.rs:556-604 | over any run a route's queue grows by exactly the deliveries announced and its in-flight count is the number announced since its last unload |
| `Signals.InboxSoundInEveryRun` | arkhe-kernel/src/state/instance.rs:308-322 | below saturation the queue lengths add up to `inbox_seq` and stamps increase strictly; a non-zero depth limit bounds every queue |
| `Signals.EachSignalAnsweredOnce` | arkhe-kernel/src/runtime/kernel.rs:561-604 | each staged signal is answered once, in order: refused for want of a target exactly when there is none, for a full queue exactly when the queue is full at the moment it is routed, delivered otherwise |
| `Mail.RunHolds` | arkhe-kernel/src/runtime/kernel.rs:561-604 | over any run each queue of an instance is what it held followed by one entry for each signal delivered to it on that route, in order: the sending instance, the principal it was sent under, its payload, and the receiver's next stamp |
| `Mail.ActionPosts` | arkhe-kernel/src/runtime/dispatch.rs:126-143 | what a committed action posts is what its admitted operations ask to send, in order, from its own instance and under its own principal |
| `Mail.BatchLandsExactly` | arkhe-kernel/src/runtime/kernel.rs:561-599 | a signal of a batch is delivered if and only if its target exists and the queue, with what the batch has already put there, is below a set limit; otherwise it is dropped for that reason |
| `Mail.RunAnnounces` | arkhe-kernel/src/runtime/kernel.rs:561-604 | the observers are told of every routed signal of a run, once and in order, and of nothing else routed |
| `Signals.UnloadReportsEveryReference` | arkhe-kernel/src/runtime/kernel.rs:278-307 | an unload reports the references of all instances together, capped at 32 bits, and leaves none |
| `Signals.StepKeepsMail` | arkhe-kernel/src/runtime/kernel.rs:651-892 | running an action never touches its own instance's inbox or in-flight counts |
| `Moves.RunKeeps` | arkhe-kernel/src/runtime/kernel.rs:284-607 | a property that holds at creation and survives every move holds of every instance in every state of every run |
| `Moves.RunKeepsWhere` | arkhe-kernel/src/runtime/kernel.rs:284-607 | one that survives pops only under a condition holds along every run whose pops all meet it, and before each of them |
| `Moves.RunIsMoves` | arkhe-kernel/src/runtime/kernel.rs:284-607 | an existing instance lives through a run by moves alone |
| `Observer.EachObserverStandsAlone` | arkhe-kernel/src/runtime/observer.rs:73-98 | whatever the others do, an observer is shown exactly its filtered stream up to its first panic, is evicted if and only if it panics, and is never shown anything again |
| `Observer.DeliverInstalments` | arkhe-kernel/src/runtime/observer.rs:76-98 | delivering a stream in two parts is delivering it at once, evictions included |
| `Observer.ObserverRegistry.DeliverEvent` | arkhe-kernel/src/runtime/observer.rs:76-98 | the loop over live observers in handle order and the handles it evicts |
| `Observer.RegisterKeepsSound` | arkhe-kernel/src/runtime/observer.rs:56-71 | below saturation a new observer never reuses a live or evicted handle |
| `Observer.RegisteredAfresh` | arkhe-kernel/src/runtime/observer.rs:56-71 | a new observer starts with its own filter and behaviour, has been shown nothing, and disturbs no other |
| `Observer.DeliverEvicts` | arkhe-kernel/src/runtime/observer.rs:76-98 | a delivery reports, in ascending order, exactly the live observers that panic at it |
| `Observer.EvictionsCount` | arkhe-kernel/src/runtime/observer.rs:76-98 | the evictions a stream reports are as many as it evicts |
| `Event.MatchesExactly` | arkhe-kernel/src/runtime/event.rs:160-212 | the one bit of a mask that lets an event of each kind through |
| `Observer.ObserverRegistry.RegisterFiltered` | arkhe-kernel/src/runtime/observer.rs:56-71 | a new slot under the next handle |
| `Instance.Instance.ToSnapshot` | arkhe-kernel/src/state/instance.rs:253-268 | every field is captured |
| `Instance.Instance.FromSnapshot` | arkhe-kernel/src/state/instance.rs:271-286 | the inverse of the capture |
| `Instance.Instance.Digested` | arkhe-kernel/src/runtime/kernel.rs:664-671 | the digest names the whole state, and is measured only on demand |
| `Instance.Instance.DespawnEntity` | arkhe-kernel/src/state/instance.rs:197-211 | the cascade loop drops the entity and exactly its components |
| `Instance.Instance.DeliverSignal` | arkhe-kernel/src/state/instance.rs:310-316 | the signal is appended under the receiver's own sequence number, which is returned |
| `Instance.Instance.CreditRoute` | arkhe-kernel/src/runtime/kernel.rs:585-586 | one more in-flight reference on the route, saturating |
| `Quota.ThrottleExact` | arkhe-kernel/src/state/quota.rs:114-140 | the throttled quotas add up to the new quota exactly, each is the floor share or one more, none exceeds a non-zero usage, and one pass hands out the whole remainder |
| `Quota.ShareIsFloor` | arkhe-kernel/src/state/quota.rs:125-126 | a child's share is the whole part of its proportion of the new quota |
| `Quota.InflatesExactlyIdleChildren` | arkhe-kernel/src/state/quota.rs:74-83 | the documented "never inflates a child" holds if and only if none of the first remainder-many children is idle |
| `Quota.IdleChildInflated` | arkhe-kernel/src/state/quota.rs:131-138 | an idle child first in line that is given a unit |
| `Quota.LeftoverBelowCount` | arkhe-kernel/src/state/quota.rs:131-138 | the floors never exceed the quota and miss it by less than one unit per child |
| `Quota.ApplyQuotaReduction` | arkhe-kernel/src/state/quota.rs:87-142 | all three policies, on any children, sums saturating |
| `Quota.FloorShares` | arkhe-kernel/src/state/quota.rs:121-130 | the floor pass and its saturating 128-bit sum |
| `Quota.HandOutLeftover` | arkhe-kernel/src/state/quota.rs:131-139 | the increment pass gives one unit to each of the first remainder-many children |

## Where code and documentation disagree

The model follows the code.

- Replay is documented as bit-identical, but `force_unload` leaves no record and instances must exist before replay starts. Exact condition: `ReplayExact.ReplayReproducesExactly`; failing runs: `Scenarios.UnloadedRunIsNotReproduced`, `Scenarios.LateCreationIsNotReproduced`.
- The byte projection is documented as an upper bound on the post-commit total; a second removal credits the stored size again. Exact condition: `Projection.UpperBoundExactly`; failing run: `Scenarios.DoubleRemovalOverruns`.
- The throttle is documented never to inflate a child above its usage; an idle child may be given one unit. Exact condition: `Quota.InflatesExactlyIdleChildren`; failing input: `Quota.IdleChildInflated`.
- `cancel_by_actor` is documented to return scheduler order; it returns id order. Exact condition: `Invariants.CancelledInSchedulerOrderInEveryRun`; failing input: `SchedulerList.CancelledOutOfOrder`.
- `register_action` is documented as required before `submit` accepts an action type; `submit` never looks at the registry, and an unregistered type is skipped when it is popped. Exact conditions: `Admission.SubmitAcceptsExactly`, `Admission.SkippedExactly`; failing run: `Scenarios.UnregisteredIsAcceptedThenSkipped`.
- A scheduled entry is documented to carry an all-permissive ceiling when it comes from a submission; `submit` pins the submission's own caps. Exact condition: `Admission.SubmitPinsCaps`; failing input: `Scenarios.CeilingIsNotPermissive`.
- The writer is documented to add one record per `step`; it adds one per popped action, and one per accepted submission. Exact condition: exactly one instance has its head due before the step, `Admission.StepWritesItsPops`; over runs `Admission.RunWritesExactly`; failing input: `Scenarios.IdleStepWritesNothing`.
- The version errors of replay are documented to carry the header's version as expected; they carry it as got, always. `Replay.HeaderGateExactly`; input: `Replay.OtherMajorIsReported`.

## Left out

- Hashes, key derivation and signatures are constructors of their inputs: injective, never equal to the zero hash, and never failing. A key's bytes either parse or they do not.
- Postcard encoding is taken to be injective and infallible; serde layout, frozen bytes and the error branches of encoding are not modelled.
- The domain-separation context and type-registry pins are not part of the header.
- `compute` and `decodes` are arbitrary functions of exactly what `ActionContext` and the deserializer are given; an action that panics or reads anything else is not modelled.
- Capability masks are sets of bits below 64.
- The kernel object holds its instances by value and borrows one as an object while a step or a delivery works on it; aliasing between instances, which Rust excludes, is not modelled.
- `BTreeMap` iteration is ascending iteration over the key set.
- ReplayExact.ReplayReproducesExactly: late instances that cap their inboxes, references recorded as zero, and counts at their caps are outside the two-way statement, because there an unlogged difference can be hidden again (an equal signal refused by a full queue, a count stuck at its cap); `ReplayTheorems.ReplayReproducesRun` and `ReplayDrift.OnlyDigestsDiverge` hold without these bounds.
- Limits.StepKeepsBudget: one direction; a step that credits twice may still end within its budget when other projections were generous. `Projection.UpperBoundExactly` is the two-way statement.
- Projection.UpperBoundExactly: for lists of fewer than 2^64 - 1 operations whose declared sizes add up to less than about a third of the 64-bit range; beyond that hardly any ledger leaves the projection unsaturated. The same holds of `Projection.DoubleRemovalMisleads`.
- SchedulerList.CancelledInSchedulerOrderExactly: for schedulers whose later ids carry later sequence numbers; every scheduler a run builds is one until its ids saturate, and `Invariants.CancelledInSchedulerOrderInEveryRun` has no such condition.
- ReplayLimits.EarlySignalDivergesExactly: one batch from one sender and the first submission of the late instance; whole runs are `ReplayExact.ReplayReproducesExactly`.
- Isolation.RunIsolated: the instance is one the kernel allocated and not the saturated last id, which a later creation would overwrite; the same holds of `Signals.SignalsConserved`, `Mail.RunHolds`, `Moves.RunIsMoves` and `Invariants.NewIdsExceedOldOnes`.
- Effects.ChildFollowsOperation: while the action's children do not exhaust the scheduled ids, beyond which children share one id; `Effects.CommitLeaves` gives the queue there too.
- Observer.EvictionsCount: for at most 2^32 - 1 live observers, beyond which one delivery's count is truncated; `Observer.DeliverEvicts` has no such bound.
- Quota.ThrottleExact: for usage sums that fit 64 bits; beyond that the shares are taken of the saturated sum, as `Quota.ApplyQuotaReduction` says, and need not add up.
- Observers are functions of the events they were shown; what else they do, and the panics of observers that corrupt their own state, is not modelled.
- `wall_remainder`, `local_tick` and `next_source_seq` are carried and applied but no operation drives them; the eviction bucket is never filled. The same goes for event variants the kernel never emits.
- `InstanceView`, `Stats`, phantom types and lifetimes, sealed traits, derive macros, the dice example, benches, scripts and TLA+ files.
