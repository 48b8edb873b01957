# Phelix: what its protocols guarantee

A Dafny model of the parts of Phelix that have to be right when several
processes, lost writes, failing steps and crashes meet, with proofs of what
they guarantee and, where they do not, of the exact condition under which they
do.  `dafny verify dfyconfig.toml` checks everything.

| file | what it models |
|---|---|
| `WorkerPool.dfy` | the bounded goroutine pool of one dependency level, as interleaved steps |
| `Topo.dfy` | dependency levels: Kahn's algorithm over its in-degree counters |
| `WorkspaceRun.dfy` | building or deploying a workspace level by level on that pool |
| `WorkspaceRollback.dfy` | rolling a workspace back in reverse dependency order |
| `PlanMachine.dfy` | plan application by any number of processes, one durable step at a time |
| `PlanAgreement.dfy` | whether stored status and stored envelope agree, over all those runs |
| `PlanApply.dfy` | one application as the code runs it, and sequences of applications |
| `PlanSession.dfy` | applying several plans in one process, whose flag globals outlive a refused attempt |
| `ClassicHost.dfy` | binary, backup, process, journal, secret store and versions of one application |
| `ClassicRollback.dfy` | classic rollback as a compensated transaction |
| `ClassicRebuild.dfy` | classic rebuild under a secret transaction, with its deferred handler |
| `MatrixRun.dfy` | a matrix run's snapshot and journal, and how replay reads them |
| `MatrixResume.dfy` | any number of resumers of one run, and the build that created it |
| `MatrixLimits.dfy` | where its guarantees end: every guard is needed |
| `MatrixLock.dfy` | the same runs on the real lock file |
| `MatrixSession.dfy` | one resume as the code runs it |
| `RunLock.dfy` | the run lock as file steps |
| `LogHistory.dfy`, `LogFollow.dfy` | reading log history through windows, following a log in pieces |
| `RebuildResolution.dfy` | flags, configuration and state to a specification and an engine; plan re-resolution |
| `HealthSync.dfy`, `Names.dfy`, `Options.dfy` | merging declared health endpoints; ordered name lists; `Option` |

How the environment enters.  Protocols with several processes are step
machines: a run is any sequence of enabled steps, and the theorems quantify
over all of them, lost writes and crash steps included.  Sequential commands
are methods over classes whose fields they change; what can go wrong is a
record of faults passed in, so a contract speaks about every choice of failing
step at once.  Refusal checks, engines, builds, the redactor and the time
filter are parameters.

What turned out not to hold without a condition:

- The ledger's own rule (evict completed entries only) is not enough for
  at-most-once when applies overlap in different processes: the deferred
  finish of a refused apply completes another process's entry, which may then
  be evicted.  `PlanMachine.EvictSafe` is the exact condition under which the key
  is not taken again; for applies that do not overlap it reduces to a terminal
  stored status.
- A classic rollback whose failing stop already killed the application restores
  the files but starts nothing; a promotion whose own metadata rollback fails
  splits the two version records; and when the old binary is not started again,
  the journal keeps naming the target exactly if promotion had been reached, or
  storing the journal wrote it and failed.
- A plan's stored status and the envelope under its key agree exactly as long as
  nobody but the owner completes its ledger entry while the owner may still
  record a success, or has: two overlapping applies in which every write arrives
  can leave an applied plan whose key replays a failure.
- A build that creates a matrix run does not re-read it under the lock, so a
  resumer that got there first is executed over again, even past a terminal
  record.  A finished result is missing from the record exactly when its append
  did not arrive, an older line about it exists, and removing the journal failed.
- A result the record shows stays and is not built again except in three cases,
  and each of them can take it back: it rests on a last line without its line
  end and another line is appended behind it; a resume's load does not get to
  its line, because the journal could not be opened or read to its end, which is
  no error, and goes on; or the creating build begins late.
- A request key can be spent without an execution: the ledger renames its file
  into place before it syncs the directory, so beginning may fail with the entry
  stored, and the deferred finish then completes it.  A comment there says that a
  failed write never touches the file.
- The run lock is exclusive exactly as long as every removal of a stale file
  still finds a dead owner's file; reading a file between its creation and the
  writing of its id is enough to break it, and then two sessions may build one
  combination at once.
- A plan made with `--blue-green` or `--replicas` drifts in every process whose
  flag globals are fresh, because applying does not restore those two globals;
  and a refused apply leaves globals behind that can make another plan drift, or,
  for a worker resolved to blue-green, the same one, although its stored records
  are those of an apply that never happened.
- `truncated` of the log view is silent under a time filter, and the one of the
  deployment view also reports lines the filter removed.

Where a comment in the source promises more than the code does (a promotion
never observed half done, a rollback that is all-or-nothing, a lock that
prevents two executions), the model follows the code.

## Model

| member | source | states |
|---|---|---|
| WorkerPool.PoolIsBounded | cmd/workspace.go:46-84 | in every interleaving at most max(1, concurrency) services are in flight, each runs at most once, and one is skipped only after another failed |
| WorkerPool.BoundIsReached | cmd/workspace.go:46-61 | for every size and concurrency some schedule has that many services inside their functions at once |
| WorkerPool.ErrorSendNeverBlocks | cmd/workspace.go:59-77 | a goroutine with an error to send always finds room in the channel |
| WorkerPool.NoDeadlock | cmd/workspace.go:62-84 | no reachable state before the return is stuck |
| WorkerPool.StepDecreases | cmd/workspace.go:62-84 | every step of every goroutine lowers a measure |
| WorkerPool.AlwaysReturns | cmd/workspace.go:62-84 | from every reachable state some schedule returns |
| WorkerPool.SchedulesAreFinite | cmd/workspace.go:62-84 | no schedule is longer than the measure of its first state |
| WorkerPool.ReturnIsTruthful | cmd/workspace.go:79-84 | at the return nothing runs and no token is held; nil iff every service ran and succeeded, otherwise the error of a service that failed |
| WorkerPool.FirstErrorWins | cmd/workspace.go:72-84 | the error returned is that of the first failing service to send it |
| WorkerPool.StartAfterCancelIsPossible | cmd/workspace.go:66-70 | from every reachable state, cancelled or not, some schedule enters the function of any service that is not decided yet, since the select may take the semaphore |
| WorkerPool.LateStartNeedsTwo | cmd/workspace.go:46-84 | for every level size and concurrency: a schedule that starts a service after the cancellation exists iff the level has at least two services |
| Topo.TopoLevels | internal/workspace/graph.go:11-78 | the result is a levelling (dependencies strictly earlier, levels sorted, nobody later than needed) of exactly the given services, or names a real unknown dependency, or there is no rank, so a cycle |
| Names.BeforeMeans | internal/workspace/graph.go:43-50 | the order names are sorted in is the dictionary's |
| Topo.LevellingIsRank | internal/workspace/graph.go:11-78 | a levelling gives a rank falling along dependencies, so the cycle answer is given exactly on cyclic graphs |
| Topo.BuildGraph | internal/workspace/graph.go:16-41 | the in-degree and dependents tables count every declared dependency, or a declared one that is no service is reported |
| Topo.PlaceLevel | internal/workspace/graph.go:53-68 | placing a level leaves the counters right for what is still unplaced and finds exactly the newly free services |
| WorkspaceRun.DependenciesFirst | cmd/workspace_build.go:189-217 | in every run a service starts only after every transitive dependency finished successfully |
| WorkspaceRun.FailureHaltsTheMesh | cmd/workspace_deploy.go:132-182 | every event of a run is of a service placed before the level it stops at, so no service of a later level leaves any |
| WorkspaceRun.StopsAfterAFailure | cmd/workspace_deploy.go:132-182 | the run stops before a level iff an earlier one failed |
| WorkspaceRun.OneVerdict | cmd/workspace_build.go:193-209 | a service never has two outcomes and has one exactly when it ran |
| WorkspaceRun.RecordedMeans | internal/workspace/state.go:148-160 | a member's entry is its outcome if it has one, else its prior entry |
| WorkspaceRun.MeshReflects | cmd/workspace_deploy.go:133-177 | after any number of levels the state holds an outcome for exactly the members that ran, and it is the right one |
| WorkspaceRun.Orchestrator.RecordServiceResult | internal/workspace/state.go:148-160 | a member's entry is overwritten, an unknown name is ignored |
| WorkspaceRun.Orchestrator.RunLevel | cmd/workspace.go:46-84 | driving one level along any schedule logs and records exactly its outcomes |
| WorkspaceRun.Orchestrator.RunAll | cmd/workspace_build.go:192-219 | whatever the schedules: the log stops at the first failing level, the state reflects the log, it is saved either way, and nil means every service succeeded and the state was written |
| WorkspaceRollback.FlattenLevels | cmd/workspace_deploy.go:194-201 | levels become one order |
| WorkspaceRollback.ReverseNames | cmd/workspace_rollback.go:148-155 | filling by index from the back yields the reversed list |
| WorkspaceRollback.FlattenForward | internal/workspace/graph.go:80-93 | in the flattened order every dependency stands before its dependent, and nothing repeats |
| WorkspaceRollback.PrefixClosed | cmd/workspace_rollback.go:52-105 | every prefix of the reversed order is closed under dependents |
| WorkspaceRollback.ChainClosed | cmd/workspace_rollback.go:52-105 | closure holds along whole dependency chains |
| WorkspaceRollback.OutcomesMean | cmd/workspace_rollback.go:78-105 | a service's entry: rolled back, failed at the halt, or as before |
| WorkspaceRollback.Rollback.RunAll | cmd/workspace_rollback.go:47-116 | at every moment, wherever it halts, the rolled-back services are a closed prefix of the reversed order; the state says so; nil means all were rolled back and saved |
| PlanMachine.AtMostOnce | cmd/plan.go:545-692 | over every run of any number of processes the engine is entered at most once, if the key is evicted only when the stored status refuses everybody |
| PlanMachine.SerialIsGuarded | cmd/plan.go:545-692 | for applies that do not overlap that condition is just a terminal stored status |
| PlanMachine.SerialAtMostOnce | cmd/plan.go:545-692 | serialized applies, crashes, lost writes and evictions after a terminal status: at most one entry |
| PlanMachine.UnsafeEvictionGrantsAgain | internal/ops/ledger.go:333-366 | in every other reachable state an eviction lets the ledger take the key, and a process enter the engine, once more, beside whatever the first taker did or still does |
| PlanMachine.OverlappingApplyDefeatsTheLedger | cmd/plan.go:619-625 | a concrete run of overlapping applies, without a crash, with two processes in the engine |
| PlanApply.OpRun.BeginIdempotency | cmd/oprun.go:53-80 | the key is consulted first: error, with or without the new entry stored, replay of the stored envelope, whose status is known if it parses, or a new in-progress entry and an operation record |
| PlanApply.OpRun.Finish | cmd/oprun.go:169-206 | the record succeeds on nil or on a staged verification failure; the key is completed unless replayed or nothing was staged |
| PlanApply.PlanStore.ReconcileAfterReplay | cmd/plan.go:748-758 | a plan loaded as created takes the status of the replayed envelope, if that is known |
| PlanApply.PlanStore.RecordTerminal | cmd/plan.go:682-692 | any error marks the plan failed, none marks it applied |
| PlanApply.PlanStore.Apply | cmd/plan.go:545-676 | the reply and the durable records after one apply, case by case: a terminal status answers for itself, an execution replies what the engine returned and stores it as status, envelope and record, a replay carries the stored envelope, which becomes the status, and every error leaves what it leaves |
| PlanApply.ApplyIsARun | cmd/plan.go:545-676 | one apply is a run of the step machine, so its guarantees hold of applies |
| PlanApply.RefusalsAreErasable | cmd/plan.go:555-616 | for the durable records of one plan: dropping all refused and status-gated attempts from any trace changes neither the records nor the other replies, whatever decided the refusals |
| PlanSession.RefusalIsErasable | cmd/plan.go:587-616 | with the flag globals in the trace and drift computed: a refused attempt can be left out before every later attempt iff it did not get to resolution or resolved to nothing noticeable, a condition on its plan, the globals, the configuration and the deployed state |
| PlanSession.WhatRefuses | cmd/plan.go:575-616 | an attempt of a plan that has not run is refused iff a precondition fails, which touches no global, its plan drifts, or the authorization refuses |
| PlanSession.AlikeIsIndistinguishable | cmd/plan.go:591-608 | where anything can be built, no plan tells two contents of the unrestored globals apart iff blue-green agrees and, without it, the replicas do or are not positive |
| PlanSession.LeavesBehind | cmd/plan.go:591-604 | a resolution changes the two unrestored globals iff it resolves to blue-green or to another number of rolling replicas |
| PlanSession.NeutralRefusalsAreErasable | cmd/plan.go:587-616 | over traces of several plans, with executions that change what is deployed, refused attempts that leave nothing noticeable are erasable together |
| PlanSession.OwnLeftovers | cmd/plan.go:587-608 | resolving a plan does not change whether it reproduces itself, except for a worker resolved to blue-green, which does so once only |
| PlanSession.OnePlanRefusalsAreErasable | cmd/plan.go:555-616 | in a process that applies one plan every refusal is erasable, drift included and whatever its execution changes, for every plan but such a worker |
| PlanSession.WorkerRefusalIsNotErasable | cmd/rebuild_spec.go:113-119 | for such a worker the permitted attempt after a refused one is refused for drift |
| PlanSession.RefusalOfAnotherPlanIsNotErasable | cmd/plan.go:591-599 | an input: a refused blue-green plan makes a classic plan drift that would have got through |
| PlanApply.OneExecution | cmd/plan.go:545-692 | in any sequence of applies at most one reply is an execution, and the history counts it |
| PlanApply.TerminalIsFinal | cmd/plan.go:555-573 | after a terminal status nothing durable changes |
| PlanApply.RecordsAgree | cmd/oprun.go:169-206 | in any trace with an execution whose terminal writes arrive, whatever comes before and after: the reply is what the engine returned, applied iff the engine returned nil, the envelope agrees unless none was staged, and the operation record disagrees exactly on a committed rollback whose verification failed |
| PlanApply.SettledAlong | cmd/plan.go:748-758 | serialized applies never let a terminal status and a stored envelope disagree, whatever is lost |
| PlanAgreement.StatusAgreesWithEnvelope | cmd/plan.go:619-676 | over all runs of any number of processes they agree as long as every completion of an entry by somebody else than its owner is harmless |
| PlanAgreement.HarmfulCompletionDisagrees | internal/ops/ledger.go:312-326 | from every other such completion a disagreement follows with every write arriving, so the condition is exact |
| PlanAgreement.AppliedPlanReplaysAFailure | cmd/plan.go:619-625 | a run of two processes without crash, eviction or lost write that ends applied with a stored failure |
| PlanApply.ReplayReconciles | cmd/plan.go:748-758 | a lost status write is made up for by the next replay after any trace of attempts, and nothing else changes |
| PlanApply.FailedBegin | internal/ops/ledger.go:264-273 | a begin that fails on a new key changes nothing, or, if its entry was stored, spends the plan: over any trace nothing executes, it is never applied, and the next attempt that gets through leaves it failed |
| PlanApply.InterruptedIsClosed | internal/ops/ledger.go:445-480 | an execution whose process is gone is never run again in any trace of attempts, and the next one that gets through closes it as failed |
| PlanApply.ForeignCompletion | cmd/plan.go:619-625 | after an apply the ledger refuses has completed a live owner's entry, no attempt of any trace executes or makes the plan applied, and the key replays a failure whatever the owner returns |
| ClassicHost.Host.Copy | cmd/rollback.go:1046-1080 | for every failing step the target is its old or its complete new contents, and the staging file is gone |
| ClassicHost.Host.BackUp | cmd/rollback.go:958-970 | the backup holds the binary's bytes, or there was none, or there is no backup object and nothing changed |
| ClassicHost.Host.Restore | cmd/rollback.go:984-993 | the backup is renamed back, or a binary that was not there is removed; else nothing changes |
| ClassicHost.Host.Discard | cmd/rollback.go:995-1000 | only a backup that was taken is removed |
| ClassicHost.Host.Stop | internal/app/manager.go:94-129 | success leaves nothing running; failure leaves the process or has killed it |
| ClassicHost.Host.StopExisting | cmd/rebuild.go:749-762 | an application recorded as not running is left alone |
| ClassicHost.Host.Start | internal/app/manager.go:58-91 | refused when one is recorded, needs a binary, and gives a fresh identity |
| ClassicHost.Host.Store | internal/deploy/state.go:356-405 | a failing store may have written |
| ClassicHost.Host.RefreshJournal | cmd/rollback.go:1033-1044 | only an existing journal is rewritten, naming the version and the recorded process |
| ClassicHost.Host.Promote | internal/deploy/version.go:504-550 | metadata and symlink move together unless undoing the metadata fails too |
| ClassicHost.Host.Reconcile | internal/deploy/secrets_txn.go:132-191 | the journal's stamp alone decides between committing the bindings and dropping them with their launches |
| ClassicHost.Host.Compensate | cmd/rollback.go:1003-1030 | if its calls succeed the binary is back and an application that ran from one runs, untouched or started again; in any case the files are the old or the restored ones and a backup is consumed at most once |
| ClassicRollback.ReplaceBinary | cmd/rollback.go:973-982 | the target binary is in place with the old one backed up, or the old one is in place; crash-safe throughout |
| ClassicRollback.Swap | cmd/rollback.go:848-872 | replaced and stopped, or the old binary restored without starting anything |
| ClassicRollback.Serve | cmd/rollback.go:884-907 | started, journalled and promoted, or compensated |
| ClassicRollback.Execute | cmd/rollback.go:786-907 | commits exactly when no step fails; then binary, process, journal and versions name the target; else, if undoing works, all are back except what is stated exactly for a killing stop, a half promotion and the journal; an interrupted secret transaction is settled by its stamp; every crash state is safe |
| ClassicRollback.FirstFaultIsFirst | cmd/rollback.go:786-907 | the step reported is the first one, in the order they are taken, that fails |
| ClassicRollback.Conclude | cmd/rollback.go:920-945 | after the commit the result is staged with the window's outcome if it has one, a failed or broken window is the verify-failed error, and the operation record succeeds iff the window only failed or nothing went wrong |
| ClassicRollback.RollbackClassic | cmd/rollback.go:738-951 | the same for the whole command, with the backup gone after the commit, the history line successful iff the commit was reached whatever the window or the envelope do, commits iff none of the listed steps fails, the error is the verify-failed one iff the window after the commit failed or broke, the operation record succeeds iff the rollback committed and at most its window failed, and the undone journal naming the target iff the old binary was not started again and the target had been written to it |
| ClassicRollback.KillingStopIsNotUndone | cmd/rollback.go:870-872 | an input: the failing stop killed the application; files and versions are back, nothing runs |
| ClassicRollback.HalfPromotionSplitsTheVersions | internal/deploy/version.go:541-549 | an input: metadata names the target, the symlink the old version, the old binary runs |
| ClassicRollback.StoppedAppKeepsTheTargetJournal | cmd/rollback.go:1017-1019 | an input: the application was stopped, promotion failed, the journal still names the target |
| ClassicRollback.FailedStoreKeepsTheTargetJournal | cmd/rollback.go:892-894 | an input: storing the journal wrote it and failed, nothing was restarted, and the journal names the target |
| ClassicRebuild.Accept | cmd/secrets.go:678-703 | the stamped journal is stored, possibly although an error is returned |
| ClassicRebuild.Launch | cmd/rebuild.go:181-210 | the journal is stamped iff stopping, starting and writing it get through, and then the built binary runs with the transaction's values |
| ClassicRebuild.Replace | cmd/rebuild.go:157-240 | the backup is untouched; without the stamp journal and versions are unchanged; nil only with the stamp and settled bindings |
| ClassicRebuild.SettleBackup | cmd/rebuild.go:129-147 | the deferred handler drops the backup iff the journal carries the stamp and otherwise puts everything back, the journal included |
| ClassicRebuild.Begin | internal/deploy/secrets_txn.go:33-71 | the previous transaction is settled before the new intent is written |
| ClassicRebuild.Protected | cmd/rebuild.go:115-148 | from taking the backup to the end of the handler: consumed once, discarded iff stamped, nil only if stamped |
| ClassicRebuild.Rebuild | cmd/rebuild.go:90-240 | success iff none of the listed steps fails and the journal stamped iff the listed ones before its writing do not, and then journal, versions and process are the new ones; for every fault: an accepted binary is never replaced by the old one and the old one is never lost before; if settling works the backup is consumed exactly once, binary and bindings are the new ones iff the journal is stamped, and otherwise the journal is as it was or, after a restart, names the version read at the start (0 if unreadable) |
| ClassicRebuild.InTransaction | cmd/rebuild.go:90-156 | from the intent to the end of the command: the same for the open transaction, which is settled unless settling it fails |
| ClassicRebuild.FailedStartIsUndone | cmd/rebuild.go:129-147 | an input: the new binary exits at once, and binary, process, versions, journal and bindings are the old ones again |
| MatrixRun.ViewLast | internal/matrix/journal.go:65-103 | the last line about a combination wins, others are untouched |
| MatrixRun.LastLineMeans | internal/matrix/journal.go:65-103 | that is the line about it after which no other is, and without one the snapshot counts |
| MatrixRun.WholeLineHeals | internal/matrix/journal.go:36-59 | a line written whole makes the next one readable, whatever the journal ended with |
| MatrixRun.StatusTells | internal/matrix/run.go:509-527 | over the results alone: succeeded iff there are some and all are good, failed iff all are bad, partial iff all are final and both occur, interrupted iff one is incomplete |
| MatrixRun.AppendView | internal/matrix/journal.go:40-59 | a line that arrives whole is what a load that reads the whole journal sees |
| MatrixRun.GluedView | internal/matrix/journal.go:40-59 | a line cut at its end shows like a whole one, and gluing another to it makes the run load as if neither had been appended |
| MatrixResume.InvStep | cmd/matrix_exec.go:118-234 | lock, memory, count and terminal invariants hold along every guarded step |
| MatrixResume.FinalStays | internal/matrix/history.go:207-250 | a result the record shows stays along every guarded step, whatever is lost |
| MatrixResume.NeverAgain | cmd/matrix_exec.go:202-234 | over every guarded run such a combination is never executed again and its result never changes; the guard keeps out gluing appends, a late creating build, and loads that go on although they miss a shown result |
| MatrixResume.SightIsHonest | internal/matrix/journal.go:65-103 | a load that gets to any number of lines sees a shown result or sees that combination unfinished, never another result |
| MatrixResume.OneExecutor | cmd/matrix_exec.go:205-210 | at most one process executes a run, the lock being exclusive |
| MatrixLock.LockFileServes | internal/matrix/history.go:261-300 | on the lock file, over every run whose removals find what was judged stale, the processes do exactly what an exclusive lock would let them do, so all of this holds there |
| MatrixLock.OneSession | internal/matrix/history.go:261-300 | so from the creation on at most one process is past the lock |
| MatrixLock.UnsafeRemovalRunsTwice | internal/matrix/history.go:285-294 | after any other removal a second session may start a combination beside the owner that is executing it |
| MatrixResume.ResumesAreCounted | cmd/matrix_exec.go:222-230 | the stored count grows by exactly one per resume that passed the re-check and was stored, over every guarded run |
| MatrixResume.TerminalIsImmutable | internal/matrix/history.go:223-237 | after a terminal record neither the record, the journal nor the executions change |
| MatrixResume.LosersLeaveNoTrace | cmd/matrix_exec.go:205-230 | over every run and whatever the others do: without the steps of a process that only loses the run is still a run, with the same record, journal, count and executions |
| MatrixLimits.CreatorRunsAgain | cmd/matrix_exec.go:92-103 | whenever the record shows a result, the creating build, which does not re-read, can execute it again and hides it |
| MatrixLimits.LateCreatorBreaksTheRun | cmd/matrix_exec.go:92-103 | beginning after a stored resume, the creating build resets the stored count by finishing or executes under a terminal record: the guard on it is exact |
| MatrixLimits.CreatorRunsAfterTheEnd | cmd/matrix_exec.go:92-103 | a run from the creation in which the creating build executes a combination a resumer finished, under a record that says it succeeded |
| MatrixLimits.GluingTakesBack | internal/matrix/journal.go:36-59 | an append the guard excludes makes the record stop showing a result it showed, so the guard is exact |
| MatrixLimits.GluedResultRunsAgain | cmd/matrix_exec.go:205-234 | a run from the creation in which the next resume executes a combination finished before, because its line was glued |
| MatrixLimits.HiddenResultIsLost | internal/matrix/journal.go:65-103 | whenever a load the guard excludes misses shown results, the resume may execute such a combination again, and once it is stored and the journal dropped all of them are gone: the guard on loads is exact |
| MatrixLimits.UnopenedJournalRunsAgain | internal/matrix/journal.go:65-69 | a run from the creation in which every append arrives and the next resume, which cannot open the journal, executes a finished combination again and takes its result back |
| MatrixLimits.ResumeStarts | cmd/matrix_exec.go:205-234 | from any state with a free lock, whatever its load does not see as final the next resume may execute |
| MatrixLimits.FinishedResults | internal/matrix/history.go:207-250 | a result in memory is in the record after finishing iff the journal went, or no older line hides it, or it had arrived |
| MatrixSession.RunStore.LoadRun | internal/matrix/history.go:82-113 | the replay loop computes the last of the lines it gets to about every combination over the snapshot |
| MatrixSession.RunStore.UpdateRun | internal/matrix/history.go:207-250 | a terminal record is refused, else the snapshot is replaced and the journal removed if it can be |
| MatrixSession.ComputeStatus | internal/matrix/run.go:509-527 | the status tells exactly what the results are: all good, all bad, mixed, or incomplete |
| MatrixSession.Execute | internal/matrix/executor.go:122-277 | workers in any order execute only what they were given, all of it unless cancelled, each at least once and at most once more than there are retries, keep every earlier result, and journal exactly the changes the run in memory has over its start, in their order |
| MatrixSession.Resume | cmd/matrix_exec.go:205-234 | a loser changes nothing; a winner counts once, executes exactly what its load saw as incomplete unless cancelled, stores a status that tells what the stored results are, terminal unless interrupted, keeps what its load saw when the start dropped the journal, and, when that missed nothing, executes only incomplete combinations and keeps every earlier result unless one rested on an unended line over an older one and the journal was not dropped |
| RunLock.InvStep | internal/matrix/history.go:261-300 | whoever acquired the lock owns the file at its path, as long as removals take dead owners' files |
| RunLock.MutualExclusion | internal/matrix/history.go:261-300 | over every such run at most one process has acquired the lock, crashes and reclaims included |
| RunLock.UnguardedRemovalBreaksExclusion | internal/matrix/history.go:285-294 | in every other case the next opener acquires beside a live owner |
| RunLock.TwoOwnersWithoutACrash | internal/matrix/history.go:274-294 | a concrete run: the file is read before its id is written, and two processes acquire |
| LogHistory.ReadLogHistory | cmd/log.go:400-426 | one pass with a sliding window gives the last kept lines and the exact line count |
| LogHistory.ReadLogHistoryFiles | cmd/log.go:223-251 | over all files: the last n kept lines of the whole history and the exact total; without n, a window per file |
| LogHistory.TailOfTails | cmd/log.go:223-251 | windowing every file and then the whole equals windowing all kept lines at once |
| LogHistory.LinesAt | cmd/log.go:223-251 | in the history every line of every file has its place, the oldest file first |
| LogHistory.CompleteUnlessOverfull | cmd/log.go:223-251 | a kept line is missing from the result iff more than n lines are kept or, without a bound, a single file keeps more than the buffer |
| LogHistory.ShowLogView | cmd/log.go:157-182 | over all histories: every line shown is redacted, and the reported truncation is right iff there is no time filter or the bound (without one, the per-file buffer) holds every kept line |
| LogHistory.ShowDeploymentLogs | cmd/log.go:497-512 | over all targets: the parts of all targets in order, and a reported truncation that is right iff some bound was too small or no filter removed a line |
| LogHistory.LabelledAt | cmd/log.go:497-509 | line i of a target stands behind all lines of the targets before it, under the target's replica and redacted |
| LogHistory.ViewMissesATruncation | cmd/log.go:162-164 | an input: a kept line is not shown and no truncation is reported |
| LogHistory.DeploymentReportsAFilteredLine | cmd/log.go:497-506 | an input: every kept line is shown and a truncation is reported |
| LogFollow.SplitIsUnique | cmd/log.go:438-475 | a stream has one decomposition into complete lines and an unfinished tail |
| LogFollow.Absorb | cmd/log.go:443-459 | what is held back is the arrived part of the line, or nothing once it is over the limit; at a newline the redacted line, or the marker if it is over the limit, comes out |
| LogFollow.FollowLogLines | cmd/log.go:438-475 | for any reads the output is the complete lines in order, each one what the redactor makes of it if with its newline it is within the limit and the marker otherwise, never the tail, and never more than the limit is held |
| LogFollow.LinesGrow | cmd/log.go:438-475 | what was complete after some reads is a prefix of what is complete later |
| LogFollow.FollowAll | cmd/log.go:438-475 | over undisturbed reads the output is that of the whole stream |
| LogFollow.SameStreamSameOutput | cmd/log.go:438-475 | two ways of splitting one stream into reads give the same output |
| LogFollow.RedactedAlikeShownAlike | cmd/log.go:438-475 | two streams whose lines come out of the redactor alike and whose overlong lines stand at the same places give the same output: what is hidden does not show |
| RebuildResolution.Precedence | cmd/rebuild.go:246-307 | a canary flag decides and keeps its share; without strategy flags and leftovers a set --strategy is the strategy, else the configuration's, else the deployed one, else classic; replicas and rollout shares follow the configuration, then what is deployed |
| RebuildResolution.PortPrecedence | cmd/rebuild_spec.go:110-113 | an explicit --port, else the application's, else the configuration's, else the flag's default |
| RebuildResolution.SourcePrecedence | cmd/rebuild_spec.go:87-108 | the directory built and the configuration that counts, with and without --source-dir, and exactly when there is none |
| RebuildResolution.Rejections | cmd/rebuild.go:246-304 | which combinations of flags, state and strategy the resolver rejects, and when it does not |
| RebuildResolution.EnterEngine | cmd/rebuild_spec.go:218-230 | for every specification a resolver makes, the engine entered is the one its strategy names |
| RebuildResolution.RebuildIsCoherent | cmd/rebuild_spec.go:145-172 | for every prior content of the flag globals the rebuild resolver makes such a specification |
| RebuildResolution.WorkspaceIsCoherent | cmd/workspace_deploy.go:207-266 | so does the workspace resolver |
| RebuildResolution.WorkspacePrecedence | cmd/workspace_deploy.go:207-330 | manifest, then configuration, then what is deployed, for strategy (a rollout becomes classic) and replicas; manifest, application, configuration for the port |
| RebuildResolution.PlanRoundTrip | cmd/plan.go:591-608 | re-resolving a plan reproduces it iff the stated condition on its inputs and the two unrestored globals holds |
| RebuildResolution.DriftIsNoticed | cmd/plan.go:599-608 | a plan that gets through is built from its directory, in its language, on its port, with its strategy and replicas, as they are now |
| RebuildResolution.FreshPlansDoNotDrift | cmd/plan.go:591-608 | with fresh globals and neither flag there is never a drift, for plans from the application's own directory, from a configured source directory, or applied where they were made |
| RebuildResolution.FlagPlansDrift | cmd/plan.go:591-608 | a plan made with --blue-green or --replicas always drifts in a fresh process |
| RebuildResolution.SourcesAreReproduced | cmd/rebuild_spec.go:87-108 | when the directory and configuration that count are the same at creation and at application |
| RebuildResolution.ReapplyingDoesNotDrift | cmd/plan.go:587-608 | a plan that reproduced itself resolves again under the globals its own apply left, except a worker resolved to blue-green |
| RebuildResolution.Globals.ApplyConfigDeployStrategy | cmd/rebuild.go:246-307 | the strategy step changes the globals as its meaning says, and not at all on error |
| RebuildResolution.Globals.BuildRebuildSpec | cmd/rebuild_spec.go:55-173 | the resolver's specification and what it leaves in the globals |
| RebuildResolution.Globals.CreatePlan | cmd/plan.go:88-117 | a plan captures the resolved specification and the given flags |
| RebuildResolution.Globals.ApplyRebuildPlan | cmd/plan.go:587-608 | an engine is entered iff the plan reproduces itself, and then it is the one the plan names |
| RebuildResolution.AppliesLeakGlobals | cmd/plan.go:591-599 | an input: a classic plan that applies alone drifts after a blue-green plan was applied |
| HealthSync.FieldsOf | cmd/project_config.go:76-102 | every field of a declared endpoint is the last set declaration, else the previous value, else the default |
| HealthSync.DeclareMeans | cmd/project_config.go:76-102 | one declaration keeps the identity and changes a field only if it sets it; a new endpoint starts from the defaults |
| HealthSync.LastSetMeans | cmd/project_config.go:76-102 | the last declaration that sets a field, or that none does |
| HealthSync.DeclaredTwice | cmd/project_config.go:76-102 | declaring the same list again changes nothing |
| HealthSync.MergedIsUnique | cmd/project_config.go:65-109 | the merged configuration is determined by its inputs, whatever order maps are walked in |
| HealthSync.MergedTwice | cmd/project_config.go:57-122 | merging twice equals merging once |
| HealthSync.DroppedIsUnique | cmd/project_config.go:104-126 | the dropped list is determined: the sorted difference |
| HealthSync.HealthConfig.DeclareAll | cmd/project_config.go:76-102 | the loop over the declared list merges it and marks every declared name |
| HealthSync.HealthConfig.DropUndeclared | cmd/project_config.go:104-111 | the walk over the marks removes exactly the unmarked names |
| HealthSync.HealthConfig.Sync | cmd/project_config.go:46-131 | names, fields, untouched endpoints, dropped list and deploy tier after the command; nothing declared or a failing save changes nothing |

## Left out

- WorkerPool.PoolIsBounded: does not claim that nothing starts after the first failure; the select may still take the semaphore.
- WorkspaceRun.Orchestrator.RecordServiceResult: the version, error text and time of an entry are not kept, only the operation and its outcome.
- PlanSession.OnePlanRefusalsAreErasable: what a resolution reads changes only with the executions of this process; edits by somebody else between two attempts are not modelled.
- ClassicHost.Host.Copy: removing the staging file always succeeds, so litter after a failing removal is not modelled.
- ClassicHost.Host.Promote: a version is known exactly when its binary is kept.
- ClassicHost.Host.Stop: one record of the running process; that a failing save leaves the stored one behind the one in memory is not modelled.
- ClassicHost.Host.Start: ports, environment, resource limits and why a start fails are one fault.
- ClassicRollback.RollbackClassic: the application record read at entry is that of the process that runs; the race of another command changing it before the lock shows only as the moved current version.
- ClassicRebuild.Rebuild: without a secret transaction there is no backup and no compensation, and automatic rollback is a separate command; neither is modelled.
- MatrixResume.NeverAgain: one run; combinations are numbers, attempts and artifacts of a result are not kept.
- RunLock.MutualExclusion: process ids are not reused.
- LogFollow.FollowLogLines: the marker limit and the redactor are modelled; waiting times and signals are the cancelled flag of a read.
- RebuildResolution.PlanRoundTrip: looking an application up by name yields the same application at creation and at application.
- HealthSync.HealthConfig.Sync: identities minted by the configuration store on save are not modelled.
- Real time and liveness of processes: oracles and a crash step.
- Zero-downtime, canary and worker engines, proxy, builds, toolchains and secret encryption: only which engine is entered.
- Envelope emission of the workspace commands, terminal output, telemetry, audit and decision logs.
- The authorization, precondition and capability checks of a plan: one oracle each run.
- Pruning of plans, operation records and versions.
