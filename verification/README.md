# Double-checked execution, verified

A Dafny model of a double-checked lock executor and its lifecycle form, with
proofs. `dafny verify dfyconfig.toml` checks everything.

The executor tests a caller-supplied gate, takes a caller-supplied lock, tests
the gate again and runs a task. The lifecycle form prepares a token before the
lock and, after the guard is gone, hands the token to commit or rollback, or
drops it. Each form has a propagating and a capturing entry point.

The model has two layers.

**One invocation.** Every callback and every destructor (predicate, prepare,
acquisition, task, guard, unexecuted task, task result, token, commit, rollback,
payload) is an oracle: it returns, returns an error, or panics with a payload,
and payloads nest to any depth. `Unwinding` and `LockedPhase` say what a block
of operations with live destructors does; `DclExecutors`, `LifecycleFinalization`
and `LifecycleSemantics` give each entry point's meaning as a result and an
ordered event trace. `DclCores` and `LifecycleExecutors` are the executors as
imperative code over an `Invocation`, whose ghost state tracks who owns the
guard, the task and the token; every method is proved equal to its meaning.
Destroying a payload is control flow too: `Panics` has boundaries that drop and
boundaries that forget, and every discarded panic goes through them.
`Erasure`, `LockedProperties`, `LifecycleProperties` and `TraceReading` hold the
laws. A second panic during an unwind is the explicit result `Abort`, and the
laws say exactly when it happens.

**Any number of invocations.** `Protocol` is a transition system of N
invocations through any of the four entry points, in exclusive or shared mode
of one lock that may or may not poison, together with an environment that takes
the same lock to store the gate. The task body is split into start, publish,
store and end, so that fast-path reads interleave with a holder that has already
closed the gate. A run is a function of its schedule, so every theorem quantifies
over all schedules and all N. `Projection` and `Guarantees` tie the layers
together; `GuardDiscipline`, `Reachable`, `Linearization`, `GateAccounting`,
`TokenConservation`, `FastPath`, `Publication`, `SharedModes`, `ClaimProtocol`,
`ClaimRuns` and `Progress` hold the whole-run results, and `Aborts` says which
invocations take the process down. `Transactions` and `Submissions` are the two
protocols that the documentation tests and the benchmark build on the executors,
as sequential code and, for submissions, as a system of N invocations.

## Where a promise fails, and exactly when

- **Priority of a prepare error.** The propagating lifecycle call returns the
  prepare error only if dropping the skipped task does not panic; otherwise the
  cleanup panic replaces it (`LifecycleProperties.PropagatingPriority`, witness
  `LifecycleProperties.PrepareErrorCanBeLost`). The capturing call always keeps it.
- **Erasure of capture.** The two lifecycle entry points agree iff no cleanup
  panic meets a failure before the lock and no finalization panic meets a task
  result with a panicking destructor (`Erasure.LifecycleErasure`). In the second
  family the propagating form aborts.
- **Erasure for the basic executor** depends on the compiler. If a release panics
  after a finished task, the propagating form already holds the result in its
  return slot; whether the slot is destroyed is the parameter `dropsReturnSlot`.
  If it is leaked and the result's destructor panics, `run` unwinds where
  `run_catching` aborts (`Erasure.BasicErasure`).
- **Shared modes.** Nothing stops a caller from storing the gate under a shared
  guard. The refinement holds for exactly those systems in which no two distinct
  shared-mode invocations can both reach their tasks while one of them closes the
  gate (`SharedModes.RefinesExactly`); exclusive closers, lone shared closers and
  shared tasks that only open the gate are all fine. The smallest failing system
  is a pair of shared closers (`SharedModes.SharedClosersAreNotAtomic`).
- **Freshness behind a closed gate** needs two writes in the right order. A staleness
  event that bumps the generation before it reopens the gate hides a stale cache
  from the fast path (`Publication.BumpBeforeReopen`). Freshness holds for exactly
  the schedules that reopen first and close over no stale cache
  (`Publication.FreshExactlyWhenReopenedFirst`), and for exactly the systems whose
  closing tasks publish (`Publication.FreshExactlyWhenClosersPublish`).
- **Containment of payload chains.** Catching alone contains no payload chain of
  unknown depth: k boundaries let the k-th payload of a deeper chain escape. It is
  the final `forget` that makes discarding total (`Panics.BoundariesContainExactly`,
  `Panics.ResumesOriginalExactly`).

## Assumptions

- Steps are sequentially consistent; one step is one callback, one gate or lock
  operation, or one destructor.
- A guard whose destructor panics has released its lock before panicking.
- On a poisoning lock, dropping an exclusive guard during an unwind poisons;
  shared guards never do; acquiring a poisoned lock in any mode panics. Poisoning
  is a property of the lock as a whole, and the environment stops at a poisoned
  lock.
- A task publishes at most once and then stores the gate at most once. The
  environment, under the lock, stores the gate and makes the cache stale in
  separate steps, in any order and any number of times.
- A commit that returns an error or panics has written nothing; the token's
  `pending` records are what a successful commit writes.
- Predicates read the gate or panic; finalizers, prepare and predicates never
  take the coordination lock.
- A conservation law about token identities needs tasks that change what a token
  carries but not which token it is (`TasksKeepIdentity`).

## Model

| member | source | states |
|---|---|---|
| `Linearization.Linearizable` | src/double_checked/dcl_executor.rs:161-170 | For any number of invocations, any mix of entry points and any schedule of a system in which no closing task can overlap another task: the log of linearization points is a run of the atomic test-and-run object that ends in the current gate; it holds the environment's stores in the order of the schedule, for each invocation exactly the operation it has decided so far (for a finished one, the operation its returned outcome shows; none if it failed before deciding), and nothing else. |
| `Linearization.RealTimeOrder` | src/double_checked/dcl_executor.rs:161-170 | An invocation that finished before another began has its operation in front of the other's, at every later time. |
| `Linearization.GateHoldsUnderGuard` | src/double_checked/dcl_executor.rs:100-115 | A gate seen open by the second check stays open until the invocation's own store or its guard's drop, for any number of overlapping readers, and a task in exclusive mode overlaps no guard of anyone else and no critical section of the environment. |
| `Guarantees.ProjectionIsSequential` | src/double_checked/internal/dcl_core.rs:138-163 | Whatever the interleaving, what an invocation has shown is a prefix of its sequential run for callbacks that differ from its script only in gate reads, token identity and, on a poisoning lock, refused acquisition; when it is over, trace and ending are those of the sequential run. |
| `Guarantees.InterleavedRoundTrip` | src/double_checked/lifecycle_dcl_executor.rs:357-399 | The captured lifecycle outcome of an interleaved invocation is decoded from that invocation's event trace alone. |
| `Guarantees.InterleavedBasicRoundTrip` | src/double_checked/dcl_executor.rs:211-232 | The captured basic outcome of an interleaved invocation is decoded from that invocation's event trace alone. |
| `Guarantees.GuardsAreDisciplined` | src/double_checked/internal/dcl_core.rs:149-160 | In every reachable state each invocation has acquired at most one guard; its second check and its task lie between that acquisition and its drop, without interruption; prepare, task cleanup, commit and rollback lie outside; the lock names exactly its holders; and two guards at once are both shared. |
| `Guarantees.PoisonedExactly` | src/double_checked/internal/dcl_core.rs:118-122 | In every reachable state the lock is poisoned iff it is a poisoning lock and an unwind dropped an exclusive guard, and the invocations that ever do so are those whose second check or task panicked; nothing else poisons it. |
| `Guarantees.RefusedOnlyByPoison` | src/double_checked/internal/dcl_core.rs:149-152 | In every reachable state an invocation whose acquisition did not go as scripted was refused by a poisoned lock of which somebody unwound an exclusive guard; on a lock that does not poison every acquisition goes as scripted. |
| `Guarantees.PoisonStopsTasks` | tests/double_checked/dcl_executor_tests.rs:297-317 | From a poisoned state, for the rest of any run, the lock stays poisoned, no task body starts, and an invocation that has not passed the lock never does. |
| `Guarantees.PoisonedCallsRollBack` | src/double_checked/lifecycle_dcl_executor.rs:389-398 | A lifecycle call that reaches a poisoned lock ends with a LockAcquisition panic as its first panic, returned or resumed, and last hands the unchanged token to rollback for exactly that cause, or drops it when no rollback is configured. |
| `GateAccounting.ClosesMatchReopens` | src/double_checked/lifecycle_dcl_executor.rs:80-86 | In every reachable state of a system without conflicts: tasks that have closed the gate + effective closings from outside + [gate open] = [gate open initially] + effective reopenings from outside, counted in the log and in the invocations, so each closing task used up an opening of its own. |
| `GateAccounting.AcceptancesAreSeparated` | src/double_checked/lifecycle_dcl_executor.rs:80-86 | At most one closing per opening: between a closing, by a task or from outside, and a later acceptance, something outside the tasks reopened the gate. |
| `ClaimProtocol.WorkIsInOnePlace` | doc/user_guide.md:373-387 | Exactly-once work over unbounded retries: [gate open] + claims in flight + claims awaiting their reopening + records written + claims lost (to a panic or a failed rollback) is always 1, so the record is written at most once however many commits fail; tasks may also err or panic before they close the gate. |
| `ClaimProtocol.NothingIsLost` | tests/docs/lifecycle_transaction_tests.rs:105-147 | When no callback of a claim panics from the task on and rollbacks complete, nothing is lost: the other four places always add up to 1. |
| `ClaimRuns.RetriesReachCommit` | doc/user_guide.md:373-385 | For every n there is a run of the protocol in which n claims in a row fail to commit, each is followed by its reopening, and the next one writes the record. |
| `ClaimRuns.RetrySystemCommits` | tests/docs/lifecycle_transaction_tests.rs:105-147 | The tested scenario for every number of failures: a concrete system meets all hypotheses above and its record gets in after n failed commits. |
| `TokenConservation.TokensConserved` | src/double_checked/lifecycle_dcl_executor.rs:255-267 | In every reachable state: tokens prepared = live + handed to commit + handed to rollback + dropped without a callback + at most one stranded per aborted invocation. |
| `TokenConservation.EveryTokenFinalized` | src/double_checked/lifecycle_dcl_executor.rs:389-398 | Once every invocation has its outcome, every prepared token has been committed, rolled back or dropped. |
| `TokenConservation.EachTokenFinalizedOnce` | src/double_checked/lifecycle_dcl_executor.rs:475-484 | Two finalizing events of a run with the same token identity are the same event of the same invocation: the one that prepared the token; and the token consumed carries what its task left in it, also when the original panic is resumed. |
| `TokenConservation.EachMintedTokenFinalizedExactlyOnce` | src/double_checked/lifecycle_dcl_executor.rs:389-398 | Every token that a finished invocation prepared has exactly one finalizing event in the whole system, and it is that invocation's own. |
| `Publication.ClosedGateIsFresh` | doc/user_guide.md:195-199 | When tasks publish before they close the gate and staleness events reopen it first, every reachable state with a closed gate has an up-to-date cache; a caller that begins there is rejected by its very next step, even while the refresher still holds the lock, and no fast-path rejection happens over a stale cache. |
| `Publication.FreshExactlyWhenReopenedFirst` | doc/user_guide.md:488-490 | The exact condition on schedules, every intermediate state included: a closed gate always means an up-to-date cache iff each staleness event finds the gate open and no outside closing finds the cache stale. |
| `Publication.FreshExactlyWhenClosersPublish` | doc/user_guide.md:195-199 | The exact condition on systems: freshness holds under every such schedule iff each task that can run and closes the gate publishes first. |
| `Publication.BumpBeforeReopen` | doc/user_guide.md:488-490 | The order that fails: a staleness event behind a closed gate, before the reopening, hides a stale cache. |
| `FastPath.OnlyAcquisitionWaits` | src/double_checked/internal/dcl_core.rs:63-65 | In every reachable state of a live process an unfinished invocation can step whoever holds the lock, unless it waits to acquire it, and then exactly when no guard excludes it. |
| `FastPath.RejectedWithoutLock` | src/double_checked/dcl_executor.rs:166-168 | In every reachable state with a closed gate, whoever holds the lock, a caller that has just begun is rejected in its own next two steps with the rejected outcome of its entry point, and touches neither the lock nor anybody else. |
| `FastPath.RejectedBehindCloser` | src/double_checked/dcl_executor.rs:166-168 | For every exclusive closer and every other caller of any mode there is a run in which the caller has been rejected while the closer still holds its guard in its task. |
| `FastPath.EnvironmentTakesTurns` | src/double_checked/lifecycle_dcl_executor.rs:84-86 | The environment can take the lock iff nobody has it and it is not poisoned, and can then store either value of the gate, make the cache stale and let go. |
| `Progress.EveryRunIsBounded` | src/double_checked/internal/dcl_core.rs:147-162 | In any schedule N invocations take at most 11 N steps between them. |
| `Progress.NeverStuck` | src/double_checked/internal/dcl_core.rs:147-162 | Deadlock freedom: while the process lives and an invocation is unfinished, some invocation can step or the environment can release the lock it holds, also on a poisoned lock. |
| `Progress.CanFinish` | src/double_checked/lifecycle_dcl_executor.rs:363-398 | Every reachable state can run on to a conclusion: every invocation has its outcome, or one of them is aborted and its own callbacks panic twice at once. |
| `Progress.MaximalRunsEnd` | src/double_checked/lifecycle_dcl_executor.rs:363-398 | A run that no step and no release extends has come to such a conclusion. |
| `Progress.EverybodyGetsAnOutcome` | src/double_checked/lifecycle_dcl_executor.rs:363-398 | Where no script can panic twice at once, no reachable state is aborted and every maximal run ends with an outcome for every invocation. |
| `Progress.QuietDestructorsSuffice` | src/double_checked/lifecycle_dcl_executor.rs:363-398 | Scripts whose task, unwinding guard and task results have quiet destructors never panic twice at once, whatever else panics. |
| `Aborts.AbortsExactly` | src/double_checked/lifecycle_dcl_executor.rs:363-398 | Each of the four entry points aborts iff a destructor panics into another panic of the same invocation, given on the callbacks alone. |
| `SharedModes.ReadersOverlapExactly` | doc/user_guide.md:406-414 | For any set of two or more invocations: there is a run in which all of their task bodies are active at once iff each of them uses the shared mode and nothing in its own callbacks keeps it from its task, through any entry point. |
| `SharedModes.RefinesExactly` | src/double_checked/dcl_executor.rs:100-115 | The exact condition of the refinement: every run of a system is a run of the atomic object ending in the current gate iff no two distinct shared-mode invocations can both reach their tasks while one of them closes the gate; the same systems are those in which a gate seen open under a guard always stays open. |
| `SharedModes.UnansweredRun` | src/double_checked/dcl_executor.rs:100-113 | For any two invocations in conflict, a schedule after which the log holds an acceptance the atomic object would not give. |
| `SharedModes.SharedClosersAreNotAtomic` | src/double_checked/dcl_executor.rs:100-113 | A concrete pair: one shared-mode task that closes the gate is harmless on its own, two of them break the refinement. |
| `Reachable.InvariantAlways` | src/double_checked/lifecycle_dcl_executor.rs:357-399 | Every reachable state satisfies the joint invariant: lock bookkeeping, projection, guard and token balance of each invocation, and poison history. |
| `Reachable.StepInvariant` | src/double_checked/lifecycle_dcl_executor.rs:357-399 | Every action of an invocation or of the environment keeps that invariant. |
| `Reachable.StepAborts` | src/double_checked/lifecycle_dcl_executor.rs:363-398 | The process is down iff an invocation took it down, after every action. |
| `Projection.StepFollows` | src/double_checked/internal/dcl_core.rs:147-162 | Every step keeps an invocation on the sequential path of its own callbacks, with exactly the trace shown so far. |
| `Projection.StepResolves` | src/double_checked/internal/dcl_core.rs:147-162 | A step changes the callbacks only by resolving a gate read, a token identity or the acquisition of a poisoned lock. |
| `Guarantees.ReadsExactly` | src/double_checked/internal/dcl_core.rs:63-65 | A check that does not panic reads the gate of the moment, prepare mints the next token with the script's contents, and no other step resolves either. |
| `Guarantees.AcquiresExactly` | src/double_checked/internal/dcl_core.rs:110-112 | Acquisition is refused iff the lock is poisoned at that moment and otherwise goes as scripted; no other step touches it. |
| `Guarantees.EarlyExits` | src/double_checked/lifecycle_dcl_executor.rs:363-387 | What every entry point shows and, with a quiet task destructor, returns when it never goes to the lock: checks, then the drop of the task, then the outcome of the first failure. |
| `Projection.MeaningAfterLock` | src/double_checked/lifecycle_dcl_executor.rs:389-398 | An entry point that reaches the lock is its opening, its locked block, and one finalization of that block's result. |
| `Projection.MeaningAborts` | src/double_checked/internal/dcl_core.rs:147-162 | An aborting locked block aborts every entry point, with no further event. |
| `Projection.BlockCases` | src/double_checked/internal/dcl_core.rs:147-162 | The locked block by cases: what is shown, and how it ends, for each operation that can panic and each destructor live at that point. |
| `GuardDiscipline.StepLockMatches` | src/double_checked/internal/dcl_core.rs:148-160 | The lock's bookkeeping names exactly the invocations at guarded program points, after every action. |
| `GuardDiscipline.MutualExclusion` | src/double_checked/lifecycle_dcl_executor.rs:80-86 | A guard in exclusive mode excludes every other guard and the environment. |
| `GuardDiscipline.StepGuards` | src/double_checked/internal/dcl_core.rs:149-160 | Every step's event is allowed at the stage of the invocation's one guard at which it is shown. |
| `GuardDiscipline.StageMeans` | src/double_checked/internal/dcl_core.rs:149-160 | A trace read without a breach has one guard at most, held without interruption by the second check and the task and by nothing that must avoid it. |
| `Reachable.StepBalances` | src/double_checked/lifecycle_dcl_executor.rs:255-267 | Every step keeps the invocation's tokens balanced: prepared minus finalized is 1 exactly while it owns one. |
| `Linearization.StepGateStable` | src/double_checked/dcl_executor.rs:110-115 | No action closes the gate under an invocation that relies on having seen it open, unless two scripts are in conflict. |
| `Linearization.OverlapIsConflict` | src/double_checked/dcl_executor.rs:110-115 | A task about to close the gate while another invocation relies on it is a conflict of the two scripts. |
| `Linearization.LogKeepsStores` | src/double_checked/dcl_executor.rs:110-115 | The environment's stores stand in the log in schedule order, whatever the invocations do. |
| `GateAccounting.RunsBalance` | src/double_checked/lifecycle_dcl_executor.rs:80-86 | In every run of the atomic object, closing acceptances and outside closings balance the openings, each acceptance having found the gate open. |
| `Linearization.LogEffect` | src/double_checked/internal/dcl_core.rs:110-115 | A step extends the log by exactly the operation it decides: a rejection at the read that saw false, an acceptance at the store or at the task's end, and only on a gate in the state the operation needs. |
| `Linearization.OutcomeShowsVerdict` | src/double_checked/internal/dcl_core.rs:110-115 | A returned outcome of any entry point shows the verdict the invocation's callbacks decide. |
| `Linearization.VerdictsShown` | doc/user_guide.md:416-434 | Which outcomes of which entry point count as accepted, rejected or undecided. |
| `Guarantees.UnwindsExactlyInside` | src/double_checked/internal/dcl_core.rs:118-122 | A finished invocation dropped its guard by unwinding iff it locked and its second check or its task panicked. |
| `ClaimProtocol.FinalizeWrites` | tests/docs/lifecycle_transaction_tests.rs:62-77 | The finalizing step of a claim writes exactly the record, exactly when it ends in a successful commit, and never in an outcome whose caller may retry. |
| `ClaimProtocol.ClaimsPartition` | doc/user_guide.md:375-385 | Claims are those in flight, those written, those to retry, and those lost to a panic, with no overlap. |
| `TokenConservation.StepFinalizesOwn` | src/double_checked/lifecycle_dcl_executor.rs:389-398 | An invocation's only finalizing event is its last one, and it consumes the token that invocation prepared. |
| `Progress.StepLowersRank` | src/double_checked/internal/dcl_core.rs:147-162 | Every step of an invocation lowers its remaining-step measure. |
| `Erasure.LifecycleErasure` | src/double_checked/lifecycle_dcl_executor.rs:252-268 | `run_with_token` shows the same events as `run_with_token_catching` always, and is its erasure (captured panics back to unwinds of the identical payload, a locked-phase panic outranking finalization) iff neither exception family holds. |
| `Erasure.LifecycleErasureExceptions` | src/double_checked/lifecycle_dcl_executor.rs:252-268 | In each exception family the capturing form still returns, while the propagating one aborts on a double panic or loses a prepare error to the cleanup panic. |
| `Erasure.CommitPanicOverHotResult` | src/double_checked/lifecycle_dcl_executor.rs:412-426 | A concrete call whose commit panics while its result has a panicking destructor: capture returns the result with the commit panic, propagation aborts. |
| `Erasure.BasicErasure` | src/double_checked/dcl_executor.rs:211-232 | `run` and `run_catching` show the same events always, and are each other's erasure iff no cleanup panic meets a check panic and no panicking result leaks from a return slot. |
| `Erasure.BasicErasureWithoutAbort` | src/double_checked/dcl_executor.rs:211-232 | Unless `run` aborts, it returns o iff `run_catching` returns Ok(o) and unwinds with p iff `run_catching` returns Err with payload p, exactly when no panicking result leaks from a return slot; if one leaks, `run` unwinds with the release panic and `run_catching` aborts. |
| `Erasure.LeakedResultDiffers` | src/double_checked/dcl_executor.rs:161-170 | A concrete call in which a result leaks: `run` unwinds with the release panic and `run_catching` aborts. |
| `Erasure.BasicContainment` | src/double_checked/dcl_executor.rs:211-232 | `run_catching` never unwinds, the dropped cleanup metadata included, and fails to return iff a destructor panics while a locked-phase panic is unwinding. |
| `Erasure.LifecycleContainment` | src/double_checked/lifecycle_dcl_executor.rs:357-399 | `run_with_token_catching` never unwinds, the dropped cleanup metadata included, and fails to return iff a destructor panics while a locked-phase panic is unwinding. |
| `Erasure.FinishErases` | src/double_checked/lifecycle_dcl_executor.rs:412-484 | Finishing any locked result with and without capture consumes the token in the same event and agrees up to capture, except for an owned task result that panics. |
| `LifecycleProperties.FinalizationPath` | src/double_checked/lifecycle_dcl_executor.rs:389-398 | Commit is selected iff the initial check was true, prepare gave a token, the lock was acquired, the second check was true, the task returned Ok and release did not panic; otherwise rollback gets the cause that the returned outcome stands for; either consumes the token as the task left it. |
| `LifecycleProperties.FinalizesOnce` | src/double_checked/lifecycle_dcl_executor.rs:389-398 | A prepared invocation that does not abort consumes its token in exactly one event, in both modes: a commit, a rollback or a drop, by what the callbacks select and what is configured. |
| `LifecycleProperties.UnpreparedNeverFinalizes` | src/double_checked/lifecycle_dcl_executor.rs:252-260 | An invocation without a token finalizes nothing, in both modes. |
| `LifecycleProperties.LatePanicsRollBack` | src/double_checked/internal/captured_rollback_execution.rs:47-81 | A release panic after a finished task, and a cleanup panic after a second rejection, roll back with that panic as cause, and it is the payload the propagating form resumes. |
| `LifecycleProperties.CapturedPriority` | src/double_checked/lifecycle_dcl_executor.rs:371-386 | Under capture a predicate panic, prepare error, prepare panic or locked-phase panic decides the outcome whatever later callbacks, destructors and dropped payload chains do, every one of which runs as code that could unwind; the locked-phase payload is also the one resumed without capture. |
| `LifecycleProperties.PropagatingPriority` | src/double_checked/lifecycle_dcl_executor.rs:252-260 | Without capture an earlier failure survives iff the skipped task drops quietly. |
| `LifecycleProperties.PrepareErrorCanBeLost` | src/double_checked/lifecycle_dcl_executor.rs:255-260 | A concrete call whose prepare error is replaced by a cleanup panic when nothing captures. |
| `LifecycleProperties.DecodesCaptured` | src/double_checked/lifecycle_dcl_executor.rs:357-399 | The captured lifecycle outcome of every call is recovered from its trace alone. |
| `LifecycleProperties.DecodesBasic` | src/double_checked/dcl_executor.rs:211-232 | The captured basic outcome of every call is recovered from its trace alone. |
| `LifecycleProperties.DecodesFinalization` | src/double_checked/internal/lifecycle_finalization.rs:75-178 | Every captured finalization outcome, with its phase, is recovered from its one event. |
| `LockedProperties.PhaseExactness` | src/double_checked/internal/dcl_core.rs:147-162 | The captured phase and payload are exactly those of the first operation that panicked; a trace without a panic belongs to the task's result or to a rejection. |
| `LockedProperties.PhaseMeaning` | src/double_checked/internal/dcl_core.rs:147-162 | Phase Task implies the task started; LockAcquisition, SecondConditionCheck and TaskCleanup imply it never did; TaskCleanup holds iff the trace is a false second check, a completed guard drop and then the cleanup. |
| `LockedProperties.LockedAbortsExactly` | src/double_checked/internal/dcl_core.rs:147-162 | The locked phase aborts iff a destructor live at the first panic panics as well. |
| `LockedProperties.LockedSucceedsExactly` | src/double_checked/internal/dcl_core.rs:147-162 | The locked phase returns a value iff no operation it reaches panics. |
| `LockedProperties.LockedShowsTaskResult` | src/double_checked/internal/dcl_core.rs:151-156 | The trace shows a task result iff the task ran and returned, and it is that result. |
| `Unwinding.ReportsFirstPanic` | src/double_checked/internal/dcl_core.rs:147-162 | A block of operations reports its first panic under that operation's phase iff every destructor live there is quiet, and aborts otherwise. |
| `Unwinding.CompletesExactly` | src/double_checked/internal/dcl_core.rs:147-162 | A block completes iff none of its operations panics. |
| `Unwinding.FailsWhereInterrupted` | src/double_checked/internal/dcl_core.rs:147-162 | A block that fails reports the phase of the first operation that interrupted it. |
| `LockedPhase.InterruptedCases` | src/double_checked/internal/dcl_core.rs:147-162 | Which operation of the locked phase is the first to panic, by cases, whatever destructors are live. |
| `LockedPhase.LockedCases` | src/double_checked/internal/dcl_core.rs:149-160 | The locked phase up to the second check, and which destructors run in which order when it fails: the guard before the unexecuted task. |
| `LockedPhase.OpenCases` | src/double_checked/internal/dcl_core.rs:153-158 | The locked phase after an open second check: a task panic drops only the guard, a release panic destroys the task's result. |
| `LockedPhase.ClosedCases` | src/double_checked/internal/dcl_core.rs:151-160 | The locked phase after a closed second check: the guard first, then the task, both inside the boundary. |
| `LifecycleFinalization.CommitCaptureErases` | src/double_checked/internal/lifecycle_finalization.rs:36-90 | The capturing commit finalizer always returns, and erased it is the propagating one, with the same event. |
| `LifecycleFinalization.RollbackCaptureErases` | src/double_checked/internal/lifecycle_finalization.rs:114-178 | The capturing rollback finalizer always returns, and erased it is the propagating one, with the same event. |
| `Panics.BoundariesContainExactly` | src/double_checked/panic_info.rs:147-158 | By induction on the chain: k nested boundaries that drop what they catch contain a raised payload iff its depth is below k; otherwise exactly the k-th payload of the chain escapes, after the k destructors before it have run in order. |
| `Panics.ForgettingContainsEverything` | src/double_checked/panic_info.rs:147-158 | With a final boundary that forgets, any number of boundaries contains every chain, runs at most k destructors and forgets the rest. |
| `Panics.NoNumberOfBoundariesSuffices` | src/double_checked/panic_info.rs:147-158 | Without forgetting, for every number of boundaries some payload escapes. |
| `Panics.ResumesOriginalExactly` | src/double_checked/lifecycle_dcl_executor.rs:475-503 | After the discarded operation the scheme always resumes the original payload; k boundaries that forget nothing do so iff the secondary payload's depth is below k, and otherwise its k-th payload replaces the original. |
| `Panics.DiscardContains` | src/double_checked/lifecycle_dcl_executor.rs:493-503 | Discarding any operation returns, and what it raised has its outermost destructor run and the next payload forgotten. |
| `Panics.MetadataContains` | src/double_checked/panic_info.rs:147-158 | Dropping captured metadata returns for every payload chain. |
| `LifecycleSemantics.ResumesLockedPanic` | src/double_checked/lifecycle_dcl_executor.rs:475-484 | Whatever rollback, its error's destructor or the token's destructor raise, to any depth, the payload that unwinds is the locked phase's own, and exactly what that one of the three raised is destroyed, its own secondary payload forgotten. |
| `DclExecutors.TaskCleanupContained` | src/double_checked/lifecycle_dcl_executor.rs:371-386 | Dropping a skipped task behind an earlier failure lets control go on to that failure, whatever the task's destructor and its payload chain do. |
| `Panics.CatchPhase` | src/double_checked/internal/panic_capture.rs:37-42 | A capture boundary never unwinds, is an error iff the operation unwound, and does not contain an abort. |
| `DclCores.DclCore.CheckInitial` | src/double_checked/internal/dcl_core.rs:63-65 | One predicate call, its panic propagated. |
| `DclCores.DclCore.CheckInitialCatching` | src/double_checked/internal/dcl_core.rs:78-80 | One predicate call behind a boundary of its own phase. |
| `DclCores.DclCore.LockedBody` | src/double_checked/internal/dcl_core.rs:148-161 | What runs inside the boundary: it writes the phase cell before each operation that may panic and lets a bare payload out; result, trace and token are those of the block semantics, no guard is left on any path, no task unless aborted, and whenever it does not return the cell holds the phase of the first operation that panicked. |
| `DclCores.DclCore.GuardedBody` | src/double_checked/internal/dcl_core.rs:150-161 | The second check under the guard, after writing its phase: its panic drops guard then task, a rejection skips the task, an open gate runs it; the cell then holds the phase of what panicked. |
| `DclCores.DclCore.TaskBody` | src/double_checked/internal/dcl_core.rs:154-158 | The task through its token reference, after writing its phase: its panic drops only the guard and leaves the cell alone; result and mutated token are what it left. |
| `DclCores.DclCore.ReleaseBody` | src/double_checked/internal/dcl_core.rs:157-161 | The tail of the phase: guard dropped before a task that was not run, each after writing its phase; a panicking drop destroys what is still live and does not write the cell. |
| `DclCores.DclCore.UnwindGuard` | src/double_checked/internal/dcl_core.rs:148-160 | The guard's destructor during an unwind: the payload goes on, or the process aborts; the phase cell is out of its reach. |
| `DclCores.DclCore.UnwindGuardThenTask` | src/double_checked/internal/dcl_core.rs:148-160 | The unwind of a panicking second check: the guard first, then the unexecuted task, each letting the payload go on or aborting. |
| `DclCores.DclCore.UnwindTask` | src/double_checked/internal/dcl_core.rs:148-160 | The unexecuted task's destructor during an unwind: the payload goes on, or the process aborts. |
| `DclCores.DclCore.ExecuteLocked` | src/double_checked/internal/dcl_core.rs:105-116 | The locked phase without a boundary agrees with its semantics in flow, events and token. |
| `DclCores.DclCore.ExecuteLockedCatching` | src/double_checked/internal/dcl_core.rs:138-163 | The boundary catches a bare payload and reads the phase cell once, after the unwind has crossed guard and task; the metadata so built, the events and the token are those of the semantics. |
| `LifecycleExecutors.LifecycleDclExecutor.RunWithToken` | src/double_checked/lifecycle_dcl_executor.rs:246-268 | The propagating entry point step by step: its flow and events are the semantics', what it silently discards is the secondary panic behind a locked-phase panic and nothing else, and unless aborted no guard, task or token is left. |
| `LifecycleExecutors.LifecycleDclExecutor.RunWithTokenCatching` | src/double_checked/lifecycle_dcl_executor.rs:357-399 | The capturing entry point step by step: likewise, and what it discards is the cleanup panic behind an earlier failure and nothing else. |
| `LifecycleExecutors.LifecycleDclExecutor.RunPrepared` | src/double_checked/lifecycle_dcl_executor.rs:255-268 | The propagating entry point from prepare on. |
| `LifecycleExecutors.LifecycleDclExecutor.RunPreparedCatching` | src/double_checked/lifecycle_dcl_executor.rs:377-398 | The capturing entry point from prepare on. |
| `LifecycleExecutors.LifecycleDclExecutor.Finish` | src/double_checked/lifecycle_dcl_executor.rs:262-267 | Dispatch of the locked result to commit, rollback or resume, for the token as the task left it. |
| `LifecycleExecutors.LifecycleDclExecutor.FinishCatching` | src/double_checked/lifecycle_dcl_executor.rs:389-398 | Dispatch of the locked result to commit or rollback under capture. |
| `LifecycleExecutors.LifecycleDclExecutor.ResumeAfterRollback` | src/double_checked/lifecycle_dcl_executor.rs:475-484 | Rollback or token drop runs behind two boundaries and control comes back from them; what unwinds is the original payload, and what was discarded is exactly what the operation raised. |
| `LifecycleExecutors.LifecycleDclExecutor.DiscardSecondary` | src/double_checked/lifecycle_dcl_executor.rs:493-503 | Two boundaries as control flow: whatever the operation raised, and whatever destroying that raises, control returns. |
| `LifecycleExecutors.LifecycleDclExecutor.DropTaskBehindFailure` | src/double_checked/lifecycle_dcl_executor.rs:371-386 | A skipped task is dropped behind an earlier failure, its panic captured and the capture dropped, and control returns. |
| `LifecycleExecutors.LifecycleDclExecutor.Commits` | src/double_checked/internal/lifecycle_finalization.rs:36-50 | The commit callback or the token drop consumes the token once, after the guard is gone. |
| `LifecycleExecutors.LifecycleDclExecutor.RollsBack` | src/double_checked/internal/lifecycle_finalization.rs:114-132 | The rollback callback or the token drop consumes the token once, after the guard is gone. |
| `LifecycleExecutors.LifecycleDclExecutor.RollBackCatching` | src/double_checked/lifecycle_dcl_executor.rs:454-465 | The cause handed to rollback and the outcome built afterwards come from the same locked result. |
| `LifecycleExecutors.LifecycleDclExecutor.CaptureFinalization` | src/double_checked/internal/lifecycle_finalization.rs:75-90 | A captured finalization erases to what was captured, and a panic is reported under the finalizer's phase. |
| `Panics.PanicInfo.FromPayload` | src/double_checked/panic_info.rs:64-74 | Metadata retains the phase and the original payload. |
| `Panics.PanicInfo.IntoPayload` | src/double_checked/panic_info.rs:128-132 | The original payload is taken out and the metadata left empty. |
| `Panics.PanicInfo.ResumeUnwind` | src/double_checked/panic_info.rs:142-144 | The resumed payload is the original one and nothing is destroyed on the way. |
| `Panics.PanicInfo.Drop` | src/double_checked/panic_info.rs:147-158 | The destructor's control flow always returns, for every payload chain; it empties the metadata, and does nothing after a take. |
| `Transactions.Transaction.Commit` | tests/docs/lifecycle_transaction_tests.rs:63-77 | An armed failure is used up and reported as such before anything is written, then a poisoned database is reported as such; staged records are appended iff neither applies. |
| `Transactions.Coordinator.Claim` | tests/docs/lifecycle_transaction_tests.rs:105-176 | One call through the executor from every state: the literal outcome for a closed gate, a failing task, an armed commit failure, a poisoned database and a sound one; performing the events of the executor's own trace writes the record in the last case only. |
| `Transactions.ClaimEffects` | tests/docs/lifecycle_transaction_tests.rs:111-122 | The effects of the executor's trace (the task's end closes the gate, a commit event applies its token) are exactly the state the returned outcome promises. |
| `Transactions.Coordinator.Perform` | tests/docs/lifecycle_transaction_tests.rs:62-77 | The events of a trace performed in order on gate and database, each commit through the transaction object. |
| `Transactions.Coordinator.Retry` | tests/docs/lifecycle_transaction_tests.rs:105-176 | For any number of task failures, commit failures and retries, each with its reopening: the record is written at most once, and exactly when the gate was open, an attempt wins and the database is not poisoned; nothing else takes the opening. |
| `Transactions.WinsExactly` | tests/docs/lifecycle_transaction_tests.rs:105-147 | With no failure armed beforehand, an attempt wins iff some attempt is clean. |
| `Transactions.CommitFailureThenRetry` | tests/docs/lifecycle_transaction_tests.rs:105-147 | Failed commit, reopening, retry: the record is there once and the gate is closed. |
| `Submissions.SubmissionsRefineLockFirst` | benches/dcl_bench.rs:39-66 | For any number of double-checked callers, entry points, lock modes, panics, shutdowns and restarts: the answers in the log are those of the lock-first machine run on it, and its counter is the number of acceptances and of task bodies that ran, modulo the machine word. |
| `Submissions.ShutDownStopsSubmissions` | benches/dcl_bench.rs:53-66 | From any reachable state that is shut down, and until a restart, no schedule counts a further submission, not even of callers already past the fast path. |
| `Submissions.Submission.SubmitHandwrittenDcl` | benches/dcl_bench.rs:53-66 | One call is accepted iff the machine runs at the call and again when the lock is obtained, by the last state stored in between; the counter then holds the others' submissions that found the machine running and this one; in all cases it is one call of the atomic lock-first form. |
| `Submissions.MeanwhileState` | benches/dcl_bench.rs:39-66 | Whatever others do while one waits, the state found is the last one stored, or the old one. |
| `Submissions.MeanwhileCount` | benches/dcl_bench.rs:39-66 | Whatever others do while one waits, the counter grows, modulo the word, by the submissions whose latest earlier store left the machine running. |

## Left out

- Weak memory orderings: the crate leaves the ordering of gate accesses to its callers.
- Internals of the lock backends: the lock is a mode with acquire, release and optional poisoning.
- Aborting panic configurations and hooks, callbacks that terminate the process themselves, and anything after a second panic: `Abort` is final.
- The downcast of a payload to a message, `Debug` output, `phase`, `message`, `payload` and `into_result`: each is one branch or one field.
- Builder types, `Clone` implementations, `Arc` sharing and the static error bounds: type plumbing. Calls with neither commit nor rollback configured are covered as well, although the builder excludes them.
- `run` and `run_catching` of the lifecycle executor: they wrap the token-taking forms with a task that ignores its token.
- Task values, task errors and lifecycle errors are identities together with the behaviour of their destructors; a returned value's destruction after the call is the caller's.
- The basic executor has no class of its own: its two methods update nothing, so they are functions over the core's results, and the core is imperative.
- DclCores.DclCore.ExecuteLocked: shares its body with the capturing form, including a phase cell that the source does not have here and that nobody reads; what differs is whether the result is still destroyed when the guard's drop panics.
- LifecycleExecutors.LifecycleDclExecutor.CaptureFinalization: the boundary is modelled around the finalizer's result, not as control flow inside it.
- ClaimProtocol.WorkIsInOnePlace: reopenings are counted against the claims that still await one, not matched to a particular claim, because the gate does not say whose claim it belongs to.
- ClaimProtocol.NothingIsLost: does not cover a backend whose commit reports an error after writing; the guide names that case and asks callers to query it first.
- TokenConservation.TokensConserved: an invocation that aborts may strand its one token in a dead frame; the process is gone with it.
- Progress.MaximalRunsEnd: predicates, tasks and finalizers always end; a callback that loops or waits for another invocation is not a step.
- Publication.ClosedGateIsFresh: freshness is that of the state in which the gate was read; nothing is promised about later staleness events.
- Transactions.Coordinator.Claim: the effects of a call are performed event by event from its trace once the call is over, not inside the callbacks; calls run one after the other, and the barriers that hold a commit open are not modelled (overlapping claims are in `ClaimProtocol`).
- Submissions.Submission.SubmitHandwrittenDcl: what others do while the caller waits is a list of operations under the lock (the system of N callers is `Submissions.SubmissionsRefineLockFirst`); the third typed benchmark form has the same shape, and the worker loops and timing around them are not modelled.
- The lock-first submission is the reference function `Submissions.LockFirst`, not code of its own.
- Submissions.SubmissionsRefineLockFirst: a submission counts when its task body ends; the place of the counter's increment inside the body is not modelled.
- Subprocess test harness, documentation consistency tests and continuous-integration scripts.
