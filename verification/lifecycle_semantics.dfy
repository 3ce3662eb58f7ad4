/** What the lifecycle executor's entry points do, as functions of the callbacks. */
module LifecycleSemantics {
  import opened Wrappers
  import opened Panics
  import opened Outcomes
  import opened LockedPhase
  import opened LifecycleFinalization
  import opened DclExecutors

  /** The locked results that select rollback without a panic. */
  datatype RollbackExecution = ConditionNotMet | TaskFailed(error: Owned) {
    function Cause(): RollbackCause {
      match this
      case ConditionNotMet => CauseConditionNotMet
      case TaskFailed(error) => CauseTaskFailed(error)
    }

    function IntoOutcome(rollback: FinalizationOutcome): LifecycleOutcome {
      match this
      case ConditionNotMet => LifecycleOutcome.SecondConditionNotMet(rollback)
      case TaskFailed(error) => LifecycleOutcome.TaskFailed(error, rollback)
    }
  }

  /** The locked results that select rollback when panics are captured. */
  datatype CapturedRollbackExecution = ConditionNotMet | TaskFailed(error: Owned) | Panicked(panic: Caught) {
    function Cause(): RollbackCause {
      match this
      case ConditionNotMet => CauseConditionNotMet
      case TaskFailed(error) => CauseTaskFailed(error)
      case Panicked(panic) => CausePanicked(panic)
    }

    function IntoOutcome(rollback: CapturedFinalizationOutcome): CapturedLifecycleOutcome {
      match this
      case ConditionNotMet => CapturedLifecycleOutcome.SecondConditionNotMet(rollback)
      case TaskFailed(error) => CapturedLifecycleOutcome.TaskFailed(error, rollback)
      case Panicked(panic) => CapturedLifecycleOutcome.ExecutionPanicked(panic, rollback)
    }
  }

  /** The commit path; `value` is still owned if finalization unwinds. */
  function FinishCommit(cb: Callbacks, token: Token, value: Owned): Run<LifecycleOutcome> {
    var finalized := FinalizeCommit(cb.commit, token, cb.dropToken(token));
    Run(match finalized.flow
        case Return(commit) => Return(LifecycleOutcome.TaskSucceeded(value, commit))
        case Unwind(payload) => DropsWhileUnwinding(value.dropped, payload)
        case Abort => Abort,
        finalized.trace)
  }

  function FinishCommitCatching(cb: Callbacks, token: Token, value: Owned): Run<CapturedLifecycleOutcome> {
    var finalized := FinalizeCommitCatching(cb.commit, token, cb.dropToken(token));
    Run(match finalized.flow
        case Return(commit) => Return(CapturedLifecycleOutcome.TaskSucceeded(value, commit))
        case _ => Abort,
        finalized.trace)
  }

  /** The destructor of the task error an unsuccessful execution still owns. */
  function HeldError(execution: RollbackExecution): Call {
    match execution
    case ConditionNotMet => Returned
    case TaskFailed(error) => error.dropped
  }

  /** The ordinary rollback path; a task error is still owned if finalization unwinds. */
  function FinishRollback(cb: Callbacks, token: Token, execution: RollbackExecution): Run<LifecycleOutcome> {
    var finalized := FinalizeRollback(cb.rollback, token, execution.Cause(), cb.dropToken(token));
    Run(match finalized.flow
        case Return(rollback) => Return(execution.IntoOutcome(rollback))
        case Unwind(payload) => DropsWhileUnwinding(HeldError(execution), payload)
        case Abort => Abort,
        finalized.trace)
  }

  function FinishRollbackCatching(cb: Callbacks, token: Token, execution: CapturedRollbackExecution):
    Run<CapturedLifecycleOutcome>
  {
    var finalized := FinalizeRollbackCatching(cb.rollback, token, execution.Cause(), cb.dropToken(token));
    Run(match finalized.flow
        case Return(rollback) => Return(execution.IntoOutcome(rollback))
        case _ => Abort,
        finalized.trace)
  }

  /** The operation behind a locked-phase panic: rollback, whose error is dropped at once, or the token's drop. */
  function SecondaryOperation(cb: Callbacks, token: Token, panic: Caught): Flow<()> {
    match cb.rollback
    case None => CallFlow(cb.dropToken(token))
    case Some(callback) =>
      match FinalizerFlow(callback(token, CausePanicked(panic)))
      case Return(Ok(_)) => Return(())
      case Return(Err(error)) => CallFlow(error.dropped)
      case Unwind(payload) => Unwind(payload)
      case Abort => Abort
  }

  /** What becomes of anything that operation raises. */
  function SecondaryCleaning(cb: Callbacks, token: Token, panic: Caught): Cleaning {
    DiscardSecondary(Cleaning(SecondaryOperation(cb, token, panic), []))
  }

  /** Rollback after a locked-phase panic, behind its boundaries, and then the resumption of that panic. */
  function RollbackThenResume(cb: Callbacks, token: Token, panic: Caught): Run<LifecycleOutcome> {
    Run(ResumeAfter(SecondaryCleaning(cb, token, panic), panic.payload),
        match cb.rollback
        case Some(callback) =>
          [RollbackRan(token, CausePanicked(panic), callback(token, CausePanicked(panic)))]
        case None => [TokenDropped(token, cb.dropToken(token))])
  }

  /**
   Whatever rollback, its error's destructor or the token's destructor raise, to
   any depth, the payload that unwinds is the locked phase's own, and exactly
   what the one of them that ran raised has been disposed of.
   */
  lemma ResumesLockedPanic(cb: Callbacks, token: Token, panic: Caught)
    ensures RollbackThenResume(cb, token, panic).flow == Unwind(panic.payload)
    ensures SecondaryCleaning(cb, token, panic).disposals ==
            Disposes(match cb.rollback
                     case None => cb.dropToken(token)
                     case Some(rollback) =>
                       match rollback(token, CausePanicked(panic))
                       case Finalized => Returned
                       case FinalizeErrs(error) => error.dropped
                       case FinalizePanics(payload) => Call.Panicked(payload))
  {
    DiscardContains(SecondaryOperation(cb, token, panic));
    MetadataContains(panic.payload);
  }

  function FinishLocked(cb: Callbacks, token: Token, locked: Flow<Result<LockedExecution, Caught>>):
    Run<LifecycleOutcome>
  {
    match locked
    case Return(Ok(ConditionNotMet)) => FinishRollback(cb, token, RollbackExecution.ConditionNotMet)
    case Return(Ok(Task(Ok(value)))) => FinishCommit(cb, token, value)
    case Return(Ok(Task(Err(error)))) => FinishRollback(cb, token, RollbackExecution.TaskFailed(error))
    case Return(Err(panic)) => RollbackThenResume(cb, token, panic)
    case _ => Run(Abort, [])
  }

  function FinishLockedCatching(cb: Callbacks, token: Token, locked: Flow<Result<LockedExecution, Caught>>):
    Run<CapturedLifecycleOutcome>
  {
    match locked
    case Return(Ok(ConditionNotMet)) =>
      FinishRollbackCatching(cb, token, CapturedRollbackExecution.ConditionNotMet)
    case Return(Ok(Task(Ok(value)))) => FinishCommitCatching(cb, token, value)
    case Return(Ok(Task(Err(error)))) =>
      FinishRollbackCatching(cb, token, CapturedRollbackExecution.TaskFailed(error))
    case Return(Err(panic)) =>
      FinishRollbackCatching(cb, token, CapturedRollbackExecution.Panicked(panic))
    case _ => Run(Abort, [])
  }

  /** A prepare error already in the return slot while the unexecuted task is dropped. */
  function ReturnsPrepareError(cb: Callbacks, error: Owned): Flow<LifecycleOutcome> {
    match cb.dropTask
    case Returned => Return(LifecycleOutcome.PrepareFailed(error))
    case Panicked(payload) =>
      if cb.dropsReturnSlot then DropsWhileUnwinding(error.dropped, payload) else Unwind(payload)
  }

  /** `LifecycleDclExecutor::run_with_token`. */
  function RunWithToken(cb: Callbacks): Run<LifecycleOutcome> {
    Then([InitialCheckRan(cb.first)],
         match cb.first
         case CheckPanics(payload) =>
           Run(DropsWhileUnwinding(cb.dropTask, payload), [TaskDropped(cb.dropTask)])
         case Sees(false) =>
           Run(match cb.dropTask
               case Returned => Return(LifecycleOutcome.InitialConditionNotMet)
               case Panicked(payload) => Unwind(payload),
               [TaskDropped(cb.dropTask)])
         case Sees(true) => RunPrepared(cb))
  }

  function RunPrepared(cb: Callbacks): Run<LifecycleOutcome> {
    Then([PrepareRan(cb.prepare)],
         match cb.prepare
         case PreparePanics(payload) =>
           Run(DropsWhileUnwinding(cb.dropTask, payload), [TaskDropped(cb.dropTask)])
         case PrepareErrs(error) => Run(ReturnsPrepareError(cb, error), [TaskDropped(cb.dropTask)])
         case Prepared(token) =>
           Then(Locked(cb, token).trace,
                FinishLocked(cb, TokenAfter(cb, token), LockedResult(cb, token))))
  }

  /** `LifecycleDclExecutor::run_with_token_catching`. */
  function RunWithTokenCatching(cb: Callbacks): Run<CapturedLifecycleOutcome> {
    Then([InitialCheckRan(cb.first)],
         match cb.first
         case CheckPanics(payload) =>
           Run(Afterwards(DiscardTaskCleanup(cb), DropMetadata(payload).flow,
                          Return(InitialConditionCheckPanicked(Caught(PanicPhase.InitialConditionCheck, payload)))),
               DropTaskCatching(cb).trace)
         case Sees(false) =>
           Run(match DropTaskCatching(cb).flow
               case Return(Ok(_)) => Return(CapturedLifecycleOutcome.InitialConditionNotMet)
               case Return(Err(caught)) => Return(TaskCleanupPanicked(caught))
               case _ => Abort,
               DropTaskCatching(cb).trace)
         case Sees(true) => RunPreparedCatching(cb))
  }

  function RunPreparedCatching(cb: Callbacks): Run<CapturedLifecycleOutcome> {
    Then([PrepareRan(cb.prepare)],
         match cb.prepare
         case PreparePanics(payload) =>
           Run(Afterwards(DiscardTaskCleanup(cb), DropMetadata(payload).flow,
                          Return(PreparePanicked(Caught(PanicPhase.Prepare, payload)))),
               DropTaskCatching(cb).trace)
         case PrepareErrs(error) =>
           Run(Afterwards(DiscardTaskCleanup(cb), CallFlow(error.dropped),
                          Return(CapturedLifecycleOutcome.PrepareFailed(error))),
               DropTaskCatching(cb).trace)
         case Prepared(token) =>
           Then(Locked(cb, token).trace,
                FinishLockedCatching(cb, TokenAfter(cb, token), LockedResult(cb, token))))
  }
}
