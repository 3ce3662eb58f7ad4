/** Values, tokens, callback oracles, observable events and the public outcome types. */
module Outcomes {
  import opened Wrappers
  import opened Panics

  /** A task value, task error or lifecycle error together with the behaviour of its destructor. */
  datatype Owned = Owned(id: int, dropped: Call)

  /** The invocation-local token; `pending` is the state a task may change through its reference. */
  datatype Token = Token(id: nat, pending: seq<int>)

  const UNIT_TOKEN := Token(0, [])

  datatype Check = Sees(open: bool) | CheckPanics(payload: Payload)

  datatype Preparation = Prepared(token: Token) | PrepareErrs(error: Owned) | PreparePanics(payload: Payload)

  datatype TaskEnding = Finishes(result: Result<Owned, Owned>) | TaskPanics(payload: Payload)

  /** A task run: its ending and the token as the task left it. */
  datatype TaskRun = TaskRun(ending: TaskEnding, token: Token)

  datatype Finalizer = Finalized | FinalizeErrs(error: Owned) | FinalizePanics(payload: Payload)

  datatype RollbackCause =
    | CauseConditionNotMet
    | CauseTaskFailed(error: Owned)
    | CausePanicked(panic: Caught)

  /**
   One invocation's callbacks. `releaseUnwinding` is the guard's destructor when
   it runs during an unwind; `dropsReturnSlot` says whether the compiler destroys
   a result already written to the return slot when a later destructor panics.
   */
  datatype Callbacks = Callbacks(
    first: Check,
    prepare: Preparation,
    acquire: Call,
    second: Check,
    task: Token -> TaskRun,
    release: Call,
    releaseUnwinding: Call,
    dropTask: Call,
    commit: Option<Token -> Finalizer>,
    rollback: Option<(Token, RollbackCause) -> Finalizer>,
    dropToken: Token -> Call,
    dropsReturnSlot: bool)

  /** What an observer of the callbacks sees, in order. */
  datatype Event =
    | InitialCheckRan(check: Check)
    | PrepareRan(preparation: Preparation)
    | AcquireRan(call: Call)
    | SecondCheckRan(check: Check)
    | TaskStarted(given: Token)
    | TaskEnded(ending: TaskEnding, left: Token)
    | GuardDropped(call: Call, unwinding: bool)
    | TaskDropped(call: Call)
    | CommitRan(token: Token, finalizer: Finalizer)
    | RollbackRan(token: Token, cause: RollbackCause, finalizer: Finalizer)
    | TokenDropped(token: Token, call: Call)

  datatype Run<+T> = Run(flow: Flow<T>, trace: seq<Event>)

  datatype LockedExecution = ConditionNotMet | Task(result: Result<Owned, Owned>) {
    /** The public outcome of a completed locked phase. */
    function IntoOutcome(): ExecutionOutcome {
      match this
      case ConditionNotMet => ExecutionOutcome.ConditionNotMet
      case Task(Ok(value)) => Success(value)
      case Task(Err(error)) => ExecutionOutcome.TaskFailed(error)
    }
  }

  datatype ExecutionOutcome = Success(value: Owned) | ConditionNotMet | TaskFailed(error: Owned)

  datatype FinalizationOutcome = NotRequired | Succeeded | Failed(error: Owned)

  datatype CapturedFinalizationOutcome = NotRequired | Succeeded | Failed(error: Owned) | Panicked(panic: Caught)

  datatype LifecycleOutcome =
    | InitialConditionNotMet
    | PrepareFailed(prepareError: Owned)
    | TaskSucceeded(value: Owned, commit: FinalizationOutcome)
    | SecondConditionNotMet(rollback: FinalizationOutcome)
    | TaskFailed(error: Owned, rollback: FinalizationOutcome)

  datatype CapturedLifecycleOutcome =
    | InitialConditionNotMet
    | InitialConditionCheckPanicked(panic: Caught)
    | TaskCleanupPanicked(panic: Caught)
    | PrepareFailed(prepareError: Owned)
    | PreparePanicked(panic: Caught)
    | TaskSucceeded(value: Owned, commit: CapturedFinalizationOutcome)
    | SecondConditionNotMet(rollback: CapturedFinalizationOutcome)
    | TaskFailed(error: Owned, rollback: CapturedFinalizationOutcome)
    | ExecutionPanicked(panic: Caught, rollback: CapturedFinalizationOutcome)

  function CheckCall(check: Check): Call {
    match check
    case Sees(_) => Returned
    case CheckPanics(payload) => Call.Panicked(payload)
  }

  function TaskCall(ending: TaskEnding): Call {
    match ending
    case Finishes(_) => Returned
    case TaskPanics(payload) => Call.Panicked(payload)
  }

  function FinalizerFlow(finalizer: Finalizer): Flow<Result<(), Owned>> {
    match finalizer
    case Finalized => Return(Ok(()))
    case FinalizeErrs(error) => Return(Err(error))
    case FinalizePanics(payload) => Unwind(payload)
  }

  /** The destructor of whichever value a finished task returned. */
  function ResultDrop(result: Result<Owned, Owned>): Call {
    match result
    case Ok(value) => value.dropped
    case Err(error) => error.dropped
  }
}
