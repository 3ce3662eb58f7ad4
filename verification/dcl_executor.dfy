/** The basic executor: `run` and `run_catching` over the double-checked core. */
module DclExecutors {
  import opened Wrappers
  import opened Panics
  import opened Outcomes
  import opened LockedPhase

  function Then<T>(events: seq<Event>, run: Run<T>): Run<T> {
    Run(run.flow, events + run.trace)
  }

  /** Drops an argument still owned when a function unwinds with `payload`. */
  function DropsWhileUnwinding<T>(dropped: Call, payload: Payload): Flow<T> {
    if dropped.Panicked? then Abort else Unwind(payload)
  }

  function DropTaskCatching(cb: Callbacks): Run<Result<(), Caught>> {
    Run(CatchPhase(PanicPhase.TaskCleanup, CallFlow(cb.dropTask)), [TaskDropped(cb.dropTask)])
  }

  /** Dropping the result of a captured task drop: metadata inside it is destroyed. */
  function DropResult(result: Result<(), Caught>): Cleaning {
    match result
    case Ok(_) => Cleaning(Return(()), [])
    case Err(caught) => DropMetadata(caught.payload)
  }

  /** A skipped task dropped behind an earlier failure: its panic is captured, and the capture dropped. */
  function DiscardTaskCleanup(cb: Callbacks): Cleaning {
    match DropTaskCatching(cb).flow
    case Return(result) => DropResult(result)
    case _ => Cleaning(Abort, [])
  }

  /** Whatever the skipped task raises, control goes on to the earlier failure. */
  lemma TaskCleanupContained<T>(cb: Callbacks, held: Flow<()>, next: Flow<T>)
    ensures Afterwards(DiscardTaskCleanup(cb), held, next) == next
    ensures DiscardTaskCleanup(cb) == DiscardSecondary(Cleaning(CallFlow(cb.dropTask), []))
    ensures DiscardTaskCleanup(cb).disposals == Disposes(cb.dropTask)
  {
    if cb.dropTask.Panicked? {
      MetadataContains(cb.dropTask.payload);
    }
  }

  /** `DclExecutor::run`: the task argument is dropped on every exit that did not move it. */
  function RunBasic(cb: Callbacks): Run<ExecutionOutcome> {
    Then([InitialCheckRan(cb.first)],
         match cb.first
         case CheckPanics(payload) =>
           Run(DropsWhileUnwinding(cb.dropTask, payload), [TaskDropped(cb.dropTask)])
         case Sees(false) =>
           Run(match cb.dropTask
               case Returned => Return(ExecutionOutcome.ConditionNotMet)
               case Panicked(payload) => Unwind(payload),
               [TaskDropped(cb.dropTask)])
         case Sees(true) =>
           Run(match LockedPropagatingResult(cb, UNIT_TOKEN)
               case Return(locked) => Return(locked.IntoOutcome())
               case Unwind(payload) => Unwind(payload)
               case Abort => Abort,
               LockedPropagating(cb, UNIT_TOKEN).trace))
  }

  /** `DclExecutor::run_catching`: the same protocol behind capture boundaries. */
  function RunBasicCatching(cb: Callbacks): Run<Result<ExecutionOutcome, Caught>> {
    Then([InitialCheckRan(cb.first)],
         match cb.first
         case CheckPanics(payload) =>
           Run(Afterwards(DiscardTaskCleanup(cb), DropMetadata(payload).flow,
                          Return(Err(Caught(PanicPhase.InitialConditionCheck, payload)))),
               DropTaskCatching(cb).trace)
         case Sees(false) =>
           var dropped := DropTaskCatching(cb);
           Run(match dropped.flow
               case Return(Ok(_)) => Return(Ok(ExecutionOutcome.ConditionNotMet))
               case Return(Err(caught)) => Return(Err(caught))
               case _ => Abort,
               dropped.trace)
         case Sees(true) =>
           Run(match LockedResult(cb, UNIT_TOKEN)
               case Return(Ok(locked)) => Return(Ok(locked.IntoOutcome()))
               case Return(Err(caught)) => Return(Err(caught))
               case _ => Abort,
               Locked(cb, UNIT_TOKEN).trace))
  }
}
