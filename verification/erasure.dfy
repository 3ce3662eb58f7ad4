/**
 Panic-capture erasure: the propagating entry points are the capturing ones
 with captured panics turned back into unwinds, and exactly when.
 */
module Erasure {
  import opened Wrappers
  import opened Panics
  import opened Outcomes
  import opened LockedPhase
  import opened DclExecutors
  import opened LifecycleFinalization
  import opened LifecycleSemantics
  import opened LockedProperties

  function EraseBasic(run: Run<Result<ExecutionOutcome, Caught>>): Run<ExecutionOutcome> {
    Run(match run.flow
        case Return(Ok(outcome)) => Return(outcome)
        case Return(Err(panic)) => Unwind(panic.payload)
        case Unwind(payload) => Unwind(payload)
        case Abort => Abort,
        run.trace)
  }

  /** A locked-phase panic outranks the finalization it caused; otherwise a finalization panic unwinds. */
  function EraseOutcome(outcome: CapturedLifecycleOutcome): Flow<LifecycleOutcome> {
    match outcome
    case InitialConditionNotMet => Return(LifecycleOutcome.InitialConditionNotMet)
    case InitialConditionCheckPanicked(panic) => Unwind(panic.payload)
    case TaskCleanupPanicked(panic) => Unwind(panic.payload)
    case PrepareFailed(error) => Return(LifecycleOutcome.PrepareFailed(error))
    case PreparePanicked(panic) => Unwind(panic.payload)
    case TaskSucceeded(value, commit) =>
      (match EraseFinalization(commit)
       case Return(plain) => Return(LifecycleOutcome.TaskSucceeded(value, plain))
       case Unwind(payload) => Unwind(payload)
       case Abort => Abort)
    case SecondConditionNotMet(rollback) =>
      (match EraseFinalization(rollback)
       case Return(plain) => Return(LifecycleOutcome.SecondConditionNotMet(plain))
       case Unwind(payload) => Unwind(payload)
       case Abort => Abort)
    case TaskFailed(error, rollback) =>
      (match EraseFinalization(rollback)
       case Return(plain) => Return(LifecycleOutcome.TaskFailed(error, plain))
       case Unwind(payload) => Unwind(payload)
       case Abort => Abort)
    case ExecutionPanicked(panic, _) => Unwind(panic.payload)
  }

  function EraseLifecycle(run: Run<CapturedLifecycleOutcome>): Run<LifecycleOutcome> {
    Run(match run.flow
        case Return(outcome) => EraseOutcome(outcome)
        case Unwind(payload) => Unwind(payload)
        case Abort => Abort,
        run.trace)
  }

  /** The skipped task's destructor panics while the initial check's panic unwinds. */
  predicate CleanupPanicsAfterCheckPanic(cb: Callbacks) {
    cb.first.CheckPanics? && cb.dropTask.Panicked?
  }

  /**
   The guard's destructor panics after a finished task, so does the result's,
   and the compiler leaks a written return slot: the capturing form still
   holds the result in a local and aborts, the propagating form leaks it.
   */
  predicate ResultLeaksOnRelease(cb: Callbacks, token: Token) {
    && cb.first == Sees(true)
    && TaskRuns(cb)
    && cb.task(token).ending.Finishes?
    && cb.release.Panicked?
    && ResultDrop(cb.task(token).ending.result).Panicked?
    && !cb.dropsReturnSlot
  }

  /** Basic executor: both entry points always show the same events, and erasure fails exactly here. */
  lemma BasicErasure(cb: Callbacks)
    ensures RunBasic(cb).trace == RunBasicCatching(cb).trace
    ensures RunBasic(cb) == EraseBasic(RunBasicCatching(cb)) <==>
            !CleanupPanicsAfterCheckPanic(cb) && !ResultLeaksOnRelease(cb, UNIT_TOKEN)
  {
    if cb.first == Sees(true) {
      LockedCases(cb, UNIT_TOKEN, true);
      OpenCases(cb, UNIT_TOKEN, true);
      ClosedCases(cb, UNIT_TOKEN, true);
      LockedCases(cb, UNIT_TOKEN, cb.dropsReturnSlot);
      OpenCases(cb, UNIT_TOKEN, cb.dropsReturnSlot);
      ClosedCases(cb, UNIT_TOKEN, cb.dropsReturnSlot);
    }
  }

  /** The two basic entry points agree on every returned outcome and on every payload. */
  ghost predicate AgreeOutcomeByOutcome(run: Flow<ExecutionOutcome>, captured: Flow<Result<ExecutionOutcome, Caught>>) {
    && (forall o :: run == Return(o) <==> captured == Return(Ok(o)))
    && (forall p :: run == Unwind(p) <==> captured.Return? && captured.value.Err? && captured.value.error.payload == p)
  }

  /** A run that does not abort agrees with its capture exactly when no panicking result leaks; else capture aborts. */
  lemma BasicErasureWithoutAbort(cb: Callbacks)
    requires !RunBasic(cb).flow.Abort?
    ensures AgreeOutcomeByOutcome(RunBasic(cb).flow, RunBasicCatching(cb).flow) <==>
            !ResultLeaksOnRelease(cb, UNIT_TOKEN)
    ensures ResultLeaksOnRelease(cb, UNIT_TOKEN) ==>
              RunBasic(cb).flow == Unwind(cb.release.payload) && RunBasicCatching(cb).flow == Abort
  {
    BasicErasure(cb);
    BasicContainment(cb);
    if ResultLeaksOnRelease(cb, UNIT_TOKEN) {
      LockedCases(cb, UNIT_TOKEN, false);
      OpenCases(cb, UNIT_TOKEN, false);
      assert RunBasic(cb).flow == Unwind(cb.release.payload);
    }
  }

  /** Callbacks of a call that runs its task to a value whose destructor panics; `drops` is the compiler's choice. */
  function HotResult(release: Call, commit: Finalizer, drops: bool): Callbacks {
    Callbacks(Sees(true), Prepared(UNIT_TOKEN), Returned, Sees(true),
              token => TaskRun(Finishes(Ok(Owned(0, Call.Panicked(Inert(8))))), token), release, Returned, Returned,
              Some(token => commit), None, token => Returned, drops)
  }

  /** A leaked result: `run` unwinds with the release panic where `run_catching` aborts. */
  lemma LeakedResultDiffers()
    ensures var cb := HotResult(Call.Panicked(Inert(7)), Finalized, false);
            && ResultLeaksOnRelease(cb, UNIT_TOKEN)
            && RunBasic(cb).flow == Unwind(Inert(7))
            && RunBasicCatching(cb).flow == Abort
  {
    var cb := HotResult(Call.Panicked(Inert(7)), Finalized, false);
    LockedCases(cb, UNIT_TOKEN, false);
    OpenCases(cb, UNIT_TOKEN, false);
  }

  /** Total containment: capture never unwinds, and aborts exactly on a double panic of the locked phase. */
  lemma BasicContainment(cb: Callbacks)
    ensures !RunBasicCatching(cb).flow.Unwind?
    ensures RunBasicCatching(cb).flow.Abort? <==> cb.first == Sees(true) && LockedDoublePanic(cb, UNIT_TOKEN)
  {
    LockedAbortsExactly(cb, UNIT_TOKEN);
  }

  /** The invocation reaches the lock with this token. */
  predicate Reaches(cb: Callbacks, token: Token) {
    cb.first == Sees(true) && cb.prepare == Prepared(token)
  }

  /**
   The task finished, the guard was dropped quietly, and then the finalizer that
   the task's result selects panicked, or so did the token dropped in its place.
   */
  predicate FinalizationPanics(cb: Callbacks, token: Token) {
    && TaskRuns(cb) && cb.task(token).ending.Finishes? && cb.release.Returned?
    && var left := cb.task(token).token;
       match cb.task(token).ending.result
       case Ok(_) =>
         if cb.commit.Some? then cb.commit.value(left).FinalizePanics? else cb.dropToken(left).Panicked?
       case Err(error) =>
         if cb.rollback.Some? then cb.rollback.value(left, CauseTaskFailed(error)).FinalizePanics?
         else cb.dropToken(left).Panicked?
  }

  /** Capture and propagation differ: a cleanup panic meets an earlier failure before the lock. */
  predicate CleanupPanicsBeforeLock(cb: Callbacks) {
    && cb.dropTask.Panicked?
    && (cb.first.CheckPanics? || (cb.first == Sees(true) && !cb.prepare.Prepared?))
  }

  /** Capture and propagation differ: finalization panics while a result with a panicking destructor is owned. */
  predicate ResultPanicsDuringFinalization(cb: Callbacks) {
    && cb.first == Sees(true)
    && cb.prepare.Prepared?
    && FinalizationPanics(cb, cb.prepare.token)
    && ResultDrop(cb.task(cb.prepare.token).ending.result).Panicked?
  }

  lemma FinalizationHasTaskResult(cb: Callbacks, token: Token)
    ensures LockedResult(cb, token).Return? && LockedResult(cb, token).value.Ok? &&
            LockedResult(cb, token).value.value.Task? ==>
              cb.task(token).ending == Finishes(LockedResult(cb, token).value.value.result)
  {
  }

  /** Finishing a locked phase with and without capture differ only by an owned result that panics. */
  lemma FinishErases(cb: Callbacks, token: Token)
    ensures var left := TokenAfter(cb, token);
            var plain := FinishLocked(cb, left, LockedResult(cb, token));
            var captured := FinishLockedCatching(cb, left, LockedResult(cb, token));
            && plain.trace == captured.trace
            && (plain == EraseLifecycle(captured) <==>
                !(FinalizationPanics(cb, token) && ResultDrop(cb.task(token).ending.result).Panicked?))
  {
    var left := TokenAfter(cb, token);
    var dropped := cb.dropToken(left);
    FinalizationHasTaskResult(cb, token);
    LockedSucceedsExactly(cb, token);
    CommitCaptureErases(cb.commit, left, dropped);
    match LockedResult(cb, token) {
      case Return(Ok(ConditionNotMet)) =>
        RollbackCaptureErases(cb.rollback, left, CauseConditionNotMet, dropped);
      case Return(Ok(Task(Ok(value)))) =>
      case Return(Ok(Task(Err(error)))) =>
        RollbackCaptureErases(cb.rollback, left, CauseTaskFailed(error), dropped);
      case Return(Err(panic)) =>
        RollbackCaptureErases(cb.rollback, left, CausePanicked(panic), dropped);
      case _ =>
    }
  }

  /** Lifecycle executor: the same events always, and erasure fails exactly on these two families. */
  lemma LifecycleErasure(cb: Callbacks)
    ensures RunWithToken(cb).trace == RunWithTokenCatching(cb).trace
    ensures RunWithToken(cb) == EraseLifecycle(RunWithTokenCatching(cb)) <==>
            !CleanupPanicsBeforeLock(cb) && !ResultPanicsDuringFinalization(cb)
  {
    if cb.first == Sees(true) && cb.prepare.Prepared? {
      FinishErases(cb, cb.prepare.token);
    }
  }

  /** In each family the propagating form either aborts or loses a prepare error to the cleanup panic. */
  lemma LifecycleErasureExceptions(cb: Callbacks)
    requires CleanupPanicsBeforeLock(cb) || ResultPanicsDuringFinalization(cb)
    ensures RunWithTokenCatching(cb).flow.Return?
    ensures RunWithToken(cb).flow.Abort? ||
            (RunWithTokenCatching(cb).flow.value.PrepareFailed? && RunWithToken(cb).flow == Unwind(cb.dropTask.payload))
  {
    if ResultPanicsDuringFinalization(cb) {
      FinalizationHasTaskResult(cb, cb.prepare.token);
      LockedSucceedsExactly(cb, cb.prepare.token);
    }
  }

  /** Total containment: capture never unwinds, and aborts exactly on a double panic of the locked phase. */
  lemma LifecycleContainment(cb: Callbacks)
    ensures !RunWithTokenCatching(cb).flow.Unwind?
    ensures RunWithTokenCatching(cb).flow.Abort? <==>
            cb.first == Sees(true) && cb.prepare.Prepared? && LockedDoublePanic(cb, cb.prepare.token)
  {
    if cb.prepare.Prepared? {
      var token := cb.prepare.token;
      LockedAbortsExactly(cb, token);
    }
  }

  /** A commit panic while a result with a panicking destructor is owned: capture reports it, propagation aborts. */
  lemma CommitPanicOverHotResult()
    ensures var cb := HotResult(Returned, FinalizePanics(Inert(7)), true);
            && ResultPanicsDuringFinalization(cb)
            && RunWithToken(cb).flow == Abort
            && RunWithTokenCatching(cb).flow ==
               Return(CapturedLifecycleOutcome.TaskSucceeded(
                        Owned(0, Call.Panicked(Inert(8))),
                        CapturedFinalizationOutcome.Panicked(Caught(PanicPhase.Commit, Inert(7)))))
  {
    var cb := HotResult(Returned, FinalizePanics(Inert(7)), true);
    LockedCases(cb, UNIT_TOKEN, true);
    OpenCases(cb, UNIT_TOKEN, true);
  }
}
