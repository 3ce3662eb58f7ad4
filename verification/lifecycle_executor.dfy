/** The lifecycle executor as code: the token on the invocation's stack and its two entry points. */
module LifecycleExecutors {
  import opened Wrappers
  import opened Panics
  import opened Outcomes
  import opened LockedPhase
  import opened Invocations
  import opened DclCores
  import opened DclExecutors
  import opened LifecycleFinalization
  import opened LifecycleSemantics

  /** What propagation discards: whatever rollback or the token raised behind a locked-phase panic. */
  function DiscardedByRun(cb: Callbacks): seq<Disposal> {
    if cb.first == Sees(true) && cb.prepare.Prepared? then
      match LockedResult(cb, cb.prepare.token)
      case Return(Err(panic)) => SecondaryCleaning(cb, TokenAfter(cb, cb.prepare.token), panic).disposals
      case _ => []
    else []
  }

  /** What capture discards: the skipped task's cleanup panic behind an earlier failure. */
  function DiscardedByCapture(cb: Callbacks): seq<Disposal> {
    if cb.first.CheckPanics? || (cb.first == Sees(true) && !cb.prepare.Prepared?) then
      DiscardTaskCleanup(cb).disposals
    else []
  }

  class LifecycleDclExecutor {
    const core: DclCore

    constructor (core: DclCore)
      ensures this.core == core
    {
      this.core := core;
    }

    /**
     Two nested boundaries around an operation that has just ended with
     `operation`: the inner one drops what it catches, the outer one forgets it.
     */
    method DiscardSecondary(inv: Invocation, operation: Flow<()>) returns (flow: Flow<()>)
      modifies inv`disposals
      ensures !operation.Abort? ==> flow.Return?
      ensures var cleaning := Panics.DiscardSecondary(Cleaning(operation, []));
              flow == cleaning.flow && inv.disposals == old(inv.disposals) + cleaning.disposals
    {
      flow := operation;
      match CatchUnwind(flow) {
        case Return(Err(payload)) =>
          var dropped := Destroy(payload);
          inv.disposals := inv.disposals + dropped.disposals;
          flow := dropped.flow;
        case _ =>
      }
      match CatchUnwind(flow) {
        case Return(Err(payload)) =>
          inv.disposals := inv.disposals + [Forgotten(payload)];
          flow := Return(());
        case _ =>
      }
    }

    /** Drops a skipped task behind an earlier failure; control always comes back. */
    method DropTaskBehindFailure(inv: Invocation) returns (flow: Flow<()>)
      requires inv.taskLive && !inv.guardHeld
      modifies inv`trace, inv`taskLive, inv`disposals
      ensures flow.Return? && flow == DiscardTaskCleanup(inv.callbacks).flow
      ensures inv.trace == old(inv.trace) + [TaskDropped(inv.callbacks.dropTask)]
      ensures inv.disposals == old(inv.disposals) + DiscardTaskCleanup(inv.callbacks).disposals
      ensures !inv.taskLive
    {
      var dropped := inv.DropTask();
      flow := Return(());
      if dropped.Panicked? {
        var panic := new PanicInfo.FromPayload(PanicPhase.TaskCleanup, dropped.payload);
        flow := inv.DiscardPanic(panic);
      }
    }

    /** Rolls back after a locked-phase panic and resumes the original payload, untouched. */
    method ResumeAfterRollback(inv: Invocation, token: Token, caught: Caught)
      returns (flow: Flow<LifecycleOutcome>)
      requires inv.tokenLive && !inv.guardHeld
      modifies inv`trace, inv`tokenLive, inv`disposals
      ensures flow == Unwind(caught.payload)
      ensures Then(old(inv.trace), RollbackThenResume(inv.callbacks, token, caught)) == Run(flow, inv.trace)
      ensures inv.disposals == old(inv.disposals) + SecondaryCleaning(inv.callbacks, token, caught).disposals
      ensures !inv.tokenLive
    {
      ResumesLockedPanic(inv.callbacks, token, caught);
      var panic := new PanicInfo.FromPayload(caught.phase, caught.payload);
      var operation: Flow<()> := Return(());
      if inv.callbacks.rollback.Some? {
        var finalizer := inv.CallRollback(token, CausePanicked(caught));
        match finalizer {
          case Finalized =>
          case FinalizeErrs(error) => operation := CallFlow(error.dropped);
          case FinalizePanics(payload) => operation := Unwind(payload);
        }
      } else {
        var dropped := inv.DropToken(token);
        operation := CallFlow(dropped);
      }
      var discarded := DiscardSecondary(inv, operation);
      if discarded.Return? {
        var resumed, disposed := panic.ResumeUnwind();
        flow := Unwind(resumed.payload);
      } else {
        flow := ResumeAfter(Cleaning(discarded, []), caught.payload);
      }
    }

    method Commits(inv: Invocation, token: Token) returns (finalized: Flow<FinalizationOutcome>)
      requires inv.tokenLive && !inv.guardHeld
      modifies inv`trace, inv`tokenLive
      ensures var cb := inv.callbacks;
              Then(old(inv.trace), FinalizeCommit(cb.commit, token, cb.dropToken(token))) == Run(finalized, inv.trace)
      ensures !inv.tokenLive
    {
      if inv.callbacks.commit.Some? {
        var finalizer := inv.CallCommit(token);
        finalized := Plain(FinalizerFlow(finalizer));
      } else {
        var dropped := inv.DropToken(token);
        match dropped {
          case Returned => finalized := Return(FinalizationOutcome.NotRequired);
          case Panicked(payload) => finalized := Unwind(payload);
        }
      }
    }

    method RollsBack(inv: Invocation, token: Token, cause: RollbackCause)
      returns (finalized: Flow<FinalizationOutcome>)
      requires inv.tokenLive && !inv.guardHeld
      modifies inv`trace, inv`tokenLive
      ensures var cb := inv.callbacks;
              Then(old(inv.trace), FinalizeRollback(cb.rollback, token, cause, cb.dropToken(token)))
              == Run(finalized, inv.trace)
      ensures !inv.tokenLive
    {
      if inv.callbacks.rollback.Some? {
        var finalizer := inv.CallRollback(token, cause);
        finalized := Plain(FinalizerFlow(finalizer));
      } else {
        var dropped := inv.DropToken(token);
        match dropped {
          case Returned => finalized := Return(FinalizationOutcome.NotRequired);
          case Panicked(payload) => finalized := Unwind(payload);
        }
      }
    }

    /** A finalization behind its capture boundary. */
    function CaptureFinalization(phase: PanicPhase, finalized: Flow<FinalizationOutcome>):
      (captured: CapturedFinalizationOutcome)
      requires !finalized.Abort?
      ensures EraseFinalization(captured) == finalized
      ensures captured.Panicked? ==> captured.panic.phase == phase
    {
      match finalized {
        case Return(NotRequired) => CapturedFinalizationOutcome.NotRequired
        case Return(Succeeded) => CapturedFinalizationOutcome.Succeeded
        case Return(Failed(error)) => CapturedFinalizationOutcome.Failed(error)
        case Unwind(payload) => CapturedFinalizationOutcome.Panicked(Caught(phase, payload))
      }
    }

    /** Propagating entry point. */
    method RunWithToken(inv: Invocation) returns (flow: Flow<LifecycleOutcome>)
      requires !inv.guardHeld && inv.taskLive && !inv.tokenLive
      modifies inv
      ensures Then(old(inv.trace), LifecycleSemantics.RunWithToken(inv.callbacks)) == Run(flow, inv.trace)
      ensures inv.disposals == old(inv.disposals) + DiscardedByRun(inv.callbacks)
      ensures !inv.guardHeld
      ensures !flow.Abort? ==> !inv.taskLive && !inv.tokenLive
    {
      var checked := core.CheckInitial(inv);
      if checked.Unwind? {
        var dropped := inv.DropTask();
        flow := DropsWhileUnwinding(dropped, checked.payload);
        return;
      }
      if !checked.value {
        var dropped := inv.DropTask();
        match dropped {
          case Returned => flow := Return(LifecycleOutcome.InitialConditionNotMet);
          case Panicked(payload) => flow := Unwind(payload);
        }
        return;
      }
      flow := RunPrepared(inv);
    }

    /** The propagating entry point from its prepare callback on. */
    method RunPrepared(inv: Invocation) returns (flow: Flow<LifecycleOutcome>)
      requires !inv.guardHeld && inv.taskLive && !inv.tokenLive
      modifies inv
      ensures Then(old(inv.trace), LifecycleSemantics.RunPrepared(inv.callbacks)) == Run(flow, inv.trace)
      ensures inv.callbacks.first == Sees(true) ==>
                inv.disposals == old(inv.disposals) + DiscardedByRun(inv.callbacks)
      ensures !inv.guardHeld
      ensures !flow.Abort? ==> !inv.taskLive && !inv.tokenLive
    {
      var prepared := inv.Prepare();
      if prepared.Prepared? {
        var token := new TokenCell(prepared.token);
        var locked := core.ExecuteLockedCatching(inv, token);
        flow := Finish(inv, token.token, locked);
        return;
      }
      match prepared {
        case PreparePanics(payload) =>
          var dropped := inv.DropTask();
          flow := DropsWhileUnwinding(dropped, payload);
        case PrepareErrs(error) =>
          var dropped := inv.DropTask();
          flow := ReturnsPrepareError(inv.callbacks, error);
      }
    }

    method Finish(inv: Invocation, token: Token, locked: Flow<Result<LockedExecution, Caught>>)
      returns (flow: Flow<LifecycleOutcome>)
      requires inv.tokenLive && !inv.guardHeld && !locked.Unwind?
      modifies inv`trace, inv`tokenLive, inv`disposals
      ensures Then(old(inv.trace), FinishLocked(inv.callbacks, token, locked)) == Run(flow, inv.trace)
      ensures inv.disposals == old(inv.disposals) +
              (match locked
               case Return(Err(panic)) => SecondaryCleaning(inv.callbacks, token, panic).disposals
               case _ => [])
      ensures !flow.Abort? ==> !inv.tokenLive
    {
      match locked {
        case Return(Ok(ConditionNotMet)) =>
          var finalized := RollsBack(inv, token, CauseConditionNotMet);
          match finalized {
            case Return(rollback) => flow := Return(LifecycleOutcome.SecondConditionNotMet(rollback));
            case Unwind(payload) => flow := Unwind(payload);
            case Abort => flow := Abort;
          }
        case Return(Ok(Task(Ok(value)))) =>
          var finalized := Commits(inv, token);
          match finalized {
            case Return(commit) => flow := Return(LifecycleOutcome.TaskSucceeded(value, commit));
            case Unwind(payload) => flow := DropsWhileUnwinding(value.dropped, payload);
            case Abort => flow := Abort;
          }
        case Return(Ok(Task(Err(error)))) =>
          var finalized := RollsBack(inv, token, CauseTaskFailed(error));
          match finalized {
            case Return(rollback) => flow := Return(LifecycleOutcome.TaskFailed(error, rollback));
            case Unwind(payload) => flow := DropsWhileUnwinding(error.dropped, payload);
            case Abort => flow := Abort;
          }
        case Return(Err(caught)) =>
          flow := ResumeAfterRollback(inv, token, caught);
        case Abort =>
          flow := Abort;
          assert inv.trace + [] == inv.trace;
      }
    }

    /** Capturing entry point. */
    method RunWithTokenCatching(inv: Invocation) returns (flow: Flow<CapturedLifecycleOutcome>)
      requires !inv.guardHeld && inv.taskLive && !inv.tokenLive
      modifies inv
      ensures Then(old(inv.trace), LifecycleSemantics.RunWithTokenCatching(inv.callbacks)) == Run(flow, inv.trace)
      ensures inv.disposals == old(inv.disposals) + DiscardedByCapture(inv.callbacks)
      ensures !inv.guardHeld
      ensures !flow.Abort? ==> !inv.taskLive && !inv.tokenLive
    {
      var checked := core.CheckInitialCatching(inv);
      match checked {
        case Err(panic) =>
          var discarded := DropTaskBehindFailure(inv);
          flow := Afterwards(Cleaning(discarded, []), DropMetadata(panic.payload).flow,
                             Return(InitialConditionCheckPanicked(panic)));
          return;
        case Ok(open) =>
          if !open {
            var dropped := inv.DropTask();
            match dropped {
              case Returned => flow := Return(CapturedLifecycleOutcome.InitialConditionNotMet);
              case Panicked(payload) => flow := Return(TaskCleanupPanicked(Caught(PanicPhase.TaskCleanup, payload)));
            }
            return;
          }
      }
      flow := RunPreparedCatching(inv);
    }

    /** The capturing entry point from its prepare callback on. */
    method RunPreparedCatching(inv: Invocation) returns (flow: Flow<CapturedLifecycleOutcome>)
      requires !inv.guardHeld && inv.taskLive && !inv.tokenLive
      modifies inv
      ensures Then(old(inv.trace), LifecycleSemantics.RunPreparedCatching(inv.callbacks)) == Run(flow, inv.trace)
      ensures inv.callbacks.first == Sees(true) ==>
                inv.disposals == old(inv.disposals) + DiscardedByCapture(inv.callbacks)
      ensures !inv.guardHeld
      ensures !flow.Abort? ==> !inv.taskLive && !inv.tokenLive
    {
      var prepared := inv.Prepare();
      if prepared.Prepared? {
        var token := new TokenCell(prepared.token);
        var locked := core.ExecuteLockedCatching(inv, token);
        flow := FinishCatching(inv, token.token, locked);
        return;
      }
      match prepared {
        case PreparePanics(payload) =>
          var discarded := DropTaskBehindFailure(inv);
          flow := Afterwards(Cleaning(discarded, []), DropMetadata(payload).flow,
                             Return(PreparePanicked(Caught(PanicPhase.Prepare, payload))));
        case PrepareErrs(error) =>
          var discarded := DropTaskBehindFailure(inv);
          flow := Afterwards(Cleaning(discarded, []), CallFlow(error.dropped),
                             Return(CapturedLifecycleOutcome.PrepareFailed(error)));
      }
    }

    method FinishCatching(inv: Invocation, token: Token, locked: Flow<Result<LockedExecution, Caught>>)
      returns (flow: Flow<CapturedLifecycleOutcome>)
      requires inv.tokenLive && !inv.guardHeld && !locked.Unwind?
      modifies inv`trace, inv`tokenLive
      ensures Then(old(inv.trace), FinishLockedCatching(inv.callbacks, token, locked)) == Run(flow, inv.trace)
      ensures !flow.Abort? ==> !inv.tokenLive
    {
      match locked {
        case Return(Ok(Task(Ok(value)))) =>
          var finalized := Commits(inv, token);
          flow := Return(CapturedLifecycleOutcome.TaskSucceeded(
            value, CaptureFinalization(PanicPhase.Commit, finalized)));
        case Return(Ok(ConditionNotMet)) =>
          flow := RollBackCatching(inv, token, CapturedRollbackExecution.ConditionNotMet);
        case Return(Ok(Task(Err(error)))) =>
          flow := RollBackCatching(inv, token, CapturedRollbackExecution.TaskFailed(error));
        case Return(Err(caught)) =>
          flow := RollBackCatching(inv, token, CapturedRollbackExecution.Panicked(caught));
        case Abort =>
          flow := Abort;
          assert inv.trace + [] == inv.trace;
      }
    }

    method RollBackCatching(inv: Invocation, token: Token, execution: CapturedRollbackExecution)
      returns (flow: Flow<CapturedLifecycleOutcome>)
      requires inv.tokenLive && !inv.guardHeld
      modifies inv`trace, inv`tokenLive
      ensures Then(old(inv.trace), FinishRollbackCatching(inv.callbacks, token, execution)) == Run(flow, inv.trace)
      ensures flow.Return? && !inv.tokenLive
    {
      var finalized := RollsBack(inv, token, execution.Cause());
      flow := Return(execution.IntoOutcome(CaptureFinalization(PanicPhase.Rollback, finalized)));
    }
  }
}
