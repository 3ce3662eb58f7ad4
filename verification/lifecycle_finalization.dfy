/** Commit and rollback finalization: an optional callback consumes the token, or the token is dropped. */
module LifecycleFinalization {
  import opened Wrappers
  import opened Panics
  import opened Outcomes

  function Plain(flow: Flow<Result<(), Owned>>): Flow<FinalizationOutcome> {
    match flow
    case Return(Ok(_)) => Return(FinalizationOutcome.Succeeded)
    case Return(Err(error)) => Return(FinalizationOutcome.Failed(error))
    case Unwind(payload) => Unwind(payload)
    case Abort => Abort
  }

  function FinalizeCommit(commit: Option<Token -> Finalizer>, token: Token, dropped: Call): Run<FinalizationOutcome> {
    match commit
    case Some(callback) =>
      Run(Plain(FinalizerFlow(callback(token))), [CommitRan(token, callback(token))])
    case None =>
      Run(match dropped
          case Returned => Return(FinalizationOutcome.NotRequired)
          case Panicked(payload) => Unwind(payload),
          [TokenDropped(token, dropped)])
  }

  function FinalizeRollback(rollback: Option<(Token, RollbackCause) -> Finalizer>, token: Token,
                            cause: RollbackCause, dropped: Call): Run<FinalizationOutcome> {
    match rollback
    case Some(callback) =>
      Run(Plain(FinalizerFlow(callback(token, cause))), [RollbackRan(token, cause, callback(token, cause))])
    case None =>
      Run(match dropped
          case Returned => Return(FinalizationOutcome.NotRequired)
          case Panicked(payload) => Unwind(payload),
          [TokenDropped(token, dropped)])
  }

  /** The outcome of a callback behind a capture boundary. */
  function CapturedCallback(phase: PanicPhase, finalizer: Finalizer): CapturedFinalizationOutcome {
    var caught: Flow<Result<Result<(), Owned>, Caught>> := CatchPhase(phase, FinalizerFlow(finalizer));
    match caught.value
    case Ok(Ok(_)) => CapturedFinalizationOutcome.Succeeded
    case Ok(Err(error)) => CapturedFinalizationOutcome.Failed(error)
    case Err(panic) => CapturedFinalizationOutcome.Panicked(panic)
  }

  /** The outcome of dropping a token behind a capture boundary. */
  function CapturedDrop(phase: PanicPhase, dropped: Call): CapturedFinalizationOutcome {
    var caught: Flow<Result<(), Caught>> := CatchPhase(phase, CallFlow(dropped));
    match caught.value
    case Ok(_) => CapturedFinalizationOutcome.NotRequired
    case Err(panic) => CapturedFinalizationOutcome.Panicked(panic)
  }

  function FinalizeCommitCatching(commit: Option<Token -> Finalizer>, token: Token, dropped: Call):
    Run<CapturedFinalizationOutcome>
  {
    match commit
    case Some(callback) =>
      Run(Return(CapturedCallback(PanicPhase.Commit, callback(token))), [CommitRan(token, callback(token))])
    case None =>
      Run(Return(CapturedDrop(PanicPhase.Commit, dropped)), [TokenDropped(token, dropped)])
  }

  function FinalizeRollbackCatching(rollback: Option<(Token, RollbackCause) -> Finalizer>, token: Token,
                                    cause: RollbackCause, dropped: Call): Run<CapturedFinalizationOutcome>
  {
    match rollback
    case Some(callback) =>
      Run(Return(CapturedCallback(PanicPhase.Rollback, callback(token, cause))),
          [RollbackRan(token, cause, callback(token, cause))])
    case None =>
      Run(Return(CapturedDrop(PanicPhase.Rollback, dropped)), [TokenDropped(token, dropped)])
  }

  /** Turns a captured finalization back into control flow. */
  function EraseFinalization(captured: CapturedFinalizationOutcome): Flow<FinalizationOutcome> {
    match captured
    case NotRequired => Return(FinalizationOutcome.NotRequired)
    case Succeeded => Return(FinalizationOutcome.Succeeded)
    case Failed(error) => Return(FinalizationOutcome.Failed(error))
    case Panicked(panic) => Unwind(panic.payload)
  }

  /** Capturing a commit and erasing the capture is committing, with the same event. */
  lemma CommitCaptureErases(commit: Option<Token -> Finalizer>, token: Token, dropped: Call)
    ensures var plain := FinalizeCommit(commit, token, dropped);
            var captured := FinalizeCommitCatching(commit, token, dropped);
            && captured.flow.Return?
            && plain == Run(EraseFinalization(captured.flow.value), captured.trace)
  {
    if commit.Some? {
      match commit.value(token) {
        case Finalized =>
        case FinalizeErrs(_) =>
        case FinalizePanics(_) =>
      }
    }
  }

  /** Capturing a rollback and erasing the capture is rolling back, with the same event. */
  lemma RollbackCaptureErases(rollback: Option<(Token, RollbackCause) -> Finalizer>, token: Token,
                              cause: RollbackCause, dropped: Call)
    ensures var plain := FinalizeRollback(rollback, token, cause, dropped);
            var captured := FinalizeRollbackCatching(rollback, token, cause, dropped);
            && captured.flow.Return?
            && plain == Run(EraseFinalization(captured.flow.value), captured.trace)
  {
    if rollback.Some? {
      match rollback.value(token, cause) {
        case Finalized =>
        case FinalizeErrs(_) =>
        case FinalizePanics(_) =>
      }
    }
  }
}
