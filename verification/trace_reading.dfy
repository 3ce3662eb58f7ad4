/** Reading an invocation back from its event trace alone. */
module TraceReading {
  import opened Wrappers
  import opened Panics
  import opened Outcomes

  /** The panic an event shows, under the phase that operation belongs to. */
  function PanicOf(event: Event): Option<Caught> {
    match event
    case InitialCheckRan(CheckPanics(p)) => Some(Caught(PanicPhase.InitialConditionCheck, p))
    case PrepareRan(PreparePanics(p)) => Some(Caught(PanicPhase.Prepare, p))
    case AcquireRan(Panicked(p)) => Some(Caught(PanicPhase.LockAcquisition, p))
    case SecondCheckRan(CheckPanics(p)) => Some(Caught(PanicPhase.SecondConditionCheck, p))
    case TaskEnded(TaskPanics(p), _) => Some(Caught(PanicPhase.Task, p))
    case GuardDropped(Panicked(p), _) => Some(Caught(PanicPhase.LockRelease, p))
    case TaskDropped(Panicked(p)) => Some(Caught(PanicPhase.TaskCleanup, p))
    case _ => None
  }

  /** The first panic a trace shows. */
  function FirstPanicIn(trace: seq<Event>): Option<Caught> {
    if trace == [] then None
    else if PanicOf(trace[0]).Some? then PanicOf(trace[0])
    else FirstPanicIn(trace[1..])
  }

  /** The result of a task that finished. */
  function TaskResultIn(trace: seq<Event>): Option<Result<Owned, Owned>> {
    if trace == [] then None
    else match trace[0]
      case TaskEnded(Finishes(result), _) => Some(result)
      case _ => TaskResultIn(trace[1..])
  }

  function DecodeFinalization(phase: PanicPhase, event: Event): Option<CapturedFinalizationOutcome> {
    match event
    case CommitRan(_, Finalized) => Some(CapturedFinalizationOutcome.Succeeded)
    case CommitRan(_, FinalizeErrs(error)) => Some(CapturedFinalizationOutcome.Failed(error))
    case CommitRan(_, FinalizePanics(p)) => Some(CapturedFinalizationOutcome.Panicked(Caught(phase, p)))
    case RollbackRan(_, _, Finalized) => Some(CapturedFinalizationOutcome.Succeeded)
    case RollbackRan(_, _, FinalizeErrs(error)) => Some(CapturedFinalizationOutcome.Failed(error))
    case RollbackRan(_, _, FinalizePanics(p)) => Some(CapturedFinalizationOutcome.Panicked(Caught(phase, p)))
    case TokenDropped(_, Returned) => Some(CapturedFinalizationOutcome.NotRequired)
    case TokenDropped(_, Panicked(p)) => Some(CapturedFinalizationOutcome.Panicked(Caught(phase, p)))
    case _ => None
  }

  /** The outcome of a prepared invocation: its locked events and one final event. */
  function DecodePrepared(body: seq<Event>, last: Event): Option<CapturedLifecycleOutcome> {
    var panic := FirstPanicIn(body);
    var result := TaskResultIn(body);
    var commits := panic.None? && result.Some? && result.value.Ok?;
    match DecodeFinalization(if commits then PanicPhase.Commit else PanicPhase.Rollback, last)
    case None => None
    case Some(finalization) =>
      if panic.Some? then Some(ExecutionPanicked(panic.value, finalization))
      else match result
        case None => Some(CapturedLifecycleOutcome.SecondConditionNotMet(finalization))
        case Some(Ok(value)) => Some(CapturedLifecycleOutcome.TaskSucceeded(value, finalization))
        case Some(Err(error)) => Some(CapturedLifecycleOutcome.TaskFailed(error, finalization))
  }

  /** Recovers the captured lifecycle outcome from a complete trace. */
  function DecodeCaptured(trace: seq<Event>): Option<CapturedLifecycleOutcome> {
    if |trace| < 2 then None
    else match (trace[0], trace[1])
      case (InitialCheckRan(CheckPanics(p)), _) =>
        Some(InitialConditionCheckPanicked(Caught(PanicPhase.InitialConditionCheck, p)))
      case (InitialCheckRan(Sees(false)), TaskDropped(Returned)) =>
        Some(CapturedLifecycleOutcome.InitialConditionNotMet)
      case (InitialCheckRan(Sees(false)), TaskDropped(Panicked(p))) =>
        Some(TaskCleanupPanicked(Caught(PanicPhase.TaskCleanup, p)))
      case (InitialCheckRan(Sees(true)), PrepareRan(PreparePanics(p))) =>
        Some(PreparePanicked(Caught(PanicPhase.Prepare, p)))
      case (InitialCheckRan(Sees(true)), PrepareRan(PrepareErrs(error))) =>
        Some(CapturedLifecycleOutcome.PrepareFailed(error))
      case (InitialCheckRan(Sees(true)), PrepareRan(Prepared(_))) =>
        if |trace| < 3 then None else DecodePrepared(trace[2..|trace| - 1], trace[|trace| - 1])
      case _ => None
  }

  /** Recovers the basic executor's captured outcome from a complete trace. */
  function DecodeBasic(trace: seq<Event>): Result<ExecutionOutcome, Caught> {
    match FirstPanicIn(trace)
    case Some(panic) => Err(panic)
    case None =>
      match TaskResultIn(trace)
      case None => Ok(ExecutionOutcome.ConditionNotMet)
      case Some(Ok(value)) => Ok(Success(value))
      case Some(Err(error)) => Ok(ExecutionOutcome.TaskFailed(error))
  }

  lemma {:induction false} FirstPanicConcat(a: seq<Event>, b: seq<Event>)
    ensures FirstPanicIn(a + b) == if FirstPanicIn(a).Some? then FirstPanicIn(a) else FirstPanicIn(b)
  {
    if a == [] {
      assert a + b == b;
    } else {
      assert (a + b)[0] == a[0] && (a + b)[1..] == a[1..] + b;
      FirstPanicConcat(a[1..], b);
    }
  }

  lemma {:induction false} TaskResultConcat(a: seq<Event>, b: seq<Event>)
    ensures TaskResultIn(a + b) == if TaskResultIn(a).Some? then TaskResultIn(a) else TaskResultIn(b)
  {
    if a == [] {
      assert a + b == b;
    } else {
      assert (a + b)[0] == a[0] && (a + b)[1..] == a[1..] + b;
      TaskResultConcat(a[1..], b);
    }
  }

  lemma ReadsOne(event: Event)
    ensures FirstPanicIn([event]) == PanicOf(event)
    ensures TaskResultIn([event]) ==
            if event.TaskEnded? && event.ending.Finishes? then Some(event.ending.result) else None
  {
    assert [event][1..] == [];
  }

  /** What reading a trace and then one more event gives. */
  lemma ReadsSnoc(trace: seq<Event>, event: Event)
    ensures FirstPanicIn(trace + [event]) ==
            if FirstPanicIn(trace).Some? then FirstPanicIn(trace) else PanicOf(event)
    ensures TaskResultIn(trace + [event]) ==
            if TaskResultIn(trace).Some? then TaskResultIn(trace)
            else if event.TaskEnded? && event.ending.Finishes? then Some(event.ending.result) else None
  {
    FirstPanicConcat(trace, [event]);
    TaskResultConcat(trace, [event]);
    ReadsOne(event);
  }
}
