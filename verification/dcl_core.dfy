/** The double-checked core: both predicate checks and the locked phase, with and without capture. */
module DclCores {
  import opened Wrappers
  import opened Panics
  import opened Outcomes
  import opened Unwinding
  import opened LockedPhase
  import opened Invocations

  /** A predicate run as control flow. */
  function CheckFlow(check: Check): Flow<bool> {
    match check
    case Sees(open) => Return(open)
    case CheckPanics(payload) => Unwind(payload)
  }

  /** How control leaves a block; what it failed under stays behind. */
  function EndFlow<T>(end: BlockEnd, value: T): Flow<T> {
    match end
    case Completed => Return(value)
    case Fails(caught) => Unwind(caught.payload)
    case Aborts => Abort
  }

  /** The cell that the locked phase writes and its boundary reads. */
  class PhaseCell {
    var phase: PanicPhase

    constructor (phase: PanicPhase)
      ensures this.phase == phase
    {
      this.phase := phase;
    }
  }

  class DclCore {
    constructor () {
    }

    /** The initial check without a capture boundary. */
    method CheckInitial(inv: Invocation) returns (flow: Flow<bool>)
      requires !inv.guardHeld
      modifies inv`trace
      ensures flow == CheckFlow(inv.callbacks.first)
      ensures inv.trace == old(inv.trace) + [InitialCheckRan(inv.callbacks.first)]
    {
      var check := inv.CheckInitial();
      flow := CheckFlow(check);
    }

    /** The initial check behind its own capture boundary. */
    method CheckInitialCatching(inv: Invocation) returns (checked: Result<bool, Caught>)
      requires !inv.guardHeld
      modifies inv`trace
      ensures Return(checked) ==
              CatchPhase(PanicPhase.InitialConditionCheck, CheckFlow(inv.callbacks.first))
      ensures inv.trace == old(inv.trace) + [InitialCheckRan(inv.callbacks.first)]
    {
      var flow := CheckInitial(inv);
      var caught := CatchPhase(PanicPhase.InitialConditionCheck, flow);
      checked := caught.value;
    }

    /** The unexecuted task's destructor, live while `payload` unwinds. */
    method UnwindTask(inv: Invocation, payload: Payload) returns (flow: Flow<LockedExecution>)
      requires inv.taskLive && !inv.guardHeld
      modifies inv`trace, inv`taskLive
      ensures flow == if inv.callbacks.dropTask.Panicked? then Abort else Unwind(payload)
      ensures inv.trace == old(inv.trace) + [TaskDropped(inv.callbacks.dropTask)]
      ensures !inv.taskLive
    {
      var dropped := inv.DropTask();
      flow := if dropped.Panicked? then Abort else Unwind(payload);
    }

    /** The guard's destructor, live while `payload` unwinds. */
    method UnwindGuard(inv: Invocation, payload: Payload) returns (flow: Flow<LockedExecution>)
      requires inv.guardHeld
      modifies inv`trace, inv`guardHeld
      ensures flow == if inv.callbacks.releaseUnwinding.Panicked? then Abort else Unwind(payload)
      ensures inv.trace == old(inv.trace) + [GuardDropped(inv.callbacks.releaseUnwinding, true)]
      ensures !inv.guardHeld
    {
      var dropped := inv.DropGuard(true);
      flow := if dropped.Panicked? then Abort else Unwind(payload);
    }

    /** The unwind of a second check that panicked: the guard, and if that is quiet the unexecuted task. */
    method UnwindGuardThenTask(inv: Invocation, payload: Payload) returns (flow: Flow<LockedExecution>)
      requires inv.guardHeld && inv.taskLive
      modifies inv`trace, inv`guardHeld, inv`taskLive
      ensures var cb := inv.callbacks;
              && flow == (if cb.releaseUnwinding.Panicked? || cb.dropTask.Panicked? then Abort else Unwind(payload))
              && inv.trace == old(inv.trace) + [GuardDropped(cb.releaseUnwinding, true)]
                              + if cb.releaseUnwinding.Panicked? then [] else [TaskDropped(cb.dropTask)]
      ensures !inv.guardHeld
      ensures !flow.Abort? ==> !inv.taskLive
    {
      flow := UnwindGuard(inv, payload);
      if flow.Unwind? {
        flow := UnwindTask(inv, payload);
      }
    }

    /**
     The locked phase inside its boundary. It writes `phase` before each operation
     that may panic, and whatever panics leaves as a bare payload; the destructors
     that an unwind crosses on its way out never write the cell.
     */
    method LockedBody(inv: Invocation, cell: TokenCell, phase: PhaseCell, dropsResult: bool)
      returns (flow: Flow<LockedExecution>)
      requires !inv.guardHeld && inv.taskLive && phase.phase.LockAcquisition?
      modifies inv`trace, inv`guardHeld, inv`taskLive, cell, phase
      ensures var block := Execute(LockedOps(inv.callbacks, old(cell.token), dropsResult));
              && flow == EndFlow(block.end, LockedValue(inv.callbacks, old(cell.token)))
              && inv.trace == old(inv.trace) + block.trace
      ensures !flow.Return? ==> InterruptedAt(inv.callbacks, old(cell.token)) == Some(phase.phase)
      ensures cell.token == TokenAfter(inv.callbacks, old(cell.token))
      ensures !inv.guardHeld
      ensures !flow.Abort? ==> !inv.taskLive
    {
      LockedCases(inv.callbacks, cell.token, dropsResult);
      var acquired := inv.Lock();
      if acquired.Panicked? {
        flow := UnwindTask(inv, acquired.payload);
      } else {
        flow := GuardedBody(inv, cell, phase, dropsResult);
      }
    }

    /** The locked phase from the second check on, with the guard held. */
    method GuardedBody(inv: Invocation, cell: TokenCell, phase: PhaseCell, dropsResult: bool)
      returns (flow: Flow<LockedExecution>)
      requires inv.guardHeld && inv.taskLive && inv.callbacks.acquire.Returned?
      modifies inv`trace, inv`guardHeld, inv`taskLive, cell, phase
      ensures var block := GuardedBlock(inv.callbacks, old(cell.token), dropsResult);
              && flow == EndFlow(block.end, LockedValue(inv.callbacks, old(cell.token)))
              && inv.trace == old(inv.trace) + block.trace
      ensures !flow.Return? ==> InterruptedAt(inv.callbacks, old(cell.token)) == Some(phase.phase)
      ensures cell.token == TokenAfter(inv.callbacks, old(cell.token))
      ensures !inv.guardHeld
      ensures !flow.Abort? ==> !inv.taskLive
    {
      phase.phase := PanicPhase.SecondConditionCheck;
      var check := inv.CheckSecond();
      match check {
        case CheckPanics(payload) =>
          flow := UnwindGuardThenTask(inv, payload);
        case Sees(open) =>
          if open {
            flow := TaskBody(inv, cell, phase, dropsResult);
          } else {
            ClosedCases(inv.callbacks, cell.token, dropsResult);
            flow := ReleaseBody(inv, phase, LockedExecution.ConditionNotMet, dropsResult);
          }
      }
    }

    /** The task under the guard, after a second check that let it through. */
    method TaskBody(inv: Invocation, cell: TokenCell, phase: PhaseCell, dropsResult: bool)
      returns (flow: Flow<LockedExecution>)
      requires inv.guardHeld && inv.taskLive && TaskRuns(inv.callbacks)
      modifies inv`trace, inv`guardHeld, inv`taskLive, cell, phase
      ensures var block := Execute(CheckedOps(inv.callbacks, old(cell.token), true, dropsResult));
              && flow == EndFlow(block.end, LockedValue(inv.callbacks, old(cell.token)))
              && inv.trace == old(inv.trace) + block.trace
      ensures !flow.Return? ==> InterruptedAt(inv.callbacks, old(cell.token)) == Some(phase.phase)
      ensures cell.token == inv.callbacks.task(old(cell.token)).token
      ensures !inv.guardHeld && !inv.taskLive
    {
      OpenCases(inv.callbacks, cell.token, dropsResult);
      phase.phase := PanicPhase.Task;
      var ending := inv.RunTask(cell);
      match ending {
        case TaskPanics(payload) =>
          flow := UnwindGuard(inv, payload);
        case Finishes(result) =>
          flow := ReleaseBody(inv, phase, LockedExecution.Task(result), dropsResult);
      }
    }

    /** The tail of the locked phase: the guard goes first, then a task that was not run. */
    method ReleaseBody(inv: Invocation, phase: PhaseCell, outcome: LockedExecution, dropsResult: bool)
      returns (flow: Flow<LockedExecution>)
      requires inv.guardHeld && (outcome.ConditionNotMet? ==> inv.taskLive)
      modifies inv`trace, inv`guardHeld, inv`taskLive, phase
      ensures var block := ReleaseBlock(inv.callbacks, outcome, dropsResult);
              && flow == EndFlow(block.end, outcome)
              && inv.trace == old(inv.trace) + block.trace
      ensures !flow.Return? && inv.callbacks.release.Panicked? ==> phase.phase.LockRelease?
      ensures !flow.Return? && inv.callbacks.release.Returned? ==> phase.phase.TaskCleanup?
      ensures !inv.guardHeld
      ensures inv.taskLive == (old(inv.taskLive) && outcome.Task?)
    {
      phase.phase := PanicPhase.LockRelease;
      var released := inv.DropGuard(false);
      if released.Panicked? {
        if outcome.ConditionNotMet? {
          flow := UnwindTask(inv, released.payload);
        } else {
          flow := if dropsResult && ResultDrop(outcome.result).Panicked? then Abort else Unwind(released.payload);
        }
        return;
      }
      phase.phase := PanicPhase.TaskCleanup;
      flow := Return(outcome);
      if outcome.ConditionNotMet? {
        var dropped := inv.DropTask();
        if dropped.Panicked? {
          flow := Unwind(dropped.payload);
        }
      }
    }

    /** The locked phase without capture: a panic keeps unwinding into the caller, and nobody reads the cell. */
    method ExecuteLocked(inv: Invocation, cell: TokenCell) returns (flow: Flow<LockedExecution>)
      requires !inv.guardHeld && inv.taskLive
      modifies inv`trace, inv`guardHeld, inv`taskLive, cell
      ensures flow == LockedPropagatingResult(inv.callbacks, old(cell.token))
      ensures inv.trace == old(inv.trace) + LockedPropagating(inv.callbacks, old(cell.token)).trace
      ensures cell.token == TokenAfter(inv.callbacks, old(cell.token))
      ensures !inv.guardHeld
      ensures !flow.Abort? ==> !inv.taskLive
    {
      var unread := new PhaseCell(PanicPhase.LockAcquisition);
      flow := LockedBody(inv, cell, unread, inv.callbacks.dropsReturnSlot);
    }

    /** The locked phase behind one boundary, which reads the cell once, after the unwind has crossed the guard. */
    method ExecuteLockedCatching(inv: Invocation, cell: TokenCell)
      returns (flow: Flow<Result<LockedExecution, Caught>>)
      requires !inv.guardHeld && inv.taskLive
      modifies inv`trace, inv`guardHeld, inv`taskLive, cell
      ensures flow == LockedResult(inv.callbacks, old(cell.token))
      ensures inv.trace == old(inv.trace) + Locked(inv.callbacks, old(cell.token)).trace
      ensures cell.token == TokenAfter(inv.callbacks, old(cell.token))
      ensures !inv.guardHeld
      ensures !flow.Abort? ==> !inv.taskLive
    {
      FailsWhereInterrupted(LockedOps(inv.callbacks, cell.token, true));
      InterruptedCases(inv.callbacks, cell.token, true);
      var phase := new PhaseCell(PanicPhase.LockAcquisition);
      var body := LockedBody(inv, cell, phase, true);
      match CatchUnwind(body) {
        case Return(Ok(outcome)) => flow := Return(Ok(outcome));
        case Return(Err(payload)) => flow := Return(Err(Caught(phase.phase, payload)));
        case _ => flow := Abort;
      }
    }
  }
}
