/** The locked phase of one invocation as a block: lock, second check, task, release, cleanup. */
module LockedPhase {
  import opened Wrappers
  import opened Panics
  import opened Outcomes
  import opened Unwinding

  function GuardCleanup(cb: Callbacks): Cleanup {
    Cleanup(cb.releaseUnwinding, [GuardDropped(cb.releaseUnwinding, true)])
  }

  function TaskCleanup(cb: Callbacks): Cleanup {
    Cleanup(cb.dropTask, [TaskDropped(cb.dropTask)])
  }

  function AcquireOp(cb: Callbacks): Op {
    Op(PanicPhase.LockAcquisition, cb.acquire, [AcquireRan(cb.acquire)], [TaskCleanup(cb)])
  }

  function SecondCheckOp(cb: Callbacks): Op {
    Op(PanicPhase.SecondConditionCheck, CheckCall(cb.second), [SecondCheckRan(cb.second)],
       [GuardCleanup(cb), TaskCleanup(cb)])
  }

  function TaskOp(cb: Callbacks, token: Token): Op {
    var run := cb.task(token);
    Op(PanicPhase.Task, TaskCall(run.ending), [TaskStarted(token), TaskEnded(run.ending, run.token)],
       [GuardCleanup(cb)])
  }

  function ReleaseOp(cb: Callbacks, live: seq<Cleanup>): Op {
    Op(PanicPhase.LockRelease, cb.release, [GuardDropped(cb.release, false)], live)
  }

  function TaskCleanupOp(cb: Callbacks): Op {
    Op(PanicPhase.TaskCleanup, cb.dropTask, [TaskDropped(cb.dropTask)], [])
  }

  /** A finished task's result, live while the guard is dropped. */
  function ResultCleanup(ending: TaskEnding, dropsResult: bool): seq<Cleanup> {
    if ending.Finishes? && dropsResult then [Cleanup(ResultDrop(ending.result), [])] else []
  }

  /** The operations after a second check that returned `open`. */
  function CheckedOps(cb: Callbacks, token: Token, open: bool, dropsResult: bool): seq<Op> {
    if open then
      [TaskOp(cb, token)] + [ReleaseOp(cb, ResultCleanup(cb.task(token).ending, dropsResult))]
    else
      [ReleaseOp(cb, [TaskCleanup(cb)])] + [TaskCleanupOp(cb)]
  }

  function LockedOps(cb: Callbacks, token: Token, dropsResult: bool): seq<Op> {
    [AcquireOp(cb)] +
    ([SecondCheckOp(cb)] + CheckedOps(cb, token, cb.second == Sees(true), dropsResult))
  }

  /** The capturing locked phase, whose local result is live while the guard is dropped. */
  function Locked(cb: Callbacks, token: Token): Block {
    Execute(LockedOps(cb, token, true))
  }

  /** The propagating locked phase, whose result already sits in the return slot. */
  function LockedPropagating(cb: Callbacks, token: Token): Block {
    Execute(LockedOps(cb, token, cb.dropsReturnSlot))
  }

  /** The task ran: both the lock and the second check let it through. */
  predicate TaskRuns(cb: Callbacks) {
    cb.acquire.Returned? && cb.second == Sees(true)
  }

  function TokenAfter(cb: Callbacks, token: Token): Token {
    if TaskRuns(cb) then cb.task(token).token else token
  }

  /** The value of a completed locked phase. */
  function LockedValue(cb: Callbacks, token: Token): LockedExecution {
    if cb.second == Sees(true) && cb.task(token).ending.Finishes? then
      LockedExecution.Task(cb.task(token).ending.result)
    else LockedExecution.ConditionNotMet
  }

  function LockedResult(cb: Callbacks, token: Token): Flow<Result<LockedExecution, Caught>> {
    match Locked(cb, token).end
    case Completed => Return(Ok(LockedValue(cb, token)))
    case Fails(caught) => Return(Err(caught))
    case Aborts => Abort
  }

  function LockedPropagatingResult(cb: Callbacks, token: Token): Flow<LockedExecution> {
    match LockedPropagating(cb, token).end
    case Completed => Return(LockedValue(cb, token))
    case Fails(caught) => Unwind(caught.payload)
    case Aborts => Abort
  }

  function UnwindsTask(cb: Callbacks, caught: Caught): Block {
    Block(if cb.dropTask.Panicked? then Aborts else Fails(caught), [TaskDropped(cb.dropTask)])
  }

  function UnwindsGuard(cb: Callbacks, caught: Caught): Block {
    Block(if cb.releaseUnwinding.Panicked? then Aborts else Fails(caught),
          [GuardDropped(cb.releaseUnwinding, true)])
  }

  function UnwindsGuardThenTask(cb: Callbacks, caught: Caught): Block {
    if cb.releaseUnwinding.Panicked? then UnwindsGuard(cb, caught)
    else Prepend([GuardDropped(cb.releaseUnwinding, true)], UnwindsTask(cb, caught))
  }

  /** The guard's ordinary drop and what is still to be destroyed after it. */
  function ReleaseBlock(cb: Callbacks, outcome: LockedExecution, drops: bool): Block {
    var dropped := [GuardDropped(cb.release, false)];
    match cb.release
    case Panicked(payload) =>
      var caught := Caught(PanicPhase.LockRelease, payload);
      (match outcome
       case ConditionNotMet => Prepend(dropped, UnwindsTask(cb, caught))
       case Task(result) => Block(if drops && ResultDrop(result).Panicked? then Aborts else Fails(caught), dropped))
    case Returned =>
      match outcome
      case ConditionNotMet =>
        Block(if cb.dropTask.Panicked? then Fails(Caught(PanicPhase.TaskCleanup, cb.dropTask.payload)) else Completed,
              dropped + [TaskDropped(cb.dropTask)])
      case Task(_) => Block(Completed, dropped)
  }

  /** The locked phase once the guard is held: the second check and what it leads to. */
  function GuardedBlock(cb: Callbacks, token: Token, drops: bool): Block {
    Prepend([SecondCheckRan(cb.second)],
            match cb.second
            case CheckPanics(payload) => UnwindsGuardThenTask(cb, Caught(PanicPhase.SecondConditionCheck, payload))
            case Sees(open) => Execute(CheckedOps(cb, token, open, drops)))
  }

  lemma UnwindsCases(cb: Callbacks, caught: Caught)
    ensures Unwinds(caught, [TaskCleanup(cb)]) == UnwindsTask(cb, caught)
    ensures Unwinds(caught, [GuardCleanup(cb)]) == UnwindsGuard(cb, caught)
    ensures Unwinds(caught, [GuardCleanup(cb), TaskCleanup(cb)]) == UnwindsGuardThenTask(cb, caught)
  {
    assert [TaskCleanup(cb)][1..] == [];
    assert [GuardCleanup(cb)][1..] == [];
    assert [GuardCleanup(cb), TaskCleanup(cb)][1..] == [TaskCleanup(cb)];
  }

  /** The block after a second check that saw the gate open, by cases. */
  lemma OpenCases(cb: Callbacks, token: Token, drops: bool)
    ensures var run := cb.task(token);
            var events := [TaskStarted(token), TaskEnded(run.ending, run.token)];
            Execute(CheckedOps(cb, token, true, drops)) ==
            if run.ending.TaskPanics? then
              Prepend(events, UnwindsGuard(cb, Caught(PanicPhase.Task, run.ending.payload)))
            else Prepend(events, ReleaseBlock(cb, LockedExecution.Task(run.ending.result), drops))
  {
    var run := cb.task(token);
    var live := ResultCleanup(run.ending, drops);
    var release := ReleaseOp(cb, live);
    ExecuteHead(TaskOp(cb, token), [release]);
    assert [release] + [] == [release];
    ExecuteHead(release, []);
    if run.ending.TaskPanics? {
      UnwindsCases(cb, Caught(PanicPhase.Task, run.ending.payload));
    } else if live != [] {
      assert live[1..] == [];
    }
  }

  /** The block after a second check that saw the gate closed, by cases. */
  lemma ClosedCases(cb: Callbacks, token: Token, drops: bool)
    ensures Execute(CheckedOps(cb, token, false, drops)) == ReleaseBlock(cb, LockedExecution.ConditionNotMet, drops)
  {
    var release := ReleaseOp(cb, [TaskCleanup(cb)]);
    ExecuteHead(release, [TaskCleanupOp(cb)]);
    assert [TaskCleanupOp(cb)] + [] == [TaskCleanupOp(cb)];
    ExecuteHead(TaskCleanupOp(cb), []);
    if cb.release.Panicked? {
      UnwindsCases(cb, Caught(PanicPhase.LockRelease, cb.release.payload));
    }
  }

  /** The whole locked phase in terms of what follows the second check. */
  lemma LockedCases(cb: Callbacks, token: Token, drops: bool)
    ensures Execute(LockedOps(cb, token, drops)) ==
            if cb.acquire.Panicked? then
              Prepend([AcquireRan(cb.acquire)],
                      UnwindsTask(cb, Caught(PanicPhase.LockAcquisition, cb.acquire.payload)))
            else Prepend([AcquireRan(cb.acquire)], GuardedBlock(cb, token, drops))
  {
    var rest := CheckedOps(cb, token, cb.second == Sees(true), drops);
    ExecuteHead(AcquireOp(cb), [SecondCheckOp(cb)] + rest);
    ExecuteHead(SecondCheckOp(cb), rest);
    match cb.acquire
    case Panicked(payload) => UnwindsCases(cb, Caught(PanicPhase.LockAcquisition, payload));
    case Returned =>
      match cb.second {
        case CheckPanics(payload) => UnwindsCases(cb, Caught(PanicPhase.SecondConditionCheck, payload));
        case Sees(open) =>
      }
  }

  /** The phase of the first operation of the locked phase to panic, by cases. */
  function InterruptedAt(cb: Callbacks, token: Token): Option<PanicPhase> {
    if cb.acquire.Panicked? then Some(PanicPhase.LockAcquisition)
    else if cb.second.CheckPanics? then Some(PanicPhase.SecondConditionCheck)
    else if cb.second.open && cb.task(token).ending.TaskPanics? then Some(PanicPhase.Task)
    else if cb.release.Panicked? then Some(PanicPhase.LockRelease)
    else if !cb.second.open && cb.dropTask.Panicked? then Some(PanicPhase.TaskCleanup)
    else None
  }

  lemma InterruptedCases(cb: Callbacks, token: Token, drops: bool)
    ensures InterruptedIn(LockedOps(cb, token, drops)) == InterruptedAt(cb, token)
  {
    var open := cb.second == Sees(true);
    ExecuteHead(AcquireOp(cb), [SecondCheckOp(cb)] + CheckedOps(cb, token, open, drops));
    ExecuteHead(SecondCheckOp(cb), CheckedOps(cb, token, open, drops));
    if open {
      var release := ReleaseOp(cb, ResultCleanup(cb.task(token).ending, drops));
      ExecuteHead(TaskOp(cb, token), [release]);
      assert [release][1..] == [];
    } else {
      ExecuteHead(ReleaseOp(cb, [TaskCleanup(cb)]), [TaskCleanupOp(cb)]);
      assert [TaskCleanupOp(cb)][1..] == [];
    }
  }
}
