/** Properties of the locked phase: exact phases, exact aborts, and what its trace determines. */
module LockedProperties {
  import opened Wrappers
  import opened Panics
  import opened Outcomes
  import opened Unwinding
  import opened LockedPhase
  import opened TraceReading

  /** A destructor panics while an earlier panic of the locked phase is already unwinding. */
  predicate LockedDoublePanic(cb: Callbacks, token: Token) {
    if cb.acquire.Panicked? then cb.dropTask.Panicked?
    else match cb.second
      case CheckPanics(_) => cb.releaseUnwinding.Panicked? || cb.dropTask.Panicked?
      case Sees(false) => cb.release.Panicked? && cb.dropTask.Panicked?
      case Sees(true) =>
        match cb.task(token).ending
        case TaskPanics(_) => cb.releaseUnwinding.Panicked?
        case Finishes(result) => cb.release.Panicked? && ResultDrop(result).Panicked?
  }

  /** The locked phase aborts exactly on a double panic. */
  lemma LockedAbortsExactly(cb: Callbacks, token: Token)
    ensures LockedResult(cb, token).Abort? <==> LockedDoublePanic(cb, token)
  {
    LockedCases(cb, token, true);
    OpenCases(cb, token, true);
    ClosedCases(cb, token, true);
  }

  /** The locked phase succeeds exactly when no operation it reaches panics. */
  lemma LockedSucceedsExactly(cb: Callbacks, token: Token)
    ensures (LockedResult(cb, token).Return? && LockedResult(cb, token).value.Ok?) <==>
            && cb.acquire.Returned? && cb.second.Sees? && cb.release.Returned?
            && (if cb.second.open then cb.task(token).ending.Finishes? else cb.dropTask.Returned?)
  {
    LockedCases(cb, token, true);
    OpenCases(cb, token, true);
    ClosedCases(cb, token, true);
  }

  /** An operation's events show a panic exactly when the operation panicked, under its phase. */
  ghost predicate Faithful(op: Op) {
    FirstPanicIn(op.events) ==
    if op.call.Panicked? then Some(Caught(op.phase, op.call.payload)) else None
  }

  /** The trace of any block of faithful operations shows as its first panic what the block reports. */
  lemma {:induction false} BlockShowsFirstPanic(ops: seq<Op>)
    requires forall op :: op in ops ==> Faithful(op)
    ensures Execute(ops).end.Completed? ==> FirstPanicIn(Execute(ops).trace) == None
    ensures Execute(ops).end.Fails? ==> FirstPanicIn(Execute(ops).trace) == Some(Execute(ops).end.caught)
  {
    if ops != [] {
      assert Faithful(ops[0]);
      if ops[0].call.Panicked? {
        var caught := Caught(ops[0].phase, ops[0].call.payload);
        UnwindsExactly(caught, ops[0].live);
        FirstPanicConcat(ops[0].events, Unwinds(caught, ops[0].live).trace);
      } else {
        BlockShowsFirstPanic(ops[1..]);
        FirstPanicConcat(ops[0].events, Execute(ops[1..]).trace);
      }
    }
  }

  lemma LockedOpsFaithful(cb: Callbacks, token: Token)
    ensures forall op :: op in LockedOps(cb, token, true) ==> Faithful(op)
  {
    var run := cb.task(token);
    ReadsOne(AcquireRan(cb.acquire));
    ReadsOne(SecondCheckRan(cb.second));
    ReadsOne(GuardDropped(cb.release, false));
    ReadsOne(TaskDropped(cb.dropTask));
    ReadsOne(TaskStarted(token));
    ReadsSnoc([TaskStarted(token)], TaskEnded(run.ending, run.token));
    assert TaskOp(cb, token).events == [TaskStarted(token)] + [TaskEnded(run.ending, run.token)];
  }

  lemma {:induction false} NoTaskResult(trace: seq<Event>)
    requires forall e :: e in trace ==> !e.TaskEnded?
    ensures TaskResultIn(trace) == None
  {
    if trace != [] {
      NoTaskResult(trace[1..]);
    }
  }

  /** The task result a locked trace shows is the one the task returned, if it ran and returned. */
  lemma LockedShowsTaskResult(cb: Callbacks, token: Token)
    ensures TaskResultIn(Locked(cb, token).trace) ==
            if TaskRuns(cb) && cb.task(token).ending.Finishes? then Some(cb.task(token).ending.result) else None
  {
    if TaskRuns(cb) {
      OpenShowsTaskResult(cb, token);
    } else {
      ClosedShowsNoTask(cb, token);
      NoTaskResult(Locked(cb, token).trace);
    }
  }

  lemma ClosedShowsNoTask(cb: Callbacks, token: Token)
    requires !TaskRuns(cb)
    ensures forall e :: e in Locked(cb, token).trace ==> !e.TaskEnded?
  {
    LockedCases(cb, token, true);
    if cb.second == Sees(false) {
      ClosedCases(cb, token, true);
    }
  }

  lemma OpenShowsTaskResult(cb: Callbacks, token: Token)
    requires TaskRuns(cb)
    ensures TaskResultIn(Locked(cb, token).trace) ==
            if cb.task(token).ending.Finishes? then Some(cb.task(token).ending.result) else None
  {
    LockedCases(cb, token, true);
    OpenCases(cb, token, true);
    var trace := Locked(cb, token).trace;
    var ended := TaskEnded(cb.task(token).ending, cb.task(token).token);
    var before := [AcquireRan(cb.acquire), SecondCheckRan(cb.second), TaskStarted(token)];
    assert trace == before + [ended] + trace[4..];
    NoTaskResult(before);
    ReadsSnoc(before, ended);
    NoTaskResult(trace[4..]);
    TaskResultConcat(before + [ended], trace[4..]);
  }

  /**
   Phase exactness: captured metadata is exactly the first panic the locked
   trace shows, and a trace without one belongs to a success, whose value is
   the task's result or a rejection.
   */
  lemma PhaseExactness(cb: Callbacks, token: Token)
    ensures var locked := LockedResult(cb, token);
            var trace := Locked(cb, token).trace;
            locked.Return? ==>
              match locked.value
              case Err(panic) => FirstPanicIn(trace) == Some(panic)
              case Ok(Task(result)) => FirstPanicIn(trace) == None && TaskResultIn(trace) == Some(result)
              case Ok(ConditionNotMet) => FirstPanicIn(trace) == None && TaskResultIn(trace) == None
  {
    LockedOpsFaithful(cb, token);
    BlockShowsFirstPanic(LockedOps(cb, token, true));
    LockedShowsTaskResult(cb, token);
    LockedSucceedsExactly(cb, token);
  }

  /** What a reported phase says about the task, the second check and the guard. */
  lemma PhaseMeaning(cb: Callbacks, token: Token, panic: Caught)
    requires LockedResult(cb, token) == Return(Err(panic))
    ensures var trace := Locked(cb, token).trace;
            && (panic.phase in {PanicPhase.LockAcquisition, PanicPhase.SecondConditionCheck,
                                PanicPhase.Task, PanicPhase.LockRelease, PanicPhase.TaskCleanup})
            && (panic.phase.Task? ==> TaskStarted(token) in trace)
            && (panic.phase.LockAcquisition? || panic.phase.SecondConditionCheck? || panic.phase.TaskCleanup? ==>
                  forall t :: TaskStarted(t) !in trace)
            && (panic.phase.TaskCleanup? <==>
                  trace == [AcquireRan(Returned), SecondCheckRan(Sees(false)), GuardDropped(Returned, false),
                            TaskDropped(Call.Panicked(panic.payload))])
            && (panic.phase.LockAcquisition? <==> forall e :: e in trace ==> e.AcquireRan? || e.TaskDropped?)
  {
    var trace := Locked(cb, token).trace;
    if cb.acquire.Panicked? {
      LockedCases(cb, token, true);
      assert trace == [AcquireRan(cb.acquire), TaskDropped(cb.dropTask)];
    } else if cb.second == Sees(true) {
      OpenPhases(cb, token, panic);
      assert trace[1] in trace && trace[2] in trace;
    } else {
      ClosedPhases(cb, token, panic);
      assert trace[1] in trace;
    }
  }

  lemma OpenPhases(cb: Callbacks, token: Token, panic: Caught)
    requires LockedResult(cb, token) == Return(Err(panic)) && TaskRuns(cb)
    ensures var trace := Locked(cb, token).trace;
            && (panic.phase.Task? || panic.phase.LockRelease?)
            && |trace| > 2 && trace[1].SecondCheckRan? && trace[2] == TaskStarted(token)
  {
    LockedCases(cb, token, true);
    OpenCases(cb, token, true);
  }

  lemma ClosedPhases(cb: Callbacks, token: Token, panic: Caught)
    requires LockedResult(cb, token) == Return(Err(panic)) && cb.acquire.Returned? && cb.second != Sees(true)
    ensures var trace := Locked(cb, token).trace;
            && (panic.phase.SecondConditionCheck? || panic.phase.LockRelease? || panic.phase.TaskCleanup?)
            && |trace| > 2 && trace[1] == SecondCheckRan(cb.second)
            && (forall t :: TaskStarted(t) !in trace)
            && (panic.phase.TaskCleanup? <==>
                  trace == [AcquireRan(Returned), SecondCheckRan(Sees(false)), GuardDropped(Returned, false),
                            TaskDropped(Call.Panicked(panic.payload))])
  {
    LockedCases(cb, token, true);
    if cb.second == Sees(false) {
      ClosedCases(cb, token, true);
      assert Locked(cb, token).trace[2] == GuardDropped(cb.release, false);
    }
  }
}
