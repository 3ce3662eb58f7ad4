/** Finalization paths, failure priority and the outcome decoder of the lifecycle executor. */
module LifecycleProperties {
  import opened Wrappers
  import opened Panics
  import opened Outcomes
  import opened LockedPhase
  import opened TraceReading
  import opened Tallies
  import opened DclExecutors
  import opened LifecycleSemantics
  import opened LockedProperties
  import opened Erasure

  /** Everything the commit path needs, in terms of the callbacks alone. */
  predicate CommitSelected(cb: Callbacks) {
    && cb.first == Sees(true)
    && cb.prepare.Prepared?
    && cb.acquire.Returned?
    && cb.second == Sees(true)
    && cb.task(cb.prepare.token).ending.Finishes?
    && cb.task(cb.prepare.token).ending.result.Ok?
    && cb.release.Returned?
  }

  /** The cause an outcome of the rollback path stands for. */
  function CauseOf(outcome: CapturedLifecycleOutcome): Option<RollbackCause> {
    match outcome
    case SecondConditionNotMet(_) => Some(CauseConditionNotMet)
    case TaskFailed(error, _) => Some(CauseTaskFailed(error))
    case ExecutionPanicked(panic, _) => Some(CausePanicked(panic))
    case _ => None
  }

  lemma LockedNeverFinalizes(cb: Callbacks, token: Token)
    ensures forall e :: e in Locked(cb, token).trace ==> !Finalizes(e)
  {
    LockedCases(cb, token, true);
    if cb.second == Sees(true) {
      OpenCases(cb, token, true);
    } else if cb.second == Sees(false) {
      ClosedCases(cb, token, true);
    }
  }

  /** A prepared trace is the two opening events, the locked events, and one finalization. */
  lemma PreparedTrace(cb: Callbacks, token: Token)
    requires Reaches(cb, token) && !LockedResult(cb, token).Abort?
    ensures var trace := RunWithTokenCatching(cb).trace;
            var n := |trace| - 1;
            && n >= 2
            && trace[..2] == [InitialCheckRan(cb.first), PrepareRan(cb.prepare)]
            && trace[2..n] == Locked(cb, token).trace
            && [trace[n]] == FinishLockedCatching(cb, TokenAfter(cb, token), LockedResult(cb, token)).trace
            && Finalizes(trace[n])
  {
    var finish := FinishLockedCatching(cb, TokenAfter(cb, token), LockedResult(cb, token));
    var trace := RunWithTokenCatching(cb).trace;
    assert |finish.trace| == 1;
    var head := [InitialCheckRan(cb.first), PrepareRan(cb.prepare)];
    assert trace == head + Locked(cb, token).trace + finish.trace;
  }

  /** A prepared invocation that does not abort consumes its token in exactly one event. */
  lemma FinalizesOnce(cb: Callbacks, token: Token)
    requires Reaches(cb, token) && !LockedResult(cb, token).Abort?
    ensures Tally(Finalizing, RunWithTokenCatching(cb).trace) == 1
    ensures Tally(Finalizing, RunWithToken(cb).trace) == 1
    ensures var trace := RunWithToken(cb).trace;
            && Tally(Committing, trace) == (if CommitSelected(cb) && cb.commit.Some? then 1 else 0)
            && Tally(RollingBack, trace) == (if !CommitSelected(cb) && cb.rollback.Some? then 1 else 0)
            && Tally(DroppingToken, trace) ==
               (if (CommitSelected(cb) && cb.commit.None?) || (!CommitSelected(cb) && cb.rollback.None?) then 1 else 0)
  {
    PreparedTrace(cb, token);
    var trace := RunWithTokenCatching(cb).trace;
    var n := |trace| - 1;
    LockedNeverFinalizes(cb, token);
    assert trace[..n] == [InitialCheckRan(cb.first), PrepareRan(cb.prepare)] + trace[2..n];
    forall kind: Kind | !kind.Preparing? && !kind.EndingTask?
      ensures Tally(kind, trace) == if Matches(kind, trace[n]) then 1 else 0
    {
      LastOnly(kind, trace);
    }
    LifecycleErasure(cb);
    FinalizationPath(cb, token);
  }

  /** Only the last event of the trace finalizes. */
  lemma LastOnly(kind: Kind, trace: seq<Event>)
    requires trace != [] && !kind.Preparing? && !kind.EndingTask?
    requires forall e :: e in trace[..|trace| - 1] ==> !Finalizes(e)
    ensures Tally(kind, trace) == if Matches(kind, trace[|trace| - 1]) then 1 else 0
  {
    var n := |trace| - 1;
    forall e | e in trace[..n]
      ensures !Matches(kind, e)
    {
      assert Matches(kind, e) ==> Finalizes(e);
    }
    TallyNone(kind, trace[..n]);
    assert trace == trace[..n] + [trace[n]];
    TallySnoc(kind, trace[..n], trace[n]);
  }

  /**
   Finalization path: commit is selected exactly when `CommitSelected` holds; the
   last event consumes the token, carrying what the task left in it; and a
   rollback callback gets the cause the returned outcome stands for. The
   propagating entry point shows the same events (`Erasure.LifecycleErasure`).
   */
  lemma FinalizationPath(cb: Callbacks, token: Token)
    requires Reaches(cb, token) && !LockedResult(cb, token).Abort?
    ensures var run := RunWithTokenCatching(cb);
            var last := run.trace[|run.trace| - 1];
            var left := TokenAfter(cb, token);
            && run.flow.Return?
            && (CommitSelected(cb) <==> run.flow.value.TaskSucceeded?)
            && (CommitSelected(cb) ==>
                  if cb.commit.Some? then last == CommitRan(left, cb.commit.value(left))
                  else last == TokenDropped(left, cb.dropToken(left)))
            && (!CommitSelected(cb) ==>
                  && CauseOf(run.flow.value).Some?
                  && var cause := CauseOf(run.flow.value).value;
                     if cb.rollback.Some? then last == RollbackRan(left, cause, cb.rollback.value(left, cause))
                     else last == TokenDropped(left, cb.dropToken(left)))
  {
    CommitsExactly(cb, token);
    var left := TokenAfter(cb, token);
    var finish := FinishLockedCatching(cb, left, LockedResult(cb, token));
    var trace := RunWithTokenCatching(cb).trace;
    assert |finish.trace| == 1;
    assert trace[|trace| - 1] == finish.trace[0];
  }

  /** The locked phase hands a value to commit exactly when `CommitSelected` holds. */
  lemma CommitsExactly(cb: Callbacks, token: Token)
    requires Reaches(cb, token)
    ensures CommitSelected(cb) <==>
            && LockedResult(cb, token).Return?
            && LockedResult(cb, token).value.Ok?
            && LockedResult(cb, token).value.value.Task?
            && LockedResult(cb, token).value.value.result.Ok?
  {
    LockedSucceedsExactly(cb, token);
  }

  /** No token, no finalization: an invocation that never prepared finalizes nothing. */
  lemma UnpreparedNeverFinalizes(cb: Callbacks)
    requires cb.first != Sees(true) || !cb.prepare.Prepared?
    ensures Tally(Finalizing, RunWithTokenCatching(cb).trace) == 0
    ensures Tally(Finalizing, RunWithToken(cb).trace) == 0
  {
    LifecycleErasure(cb);
    TallyNone(Finalizing, RunWithTokenCatching(cb).trace);
  }

  /** Panics that follow finished work still select rollback with the panic as cause. */
  lemma LatePanicsRollBack(cb: Callbacks, token: Token)
    requires Reaches(cb, token) && !LockedResult(cb, token).Abort? && cb.rollback.Some?
    requires cb.acquire.Returned? && cb.second.Sees?
    requires cb.second.open ==> cb.task(token).ending.Finishes?
    requires cb.release.Panicked? || (!cb.second.open && cb.dropTask.Panicked?)
    ensures exists panic: Caught, finalizer ::
              && RunWithTokenCatching(cb).trace[|RunWithTokenCatching(cb).trace| - 1] ==
                   RollbackRan(TokenAfter(cb, token), CausePanicked(panic), finalizer)
              && panic == (if cb.release.Panicked? then Caught(PanicPhase.LockRelease, cb.release.payload)
                           else Caught(PanicPhase.TaskCleanup, cb.dropTask.payload))
              && RunWithToken(cb).flow == Unwind(panic.payload)
  {
    FinalizationPath(cb, token);
    LockedCases(cb, token, true);
    OpenCases(cb, token, true);
    ClosedCases(cb, token, true);
    var panic := if cb.release.Panicked? then Caught(PanicPhase.LockRelease, cb.release.payload)
                 else Caught(PanicPhase.TaskCleanup, cb.dropTask.payload);
    assert LockedResult(cb, token) == Return(Err(panic));
    var cause := CausePanicked(panic);
    assert RunWithTokenCatching(cb).trace[|RunWithTokenCatching(cb).trace| - 1] ==
           RollbackRan(TokenAfter(cb, token), cause, cb.rollback.value(TokenAfter(cb, token), cause));
  }

  /**
   Failure priority under capture. Each earlier failure decides the outcome for
   every behaviour of every later callback and destructor.
   */
  lemma CapturedPriority(cb: Callbacks)
    ensures cb.first.CheckPanics? ==>
              RunWithTokenCatching(cb).flow ==
              Return(InitialConditionCheckPanicked(Caught(PanicPhase.InitialConditionCheck, cb.first.payload)))
    ensures cb.first == Sees(true) && cb.prepare.PrepareErrs? ==>
              RunWithTokenCatching(cb).flow == Return(CapturedLifecycleOutcome.PrepareFailed(cb.prepare.error))
    ensures cb.first == Sees(true) && cb.prepare.PreparePanics? ==>
              RunWithTokenCatching(cb).flow ==
              Return(PreparePanicked(Caught(PanicPhase.Prepare, cb.prepare.payload)))
    ensures forall token, panic :: Reaches(cb, token) && LockedResult(cb, token) == Return(Err(panic)) ==>
              && RunWithTokenCatching(cb).flow.Return?
              && RunWithTokenCatching(cb).flow.value.ExecutionPanicked?
              && RunWithTokenCatching(cb).flow.value.panic == panic
              && RunWithToken(cb).flow == Unwind(panic.payload)
              && FirstPanicIn(RunWithToken(cb).trace) == Some(panic)
  {
    forall token, panic | Reaches(cb, token) && LockedResult(cb, token) == Return(Err(panic))
      ensures FirstPanicIn(RunWithToken(cb).trace) == Some(panic)
    {
      ReadsPrepared(cb, token);
      LifecycleErasure(cb);
    }
  }

  /** Without capture the earlier failure survives exactly when the skipped task drops quietly. */
  lemma PropagatingPriority(cb: Callbacks)
    ensures cb.first.CheckPanics? ==>
              (RunWithToken(cb).flow == Unwind(cb.first.payload) <==> cb.dropTask.Returned?)
    ensures cb.first == Sees(true) && cb.prepare.PrepareErrs? ==>
              (RunWithToken(cb).flow == Return(LifecycleOutcome.PrepareFailed(cb.prepare.error))
               <==> cb.dropTask.Returned?)
    ensures cb.first == Sees(true) && cb.prepare.PreparePanics? ==>
              (RunWithToken(cb).flow == Unwind(cb.prepare.payload) <==> cb.dropTask.Returned?)
  {
  }

  /** A prepare error replaced by the cleanup panic of the task it skipped, when nothing captures. */
  lemma PrepareErrorCanBeLost()
    ensures exists cb: Callbacks ::
              && cb.first == Sees(true)
              && cb.prepare.PrepareErrs?
              && RunWithToken(cb).flow == Unwind(Inert(7))
              && RunWithTokenCatching(cb).flow == Return(CapturedLifecycleOutcome.PrepareFailed(cb.prepare.error))
  {
    var cb := Callbacks(Sees(true), PrepareErrs(Owned(1, Returned)), Returned, Sees(true),
                        token => TaskRun(Finishes(Ok(Owned(0, Returned))), token), Returned, Returned,
                        Call.Panicked(Inert(7)), None, None, token => Returned, true);
    assert RunWithToken(cb).flow == Unwind(Inert(7));
  }

  /** What the two readings of a prepared trace give before its finalization event. */
  lemma ReadsPrepared(cb: Callbacks, token: Token)
    requires Reaches(cb, token) && !LockedResult(cb, token).Abort?
    ensures var trace := RunWithTokenCatching(cb).trace;
            var body := trace[2..|trace| - 1];
            && FirstPanicIn(trace) == FirstPanicIn(body)
            && FirstPanicIn(body) == (if LockedResult(cb, token).value.Err? then
                                        Some(LockedResult(cb, token).value.error) else None)
  {
    PreparedTrace(cb, token);
    PhaseExactness(cb, token);
    ReadsFramed(cb, RunWithTokenCatching(cb).trace);
  }

  /** A quiet opening and a finalization event hide no panic of the locked phase between them. */
  lemma ReadsFramed(cb: Callbacks, trace: seq<Event>)
    requires |trace| >= 3 && trace[..2] == [InitialCheckRan(cb.first), PrepareRan(cb.prepare)]
    requires cb.first.Sees? && cb.prepare.Prepared? && Finalizes(trace[|trace| - 1])
    ensures FirstPanicIn(trace) == FirstPanicIn(trace[2..|trace| - 1])
  {
    var n := |trace| - 1;
    var body := trace[2..n];
    ReadsSnoc(trace[..n], trace[n]);
    assert trace == trace[..n] + [trace[n]];
    assert trace[..n] == trace[..2] + body;
    FirstPanicConcat(trace[..2], body);
    ReadsOne(InitialCheckRan(cb.first));
    ReadsSnoc([InitialCheckRan(cb.first)], PrepareRan(cb.prepare));
    assert trace[..2] == [InitialCheckRan(cb.first)] + [PrepareRan(cb.prepare)];
  }

  /** Round trip: the captured outcome of every invocation is recovered from its trace alone. */
  lemma DecodesCaptured(cb: Callbacks)
    requires RunWithTokenCatching(cb).flow.Return?
    ensures DecodeCaptured(RunWithTokenCatching(cb).trace) == Some(RunWithTokenCatching(cb).flow.value)
  {
    var trace := RunWithTokenCatching(cb).trace;
    if cb.first == Sees(true) && cb.prepare.Prepared? {
      var token := cb.prepare.token;
      PreparedTrace(cb, token);
      PhaseExactness(cb, token);
      assert trace[0] == trace[..2][0] && trace[1] == trace[..2][1];
      DecodesFinalization(cb, TokenAfter(cb, token), LockedResult(cb, token).value);
      LockedTraceNonEmpty(cb, token);
    }
  }

  lemma LockedTraceNonEmpty(cb: Callbacks, token: Token)
    ensures |Locked(cb, token).trace| > 0
  {
    LockedCases(cb, token, true);
  }

  /** The single event of a finalization decodes to its captured outcome. */
  lemma DecodesFinalization(cb: Callbacks, left: Token, locked: Result<LockedExecution, Caught>)
    ensures var finish := FinishLockedCatching(cb, left, Return(locked));
            && |finish.trace| == 1 && finish.flow.Return?
            && match finish.flow.value
               case TaskSucceeded(_, commit) =>
                 DecodeFinalization(PanicPhase.Commit, finish.trace[0]) == Some(commit)
               case SecondConditionNotMet(rollback) =>
                 DecodeFinalization(PanicPhase.Rollback, finish.trace[0]) == Some(rollback)
               case TaskFailed(_, rollback) =>
                 DecodeFinalization(PanicPhase.Rollback, finish.trace[0]) == Some(rollback)
               case ExecutionPanicked(_, rollback) =>
                 DecodeFinalization(PanicPhase.Rollback, finish.trace[0]) == Some(rollback)
               case _ => false
  {
  }

  /** Round trip for the basic executor. */
  lemma DecodesBasic(cb: Callbacks)
    requires RunBasicCatching(cb).flow.Return?
    ensures DecodeBasic(RunBasicCatching(cb).trace) == RunBasicCatching(cb).flow.value
  {
    var trace := RunBasicCatching(cb).trace;
    var check := InitialCheckRan(cb.first);
    ReadsOne(check);
    if cb.first == Sees(true) {
      PhaseExactness(cb, UNIT_TOKEN);
      FirstPanicConcat([check], Locked(cb, UNIT_TOKEN).trace);
      TaskResultConcat([check], Locked(cb, UNIT_TOKEN).trace);
    } else {
      ReadsSnoc([check], TaskDropped(cb.dropTask));
      assert trace == [check] + [TaskDropped(cb.dropTask)];
    }
  }
}
