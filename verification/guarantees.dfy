/** The guarantees every reachable state gives: projection, guards, poisoning. */
module Guarantees {
  import opened Wrappers
  import opened Panics
  import opened Outcomes
  import opened LockedPhase
  import opened TraceReading
  import opened LifecycleSemantics
  import opened Erasure
  import opened LifecycleProperties
  import opened Protocol
  import opened Projection
  import opened GuardDiscipline
  import opened Reachable
  import opened FastPath

  // ----- projection -----

  /** The locked part of an opened invocation is a prefix of everything it will ever show. */
  lemma LockedPrefix(entry: Entry, cb: Callbacks)
    requires Opened(entry, cb)
    ensures Opening(entry, cb) + BlockOf(entry, cb).trace <= Meaning(entry, cb).1
  {
    match BlockOf(entry, cb).end {
      case Completed => MeaningAfterLock(entry, cb, Ok(LockedValue(cb, Given(entry, cb))));
      case Fails(caught) => MeaningAfterLock(entry, cb, Err(caught));
      case Aborts => MeaningAborts(entry, cb);
    }
  }

  lemma ShownIsPrefix(entry: Entry, cb: Callbacks, pc: Pc)
    requires Opened(entry, cb) && OnPath(entry, cb, pc)
    ensures LockedShown(entry, cb, pc) <= BlockOf(entry, cb).trace
  {
    BlockCases(entry, cb);
  }

  /** On its path, an invocation has shown a prefix of its sequential trace. */
  lemma HistoryIsPrefix(entry: Entry, cb: Callbacks, pc: Pc)
    requires OnPath(entry, cb, pc)
    ensures History(entry, cb, pc) <= Meaning(entry, cb).1
  {
    if Opened(entry, cb) && !Finished(pc) && !pc.AtInitial? && !pc.AtPrepare? && !pc.AtSkip? {
      LockedPrefix(entry, cb);
      ShownIsPrefix(entry, cb, pc);
      assert History(entry, cb, pc) <= Opening(entry, cb) + BlockOf(entry, cb).trace;
    } else if pc.AtPrepare? || pc.AtSkip? {
      EarlyPrefix(entry, cb, pc);
    }
  }

  lemma EarlyPrefix(entry: Entry, cb: Callbacks, pc: Pc)
    requires OnPath(entry, cb, pc) && (pc.AtPrepare? || pc.AtSkip?)
    ensures History(entry, cb, pc) <= Meaning(entry, cb).1
  {
  }

  // ----- what a run resolves -----

  /** A check that does not panic reads the gate of the moment, and prepare mints the supply's next identity. */
  lemma ReadsExactly(script: Script, l: Local, g: Globals)
    requires !Finished(l.pc) && Resolves(script, l.callbacks) && Unresolved(script, l)
    ensures var cb, cb' := l.callbacks, NextLocal(script, l, g).callbacks;
            && cb'.first == (if l.pc.AtInitial? && script.callbacks.first.Sees? then Sees(g.gate) else cb.first)
            && cb'.second == (if l.pc.AtSecond? && script.callbacks.second.Sees? then Sees(g.gate) else cb.second)
            && cb'.prepare == (if l.pc.AtPrepare? && cb.prepare.Prepared? then
                                 Prepared(Token(g.nextToken, script.callbacks.prepare.token.pending))
                               else cb.prepare)
  {
    if !l.pc.AtInitial? && !l.pc.AtPrepare? && !l.pc.AtAcquire? && !l.pc.AtSecond? {
      CallbacksKept(script, l, g);
    }
  }


  /** Only a lock that is poisoned has refused anybody. */
  ghost predicate RefusalsArePoison(cfg: Config, s: State)
    requires |s.locals| == |cfg.scripts|
  {
    forall i :: 0 <= i < |s.locals| && s.locals[i].callbacks.acquire != cfg.scripts[i].callbacks.acquire ==>
      s.globals.poisoned
  }

  /** An acquisition is the script's own, or the refusal of a poisoned lock; nothing else touches it. */
  lemma AcquiresExactly(script: Script, l: Local, g: Globals)
    requires !Finished(l.pc)
    ensures NextLocal(script, l, g).callbacks.acquire ==
            if !l.pc.AtAcquire? then l.callbacks.acquire
            else if g.poisoned then Call.Panicked(POISON) else script.callbacks.acquire
  {
  }

  lemma StepRefusals(cfg: Config, s: State, a: Action)
    requires Invariant(cfg, s) && RefusalsArePoison(cfg, s) && Enabled(cfg, s, a)
    ensures RefusalsArePoison(cfg, Apply(cfg, s, a))
  {
    StepPoisonFrees(cfg, s, a);
    if a.Step? {
      AcquiresExactly(cfg.scripts[a.index], s.locals[a.index], s.globals);
    }
  }

  lemma {:induction false} RefusalsFrom(cfg: Config, s: State, schedule: seq<Action>)
    requires Invariant(cfg, s) && RefusalsArePoison(cfg, s) && Runs(cfg, s, schedule)
    ensures RefusalsArePoison(cfg, After(cfg, s, schedule))
    decreases |schedule|
  {
    if schedule != [] {
      StepInvariant(cfg, s, schedule[0]);
      StepRefusals(cfg, s, schedule[0]);
      RefusalsFrom(cfg, Apply(cfg, s, schedule[0]), schedule[1..]);
    }
  }

  /**
   In every reachable state an invocation whose acquisition did not go as its
   script says was refused by a poisoned lock: the lock is a poisoning one and
   an exclusive guard of somebody was dropped by an unwind. On any other lock
   every acquisition goes as scripted.
   */
  lemma RefusedOnlyByPoison(cfg: Config, schedule: seq<Action>, i: nat)
    requires Runs(cfg, Start(cfg), schedule) && i < |cfg.scripts|
    ensures var s := After(cfg, Start(cfg), schedule);
            s.locals[i].callbacks.acquire != cfg.scripts[i].callbacks.acquire ==>
              && cfg.poisoning
              && s.locals[i].callbacks.acquire == Call.Panicked(POISON)
              && exists j :: 0 <= j < |s.locals| && cfg.scripts[j].mode.Exclusive? && UnwoundGuard(s.locals[j].trace)
  {
    StartInvariant(cfg);
    RefusalsFrom(cfg, Start(cfg), schedule);
    InvariantAlways(cfg, schedule);
    assert LocalInvariant(cfg.scripts[i], After(cfg, Start(cfg), schedule).locals[i]);
  }

  /**
   Projection: whatever the interleaving, what one invocation has shown is a
   prefix of its sequential run, for callbacks that differ from its script only
   in gate reads, token identity and poisoned acquisition; when it is over, its
   trace and its ending are that sequential run's.
   */
  lemma ProjectionIsSequential(cfg: Config, schedule: seq<Action>, i: nat)
    requires Runs(cfg, Start(cfg), schedule) && i < |cfg.scripts|
    ensures var l := After(cfg, Start(cfg), schedule).locals[i];
            var (ending, trace) := Meaning(cfg.scripts[i].entry, l.callbacks);
            && Resolves(cfg.scripts[i], l.callbacks)
            && (!cfg.poisoning ==> l.callbacks.acquire == cfg.scripts[i].callbacks.acquire)
            && l.trace <= trace
            && (l.pc.AtDone? ==> l.pc.ending == ending && l.trace == trace)
            && (l.pc.AtAbort? ==> EndsInAbort(ending) && l.trace == trace)
  {
    InvariantAlways(cfg, schedule);
    var s := After(cfg, Start(cfg), schedule);
    assert LocalInvariant(cfg.scripts[i], s.locals[i]);
    RefusedOnlyByPoison(cfg, schedule, i);
    HistoryIsPrefix(cfg.scripts[i].entry, s.locals[i].callbacks, s.locals[i].pc);
  }

  /** Round trip under concurrency: a capturing invocation's outcome is decoded from its own trace. */
  lemma InterleavedRoundTrip(cfg: Config, schedule: seq<Action>, i: nat, outcome: CapturedLifecycleOutcome)
    requires Runs(cfg, Start(cfg), schedule) && i < |cfg.scripts|
    requires After(cfg, Start(cfg), schedule).locals[i].pc == AtDone(LifecycleCaptured(Return(outcome)))
    ensures DecodeCaptured(After(cfg, Start(cfg), schedule).locals[i].trace) == Some(outcome)
  {
    ProjectionIsSequential(cfg, schedule, i);
    var l := After(cfg, Start(cfg), schedule).locals[i];
    assert cfg.scripts[i].entry == LifecycleEntry(true);
    DecodesCaptured(l.callbacks);
  }

  /** The same for a capturing basic invocation. */
  lemma InterleavedBasicRoundTrip(cfg: Config, schedule: seq<Action>, i: nat, outcome: Result<ExecutionOutcome, Caught>)
    requires Runs(cfg, Start(cfg), schedule) && i < |cfg.scripts|
    requires After(cfg, Start(cfg), schedule).locals[i].pc == AtDone(BasicCaptured(Return(outcome)))
    ensures DecodeBasic(After(cfg, Start(cfg), schedule).locals[i].trace) == outcome
  {
    ProjectionIsSequential(cfg, schedule, i);
    var l := After(cfg, Start(cfg), schedule).locals[i];
    assert cfg.scripts[i].entry == BasicEntry(true);
    DecodesBasic(l.callbacks);
  }

  /** What an invocation that never goes to the lock shows: its checks, and then the drop of its task. */
  lemma EarlyExits(entry: Entry, cb: Callbacks)
    requires !Opened(entry, cb)
    ensures Meaning(entry, cb).1 ==
            [InitialCheckRan(cb.first)]
            + (if entry.LifecycleEntry? && cb.first == Sees(true) then [PrepareRan(cb.prepare)] else [])
            + [TaskDropped(cb.dropTask)]
    ensures cb.dropTask.Returned? ==>
              Meaning(entry, cb).0 ==
              match cb.first
              case Sees(false) => Rejection(entry)
              case CheckPanics(payload) =>
                (match entry
                 case BasicEntry(false) => BasicPlain(Unwind(payload))
                 case BasicEntry(true) => BasicCaptured(Return(Err(Caught(PanicPhase.InitialConditionCheck, payload))))
                 case LifecycleEntry(false) => LifecyclePlain(Unwind(payload))
                 case LifecycleEntry(true) =>
                   LifecycleCaptured(Return(InitialConditionCheckPanicked(
                                              Caught(PanicPhase.InitialConditionCheck, payload)))))
              case Sees(true) =>
                match cb.prepare
                case PrepareErrs(error) =>
                  if entry.capture then LifecycleCaptured(Return(CapturedLifecycleOutcome.PrepareFailed(error)))
                  else LifecyclePlain(Return(LifecycleOutcome.PrepareFailed(error)))
                case PreparePanics(payload) =>
                  if entry.capture then
                    LifecycleCaptured(Return(PreparePanicked(Caught(PanicPhase.Prepare, payload))))
                  else LifecyclePlain(Unwind(payload))
  {
  }

  // ----- guards -----

  /**
   Guard discipline: every invocation acquires one guard at most, runs its second
   check and its task under it without interruption and everything else outside;
   the lock agrees on who holds a guard, and two guards at once are both shared.
   */
  lemma GuardsAreDisciplined(cfg: Config, schedule: seq<Action>, i: nat, j: nat)
    requires Runs(cfg, Start(cfg), schedule) && i < |cfg.scripts| && j < |cfg.scripts|
    ensures var s := After(cfg, Start(cfg), schedule);
            && OneUninterruptedGuard(s.locals[i].trace)
            && (Holds(s.locals[i].pc) <==> Guarded(s.locals[i].trace, |s.locals[i].trace|))
            && (Holds(s.locals[i].pc) <==> s.globals.writer == HeldBy(i) || i in s.globals.readers)
            && (i != j && Holds(s.locals[i].pc) && Holds(s.locals[j].pc) ==>
                  cfg.scripts[i].mode.SharedMode? && cfg.scripts[j].mode.SharedMode?)
  {
    InvariantAlways(cfg, schedule);
    var s := After(cfg, Start(cfg), schedule);
    assert LocalInvariant(cfg.scripts[i], s.locals[i]);
    StageMeans(s.locals[i].trace);
    if i != j && Holds(s.locals[i].pc) && Holds(s.locals[j].pc) {
      MutualExclusion(cfg, s, i, j);
    }
  }

  // ----- poisoning -----

  /** The second check or the task panicked, under the guard. */
  predicate PanickedInside(entry: Entry, cb: Callbacks) {
    && Locks(entry, cb)
    && (cb.second.CheckPanics? || (cb.second == Sees(true) && Ran(entry, cb).ending.TaskPanics?))
  }

  lemma UnwoundConcat(a: seq<Event>, b: seq<Event>)
    ensures UnwoundGuard(a + b) <==> UnwoundGuard(a) || UnwoundGuard(b)
  {
    assert forall e :: e in a + b <==> e in a || e in b;
  }

  lemma BlockUnwinds(entry: Entry, cb: Callbacks)
    requires Opened(entry, cb)
    ensures UnwoundGuard(BlockOf(entry, cb).trace) <==> PanickedInside(entry, cb)
  {
    BlockCases(entry, cb);
    var trace := BlockOf(entry, cb).trace;
    if PanickedInside(entry, cb) {
      assert GuardDropped(cb.releaseUnwinding, true) in trace;
    } else {
      assert forall e :: e in trace ==> !(e.GuardDropped? && e.unwinding);
    }
  }

  lemma NeverUnwound(trace: seq<Event>)
    requires forall e :: e in trace ==> !(e.GuardDropped? && e.unwinding)
    ensures !UnwoundGuard(trace)
  {
  }

  /** A finished invocation unwound a guard exactly when it panicked inside the lock. */
  lemma UnwindsExactlyInside(entry: Entry, cb: Callbacks)
    ensures UnwoundGuard(Meaning(entry, cb).1) <==> PanickedInside(entry, cb)
  {
    if Opened(entry, cb) {
      BlockUnwinds(entry, cb);
      NeverUnwound(Opening(entry, cb));
      UnwoundConcat(Opening(entry, cb), BlockOf(entry, cb).trace);
      var given := Given(entry, cb);
      match BlockOf(entry, cb).end {
        case Completed =>
          var locked := Ok(LockedValue(cb, given));
          MeaningAfterLock(entry, cb, locked);
          FinalizationNeverUnwinds(entry, cb, TokenAfter(cb, given), locked);
        case Fails(caught) =>
          MeaningAfterLock(entry, cb, Err(caught));
          FinalizationNeverUnwinds(entry, cb, TokenAfter(cb, given), Err(caught));
        case Aborts => MeaningAborts(entry, cb);
      }
    } else {
      NeverUnwound(Meaning(entry, cb).1);
    }
  }

  lemma FinalizationNeverUnwinds(entry: Entry, cb: Callbacks, token: Token, locked: Result<LockedExecution, Caught>)
    ensures var events := Finalization(entry, cb, token, locked).1;
            forall prefix :: UnwoundGuard(prefix + events) <==> UnwoundGuard(prefix)
  {
    var events := Finalization(entry, cb, token, locked).1;
    NeverUnwound(events);
    forall prefix
      ensures UnwoundGuard(prefix + events) <==> UnwoundGuard(prefix)
    {
      UnwoundConcat(prefix, events);
    }
  }

  lemma UnwoundPrefix(shown: seq<Event>, whole: seq<Event>)
    requires shown <= whole && UnwoundGuard(shown)
    ensures UnwoundGuard(whole)
  {
    var call :| GuardDropped(call, true) in shown;
    assert GuardDropped(call, true) in whole;
  }

  /**
   Poisoning: in every reachable state the lock is poisoned exactly when it is a
   poisoning lock and an unwind has dropped an exclusive guard; and the only
   invocations that ever unwind a guard are those whose second check or task
   panicked. No initial check, prepare, cleanup, release or finalizer poisons it.
   */
  lemma PoisonedExactly(cfg: Config, schedule: seq<Action>)
    requires Runs(cfg, Start(cfg), schedule)
    ensures var s := After(cfg, Start(cfg), schedule);
            && (s.globals.poisoned <==>
                  cfg.poisoning && exists i :: 0 <= i < |cfg.scripts| && cfg.scripts[i].mode.Exclusive? &&
                                               UnwoundGuard(s.locals[i].trace))
            && forall i :: 0 <= i < |cfg.scripts| ==>
                 && (UnwoundGuard(s.locals[i].trace) ==> PanickedInside(cfg.scripts[i].entry, s.locals[i].callbacks))
                 && (Finished(s.locals[i].pc) && PanickedInside(cfg.scripts[i].entry, s.locals[i].callbacks) ==>
                       UnwoundGuard(s.locals[i].trace))
  {
    InvariantAlways(cfg, schedule);
    var s := After(cfg, Start(cfg), schedule);
    forall i | 0 <= i < |cfg.scripts|
      ensures UnwoundGuard(s.locals[i].trace) ==> PanickedInside(cfg.scripts[i].entry, s.locals[i].callbacks)
      ensures Finished(s.locals[i].pc) && PanickedInside(cfg.scripts[i].entry, s.locals[i].callbacks) ==>
                UnwoundGuard(s.locals[i].trace)
    {
      var entry, l := cfg.scripts[i].entry, s.locals[i];
      assert LocalInvariant(cfg.scripts[i], l);
      UnwindsExactlyInside(entry, l.callbacks);
      HistoryIsPrefix(entry, l.callbacks, l.pc);
      if UnwoundGuard(l.trace) {
        UnwoundPrefix(l.trace, Meaning(entry, l.callbacks).1);
      }
    }
  }

  /** Nothing the invocation does from here on can get past the lock. */
  predicate Barred(entry: Entry, l: Local) {
    || l.pc.AtInitial? || l.pc.AtPrepare? || l.pc.AtAcquire?
    || !Opened(entry, l.callbacks)
    || l.callbacks.acquire == Call.Panicked(POISON)
  }

  lemma StepStaysBarred(cfg: Config, i: nat, l: Local, g: Globals)
    requires i < |cfg.scripts| && CanStep(cfg.scripts[i], l, g) && g.poisoned
    requires LocalInvariant(cfg.scripts[i], l) && Barred(cfg.scripts[i].entry, l)
    ensures Barred(cfg.scripts[i].entry, LocalStep(cfg, i, l, g).local)
  {
    if !l.pc.AtInitial? && !l.pc.AtPrepare? && !l.pc.AtAcquire? {
      StaysShut(cfg.scripts[i], l, g);
    }
  }

  /** Past the lock, what barred an invocation stays in its callbacks. */
  lemma StaysShut(script: Script, l: Local, g: Globals)
    requires !Finished(l.pc) && !l.pc.AtInitial? && !l.pc.AtPrepare? && !l.pc.AtAcquire?
    ensures var cb, cb' := l.callbacks, NextLocal(script, l, g).callbacks;
            cb'.first == cb.first && cb'.prepare == cb.prepare && cb'.acquire == cb.acquire
  {
    if !l.pc.AtSecond? {
      CallbacksKept(script, l, g);
    }
  }

  /** No task has started in `after` that had not started in `before`. */
  ghost predicate StartsNothing(before: seq<Event>, after: seq<Event>) {
    forall token :: TaskStarted(token) in after ==> TaskStarted(token) in before
  }

  lemma StepStartsNothing(cfg: Config, i: nat, l: Local, g: Globals)
    requires i < |cfg.scripts| && CanStep(cfg.scripts[i], l, g) && !l.pc.AtTaskStart?
    ensures StartsNothing(l.trace, LocalStep(cfg, i, l, g).local.trace)
  {
    ShowsAtMostOne(cfg, i, l, g);
    var t := LocalStep(cfg, i, l, g).local.trace;
    if l.pc.AtFinalize? {
      var events := Finalization(cfg.scripts[i].entry, l.callbacks, l.pc.token, l.pc.locked).1;
      assert t == l.trace + events;
    } else if |t| > |l.trace| {
      assert !t[|l.trace|].TaskStarted?;
      assert t == l.trace + [t[|l.trace|]];
    } else {
      assert t == l.trace;
    }
  }

  /** One action on a poisoned lock starts no task of invocation `i` and lets it past no lock. */
  lemma PoisonedAction(cfg: Config, s: State, a: Action, i: nat)
    requires Invariant(cfg, s) && s.globals.poisoned && Enabled(cfg, s, a) && i < |s.locals|
    ensures var l, l' := s.locals[i], Apply(cfg, s, a).locals[i];
            && StartsNothing(l.trace, l'.trace)
            && (Barred(cfg.scripts[i].entry, l) ==> Barred(cfg.scripts[i].entry, l'))
  {
    if a == Step(i) {
      assert LocalInvariant(cfg.scripts[i], s.locals[i]);
      assert !Holds(s.locals[i].pc) by {
        assert s.globals.writer != HeldBy(i) && i !in s.globals.readers;
      }
      StepStartsNothing(cfg, i, s.locals[i], s.globals);
      if Barred(cfg.scripts[i].entry, s.locals[i]) {
        StepStaysBarred(cfg, i, s.locals[i], s.globals);
      }
    } else {
      assert Apply(cfg, s, a).locals[i] == s.locals[i];
    }
  }

  /** After poisoning, for the rest of any run, no task body starts and nobody new gets the lock. */
  lemma {:induction false} PoisonStopsTasks(cfg: Config, s: State, schedule: seq<Action>, i: nat)
    requires Invariant(cfg, s) && s.globals.poisoned && Runs(cfg, s, schedule) && i < |s.locals|
    ensures var s' := After(cfg, s, schedule);
            && s'.globals.poisoned
            && StartsNothing(s.locals[i].trace, s'.locals[i].trace)
            && (Barred(cfg.scripts[i].entry, s.locals[i]) ==> Barred(cfg.scripts[i].entry, s'.locals[i]))
    decreases |schedule|
  {
    if schedule != [] {
      var a := schedule[0];
      StepInvariant(cfg, s, a);
      StepPoisonFrees(cfg, s, a);
      PoisonedAction(cfg, s, a, i);
      PoisonStopsTasks(cfg, Apply(cfg, s, a), schedule[1..], i);
    }
  }

  /**
   The first panic shown is the lock's refusal, it is the one returned or
   resumed, and last a configured rollback ran with that panic as its cause, or
   the token was dropped, in both cases as it was prepared.
   */
  predicate RefusedAndRolledBack(cb: Callbacks, ending: Ending, trace: seq<Event>) {
    var panic := Caught(PanicPhase.LockAcquisition, POISON);
    && |trace| > 0
    && FirstPanicIn(trace) == Some(panic)
    && (match ending
        case LifecycleCaptured(Return(ExecutionPanicked(p, _))) => p == panic
        case LifecyclePlain(Unwind(payload)) => payload == POISON
        case _ => false)
    && ConsumesUnused(cb, panic, trace[|trace| - 1])
  }

  /** The prepared token, which no task has seen, is rolled back for `panic`, or dropped if nothing rolls back. */
  predicate ConsumesUnused(cb: Callbacks, panic: Caught, last: Event) {
    && cb.prepare.Prepared?
    && var token, cause := cb.prepare.token, CausePanicked(panic);
       last == match cb.rollback
               case Some(rollback) => RollbackRan(token, cause, rollback(token, cause))
               case None => TokenDropped(token, cb.dropToken(token))
  }

  /**
   A lifecycle call that reaches a poisoned lock ends with a panic of the
   acquisition phase and with rollback selected for that cause.
   */
  lemma PoisonedCallsRollBack(cfg: Config, before: seq<Action>, schedule: seq<Action>, i: nat)
    requires Runs(cfg, Start(cfg), before)
    requires var s := After(cfg, Start(cfg), before);
             && s.globals.poisoned && Runs(cfg, s, schedule)
             && i < |cfg.scripts| && cfg.scripts[i].entry.LifecycleEntry?
             && (s.locals[i].pc.AtInitial? || s.locals[i].pc.AtPrepare? || s.locals[i].pc.AtAcquire?)
    requires var l := After(cfg, After(cfg, Start(cfg), before), schedule).locals[i];
             l.pc.AtDone? && Opened(cfg.scripts[i].entry, l.callbacks)
    ensures var l := After(cfg, After(cfg, Start(cfg), before), schedule).locals[i];
            RefusedAndRolledBack(l.callbacks, l.pc.ending, l.trace)
  {
    InvariantAlways(cfg, before);
    var s := After(cfg, Start(cfg), before);
    PoisonStopsTasks(cfg, s, schedule, i);
    InvariantFrom(cfg, s, schedule);
    RefusedEnds(cfg.scripts[i], After(cfg, s, schedule).locals[i]);
  }

  lemma RefusedEnds(script: Script, l: Local)
    requires LocalInvariant(script, l) && l.pc.AtDone? && script.entry.LifecycleEntry?
    requires Opened(script.entry, l.callbacks) && l.callbacks.acquire == Call.Panicked(POISON)
    ensures RefusedAndRolledBack(l.callbacks, l.pc.ending, l.trace)
  {
    DoneIsSequential(script, l);
    PoisonedLifecycle(script.entry, l.callbacks);
  }

  lemma DoneIsSequential(script: Script, l: Local)
    requires LocalInvariant(script, l) && l.pc.AtDone?
    ensures Meaning(script.entry, l.callbacks) == (l.pc.ending, l.trace) && !EndsInAbort(l.pc.ending)
  {
  }

  /** The sequential runs of an invocation whose acquisition was refused by a poisoned lock. */
  lemma PoisonedLifecycle(entry: Entry, cb: Callbacks)
    requires entry.LifecycleEntry? && Opened(entry, cb) && cb.acquire == Call.Panicked(POISON)
    requires !EndsInAbort(Meaning(entry, cb).0)
    ensures var (ending, trace) := Meaning(entry, cb);
            RefusedAndRolledBack(cb, ending, trace)
  {
    var token := cb.prepare.token;
    PoisonedBlock(cb, token);
    assert !LockedResult(cb, token).Abort? by {
      LifecycleContainment(cb);
    }
    PoisonedFlows(cb, token);
    SameEvents(cb);
    ReadsPrepared(cb, token);
  }

  lemma SameEvents(cb: Callbacks)
    ensures RunWithToken(cb).trace == RunWithTokenCatching(cb).trace
  {
    LifecycleErasure(cb);
  }

  /** Both entry points after a refused acquisition, and the rollback they share. */
  lemma PoisonedFlows(cb: Callbacks, token: Token)
    requires Reaches(cb, token)
    requires LockedResult(cb, token) == Return(Err(Caught(PanicPhase.LockAcquisition, POISON)))
    requires cb.acquire.Panicked?
    ensures var run := RunWithTokenCatching(cb);
            var panic := Caught(PanicPhase.LockAcquisition, POISON);
            && |run.trace| > 0
            && run.flow.Return? && run.flow.value.ExecutionPanicked? && run.flow.value.panic == panic
            && RunWithToken(cb).flow == Unwind(POISON)
            && ConsumesUnused(cb, panic, run.trace[|run.trace| - 1])
  {
    CapturedPriority(cb);
    FinalizationPath(cb, token);
    CommitsExactly(cb, token);
  }

  lemma PoisonedBlock(cb: Callbacks, token: Token)
    requires cb.acquire == Call.Panicked(POISON)
    ensures LockedResult(cb, token) ==
            if cb.dropTask.Panicked? then Abort else Return(Err(Caught(PanicPhase.LockAcquisition, POISON)))
  {
    LockedCases(cb, token, true);
  }
}
