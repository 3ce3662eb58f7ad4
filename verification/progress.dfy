/** Termination and deadlock freedom of the whole system. */
module Progress {
  import opened Outcomes
  import opened Protocol
  import opened Projection
  import opened GuardDiscipline
  import opened Reachable
  import opened Aborts

  /** The most steps an invocation can still take. */
  function Rank(pc: Pc): nat {
    match pc
    case AtInitial => 11
    case AtPrepare => 10
    case AtAcquire(_) => 9
    case AtSecond(_) => 8
    case AtTaskStart(_) => 7
    case AtPublish(_) => 6
    case AtStore(_) => 5
    case AtTaskEnd(_) => 4
    case AtRelease(_, _) => 3
    case AtUnwindGuard(_, _, _) => 3
    case AtCleanup(_) => 2
    case AtUnwindTask(_, _) => 2
    case AtUnwindResult(_, _, _) => 2
    case AtFinalize(_, _) => 1
    case AtSkip(_) => 1
    case AtDone(_) => 0
    case AtAbort => 0
  }

  lemma StepLowersRank(cfg: Config, i: nat, l: Local, g: Globals)
    requires i < |cfg.scripts| && CanStep(cfg.scripts[i], l, g)
    ensures Rank(LocalStep(cfg, i, l, g).local.pc) < Rank(l.pc)
  {
  }

  function Work(locals: seq<Local>): nat {
    if locals == [] then 0 else Rank(locals[0].pc) + Work(locals[1..])
  }

  lemma {:induction false} WorkUpdate(locals: seq<Local>, i: nat, l': Local)
    requires i < |locals|
    ensures Work(locals[i := l']) == Work(locals) - Rank(locals[i].pc) + Rank(l'.pc)
  {
    var updated := locals[i := l'];
    if i == 0 {
      assert updated[1..] == locals[1..];
    } else {
      assert updated[1..] == locals[1..][i - 1 := l'];
      WorkUpdate(locals[1..], i - 1, l');
    }
  }

  lemma {:induction false} WorkAtStart(locals: seq<Local>)
    requires forall i :: 0 <= i < |locals| ==> locals[i].pc == AtInitial
    ensures Work(locals) == 11 * |locals|
  {
    if locals != [] {
      WorkAtStart(locals[1..]);
    }
  }

  /** The steps of invocations, as opposed to the environment's, in a schedule. */
  function Steps(schedule: seq<Action>): nat {
    if schedule == [] then 0 else (if schedule[0].Step? then 1 else 0) + Steps(schedule[1..])
  }

  lemma {:induction false} StepsUseWork(cfg: Config, s: State, schedule: seq<Action>)
    requires |s.locals| == |cfg.scripts| && Runs(cfg, s, schedule)
    ensures Steps(schedule) + Work(After(cfg, s, schedule).locals) <= Work(s.locals)
    decreases |schedule|
  {
    if schedule != [] {
      var a := schedule[0];
      var next := Apply(cfg, s, a);
      if a.Step? {
        StepLowersRank(cfg, a.index, s.locals[a.index], s.globals);
        WorkUpdate(s.locals, a.index, next.locals[a.index]);
      } else {
        assert next.locals == s.locals;
      }
      StepsUseWork(cfg, next, schedule[1..]);
    }
  }

  /** Termination: in any schedule the invocations take at most eleven steps each, in total. */
  lemma EveryRunIsBounded(cfg: Config, schedule: seq<Action>)
    requires Runs(cfg, Start(cfg), schedule)
    ensures Steps(schedule) <= 11 * |cfg.scripts|
  {
    StepsUseWork(cfg, Start(cfg), schedule);
    WorkAtStart(Start(cfg).locals);
  }

  predicate AllFinished(s: State) {
    forall i :: 0 <= i < |s.locals| ==> Finished(s.locals[i].pc)
  }

  lemma HolderCanStep(script: Script, l: Local, g: Globals)
    requires Holds(l.pc)
    ensures CanStep(script, l, g)
  {
  }

  /**
   Deadlock freedom: while the process lives and some invocation is unfinished,
   an invocation can step or the environment can release the lock it holds.
   */
  lemma NeverStuck(cfg: Config, s: State) returns (a: Action)
    requires LockMatches(cfg, s) && !s.globals.aborted && !AllFinished(s)
    ensures Enabled(cfg, s, a)
    ensures a.Step? || (a.EnvRelease? && s.globals.writer.HeldByEnvironment?)
  {
    var i :| 0 <= i < |s.locals| && !Finished(s.locals[i].pc);
    if CanStep(cfg.scripts[i], s.locals[i], s.globals) {
      a := Step(i);
    } else {
      match s.globals.writer {
        case HeldByEnvironment => a := EnvRelease;
        case HeldBy(j) =>
          assert s.globals.writer == HeldBy(j);
          HolderCanStep(cfg.scripts[j], s.locals[j], s.globals);
          a := Step(j);
        case Free =>
          var j :| j in s.globals.readers;
          HolderCanStep(cfg.scripts[j], s.locals[j], s.globals);
          a := Step(j);
      }
    }
  }

  function EnvironmentDebt(s: State): nat {
    if s.globals.writer.HeldByEnvironment? then 1 else 0
  }

  lemma RunsCons(cfg: Config, s: State, a: Action, rest: seq<Action>)
    requires |s.locals| == |cfg.scripts| && Enabled(cfg, s, a) && Runs(cfg, Apply(cfg, s, a), rest)
    ensures Runs(cfg, s, [a] + rest)
    ensures After(cfg, s, [a] + rest) == After(cfg, Apply(cfg, s, a), rest)
  {
    assert ([a] + rest)[1..] == rest;
  }

  /** The end of a run: every invocation has its outcome, or one of them panicked twice and took the process down. */
  ghost predicate Concluded(cfg: Config, s: State)
    requires |s.locals| == |cfg.scripts|
  {
    || (forall i :: 0 <= i < |s.locals| ==> s.locals[i].pc.AtDone?)
    || (exists i :: 0 <= i < |s.locals| && s.locals[i].pc.AtAbort?
                    && DoublePanics(cfg.scripts[i].entry, s.locals[i].callbacks))
  }

  lemma EndsAreConcluded(cfg: Config, s: State)
    requires Invariant(cfg, s) && (s.globals.aborted || AllFinished(s))
    ensures Concluded(cfg, s)
  {
    if SomeAborted(s) {
      var i :| 0 <= i < |s.locals| && s.locals[i].pc.AtAbort?;
      assert LocalInvariant(cfg.scripts[i], s.locals[i]);
      AbortsExactly(cfg.scripts[i].entry, s.locals[i].callbacks);
    }
  }

  /** Every state that satisfies the invariant, hence every reachable one, can run on to a conclusion. */
  lemma {:induction false} CanFinish(cfg: Config, s: State) returns (schedule: seq<Action>)
    requires Invariant(cfg, s)
    ensures Runs(cfg, s, schedule)
    ensures Invariant(cfg, After(cfg, s, schedule)) && Concluded(cfg, After(cfg, s, schedule))
    decreases Work(s.locals) + EnvironmentDebt(s), EnvironmentDebt(s)
  {
    if s.globals.aborted || AllFinished(s) {
      schedule := [];
      EndsAreConcluded(cfg, s);
    } else {
      var a := NeverStuck(cfg, s);
      var next := Apply(cfg, s, a);
      StepInvariant(cfg, s, a);
      if a.Step? {
        StepLowersRank(cfg, a.index, s.locals[a.index], s.globals);
        WorkUpdate(s.locals, a.index, next.locals[a.index]);
        StepKeepsEnvironmentDebt(cfg, s, a);
      }
      var rest := CanFinish(cfg, next);
      RunsCons(cfg, s, a, rest);
      schedule := [a] + rest;
    }
  }

  lemma StepKeepsEnvironmentDebt(cfg: Config, s: State, a: Action)
    requires Invariant(cfg, s) && Enabled(cfg, s, a) && a.Step?
    ensures EnvironmentDebt(Apply(cfg, s, a)) <= EnvironmentDebt(s)
  {
    GuardEffect(cfg, a.index, s.locals[a.index], s.globals);
  }

  /** Nothing but new business of the environment is left to do. */
  ghost predicate Exhausted(cfg: Config, s: State)
    requires |s.locals| == |cfg.scripts|
  {
    !Enabled(cfg, s, EnvRelease) && forall i :: 0 <= i < |s.locals| ==> !Enabled(cfg, s, Step(i))
  }

  /** A run that no invocation step and no release can extend has come to a conclusion. */
  lemma MaximalRunsEnd(cfg: Config, schedule: seq<Action>)
    requires Runs(cfg, Start(cfg), schedule) && Exhausted(cfg, After(cfg, Start(cfg), schedule))
    ensures Concluded(cfg, After(cfg, Start(cfg), schedule))
  {
    InvariantAlways(cfg, schedule);
    var s := After(cfg, Start(cfg), schedule);
    if !s.globals.aborted && !AllFinished(s) {
      var a := NeverStuck(cfg, s);
      assert false;
    }
    EndsAreConcluded(cfg, s);
  }

  /** However a run resolves its callbacks, the invocation never panics twice at once. */
  ghost predicate NeverDoublePanics(script: Script) {
    forall cb :: Resolves(script, cb) ==> !DoublePanics(script.entry, cb)
  }

  /** Quiet destructors of the task, of the unwinding guard and of task results are enough. */
  lemma QuietDestructorsSuffice(script: Script)
    requires script.callbacks.dropTask.Returned? && script.callbacks.releaseUnwinding.Returned?
    requires forall token :: var ending := script.callbacks.task(token).ending;
                             ending.Finishes? ==> ResultDrop(ending.result).Returned?
    ensures NeverDoublePanics(script)
  {
    forall cb | Resolves(script, cb)
      ensures !DoublePanics(script.entry, cb)
    {
    }
  }

  /** Where no script panics twice no reachable state is aborted, and maximal runs end with an outcome for everybody. */
  lemma EverybodyGetsAnOutcome(cfg: Config, schedule: seq<Action>)
    requires forall i :: 0 <= i < |cfg.scripts| ==> NeverDoublePanics(cfg.scripts[i])
    requires Runs(cfg, Start(cfg), schedule)
    ensures var s := After(cfg, Start(cfg), schedule);
            && !s.globals.aborted
            && (Exhausted(cfg, s) ==> forall i :: 0 <= i < |s.locals| ==> s.locals[i].pc.AtDone?)
  {
    InvariantAlways(cfg, schedule);
    var s := After(cfg, Start(cfg), schedule);
    forall i | 0 <= i < |s.locals|
      ensures !s.locals[i].pc.AtAbort?
    {
      assert LocalInvariant(cfg.scripts[i], s.locals[i]);
      AbortsExactly(cfg.scripts[i].entry, s.locals[i].callbacks);
      assert !DoublePanics(cfg.scripts[i].entry, s.locals[i].callbacks);
    }
    if Exhausted(cfg, s) {
      MaximalRunsEnd(cfg, schedule);
    }
  }
}
