/** The fast path takes no lock: only acquisition ever waits, and a closed gate rejects past whoever holds the guard. */
module FastPath {
  import opened Wrappers
  import opened Panics
  import opened Outcomes
  import opened Protocol
  import opened GuardDiscipline
  import opened Reachable
  import opened Linearization
  import opened Progress
  import opened SharedModes

  /** Somebody's guard keeps invocation `i` from the lock: the environment's, or one that `i` cannot share. */
  ghost predicate Excluded(cfg: Config, s: State, i: nat)
    requires |s.locals| == |cfg.scripts| && i < |s.locals|
  {
    || s.globals.writer.HeldByEnvironment?
    || (exists j :: 0 <= j < |s.locals| && Holds(s.locals[j].pc)
                    && (cfg.scripts[i].mode.Exclusive? || cfg.scripts[j].mode.Exclusive?))
  }

  /**
   In every reachable state of a live process an unfinished invocation can step,
   whoever holds the lock, unless it is waiting to acquire it; and then it can
   step exactly when nobody's guard excludes it.
   */
  lemma OnlyAcquisitionWaits(cfg: Config, schedule: seq<Action>, i: nat)
    requires Runs(cfg, Start(cfg), schedule) && i < |cfg.scripts|
    ensures var s := After(cfg, Start(cfg), schedule);
            var pc := s.locals[i].pc;
            !s.globals.aborted && !pc.AtDone? && !pc.AtAbort? ==>
              (Enabled(cfg, s, Step(i)) <==> (pc.AtAcquire? ==> !Excluded(cfg, s, i)))
  {
    InvariantAlways(cfg, schedule);
    var s := After(cfg, Start(cfg), schedule);
    ExcludedExactly(cfg, s, i);
  }

  lemma ExcludedExactly(cfg: Config, s: State, i: nat)
    requires LockMatches(cfg, s) && i < |s.locals|
    ensures Available(cfg.scripts[i].mode, s.globals) <==> !Excluded(cfg, s, i)
  {
    if s.globals.writer.HeldBy? {
      var j := s.globals.writer.index;
      assert s.globals.writer == HeldBy(j);
      assert Holds(s.locals[j].pc) && cfg.scripts[j].mode.Exclusive?;
    }
    if s.globals.readers != {} {
      var j :| j in s.globals.readers;
      assert Holds(s.locals[j].pc);
    }
    forall j | 0 <= j < |s.locals| && Holds(s.locals[j].pc)
      ensures s.globals.writer == HeldBy(j) || j in s.globals.readers
    {
    }
  }

  /**
   In every reachable state of a live process the environment can take the lock
   exactly when nobody has it and it is not poisoned; it can then store either
   value of the gate, make the cache stale, and let go again.
   */
  lemma EnvironmentTakesTurns(cfg: Config, schedule: seq<Action>, open: bool)
    requires Runs(cfg, Start(cfg), schedule) && !After(cfg, Start(cfg), schedule).globals.aborted
    ensures var s := After(cfg, Start(cfg), schedule);
            var turn := [EnvAcquire, EnvStore(open), EnvStale, EnvRelease];
            var free := !s.globals.writer.HeldByEnvironment?
                        && forall j :: 0 <= j < |s.locals| ==> !Holds(s.locals[j].pc);
            && (Enabled(cfg, s, EnvAcquire) <==> free && !s.globals.poisoned)
            && (free && !s.globals.poisoned ==>
                  && Runs(cfg, s, turn)
                  && After(cfg, s, turn) ==
                     s.(globals := s.globals.(gate := open, log := s.globals.log + [External(open)],
                                              generation := s.globals.generation + 1)))
  {
    InvariantAlways(cfg, schedule);
    var s := After(cfg, Start(cfg), schedule);
    FreeExactly(cfg, s);
    if Enabled(cfg, s, EnvAcquire) {
      EnvironmentTurn(cfg, s, open);
    }
  }

  lemma FreeExactly(cfg: Config, s: State)
    requires LockMatches(cfg, s)
    ensures Available(Exclusive, s.globals) <==>
            !s.globals.writer.HeldByEnvironment? && forall j :: 0 <= j < |s.locals| ==> !Holds(s.locals[j].pc)
  {
    if s.globals.writer.HeldBy? {
      assert s.globals.writer == HeldBy(s.globals.writer.index);
    }
    if s.globals.readers != {} {
      var j :| j in s.globals.readers;
      assert Holds(s.locals[j].pc);
    }
    forall j | 0 <= j < |s.locals| && Holds(s.locals[j].pc)
      ensures s.globals.writer == HeldBy(j) || j in s.globals.readers
    {
    }
  }

  lemma EnvironmentTurn(cfg: Config, s: State, open: bool)
    requires |s.locals| == |cfg.scripts| && Enabled(cfg, s, EnvAcquire)
    ensures var turn := [EnvAcquire, EnvStore(open), EnvStale, EnvRelease];
            && Runs(cfg, s, turn)
            && After(cfg, s, turn) ==
               s.(globals := s.globals.(gate := open, log := s.globals.log + [External(open)],
                                        generation := s.globals.generation + 1))
  {
    var held := s.(globals := s.globals.(writer := HeldByEnvironment));
    var stored := held.(globals := held.globals.(gate := open, log := s.globals.log + [External(open)]));
    var stale := stored.(globals := stored.globals.(generation := s.globals.generation + 1));
    RunsCons(cfg, stale, EnvRelease, []);
    RunsCons(cfg, stored, EnvStale, [EnvRelease]);
    RunsCons(cfg, held, EnvStore(open), [EnvStale, EnvRelease]);
    RunsCons(cfg, s, EnvAcquire, [EnvStore(open), EnvStale, EnvRelease]);
    assert [EnvRelease] == [EnvRelease] + [];
    assert [EnvStale, EnvRelease] == [EnvStale] + [EnvRelease];
    assert [EnvStore(open), EnvStale, EnvRelease] == [EnvStore(open)] + [EnvStale, EnvRelease];
    assert [EnvAcquire, EnvStore(open), EnvStale, EnvRelease] ==
           [EnvAcquire] + [EnvStore(open), EnvStale, EnvRelease];
  }

  /** What each entry point returns when the gate is found closed. */
  function Rejection(entry: Entry): Ending {
    match entry
    case BasicEntry(false) => BasicPlain(Return(ExecutionOutcome.ConditionNotMet))
    case BasicEntry(true) => BasicCaptured(Return(Ok(ExecutionOutcome.ConditionNotMet)))
    case LifecycleEntry(false) => LifecyclePlain(Return(LifecycleOutcome.InitialConditionNotMet))
    case LifecycleEntry(true) => LifecycleCaptured(Return(CapturedLifecycleOutcome.InitialConditionNotMet))
  }

  /** A predicate and a task destructor that do not panic. */
  predicate QuietlyRejected(script: Script) {
    script.callbacks.first.Sees? && script.callbacks.dropTask.Returned?
  }

  /**
   In every reachable state of a live process with a closed gate, whoever holds
   the lock, a caller that has just begun is rejected in its own next two steps:
   it reads the gate, drops its task and returns, and touches nothing else.
   */
  lemma RejectedWithoutLock(cfg: Config, before: seq<Action>, i: nat)
    requires Runs(cfg, Start(cfg), before) && i < |cfg.scripts| && QuietlyRejected(cfg.scripts[i])
    requires var s := After(cfg, Start(cfg), before);
             !s.globals.aborted && !s.globals.gate && s.locals[i].pc.AtInitial?
    ensures var s := After(cfg, Start(cfg), before);
            && Runs(cfg, s, [Step(i), Step(i)])
            && IsRejected(cfg, s, After(cfg, s, [Step(i), Step(i)]), i)
  {
    InvariantAlways(cfg, before);
    var s := After(cfg, Start(cfg), before);
    assert LocalInvariant(cfg.scripts[i], s.locals[i]);
    RejectedInTwoSteps(cfg, s, i);
  }

  /** From `s` to `s'` invocation `i` was rejected and nothing else happened. */
  ghost predicate IsRejected(cfg: Config, s: State, s': State, i: nat)
    requires i < |cfg.scripts| && i < |s.locals|
  {
    var cb := s.locals[i].callbacks.(first := Sees(false));
    var trace := [InitialCheckRan(Sees(false)), TaskDropped(Returned)];
    s' == State(s.globals.(log := s.globals.log + [Rejects(i)]),
                s.locals[i := Local(cb, AtDone(Rejection(cfg.scripts[i].entry)), trace)])
  }

  lemma RejectedInTwoSteps(cfg: Config, s: State, i: nat)
    requires |s.locals| == |cfg.scripts| && i < |s.locals| && QuietlyRejected(cfg.scripts[i])
    requires s.locals[i] == Local(cfg.scripts[i].callbacks, AtInitial, [])
    requires !s.globals.aborted && !s.globals.gate
    ensures Runs(cfg, s, [Step(i), Step(i)])
    ensures IsRejected(cfg, s, After(cfg, s, [Step(i), Step(i)]), i)
  {
    var read := Apply(cfg, s, Step(i));
    var cb := s.locals[i].callbacks.(first := Sees(false));
    assert read.locals[i] == Local(cb, AtSkip(SkipRejected), [InitialCheckRan(Sees(false))]);
    var done := Apply(cfg, read, Step(i));
    assert done.locals[i].trace == [InitialCheckRan(Sees(false)), TaskDropped(Returned)];
    assert done.locals == s.locals[i := done.locals[i]];
    RunsCons(cfg, read, Step(i), []);
    RunsCons(cfg, s, Step(i), [Step(i)] + []);
    assert [Step(i)] + ([Step(i)] + []) == [Step(i), Step(i)];
  }

  // ----- a closer on its own -----

  /** Invocation `i` can get to its store with nobody else taking a step. */
  ghost predicate WalksAlone(cfg: Config, s: State, i: nat) {
    && |s.locals| == |cfg.scripts| && i < |s.locals|
    && s.globals.gate && !s.globals.poisoned && !s.globals.aborted
    && (OnTheWayIn(cfg.scripts[i], s.locals[i].pc) || s.locals[i].pc.AtPublish? || s.locals[i].pc.AtStore?)
    && (Holds(s.locals[i].pc) || Available(cfg.scripts[i].mode, s.globals))
  }

  /** What a lone walk of `i` leaves as it was. */
  ghost predicate LeavesOthers(cfg: Config, s: State, s': State, i: nat)
    requires i < |cfg.scripts|
  {
    && |s'.locals| == |s.locals|
    && (forall j :: 0 <= j < |s.locals| && j != i ==> s'.locals[j] == s.locals[j])
    && s'.globals.generation == s.globals.generation
    && (!cfg.scripts[i].publishes ==> s'.globals.cache == s.globals.cache)
    && (s'.globals.writer.HeldByEnvironment? ==> s.globals.writer.HeldByEnvironment?)
    && !s'.globals.aborted
  }

  lemma WalkAlone(cfg: Config, s: State, i: nat)
    requires WalksAlone(cfg, s, i) && ReachesTask(cfg.scripts[i]) && cfg.scripts[i].store == Some(false)
    ensures Enabled(cfg, s, Step(i))
    ensures var s' := Apply(cfg, s, Step(i));
            && LeavesOthers(cfg, s, s', i)
            && Rank(s'.locals[i].pc) < Rank(s.locals[i].pc)
            && if s.locals[i].pc.AtStore? then s'.locals[i].pc.AtTaskEnd? && !s'.globals.gate
               else WalksAlone(cfg, s', i)
  {
  }

  /** Invocation `i` walks in and closes the gate, and is still in its task. */
  lemma {:induction false} CloseAlone(cfg: Config, s: State, i: nat) returns (steps: seq<Action>)
    requires WalksAlone(cfg, s, i) && ReachesTask(cfg.scripts[i]) && cfg.scripts[i].store == Some(false)
    ensures Runs(cfg, s, steps) && forall a :: a in steps ==> a == Step(i)
    ensures var s' := After(cfg, s, steps);
            LeavesOthers(cfg, s, s', i) && s'.locals[i].pc.AtTaskEnd? && !s'.globals.gate
    decreases Rank(s.locals[i].pc)
  {
    WalkAlone(cfg, s, i);
    var rest := [];
    if !s.locals[i].pc.AtStore? {
      rest := CloseAlone(cfg, Apply(cfg, s, Step(i)), i);
    }
    RunsCons(cfg, s, Step(i), rest);
    steps := [Step(i)] + rest;
  }

  /** The gate opens if need be, and invocation `i` closes it again; nobody else has begun. */
  lemma ClosesFromStart(cfg: Config, i: nat) returns (schedule: seq<Action>)
    requires i < |cfg.scripts| && ReachesTask(cfg.scripts[i]) && cfg.scripts[i].store == Some(false)
    ensures Runs(cfg, Start(cfg), schedule)
    ensures var s := After(cfg, Start(cfg), schedule);
            && !s.globals.aborted && !s.globals.gate && s.locals[i].pc.AtTaskEnd?
            && (forall j :: 0 <= j < |s.locals| && j != i ==> s.locals[j] == Start(cfg).locals[j])
  {
    var opening := [];
    if !cfg.initiallyOpen {
      opening := EnvironmentOpens(cfg, Start(cfg));
    }
    var steps := CloseAlone(cfg, After(cfg, Start(cfg), opening), i);
    RunsConcat(cfg, Start(cfg), opening, steps);
    schedule := opening + steps;
  }

  /**
   The case the fast path is for: a run in which an exclusive closer still holds
   its guard while another caller, of any mode and entry point, has been rejected.
   */
  lemma RejectedBehindCloser(cfg: Config, i: nat, j: nat) returns (schedule: seq<Action>)
    requires i < |cfg.scripts| && j < |cfg.scripts| && i != j
    requires ReachesTask(cfg.scripts[i]) && cfg.scripts[i].store == Some(false) && cfg.scripts[i].mode.Exclusive?
    requires QuietlyRejected(cfg.scripts[j])
    ensures Runs(cfg, Start(cfg), schedule)
    ensures var s := After(cfg, Start(cfg), schedule);
            && s.globals.writer == HeldBy(i) && InTask(s.locals[i].pc)
            && s.locals[j].pc == AtDone(Rejection(cfg.scripts[j].entry))
  {
    var before := ClosesFromStart(cfg, i);
    var s := After(cfg, Start(cfg), before);
    InvariantAlways(cfg, before);
    RejectedWithoutLock(cfg, before, j);
    RunsConcat(cfg, Start(cfg), before, [Step(j), Step(j)]);
    schedule := before + [Step(j), Step(j)];
  }
}
