/** Shared mode really overlaps, and exactly which systems that breaks. */
module SharedModes {
  import opened Wrappers
  import opened Panics
  import opened Outcomes
  import opened Protocol
  import opened GuardDiscipline
  import opened Reachable
  import opened Linearization
  import opened Progress

  /** A shared-mode invocation, of any entry point, that can get to its task. */
  predicate Reader(script: Script) {
    script.mode.SharedMode? && ReachesTask(script)
  }

  lemma {:induction false} RunsConcat(cfg: Config, s: State, first: seq<Action>, second: seq<Action>)
    requires |s.locals| == |cfg.scripts| && Runs(cfg, s, first) && Runs(cfg, After(cfg, s, first), second)
    ensures Runs(cfg, s, first + second)
    ensures After(cfg, s, first + second) == After(cfg, After(cfg, s, first), second)
    decreases |first|
  {
    if first == [] {
      assert first + second == second;
    } else {
      assert (first + second)[0] == first[0] && (first + second)[1..] == first[1..] + second;
      RunsConcat(cfg, Apply(cfg, s, first[0]), first[1..], second);
    }
  }

  // ----- walking into the task -----

  /** The gate is open, nothing excludes a reader, and nobody in `idle` has begun. */
  ghost predicate Welcoming(cfg: Config, s: State, idle: set<nat>) {
    && |s.locals| == |cfg.scripts|
    && s.globals.gate && s.globals.writer.Free? && !s.globals.poisoned && !s.globals.aborted
    && Replay(cfg.initiallyOpen, s.globals.log) == Some(true)
    && (forall i :: i in idle ==> i < |s.locals| && s.locals[i].pc.AtInitial?)
  }

  ghost predicate Inside(s: State, members: set<nat>) {
    forall i :: i in members ==> i < |s.locals| && s.locals[i].pc.AtPublish?
  }

  predicate OnTheWayIn(script: Script, pc: Pc) {
    || pc.AtInitial? || pc.AtAcquire? || pc.AtSecond? || pc.AtTaskStart?
    || (pc.AtPrepare? && script.entry.LifecycleEntry?)
  }

  /** A reader on its way in is never held up, and leaves everything as it was for the others. */
  lemma WalksOn(cfg: Config, s: State, k: nat, idle: set<nat>)
    requires Welcoming(cfg, s, idle) && k !in idle
    requires k < |s.locals| && Reader(cfg.scripts[k]) && OnTheWayIn(cfg.scripts[k], s.locals[k].pc)
    ensures Enabled(cfg, s, Step(k))
    ensures var s' := Apply(cfg, s, Step(k));
            && Welcoming(cfg, s', idle)
            && (OnTheWayIn(cfg.scripts[k], s'.locals[k].pc) || s'.locals[k].pc.AtPublish?)
            && Rank(s'.locals[k].pc) < Rank(s.locals[k].pc)
  {
  }

  lemma {:induction false} WalkIn(cfg: Config, s: State, k: nat, idle: set<nat>, members: set<nat>)
    returns (steps: seq<Action>)
    requires Welcoming(cfg, s, idle) && Inside(s, members) && k !in idle && k !in members
    requires k < |s.locals| && Reader(cfg.scripts[k]) && OnTheWayIn(cfg.scripts[k], s.locals[k].pc)
    ensures Runs(cfg, s, steps)
    ensures Welcoming(cfg, After(cfg, s, steps), idle) && Inside(After(cfg, s, steps), members + {k})
    decreases Rank(s.locals[k].pc)
  {
    WalksOn(cfg, s, k, idle);
    var s' := Apply(cfg, s, Step(k));
    var rest := [];
    if OnTheWayIn(cfg.scripts[k], s'.locals[k].pc) {
      rest := WalkIn(cfg, s', k, idle, members);
    }
    RunsCons(cfg, s, Step(k), rest);
    steps := [Step(k)] + rest;
  }

  /** The environment opens the gate if need be. */
  lemma OpenGate(cfg: Config, idle: set<nat>) returns (steps: seq<Action>)
    requires forall i :: i in idle ==> i < |cfg.scripts|
    ensures Runs(cfg, Start(cfg), steps) && Welcoming(cfg, After(cfg, Start(cfg), steps), idle)
  {
    if cfg.initiallyOpen {
      steps := [];
    } else {
      steps := EnvironmentOpens(cfg, Start(cfg));
      ReplaySnoc(false, [], External(true));
    }
  }

  lemma EnvironmentOpens(cfg: Config, s: State) returns (steps: seq<Action>)
    requires |s.locals| == |cfg.scripts| && Available(Exclusive, s.globals)
    requires !s.globals.poisoned && !s.globals.aborted
    ensures Runs(cfg, s, steps)
    ensures After(cfg, s, steps) == s.(globals := s.globals.(gate := true, log := s.globals.log + [External(true)]))
  {
    var held := s.(globals := s.globals.(writer := HeldByEnvironment));
    var stored := held.(globals := held.globals.(gate := true, log := s.globals.log + [External(true)]));
    RunsCons(cfg, stored, EnvRelease, []);
    var rest := [EnvRelease] + [];
    RunsCons(cfg, held, EnvStore(true), rest);
    rest := [EnvStore(true)] + rest;
    RunsCons(cfg, s, EnvAcquire, rest);
    steps := [EnvAcquire] + rest;
  }

  lemma {:induction false} AllWalkIn(cfg: Config, members: set<nat>, idle: set<nat>) returns (schedule: seq<Action>)
    requires forall i :: i in members ==> i < |cfg.scripts| && Reader(cfg.scripts[i])
    requires members !! idle && forall i :: i in idle ==> i < |cfg.scripts|
    ensures Runs(cfg, Start(cfg), schedule)
    ensures Welcoming(cfg, After(cfg, Start(cfg), schedule), idle)
    ensures Inside(After(cfg, Start(cfg), schedule), members)
    decreases |members|
  {
    if members == {} {
      schedule := OpenGate(cfg, idle);
    } else {
      var k :| k in members;
      var before := AllWalkIn(cfg, members - {k}, idle + {k});
      var s := After(cfg, Start(cfg), before);
      assert k in idle + {k} && Welcoming(cfg, s, idle);
      var steps := WalkIn(cfg, s, k, idle, members - {k});
      RunsConcat(cfg, Start(cfg), before, steps);
      schedule := before + steps;
      assert members - {k} + {k} == members;
    }
  }

  ghost predicate CanOverlap(cfg: Config, members: set<nat>) {
    exists schedule :: Runs(cfg, Start(cfg), schedule) &&
      forall i :: i in members ==>
        i < |cfg.scripts| && InTask(After(cfg, Start(cfg), schedule).locals[i].pc)
  }

  /** Two or more invocations can all be in their tasks at once exactly when each is a shared-mode reader. */
  lemma ReadersOverlapExactly(cfg: Config, members: set<nat>, first: nat, second: nat)
    requires first in members && second in members && first != second
    ensures CanOverlap(cfg, members) <==> forall i :: i in members ==> i < |cfg.scripts| && Reader(cfg.scripts[i])
  {
    if forall i :: i in members ==> i < |cfg.scripts| && Reader(cfg.scripts[i]) {
      var schedule := AllWalkIn(cfg, members, {});
      assert Runs(cfg, Start(cfg), schedule);
    }
    if CanOverlap(cfg, members) {
      var schedule :| Runs(cfg, Start(cfg), schedule) &&
        forall i :: i in members ==> i < |cfg.scripts| && InTask(After(cfg, Start(cfg), schedule).locals[i].pc);
      InvariantAlways(cfg, schedule);
      var s := After(cfg, Start(cfg), schedule);
      forall i | i in members
        ensures i < |cfg.scripts| && Reader(cfg.scripts[i])
      {
        MutualExclusion(cfg, s, i, if i == first then second else first);
        assert LocalInvariant(cfg.scripts[i], s.locals[i]);
        OnlyReachersRun(cfg.scripts[i], s.locals[i]);
      }
    }
  }

  // ----- which systems refine the atomic object -----

  /** A task that is under way goes on to its acceptance, whatever the gate has become. */
  lemma Accept(cfg: Config, s: State, i: nat) returns (steps: seq<Action>)
    requires |s.locals| == |cfg.scripts| && i < |s.locals| && s.locals[i].pc.AtPublish? && !s.globals.aborted
    ensures Runs(cfg, s, steps)
    ensures var s' := After(cfg, s, steps);
            && !s'.globals.aborted
            && s'.globals.log == s.globals.log + [Accepts(i, cfg.scripts[i].store)]
            && (cfg.scripts[i].store.Some? ==> s'.globals.gate == cfg.scripts[i].store.value)
            && (forall j :: 0 <= j < |s.locals| && j != i ==> s'.locals[j] == s.locals[j])
  {
    var published := Apply(cfg, s, Step(i));
    var stored := Apply(cfg, published, Step(i));
    var rest := [];
    if cfg.scripts[i].store.None? {
      rest := [Step(i)];
      RunsCons(cfg, stored, Step(i), []);
    }
    RunsCons(cfg, published, Step(i), rest);
    RunsCons(cfg, s, Step(i), [Step(i)] + rest);
    steps := [Step(i)] + ([Step(i)] + rest);
  }

  /** A run after which the gate is closed under a task that relies on it. */
  lemma UnstableRun(cfg: Config, i: nat, j: nat) returns (schedule: seq<Action>)
    requires Conflict(cfg, i, j)
    ensures Runs(cfg, Start(cfg), schedule)
    ensures var s := After(cfg, Start(cfg), schedule);
            && Replay(cfg.initiallyOpen, s.globals.log) == Some(false)
            && !s.globals.aborted && !s.globals.gate && s.locals[j].pc.AtPublish?
  {
    var inside := AllWalkIn(cfg, {i, j}, {});
    var s := After(cfg, Start(cfg), inside);
    var closing := Accept(cfg, s, i);
    RunsConcat(cfg, Start(cfg), inside, closing);
    schedule := inside + closing;
    ReplaySnoc(cfg.initiallyOpen, s.globals.log, Accepts(i, Some(false)));
  }

  /** A run whose answers the atomic object would not give. */
  lemma UnansweredRun(cfg: Config, i: nat, j: nat) returns (schedule: seq<Action>)
    requires Conflict(cfg, i, j)
    ensures Runs(cfg, Start(cfg), schedule)
    ensures Replay(cfg.initiallyOpen, After(cfg, Start(cfg), schedule).globals.log) == None
  {
    var before := UnstableRun(cfg, i, j);
    var s := After(cfg, Start(cfg), before);
    var second := Accept(cfg, s, j);
    RunsConcat(cfg, Start(cfg), before, second);
    schedule := before + second;
    ReplaySnoc(cfg.initiallyOpen, s.globals.log, Accepts(j, cfg.scripts[j].store));
  }

  /** Every run is one of the atomic object, ending in the current gate. */
  ghost predicate AlwaysAtomic(cfg: Config) {
    forall schedule :: Runs(cfg, Start(cfg), schedule) ==>
      var g := After(cfg, Start(cfg), schedule).globals; Replay(cfg.initiallyOpen, g.log) == Some(g.gate)
  }

  /** In every run the gate is open under every invocation that relies on it. */
  ghost predicate AlwaysStable(cfg: Config) {
    forall schedule :: Runs(cfg, Start(cfg), schedule) ==> GateStable(cfg, After(cfg, Start(cfg), schedule))
  }

  /**
   The refinement holds exactly for the systems in which no task that closes
   the gate can overlap another task; the same systems are those in which a
   gate seen open under the guard stays open.
   */
  lemma RefinesExactly(cfg: Config)
    ensures AlwaysAtomic(cfg) <==> ClosersExclude(cfg)
    ensures AlwaysStable(cfg) <==> ClosersExclude(cfg)
  {
    if ClosersExclude(cfg) {
      forall schedule | Runs(cfg, Start(cfg), schedule)
        ensures Simulates(cfg, After(cfg, Start(cfg), schedule))
      {
        StartSimulates(cfg);
        SimulatesFrom(cfg, Start(cfg), schedule);
      }
    } else {
      var i: nat, j: nat :| Conflict(cfg, i, j);
      var unstable := UnstableRun(cfg, i, j);
      var s := After(cfg, Start(cfg), unstable);
      assert ReliesOnOpen(cfg.scripts[j], s.locals[j].pc) && !GateStable(cfg, s);
      var unanswered := UnansweredRun(cfg, i, j);
      assert Runs(cfg, Start(cfg), unstable) && Runs(cfg, Start(cfg), unanswered);
    }
  }

  /** A shared-mode call whose task closes the gate, against the executor's contract. */
  function SharedCloser(): Script {
    var value := Owned(0, Returned);
    Script(Callbacks(Sees(true), Prepared(UNIT_TOKEN), Returned, Sees(true),
                     (token: Token) => TaskRun(Finishes(Ok(value)), token), Returned, Returned, Returned,
                     None, None, (token: Token) => Returned, true),
           BasicEntry(false), SharedMode, true, Some(false))
  }

  /** One such call on its own is harmless; a second one breaks the refinement. */
  lemma SharedClosersAreNotAtomic()
    ensures AlwaysAtomic(Config([SharedCloser()], false, true))
    ensures !AlwaysAtomic(Config([SharedCloser(), SharedCloser()], false, true))
  {
    var one := Config([SharedCloser()], false, true);
    RefinesExactly(one);
    var two := Config([SharedCloser(), SharedCloser()], false, true);
    assert Conflict(two, 0, 1);
    RefinesExactly(two);
  }
}
