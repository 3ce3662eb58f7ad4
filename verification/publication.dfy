/** Publish before close: exactly when a closed gate never hides a stale cache. */
module Publication {
  import opened Wrappers
  import opened Outcomes
  import opened Protocol
  import opened Reachable
  import opened Linearization
  import opened Progress
  import opened FastPath

  /** Every task that can run and closes the gate publishes the current generation first. */
  ghost predicate ClosersPublish(cfg: Config) {
    forall i :: 0 <= i < |cfg.scripts| && ReachesTask(cfg.scripts[i]) && cfg.scripts[i].store == Some(false) ==>
      cfg.scripts[i].publishes
  }

  /** A closed gate means that the cache is up to date. */
  predicate ClosedIsFresh(g: Globals) {
    !g.gate ==> g.cache == g.generation
  }

  /** The environment reopens the gate before it makes the cache stale, and closes it over no stale cache. */
  predicate ReopensFirst(cfg: Config, s: State, schedule: seq<Action>)
    requires |s.locals| == |cfg.scripts| && Runs(cfg, s, schedule)
    decreases |schedule|
  {
    schedule == [] ||
    (&& (schedule[0].EnvStale? ==> s.globals.gate)
     && (schedule[0] == EnvStore(false) ==> s.globals.cache == s.globals.generation)
     && ReopensFirst(cfg, Apply(cfg, s, schedule[0]), schedule[1..]))
  }

  /** A closed gate means an up-to-date cache in every state that the schedule goes through. */
  predicate FreshThroughout(cfg: Config, s: State, schedule: seq<Action>)
    requires |s.locals| == |cfg.scripts| && Runs(cfg, s, schedule)
    decreases |schedule|
  {
    && ClosedIsFresh(s.globals)
    && (schedule != [] ==> FreshThroughout(cfg, Apply(cfg, s, schedule[0]), schedule[1..]))
  }

  /** As `ClosedIsFresh`, and a task about to close the gate has published the current generation. */
  ghost predicate Fresh(cfg: Config, s: State)
    requires |s.locals| == |cfg.scripts|
  {
    && ClosedIsFresh(s.globals)
    && (forall i :: 0 <= i < |s.locals| && s.locals[i].pc.AtStore? && cfg.scripts[i].store == Some(false) ==>
          s.globals.cache == s.globals.generation)
  }

  /** A step leaves the generation alone, and the cache too unless it publishes. */
  lemma CacheEffect(cfg: Config, i: nat, l: Local, g: Globals)
    requires i < |cfg.scripts| && CanStep(cfg.scripts[i], l, g)
    ensures var r := LocalStep(cfg, i, l, g);
            && r.globals.generation == g.generation
            && r.globals.cache == (if l.pc.AtPublish? && cfg.scripts[i].publishes then g.generation else g.cache)
            && (r.local.pc.AtStore? ==> l.pc.AtPublish?)
  {
    if l.pc.AtFinalize? || l.pc.AtSkip? {
      EndsQuietly(cfg, i, l, g);
    }
  }

  lemma StepFresh(cfg: Config, s: State, i: nat)
    requires ClosersPublish(cfg) && Invariant(cfg, s) && Fresh(cfg, s) && Enabled(cfg, s, Step(i))
    ensures Fresh(cfg, Apply(cfg, s, Step(i)))
  {
    CacheEffect(cfg, i, s.locals[i], s.globals);
    GateEffect(cfg, i, s.locals[i], s.globals);
    if s.locals[i].pc.AtPublish? {
      assert LocalInvariant(cfg.scripts[i], s.locals[i]);
      OnlyReachersRun(cfg.scripts[i], s.locals[i]);
    }
  }

  /** An action of the environment keeps the cache fresh exactly when it is in order. */
  lemma EnvironmentFresh(cfg: Config, s: State, a: Action)
    requires Invariant(cfg, s) && Fresh(cfg, s) && Enabled(cfg, s, a) && !a.Step?
    ensures var ordered := (a.EnvStale? ==> s.globals.gate)
                           && (a == EnvStore(false) ==> s.globals.cache == s.globals.generation);
            && (ordered ==> Fresh(cfg, Apply(cfg, s, a)))
            && (!ordered ==> !ClosedIsFresh(Apply(cfg, s, a).globals))
  {
    if s.globals.writer.HeldByEnvironment? {
      EnvironmentExcludes(cfg, s);
    }
  }

  lemma {:induction false} FreshFrom(cfg: Config, s: State, schedule: seq<Action>)
    requires ClosersPublish(cfg) && Invariant(cfg, s) && Fresh(cfg, s) && Runs(cfg, s, schedule)
    ensures FreshThroughout(cfg, s, schedule) <==> ReopensFirst(cfg, s, schedule)
    ensures ReopensFirst(cfg, s, schedule) ==> Fresh(cfg, After(cfg, s, schedule))
    decreases |schedule|
  {
    if schedule != [] {
      var a := schedule[0];
      var next := Apply(cfg, s, a);
      StepInvariant(cfg, s, a);
      if a.Step? {
        StepFresh(cfg, s, a.index);
      } else {
        EnvironmentFresh(cfg, s, a);
      }
      if Fresh(cfg, next) {
        FreshFrom(cfg, next, schedule[1..]);
      }
    }
  }

  lemma StartFresh(cfg: Config)
    ensures Fresh(cfg, Start(cfg))
  {
    assert forall k :: 0 <= k < |cfg.scripts| ==> Start(cfg).locals[k].pc == AtInitial;
  }

  /**
   When closers publish, a schedule goes through fresh states only exactly when
   the environment reopens the gate before it makes the cache stale.
   */
  lemma FreshExactlyWhenReopenedFirst(cfg: Config, schedule: seq<Action>)
    requires ClosersPublish(cfg) && Runs(cfg, Start(cfg), schedule)
    ensures FreshThroughout(cfg, Start(cfg), schedule) <==> ReopensFirst(cfg, Start(cfg), schedule)
  {
    StartInvariant(cfg);
    StartFresh(cfg);
    FreshFrom(cfg, Start(cfg), schedule);
  }

  /** The order that fails: the cache goes stale behind a closed gate. */
  lemma BumpBeforeReopen(cfg: Config)
    requires !cfg.initiallyOpen
    ensures var schedule := [EnvAcquire, EnvStale];
            && Runs(cfg, Start(cfg), schedule)
            && !ClosedIsFresh(After(cfg, Start(cfg), schedule).globals)
  {
    var held := Apply(cfg, Start(cfg), EnvAcquire);
    RunsCons(cfg, held, EnvStale, []);
    RunsCons(cfg, Start(cfg), EnvAcquire, [EnvStale] + []);
    assert [EnvAcquire] + ([EnvStale] + []) == [EnvAcquire, EnvStale];
  }

  /** The invocation's next step is a fast-path rejection. */
  predicate RejectedNext(cfg: Config, s: State, i: nat)
    requires |s.locals| == |cfg.scripts|
  {
    && i < |s.locals| && s.locals[i].pc.AtInitial? && Enabled(cfg, s, Step(i))
    && Apply(cfg, s, Step(i)).locals[i].callbacks.first == Sees(false)
  }

  /** The invocation is about to read a closed gate with a predicate that does not panic. */
  predicate BeginsClosed(cfg: Config, s: State, i: nat)
    requires |s.locals| == |cfg.scripts|
  {
    && i < |s.locals| && s.locals[i].pc.AtInitial? && cfg.scripts[i].callbacks.first.Sees?
    && !s.globals.gate && !s.globals.aborted
  }

  /**
   A closed gate means an up-to-date cache. In particular a caller that begins
   while the gate is closed is rejected by its very next step, even while the
   refresher still holds the lock, and it is only ever rejected there in a state
   whose cache is current.
   */
  lemma ClosedGateIsFresh(cfg: Config, schedule: seq<Action>, i: nat)
    requires ClosersPublish(cfg) && Runs(cfg, Start(cfg), schedule) && ReopensFirst(cfg, Start(cfg), schedule)
    ensures var s := After(cfg, Start(cfg), schedule);
            && ClosedIsFresh(s.globals)
            && (RejectedNext(cfg, s, i) ==> s.globals.cache == s.globals.generation)
            && (BeginsClosed(cfg, s, i) ==> RejectedNext(cfg, s, i))
  {
    StartInvariant(cfg);
    StartFresh(cfg);
    FreshFrom(cfg, Start(cfg), schedule);
  }

  // ----- which systems stay fresh -----

  lemma {:induction false} StepsAreInOrder(cfg: Config, s: State, i: nat, steps: seq<Action>)
    requires |s.locals| == |cfg.scripts| && Runs(cfg, s, steps) && forall a :: a in steps ==> a == Step(i)
    ensures ReopensFirst(cfg, s, steps)
    decreases |steps|
  {
    if steps != [] {
      assert steps[0] in steps && forall a :: a in steps[1..] ==> a in steps;
      StepsAreInOrder(cfg, Apply(cfg, s, steps[0]), i, steps[1..]);
    }
  }

  /** The environment reopens the gate and then makes the cache stale. */
  lemma Outdate(cfg: Config, s: State, rest: seq<Action>) returns (schedule: seq<Action>)
    requires |s.locals| == |cfg.scripts| && Available(Exclusive, s.globals)
    requires !s.globals.poisoned && !s.globals.aborted
    requires var g := s.globals.(gate := true, log := s.globals.log + [External(true)],
                                 generation := s.globals.generation + 1);
             Runs(cfg, s.(globals := g), rest) && ReopensFirst(cfg, s.(globals := g), rest)
    ensures Runs(cfg, s, schedule) && ReopensFirst(cfg, s, schedule)
    ensures var g := s.globals.(gate := true, log := s.globals.log + [External(true)],
                                generation := s.globals.generation + 1);
            After(cfg, s, schedule) == After(cfg, s.(globals := g), rest)
  {
    var held := s.(globals := s.globals.(writer := HeldByEnvironment));
    var open := held.(globals := held.globals.(gate := true, log := s.globals.log + [External(true)]));
    var stale := open.(globals := open.globals.(generation := s.globals.generation + 1));
    schedule := OrderedCons(cfg, stale, EnvRelease, rest);
    schedule := OrderedCons(cfg, open, EnvStale, schedule);
    schedule := OrderedCons(cfg, held, EnvStore(true), schedule);
    schedule := OrderedCons(cfg, s, EnvAcquire, schedule);
  }

  lemma OrderedCons(cfg: Config, s: State, a: Action, rest: seq<Action>) returns (schedule: seq<Action>)
    requires |s.locals| == |cfg.scripts| && Enabled(cfg, s, a)
    requires Runs(cfg, Apply(cfg, s, a), rest) && ReopensFirst(cfg, Apply(cfg, s, a), rest)
    requires (a.EnvStale? ==> s.globals.gate) && a != EnvStore(false)
    ensures schedule == [a] + rest
    ensures Runs(cfg, s, schedule) && ReopensFirst(cfg, s, schedule)
    ensures After(cfg, s, schedule) == After(cfg, Apply(cfg, s, a), rest)
  {
    schedule := [a] + rest;
    assert schedule[1..] == rest;
  }

  /** Whatever the environment does in order, a closed gate means an up-to-date cache. */
  ghost predicate AlwaysFresh(cfg: Config) {
    forall schedule :: Runs(cfg, Start(cfg), schedule) && ReopensFirst(cfg, Start(cfg), schedule) ==>
      ClosedIsFresh(After(cfg, Start(cfg), schedule).globals)
  }

  /** A system is always fresh exactly when every task that can run and closes the gate publishes first. */
  lemma FreshExactlyWhenClosersPublish(cfg: Config)
    ensures AlwaysFresh(cfg) <==> ClosersPublish(cfg)
  {
    if ClosersPublish(cfg) {
      forall schedule | Runs(cfg, Start(cfg), schedule) && ReopensFirst(cfg, Start(cfg), schedule)
        ensures ClosedIsFresh(After(cfg, Start(cfg), schedule).globals)
      {
        ClosedGateIsFresh(cfg, schedule, 0);
      }
    } else {
      var i :| 0 <= i < |cfg.scripts| && ReachesTask(cfg.scripts[i]) && cfg.scripts[i].store == Some(false)
               && !cfg.scripts[i].publishes;
      var schedule := StaleRun(cfg, i);
      assert Runs(cfg, Start(cfg), schedule);
    }
  }

  /** A task that closes the gate without publishing does so over a cache that has become stale. */
  lemma StaleRun(cfg: Config, i: nat) returns (schedule: seq<Action>)
    requires i < |cfg.scripts| && ReachesTask(cfg.scripts[i]) && cfg.scripts[i].store == Some(false)
    requires !cfg.scripts[i].publishes
    ensures Runs(cfg, Start(cfg), schedule) && ReopensFirst(cfg, Start(cfg), schedule)
    ensures !ClosedIsFresh(After(cfg, Start(cfg), schedule).globals)
  {
    var start := Start(cfg);
    var stale := start.(globals := start.globals.(gate := true, log := start.globals.log + [External(true)],
                                                  generation := start.globals.generation + 1));
    var rest := CloseAlone(cfg, stale, i);
    StepsAreInOrder(cfg, stale, i, rest);
    schedule := Outdate(cfg, start, rest);
  }
}
