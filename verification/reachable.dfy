/** What holds in every reachable state, for any scripts, any number of invocations and any schedule. */
module Reachable {
  import opened Wrappers
  import opened Panics
  import opened Outcomes
  import opened Tallies
  import opened Protocol
  import opened Projection
  import opened GuardDiscipline

  /** The invocation owns a prepared token it has not handed on. */
  predicate OwnsToken(script: Script, pc: Pc) {
    && script.entry.LifecycleEntry?
    && !pc.AtInitial? && !pc.AtPrepare? && !pc.AtSkip? && !Finished(pc)
  }

  /** Tokens an invocation created and has not yet consumed; a process abort may strand one. */
  ghost predicate TokenBalanced(script: Script, l: Local) {
    var owed := Tally(Preparing, l.trace) - Tally(Finalizing, l.trace);
    if l.pc.AtAbort? then 0 <= owed <= 1
    else owed == if OwnsToken(script, l.pc) then 1 else 0
  }

  ghost predicate LocalInvariant(script: Script, l: Local) {
    && Follows(script.entry, l)
    && Unresolved(script, l)
    && Resolves(script, l.callbacks)
    && GuardOver(l.trace) == StageAt(l.pc)
    && TokenBalanced(script, l)
  }

  /** Some guard of this trace was dropped by an unwind. */
  ghost predicate UnwoundGuard(trace: seq<Event>) {
    exists call :: GuardDropped(call, true) in trace
  }

  /** An exclusive guard of a poisoning lock was dropped by an unwind. */
  ghost predicate WasPoisoned(cfg: Config, s: State)
    requires |s.locals| == |cfg.scripts|
  {
    cfg.poisoning &&
    exists i :: 0 <= i < |s.locals| && cfg.scripts[i].mode.Exclusive? && UnwoundGuard(s.locals[i].trace)
  }

  predicate SomeAborted(s: State) {
    exists i :: 0 <= i < |s.locals| && s.locals[i].pc.AtAbort?
  }

  ghost predicate Invariant(cfg: Config, s: State) {
    && LockMatches(cfg, s)
    && (forall i :: 0 <= i < |s.locals| ==> LocalInvariant(cfg.scripts[i], s.locals[i]))
    && (s.globals.poisoned ==> s.globals.writer.Free? && s.globals.readers == {})
    && (s.globals.poisoned <==> WasPoisoned(cfg, s))
    && (s.globals.aborted <==> SomeAborted(s))
  }

  lemma StepBalances(cfg: Config, i: nat, l: Local, g: Globals)
    requires i < |cfg.scripts| && CanStep(cfg.scripts[i], l, g)
    requires Follows(cfg.scripts[i].entry, l) && TokenBalanced(cfg.scripts[i], l)
    ensures TokenBalanced(cfg.scripts[i], LocalStep(cfg, i, l, g).local)
  {
    ShowsAtMostOne(cfg, i, l, g);
    TokenEffect(cfg, i, l, g);
    KeepsBalance(cfg.scripts[i], l, LocalStep(cfg, i, l, g).local);
  }

  lemma KeepsBalance(script: Script, l: Local, l': Local)
    requires !Finished(l.pc) && TokenBalanced(script, l) && Balances(script, l, l')
    requires l.trace <= l'.trace && |l'.trace| <= |l.trace| + 1
    ensures TokenBalanced(script, l')
  {
    var t := l'.trace;
    if |t| > |l.trace| {
      assert t == l.trace + [t[|l.trace|]];
      TallySnoc(Preparing, l.trace, t[|l.trace|]);
      TallySnoc(Finalizing, l.trace, t[|l.trace|]);
    } else {
      assert t == l.trace;
    }
  }

  /** A token balance of `had` becomes the balance of `l'` by the event a step shows, if any. */
  predicate Balances(script: Script, l: Local, l': Local) {
    var had := if OwnsToken(script, l.pc) then 1 else 0;
    var has := if OwnsToken(script, l'.pc) then 1 else 0;
    if |l'.trace| <= |l.trace| then l'.pc.AtAbort? || has == had
    else
      var e := l'.trace[|l.trace|];
      var owes := had + (if Matches(Preparing, e) then 1 else 0) - (if Finalizes(e) then 1 else 0);
      if l'.pc.AtAbort? then 0 <= owes <= 1 else owes == has
  }

  lemma FinalizeBalances(script: Script, l: Local, token: Token, locked: Result<LockedExecution, Caught>)
    requires l.pc == AtFinalize(token, locked)
    ensures Balances(script, l, StepFinalize(script, l, token, locked))
  {
    var events := Finalization(script.entry, l.callbacks, token, locked).1;
    assert |events| == (if script.entry.LifecycleEntry? then 1 else 0);
    assert events != [] ==> Finalizes(events[0]);
    assert StepFinalize(script, l, token, locked).trace == l.trace + events;
  }

  /** What one step's event does to the invocation's token. */
  lemma TokenEffect(cfg: Config, i: nat, l: Local, g: Globals)
    requires i < |cfg.scripts| && CanStep(cfg.scripts[i], l, g)
    requires l.pc.AtPrepare? ==> cfg.scripts[i].entry.LifecycleEntry?
    ensures Balances(cfg.scripts[i], l, LocalStep(cfg, i, l, g).local)
  {
    if l.pc.AtFinalize? {
      FinalizeBalances(cfg.scripts[i], l, l.pc.token, l.pc.locked);
    }
  }

  lemma StepLocalInvariant(cfg: Config, i: nat, l: Local, g: Globals)
    requires i < |cfg.scripts| && CanStep(cfg.scripts[i], l, g)
    requires LocalInvariant(cfg.scripts[i], l)
    ensures LocalInvariant(cfg.scripts[i], LocalStep(cfg, i, l, g).local)
  {
    StepFollows(cfg.scripts[i], l, g);
    StepResolves(cfg.scripts[i], l, g);
    StepGuards(cfg, i, l, g);
    StepBalances(cfg, i, l, g);
  }

  /** Poison and abort, after one step of one invocation. */
  lemma PoisonEffect(cfg: Config, i: nat, l: Local, g: Globals)
    requires i < |cfg.scripts| && CanStep(cfg.scripts[i], l, g)
    ensures var r := LocalStep(cfg, i, l, g);
            var poisons := cfg.poisoning && cfg.scripts[i].mode.Exclusive? && l.pc.AtUnwindGuard?;
            && r.globals.poisoned == (g.poisoned || poisons)
            && r.globals.aborted == (g.aborted || r.local.pc.AtAbort?)
  {
  }

  /** Only the unwinding drop of a guard shows as one. */
  lemma UnwoundEffect(cfg: Config, i: nat, l: Local, g: Globals)
    requires i < |cfg.scripts| && CanStep(cfg.scripts[i], l, g)
    ensures UnwoundGuard(LocalStep(cfg, i, l, g).local.trace) <==> UnwoundGuard(l.trace) || l.pc.AtUnwindGuard?
  {
    ShowsAtMostOne(cfg, i, l, g);
    var t := LocalStep(cfg, i, l, g).local.trace;
    if |t| > |l.trace| {
      var e := t[|l.trace|];
      assert t == l.trace + [e];
      if l.pc.AtUnwindGuard? {
        assert e == GuardDropped(l.callbacks.releaseUnwinding, true) && e in t;
      } else {
        NormalEvent(cfg, i, l, g);
      }
      assert forall c :: c in t <==> c in l.trace || c == e;
    } else {
      assert t == l.trace;
    }
  }

  lemma NormalEvent(cfg: Config, i: nat, l: Local, g: Globals)
    requires i < |cfg.scripts| && CanStep(cfg.scripts[i], l, g) && !l.pc.AtUnwindGuard?
    ensures var t := LocalStep(cfg, i, l, g).local.trace;
            |t| > |l.trace| ==> t[|l.trace|].GuardDropped? ==> !t[|l.trace|].unwinding
  {
    if l.pc.AtFinalize? {
      var events := Finalization(cfg.scripts[i].entry, l.callbacks, l.pc.token, l.pc.locked).1;
      assert LocalStep(cfg, i, l, g).local.trace == l.trace + events;
    }
  }

  lemma StepPoisonFrees(cfg: Config, s: State, a: Action)
    requires Invariant(cfg, s) && Enabled(cfg, s, a)
    ensures var s' := Apply(cfg, s, a);
            && (s'.globals.poisoned ==> s'.globals.writer.Free? && s'.globals.readers == {})
            && (s.globals.poisoned ==> s'.globals.poisoned)
  {
    if a.Step? {
      var i := a.index;
      var l := s.locals[i];
      PoisonEffect(cfg, i, l, s.globals);
      GuardEffect(cfg, i, l, s.globals);
      if l.pc.AtUnwindGuard? && cfg.scripts[i].mode.Exclusive? {
        assert s.globals.writer == HeldBy(i);
      }
    }
  }

  /** One invocation's trace changes the system's poison history by its own unwinding drop only. */
  lemma WasPoisonedUpdate(cfg: Config, s: State, i: nat, l': Local, g': Globals)
    requires |s.locals| == |cfg.scripts| && i < |s.locals|
    requires UnwoundGuard(s.locals[i].trace) ==> UnwoundGuard(l'.trace)
    ensures WasPoisoned(cfg, State(g', s.locals[i := l'])) <==>
            WasPoisoned(cfg, s) || (cfg.poisoning && cfg.scripts[i].mode.Exclusive? && UnwoundGuard(l'.trace))
  {
    var s' := State(g', s.locals[i := l']);
    assert forall j :: 0 <= j < |s.locals| ==> s'.locals[j] == if j == i then l' else s.locals[j];
    if WasPoisoned(cfg, s) {
      var j :| 0 <= j < |s.locals| && cfg.scripts[j].mode.Exclusive? && UnwoundGuard(s.locals[j].trace);
      assert UnwoundGuard(s'.locals[j].trace);
    }
    if cfg.poisoning && cfg.scripts[i].mode.Exclusive? && UnwoundGuard(l'.trace) {
      assert UnwoundGuard(s'.locals[i].trace);
    }
    if WasPoisoned(cfg, s') {
      var j :| 0 <= j < |s'.locals| && cfg.scripts[j].mode.Exclusive? && UnwoundGuard(s'.locals[j].trace);
      assert j != i ==> UnwoundGuard(s.locals[j].trace);
    }
  }

  lemma StepPoisonHistory(cfg: Config, s: State, a: Action)
    requires Invariant(cfg, s) && Enabled(cfg, s, a)
    ensures Apply(cfg, s, a).globals.poisoned <==> WasPoisoned(cfg, Apply(cfg, s, a))
  {
    if a.Step? {
      var i := a.index;
      var l := s.locals[i];
      var r := LocalStep(cfg, i, l, s.globals);
      PoisonEffect(cfg, i, l, s.globals);
      UnwoundEffect(cfg, i, l, s.globals);
      WasPoisonedUpdate(cfg, s, i, r.local, r.globals);
      if UnwoundGuard(l.trace) && cfg.poisoning && cfg.scripts[i].mode.Exclusive? {
        assert WasPoisoned(cfg, s);
      }
    }
  }

  /** The process is down exactly when an invocation took it down. */
  lemma StepAborts(cfg: Config, s: State, a: Action)
    requires Invariant(cfg, s) && Enabled(cfg, s, a)
    ensures Apply(cfg, s, a).globals.aborted <==> SomeAborted(Apply(cfg, s, a))
  {
    var s' := Apply(cfg, s, a);
    if a.Step? {
      PoisonEffect(cfg, a.index, s.locals[a.index], s.globals);
      assert forall i :: 0 <= i < |s.locals| && i != a.index ==> s'.locals[i] == s.locals[i];
      assert forall i :: 0 <= i < |s.locals| ==> !s.locals[i].pc.AtAbort?;
      assert s'.locals[a.index].pc.AtAbort? ==> SomeAborted(s');
    } else {
      assert s'.locals == s.locals;
    }
  }

  /** The invariant is kept by every action. */
  lemma StepInvariant(cfg: Config, s: State, a: Action)
    requires Invariant(cfg, s) && Enabled(cfg, s, a)
    ensures Invariant(cfg, Apply(cfg, s, a))
  {
    StepLockMatches(cfg, s, a);
    StepPoisonFrees(cfg, s, a);
    StepPoisonHistory(cfg, s, a);
    StepAborts(cfg, s, a);
    if a.Step? {
      StepLocalInvariant(cfg, a.index, s.locals[a.index], s.globals);
    }
  }

  lemma StartInvariant(cfg: Config)
    ensures Invariant(cfg, Start(cfg))
  {
    var s := Start(cfg);
    forall i | 0 <= i < |s.locals|
      ensures LocalInvariant(cfg.scripts[i], s.locals[i])
    {
      assert s.locals[i] == Local(cfg.scripts[i].callbacks, AtInitial, []);
    }
  }

  lemma {:induction false} InvariantFrom(cfg: Config, s: State, schedule: seq<Action>)
    requires Invariant(cfg, s) && Runs(cfg, s, schedule)
    ensures Invariant(cfg, After(cfg, s, schedule))
    decreases |schedule|
  {
    if schedule != [] {
      StepInvariant(cfg, s, schedule[0]);
      InvariantFrom(cfg, Apply(cfg, s, schedule[0]), schedule[1..]);
    }
  }

  /** Every reachable state satisfies the invariant. */
  lemma InvariantAlways(cfg: Config, schedule: seq<Action>)
    requires Runs(cfg, Start(cfg), schedule)
    ensures Invariant(cfg, After(cfg, Start(cfg), schedule))
  {
    StartInvariant(cfg);
    InvariantFrom(cfg, Start(cfg), schedule);
  }
}
