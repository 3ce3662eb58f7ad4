/** The claim protocol makes progress: any number of failed commits and reopenings can precede the one that writes. */
module ClaimRuns {
  import opened Wrappers
  import opened Panics
  import opened Outcomes
  import opened LockedPhase
  import opened Protocol
  import opened Projection
  import opened GuardDiscipline
  import opened Reachable
  import opened Linearization
  import opened Progress
  import opened Counting
  import opened GateAccounting
  import opened SharedModes
  import opened FastPath
  import opened ClaimProtocol

  /** A claim that gets to its task, closes the gate there and finishes with a value. */
  ghost predicate Claimant(script: Script) {
    && ReachesTask(script)
    && script.store == Some(false)
    && script.callbacks.release.Returned?
    && (forall token :: script.callbacks.task(token).ending.Finishes? && script.callbacks.task(token).ending.result.Ok?)
  }

  ghost predicate CommitsFail(script: Script) {
    script.callbacks.commit.Some? && forall token :: script.callbacks.commit.value(token).FinalizeErrs?
  }

  ghost predicate CommitsSucceed(script: Script) {
    script.callbacks.commit.Some? && forall token :: script.callbacks.commit.value(token) == Finalized
  }

  lemma {:induction false} JustifiedConcat(cfg: Config, s: State, first: seq<Action>, second: seq<Action>)
    requires |s.locals| == |cfg.scripts| && Runs(cfg, s, first) && Runs(cfg, After(cfg, s, first), second)
    requires Justified(cfg, s, first) && Justified(cfg, After(cfg, s, first), second)
    ensures Runs(cfg, s, first + second) && Justified(cfg, s, first + second)
    ensures After(cfg, s, first + second) == After(cfg, After(cfg, s, first), second)
    decreases |first|
  {
    RunsConcat(cfg, s, first, second);
    if first == [] {
      assert first + second == second;
    } else {
      assert (first + second)[0] == first[0] && (first + second)[1..] == first[1..] + second;
      JustifiedConcat(cfg, Apply(cfg, s, first[0]), first[1..], second);
    }
  }

  lemma {:induction false} StepsAreJustified(cfg: Config, s: State, i: nat, steps: seq<Action>)
    requires |s.locals| == |cfg.scripts| && Runs(cfg, s, steps) && forall a :: a in steps ==> a == Step(i)
    ensures Justified(cfg, s, steps)
    decreases |steps|
  {
    if steps != [] {
      assert steps[0] in steps && forall a :: a in steps[1..] ==> a in steps;
      StepsAreJustified(cfg, Apply(cfg, s, steps[0]), i, steps[1..]);
    }
  }

  // ----- one claim from its store to its outcome -----

  /** A claim past its store, on the way to commit. */
  predicate Committing(pc: Pc) {
    || pc.AtTaskEnd?
    || (pc.AtRelease? && pc.value.Task? && pc.value.result.Ok?)
    || (pc.AtFinalize? && pc.locked.Ok? && pc.locked.value.Task? && pc.locked.value.result.Ok?)
  }

  /** What the claim's caller is told: a success whose commit failed or did not. */
  predicate ToldCommit(ending: Ending, failed: bool) {
    match ending
    case LifecyclePlain(Return(TaskSucceeded(_, commit))) => if failed then commit.Failed? else commit.Succeeded?
    case LifecycleCaptured(Return(TaskSucceeded(_, commit))) => if failed then commit.Failed? else commit.Succeeded?
    case _ => false
  }

  lemma NextCommitting(script: Script, l: Local, g: Globals, failed: bool)
    requires OnPath(script.entry, l.callbacks, l.pc) && Resolves(script, l.callbacks)
    requires Claimant(script) && script.entry.LifecycleEntry? && Committing(l.pc)
    requires if failed then CommitsFail(script) else CommitsSucceed(script)
    ensures var pc := NextLocal(script, l, g).pc;
            && Rank(pc) < Rank(l.pc)
            && (Committing(pc) || (pc.AtDone? && ToldCommit(pc.ending, failed)))
  {
    if l.pc.AtTaskEnd? {
      assert script.callbacks.task(l.pc.token).ending.Finishes?;
    }
  }

  lemma CommitOn(cfg: Config, s: State, i: nat, failed: bool)
    requires Invariant(cfg, s) && i < |s.locals| && Claimant(cfg.scripts[i]) && cfg.scripts[i].entry.LifecycleEntry?
    requires if failed then CommitsFail(cfg.scripts[i]) else CommitsSucceed(cfg.scripts[i])
    requires Committing(s.locals[i].pc) && !s.globals.aborted && !s.globals.poisoned
    ensures Enabled(cfg, s, Step(i))
    ensures var s' := Apply(cfg, s, Step(i));
            && Rank(s'.locals[i].pc) < Rank(s.locals[i].pc)
            && s'.locals == s.locals[i := s'.locals[i]] && s'.globals.gate == s.globals.gate
            && !s'.globals.aborted && !s'.globals.poisoned
            && (s'.globals.writer.HeldByEnvironment? ==> s.globals.writer.HeldByEnvironment?)
            && (Committing(s'.locals[i].pc) || (s'.locals[i].pc.AtDone? && ToldCommit(s'.locals[i].pc.ending, failed)))
  {
    assert LocalInvariant(cfg.scripts[i], s.locals[i]);
    NextCommitting(cfg.scripts[i], s.locals[i], s.globals, failed);
    GuardEffect(cfg, i, s.locals[i], s.globals);
    GateEffect(cfg, i, s.locals[i], s.globals);
    PoisonEffect(cfg, i, s.locals[i], s.globals);
  }

  lemma {:induction false} CommitAlone(cfg: Config, s: State, i: nat, failed: bool) returns (steps: seq<Action>)
    requires Invariant(cfg, s) && i < |s.locals| && Claimant(cfg.scripts[i]) && cfg.scripts[i].entry.LifecycleEntry?
    requires if failed then CommitsFail(cfg.scripts[i]) else CommitsSucceed(cfg.scripts[i])
    requires Committing(s.locals[i].pc) && !s.globals.aborted && !s.globals.poisoned
    ensures Runs(cfg, s, steps) && forall a :: a in steps ==> a == Step(i)
    ensures var s' := After(cfg, s, steps);
            && s'.locals == s.locals[i := s'.locals[i]] && s'.globals.gate == s.globals.gate
            && !s'.globals.aborted && !s'.globals.poisoned
            && (s'.globals.writer.HeldByEnvironment? ==> s.globals.writer.HeldByEnvironment?)
            && s'.locals[i].pc.AtDone? && ToldCommit(s'.locals[i].pc.ending, failed)
    decreases Rank(s.locals[i].pc)
  {
    CommitOn(cfg, s, i, failed);
    StepInvariant(cfg, s, Step(i));
    var next := Apply(cfg, s, Step(i));
    if Committing(next.locals[i].pc) {
      var rest := CommitAlone(cfg, next, i, failed);
      RunsCons(cfg, s, Step(i), rest);
      steps := [Step(i)] + rest;
      var end := After(cfg, next, rest);
      assert end.locals == s.locals[i := end.locals[i]];
    } else {
      RunsCons(cfg, s, Step(i), []);
      steps := [Step(i)] + [];
    }
  }

  // ----- one claim after another -----

  /** The first `k` claims are over and failed to commit, the others have not begun. */
  ghost predicate Tried(cfg: Config, s: State, k: nat) {
    && |s.locals| == |cfg.scripts| && k <= |s.locals|
    && !s.globals.aborted && !s.globals.poisoned
    && (forall i :: 0 <= i < k ==> s.locals[i].pc.AtDone? && ToldCommit(s.locals[i].pc.ending, true))
    && (forall i :: k <= i < |s.locals| ==> s.locals[i].pc.AtInitial?)
  }

  /** A claim that has been told of a commit has closed the gate. */
  lemma ToldHasClosed(script: Script, l: Local, failed: bool)
    requires LocalInvariant(script, l) && Claimant(script) && l.pc.AtDone? && ToldCommit(l.pc.ending, failed)
    ensures HasClosed(script, l)
    ensures failed ==> InClass(Retryable, script, l)
  {
    OutcomeShowsVerdict(script.entry, l.callbacks);
  }

  lemma {:induction false} CountFirst(test: (Script, Local) -> bool, scripts: seq<Script>, locals: seq<Local>, k: nat)
    requires |scripts| == |locals| && k <= |locals|
    requires forall i :: 0 <= i < |locals| ==> (test(scripts[i], locals[i]) <==> i < k)
    ensures Count(test, scripts, locals) == k
  {
    if locals != [] {
      CountFirst(test, scripts[1..], locals[1..], if k == 0 then 0 else k - 1);
    }
  }

  /** The ledger after `k` failed claims: all of them may be retried, and each opening but the current one is used. */
  lemma TriedLedger(cfg: Config, s: State, k: nat, record: int)
    requires cfg.initiallyOpen && Simulates(cfg, s) && ClaimInvariant(cfg, s, record) && Tried(cfg, s, k)
    requires forall i :: 0 <= i < k ==> Claimant(cfg.scripts[i])
    ensures Count(In(Retryable), cfg.scripts, s.locals) == k
    ensures Reopens(cfg, s) + 1 == k + Bit(s.globals.gate)
    ensures s.globals.committed == []
  {
    forall i | 0 <= i < |s.locals|
      ensures InClass(Retryable, cfg.scripts[i], s.locals[i]) <==> i < k
      ensures InClass(Claimed, cfg.scripts[i], s.locals[i]) <==> i < k
      ensures !InClass(Committed, cfg.scripts[i], s.locals[i])
    {
      assert LocalInvariant(cfg.scripts[i], s.locals[i]) && NeverBoth(s.locals[i]);
      if i < k {
        ToldHasClosed(cfg.scripts[i], s.locals[i], true);
      }
    }
    CountFirst(In(Retryable), cfg.scripts, s.locals, k);
    CountFirst(In(Claimed), cfg.scripts, s.locals, k);
    CountNone(In(Committed), cfg.scripts, s.locals);
    RunsBalance(cfg.initiallyOpen, s.globals.log);
  }

  /** With nobody under a guard, claim `k` runs from its beginning to its outcome. */
  lemma ClaimAlone(cfg: Config, s: State, k: nat, failed: bool) returns (steps: seq<Action>)
    requires Invariant(cfg, s) && Tried(cfg, s, k) && k < |s.locals| && s.globals.gate
    requires !s.globals.writer.HeldByEnvironment?
    requires Claimant(cfg.scripts[k]) && cfg.scripts[k].entry.LifecycleEntry?
    requires if failed then CommitsFail(cfg.scripts[k]) else CommitsSucceed(cfg.scripts[k])
    ensures Runs(cfg, s, steps) && Justified(cfg, s, steps)
    ensures var s' := After(cfg, s, steps);
            && s'.locals == s.locals[k := s'.locals[k]] && !s'.globals.gate
            && !s'.globals.aborted && !s'.globals.poisoned && !s'.globals.writer.HeldByEnvironment?
            && s'.locals[k].pc.AtDone? && ToldCommit(s'.locals[k].pc.ending, failed)
  {
    var closing := CloseFirst(cfg, s, k);
    var closed := After(cfg, s, closing);
    var ending := CommitAlone(cfg, closed, k, failed);
    StepsAreJustified(cfg, closed, k, ending);
    JustifiedConcat(cfg, s, closing, ending);
    steps := closing + ending;
  }

  lemma CloseFirst(cfg: Config, s: State, k: nat) returns (steps: seq<Action>)
    requires Invariant(cfg, s) && Tried(cfg, s, k) && k < |s.locals| && s.globals.gate
    requires !s.globals.writer.HeldByEnvironment? && Claimant(cfg.scripts[k])
    ensures Runs(cfg, s, steps) && Justified(cfg, s, steps)
    ensures var s' := After(cfg, s, steps);
            && Invariant(cfg, s') && Committing(s'.locals[k].pc)
            && s'.locals == s.locals[k := s'.locals[k]] && !s'.globals.gate
            && !s'.globals.aborted && !s'.globals.poisoned && !s'.globals.writer.HeldByEnvironment?
  {
    ExcludedExactly(cfg, s, k);
    steps := CloseAlone(cfg, s, k);
    InvariantFrom(cfg, s, steps);
    NotPoisonedAlone(cfg, After(cfg, s, steps), k);
    StepsAreJustified(cfg, s, k, steps);
  }

  /** While somebody holds a guard the lock is not poisoned. */
  lemma NotPoisonedAlone(cfg: Config, s: State, i: nat)
    requires Invariant(cfg, s) && i < |s.locals| && Holds(s.locals[i].pc)
    ensures !s.globals.poisoned
  {
    assert s.globals.writer == HeldBy(i) || i in s.globals.readers;
  }

  /** The environment reopens the gate for a claim that still awaits it. */
  lemma ReopenAlone(cfg: Config, s: State) returns (steps: seq<Action>)
    requires |s.locals| == |cfg.scripts| && Available(Exclusive, s.globals)
    requires !s.globals.poisoned && !s.globals.aborted
    requires Reopens(cfg, s) < Count(In(Retryable), cfg.scripts, s.locals)
    ensures Runs(cfg, s, steps) && Justified(cfg, s, steps)
    ensures After(cfg, s, steps) == s.(globals := s.globals.(gate := true, log := s.globals.log + [External(true)]))
  {
    var held := s.(globals := s.globals.(writer := HeldByEnvironment));
    var stored := held.(globals := held.globals.(gate := true, log := s.globals.log + [External(true)]));
    steps := JustifiedCons(cfg, stored, EnvRelease, []);
    steps := JustifiedCons(cfg, held, EnvStore(true), steps);
    steps := JustifiedCons(cfg, s, EnvAcquire, steps);
  }

  lemma JustifiedCons(cfg: Config, s: State, a: Action, rest: seq<Action>) returns (schedule: seq<Action>)
    requires |s.locals| == |cfg.scripts| && Enabled(cfg, s, a)
    requires Runs(cfg, Apply(cfg, s, a), rest) && Justified(cfg, Apply(cfg, s, a), rest)
    requires a.EnvStore? ==> a.open && Reopens(cfg, s) < Count(In(Retryable), cfg.scripts, s.locals)
    ensures Runs(cfg, s, schedule) && Justified(cfg, s, schedule)
    ensures After(cfg, s, schedule) == After(cfg, Apply(cfg, s, a), rest)
  {
    schedule := [a] + rest;
    assert schedule[1..] == rest;
  }

  /** `k` claims in a row whose commits fail, each followed by its reopening. */
  lemma {:induction false} FailInARow(cfg: Config, record: int, k: nat) returns (schedule: seq<Action>)
    requires ClaimSystem(cfg, record) && k <= |cfg.scripts|
    requires forall i :: 0 <= i < k ==> Claimant(cfg.scripts[i]) && CommitsFail(cfg.scripts[i])
    ensures Runs(cfg, Start(cfg), schedule) && Justified(cfg, Start(cfg), schedule)
    ensures var s := After(cfg, Start(cfg), schedule);
            && Tried(cfg, s, k) && s.globals.gate && !s.globals.writer.HeldByEnvironment?
            && Reopens(cfg, s) == k
  {
    if k == 0 {
      schedule := [];
    } else {
      var before := FailInARow(cfg, record, k - 1);
      var failed := FailOnce(cfg, record, before, k - 1);
      var reopening := ReopenAfterFailure(cfg, record, failed, k);
      JustifiedConcat(cfg, Start(cfg), failed, reopening);
      schedule := failed + reopening;
      LedgerAlways(cfg, record, schedule);
      TriedLedger(cfg, After(cfg, Start(cfg), schedule), k, record);
    }
  }

  /** One more claim after `k` failed ones fails too. */
  lemma FailOnce(cfg: Config, record: int, before: seq<Action>, k: nat) returns (failed: seq<Action>)
    requires ClaimSystem(cfg, record) && k < |cfg.scripts|
    requires Claimant(cfg.scripts[k]) && CommitsFail(cfg.scripts[k])
    requires Runs(cfg, Start(cfg), before) && Justified(cfg, Start(cfg), before)
    requires var s := After(cfg, Start(cfg), before);
             Tried(cfg, s, k) && s.globals.gate && !s.globals.writer.HeldByEnvironment?
    ensures Runs(cfg, Start(cfg), failed) && Justified(cfg, Start(cfg), failed)
    ensures var s := After(cfg, Start(cfg), failed);
            Tried(cfg, s, k + 1) && !s.globals.gate && !s.globals.writer.HeldByEnvironment?
  {
    InvariantAlways(cfg, before);
    assert Claims(cfg.scripts[k], record);
    var steps := ClaimAlone(cfg, After(cfg, Start(cfg), before), k, true);
    JustifiedConcat(cfg, Start(cfg), before, steps);
    failed := before + steps;
  }

  lemma ReopenAfterFailure(cfg: Config, record: int, failed: seq<Action>, k: nat) returns (steps: seq<Action>)
    requires ClaimSystem(cfg, record) && Runs(cfg, Start(cfg), failed) && Justified(cfg, Start(cfg), failed)
    requires var s := After(cfg, Start(cfg), failed);
             Tried(cfg, s, k) && !s.globals.gate && !s.globals.writer.HeldByEnvironment?
    requires forall i :: 0 <= i < k ==> Claimant(cfg.scripts[i])
    requires 0 < k
    ensures var s := After(cfg, Start(cfg), failed);
            && Runs(cfg, s, steps) && Justified(cfg, s, steps)
            && After(cfg, s, steps) == s.(globals := s.globals.(gate := true, log := s.globals.log + [External(true)]))
  {
    var s := After(cfg, Start(cfg), failed);
    LedgerAlways(cfg, record, failed);
    TriedLedger(cfg, s, k, record);
    assert cfg.scripts[0].mode.Exclusive? by {
      assert Claims(cfg.scripts[0], record);
    }
    ExcludedExactly(cfg, s, 0);
    steps := ReopenAlone(cfg, s);
  }

  lemma LedgerAlways(cfg: Config, record: int, schedule: seq<Action>)
    requires ClaimSystem(cfg, record) && Runs(cfg, Start(cfg), schedule) && Justified(cfg, Start(cfg), schedule)
    ensures Simulates(cfg, After(cfg, Start(cfg), schedule))
    ensures ClaimInvariant(cfg, After(cfg, Start(cfg), schedule), record)
  {
    StartSimulates(cfg);
    StartClaims(cfg, record);
    ClaimsFrom(cfg, Start(cfg), schedule, record);
  }

  /**
   Failures and retries without bound: for every `n` there is a run of the
   protocol in which `n` claims in a row fail to commit, each is followed by its
   reopening, and the next claim writes the record; by `WorkIsInOnePlace` it is
   then written for good.
   */
  lemma RetriesReachCommit(cfg: Config, record: int, n: nat) returns (schedule: seq<Action>)
    requires ClaimSystem(cfg, record) && n < |cfg.scripts|
    requires forall i :: 0 <= i < n ==> Claimant(cfg.scripts[i]) && CommitsFail(cfg.scripts[i])
    requires Claimant(cfg.scripts[n]) && CommitsSucceed(cfg.scripts[n])
    ensures Runs(cfg, Start(cfg), schedule) && Justified(cfg, Start(cfg), schedule)
    ensures var s := After(cfg, Start(cfg), schedule);
            && (forall i :: 0 <= i < n ==> s.locals[i].pc.AtDone? && ToldCommit(s.locals[i].pc.ending, true))
            && s.locals[n].pc.AtDone? && ToldCommit(s.locals[n].pc.ending, false)
            && s.globals.committed == [record] && !s.globals.gate
  {
    var before := FailInARow(cfg, record, n);
    InvariantAlways(cfg, before);
    assert Claims(cfg.scripts[n], record);
    var steps := ClaimAlone(cfg, After(cfg, Start(cfg), before), n, false);
    JustifiedConcat(cfg, Start(cfg), before, steps);
    schedule := before + steps;
    LedgerAlways(cfg, record, schedule);
    var s := After(cfg, Start(cfg), schedule);
    assert LocalInvariant(cfg.scripts[n], s.locals[n]);
    ToldHasWritten(cfg.scripts[n], s.locals[n]);
    CountSome(In(Committed), cfg.scripts, s.locals, n);
    WorkIsInOnePlace(cfg, schedule, record);
  }

  /** A claim told that its commit succeeded has written. */
  lemma ToldHasWritten(script: Script, l: Local)
    requires LocalInvariant(script, l) && Claimant(script) && l.pc.AtDone? && ToldCommit(l.pc.ending, false)
    requires script.callbacks.commit.Some?
    ensures InClass(Committed, script, l)
  {
    ToldHasClosed(script, l, false);
    var given := Given(script.entry, l.callbacks);
    BlockCases(script.entry, l.callbacks);
    MeaningAfterLock(script.entry, l.callbacks, Ok(LockedValue(l.callbacks, given)));
  }

  lemma {:induction false} CountSome(test: (Script, Local) -> bool, scripts: seq<Script>, locals: seq<Local>, i: nat)
    requires |scripts| == |locals| && i < |locals| && test(scripts[i], locals[i])
    ensures Count(test, scripts, locals) > 0
  {
    if i > 0 {
      CountSome(test, scripts[1..], locals[1..], i - 1);
    }
  }

  /** One call of the guide's protocol: it stages `record`, closes the gate and commits as `commits` says. */
  function RetryScript(record: int, commits: Finalizer): Script {
    Script(Callbacks(Sees(true), Prepared(Token(0, [])), Returned, Sees(true),
                     (token: Token) =>
                       TaskRun(Finishes(Ok(Owned(0, Returned))), Token(token.id, token.pending + [record])),
                     Returned, Returned, Returned,
                     Some((token: Token) => commits), Some((token: Token, cause: RollbackCause) => Finalized),
                     (token: Token) => Returned, true),
           LifecycleEntry(false), Exclusive, false, Some(false))
  }

  /** `n` calls whose commit fails before writing, and one whose commit succeeds. */
  function RetrySystem(n: nat, record: int): Config {
    var failing := RetryScript(record, FinalizeErrs(Owned(1, Returned)));
    Config(seq(n, i => failing) + [RetryScript(record, Finalized)], true, true)
  }

  /** The guide's scenario for every number of failures: nothing panics, and the record gets in after all of them. */
  lemma RetrySystemCommits(n: nat, record: int) returns (schedule: seq<Action>)
    ensures var cfg := RetrySystem(n, record);
            && ClaimSystem(cfg, record)
            && (forall i :: 0 <= i <= n ==> Orderly(cfg.scripts[i].callbacks) && NeverDoublePanics(cfg.scripts[i]))
            && Runs(cfg, Start(cfg), schedule) && Justified(cfg, Start(cfg), schedule)
            && After(cfg, Start(cfg), schedule).globals.committed == [record]
            && forall i :: 0 <= i <= n ==> After(cfg, Start(cfg), schedule).locals[i].pc.AtDone?
  {
    var cfg := RetrySystem(n, record);
    forall i | 0 <= i <= n
      ensures Claims(cfg.scripts[i], record) && Claimant(cfg.scripts[i])
      ensures Orderly(cfg.scripts[i].callbacks) && NeverDoublePanics(cfg.scripts[i])
      ensures if i < n then CommitsFail(cfg.scripts[i]) else CommitsSucceed(cfg.scripts[i])
    {
      RetryScriptClaims(record, if i < n then FinalizeErrs(Owned(1, Returned)) else Finalized);
    }
    schedule := RetriesReachCommit(cfg, record, n);
  }

  lemma RetryScriptClaims(record: int, commits: Finalizer)
    requires !commits.FinalizePanics?
    ensures var script := RetryScript(record, commits);
            && Claims(script, record) && Claimant(script)
            && Orderly(script.callbacks) && NeverDoublePanics(script)
            && (commits.FinalizeErrs? ==> CommitsFail(script))
            && (commits.Finalized? ==> CommitsSucceed(script))
  {
    QuietDestructorsSuffice(RetryScript(record, commits));
  }
}
