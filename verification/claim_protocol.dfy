/**
 Exactly-once work across unbounded retries.

 Tasks claim the work by closing the gate under the lock and stage one record
 in their token; commit writes it. Whoever learns that its claim was not
 written reopens the gate under the same lock. Every retry is a further
 invocation, so any number of failures and retries is covered.
 */
module ClaimProtocol {
  import opened Wrappers
  import opened Outcomes
  import opened LockedPhase
  import opened Protocol
  import opened Projection
  import opened GuardDiscipline
  import opened Reachable
  import opened Linearization
  import opened Counting
  import opened GateAccounting

  /** The task errors or panics whatever token it is given, possibly before it gets to close the gate. */
  ghost predicate NeverSucceeds(script: Script) {
    forall token :: script.callbacks.task(token).ending.Finishes? ==> script.callbacks.task(token).ending.result.Err?
  }

  /** An invocation of the protocol for `record`. */
  ghost predicate Claims(script: Script, record: int) {
    && script.entry.LifecycleEntry?
    && script.mode.Exclusive?
    && (script.store == Some(false) || (script.store == None && NeverSucceeds(script)))
    && script.callbacks.commit.Some?
    && (script.callbacks.prepare.Prepared? ==> script.callbacks.prepare.token.pending == [])
    && (forall token :: script.callbacks.task(token).ending.Finishes? && script.callbacks.task(token).ending.result.Ok?
          ==> script.callbacks.task(token).token.pending == token.pending + [record])
  }

  ghost predicate ClaimSystem(cfg: Config, record: int) {
    && cfg.initiallyOpen
    && forall i :: 0 <= i < |cfg.scripts| ==> Claims(cfg.scripts[i], record)
  }

  /** The invocation's commit wrote its records. */
  predicate Wrote(l: Local) {
    && |l.trace| > 0
    && l.trace[|l.trace| - 1].CommitRan?
    && l.trace[|l.trace| - 1].finalizer.Finalized?
  }

  /** Outcomes after which the caller knows nothing was written: a failed commit, or a completed rollback. */
  predicate MayRetry(ending: Ending) {
    match ending
    case LifecyclePlain(Return(TaskSucceeded(_, commit))) => commit.Failed?
    case LifecyclePlain(Return(TaskFailed(_, rollback))) => rollback.Succeeded? || rollback.NotRequired?
    case LifecycleCaptured(Return(TaskSucceeded(_, commit))) => commit.Failed?
    case LifecycleCaptured(Return(TaskFailed(_, rollback))) => rollback.Succeeded? || rollback.NotRequired?
    case _ => false
  }

  datatype Class = Claimed | InFlight | Committed | Retryable | Lost

  predicate InClass(class_: Class, script: Script, l: Local) {
    && HasClosed(script, l)
    && match class_
       case Claimed => true
       case InFlight => !Finished(l.pc)
       case Committed => Finished(l.pc) && Wrote(l)
       case Retryable => l.pc.AtDone? && MayRetry(l.pc.ending)
       case Lost => Finished(l.pc) && !Wrote(l) && !(l.pc.AtDone? && MayRetry(l.pc.ending))
  }

  function In(class_: Class): (Script, Local) -> bool {
    (script, l) => InClass(class_, script, l)
  }

  /** The environment's effective reopenings so far. */
  function Reopens(cfg: Config, s: State): nat {
    Flips(cfg.initiallyOpen, s.globals.log, true)
  }

  /** A claim that was written is never one its caller may retry. */
  ghost predicate NeverBoth(l: Local) {
    Wrote(l) ==> !(l.pc.AtDone? && MayRetry(l.pc.ending))
  }

  /** The claims are those in flight, those written, those to retry and those lost to a panic. */
  lemma {:induction false} ClaimsPartition(scripts: seq<Script>, locals: seq<Local>)
    requires |scripts| == |locals|
    requires forall i :: 0 <= i < |locals| ==> NeverBoth(locals[i])
    ensures Count(In(Claimed), scripts, locals) ==
            Count(In(InFlight), scripts, locals) + Count(In(Committed), scripts, locals)
            + Count(In(Retryable), scripts, locals) + Count(In(Lost), scripts, locals)
  {
    if locals != [] {
      assert NeverBoth(locals[0]);
      forall i | 0 <= i < |locals| - 1
        ensures NeverBoth(locals[1..][i])
      {
        assert NeverBoth(locals[i + 1]);
      }
      ClaimsPartition(scripts[1..], locals[1..]);
    }
  }

  /** The environment stores the gate only to reopen it for a claim that still awaits its reopening. */
  predicate Justified(cfg: Config, s: State, schedule: seq<Action>)
    requires |s.locals| == |cfg.scripts| && Runs(cfg, s, schedule)
    decreases |schedule|
  {
    schedule == [] ||
    (&& (schedule[0].EnvStore? ==>
           schedule[0].open && Reopens(cfg, s) < Count(In(Retryable), cfg.scripts, s.locals))
     && Justified(cfg, Apply(cfg, s, schedule[0]), schedule[1..]))
  }

  ghost predicate ClaimInvariant(cfg: Config, s: State, record: int)
    requires |s.locals| == |cfg.scripts|
  {
    && Closings(s.globals.log) == Count(In(Claimed), cfg.scripts, s.locals)
    && Flips(cfg.initiallyOpen, s.globals.log, false) == 0
    && Reopens(cfg, s) <= Count(In(Retryable), cfg.scripts, s.locals)
    && |s.globals.committed| == Count(In(Committed), cfg.scripts, s.locals)
    && (forall r :: r in s.globals.committed ==> r == record)
    && (forall i :: 0 <= i < |s.locals| ==> NeverBoth(s.locals[i]))
  }

  // ----- one step -----

  lemma CommittedKept(cfg: Config, i: nat, l: Local, g: Globals)
    requires i < |cfg.scripts| && CanStep(cfg.scripts[i], l, g) && !l.pc.AtFinalize?
    requires !Wrote(l)
    ensures var r := LocalStep(cfg, i, l, g);
            r.globals.committed == g.committed && !Wrote(r.local)
  {
    var t := LocalStep(cfg, i, l, g).local.trace;
    ShowsAtMostOne(cfg, i, l, g);
    ShowsNoCommit(cfg.scripts[i], l, g);
    if |t| == |l.trace| {
      assert t == l.trace;
    }
  }

  /** Only finalization commits. */
  lemma ShowsNoCommit(script: Script, l: Local, g: Globals)
    requires !Finished(l.pc) && !l.pc.AtFinalize?
    ensures var t := NextLocal(script, l, g).trace; |t| > |l.trace| ==> !t[|t| - 1].CommitRan?
  {
  }

  /** The finalizing step writes exactly the record, exactly when it ends in a successful commit. */
  lemma FinalizeWrites(script: Script, l: Local, record: int)
    requires l.pc.AtFinalize? && Claims(script, record)
    requires OnPath(script.entry, l.callbacks, l.pc) && Resolves(script, l.callbacks) && !Wrote(l)
    ensures var l' := StepFinalize(script, l, l.pc.token, l.pc.locked);
            var written := Written(Finalization(script.entry, l.callbacks, l.pc.token, l.pc.locked).1);
            && written == (if Wrote(l') then [record] else [])
            && NeverBoth(l')
            && (Wrote(l') ==> HasClosed(script, l'))
  {
    var cb := l.callbacks;
    var (ending, events) := Finalization(script.entry, cb, l.pc.token, l.pc.locked);
    var given := Given(script.entry, cb);
    assert |events| == 1;
    assert StepFinalize(script, l, l.pc.token, l.pc.locked).trace == l.trace + events;
    if events[0].CommitRan? && events[0].finalizer.Finalized? {
      assert l.pc.locked == Ok(LockedValue(cb, given));
      assert l.pc.token == TokenAfter(cb, given);
      BlockCases(script.entry, cb);
      assert script.callbacks.task(given).token.pending == given.pending + [record];
    }
  }

  /** What one step of an invocation does to the ledger of claims. */
  lemma StepClaim(cfg: Config, s: State, i: nat, record: int)
    requires ClaimSystem(cfg, record) && Simulates(cfg, s) && ClaimInvariant(cfg, s, record)
    requires Enabled(cfg, s, Step(i))
    ensures ClaimInvariant(cfg, Apply(cfg, s, Step(i)), record)
  {
    var l := s.locals[i];
    var r := LocalStep(cfg, i, l, s.globals);
    assert LocalInvariant(cfg.scripts[i], l) && Claims(cfg.scripts[i], record);
    NotYetWritten(cfg.scripts[i], l);
    LogEffect(cfg, i, l, s.globals);
    ExtensionAccounts(cfg.initiallyOpen, cfg.scripts[i], i, l, r.local, s.globals, r.globals);
    WriteEffect(cfg, i, l, s.globals, record);
    LedgerUpdate(cfg, s, i, r.local, r.globals, record);
  }

  /** The committed records grow by this step's record exactly when the invocation now has written it. */
  predicate Writes(script: Script, l': Local, g: Globals, g': Globals, record: int) {
    && g'.committed == g.committed + (if Wrote(l') then [record] else [])
    && (Wrote(l') ==> Finished(l'.pc) && HasClosed(script, l') && !(l'.pc.AtDone? && MayRetry(l'.pc.ending)))
  }

  lemma WriteEffect(cfg: Config, i: nat, l: Local, g: Globals, record: int)
    requires i < |cfg.scripts| && CanStep(cfg.scripts[i], l, g)
    requires Claims(cfg.scripts[i], record) && Resolves(cfg.scripts[i], l.callbacks)
    requires OnPath(cfg.scripts[i].entry, l.callbacks, l.pc) && !Wrote(l)
    ensures var r := LocalStep(cfg, i, l, g); Writes(cfg.scripts[i], r.local, g, r.globals, record)
  {
    if l.pc.AtFinalize? {
      FinalizeWrites(cfg.scripts[i], l, record);
      EndsQuietly(cfg, i, l, g);
    } else {
      CommittedKept(cfg, i, l, g);
    }
  }

  /** The ledger after one invocation moved from `s.locals[i]` to `l'`. */
  lemma LedgerUpdate(cfg: Config, s: State, i: nat, l': Local, g': Globals, record: int)
    requires |s.locals| == |cfg.scripts| && i < |s.locals| && ClaimInvariant(cfg, s, record)
    requires !Finished(s.locals[i].pc) && !Wrote(s.locals[i])
    requires Writes(cfg.scripts[i], l', s.globals, g', record)
    requires forall to :: Flips(cfg.initiallyOpen, g'.log, to) == Flips(cfg.initiallyOpen, s.globals.log, to)
    requires Closings(g'.log) - Closings(s.globals.log) ==
             Bit(InClass(Claimed, cfg.scripts[i], l')) - Bit(InClass(Claimed, cfg.scripts[i], s.locals[i]))
    ensures ClaimInvariant(cfg, State(g', s.locals[i := l']), record)
  {
    CountUpdate(In(Claimed), cfg.scripts, s.locals, i, l');
    CountUpdate(In(Retryable), cfg.scripts, s.locals, i, l');
    CountUpdate(In(Committed), cfg.scripts, s.locals, i, l');
  }

  /** An invocation still on its way has shown no finalization. */
  lemma NotYetWritten(script: Script, l: Local)
    requires Follows(script.entry, l) && !Finished(l.pc)
    ensures !Wrote(l)
  {
    var entry, cb := script.entry, l.callbacks;
    if l.pc.AtFinalize? {
      LockedNeverWrites(entry, cb);
      var events := BlockOf(entry, cb).trace;
      assert l.trace == Opening(entry, cb) + events;
      assert l.trace[|l.trace| - 1] == events[|events| - 1];
    }
  }

  lemma LockedNeverWrites(entry: Entry, cb: Callbacks)
    ensures var events := BlockOf(entry, cb).trace; |events| > 0 && !events[|events| - 1].CommitRan?
  {
    BlockCases(entry, cb);
  }

  lemma StepEnvironment(cfg: Config, s: State, a: Action, record: int)
    requires Simulates(cfg, s) && ClaimInvariant(cfg, s, record) && Enabled(cfg, s, a) && !a.Step?
    requires a.EnvStore? ==> a.open && Reopens(cfg, s) < Count(In(Retryable), cfg.scripts, s.locals)
    ensures ClaimInvariant(cfg, Apply(cfg, s, a), record)
  {
    assert Apply(cfg, s, a).locals == s.locals;
    if a.EnvStore? {
      AccountsSnoc(cfg.initiallyOpen, s.globals.log, External(true));
    }
  }

  lemma {:induction false} ClaimsFrom(cfg: Config, s: State, schedule: seq<Action>, record: int)
    requires ClaimSystem(cfg, record) && Simulates(cfg, s) && ClaimInvariant(cfg, s, record)
    requires Runs(cfg, s, schedule) && Justified(cfg, s, schedule)
    ensures Simulates(cfg, After(cfg, s, schedule))
    ensures ClaimInvariant(cfg, After(cfg, s, schedule), record)
    decreases |schedule|
  {
    if schedule != [] {
      var a := schedule[0];
      StepSimulates(cfg, s, a);
      match a {
        case Step(i) => StepClaim(cfg, s, i, record);
        case _ => StepEnvironment(cfg, s, a, record);
      }
      ClaimsFrom(cfg, Apply(cfg, s, a), schedule[1..], record);
    }
  }

  /** Claims whose callers may still reopen the gate. */
  function Awaiting(cfg: Config, s: State): int
    requires |s.locals| == |cfg.scripts|
  {
    Count(In(Retryable), cfg.scripts, s.locals) - Reopens(cfg, s)
  }

  lemma StartClaims(cfg: Config, record: int)
    requires ClaimSystem(cfg, record)
    ensures ClaimInvariant(cfg, Start(cfg), record)
  {
    var start := Start(cfg);
    forall i | 0 <= i < |start.locals|
      ensures start.locals[i] == Local(cfg.scripts[i].callbacks, AtInitial, [])
    {
    }
    CountNone(In(Claimed), cfg.scripts, start.locals);
    CountNone(In(Retryable), cfg.scripts, start.locals);
    CountNone(In(Committed), cfg.scripts, start.locals);
  }

  /** The ledger's bookkeeping, summed up. */
  lemma PlacesAddUp(cfg: Config, s: State, record: int)
    requires Simulates(cfg, s) && cfg.initiallyOpen && ClaimInvariant(cfg, s, record)
    ensures Bit(s.globals.gate) + Count(In(InFlight), cfg.scripts, s.locals) + Awaiting(cfg, s)
            + |s.globals.committed| + Count(In(Lost), cfg.scripts, s.locals) == 1
    ensures Awaiting(cfg, s) >= 0
    ensures s.globals.committed == [] || s.globals.committed == [record]
  {
    ClaimsPartition(cfg.scripts, s.locals);
    RunsBalance(cfg.initiallyOpen, s.globals.log);
    var committed := s.globals.committed;
    assert |committed| <= 1;
    if |committed| == 1 {
      assert committed[0] in committed && committed[0] == record;
      assert s.globals.committed == [record];
    }
  }

  /**
   Exactly once: in every reachable state of the protocol the work is in one
   place. It is available, claimed and in flight, awaiting its reopening,
   written, or lost to a panic; so the record is never written twice, however
   many commits fail and however often the gate is reopened.
   */
  lemma WorkIsInOnePlace(cfg: Config, schedule: seq<Action>, record: int)
    requires ClaimSystem(cfg, record)
    requires Runs(cfg, Start(cfg), schedule) && Justified(cfg, Start(cfg), schedule)
    ensures var s := After(cfg, Start(cfg), schedule);
            && Bit(s.globals.gate) + Count(In(InFlight), cfg.scripts, s.locals) + Awaiting(cfg, s)
               + |s.globals.committed| + Count(In(Lost), cfg.scripts, s.locals) == 1
            && Awaiting(cfg, s) >= 0
            && (s.globals.committed == [] || s.globals.committed == [record])
  {
    StartSimulates(cfg);
    StartClaims(cfg, record);
    ClaimsFrom(cfg, Start(cfg), schedule, record);
    PlacesAddUp(cfg, After(cfg, Start(cfg), schedule), record);
  }

  // ----- when nothing panics -----

  /** No callback of the claim panics under or after the guard, and a rollback completes. */
  ghost predicate Orderly(cb: Callbacks) {
    && cb.release.Returned?
    && (forall token :: cb.task(token).ending.Finishes?)
    && (cb.commit.Some? ==> forall token :: !cb.commit.value(token).FinalizePanics?)
    && (if cb.rollback.Some? then forall token, cause :: cb.rollback.value(token, cause).Finalized?
        else forall token :: cb.dropToken(token).Returned?)
  }

  /** An orderly claim that is over was written or may be retried. */
  lemma OrderlyClaimNotLost(script: Script, l: Local)
    requires script.entry.LifecycleEntry? && script.callbacks.commit.Some?
    requires Orderly(script.callbacks) && Resolves(script, l.callbacks) && Follows(script.entry, l)
    ensures !InClass(Lost, script, l)
  {
    var entry, cb := script.entry, l.callbacks;
    if Finished(l.pc) && VerdictAt(script, l).Accepted? {
      var given := Given(entry, cb);
      BlockCases(entry, cb);
      var locked := Ok(LockedValue(cb, given));
      MeaningAfterLock(entry, cb, locked);
      var (ending, events) := Finalization(entry, cb, TokenAfter(cb, given), locked);
      assert |events| == 1;
      assert Meaning(entry, cb).1[|Meaning(entry, cb).1| - 1] == events[0];
      OrderlyFinalization(entry, cb, TokenAfter(cb, given), cb.task(given).ending.result);
    }
  }

  lemma OrderlyFinalization(entry: Entry, cb: Callbacks, token: Token, result: Result<Owned, Owned>)
    requires entry.LifecycleEntry? && cb.commit.Some? && Orderly(cb)
    ensures var (ending, events) := Finalization(entry, cb, token, Ok(LockedExecution.Task(result)));
            && !EndsInAbort(ending)
            && (MayRetry(ending) || (events[0].CommitRan? && events[0].finalizer.Finalized?))
  {
  }

  /** On runs without such panics nothing is lost: the four places always add up to one. */
  lemma NothingIsLost(cfg: Config, schedule: seq<Action>, record: int)
    requires ClaimSystem(cfg, record)
    requires forall i :: 0 <= i < |cfg.scripts| ==> Orderly(cfg.scripts[i].callbacks)
    requires Runs(cfg, Start(cfg), schedule) && Justified(cfg, Start(cfg), schedule)
    ensures var s := After(cfg, Start(cfg), schedule);
            Bit(s.globals.gate) + Count(In(InFlight), cfg.scripts, s.locals) + Awaiting(cfg, s)
            + |s.globals.committed| == 1
  {
    WorkIsInOnePlace(cfg, schedule, record);
    InvariantAlways(cfg, schedule);
    var s := After(cfg, Start(cfg), schedule);
    forall i | 0 <= i < |s.locals|
      ensures !InClass(Lost, cfg.scripts[i], s.locals[i])
    {
      assert LocalInvariant(cfg.scripts[i], s.locals[i]) && Claims(cfg.scripts[i], record);
      OrderlyClaimNotLost(cfg.scripts[i], s.locals[i]);
    }
    CountNone(In(Lost), cfg.scripts, s.locals);
  }
}
