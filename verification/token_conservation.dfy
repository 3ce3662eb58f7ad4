/** No token is lost, duplicated or finalized by an invocation other than its own. */
module TokenConservation {
  import opened Wrappers
  import opened Panics
  import opened Outcomes
  import opened LockedPhase
  import opened Tallies
  import opened Protocol
  import opened Counting
  import opened Projection
  import opened GuardDiscipline
  import opened Reachable

  // ----- counting -----

  function Total(kind: Kind, locals: seq<Local>): nat {
    if locals == [] then 0 else Tally(kind, locals[0].trace) + Total(kind, locals[1..])
  }

  /** The invocation has a token it has not finalized. */
  predicate Live(script: Script, l: Local) {
    OwnsToken(script, l.pc)
  }

  predicate Aborted(script: Script, l: Local) {
    l.pc.AtAbort?
  }

  /** Tokens stranded in the frames of an invocation that took the process down. */
  function Stranded(locals: seq<Local>): int {
    if locals == [] then 0
    else
      (if locals[0].pc.AtAbort? then Tally(Preparing, locals[0].trace) - Tally(Finalizing, locals[0].trace) else 0)
      + Stranded(locals[1..])
  }

  lemma {:induction false} Balance(scripts: seq<Script>, locals: seq<Local>)
    requires |scripts| == |locals|
    requires forall i :: 0 <= i < |locals| ==> TokenBalanced(scripts[i], locals[i])
    ensures Total(Preparing, locals) ==
            Count(Live, scripts, locals) + Stranded(locals)
            + Total(Committing, locals) + Total(RollingBack, locals) + Total(DroppingToken, locals)
    ensures 0 <= Stranded(locals) <= Count(Aborted, scripts, locals)
  {
    if locals != [] {
      assert TokenBalanced(scripts[0], locals[0]);
      FinalizationsSplit(locals[0].trace);
      forall i | 0 <= i < |locals| - 1
        ensures TokenBalanced(scripts[1..][i], locals[1..][i])
      {
        assert TokenBalanced(scripts[i + 1], locals[i + 1]);
      }
      Balance(scripts[1..], locals[1..]);
    }
  }

  /**
   Conservation: in every reachable state the tokens prepared so far are the
   live ones, those handed to commit, those handed to rollback, those dropped
   without a callback, and at most one for each invocation that aborted.
   */
  lemma TokensConserved(cfg: Config, schedule: seq<Action>)
    requires Runs(cfg, Start(cfg), schedule)
    ensures var locals := After(cfg, Start(cfg), schedule).locals;
            && Total(Preparing, locals) ==
                 Count(Live, cfg.scripts, locals) + Stranded(locals)
                 + Total(Committing, locals) + Total(RollingBack, locals) + Total(DroppingToken, locals)
            && 0 <= Stranded(locals) <= Count(Aborted, cfg.scripts, locals)
  {
    InvariantAlways(cfg, schedule);
    var s := After(cfg, Start(cfg), schedule);
    forall i | 0 <= i < |s.locals|
      ensures TokenBalanced(cfg.scripts[i], s.locals[i])
    {
      assert LocalInvariant(cfg.scripts[i], s.locals[i]);
    }
    Balance(cfg.scripts, s.locals);
  }

  /** Once every invocation has its outcome, every prepared token has been finalized. */
  lemma EveryTokenFinalized(cfg: Config, schedule: seq<Action>)
    requires Runs(cfg, Start(cfg), schedule)
    requires forall i :: 0 <= i < |cfg.scripts| ==> After(cfg, Start(cfg), schedule).locals[i].pc.AtDone?
    ensures var locals := After(cfg, Start(cfg), schedule).locals;
            Total(Preparing, locals) ==
            Total(Committing, locals) + Total(RollingBack, locals) + Total(DroppingToken, locals)
  {
    TokensConserved(cfg, schedule);
    var locals := After(cfg, Start(cfg), schedule).locals;
    CountNone(Live, cfg.scripts, locals);
    CountNone(Aborted, cfg.scripts, locals);
  }

  // ----- identity -----

  function TokenOf(event: Event): Token
    requires Finalizes(event)
  {
    event.token
  }

  ghost predicate Minted(trace: seq<Event>, id: nat) {
    exists pending :: PrepareRan(Prepared(Token(id, pending))) in trace
  }

  /** Identities given out so far are distinct and below the supply's next one. */
  ghost predicate MintedOnce(s: State) {
    && (forall i, id: nat :: 0 <= i < |s.locals| && Minted(s.locals[i].trace, id) ==> id < s.globals.nextToken)
    && (forall i, j, id: nat ::
          0 <= i < |s.locals| && 0 <= j < |s.locals| && Minted(s.locals[i].trace, id) && Minted(s.locals[j].trace, id)
          ==> i == j)
  }

  /** A token is consumed by an invocation's last event only, and it is the one that invocation prepared. */
  ghost predicate FinalizesOwn(entry: Entry, l: Local) {
    forall a :: 0 <= a < |l.trace| && Finalizes(l.trace[a]) ==>
      && Finished(l.pc)
      && a == |l.trace| - 1
      && Minted(l.trace, Given(entry, l.callbacks).id)
      && TokenOf(l.trace[a]) == TokenAfter(l.callbacks, Given(entry, l.callbacks))
  }

  /** The event a step shows mints the supply's next identity, or none. */
  lemma MintEffect(cfg: Config, i: nat, l: Local, g: Globals)
    requires i < |cfg.scripts| && CanStep(cfg.scripts[i], l, g)
    ensures var r := LocalStep(cfg, i, l, g);
            && (l.pc.AtPrepare? ==> r.globals.nextToken >= g.nextToken)
            && (!l.pc.AtPrepare? ==> r.globals.nextToken == g.nextToken)
            && (|r.local.trace| > |l.trace| && Matches(Preparing, r.local.trace[|l.trace|]) ==>
                  && r.local.trace[|l.trace|].preparation.token.id == g.nextToken
                  && r.globals.nextToken == g.nextToken + 1)
  {
    if l.pc.AtFinalize? {
      var events := Finalization(cfg.scripts[i].entry, l.callbacks, l.pc.token, l.pc.locked).1;
      assert |events| <= 1 && (events != [] ==> Finalizes(events[0]));
      assert LocalStep(cfg, i, l, g).local.trace == l.trace + events;
    }
  }

  lemma MintedSnoc(trace: seq<Event>, event: Event, id: nat)
    ensures Minted(trace + [event], id) <==>
            Minted(trace, id) || (Matches(Preparing, event) && event.preparation.token.id == id)
  {
    if Matches(Preparing, event) && event.preparation.token.id == id {
      var pending := event.preparation.token.pending;
      assert event == PrepareRan(Prepared(Token(id, pending)));
      assert PrepareRan(Prepared(Token(id, pending))) in trace + [event];
    }
    if Minted(trace, id) {
      var pending :| PrepareRan(Prepared(Token(id, pending))) in trace;
      assert PrepareRan(Prepared(Token(id, pending))) in trace + [event];
    }
  }

  lemma StepMintedOnce(cfg: Config, s: State, a: Action)
    requires |s.locals| == |cfg.scripts| && Enabled(cfg, s, a) && MintedOnce(s)
    ensures MintedOnce(Apply(cfg, s, a))
  {
    var s' := Apply(cfg, s, a);
    if a.Step? {
      var i := a.index;
      var l := s.locals[i];
      var t := s'.locals[i].trace;
      MintEffect(cfg, i, l, s.globals);
      ShowsAtMostOne(cfg, i, l, s.globals);
      if |t| > |l.trace| {
        assert t == l.trace + [t[|l.trace|]];
        forall id: nat {
          MintedSnoc(l.trace, t[|l.trace|], id);
        }
      } else {
        assert t == l.trace;
      }
      assert forall j :: 0 <= j < |s.locals| && j != i ==> s'.locals[j] == s.locals[j];
    } else {
      assert s'.locals == s.locals;
    }
  }

  /** Only finalization shows a finalizing event. */
  lemma OnlyFinalizeFinalizes(cfg: Config, i: nat, l: Local, g: Globals)
    requires i < |cfg.scripts| && CanStep(cfg.scripts[i], l, g) && !l.pc.AtFinalize?
    ensures var t := LocalStep(cfg, i, l, g).local.trace; |t| > |l.trace| ==> !Finalizes(t[|l.trace|])
  {
  }

  lemma StepFinalizesOwn(cfg: Config, i: nat, l: Local, g: Globals)
    requires i < |cfg.scripts| && CanStep(cfg.scripts[i], l, g)
    requires Follows(cfg.scripts[i].entry, l) && FinalizesOwn(cfg.scripts[i].entry, l)
    ensures FinalizesOwn(cfg.scripts[i].entry, LocalStep(cfg, i, l, g).local)
  {
    ShowsAtMostOne(cfg, i, l, g);
    var l' := LocalStep(cfg, i, l, g).local;
    assert forall a :: 0 <= a < |l.trace| ==> l'.trace[a] == l.trace[a] && !Finalizes(l.trace[a]);
    if l.pc.AtFinalize? {
      FinalizeConsumesOwn(cfg.scripts[i], l);
    } else {
      OnlyFinalizeFinalizes(cfg, i, l, g);
    }
  }

  lemma FinalizeConsumesOwn(script: Script, l: Local)
    requires l.pc.AtFinalize? && Follows(script.entry, l)
    ensures var l' := StepFinalize(script, l, l.pc.token, l.pc.locked);
            && Finished(l'.pc) && l'.callbacks == l.callbacks
            && (|l'.trace| > |l.trace| && Finalizes(l'.trace[|l.trace|]) ==>
                  && Minted(l'.trace, Given(script.entry, l.callbacks).id)
                  && TokenOf(l'.trace[|l.trace|]) == TokenAfter(l.callbacks, Given(script.entry, l.callbacks)))
  {
    var cb := l.callbacks;
    var events := Finalization(script.entry, cb, l.pc.token, l.pc.locked).1;
    var l' := StepFinalize(script, l, l.pc.token, l.pc.locked);
    assert l'.trace == l.trace + events;
    if script.entry.LifecycleEntry? {
      var token := cb.prepare.token;
      assert l.trace[1] == PrepareRan(Prepared(Token(token.id, token.pending)));
      assert l'.trace[1] == l.trace[1] && l'.trace[1] in l'.trace;
    }
  }

  lemma {:induction false} IdentityFrom(cfg: Config, s: State, schedule: seq<Action>)
    requires Invariant(cfg, s) && Runs(cfg, s, schedule) && MintedOnce(s)
    requires forall i :: 0 <= i < |s.locals| ==> FinalizesOwn(cfg.scripts[i].entry, s.locals[i])
    ensures var s' := After(cfg, s, schedule);
            && Invariant(cfg, s') && MintedOnce(s')
            && forall i :: 0 <= i < |s'.locals| ==> FinalizesOwn(cfg.scripts[i].entry, s'.locals[i])
    decreases |schedule|
  {
    if schedule != [] {
      var a := schedule[0];
      StepInvariant(cfg, s, a);
      StepMintedOnce(cfg, s, a);
      if a.Step? {
        assert LocalInvariant(cfg.scripts[a.index], s.locals[a.index]);
        StepFinalizesOwn(cfg, a.index, s.locals[a.index], s.globals);
      }
      IdentityFrom(cfg, Apply(cfg, s, a), schedule[1..]);
    }
  }

  /** Tasks change what their token carries, not which token it is. */
  ghost predicate TasksKeepIdentity(cfg: Config) {
    forall i, token :: 0 <= i < |cfg.scripts| ==> cfg.scripts[i].callbacks.task(token).token.id == token.id
  }

  /**
   Exactly one finalization per token: any two finalizing events of a run that
   carry the same identity are the same event of the same invocation, which is
   the one that prepared that token and left in it what its task left.
   */
  lemma EachTokenFinalizedOnce(cfg: Config, schedule: seq<Action>, i: nat, a: nat, j: nat, b: nat)
    requires forall k, token :: 0 <= k < |cfg.scripts| ==> cfg.scripts[k].callbacks.task(token).token.id == token.id
    requires Runs(cfg, Start(cfg), schedule)
    requires i < |cfg.scripts| && j < |cfg.scripts|
    requires var s := After(cfg, Start(cfg), schedule);
             && a < |s.locals[i].trace| && b < |s.locals[j].trace|
             && Finalizes(s.locals[i].trace[a]) && Finalizes(s.locals[j].trace[b])
             && TokenOf(s.locals[i].trace[a]).id == TokenOf(s.locals[j].trace[b]).id
    ensures i == j && a == b
    ensures var l := After(cfg, Start(cfg), schedule).locals[i];
            && Minted(l.trace, TokenOf(l.trace[a]).id)
            && TokenOf(l.trace[a]) == TokenAfter(l.callbacks, Given(cfg.scripts[i].entry, l.callbacks))
  {
    StartInvariant(cfg);
    assert forall k :: 0 <= k < |cfg.scripts| ==> Start(cfg).locals[k].trace == [];
    IdentityFrom(cfg, Start(cfg), schedule);
    var s := After(cfg, Start(cfg), schedule);
    assert FinalizesOwn(cfg.scripts[i].entry, s.locals[i]) && FinalizesOwn(cfg.scripts[j].entry, s.locals[j]);
    assert LocalInvariant(cfg.scripts[i], s.locals[i]) && LocalInvariant(cfg.scripts[j], s.locals[j]);
    OwnIdentity(cfg, i, s.locals[i]);
    OwnIdentity(cfg, j, s.locals[j]);
  }

  lemma OwnIdentity(cfg: Config, i: nat, l: Local)
    requires TasksKeepIdentity(cfg) && i < |cfg.scripts| && Resolves(cfg.scripts[i], l.callbacks)
    ensures var given := Given(cfg.scripts[i].entry, l.callbacks); TokenAfter(l.callbacks, given).id == given.id
  {
    var given := Given(cfg.scripts[i].entry, l.callbacks);
    assert cfg.scripts[i].callbacks.task(given).token.id == given.id;
  }

  /** The only token an invocation's sequential run mints is the one its prepare callback returned. */
  lemma MintsGiven(entry: Entry, cb: Callbacks)
    ensures forall e :: e in Meaning(entry, cb).1 && Matches(Preparing, e) ==> e == PrepareRan(cb.prepare)
    ensures forall e :: e in Meaning(entry, cb).1 && Matches(Preparing, e) ==> entry.LifecycleEntry?
  {
    if Opened(entry, cb) {
      BlockNeverPrepares(entry, cb);
      match BlockOf(entry, cb).end {
        case Completed => MintsNothingLate(entry, cb, Ok(LockedValue(cb, Given(entry, cb))));
        case Fails(caught) => MintsNothingLate(entry, cb, Err(caught));
        case Aborts => MeaningAborts(entry, cb);
      }
    }
  }

  lemma BlockNeverPrepares(entry: Entry, cb: Callbacks)
    ensures forall e :: e in BlockOf(entry, cb).trace ==> !e.PrepareRan?
  {
    BlockCases(entry, cb);
  }

  lemma MintsNothingLate(entry: Entry, cb: Callbacks, locked: Result<LockedExecution, Caught>)
    requires OnPath(entry, cb, AtFinalize(TokenAfter(cb, Given(entry, cb)), locked))
    requires forall e :: e in BlockOf(entry, cb).trace ==> !e.PrepareRan?
    ensures forall e :: e in Meaning(entry, cb).1 && Matches(Preparing, e) ==>
              e == PrepareRan(cb.prepare) && entry.LifecycleEntry?
  {
    MeaningAfterLock(entry, cb, locked);
    var events := Finalization(entry, cb, TokenAfter(cb, Given(entry, cb)), locked).1;
    assert forall e :: e in events ==> !e.PrepareRan?;
  }

  lemma {:induction false} TallyFinds(kind: Kind, trace: seq<Event>) returns (k: nat)
    requires Tally(kind, trace) > 0
    ensures k < |trace| && Matches(kind, trace[k])
  {
    if Matches(kind, trace[0]) {
      k := 0;
    } else {
      var rest := TallyFinds(kind, trace[1..]);
      k := rest + 1;
    }
  }

  lemma {:induction false} TallyCounts(kind: Kind, trace: seq<Event>, k: nat)
    requires k < |trace| && Matches(kind, trace[k])
    ensures Tally(kind, trace) > 0
  {
    if k > 0 {
      TallyCounts(kind, trace[1..], k - 1);
    }
  }

  /** A finished invocation has finalized the token it minted. */
  lemma DoneHasFinalized(script: Script, l: Local, id: nat) returns (a: nat)
    requires LocalInvariant(script, l) && FinalizesOwn(script.entry, l) && l.pc.AtDone? && Minted(l.trace, id)
    ensures a < |l.trace| && Finalizes(l.trace[a])
    ensures Given(script.entry, l.callbacks).id == id
  {
    var pending :| PrepareRan(Prepared(Token(id, pending))) in l.trace;
    var e := PrepareRan(Prepared(Token(id, pending)));
    var k :| 0 <= k < |l.trace| && l.trace[k] == e;
    TallyCounts(Preparing, l.trace, k);
    a := TallyFinds(Finalizing, l.trace);
    MintsGiven(script.entry, l.callbacks);
    assert e in Meaning(script.entry, l.callbacks).1;
  }

  /**
   Exactly once: a token that a finished invocation minted has one finalizing
   event in the whole system, which is that invocation's own and carries what
   its task left in the token.
   */
  lemma EachMintedTokenFinalizedExactlyOnce(cfg: Config, schedule: seq<Action>, i: nat, id: nat) returns (a: nat)
    requires forall k, token :: 0 <= k < |cfg.scripts| ==> cfg.scripts[k].callbacks.task(token).token.id == token.id
    requires Runs(cfg, Start(cfg), schedule) && i < |cfg.scripts|
    requires var l := After(cfg, Start(cfg), schedule).locals[i]; l.pc.AtDone? && Minted(l.trace, id)
    ensures var s := After(cfg, Start(cfg), schedule);
            && a < |s.locals[i].trace| && Finalizes(s.locals[i].trace[a])
            && TokenOf(s.locals[i].trace[a]).id == id
            && (forall j, b :: 0 <= j < |s.locals| && 0 <= b < |s.locals[j].trace|
                               && Finalizes(s.locals[j].trace[b]) && TokenOf(s.locals[j].trace[b]).id == id
                  ==> j == i && b == a)
  {
    StartInvariant(cfg);
    assert forall k :: 0 <= k < |cfg.scripts| ==> Start(cfg).locals[k].trace == [];
    IdentityFrom(cfg, Start(cfg), schedule);
    var s := After(cfg, Start(cfg), schedule);
    var l := s.locals[i];
    assert LocalInvariant(cfg.scripts[i], l) && FinalizesOwn(cfg.scripts[i].entry, l);
    a := DoneHasFinalized(cfg.scripts[i], l, id);
    OwnIdentity(cfg, i, l);
    forall j, b | 0 <= j < |s.locals| && 0 <= b < |s.locals[j].trace|
                  && Finalizes(s.locals[j].trace[b]) && TokenOf(s.locals[j].trace[b]).id == id
      ensures j == i && b == a
    {
      EachTokenFinalizedOnce(cfg, schedule, i, a, j, b);
    }
  }
}
