/** Who holds the lock in every reachable state, and what each invocation does while it holds it. */
module GuardDiscipline {
  import opened Panics
  import opened Outcomes
  import opened Tallies
  import opened Protocol

  /** The program points at which an invocation owns a guard. */
  predicate Holds(pc: Pc) {
    || pc.AtSecond? || pc.AtTaskStart? || pc.AtPublish? || pc.AtStore? || pc.AtTaskEnd?
    || pc.AtRelease? || pc.AtUnwindGuard?
  }

  /** An invocation's task body is running. */
  predicate InTask(pc: Pc) {
    pc.AtPublish? || pc.AtStore? || pc.AtTaskEnd?
  }

  /** The lock's own bookkeeping names exactly the invocations at guarded program points. */
  ghost predicate LockMatches(cfg: Config, s: State) {
    && |s.locals| == |cfg.scripts|
    && (forall i: nat :: s.globals.writer == HeldBy(i) <==>
          i < |s.locals| && Holds(s.locals[i].pc) && cfg.scripts[i].mode.Exclusive?)
    && (forall i: nat :: i in s.globals.readers <==>
          i < |s.locals| && Holds(s.locals[i].pc) && cfg.scripts[i].mode.SharedMode?)
    && (!s.globals.writer.Free? ==> s.globals.readers == {})
  }

  /** What a step from `l` to `l'` may do to the lock, by what it does to the invocation's own guard. */
  predicate GuardMoves(mode: Mode, i: nat, l: Local, l': Local, g: Globals, g': Globals) {
    && (Holds(l.pc) == Holds(l'.pc) ==> g'.writer == g.writer && g'.readers == g.readers)
    && (!Holds(l.pc) && Holds(l'.pc) ==>
          && Available(mode, g) && !g.poisoned
          && g'.writer == TakeGuard(mode, i, g).writer && g'.readers == TakeGuard(mode, i, g).readers)
    && (Holds(l.pc) && !Holds(l'.pc) ==>
          && g'.writer == LoseGuard(mode, i, g, false).writer && g'.readers == LoseGuard(mode, i, g, false).readers)
  }

  /** How one step moves the guard. */
  lemma GuardEffect(cfg: Config, i: nat, l: Local, g: Globals)
    requires i < |cfg.scripts| && CanStep(cfg.scripts[i], l, g)
    ensures var r := LocalStep(cfg, i, l, g); GuardMoves(cfg.scripts[i].mode, i, l, r.local, g, r.globals)
  {
    if Holds(l.pc) {
      HeldGuardEffect(cfg, i, l, g);
    }
  }

  lemma HeldGuardEffect(cfg: Config, i: nat, l: Local, g: Globals)
    requires i < |cfg.scripts| && CanStep(cfg.scripts[i], l, g) && Holds(l.pc)
    ensures var r := LocalStep(cfg, i, l, g); GuardMoves(cfg.scripts[i].mode, i, l, r.local, g, r.globals)
  {
  }

  lemma StepLockMatches(cfg: Config, s: State, a: Action)
    requires LockMatches(cfg, s) && Enabled(cfg, s, a)
    ensures LockMatches(cfg, Apply(cfg, s, a))
  {
    if a.Step? {
      GuardEffect(cfg, a.index, s.locals[a.index], s.globals);
    }
  }

  /** Mutual exclusion: a guard in exclusive mode excludes every other guard, and the environment. */
  lemma MutualExclusion(cfg: Config, s: State, i: nat, j: nat)
    requires LockMatches(cfg, s)
    requires i < |s.locals| && j < |s.locals| && i != j
    requires Holds(s.locals[i].pc) && Holds(s.locals[j].pc)
    ensures cfg.scripts[i].mode.SharedMode? && cfg.scripts[j].mode.SharedMode?
    ensures !s.globals.writer.HeldByEnvironment?
  {
    assert s.globals.writer == HeldBy(i) || i in s.globals.readers;
    assert s.globals.writer == HeldBy(j) || j in s.globals.readers;
  }

  // ----- the guard in an invocation's own trace -----

  /** Where an invocation is in the life of its one guard; `Breached` is a breach of discipline. */
  datatype Stage = NotYet | Held | Gone | Breached

  /** The events that need the guard. */
  predicate NeedsGuard(event: Event) {
    event.SecondCheckRan? || event.TaskStarted? || event.TaskEnded?
  }

  /** The events that must not happen under it. */
  predicate AvoidsGuard(event: Event) {
    event.InitialCheckRan? || event.PrepareRan? || event.TaskDropped? || Finalizes(event)
  }

  function GuardStep(stage: Stage, event: Event): Stage {
    match stage
    case NotYet =>
      (match event
       case InitialCheckRan(_) => NotYet
       case PrepareRan(_) => NotYet
       case TaskDropped(_) => Gone
       case AcquireRan(call) => if call.Returned? then Held else Gone
       case _ => Breached)
    case Held => if NeedsGuard(event) then Held else if event.GuardDropped? then Gone else Breached
    case Gone => if event.TaskDropped? || Finalizes(event) then Gone else Breached
    case Breached => Breached
  }

  /** The stage that a trace leads to, if every event of it respected the guard. */
  function GuardOver(trace: seq<Event>): Stage {
    if trace == [] then NotYet
    else GuardStep(GuardOver(trace[..|trace| - 1]), trace[|trace| - 1])
  }

  /** The stage of an invocation at a program point. */
  function StageAt(pc: Pc): Stage {
    if Holds(pc) then Held
    else if pc.AtInitial? || pc.AtPrepare? || pc.AtAcquire? || pc.AtSkip? then NotYet
    else Gone
  }

  lemma GuardSnoc(trace: seq<Event>, event: Event)
    ensures GuardOver(trace + [event]) == GuardStep(GuardOver(trace), event)
  {
    assert (trace + [event])[..|trace|] == trace;
  }

  /** Just before its `k`-th event the trace has a guard that it acquired and has not dropped since. */
  ghost predicate Guarded(trace: seq<Event>, k: nat)
    requires k <= |trace|
  {
    exists a :: 0 <= a < k && trace[a] == AcquireRan(Returned) && forall m :: a < m < k ==> !trace[m].GuardDropped?
  }

  /**
   One guard at most is ever acquired; the second check and the task lie between
   its acquisition and its drop, and everything else outside.
   */
  ghost predicate OneUninterruptedGuard(trace: seq<Event>) {
    && (forall a, b :: 0 <= a < b < |trace| && trace[a].AcquireRan? ==> !trace[b].AcquireRan?)
    && (forall k :: 0 <= k < |trace| && NeedsGuard(trace[k]) ==> Guarded(trace, k))
    && (forall k :: 0 <= k < |trace| && AvoidsGuard(trace[k]) ==> !Guarded(trace, k))
  }

  lemma GuardedPrefix(trace: seq<Event>, n: nat, k: nat)
    requires k <= n <= |trace|
    ensures Guarded(trace[..n], k) <==> Guarded(trace, k)
  {
    if Guarded(trace, k) {
      var a :| 0 <= a < k && trace[a] == AcquireRan(Returned) && forall m :: a < m < k ==> !trace[m].GuardDropped?;
      assert trace[..n][a] == AcquireRan(Returned);
    }
    if Guarded(trace[..n], k) {
      var a :| 0 <= a < k && trace[..n][a] == AcquireRan(Returned)
               && forall m :: a < m < k ==> !trace[..n][m].GuardDropped?;
      assert trace[a] == AcquireRan(Returned);
      assert forall m :: a < m < k ==> trace[m] == trace[..n][m];
    }
  }

  /** What the stage says about the trace it was read from. */
  lemma {:induction false} StageMeans(trace: seq<Event>)
    requires !GuardOver(trace).Breached?
    ensures OneUninterruptedGuard(trace)
    ensures GuardOver(trace).Held? <==> Guarded(trace, |trace|)
    ensures GuardOver(trace).NotYet? ==> forall e :: e in trace ==> !e.AcquireRan?
  {
    if trace != [] {
      var n := |trace| - 1;
      StageMeans(trace[..n]);
      GuardedLast(trace);
      GuardedPrefix(trace, n, n);
      assert forall e :: e in trace ==> e in trace[..n] || e == trace[n];
      OneGuardSnoc(trace);
    }
  }

  /** How one more event keeps the discipline. */
  lemma OneGuardSnoc(trace: seq<Event>)
    requires trace != []
    requires var n := |trace| - 1;
             && OneUninterruptedGuard(trace[..n])
             && (trace[n].AcquireRan? ==> forall e :: e in trace[..n] ==> !e.AcquireRan?)
             && (NeedsGuard(trace[n]) ==> Guarded(trace, n))
             && (AvoidsGuard(trace[n]) ==> !Guarded(trace, n))
    ensures OneUninterruptedGuard(trace)
  {
    var n := |trace| - 1;
    var before := trace[..n];
    forall a, b | 0 <= a < b < |trace| && trace[a].AcquireRan?
      ensures !trace[b].AcquireRan?
    {
      assert before[a] == trace[a] && before[a] in before;
      if b < n {
        assert before[b] == trace[b];
      }
    }
    forall k | 0 <= k < |trace|
      ensures (NeedsGuard(trace[k]) ==> Guarded(trace, k)) && (AvoidsGuard(trace[k]) ==> !Guarded(trace, k))
    {
      if k < n {
        assert before[k] == trace[k];
        GuardedPrefix(trace, n, k);
      }
    }
  }

  /** How the last event of a trace changes whether it has a guard. */
  lemma GuardedLast(trace: seq<Event>)
    requires trace != []
    ensures var n := |trace| - 1;
            Guarded(trace, |trace|) <==>
            trace[n] == AcquireRan(Returned) || (Guarded(trace, n) && !trace[n].GuardDropped?)
  {
    var n := |trace| - 1;
    if trace[n] == AcquireRan(Returned) {
      assert Guarded(trace, |trace|);
    }
    if Guarded(trace, n) && !trace[n].GuardDropped? {
      var a :| 0 <= a < n && trace[a] == AcquireRan(Returned) && forall m :: a < m < n ==> !trace[m].GuardDropped?;
      assert forall m :: a < m < |trace| ==> !trace[m].GuardDropped?;
    }
  }

  /** A step shows at most one event. */
  lemma ShowsAtMostOne(cfg: Config, i: nat, l: Local, g: Globals)
    requires i < |cfg.scripts| && CanStep(cfg.scripts[i], l, g)
    ensures var t := LocalStep(cfg, i, l, g).local.trace;
            |l.trace| <= |t| <= |l.trace| + 1 && t[..|l.trace|] == l.trace
  {
  }

  /** The event a step shows, if any, is one the guard's stage allows, and leads to the stage of the next point. */
  lemma EventRespectsGuard(cfg: Config, i: nat, l: Local, g: Globals)
    requires i < |cfg.scripts| && CanStep(cfg.scripts[i], l, g)
    ensures var l' := LocalStep(cfg, i, l, g).local;
            if |l'.trace| == |l.trace| then StageAt(l'.pc) == StageAt(l.pc)
            else |l'.trace| > |l.trace| && GuardStep(StageAt(l.pc), l'.trace[|l.trace|]) == StageAt(l'.pc)
  {
    ShowsAtMostOne(cfg, i, l, g);
    if Holds(l.pc) {
      HeldEvent(cfg, i, l, g);
    } else if l.pc.AtFinalize? {
      var events := Finalization(cfg.scripts[i].entry, l.callbacks, l.pc.token, l.pc.locked).1;
      assert |events| <= 1;
      assert LocalStep(cfg, i, l, g).local.trace == l.trace + events;
    }
  }

  lemma HeldEvent(cfg: Config, i: nat, l: Local, g: Globals)
    requires i < |cfg.scripts| && CanStep(cfg.scripts[i], l, g) && Holds(l.pc)
    ensures var l' := LocalStep(cfg, i, l, g).local;
            if |l'.trace| == |l.trace| then Holds(l'.pc)
            else |l'.trace| > |l.trace| && GuardStep(Held, l'.trace[|l.trace|]) == StageAt(l'.pc)
  {
  }

  /** Every step respects the guard in the invocation's own trace. */
  lemma StepGuards(cfg: Config, i: nat, l: Local, g: Globals)
    requires i < |cfg.scripts| && CanStep(cfg.scripts[i], l, g)
    requires GuardOver(l.trace) == StageAt(l.pc)
    ensures var l' := LocalStep(cfg, i, l, g).local; GuardOver(l'.trace) == StageAt(l'.pc)
  {
    ShowsAtMostOne(cfg, i, l, g);
    EventRespectsGuard(cfg, i, l, g);
    var t := LocalStep(cfg, i, l, g).local.trace;
    if |t| > |l.trace| {
      assert t == l.trace + [t[|l.trace|]];
      GuardSnoc(l.trace, t[|l.trace|]);
    } else {
      assert t == l.trace;
    }
  }
}
