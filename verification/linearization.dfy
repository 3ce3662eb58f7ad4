/**
 Refinement: the double-checked system is simulated by one atomic object that
 tests the gate and runs the task in a single step, in exclusive mode and in
 paired shared/exclusive mode alike.
 */
module Linearization {
  import opened Wrappers
  import opened Panics
  import opened Outcomes
  import opened LockedPhase
  import opened Protocol
  import opened Projection
  import opened GuardDiscipline
  import opened Reachable

  /** Nothing in the script keeps the invocation from its task, once the gate is open. */
  predicate ReachesTask(script: Script) {
    && script.callbacks.first.Sees?
    && (script.entry.LifecycleEntry? ==> script.callbacks.prepare.Prepared?)
    && script.callbacks.acquire.Returned?
    && script.callbacks.second.Sees?
  }

  /** Two invocations can be in their tasks at once, and one of them closes the gate there. */
  predicate Conflict(cfg: Config, i: nat, j: nat) {
    && i < |cfg.scripts| && j < |cfg.scripts| && i != j
    && cfg.scripts[i].mode.SharedMode? && cfg.scripts[j].mode.SharedMode?
    && ReachesTask(cfg.scripts[i]) && ReachesTask(cfg.scripts[j])
    && cfg.scripts[i].store == Some(false)
  }

  /** No task that closes the gate can overlap another task. */
  ghost predicate ClosersExclude(cfg: Config) {
    forall i, j :: !Conflict(cfg, i, j)
  }

  /** An invocation that ever gets to its task is one whose script lets it. */
  lemma OnlyReachersRun(script: Script, l: Local)
    requires LocalInvariant(script, l) && (InTask(l.pc) || ReliesOnOpen(script, l.pc))
    ensures ReachesTask(script)
  {
  }

  // ----- the gate under a guard -----

  /** The invocation's second check saw the gate open and its own task has not stored it since. */
  predicate ReliesOnOpen(script: Script, pc: Pc) {
    match pc
    case AtTaskStart(_) => true
    case AtPublish(_) => true
    case AtStore(_) => true
    case AtTaskEnd(_) => script.store.None?
    case AtRelease(_, value) => value.Task? && script.store.None?
    case AtUnwindGuard(_, _, dropsTask) => !dropsTask && script.store.None?
    case _ => false
  }

  ghost predicate GateStable(cfg: Config, s: State)
    requires |s.locals| == |cfg.scripts|
  {
    forall i :: 0 <= i < |s.locals| && ReliesOnOpen(cfg.scripts[i], s.locals[i].pc) ==> s.globals.gate
  }

  /** A step changes the gate only as its own task's store. */
  lemma GateEffect(cfg: Config, i: nat, l: Local, g: Globals)
    requires i < |cfg.scripts| && CanStep(cfg.scripts[i], l, g)
    ensures LocalStep(cfg, i, l, g).globals.gate ==
            if l.pc.AtStore? && cfg.scripts[i].store.Some? then cfg.scripts[i].store.value else g.gate
  {
  }

  /** A step starts to rely on the gate only by reading it open. */
  lemma RelianceEffect(cfg: Config, i: nat, l: Local, g: Globals)
    requires i < |cfg.scripts| && CanStep(cfg.scripts[i], l, g)
    ensures var r := LocalStep(cfg, i, l, g);
            ReliesOnOpen(cfg.scripts[i], r.local.pc) ==>
              && r.globals.gate == g.gate
              && (ReliesOnOpen(cfg.scripts[i], l.pc) || g.gate)
  {
  }

  lemma EnvironmentExcludes(cfg: Config, s: State)
    requires LockMatches(cfg, s) && s.globals.writer.HeldByEnvironment?
    ensures forall i :: 0 <= i < |s.locals| ==> !Holds(s.locals[i].pc)
  {
    forall i | 0 <= i < |s.locals|
      ensures !Holds(s.locals[i].pc)
    {
      assert s.globals.writer != HeldBy(i) && i !in s.globals.readers;
    }
  }

  lemma StepGateStable(cfg: Config, s: State, a: Action)
    requires ClosersExclude(cfg) && Invariant(cfg, s) && GateStable(cfg, s) && Enabled(cfg, s, a)
    ensures GateStable(cfg, Apply(cfg, s, a))
  {
    var s' := Apply(cfg, s, a);
    match a
    case Step(j) =>
      GateEffect(cfg, j, s.locals[j], s.globals);
      RelianceEffect(cfg, j, s.locals[j], s.globals);
      forall i | 0 <= i < |s.locals| && ReliesOnOpen(cfg.scripts[i], s'.locals[i].pc)
        ensures s'.globals.gate
      {
        if i != j && s.locals[j].pc.AtStore? && cfg.scripts[j].store == Some(false)
           && ReliesOnOpen(cfg.scripts[i], s.locals[i].pc) {
          OverlapIsConflict(cfg, s, j, i);
        }
      }
    case EnvStore(_) => EnvironmentExcludes(cfg, s);
    case EnvAcquire =>
    case EnvStale =>
    case EnvRelease =>
  }

  /** A task about to close the gate while another invocation relies on it is a conflict of their scripts. */
  lemma OverlapIsConflict(cfg: Config, s: State, i: nat, j: nat)
    requires Invariant(cfg, s) && i < |s.locals| && j < |s.locals| && i != j
    requires s.locals[i].pc.AtStore? && cfg.scripts[i].store == Some(false)
    requires ReliesOnOpen(cfg.scripts[j], s.locals[j].pc)
    ensures Conflict(cfg, i, j)
  {
    MutualExclusion(cfg, s, i, j);
    assert LocalInvariant(cfg.scripts[i], s.locals[i]) && LocalInvariant(cfg.scripts[j], s.locals[j]);
    OnlyReachersRun(cfg.scripts[i], s.locals[i]);
    OnlyReachersRun(cfg.scripts[j], s.locals[j]);
  }

  // ----- the atomic object -----

  /** The reference object: one indivisible test of the gate followed by the task's store. */
  function TestAndRun(open: bool, store: Option<bool>): (bool, bool) {
    if !open then (false, open)
    else (true, if store.Some? then store.value else open)
  }

  /** One log entry as an operation on the atomic object; None when the object would answer otherwise. */
  function AtomicStep(open: bool, entry: LogEntry): Option<bool> {
    match entry
    case Rejects(_) => if TestAndRun(open, None).0 then None else Some(open)
    case Accepts(_, store) => if TestAndRun(open, store).0 then Some(TestAndRun(open, store).1) else None
    case External(value) => Some(value)
  }

  /** The state of the atomic object after a log, if it gives every answer the log records. */
  function Replay(open: bool, log: seq<LogEntry>): Option<bool> {
    if log == [] then Some(open)
    else match Replay(open, log[..|log| - 1])
      case None => None
      case Some(state) => AtomicStep(state, log[|log| - 1])
  }

  predicate OwnedBy(entry: LogEntry, i: nat) {
    !entry.External? && entry.index == i
  }

  /** The operations of one invocation in a log. */
  function Own(log: seq<LogEntry>, i: nat): seq<LogEntry> {
    if log == [] then []
    else Own(log[..|log| - 1], i) + (if OwnedBy(log[|log| - 1], i) then [log[|log| - 1]] else [])
  }

  lemma ReplaySnoc(open: bool, log: seq<LogEntry>, entry: LogEntry)
    ensures Replay(open, log + [entry]) ==
            match Replay(open, log)
            case None => None
            case Some(state) => AtomicStep(state, entry)
    ensures forall i :: Own(log + [entry], i) == Own(log, i) + if OwnedBy(entry, i) then [entry] else []
  {
    assert (log + [entry])[..|log|] == log;
  }

  // ----- what each invocation has decided -----

  datatype Verdict = Undecided | Rejected | Accepted

  /** The verdict of an invocation that is past its locked phase or never reached it. */
  function FinalVerdict(entry: Entry, cb: Callbacks): Verdict {
    if cb.first == Sees(false) then Rejected
    else if !Locks(entry, cb) || cb.second.CheckPanics? then Undecided
    else if cb.second.open then Accepted else Rejected
  }

  /** The verdict at every program point: a rejection at its read, an acceptance at its store or its end. */
  function VerdictAt(script: Script, l: Local): Verdict {
    match l.pc
    case AtTaskEnd(_) => if script.store.Some? then Accepted else Undecided
    case AtRelease(_, value) => if value.Task? then Accepted else Rejected
    case AtCleanup(_) => Rejected
    case AtUnwindGuard(_, _, dropsTask) => if dropsTask then Undecided else Accepted
    case AtUnwindTask(_, caught) => if caught.phase.LockRelease? then Rejected else Undecided
    case AtUnwindResult(_, _, _) => Accepted
    case AtSkip(why) => if why.SkipRejected? then Rejected else Undecided
    case AtFinalize(_, _) => FinalVerdict(script.entry, l.callbacks)
    case AtDone(_) => FinalVerdict(script.entry, l.callbacks)
    case AtAbort => FinalVerdict(script.entry, l.callbacks)
    case _ => Undecided
  }

  function Operations(script: Script, i: nat, verdict: Verdict): seq<LogEntry> {
    match verdict
    case Undecided => []
    case Rejected => [Rejects(i)]
    case Accepted => [Accepts(i, script.store)]
  }

  /** The log is a run of the atomic object that holds exactly the operations decided so far. */
  ghost predicate Linearizes(cfg: Config, s: State)
    requires |s.locals| == |cfg.scripts|
  {
    && Replay(cfg.initiallyOpen, s.globals.log) == Some(s.globals.gate)
    && (forall i :: 0 <= i < |s.locals| ==>
          Own(s.globals.log, i) == Operations(cfg.scripts[i], i, VerdictAt(cfg.scripts[i], s.locals[i])))
    && (forall i :: |s.locals| <= i ==> Own(s.globals.log, i) == [])
  }

  /** Invocation `i` going from `l` to `l'` extends the log by nothing, or by the operation it decides. */
  predicate Extends(script: Script, i: nat, l: Local, l': Local, g: Globals, g': Globals) {
    var was := VerdictAt(script, l);
    var now := VerdictAt(script, l');
    if was == now then g'.log == g.log && g'.gate == g.gate
    else
      && was.Undecided?
      && match now
         case Undecided => false
         case Rejected => g'.log == g.log + [Rejects(i)] && !g.gate && !g'.gate
         case Accepted =>
           && g'.log == g.log + [Accepts(i, script.store)]
           && g.gate && g'.gate == TestAndRun(true, script.store).1
  }

  lemma LogEffect(cfg: Config, i: nat, l: Local, g: Globals)
    requires i < |cfg.scripts| && CanStep(cfg.scripts[i], l, g)
    requires OnPath(cfg.scripts[i].entry, l.callbacks, l.pc)
    requires ReliesOnOpen(cfg.scripts[i], l.pc) ==> g.gate
    ensures var r := LocalStep(cfg, i, l, g);
            Extends(cfg.scripts[i], i, l, r.local, g, r.globals)
  {
    if l.pc.AtInitial? || l.pc.AtSecond? {
      ReadDecides(cfg, i, l, g);
    } else if l.pc.AtStore? || l.pc.AtTaskEnd? {
      TaskDecides(cfg, i, l, g);
    } else {
      LogKept(cfg, i, l, g);
      VerdictKept(cfg, i, l, g);
    }
  }

  /** A read that sees the gate closed is a rejection; one that sees it open decides nothing yet. */
  lemma ReadDecides(cfg: Config, i: nat, l: Local, g: Globals)
    requires i < |cfg.scripts| && CanStep(cfg.scripts[i], l, g) && (l.pc.AtInitial? || l.pc.AtSecond?)
    ensures var r := LocalStep(cfg, i, l, g); Extends(cfg.scripts[i], i, l, r.local, g, r.globals)
  {
  }

  /** A store in the task, or the end of a task without one, is an acceptance. */
  lemma TaskDecides(cfg: Config, i: nat, l: Local, g: Globals)
    requires i < |cfg.scripts| && CanStep(cfg.scripts[i], l, g) && (l.pc.AtStore? || l.pc.AtTaskEnd?)
    requires ReliesOnOpen(cfg.scripts[i], l.pc) ==> g.gate
    ensures var r := LocalStep(cfg, i, l, g); Extends(cfg.scripts[i], i, l, r.local, g, r.globals)
  {
  }

  /** The program points at which a verdict can fall. */
  predicate Decides(pc: Pc) {
    pc.AtInitial? || pc.AtSecond? || pc.AtStore? || pc.AtTaskEnd?
  }

  lemma LogKept(cfg: Config, i: nat, l: Local, g: Globals)
    requires i < |cfg.scripts| && CanStep(cfg.scripts[i], l, g) && !Decides(l.pc)
    ensures var r := LocalStep(cfg, i, l, g); r.globals.log == g.log && r.globals.gate == g.gate
  {
    if l.pc.AtFinalize? || l.pc.AtSkip? {
      EndsQuietly(cfg, i, l, g);
    }
  }

  lemma VerdictKept(cfg: Config, i: nat, l: Local, g: Globals)
    requires i < |cfg.scripts| && CanStep(cfg.scripts[i], l, g) && !Decides(l.pc)
    requires OnPath(cfg.scripts[i].entry, l.callbacks, l.pc)
    ensures VerdictAt(cfg.scripts[i], LocalStep(cfg, i, l, g).local) == VerdictAt(cfg.scripts[i], l)
  {
    var script := cfg.scripts[i];
    match l.pc {
      case AtPrepare => EarlyKeepsVerdict(script, l, g);
      case AtAcquire(_) => EarlyKeepsVerdict(script, l, g);
      case AtTaskStart(_) =>
      case AtPublish(_) =>
      case AtRelease(_, _) => ReleaseKeepsVerdict(script, l);
      case AtCleanup(_) => ReleaseKeepsVerdict(script, l);
      case AtUnwindGuard(_, _, _) => UnwindKeepsVerdict(script, l);
      case AtUnwindTask(_, _) => UnwindKeepsVerdict(script, l);
      case AtUnwindResult(_, _, _) => UnwindKeepsVerdict(script, l);
      case AtFinalize(_, _) => EndsQuietly(cfg, i, l, g);
      case AtSkip(_) => EndsQuietly(cfg, i, l, g);
    }
  }

  lemma EarlyKeepsVerdict(script: Script, l: Local, g: Globals)
    ensures l.pc.AtPrepare? ==> VerdictAt(script, StepPrepare(script, l, g)).Undecided?
    ensures l.pc.AtAcquire? ==> VerdictAt(script, StepAcquire(script, l, g, l.pc.token)).Undecided?
  {
  }

  /** The last step of an invocation leaves the lock, the gate and the log alone. */
  lemma EndsQuietly(cfg: Config, i: nat, l: Local, g: Globals)
    requires i < |cfg.scripts| && (l.pc.AtFinalize? || l.pc.AtSkip?)
    ensures var r := LocalStep(cfg, i, l, g);
            && Finished(r.local.pc)
            && r.local.callbacks == l.callbacks
            && r.globals == g.(committed := r.globals.committed, aborted := r.globals.aborted)
  {
  }

  lemma ReleaseKeepsVerdict(script: Script, l: Local)
    requires OnPath(script.entry, l.callbacks, l.pc)
    ensures l.pc.AtRelease? ==>
              VerdictAt(script, StepRelease(script, l, l.pc.token, l.pc.value)) == VerdictAt(script, l)
    ensures l.pc.AtCleanup? ==>
              VerdictAt(script, StepCleanup(l, l.pc.token)) == VerdictAt(script, l)
  {
  }

  lemma UnwindKeepsVerdict(script: Script, l: Local)
    requires OnPath(script.entry, l.callbacks, l.pc)
    ensures l.pc.AtUnwindGuard? ==>
              VerdictAt(script, StepUnwindGuard(l, l.pc.token, l.pc.caught, l.pc.dropsTask))
              == VerdictAt(script, l)
    ensures l.pc.AtUnwindTask? ==>
              VerdictAt(script, StepUnwindTask(l, l.pc.token, l.pc.caught)) == VerdictAt(script, l)
    ensures l.pc.AtUnwindResult? ==>
              VerdictAt(script, StepUnwindResult(l, l.pc.token, l.pc.caught, l.pc.dropped))
              == VerdictAt(script, l)
  {
  }

  lemma ExtendsLinearizes(cfg: Config, s: State, i: nat, l': Local, g': Globals)
    requires |s.locals| == |cfg.scripts| && i < |s.locals|
    requires Linearizes(cfg, s)
    requires Extends(cfg.scripts[i], i, s.locals[i], l', s.globals, g')
    ensures Linearizes(cfg, State(g', s.locals[i := l']))
    ensures s.globals.log <= g'.log
  {
    var g := s.globals;
    if VerdictAt(cfg.scripts[i], s.locals[i]) != VerdictAt(cfg.scripts[i], l') {
      var entry := g'.log[|g.log|];
      assert g'.log == g.log + [entry];
      ReplaySnoc(cfg.initiallyOpen, g.log, entry);
    }
  }

  lemma StepLinearizes(cfg: Config, s: State, a: Action)
    requires Invariant(cfg, s) && GateStable(cfg, s) && Linearizes(cfg, s)
    requires Enabled(cfg, s, a)
    ensures Linearizes(cfg, Apply(cfg, s, a))
    ensures s.globals.log <= Apply(cfg, s, a).globals.log
  {
    if a.Step? {
      StepExtends(cfg, s, a.index);
      var r := LocalStep(cfg, a.index, s.locals[a.index], s.globals);
      ExtendsLinearizes(cfg, s, a.index, r.local, r.globals);
    } else {
      EnvironmentLinearizes(cfg, s, a);
    }
  }

  lemma StepExtends(cfg: Config, s: State, i: nat)
    requires Invariant(cfg, s) && GateStable(cfg, s) && Enabled(cfg, s, Step(i))
    ensures var r := LocalStep(cfg, i, s.locals[i], s.globals);
            Extends(cfg.scripts[i], i, s.locals[i], r.local, s.globals, r.globals)
  {
    assert LocalInvariant(cfg.scripts[i], s.locals[i]);
    LogEffect(cfg, i, s.locals[i], s.globals);
  }

  lemma EnvironmentLinearizes(cfg: Config, s: State, a: Action)
    requires |s.locals| == |cfg.scripts| && Linearizes(cfg, s) && Enabled(cfg, s, a) && !a.Step?
    ensures Linearizes(cfg, Apply(cfg, s, a))
    ensures s.globals.log <= Apply(cfg, s, a).globals.log
  {
    if a.EnvStore? {
      ReplaySnoc(cfg.initiallyOpen, s.globals.log, External(a.open));
    }
  }

  /** Everything the linearization argument keeps. */
  ghost predicate Simulates(cfg: Config, s: State) {
    Invariant(cfg, s) && GateStable(cfg, s) && Linearizes(cfg, s)
  }

  lemma StartSimulates(cfg: Config)
    ensures Simulates(cfg, Start(cfg))
  {
    StartInvariant(cfg);
    var s := Start(cfg);
    forall i | 0 <= i < |s.locals|
      ensures s.locals[i] == Local(cfg.scripts[i].callbacks, AtInitial, [])
    {
    }
  }

  lemma StepSimulates(cfg: Config, s: State, a: Action)
    requires ClosersExclude(cfg) && Simulates(cfg, s) && Enabled(cfg, s, a)
    ensures Simulates(cfg, Apply(cfg, s, a))
    ensures s.globals.log <= Apply(cfg, s, a).globals.log
  {
    StepInvariant(cfg, s, a);
    StepGateStable(cfg, s, a);
    StepLinearizes(cfg, s, a);
  }

  lemma {:induction false} SimulatesFrom(cfg: Config, s: State, schedule: seq<Action>)
    requires ClosersExclude(cfg) && Simulates(cfg, s) && Runs(cfg, s, schedule)
    ensures Simulates(cfg, After(cfg, s, schedule))
    ensures s.globals.log <= After(cfg, s, schedule).globals.log
    decreases |schedule|
  {
    if schedule != [] {
      StepSimulates(cfg, s, schedule[0]);
      SimulatesFrom(cfg, Apply(cfg, s, schedule[0]), schedule[1..]);
    }
  }

  // ----- what the log keeps of the environment -----

  /** The stores of the environment in a log. */
  function Externals(log: seq<LogEntry>): seq<bool> {
    if log == [] then []
    else Externals(log[..|log| - 1]) + (if log[|log| - 1].External? then [log[|log| - 1].open] else [])
  }

  /** The stores of the environment in a schedule. */
  function Stores(schedule: seq<Action>): seq<bool> {
    if schedule == [] then []
    else (if schedule[0].EnvStore? then [schedule[0].open] else []) + Stores(schedule[1..])
  }

  lemma ExternalsSnoc(log: seq<LogEntry>, entry: LogEntry)
    ensures Externals(log + [entry]) == Externals(log) + if entry.External? then [entry.open] else []
  {
    assert (log + [entry])[..|log|] == log;
  }

  /** A step of an invocation logs an operation of its own or nothing. */
  lemma LogsOwn(cfg: Config, i: nat, l: Local, g: Globals)
    requires i < |cfg.scripts| && CanStep(cfg.scripts[i], l, g)
    ensures var log' := LocalStep(cfg, i, l, g).globals.log;
            log' == g.log || exists entry :: OwnedBy(entry, i) && log' == g.log + [entry]
  {
    if !Decides(l.pc) {
      LogKept(cfg, i, l, g);
    } else {
      var log' := LocalStep(cfg, i, l, g).globals.log;
      assert log' == g.log || (OwnedBy(log'[|g.log|], i) && log' == g.log + [log'[|g.log|]]);
    }
  }

  /** The environment's stores stand in the log in the order in which they happened. */
  lemma {:induction false} LogKeepsStores(cfg: Config, s: State, schedule: seq<Action>)
    requires |s.locals| == |cfg.scripts| && Runs(cfg, s, schedule)
    ensures Externals(After(cfg, s, schedule).globals.log) == Externals(s.globals.log) + Stores(schedule)
    decreases |schedule|
  {
    if schedule != [] {
      StepKeepsStores(cfg, s, schedule[0]);
      LogKeepsStores(cfg, Apply(cfg, s, schedule[0]), schedule[1..]);
    }
  }

  lemma StepKeepsStores(cfg: Config, s: State, a: Action)
    requires |s.locals| == |cfg.scripts| && Enabled(cfg, s, a)
    ensures Externals(Apply(cfg, s, a).globals.log) ==
            Externals(s.globals.log) + if a.EnvStore? then [a.open] else []
  {
    match a
    case Step(i) =>
      LogsOwn(cfg, i, s.locals[i], s.globals);
      var log' := LocalStep(cfg, i, s.locals[i], s.globals).globals.log;
      if log' != s.globals.log {
        var entry :| OwnedBy(entry, i) && log' == s.globals.log + [entry];
        ExternalsSnoc(s.globals.log, entry);
      }
    case EnvStore(open) => ExternalsSnoc(s.globals.log, External(open));
    case EnvAcquire =>
    case EnvStale =>
    case EnvRelease =>
  }

  // ----- main results -----

  /** The verdict an ending shows, when it shows one. */
  function ShownVerdict(ending: Ending): Option<Verdict> {
    match ending
    case BasicPlain(Return(outcome)) => Some(if outcome.ConditionNotMet? then Rejected else Accepted)
    case BasicCaptured(Return(Ok(outcome))) => Some(if outcome.ConditionNotMet? then Rejected else Accepted)
    case LifecyclePlain(Return(outcome)) =>
      (match outcome
       case InitialConditionNotMet => Some(Rejected)
       case PrepareFailed(_) => Some(Undecided)
       case SecondConditionNotMet(_) => Some(Rejected)
       case _ => Some(Accepted))
    case LifecycleCaptured(Return(outcome)) =>
      (match outcome
       case InitialConditionNotMet => Some(Rejected)
       case InitialConditionCheckPanicked(_) => Some(Undecided)
       case TaskCleanupPanicked(_) => Some(Rejected)
       case PrepareFailed(_) => Some(Undecided)
       case PreparePanicked(_) => Some(Undecided)
       case SecondConditionNotMet(_) => Some(Rejected)
       case TaskSucceeded(_, _) => Some(Accepted)
       case TaskFailed(_, _) => Some(Accepted)
       case ExecutionPanicked(_, _) => None)
    case _ => None
  }

  /** Which outcomes show which verdict; a panic after the lock shows none. */
  lemma VerdictsShown(value: Owned, error: Owned, panic: Caught)
    ensures forall capture :: ShownVerdict(BasicReturn(capture, ExecutionOutcome.ConditionNotMet)) == Some(Rejected)
    ensures forall capture :: ShownVerdict(BasicReturn(capture, Success(value))) == Some(Accepted)
    ensures forall capture :: ShownVerdict(BasicReturn(capture, ExecutionOutcome.TaskFailed(error))) == Some(Accepted)
    ensures forall outcome :: ShownVerdict(LifecyclePlain(Return(outcome))) ==
              Some(if outcome.InitialConditionNotMet? || outcome.SecondConditionNotMet? then Rejected
                   else if outcome.TaskSucceeded? || outcome.TaskFailed? then Accepted else Undecided)
    ensures forall outcome :: ShownVerdict(LifecycleCaptured(Return(outcome))) ==
              if outcome.ExecutionPanicked? then None
              else Some(if outcome.InitialConditionNotMet? || outcome.SecondConditionNotMet?
                           || outcome.TaskCleanupPanicked? then Rejected
                        else if outcome.TaskSucceeded? || outcome.TaskFailed? then Accepted else Undecided)
  {
  }

  function BasicReturn(capture: bool, outcome: ExecutionOutcome): Ending {
    if capture then BasicCaptured(Return(Ok(outcome))) else BasicPlain(Return(outcome))
  }

  /** A returned outcome always shows the verdict that was linearized. */
  lemma OutcomeShowsVerdict(entry: Entry, cb: Callbacks)
    ensures var shown := ShownVerdict(Meaning(entry, cb).0); shown.Some? ==> shown.value == FinalVerdict(entry, cb)
  {
    if Opened(entry, cb) {
      match BlockOf(entry, cb).end {
        case Completed => FinalizationShowsVerdict(entry, cb, Ok(LockedValue(cb, Given(entry, cb))));
        case Fails(caught) => FinalizationShowsVerdict(entry, cb, Err(caught));
        case Aborts => MeaningAborts(entry, cb);
      }
    }
  }

  lemma FinalizationShowsVerdict(entry: Entry, cb: Callbacks, locked: Result<LockedExecution, Caught>)
    requires OnPath(entry, cb, AtFinalize(TokenAfter(cb, Given(entry, cb)), locked))
    ensures var shown := ShownVerdict(Meaning(entry, cb).0); shown.Some? ==> shown.value == FinalVerdict(entry, cb)
  {
    MeaningAfterLock(entry, cb, locked);
    if locked.Ok? {
      CompletedVerdict(entry, cb);
    }
  }

  /** A completed locked phase holds a task's result exactly when the invocation was accepted. */
  lemma CompletedVerdict(entry: Entry, cb: Callbacks)
    requires Opened(entry, cb) && BlockOf(entry, cb).end.Completed?
    ensures FinalVerdict(entry, cb) == if LockedValue(cb, Given(entry, cb)).Task? then Accepted else Rejected
  {
    BlockCases(entry, cb);
  }

  /**
   The log holds exactly the operation that the invocation has decided so far;
   once it is done, that is the one its callbacks decide and its ending shows.
   */
  ghost predicate HasItsOperation(cfg: Config, s: State, i: nat)
    requires |s.locals| == |cfg.scripts| && i < |s.locals|
  {
    var l, script, operations := s.locals[i], cfg.scripts[i], Own(s.globals.log, i);
    && operations == Operations(script, i, VerdictAt(script, l))
    && (l.pc.AtDone? ==>
          && operations == Operations(script, i, FinalVerdict(script.entry, l.callbacks))
          && match ShownVerdict(l.pc.ending)
             case Some(verdict) => operations == Operations(script, i, verdict)
             case None => true)
  }

  /**
   Linearizability: for any number of invocations and any schedule, the log is
   a sequential run of the atomic object ending in the current gate. It holds
   the environment's stores in their order, for each invocation the operation
   it has decided, which is the one the outcome of a finished one shows, and
   nothing else.
   */
  lemma Linearizable(cfg: Config, schedule: seq<Action>)
    requires ClosersExclude(cfg) && Runs(cfg, Start(cfg), schedule)
    ensures var s := After(cfg, Start(cfg), schedule);
            && Replay(cfg.initiallyOpen, s.globals.log) == Some(s.globals.gate)
            && Externals(s.globals.log) == Stores(schedule)
            && (forall i :: 0 <= i < |s.locals| ==> HasItsOperation(cfg, s, i))
            && (forall i :: |s.locals| <= i ==> Own(s.globals.log, i) == [])
  {
    StartSimulates(cfg);
    SimulatesFrom(cfg, Start(cfg), schedule);
    var s := After(cfg, Start(cfg), schedule);
    LogKeepsStores(cfg, Start(cfg), schedule);
    forall i | 0 <= i < |s.locals|
      ensures HasItsOperation(cfg, s, i)
    {
      EachHasItsOperation(cfg, s, i);
    }
  }

  lemma EachHasItsOperation(cfg: Config, s: State, i: nat)
    requires Simulates(cfg, s) && i < |s.locals|
    ensures HasItsOperation(cfg, s, i)
  {
    assert LocalInvariant(cfg.scripts[i], s.locals[i]);
    OutcomeShowsVerdict(cfg.scripts[i].entry, s.locals[i].callbacks);
  }

  /**
   Real-time order: the log only grows, so an invocation that finished before
   another began has its operation in front of the other's.
   */
  lemma RealTimeOrder(cfg: Config, before: seq<Action>, schedule: seq<Action>, i: nat, j: nat)
    requires ClosersExclude(cfg) && Runs(cfg, Start(cfg), before)
    requires Runs(cfg, After(cfg, Start(cfg), before), schedule)
    requires i < |cfg.scripts| && j < |cfg.scripts|
    requires After(cfg, Start(cfg), before).locals[i].pc.AtDone?
    requires After(cfg, Start(cfg), before).locals[j].pc.AtInitial?
    ensures var log := After(cfg, After(cfg, Start(cfg), before), schedule).globals.log;
            forall a, b :: 0 <= a < |log| && 0 <= b < |log| && OwnedBy(log[a], i) && OwnedBy(log[b], j) ==> a < b
  {
    StartSimulates(cfg);
    SimulatesFrom(cfg, Start(cfg), before);
    var s := After(cfg, Start(cfg), before);
    SimulatesFrom(cfg, s, schedule);
    var s' := After(cfg, s, schedule);
    DoneStaysDone(cfg, s, schedule, i);
    assert VerdictAt(cfg.scripts[i], s'.locals[i]) == VerdictAt(cfg.scripts[i], s.locals[i]);
    LogsInOrder(s.globals.log, s'.globals.log, i, j);
  }

  lemma LogsInOrder(log: seq<LogEntry>, log': seq<LogEntry>, i: nat, j: nat)
    requires log <= log' && Own(log, j) == [] && Own(log', i) == Own(log, i)
    ensures forall a, b :: 0 <= a < |log'| && 0 <= b < |log'| && OwnedBy(log'[a], i) && OwnedBy(log'[b], j) ==> a < b
  {
    OwnNone(log, j);
    assert log'[..|log|] == log;
    OwnSuffix(log', |log|, i);
    assert forall b :: 0 <= b < |log| ==> log'[b] == log[b];
  }

  lemma {:induction false} DoneStaysDone(cfg: Config, s: State, schedule: seq<Action>, i: nat)
    requires |s.locals| == |cfg.scripts| && Runs(cfg, s, schedule) && i < |s.locals| && Finished(s.locals[i].pc)
    ensures After(cfg, s, schedule).locals[i] == s.locals[i]
    decreases |schedule|
  {
    if schedule != [] {
      assert Apply(cfg, s, schedule[0]).locals[i] == s.locals[i];
      DoneStaysDone(cfg, Apply(cfg, s, schedule[0]), schedule[1..], i);
    }
  }

  lemma {:induction false} OwnNone(log: seq<LogEntry>, i: nat)
    requires Own(log, i) == []
    ensures forall k :: 0 <= k < |log| ==> !OwnedBy(log[k], i)
  {
    if log != [] {
      OwnNone(log[..|log| - 1], i);
    }
  }

  /** Operations of an invocation behind a prefix that already holds them all do not exist. */
  lemma {:induction false} OwnSuffix(log: seq<LogEntry>, n: nat, i: nat)
    requires n <= |log| && Own(log, i) == Own(log[..n], i)
    ensures forall k :: n <= k < |log| ==> !OwnedBy(log[k], i)
  {
    if n < |log| {
      var shorter := log[..|log| - 1];
      assert shorter[..n] == log[..n];
      OwnGrows(shorter, n, i);
      OwnSuffix(shorter, n, i);
    }
  }

  lemma {:induction false} OwnGrows(log: seq<LogEntry>, n: nat, i: nat)
    requires n <= |log|
    ensures |Own(log[..n], i)| <= |Own(log, i)|
  {
    if n == |log| {
      assert log[..n] == log;
    } else {
      var shorter := log[..|log| - 1];
      assert shorter[..n] == log[..n];
      OwnGrows(shorter, n, i);
    }
  }

  /** Under a guard that it still holds, the second check saw the gate open, and the task has not stored it since. */
  predicate SawOpen(script: Script, l: Local) {
    && Holds(l.pc) && !l.pc.AtSecond? && l.callbacks.second == Sees(true)
    && (script.store.None? || l.pc.AtTaskStart? || l.pc.AtPublish? || l.pc.AtStore?)
  }

  lemma SawOpenRelies(script: Script, l: Local)
    requires OnPath(script.entry, l.callbacks, l.pc) && SawOpen(script, l)
    ensures ReliesOnOpen(script, l.pc)
  {
  }

  /**
   Shared and exclusive modes: in every reachable state a gate that an
   invocation's second check saw open is still open until its own store or its
   guard's drop, and a task in exclusive mode overlaps no other guard.
   */
  lemma GateHoldsUnderGuard(cfg: Config, schedule: seq<Action>, i: nat)
    requires ClosersExclude(cfg) && Runs(cfg, Start(cfg), schedule) && i < |cfg.scripts|
    ensures var s := After(cfg, Start(cfg), schedule);
            && (SawOpen(cfg.scripts[i], s.locals[i]) ==> s.globals.gate)
            && (InTask(s.locals[i].pc) && cfg.scripts[i].mode.Exclusive? ==>
                  && !s.globals.writer.HeldByEnvironment?
                  && forall j :: 0 <= j < |s.locals| && Holds(s.locals[j].pc) ==> j == i)
  {
    StartSimulates(cfg);
    SimulatesFrom(cfg, Start(cfg), schedule);
    var s := After(cfg, Start(cfg), schedule);
    assert LocalInvariant(cfg.scripts[i], s.locals[i]);
    if SawOpen(cfg.scripts[i], s.locals[i]) {
      SawOpenRelies(cfg.scripts[i], s.locals[i]);
    }
    if InTask(s.locals[i].pc) && cfg.scripts[i].mode.Exclusive? {
      assert s.globals.writer == HeldBy(i);
      forall j | 0 <= j < |s.locals| && Holds(s.locals[j].pc)
        ensures j == i
      {
        if j != i {
          MutualExclusion(cfg, s, i, j);
        }
      }
    }
  }
}
