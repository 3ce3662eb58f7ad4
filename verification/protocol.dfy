/**
 Any number of concurrent invocations, an environment, one lock and one gate.

 Steps are sequentially consistent. Which callback panics is fixed per
 invocation by its script; what the scripts do not decide (gate reads, token
 identities, acquisition of a poisoned lock) is resolved when the step happens
 and recorded in the invocation's own callbacks. A schedule is a list of
 actions, and running it is a function of the schedule.
 */
module Protocol {
  import opened Wrappers
  import opened Panics
  import opened Outcomes
  import opened DclExecutors
  import opened LifecycleSemantics

  datatype Mode = Exclusive | SharedMode

  /** Which of the four public entry points an invocation came through. */
  datatype Entry = BasicEntry(capture: bool) | LifecycleEntry(capture: bool)

  /**
   One invocation: its callbacks, how it locks, and what its task does to
   shared state: publish the current generation or not, then store the gate
   at most once.
   */
  datatype Script = Script(callbacks: Callbacks, entry: Entry, mode: Mode, publishes: bool, store: Option<bool>)

  datatype Config = Config(scripts: seq<Script>, poisoning: bool, initiallyOpen: bool)

  /** The result type of each entry point. */
  datatype Ending =
    | BasicPlain(basic: Flow<ExecutionOutcome>)
    | BasicCaptured(basicCaptured: Flow<Result<ExecutionOutcome, Caught>>)
    | LifecyclePlain(lifecycle: Flow<LifecycleOutcome>)
    | LifecycleCaptured(captured: Flow<CapturedLifecycleOutcome>)

  datatype Skip = SkipRejected | SkipPanicked(caught: Caught) | SkipPrepareFailed(error: Owned)

  datatype Pc =
    | AtInitial
    | AtPrepare
    | AtAcquire(token: Token)
    | AtSecond(token: Token)
    | AtTaskStart(token: Token)
    | AtPublish(token: Token)
    | AtStore(token: Token)
    | AtTaskEnd(token: Token)
    | AtRelease(token: Token, value: LockedExecution)
    | AtCleanup(token: Token)
    | AtUnwindGuard(token: Token, caught: Caught, dropsTask: bool)
    | AtUnwindTask(token: Token, caught: Caught)
    | AtUnwindResult(token: Token, caught: Caught, dropped: Call)
    | AtFinalize(token: Token, locked: Result<LockedExecution, Caught>)
    | AtSkip(why: Skip)
    | AtDone(ending: Ending)
    | AtAbort

  datatype Local = Local(callbacks: Callbacks, pc: Pc, trace: seq<Event>)

  datatype Holder = Free | HeldBy(index: nat) | HeldByEnvironment

  /** Linearization points, in order. */
  datatype LogEntry = Rejects(index: nat) | Accepts(index: nat, store: Option<bool>) | External(open: bool)

  datatype Globals = Globals(
    gate: bool,
    writer: Holder,
    readers: set<nat>,
    poisoned: bool,
    aborted: bool,
    nextToken: nat,
    generation: nat,
    cache: nat,
    committed: seq<int>,
    log: seq<LogEntry>)

  datatype State = State(globals: Globals, locals: seq<Local>)

  /** The environment takes the lock like a task; under it, it may store the gate and make the cache stale. */
  datatype Action = Step(index: nat) | EnvAcquire | EnvStore(open: bool) | EnvStale | EnvRelease

  const POISON := Inert(0)

  // ----- sequential meaning of an entry point -----

  function Meaning(entry: Entry, cb: Callbacks): (Ending, seq<Event>) {
    match entry
    case BasicEntry(false) => (BasicPlain(RunBasic(cb).flow), RunBasic(cb).trace)
    case BasicEntry(true) => (BasicCaptured(RunBasicCatching(cb).flow), RunBasicCatching(cb).trace)
    case LifecycleEntry(false) => (LifecyclePlain(RunWithToken(cb).flow), RunWithToken(cb).trace)
    case LifecycleEntry(true) => (LifecycleCaptured(RunWithTokenCatching(cb).flow), RunWithTokenCatching(cb).trace)
  }

  predicate EndsInAbort(ending: Ending) {
    match ending
    case BasicPlain(flow) => flow.Abort?
    case BasicCaptured(flow) => flow.Abort?
    case LifecyclePlain(flow) => flow.Abort?
    case LifecycleCaptured(flow) => flow.Abort?
  }

  /** Whether a finished task's result is destroyed when the guard's destructor panics. */
  predicate HoldsResult(entry: Entry, cb: Callbacks) {
    entry == BasicEntry(false) ==> cb.dropsReturnSlot
  }

  // ----- local endings -----

  /** The end of an invocation that never reached the lock: its unexecuted task has just been dropped. */
  function SkipEnding(entry: Entry, cb: Callbacks, why: Skip): Ending {
    match entry
    case BasicEntry(false) =>
      BasicPlain(match why
                 case SkipPanicked(caught) => DropsWhileUnwinding(cb.dropTask, caught.payload)
                 case _ => if cb.dropTask.Panicked? then Unwind(cb.dropTask.payload)
                           else Return(ExecutionOutcome.ConditionNotMet))
    case BasicEntry(true) =>
      BasicCaptured(match why
                    case SkipPanicked(caught) => Return(Err(caught))
                    case _ => if cb.dropTask.Panicked? then
                                Return(Err(Caught(PanicPhase.TaskCleanup, cb.dropTask.payload)))
                              else Return(Ok(ExecutionOutcome.ConditionNotMet)))
    case LifecycleEntry(false) =>
      LifecyclePlain(match why
                     case SkipPanicked(caught) => DropsWhileUnwinding(cb.dropTask, caught.payload)
                     case SkipPrepareFailed(error) => ReturnsPrepareError(cb, error)
                     case SkipRejected => if cb.dropTask.Panicked? then Unwind(cb.dropTask.payload)
                                          else Return(LifecycleOutcome.InitialConditionNotMet))
    case LifecycleEntry(true) =>
      LifecycleCaptured(match why
                        case SkipPanicked(caught) =>
                          if caught.phase.Prepare? then Return(PreparePanicked(caught))
                          else Return(InitialConditionCheckPanicked(caught))
                        case SkipPrepareFailed(error) => Return(CapturedLifecycleOutcome.PrepareFailed(error))
                        case SkipRejected =>
                          if cb.dropTask.Panicked? then
                            Return(TaskCleanupPanicked(Caught(PanicPhase.TaskCleanup, cb.dropTask.payload)))
                          else Return(CapturedLifecycleOutcome.InitialConditionNotMet))
  }

  /** The end of an invocation whose locked phase is over and whose guard is gone. */
  function Finalization(entry: Entry, cb: Callbacks, token: Token, locked: Result<LockedExecution, Caught>):
    (Ending, seq<Event>)
  {
    match entry
    case BasicEntry(false) =>
      (BasicPlain(match locked
                  case Ok(value) => Return(value.IntoOutcome())
                  case Err(caught) => Unwind(caught.payload)), [])
    case BasicEntry(true) =>
      (BasicCaptured(match locked
                     case Ok(value) => Return(Ok(value.IntoOutcome()))
                     case Err(caught) => Return(Err(caught))), [])
    case LifecycleEntry(false) =>
      var finish := FinishLocked(cb, token, Return(locked));
      (LifecyclePlain(finish.flow), finish.trace)
    case LifecycleEntry(true) =>
      var finish := FinishLockedCatching(cb, token, Return(locked));
      (LifecycleCaptured(finish.flow), finish.trace)
  }

  // ----- locking -----

  predicate Available(mode: Mode, g: Globals) {
    g.writer.Free? && (mode.Exclusive? ==> g.readers == {})
  }

  function TakeGuard(mode: Mode, i: nat, g: Globals): Globals {
    match mode
    case Exclusive => g.(writer := HeldBy(i))
    case SharedMode => g.(readers := g.readers + {i})
  }

  /** Dropping a guard releases its mode; an exclusive one dropped by an unwind poisons a poisoning lock. */
  function LoseGuard(mode: Mode, i: nat, g: Globals, poisons: bool): Globals {
    match mode
    case Exclusive => g.(writer := Free, poisoned := g.poisoned || poisons)
    case SharedMode => g.(readers := g.readers - {i})
  }

  // ----- one step of one invocation: what it does itself -----

  function Go(l: Local, events: seq<Event>, pc: Pc): Local {
    l.(pc := pc, trace := l.trace + events)
  }

  function Read(check: Check, gate: bool): Check {
    if check.CheckPanics? then check else Sees(gate)
  }

  function StepInitial(script: Script, l: Local, g: Globals): Local {
    var check := Read(script.callbacks.first, g.gate);
    var l' := l.(callbacks := l.callbacks.(first := check));
    Go(l', [InitialCheckRan(check)],
       match check
       case CheckPanics(p) => AtSkip(SkipPanicked(Caught(PanicPhase.InitialConditionCheck, p)))
       case Sees(false) => AtSkip(SkipRejected)
       case Sees(true) => if script.entry.BasicEntry? then AtAcquire(UNIT_TOKEN) else AtPrepare)
  }

  function StepPrepare(script: Script, l: Local, g: Globals): Local {
    match script.callbacks.prepare
    case Prepared(token) =>
      var minted := token.(id := g.nextToken);
      var l' := l.(callbacks := l.callbacks.(prepare := Prepared(minted)));
      Go(l', [PrepareRan(Prepared(minted))], AtAcquire(minted))
    case PrepareErrs(error) =>
      Go(l, [PrepareRan(PrepareErrs(error))], AtSkip(SkipPrepareFailed(error)))
    case PreparePanics(p) =>
      Go(l, [PrepareRan(PreparePanics(p))], AtSkip(SkipPanicked(Caught(PanicPhase.Prepare, p))))
  }

  /** Acquiring a poisoned lock panics, whatever the lock would otherwise do. */
  function Acquisition(script: Script, g: Globals): Call {
    if g.poisoned then Call.Panicked(POISON) else script.callbacks.acquire
  }

  function StepAcquire(script: Script, l: Local, g: Globals, token: Token): Local {
    var call := Acquisition(script, g);
    var l' := l.(callbacks := l.callbacks.(acquire := call));
    Go(l', [AcquireRan(call)],
       match call
       case Returned => AtSecond(token)
       case Panicked(p) => AtUnwindTask(token, Caught(PanicPhase.LockAcquisition, p)))
  }

  function StepSecond(script: Script, l: Local, g: Globals, token: Token): Local {
    var check := Read(script.callbacks.second, g.gate);
    var l' := l.(callbacks := l.callbacks.(second := check));
    Go(l', [SecondCheckRan(check)],
       match check
       case CheckPanics(p) => AtUnwindGuard(token, Caught(PanicPhase.SecondConditionCheck, p), true)
       case Sees(false) => AtRelease(token, LockedExecution.ConditionNotMet)
       case Sees(true) => AtTaskStart(token))
  }

  function StepTaskEnd(l: Local, token: Token): Local {
    var run := l.callbacks.task(token);
    Go(l, [TaskEnded(run.ending, run.token)],
       match run.ending
       case Finishes(result) => AtRelease(run.token, LockedExecution.Task(result))
       case TaskPanics(p) => AtUnwindGuard(run.token, Caught(PanicPhase.Task, p), false))
  }

  function StepRelease(script: Script, l: Local, token: Token, value: LockedExecution): Local {
    var call := l.callbacks.release;
    Go(l, [GuardDropped(call, false)],
       match call
       case Returned => if value.ConditionNotMet? then AtCleanup(token) else AtFinalize(token, Ok(value))
       case Panicked(p) =>
         var caught := Caught(PanicPhase.LockRelease, p);
         if value.ConditionNotMet? then AtUnwindTask(token, caught)
         else if HoldsResult(script.entry, l.callbacks) then
           AtUnwindResult(token, caught, ResultDrop(value.result))
         else AtFinalize(token, Err(caught)))
  }

  function StepCleanup(l: Local, token: Token): Local {
    var call := l.callbacks.dropTask;
    Go(l, [TaskDropped(call)],
       match call
       case Returned => AtFinalize(token, Ok(LockedExecution.ConditionNotMet))
       case Panicked(p) => AtFinalize(token, Err(Caught(PanicPhase.TaskCleanup, p))))
  }

  function StepUnwindGuard(l: Local, token: Token, caught: Caught, dropsTask: bool): Local {
    var call := l.callbacks.releaseUnwinding;
    Go(l, [GuardDropped(call, true)],
       if call.Panicked? then AtAbort
       else if dropsTask then AtUnwindTask(token, caught) else AtFinalize(token, Err(caught)))
  }

  function StepUnwindTask(l: Local, token: Token, caught: Caught): Local {
    var call := l.callbacks.dropTask;
    Go(l, [TaskDropped(call)], if call.Panicked? then AtAbort else AtFinalize(token, Err(caught)))
  }

  function StepUnwindResult(l: Local, token: Token, caught: Caught, dropped: Call): Local {
    Go(l, [], if dropped.Panicked? then AtAbort else AtFinalize(token, Err(caught)))
  }

  function EndWith(l: Local, events: seq<Event>, ending: Ending): Local {
    Go(l, events, if EndsInAbort(ending) then AtAbort else AtDone(ending))
  }

  function StepFinalize(script: Script, l: Local, token: Token, locked: Result<LockedExecution, Caught>): Local {
    var (ending, events) := Finalization(script.entry, l.callbacks, token, locked);
    EndWith(l, events, ending)
  }

  function StepSkip(script: Script, l: Local, why: Skip): Local {
    EndWith(l, [TaskDropped(l.callbacks.dropTask)], SkipEnding(script.entry, l.callbacks, why))
  }

  predicate Finished(pc: Pc) {
    pc.AtDone? || pc.AtAbort?
  }

  predicate CanStep(script: Script, l: Local, g: Globals) {
    && !Finished(l.pc)
    && (l.pc.AtAcquire? ==> Available(script.mode, g))
  }

  function NextLocal(script: Script, l: Local, g: Globals): Local
    requires !Finished(l.pc)
  {
    match l.pc
    case AtInitial => StepInitial(script, l, g)
    case AtPrepare => StepPrepare(script, l, g)
    case AtAcquire(token) => StepAcquire(script, l, g, token)
    case AtSecond(token) => StepSecond(script, l, g, token)
    case AtTaskStart(token) => Go(l, [TaskStarted(token)], AtPublish(token))
    case AtPublish(token) => Go(l, [], AtStore(token))
    case AtStore(token) => Go(l, [], AtTaskEnd(token))
    case AtTaskEnd(token) => StepTaskEnd(l, token)
    case AtRelease(token, value) => StepRelease(script, l, token, value)
    case AtCleanup(token) => StepCleanup(l, token)
    case AtUnwindGuard(token, caught, dropsTask) => StepUnwindGuard(l, token, caught, dropsTask)
    case AtUnwindTask(token, caught) => StepUnwindTask(l, token, caught)
    case AtUnwindResult(token, caught, dropped) => StepUnwindResult(l, token, caught, dropped)
    case AtFinalize(token, locked) => StepFinalize(script, l, token, locked)
    case AtSkip(why) => StepSkip(script, l, why)
  }

  // ----- one step of one invocation: what it does to the shared state -----

  /** What a finished commit writes: the records its token carries. */
  function Written(events: seq<Event>): seq<int> {
    if |events| == 1 && events[0].CommitRan? && events[0].finalizer.Finalized? then events[0].token.pending else []
  }

  function Effect(cfg: Config, i: nat, l: Local, g: Globals): Globals
    requires i < |cfg.scripts|
  {
    var script := cfg.scripts[i];
    match l.pc
    case AtInitial =>
      if Read(script.callbacks.first, g.gate) == Sees(false) then g.(log := g.log + [Rejects(i)]) else g
    case AtPrepare =>
      if script.callbacks.prepare.Prepared? then g.(nextToken := g.nextToken + 1) else g
    case AtAcquire(_) => if Acquisition(script, g).Returned? then TakeGuard(script.mode, i, g) else g
    case AtSecond(_) =>
      if Read(script.callbacks.second, g.gate) == Sees(false) then g.(log := g.log + [Rejects(i)]) else g
    case AtPublish(_) => if script.publishes then g.(cache := g.generation) else g
    case AtStore(_) =>
      (match script.store
       case None => g
       case Some(open) => g.(gate := open, log := g.log + [Accepts(i, Some(open))]))
    case AtTaskEnd(_) => if script.store.None? then g.(log := g.log + [Accepts(i, None)]) else g
    case AtRelease(_, _) => LoseGuard(script.mode, i, g, false)
    case AtUnwindGuard(_, _, _) => LoseGuard(script.mode, i, g, cfg.poisoning)
    case AtFinalize(token, locked) =>
      g.(committed := g.committed + Written(Finalization(script.entry, l.callbacks, token, locked).1))
    case _ => g
  }

  datatype Stepped = Stepped(local: Local, globals: Globals)

  /** An invocation that aborts takes the whole process down. */
  function LocalStep(cfg: Config, i: nat, l: Local, g: Globals): Stepped
    requires i < |cfg.scripts| && CanStep(cfg.scripts[i], l, g)
  {
    var l' := NextLocal(cfg.scripts[i], l, g);
    Stepped(l', Effect(cfg, i, l, g).(aborted := g.aborted || l'.pc.AtAbort?))
  }

  // ----- the whole system -----

  predicate Enabled(cfg: Config, s: State, a: Action)
    requires |s.locals| == |cfg.scripts|
  {
    && !s.globals.aborted
    && match a
       case Step(i) => i < |s.locals| && CanStep(cfg.scripts[i], s.locals[i], s.globals)
       case EnvAcquire => Available(Exclusive, s.globals) && !s.globals.poisoned
       case EnvStore(_) => s.globals.writer.HeldByEnvironment?
       case EnvStale => s.globals.writer.HeldByEnvironment?
       case EnvRelease => s.globals.writer.HeldByEnvironment?
  }

  function Apply(cfg: Config, s: State, a: Action): (s': State)
    requires |s.locals| == |cfg.scripts|
    requires Enabled(cfg, s, a)
    ensures |s'.locals| == |s.locals|
  {
    var g := s.globals;
    match a
    case Step(i) =>
      var r := LocalStep(cfg, i, s.locals[i], g);
      State(r.globals, s.locals[i := r.local])
    case EnvAcquire => s.(globals := g.(writer := HeldByEnvironment))
    case EnvStore(open) => s.(globals := g.(gate := open, log := g.log + [External(open)]))
    case EnvStale => s.(globals := g.(generation := g.generation + 1))
    case EnvRelease => s.(globals := g.(writer := Free))
  }

  function Start(cfg: Config): State {
    State(Globals(cfg.initiallyOpen, Free, {}, false, false, 0, 0, 0, [], []),
          seq(|cfg.scripts|, i requires 0 <= i < |cfg.scripts| => Local(cfg.scripts[i].callbacks, AtInitial, [])))
  }

  /** Every action of the schedule is enabled when its turn comes. */
  predicate Runs(cfg: Config, s: State, schedule: seq<Action>)
    requires |s.locals| == |cfg.scripts|
    decreases |schedule|
  {
    schedule == [] ||
    (Enabled(cfg, s, schedule[0]) && Runs(cfg, Apply(cfg, s, schedule[0]), schedule[1..]))
  }

  function After(cfg: Config, s: State, schedule: seq<Action>): (s': State)
    requires |s.locals| == |cfg.scripts|
    requires Runs(cfg, s, schedule)
    ensures |s'.locals| == |s.locals|
    decreases |schedule|
  {
    if schedule == [] then s else After(cfg, Apply(cfg, s, schedule[0]), schedule[1..])
  }
}
