/**
 The submission/shutdown state machine: the double-checked form refines the
 lock-first form, call by call and over every run of any number of callers.
 */
module Submissions {
  import opened Wrappers
  import opened Tallies
  import opened Protocol
  import opened Projection
  import opened GuardDiscipline
  import opened Reachable
  import opened Linearization
  import opened TokenConservation

  const RUNNING: int := 0
  const SHUT_DOWN: int := 1
  const WORD: int := 0x1_0000_0000_0000_0000

  /** The counter is an unsigned machine word. */
  type Word = n: int | 0 <= n < WORD

  /** The shared state as a value. */
  datatype Snapshot = Snapshot(state: int, submitted: Word)

  /** What other threads do, each under the lock. */
  datatype Operation = Submit | Store(state: int)

  /** The atomic form: take the lock, then look at the state. */
  function LockFirst(s: Snapshot): (bool, Snapshot) {
    if s.state != RUNNING then (false, s) else (true, s.(submitted := (s.submitted + 1) % WORD))
  }

  function Performs(s: Snapshot, op: Operation): Snapshot {
    match op
    case Submit => LockFirst(s).1
    case Store(state) => s.(state := state)
  }

  function PerformsAll(s: Snapshot, ops: seq<Operation>): Snapshot {
    if ops == [] then s else Performs(PerformsAll(s, ops[..|ops| - 1]), ops[|ops| - 1])
  }

  /** Just before the `k`-th operation the state is `now`: the last store in front of it, or `start` without one. */
  ghost predicate StateBefore(start: int, ops: seq<Operation>, k: nat, now: int)
    requires k <= |ops|
  {
    || (now == start && forall n :: 0 <= n < k ==> !ops[n].Store?)
    || (exists m :: 0 <= m < k && ops[m] == Store(now) && forall n :: m < n < k ==> !ops[n].Store?)
  }

  /** The submissions that find the machine running. */
  ghost function CountedIn(start: int, ops: seq<Operation>): set<nat> {
    set k: nat | k < |ops| && ops[k].Submit? && StateBefore(start, ops, k, RUNNING)
  }

  lemma StateBeforePrefix(start: int, ops: seq<Operation>, n: nat, k: nat, now: int)
    requires k <= n <= |ops|
    ensures StateBefore(start, ops[..n], k, now) <==> StateBefore(start, ops, k, now)
  {
    assert forall m :: 0 <= m < k ==> ops[..n][m] == ops[m];
  }

  lemma OneStateBefore(start: int, ops: seq<Operation>, k: nat, a: int, b: int)
    requires k <= |ops| && StateBefore(start, ops, k, a) && StateBefore(start, ops, k, b)
    ensures a == b
  {
  }

  /** What others do while one waits leaves the last state that was stored. */
  lemma {:induction false} MeanwhileState(s: Snapshot, ops: seq<Operation>)
    ensures StateBefore(s.state, ops, |ops|, PerformsAll(s, ops).state)
  {
    if ops != [] {
      var n := |ops| - 1;
      var before := PerformsAll(s, ops[..n]);
      MeanwhileState(s, ops[..n]);
      StateBeforePrefix(s.state, ops, n, n, before.state);
      if ops[n].Store? {
        assert ops[n] == Store(PerformsAll(s, ops).state);
      }
    }
  }

  /** And the counter has grown, modulo the word, by the submissions that found the machine running. */
  lemma {:induction false} MeanwhileCount(s: Snapshot, ops: seq<Operation>)
    ensures PerformsAll(s, ops).submitted == (s.submitted + |CountedIn(s.state, ops)|) % WORD
  {
    if ops == [] {
      assert CountedIn(s.state, ops) == {};
    } else {
      var n := |ops| - 1;
      var before := PerformsAll(s, ops[..n]);
      MeanwhileCount(s, ops[..n]);
      MeanwhileState(s, ops[..n]);
      StateBeforePrefix(s.state, ops, n, n, before.state);
      CountedSnoc(s.state, ops);
      if StateBefore(s.state, ops, n, RUNNING) {
        OneStateBefore(s.state, ops, n, before.state, RUNNING);
      }
      OneMore(before, ops[n], s.submitted + |CountedIn(s.state, ops[..n])|);
    }
  }

  /** One operation counts one submission, if it is one and finds the machine running. */
  lemma OneMore(before: Snapshot, op: Operation, total: nat)
    requires before.submitted == total % WORD
    ensures Performs(before, op).submitted ==
            (total + if op.Submit? && before.state == RUNNING then 1 else 0) % WORD
    ensures Performs(before, op).state == if op.Store? then op.state else before.state
  {
    AddingModulo(total, 1);
  }

  lemma CountedSnoc(start: int, ops: seq<Operation>)
    requires ops != []
    ensures var n := |ops| - 1;
            |CountedIn(start, ops)| ==
            |CountedIn(start, ops[..n])| + if ops[n].Submit? && StateBefore(start, ops, n, RUNNING) then 1 else 0
  {
    var n := |ops| - 1;
    forall k: nat | k <= n
      ensures StateBefore(start, ops[..n], k, RUNNING) <==> StateBefore(start, ops, k, RUNNING)
    {
      StateBeforePrefix(start, ops, n, k, RUNNING);
    }
    var counts := ops[n].Submit? && StateBefore(start, ops, n, RUNNING);
    assert CountedIn(start, ops) == CountedIn(start, ops[..n]) + if counts then {n} else {};
  }

  /** What a submission finds and leaves when it obtains the lock after `ops`. */
  lemma AnswerUnderLock(s: Snapshot, ops: seq<Operation>)
    ensures var (accepted, after) := LockFirst(PerformsAll(s, ops));
            && (accepted <==> StateBefore(s.state, ops, |ops|, RUNNING))
            && StateBefore(s.state, ops, |ops|, after.state)
            && after.submitted == (s.submitted + |CountedIn(s.state, ops)| + if accepted then 1 else 0) % WORD
  {
    MeanwhileState(s, ops);
    MeanwhileCount(s, ops);
    var found := PerformsAll(s, ops);
    if StateBefore(s.state, ops, |ops|, RUNNING) {
      OneStateBefore(s.state, ops, |ops|, found.state, RUNNING);
    }
    OneMore(found, Submit, s.submitted + |CountedIn(s.state, ops)|);
  }

  class Submission {
    var state: int
    var submitted: Word

    constructor ()
      ensures Now() == Snapshot(RUNNING, 0)
    {
      state, submitted := RUNNING, 0;
    }

    function Now(): Snapshot
      reads this
    {
      Snapshot(state, submitted)
    }

    /** Everything other threads do while this one waits for the lock. */
    method WaitForLock(meanwhile: seq<Operation>)
      modifies this
      ensures StateBefore(old(state), meanwhile, |meanwhile|, state)
      ensures submitted == (old(submitted) + |CountedIn(old(state), meanwhile)|) % WORD
      ensures Now() == PerformsAll(old(Now()), meanwhile)
    {
      MeanwhileState(Now(), meanwhile);
      MeanwhileCount(Now(), meanwhile);
      var after := PerformsAll(Now(), meanwhile);
      state, submitted := after.state, after.submitted;
    }

    /**
     Whatever happens while it waits, one call of the double-checked form is one
     call of the lock-first form: at once if the fast path rejects, else when
     the lock is obtained. It is accepted exactly when the machine runs both at
     the call and when the lock is obtained, and then counts once.
     */
    method SubmitHandwrittenDcl(meanwhile: seq<Operation>) returns (accepted: bool)
      modifies this
      ensures accepted <==>
              old(state) == RUNNING && StateBefore(RUNNING, meanwhile, |meanwhile|, RUNNING)
      ensures old(state) != RUNNING ==> state == old(state) && submitted == old(submitted)
      ensures old(state) == RUNNING ==>
                && StateBefore(RUNNING, meanwhile, |meanwhile|, state)
                && submitted ==
                   (old(submitted) + |CountedIn(RUNNING, meanwhile)| + if accepted then 1 else 0) % WORD
      ensures (accepted, Now()) ==
              if old(state) != RUNNING then LockFirst(old(Now()))
              else LockFirst(PerformsAll(old(Now()), meanwhile))
    {
      AnswerUnderLock(Now(), meanwhile);
      if state != RUNNING {
        return false;
      }
      WaitForLock(meanwhile);
      if state != RUNNING {
        return false;
      }
      submitted := (submitted + 1) % WORD;
      accepted := true;
    }
  }

  lemma AddingModulo(a: nat, n: nat)
    ensures (a % WORD + n) % WORD == (a + n) % WORD
  {
    var q := a / WORD;
    var r := (a % WORD + n) / WORD;
    assert a + n == (q + r) * WORD + (a % WORD + n) % WORD;
  }

  // ----- any number of callers -----

  /** Calls whose tasks count and leave the state alone; shutdown and restart are the environment's. */
  ghost predicate SubmissionSystem(cfg: Config) {
    forall i :: 0 <= i < |cfg.scripts| ==> cfg.scripts[i].store == None
  }

  function StateOf(open: bool): int {
    if open then RUNNING else SHUT_DOWN
  }

  /** The lock-first machine after a log, if it gives every answer the log records. */
  function Answers(s: Snapshot, log: seq<LogEntry>): Option<Snapshot> {
    if log == [] then Some(s)
    else match Answers(s, log[..|log| - 1])
      case None => None
      case Some(now) =>
        match log[|log| - 1]
        case Rejects(_) => if LockFirst(now).0 then None else Some(now)
        case Accepts(_, _) => if LockFirst(now).0 then Some(LockFirst(now).1) else None
        case External(open) => Some(Performs(now, Store(StateOf(open))))
  }

  function Acceptances(log: seq<LogEntry>): nat {
    if log == [] then 0
    else Acceptances(log[..|log| - 1]) + if log[|log| - 1].Accepts? then 1 else 0
  }

  lemma AnswersSnoc(s: Snapshot, log: seq<LogEntry>, entry: LogEntry)
    ensures Acceptances(log + [entry]) == Acceptances(log) + if entry.Accepts? then 1 else 0
    ensures Answers(s, log).Some? ==>
              var now := Answers(s, log).value;
              Answers(s, log + [entry]) ==
              match entry
              case Rejects(_) => if LockFirst(now).0 then None else Some(now)
              case Accepts(_, _) => if LockFirst(now).0 then Some(LockFirst(now).1) else None
              case External(open) => Some(Performs(now, Store(StateOf(open))))
  {
    assert (log + [entry])[..|log|] == log;
  }

  /** The task bodies that have run: each has counted one submission. */
  function Submitted(s: State): nat {
    Total(EndingTask, s.locals)
  }

  lemma {:induction false} TotalUpdate(kind: Kind, locals: seq<Local>, i: nat, l': Local)
    requires i < |locals|
    ensures Total(kind, locals[i := l']) == Total(kind, locals) - Tally(kind, locals[i].trace) + Tally(kind, l'.trace)
  {
    var updated := locals[i := l'];
    if i == 0 {
      assert updated[1..] == locals[1..];
    } else {
      assert updated[1..] == locals[1..][i - 1 := l'];
      TotalUpdate(kind, locals[1..], i - 1, l');
    }
  }

  lemma {:induction false} TotalNone(kind: Kind, locals: seq<Local>)
    requires forall l :: l in locals ==> l.trace == []
    ensures Total(kind, locals) == 0
  {
    if locals != [] {
      assert locals[0] in locals;
      TotalNone(kind, locals[1..]);
    }
  }

  /** Only the step that ends a task shows the end of a task. */
  lemma OnlyTaskEnds(cfg: Config, i: nat, l: Local, g: Globals)
    requires i < |cfg.scripts| && CanStep(cfg.scripts[i], l, g)
    ensures var t := LocalStep(cfg, i, l, g).local.trace;
            if l.pc.AtTaskEnd? then |t| == |l.trace| + 1 && t[|l.trace|].TaskEnded?
            else |t| > |l.trace| ==> !t[|l.trace|].TaskEnded?
  {
    if l.pc.AtFinalize? {
      var events := Finalization(cfg.scripts[i].entry, l.callbacks, l.pc.token, l.pc.locked).1;
      assert LocalStep(cfg, i, l, g).local.trace == l.trace + events;
    }
  }

  lemma TaskEndsTally(cfg: Config, i: nat, l: Local, g: Globals)
    requires i < |cfg.scripts| && CanStep(cfg.scripts[i], l, g)
    ensures Tally(EndingTask, LocalStep(cfg, i, l, g).local.trace) ==
            Tally(EndingTask, l.trace) + if l.pc.AtTaskEnd? then 1 else 0
  {
    OnlyTaskEnds(cfg, i, l, g);
    ShowsAtMostOne(cfg, i, l, g);
    var t := LocalStep(cfg, i, l, g).local.trace;
    if |t| > |l.trace| {
      assert t == l.trace + [t[|l.trace|]];
      TallySnoc(EndingTask, l.trace, t[|l.trace|]);
    } else {
      assert t == l.trace;
    }
  }

  /** What a step of a submission logs: a rejection at a read, an acceptance at the end of its task. */
  lemma SubmissionLogs(cfg: Config, i: nat, l: Local, g: Globals)
    requires i < |cfg.scripts| && CanStep(cfg.scripts[i], l, g) && cfg.scripts[i].store == None
    requires OnPath(cfg.scripts[i].entry, l.callbacks, l.pc) && (ReliesOnOpen(cfg.scripts[i], l.pc) ==> g.gate)
    ensures var g' := LocalStep(cfg, i, l, g).globals;
            && g'.gate == g.gate
            && if l.pc.AtTaskEnd? then g.gate && g'.log == g.log + [Accepts(i, None)]
               else g'.log == g.log || (!g.gate && g'.log == g.log + [Rejects(i)])
  {
    if !Decides(l.pc) {
      LogKept(cfg, i, l, g);
    }
  }

  ghost predicate Counted(cfg: Config, s: State)
    requires |s.locals| == |cfg.scripts|
  {
    && Acceptances(s.globals.log) == Submitted(s)
    && Answers(Snapshot(StateOf(cfg.initiallyOpen), 0), s.globals.log) ==
       Some(Snapshot(StateOf(s.globals.gate), Submitted(s) % WORD))
  }

  /** One more task counts one more acceptance; anything else counts none. */
  lemma CountedUpdate(cfg: Config, s: State, i: nat, l': Local, g': Globals, ends: bool)
    requires |s.locals| == |cfg.scripts| && i < |s.locals| && Counted(cfg, s)
    requires Tally(EndingTask, l'.trace) == Tally(EndingTask, s.locals[i].trace) + if ends then 1 else 0
    requires g'.gate == s.globals.gate
    requires if ends then s.globals.gate && g'.log == s.globals.log + [Accepts(i, None)]
             else g'.log == s.globals.log || (!s.globals.gate && g'.log == s.globals.log + [Rejects(i)])
    ensures Counted(cfg, State(g', s.locals[i := l']))
  {
    TotalUpdate(EndingTask, s.locals, i, l');
    AddingModulo(Submitted(s), 1);
    if g'.log != s.globals.log {
      AnswersSnoc(Snapshot(StateOf(cfg.initiallyOpen), 0), s.globals.log, g'.log[|s.globals.log|]);
    }
  }

  lemma StepCounted(cfg: Config, s: State, a: Action)
    requires SubmissionSystem(cfg) && Simulates(cfg, s) && Enabled(cfg, s, a) && Counted(cfg, s)
    ensures Counted(cfg, Apply(cfg, s, a))
  {
    if a.Step? {
      var l := s.locals[a.index];
      var r := LocalStep(cfg, a.index, l, s.globals);
      assert LocalInvariant(cfg.scripts[a.index], l);
      SubmissionLogs(cfg, a.index, l, s.globals);
      TaskEndsTally(cfg, a.index, l, s.globals);
      CountedUpdate(cfg, s, a.index, r.local, r.globals, l.pc.AtTaskEnd?);
    } else {
      EnvironmentCounted(cfg, s, a);
    }
  }

  lemma EnvironmentCounted(cfg: Config, s: State, a: Action)
    requires |s.locals| == |cfg.scripts| && Enabled(cfg, s, a) && !a.Step? && Counted(cfg, s)
    ensures Counted(cfg, Apply(cfg, s, a))
  {
    if a.EnvStore? {
      AnswersSnoc(Snapshot(StateOf(cfg.initiallyOpen), 0), s.globals.log, External(a.open));
    }
  }

  lemma {:induction false} CountedFrom(cfg: Config, s: State, schedule: seq<Action>)
    requires SubmissionSystem(cfg) && Simulates(cfg, s) && Runs(cfg, s, schedule) && Counted(cfg, s)
    ensures Counted(cfg, After(cfg, s, schedule)) && Simulates(cfg, After(cfg, s, schedule))
    decreases |schedule|
  {
    if schedule != [] {
      StepCounted(cfg, s, schedule[0]);
      StepSimulates(cfg, s, schedule[0]);
      CountedFrom(cfg, Apply(cfg, s, schedule[0]), schedule[1..]);
    }
  }

  lemma StartCounted(cfg: Config)
    ensures Counted(cfg, Start(cfg))
  {
    var start := Start(cfg);
    forall l | l in start.locals
      ensures l.trace == []
    {
      var i :| 0 <= i < |start.locals| && start.locals[i] == l;
    }
    TotalNone(EndingTask, start.locals);
  }

  /**
   For any number of double-checked callers, any mix of entry points and lock
   modes, any panics and any shutdowns and restarts: the answers recorded in the
   log are those of the lock-first machine, and its counter is the number of
   task bodies that ran, modulo the word.
   */
  lemma SubmissionsRefineLockFirst(cfg: Config, schedule: seq<Action>)
    requires forall i :: 0 <= i < |cfg.scripts| ==> cfg.scripts[i].store == None
    requires Runs(cfg, Start(cfg), schedule)
    ensures var s := After(cfg, Start(cfg), schedule);
            && Acceptances(s.globals.log) == Submitted(s)
            && Answers(Snapshot(StateOf(cfg.initiallyOpen), 0), s.globals.log) ==
               Some(Snapshot(StateOf(s.globals.gate), Submitted(s) % WORD))
  {
    StartSimulates(cfg);
    StartCounted(cfg);
    CountedFrom(cfg, Start(cfg), schedule);
  }

  /** Nothing in the schedule restarts the machine. */
  predicate NeverRestarts(schedule: seq<Action>) {
    forall a :: a in schedule && a.EnvStore? ==> !a.open
  }

  /** From a state that is shut down, and until a restart, no further submission is counted, not even one under way. */
  lemma {:induction false} NothingSubmittedAfterShutDown(cfg: Config, s: State, schedule: seq<Action>)
    requires SubmissionSystem(cfg) && Simulates(cfg, s) && Runs(cfg, s, schedule)
    requires !s.globals.gate && NeverRestarts(schedule)
    ensures var s' := After(cfg, s, schedule); !s'.globals.gate && Submitted(s') == Submitted(s)
    decreases |schedule|
  {
    if schedule != [] {
      var a := schedule[0];
      assert a in schedule;
      StepSimulates(cfg, s, a);
      StepKeepsCount(cfg, s, a);
      NothingSubmittedAfterShutDown(cfg, Apply(cfg, s, a), schedule[1..]);
    }
  }

  lemma StepKeepsCount(cfg: Config, s: State, a: Action)
    requires SubmissionSystem(cfg) && Simulates(cfg, s) && Enabled(cfg, s, a)
    requires !s.globals.gate && (a.EnvStore? ==> !a.open)
    ensures var s' := Apply(cfg, s, a); !s'.globals.gate && Submitted(s') == Submitted(s)
  {
    if a.Step? {
      var l := s.locals[a.index];
      assert LocalInvariant(cfg.scripts[a.index], l);
      SubmissionLogs(cfg, a.index, l, s.globals);
      TaskEndsTally(cfg, a.index, l, s.globals);
      TotalUpdate(EndingTask, s.locals, a.index, LocalStep(cfg, a.index, l, s.globals).local);
    }
  }

  /** The same, for every reachable state that is shut down. */
  lemma ShutDownStopsSubmissions(cfg: Config, before: seq<Action>, schedule: seq<Action>)
    requires forall i :: 0 <= i < |cfg.scripts| ==> cfg.scripts[i].store == None
    requires Runs(cfg, Start(cfg), before) && NeverRestarts(schedule)
    requires var s := After(cfg, Start(cfg), before); !s.globals.gate && Runs(cfg, s, schedule)
    ensures var s := After(cfg, Start(cfg), before); Submitted(After(cfg, s, schedule)) == Submitted(s)
  {
    StartSimulates(cfg);
    SimulatesFrom(cfg, Start(cfg), before);
    NothingSubmittedAfterShutDown(cfg, After(cfg, Start(cfg), before), schedule);
  }
}
