/** How often tasks close the gate, and what that says about them. */
module GateAccounting {
  import opened Wrappers
  import opened Protocol
  import opened Reachable
  import opened Linearization
  import opened Counting

  function Bit(b: bool): nat {
    if b then 1 else 0
  }

  /** A task that has run and closed the gate. */
  predicate HasClosed(script: Script, l: Local) {
    script.store == Some(false) && VerdictAt(script, l).Accepted?
  }

  /** The acceptances of a log that close the gate. */
  function Closings(log: seq<LogEntry>): nat {
    if log == [] then 0
    else Closings(log[..|log| - 1]) + Bit(log[|log| - 1].Accepts? && log[|log| - 1].store == Some(false))
  }

  /** The environment's stores in a log that turn the gate to `to` from its opposite. */
  function Flips(open: bool, log: seq<LogEntry>, to: bool): nat {
    if log == [] then 0
    else
      var before := log[..|log| - 1];
      Flips(open, before, to) + Bit(log[|log| - 1] == External(to) && Replay(open, before) == Some(!to))
  }

  lemma AccountsSnoc(open: bool, log: seq<LogEntry>, entry: LogEntry)
    ensures Closings(log + [entry]) == Closings(log) + Bit(entry.Accepts? && entry.store == Some(false))
    ensures forall to :: Flips(open, log + [entry], to) ==
                         Flips(open, log, to) + Bit(entry == External(to) && Replay(open, log) == Some(!to))
  {
    assert (log + [entry])[..|log|] == log;
  }

  /** In every run of the atomic object each closing acceptance finds the gate open and takes it. */
  lemma {:induction false} RunsBalance(open: bool, log: seq<LogEntry>)
    requires Replay(open, log).Some?
    ensures Closings(log) + Flips(open, log, false) + Bit(Replay(open, log).value) == Bit(open) + Flips(open, log, true)
  {
    if log != [] {
      RunsBalance(open, log[..|log| - 1]);
    }
  }

  // ----- closings are tasks -----

  ghost predicate ClosingsAreTasks(cfg: Config, s: State)
    requires |s.locals| == |cfg.scripts|
  {
    Closings(s.globals.log) == Count(HasClosed, cfg.scripts, s.locals)
  }

  /** An extension of the log adds a closing exactly when its invocation closes the gate, and flips nothing. */
  lemma ExtensionAccounts(open: bool, script: Script, i: nat, l: Local, l': Local, g: Globals, g': Globals)
    requires Extends(script, i, l, l', g, g')
    ensures Closings(g'.log) - Closings(g.log) == Bit(HasClosed(script, l')) - Bit(HasClosed(script, l))
    ensures forall to :: Flips(open, g'.log, to) == Flips(open, g.log, to)
  {
    if g'.log != g.log {
      AccountsSnoc(open, g.log, g'.log[|g.log|]);
    }
  }

  lemma StepClosings(cfg: Config, s: State, a: Action)
    requires Simulates(cfg, s) && Enabled(cfg, s, a) && ClosingsAreTasks(cfg, s)
    ensures ClosingsAreTasks(cfg, Apply(cfg, s, a))
  {
    match a
    case Step(i) =>
      var r := LocalStep(cfg, i, s.locals[i], s.globals);
      assert LocalInvariant(cfg.scripts[i], s.locals[i]);
      LogEffect(cfg, i, s.locals[i], s.globals);
      ExtensionAccounts(cfg.initiallyOpen, cfg.scripts[i], i, s.locals[i], r.local, s.globals, r.globals);
      CountUpdate(HasClosed, cfg.scripts, s.locals, i, r.local);
    case EnvStore(open) => AccountsSnoc(cfg.initiallyOpen, s.globals.log, External(open));
    case EnvAcquire =>
    case EnvStale =>
    case EnvRelease =>
  }

  lemma {:induction false} ClosingsFrom(cfg: Config, s: State, schedule: seq<Action>)
    requires ClosersExclude(cfg) && Simulates(cfg, s) && Runs(cfg, s, schedule) && ClosingsAreTasks(cfg, s)
    ensures ClosingsAreTasks(cfg, After(cfg, s, schedule))
    decreases |schedule|
  {
    if schedule != [] {
      StepClosings(cfg, s, schedule[0]);
      StepSimulates(cfg, s, schedule[0]);
      ClosingsFrom(cfg, Apply(cfg, s, schedule[0]), schedule[1..]);
    }
  }

  /**
   In every reachable state: the tasks that have closed the gate, and the
   environment's effective closings, are as many as the openings they used up,
   which are the initial one and the environment's effective reopenings, less
   the one still unused.
   */
  lemma ClosesMatchReopens(cfg: Config, schedule: seq<Action>)
    requires ClosersExclude(cfg) && Runs(cfg, Start(cfg), schedule)
    ensures var s := After(cfg, Start(cfg), schedule);
            var open, log := cfg.initiallyOpen, s.globals.log;
            && Closings(log) == Count(HasClosed, cfg.scripts, s.locals)
            && Count(HasClosed, cfg.scripts, s.locals) + Flips(open, log, false) + Bit(s.globals.gate) ==
               Bit(open) + Flips(open, log, true)
  {
    var start := Start(cfg);
    StartSimulates(cfg);
    forall i | 0 <= i < |start.locals|
      ensures !HasClosed(cfg.scripts[i], start.locals[i])
    {
      assert start.locals[i].pc == AtInitial;
    }
    CountNone(HasClosed, cfg.scripts, start.locals);
    ClosingsFrom(cfg, start, schedule);
    SimulatesFrom(cfg, start, schedule);
    RunsBalance(cfg.initiallyOpen, After(cfg, start, schedule).globals.log);
  }

  /** The gate after the first `k` operations of a log. */
  lemma {:induction false} ReplayPrefix(open: bool, log: seq<LogEntry>, k: nat)
    requires k <= |log| && Replay(open, log).Some?
    ensures Replay(open, log[..k]).Some?
  {
    if k == |log| {
      assert log[..k] == log;
    } else {
      var shorter := log[..|log| - 1];
      assert shorter[..k] == log[..k];
      ReplayPrefix(open, shorter, k);
    }
  }

  /** A closing acceptance, or a closing by the environment. */
  predicate Closes(entry: LogEntry) {
    entry == External(false) || (entry.Accepts? && entry.store == Some(false))
  }

  /** Once closed, the gate stays closed until something reopens it from outside. */
  lemma {:induction false} StaysClosed(open: bool, log: seq<LogEntry>, a: nat, b: nat)
    requires a < b <= |log| && Replay(open, log).Some? && Closes(log[a])
    requires forall k :: a < k < b ==> log[k] != External(true)
    ensures Replay(open, log[..b]) == Some(false)
  {
    ReplayPrefix(open, log, b);
    ReplayPrefix(open, log, b - 1);
    assert log[..b][..b - 1] == log[..b - 1];
    if b - 1 > a {
      StaysClosed(open, log, a, b - 1);
    }
  }

  /** In a run of the atomic object a closing and a later acceptance have a reopening from outside between them. */
  lemma ReopenedBetween(open: bool, log: seq<LogEntry>, a: nat, b: nat)
    requires Replay(open, log).Some? && a < b < |log| && Closes(log[a]) && log[b].Accepts?
    ensures exists k :: a < k < b && log[k] == External(true)
  {
    ReplayPrefix(open, log, b + 1);
    assert log[..b + 1][..b] == log[..b];
    if forall k :: a < k < b ==> log[k] != External(true) {
      StaysClosed(open, log, a, b);
    }
  }

  /**
   At most once per opening: between a closing, by a task or from outside, and
   a later acceptance, something outside the tasks reopened the gate.
   */
  lemma AcceptancesAreSeparated(cfg: Config, schedule: seq<Action>, a: nat, b: nat)
    requires ClosersExclude(cfg) && Runs(cfg, Start(cfg), schedule)
    requires var log := After(cfg, Start(cfg), schedule).globals.log;
             a < b < |log| && Closes(log[a]) && log[b].Accepts?
    ensures exists k :: a < k < b && After(cfg, Start(cfg), schedule).globals.log[k] == External(true)
  {
    StartSimulates(cfg);
    SimulatesFrom(cfg, Start(cfg), schedule);
    ReopenedBetween(cfg.initiallyOpen, After(cfg, Start(cfg), schedule).globals.log, a, b);
  }
}
