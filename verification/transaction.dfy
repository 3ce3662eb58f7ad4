/** The transaction adapter of the guides' commit protocol, run through the lifecycle executor. */
module Transactions {
  import opened Wrappers
  import opened Panics
  import opened Outcomes
  import opened LockedPhase
  import opened Invocations
  import opened DclCores
  import opened LifecycleExecutors

  /** The commit error raised before anything is written. */
  const COMMIT_FAILED := Owned(1, Returned)
  /** The error of a database whose own mutex is poisoned. */
  const STATE_POISONED := Owned(2, Returned)
  const UNIT_VALUE := Owned(0, Returned)
  const TASK_FAILED := Owned(3, Returned)

  class Database {
    var committed: seq<int>
    var failNextCommit: bool
    var poisoned: bool

    constructor (failNextCommit: bool)
      ensures committed == [] && !poisoned
      ensures this.failNextCommit == failNextCommit
    {
      committed, poisoned := [], false;
      this.failNextCommit := failNextCommit;
    }
  }

  /** How a commit ends, from the state of the database it finds. */
  function CommitResult(failNextCommit: bool, poisoned: bool): Finalizer {
    if failNextCommit then FinalizeErrs(COMMIT_FAILED)
    else if poisoned then FinalizeErrs(STATE_POISONED)
    else Finalized
  }

  class Transaction {
    const database: Database
    var pending: seq<int>

    constructor (database: Database)
      ensures this.database == database && pending == []
    {
      this.database := database;
      pending := [];
    }

    /** All or nothing: the staged records are appended exactly when the commit succeeds. */
    method Commit() returns (result: Finalizer)
      modifies database`committed, database`failNextCommit
      ensures old(database.failNextCommit) ==> result == FinalizeErrs(COMMIT_FAILED)
      ensures !old(database.failNextCommit) && database.poisoned ==> result == FinalizeErrs(STATE_POISONED)
      ensures !old(database.failNextCommit) && !database.poisoned ==> result == Finalized
      ensures result.Finalized? ==> database.committed == old(database.committed) + pending
      ensures !result.Finalized? ==> database.committed == old(database.committed)
      ensures !database.failNextCommit
    {
      var failing := database.failNextCommit;
      database.failNextCommit := false;
      if failing {
        return FinalizeErrs(COMMIT_FAILED);
      }
      if database.poisoned {
        return FinalizeErrs(STATE_POISONED);
      }
      database.committed := database.committed + pending;
      result := Finalized;
    }
  }

  // ----- the effects of a call -----

  /** The shared state as a value. */
  datatype World = World(open: bool, committed: seq<int>, failNext: bool, poisoned: bool)

  /** What one event of a call does: the task's body closes the gate, and a commit applies its token. */
  function Effect(w: World, event: Event): World {
    match event
    case TaskEnded(_, _) => w.(open := false)
    case CommitRan(token, _) =>
      w.(failNext := false,
         committed := if CommitResult(w.failNext, w.poisoned).Finalized? then w.committed + token.pending
                      else w.committed)
    case _ => w
  }

  function Effects(w: World, trace: seq<Event>): World {
    if trace == [] then w else Effect(Effects(w, trace[..|trace| - 1]), trace[|trace| - 1])
  }

  lemma {:induction false} NoEffect(w: World, trace: seq<Event>)
    requires forall e :: e in trace ==> !e.TaskEnded? && !e.CommitRan?
    ensures Effects(w, trace) == w
  {
    if trace != [] {
      NoEffect(w, trace[..|trace| - 1]);
    }
  }

  /**
   The callbacks of one call in a given state. The task stages `record` and
   closes the gate, or closes it and fails; a commit answers as the database
   will, and a rollback succeeds.
   */
  function ClaimCallbacks(w: World, record: int, fails: bool): Callbacks {
    Callbacks(Sees(w.open), Prepared(Token(0, [])), Returned, Sees(w.open),
              (token: Token) =>
                if fails then TaskRun(Finishes(Err(TASK_FAILED)), token)
                else TaskRun(Finishes(Ok(UNIT_VALUE)), Token(token.id, token.pending + [record])),
              Returned, Returned, Returned,
              Some(token => CommitResult(w.failNext, w.poisoned)), Some((token, cause) => Finalized),
              token => Returned, true)
  }

  /** A commit's answer as the caller sees it. */
  function CommitOutcome(result: Finalizer): FinalizationOutcome
    requires !result.FinalizePanics?
  {
    match result
    case Finalized => FinalizationOutcome.Succeeded
    case FinalizeErrs(error) => FinalizationOutcome.Failed(error)
  }

  /** What a call returns, in terms of the state it finds. */
  function ClaimFlow(w: World, fails: bool): Flow<LifecycleOutcome> {
    Return(if !w.open then LifecycleOutcome.InitialConditionNotMet
           else if fails then LifecycleOutcome.TaskFailed(TASK_FAILED, FinalizationOutcome.Succeeded)
           else LifecycleOutcome.TaskSucceeded(UNIT_VALUE, CommitOutcome(CommitResult(w.failNext, w.poisoned))))
  }

  /** The state a call leaves: the record is written exactly when the returned outcome says so. */
  function Claimed(w: World, record: int, fails: bool): World {
    var committed := ClaimFlow(w, fails) ==
                     Return(LifecycleOutcome.TaskSucceeded(UNIT_VALUE, FinalizationOutcome.Succeeded));
    w.(open := false,
       failNext := w.failNext && (!w.open || fails),
       committed := if committed then w.committed + [record] else w.committed)
  }

  /** The events of a call on an open gate. */
  function AcceptedTrace(w: World, record: int, fails: bool): seq<Event> {
    var given := Token(0, []);
    var run := ClaimCallbacks(w, record, fails).task(given);
    [InitialCheckRan(Sees(true)), PrepareRan(Prepared(given)), AcquireRan(Returned), SecondCheckRan(Sees(true)),
     TaskStarted(given), TaskEnded(run.ending, run.token), GuardDropped(Returned, false)]
    + [if fails then RollbackRan(run.token, CauseTaskFailed(TASK_FAILED), Finalized)
       else CommitRan(run.token, CommitResult(w.failNext, w.poisoned))]
  }

  lemma AcceptedRun(w: World, record: int, fails: bool)
    requires w.open
    ensures LifecycleSemantics.RunWithToken(ClaimCallbacks(w, record, fails)) ==
            Run(ClaimFlow(w, fails), AcceptedTrace(w, record, fails))
  {
    var cb := ClaimCallbacks(w, record, fails);
    LockedCases(cb, Token(0, []), true);
    OpenCases(cb, Token(0, []), true);
  }

  lemma AcceptedEffects(w: World, record: int, fails: bool, trace: seq<Event>)
    requires w.open && trace == AcceptedTrace(w, record, fails)
    ensures Effects(w, trace) == Claimed(w, record, fails)
  {
    EffectsOfAcceptance(w, trace);
  }

  /** The effects of the executor's own trace are the state the returned outcome promises. */
  lemma ClaimEffects(w: World, record: int, fails: bool)
    ensures var run := LifecycleSemantics.RunWithToken(ClaimCallbacks(w, record, fails));
            run.flow == ClaimFlow(w, fails) && Effects(w, run.trace) == Claimed(w, record, fails)
  {
    var trace := LifecycleSemantics.RunWithToken(ClaimCallbacks(w, record, fails)).trace;
    if w.open {
      AcceptedRun(w, record, fails);
      AcceptedEffects(w, record, fails, trace);
    } else {
      RejectedRun(w, record, fails);
      NoEffect(w, trace);
    }
  }

  lemma RejectedRun(w: World, record: int, fails: bool)
    requires !w.open
    ensures var run := LifecycleSemantics.RunWithToken(ClaimCallbacks(w, record, fails));
            run.flow == ClaimFlow(w, fails) && run.trace == [InitialCheckRan(Sees(false)), TaskDropped(Returned)]
  {
  }

  /** An accepted call has two effects: its task's, and that of its last event. */
  lemma EffectsOfAcceptance(w: World, trace: seq<Event>)
    requires |trace| == 8 && trace[5].TaskEnded? && trace[6].GuardDropped?
    requires forall k :: 0 <= k < 5 ==> !trace[k].TaskEnded? && !trace[k].CommitRan?
    ensures Effects(w, trace) == Effect(w.(open := false), trace[7])
  {
    NoEffect(w, trace[..5]);
    assert trace[..6][..5] == trace[..5] && trace[..7][..6] == trace[..6];
    assert Effects(w, trace[..6]) == w.(open := false);
    assert Effects(w, trace[..7]) == w.(open := false);
  }

  /** What goes wrong in one attempt, if anything. */
  datatype Attempt = TaskFails | CommitFails | Clean

  /** Some attempt gets its record through; an armed failure is used up by the next commit. */
  function Wins(failing: bool, attempts: seq<Attempt>): bool {
    if attempts == [] then false
    else match attempts[0]
      case TaskFails => Wins(failing, attempts[1..])
      case CommitFails => Wins(false, attempts[1..])
      case Clean => !failing || Wins(false, attempts[1..])
  }

  /** With no failure armed beforehand that is so exactly when some attempt is clean. */
  lemma {:induction false} WinsExactly(attempts: seq<Attempt>)
    ensures Wins(false, attempts) <==> Clean in attempts
  {
    if attempts != [] {
      WinsExactly(attempts[1..]);
      assert attempts == [attempts[0]] + attempts[1..];
    }
  }

  /** The gate, the database and the executor the callers share. */
  class Coordinator {
    var workAvailable: bool
    const database: Database
    const executor: LifecycleDclExecutor

    constructor (database: Database)
      ensures workAvailable && this.database == database
    {
      workAvailable := true;
      this.database := database;
      var core := new DclCore();
      executor := new LifecycleDclExecutor(core);
    }

    function Now(): World
      reads this`workAvailable, database
    {
      World(workAvailable, database.committed, database.failNextCommit, database.poisoned)
    }

    /** One call, and the effects of what it ran: the events of its trace, in order. */
    method Claim(record: int, fails: bool) returns (flow: Flow<LifecycleOutcome>)
      modifies this`workAvailable, database`committed, database`failNextCommit
      ensures flow == ClaimFlow(old(Now()), fails)
      ensures Now() == Claimed(old(Now()), record, fails)
      ensures old(workAvailable) && !fails ==>
                flow == Return(LifecycleOutcome.TaskSucceeded(
                                 UNIT_VALUE,
                                 if old(database.failNextCommit) then FinalizationOutcome.Failed(COMMIT_FAILED)
                                 else if database.poisoned then FinalizationOutcome.Failed(STATE_POISONED)
                                 else FinalizationOutcome.Succeeded))
      ensures old(workAvailable) && fails ==>
                flow == Return(LifecycleOutcome.TaskFailed(TASK_FAILED, FinalizationOutcome.Succeeded))
      ensures !old(workAvailable) ==> flow == Return(LifecycleOutcome.InitialConditionNotMet)
      ensures !workAvailable
      ensures database.committed ==
              old(database.committed) +
              if old(workAvailable && !database.failNextCommit) && !fails && !database.poisoned then [record] else []
      ensures database.failNextCommit == (old(database.failNextCommit) && (!old(workAvailable) || fails))
    {
      ClaimEffects(Now(), record, fails);
      var trace;
      flow, trace := Execute(ClaimCallbacks(Now(), record, fails));
      Perform(trace);
    }

    /** Runs one invocation through the executor. */
    method Execute(callbacks: Callbacks) returns (flow: Flow<LifecycleOutcome>, trace: seq<Event>)
      ensures Run(flow, trace) == LifecycleSemantics.RunWithToken(callbacks)
    {
      var inv := new Invocation(callbacks);
      flow := executor.RunWithToken(inv);
      trace := inv.trace;
      assert [] + LifecycleSemantics.RunWithToken(callbacks).trace == LifecycleSemantics.RunWithToken(callbacks).trace;
    }

    /** Performs the events of a trace on the gate and on the database. */
    method Perform(trace: seq<Event>)
      modifies this`workAvailable, database`committed, database`failNextCommit
      ensures Now() == Effects(old(Now()), trace)
    {
      for k := 0 to |trace|
        invariant Now() == Effects(old(Now()), trace[..k])
      {
        assert trace[..k + 1][..k] == trace[..k];
        if trace[k].TaskEnded? {
          workAvailable := false;
        }
        if trace[k].CommitRan? {
          var transaction := new Transaction(database);
          transaction.pending := trace[k].token.pending;
          var result := transaction.Commit();
        }
      }
      assert trace[..|trace|] == trace;
    }

    /** Reopens the gate under the coordination lock. */
    method Reopen()
      modifies this`workAvailable
      ensures workAvailable
    {
      workAvailable := true;
    }

    /**
     Any number of attempts, each followed by a reopening if its outcome says
     that nothing was written: the record gets in at most once, and does so
     exactly when the gate was open, an attempt wins and the database is not
     poisoned; that, and nothing else, takes the opening.
     */
    method Retry(record: int, attempts: seq<Attempt>)
      modifies this`workAvailable, database`committed, database`failNextCommit
      ensures var won := old(workAvailable) && !database.poisoned && Wins(old(database.failNextCommit), attempts);
              && database.committed == old(database.committed) + (if won then [record] else [])
              && workAvailable == (old(workAvailable) && !won)
    {
      for k := 0 to |attempts|
        invariant workAvailable ==> old(workAvailable)
        invariant database.committed ==
                  old(database.committed) + (if workAvailable == old(workAvailable) then [] else [record])
        invariant database.poisoned ==> workAvailable == old(workAvailable)
        invariant old(workAvailable) && !database.poisoned ==>
                    Wins(old(database.failNextCommit), attempts) ==
                    (!workAvailable || Wins(database.failNextCommit, attempts[k..]))
      {
        assert attempts[k..][1..] == attempts[k + 1..];
        if attempts[k].CommitFails? {
          database.failNextCommit := true;
        }
        var flow := Claim(record, attempts[k].TaskFails?);
        if flow.value.TaskFailed? || (flow.value.TaskSucceeded? && flow.value.commit.Failed?) {
          Reopen();
        }
      }
    }
  }

  /** A failed commit, a reopening and a retry: the second call commits the record, once. */
  method CommitFailureThenRetry(record: int) returns (committed: seq<int>, open: bool)
    ensures committed == [record]
    ensures !open
  {
    var database := new Database(true);
    var coordinator := new Coordinator(database);
    var attempts := [Clean, Clean];
    assert attempts[1..] == [Clean] && [Clean][0] == Clean;
    coordinator.Retry(record, attempts);
    committed := database.committed;
    open := coordinator.workAvailable;
  }
}
