/**
 One invocation as its callbacks see it.

 Ghost state follows what Rust's ownership follows: whether the guard is held,
 whether the task closure and the token are still owned. Preconditions of the
 callbacks are the discipline the executor must respect on every path.
 */
module Invocations {
  import opened Wrappers
  import opened Panics
  import opened Outcomes

  /** The token behind the reference handed to a task. */
  class TokenCell {
    var token: Token

    constructor (token: Token)
      ensures this.token == token
    {
      this.token := token;
    }
  }

  class Invocation {
    const callbacks: Callbacks
    var trace: seq<Event>
    ghost var disposals: seq<Disposal>
    ghost var guardHeld: bool
    ghost var taskLive: bool
    ghost var tokenLive: bool

    constructor (callbacks: Callbacks)
      ensures this.callbacks == callbacks
      ensures trace == [] && disposals == []
      ensures !guardHeld && taskLive && !tokenLive
    {
      this.callbacks := callbacks;
      trace, disposals := [], [];
      guardHeld, taskLive, tokenLive := false, true, false;
    }

    method CheckInitial() returns (check: Check)
      requires !guardHeld
      modifies this`trace
      ensures check == callbacks.first
      ensures trace == old(trace) + [InitialCheckRan(check)]
    {
      check := callbacks.first;
      trace := trace + [InitialCheckRan(check)];
    }

    method Prepare() returns (preparation: Preparation)
      requires !guardHeld && !tokenLive
      modifies this`trace, this`tokenLive
      ensures preparation == callbacks.prepare
      ensures trace == old(trace) + [PrepareRan(preparation)]
      ensures tokenLive == preparation.Prepared?
    {
      preparation := callbacks.prepare;
      trace := trace + [PrepareRan(preparation)];
      tokenLive := preparation.Prepared?;
    }

    method Lock() returns (call: Call)
      requires !guardHeld
      modifies this`trace, this`guardHeld
      ensures call == callbacks.acquire
      ensures trace == old(trace) + [AcquireRan(call)]
      ensures guardHeld == call.Returned?
    {
      call := callbacks.acquire;
      trace := trace + [AcquireRan(call)];
      guardHeld := call.Returned?;
    }

    method CheckSecond() returns (check: Check)
      requires guardHeld
      modifies this`trace
      ensures check == callbacks.second
      ensures trace == old(trace) + [SecondCheckRan(check)]
    {
      check := callbacks.second;
      trace := trace + [SecondCheckRan(check)];
    }

    /** Runs the task, which consumes the closure and may change the token through its reference. */
    method RunTask(cell: TokenCell) returns (ending: TaskEnding)
      requires guardHeld && taskLive
      modifies this`trace, this`taskLive, cell
      ensures TaskRun(ending, cell.token) == callbacks.task(old(cell.token))
      ensures trace == old(trace) + [TaskStarted(old(cell.token)), TaskEnded(ending, cell.token)]
      ensures !taskLive
    {
      var run := callbacks.task(cell.token);
      trace := trace + [TaskStarted(cell.token), TaskEnded(run.ending, run.token)];
      taskLive := false;
      cell.token := run.token;
      ending := run.ending;
    }

    method DropGuard(unwinding: bool) returns (call: Call)
      requires guardHeld
      modifies this`trace, this`guardHeld
      ensures call == if unwinding then callbacks.releaseUnwinding else callbacks.release
      ensures trace == old(trace) + [GuardDropped(call, unwinding)]
      ensures !guardHeld
    {
      call := if unwinding then callbacks.releaseUnwinding else callbacks.release;
      trace := trace + [GuardDropped(call, unwinding)];
      guardHeld := false;
    }

    /** Drops a task that never ran. */
    method DropTask() returns (call: Call)
      requires taskLive && !guardHeld
      modifies this`trace, this`taskLive
      ensures call == callbacks.dropTask
      ensures trace == old(trace) + [TaskDropped(call)]
      ensures !taskLive
    {
      call := callbacks.dropTask;
      trace := trace + [TaskDropped(call)];
      taskLive := false;
    }

    method CallCommit(token: Token) returns (finalizer: Finalizer)
      requires callbacks.commit.Some?
      requires tokenLive && !guardHeld
      modifies this`trace, this`tokenLive
      ensures finalizer == callbacks.commit.value(token)
      ensures trace == old(trace) + [CommitRan(token, finalizer)]
      ensures !tokenLive
    {
      finalizer := callbacks.commit.value(token);
      trace := trace + [CommitRan(token, finalizer)];
      tokenLive := false;
    }

    method CallRollback(token: Token, cause: RollbackCause) returns (finalizer: Finalizer)
      requires callbacks.rollback.Some?
      requires tokenLive && !guardHeld
      modifies this`trace, this`tokenLive
      ensures finalizer == callbacks.rollback.value(token, cause)
      ensures trace == old(trace) + [RollbackRan(token, cause, finalizer)]
      ensures !tokenLive
    {
      finalizer := callbacks.rollback.value(token, cause);
      trace := trace + [RollbackRan(token, cause, finalizer)];
      tokenLive := false;
    }

    method DropToken(token: Token) returns (call: Call)
      requires tokenLive && !guardHeld
      modifies this`trace, this`tokenLive
      ensures call == callbacks.dropToken(token)
      ensures trace == old(trace) + [TokenDropped(token, call)]
      ensures !tokenLive
    {
      call := callbacks.dropToken(token);
      trace := trace + [TokenDropped(token, call)];
      tokenLive := false;
    }

    /** Drops captured metadata nobody asked for. */
    method DiscardPanic(panic: PanicInfo) returns (flow: Flow<()>)
      requires panic.payload.Some?
      modifies this`disposals, panic`payload
      ensures panic.payload == None
      ensures var dropped := DropMetadata(old(panic.payload).value);
              flow == dropped.flow && disposals == old(disposals) + dropped.disposals
    {
      var disposed;
      flow, disposed := panic.Drop();
      disposals := disposals + disposed;
    }
  }
}
