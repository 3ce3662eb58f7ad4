/**
 Straight-line code behind scope destructors.

 A block is a list of operations; each knows the phase it is reported under,
 how it ends, what it makes observable, and which destructors are live if it
 panics, in the order an unwind runs them.
 */
module Unwinding {
  import opened Wrappers
  import opened Panics
  import opened Outcomes

  datatype Cleanup = Cleanup(call: Call, events: seq<Event>)

  datatype Op = Op(phase: PanicPhase, call: Call, events: seq<Event>, live: seq<Cleanup>)

  datatype BlockEnd = Completed | Fails(caught: Caught) | Aborts

  datatype Block = Block(end: BlockEnd, trace: seq<Event>)

  function Prepend(events: seq<Event>, block: Block): Block {
    Block(block.end, events + block.trace)
  }

  /** Runs the live destructors of an unwind; a second panic among them aborts. */
  function Unwinds(caught: Caught, live: seq<Cleanup>): Block {
    if live == [] then Block(Fails(caught), [])
    else if live[0].call.Panicked? then Block(Aborts, live[0].events)
    else Prepend(live[0].events, Unwinds(caught, live[1..]))
  }

  function Execute(ops: seq<Op>): Block {
    if ops == [] then Block(Completed, [])
    else if ops[0].call.Panicked? then
      Prepend(ops[0].events, Unwinds(Caught(ops[0].phase, ops[0].call.payload), ops[0].live))
    else Prepend(ops[0].events, Execute(ops[1..]))
  }

  /** Operation `k` is the first of the block to panic. */
  ghost predicate FirstPanic(ops: seq<Op>, k: nat) {
    && k < |ops|
    && ops[k].call.Panicked?
    && forall j :: 0 <= j < k ==> ops[j].call.Returned?
  }

  ghost predicate Unwindable(live: seq<Cleanup>) {
    forall j :: 0 <= j < |live| ==> live[j].call.Returned?
  }

  lemma {:induction false} UnwindsExactly(caught: Caught, live: seq<Cleanup>)
    ensures Unwindable(live) ==> Unwinds(caught, live).end == Fails(caught)
    ensures !Unwindable(live) ==> Unwinds(caught, live).end == Aborts
  {
    if live != [] && live[0].call.Returned? {
      UnwindsExactly(caught, live[1..]);
      if Unwindable(live[1..]) {
        assert forall j :: 0 < j < |live| ==> live[j] == live[1..][j - 1];
      }
    }
  }

  /** A block that does not complete reports its first panic, or aborts on a second one. */
  lemma {:induction false} ReportsFirstPanic(ops: seq<Op>, k: nat)
    requires FirstPanic(ops, k)
    ensures Unwindable(ops[k].live) ==>
              Execute(ops).end == Fails(Caught(ops[k].phase, ops[k].call.payload))
    ensures !Unwindable(ops[k].live) ==> Execute(ops).end == Aborts
  {
    if k == 0 {
      UnwindsExactly(Caught(ops[0].phase, ops[0].call.payload), ops[0].live);
    } else {
      assert ops[1..][k - 1] == ops[k];
      assert FirstPanic(ops[1..], k - 1);
      ReportsFirstPanic(ops[1..], k - 1);
    }
  }

  /** A block completes exactly when none of its operations panics. */
  lemma {:induction false} CompletesExactly(ops: seq<Op>)
    ensures Execute(ops).end.Completed? <==> forall j :: 0 <= j < |ops| ==> ops[j].call.Returned?
  {
    if ops != [] {
      if ops[0].call.Panicked? {
        UnwindsExactly(Caught(ops[0].phase, ops[0].call.payload), ops[0].live);
      } else {
        CompletesExactly(ops[1..]);
        assert forall j :: 0 < j < |ops| ==> ops[j] == ops[1..][j - 1];
        assert forall j :: 0 <= j < |ops| - 1 ==> ops[1..][j] == ops[j + 1];
      }
    }
  }

  /** The phase of the first operation of a block to panic. */
  function InterruptedIn(ops: seq<Op>): Option<PanicPhase> {
    if ops == [] then None
    else if ops[0].call.Panicked? then Some(ops[0].phase)
    else InterruptedIn(ops[1..])
  }

  /** A block completes exactly when nothing interrupts it, and fails under the phase of what does. */
  lemma {:induction false} FailsWhereInterrupted(ops: seq<Op>)
    ensures Execute(ops).end.Completed? <==> InterruptedIn(ops) == None
    ensures Execute(ops).end.Fails? ==> InterruptedIn(ops) == Some(Execute(ops).end.caught.phase)
  {
    if ops != [] {
      if ops[0].call.Panicked? {
        UnwindsExactly(Caught(ops[0].phase, ops[0].call.payload), ops[0].live);
      } else {
        FailsWhereInterrupted(ops[1..]);
      }
    }
  }

  lemma ExecuteHead(op: Op, rest: seq<Op>)
    ensures op.call.Returned? ==> Execute([op] + rest) == Prepend(op.events, Execute(rest))
    ensures op.call.Panicked? ==>
              Execute([op] + rest) == Prepend(op.events, Unwinds(Caught(op.phase, op.call.payload), op.live))
    ensures InterruptedIn([op] + rest) == if op.call.Panicked? then Some(op.phase) else InterruptedIn(rest)
  {
    var ops := [op] + rest;
    assert ops[0] == op && ops[1..] == rest;
  }
}
