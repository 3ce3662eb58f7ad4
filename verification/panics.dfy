/**
 Panic payloads, captured panic metadata and the capture boundaries.

 Every payload is a value whose own destructor may panic with a further
 payload, so payloads form chains of any finite depth.
 */
module Panics {
  import opened Wrappers

  /** A panic payload. Destroying an explosive one panics with `secondary`. */
  datatype Payload = Inert(id: nat) | Explosive(id: nat, secondary: Payload)

  /** How a callback or a destructor ended. */
  datatype Call = Returned | Panicked(payload: Payload)

  /** How a piece of code left its frame; `Abort` is a panic raised while already unwinding. */
  datatype Flow<+T> = Return(value: T) | Unwind(payload: Payload) | Abort

  datatype PanicPhase =
    | InitialConditionCheck
    | Prepare
    | LockAcquisition
    | SecondConditionCheck
    | Task
    | LockRelease
    | Commit
    | Rollback
    | TaskCleanup

  /** The value view of captured panic metadata: a phase and the original payload. */
  datatype Caught = Caught(phase: PanicPhase, payload: Payload)

  /** What became of a payload that nobody resumed. */
  datatype Disposal = Destroyed(destroyed: Payload) | Forgotten(leaked: Payload)

  /** Cleanup code: how control left it, and what became of the payloads it met on the way. */
  datatype Cleaning = Cleaning(flow: Flow<()>, disposals: seq<Disposal>)

  function Destructor(payload: Payload): Call {
    match payload
    case Inert(_) => Returned
    case Explosive(_, secondary) => Panicked(secondary)
  }

  /** Number of payloads that would panic in turn if every one of a chain were destroyed. */
  function Depth(payload: Payload): nat {
    match payload
    case Inert(_) => 0
    case Explosive(_, secondary) => 1 + Depth(secondary)
  }

  /** The payloads of a chain, outermost first. */
  function Chain(payload: Payload): (chain: seq<Payload>)
    ensures |chain| == Depth(payload) + 1
  {
    match payload
    case Inert(_) => [payload]
    case Explosive(_, secondary) => [payload] + Chain(secondary)
  }

  function CallFlow(call: Call): Flow<()> {
    match call
    case Returned => Return(())
    case Panicked(payload) => Unwind(payload)
  }

  // ----- boundaries -----

  /** `std::panic::catch_unwind`: an unwind becomes an error that owns the payload. */
  function CatchUnwind<T>(operation: Flow<T>): Flow<Result<T, Payload>> {
    match operation
    case Return(value) => Return(Ok(value))
    case Unwind(payload) => Return(Err(payload))
    case Abort => Abort
  }

  /** Dropping a payload: its destructor runs as ordinary code and may unwind. */
  function Destroy(payload: Payload): Cleaning {
    Cleaning(CallFlow(Destructor(payload)), [Destroyed(payload)])
  }

  function Raised(payload: Payload): Cleaning {
    Cleaning(Unwind(payload), [])
  }

  /** A boundary whose error is dropped on the spot, outside the boundary. */
  function CatchAndDrop(operation: Cleaning): Cleaning {
    match CatchUnwind(operation.flow)
    case Return(Err(payload)) =>
      Cleaning(Destroy(payload).flow, operation.disposals + Destroy(payload).disposals)
    case _ => operation
  }

  /** A boundary whose error is forgotten: no destructor runs. */
  function CatchAndForget(operation: Cleaning): Cleaning {
    match CatchUnwind(operation.flow)
    case Return(Err(payload)) => Cleaning(Return(()), operation.disposals + [Forgotten(payload)])
    case _ => operation
  }

  /** `k` nested boundaries, each dropping what the one inside it let through. */
  function Boundaries(k: nat, operation: Cleaning): Cleaning {
    if k == 0 then operation else CatchAndDrop(Boundaries(k - 1, operation))
  }

  /** The scheme for a discarded operation: an inner boundary that drops, an outer one that forgets. */
  function DiscardSecondary(operation: Cleaning): Cleaning {
    CatchAndForget(CatchAndDrop(operation))
  }

  /** The destructor of captured metadata: the payload is dropped behind a boundary that forgets. */
  function DropMetadata(payload: Payload): Cleaning {
    CatchAndForget(Destroy(payload))
  }

  /**
   Code that cleans up and then goes on to `next`. If the cleanup unwinds
   instead, `held` is what destroying the value still owned here does.
   */
  function Afterwards<T>(cleaning: Cleaning, held: Flow<()>, next: Flow<T>): Flow<T> {
    match cleaning.flow
    case Return(_) => next
    case Unwind(payload) => if held.Return? then Unwind(payload) else Abort
    case Abort => Abort
  }

  /** Code that cleans up and then resumes the panic whose metadata it still owns. */
  function ResumeAfter<T>(cleaning: Cleaning, panic: Payload): Flow<T> {
    Afterwards(cleaning, DropMetadata(panic).flow, Unwind(panic))
  }

  // ----- what escapes a number of boundaries -----

  function DestroyedAll(payloads: seq<Payload>): seq<Disposal> {
    seq(|payloads|, i requires 0 <= i < |payloads| => Destroyed(payloads[i]))
  }

  lemma {:induction false} ChainLinks(payload: Payload, k: nat)
    requires k <= Depth(payload)
    ensures Chain(Chain(payload)[k]) == Chain(payload)[k..]
    ensures Destructor(Chain(payload)[k]) ==
            if k < Depth(payload) then Panicked(Chain(payload)[k + 1]) else Returned
  {
    match payload
    case Inert(_) =>
    case Explosive(_, secondary) =>
      ChainLinks(secondary, if k == 0 then 0 else k - 1);
  }

  /**
   Without forgetting, `k` boundaries contain a raised payload exactly when its
   chain is shorter than `k`; otherwise the chain's `k`-th payload escapes.
   */
  lemma {:induction false} BoundariesContainExactly(k: nat, payload: Payload)
    ensures var cleaning, n := Boundaries(k, Raised(payload)), |Chain(payload)|;
            && (cleaning.flow.Return? <==> Depth(payload) < k)
            && (k < n ==> cleaning == Cleaning(Unwind(Chain(payload)[k]), DestroyedAll(Chain(payload)[..k])))
            && (k >= n ==> cleaning == Cleaning(Return(()), DestroyedAll(Chain(payload))))
  {
    ChainLinks(payload, 0);
    if k > 0 {
      BoundariesContainExactly(k - 1, payload);
      var chain := Chain(payload);
      if k - 1 < |chain| {
        ChainLinks(payload, k - 1);
        assert DestroyedAll(chain[..k - 1]) + [Destroyed(chain[k - 1])] == DestroyedAll(chain[..k]);
        assert k == |chain| ==> chain[..k] == chain;
      }
    }
  }

  /**
   With forgetting, any number of boundaries contains every chain: at most `k`
   destructors run, in order, and the payload after them is forgotten together
   with the rest of the chain (`ChainLinks`), so every payload is accounted for.
   */
  lemma ForgettingContainsEverything(k: nat, payload: Payload)
    ensures var cleaning, chain := CatchAndForget(Boundaries(k, Raised(payload))), Chain(payload);
            cleaning ==
            Cleaning(Return(()), if k < |chain| then DestroyedAll(chain[..k]) + [Forgotten(chain[k])]
                                 else DestroyedAll(chain))
  {
    BoundariesContainExactly(k, payload);
  }

  /** What becomes of what a discarded call raised: its destructor runs, and what that raises is forgotten. */
  function Disposes(raised: Call): seq<Disposal> {
    match raised
    case Returned => []
    case Panicked(Inert(id)) => [Destroyed(Inert(id))]
    case Panicked(Explosive(id, secondary)) => [Destroyed(Explosive(id, secondary)), Forgotten(secondary)]
  }

  /** Discarding an operation never unwinds, and runs the outermost destructor of what it raised, no other. */
  lemma DiscardContains(operation: Flow<()>)
    requires !operation.Abort?
    ensures var cleaning := DiscardSecondary(Cleaning(operation, []));
            && cleaning.flow.Return?
            && (operation.Return? ==> cleaning.disposals == [])
            && (operation.Unwind? ==>
                  var chain := Chain(operation.payload);
                  cleaning.disposals ==
                  [Destroyed(chain[0])] + if |chain| == 1 then [] else [Forgotten(chain[1])])
  {
    if operation.Unwind? {
      ChainLinks(operation.payload, 0);
    }
  }

  /** Dropping captured metadata never unwinds, whatever chain its payload starts. */
  lemma MetadataContains(payload: Payload)
    ensures DropMetadata(payload).flow == Return(())
    ensures DropMetadata(payload) == DiscardSecondary(Raised(payload))
  {
    DiscardContains(Unwind(payload));
  }

  /**
   Resuming after a discarded operation: the scheme resumes the original payload
   always, while `k` boundaries that forget nothing do so exactly for chains
   shorter than `k` and otherwise let a secondary payload replace it.
   */
  lemma ResumesOriginalExactly(k: nat, secondary: Payload, original: Payload)
    ensures ResumeAfter<()>(DiscardSecondary(Raised(secondary)), original) == Unwind(original)
    ensures ResumeAfter<()>(Boundaries(k, Raised(secondary)), original) ==
            Unwind(if Depth(secondary) < k then original else Chain(secondary)[k])
  {
    DiscardContains(Unwind(secondary));
    MetadataContains(original);
    BoundariesContainExactly(k, secondary);
  }

  function Nested(n: nat): (payload: Payload)
    ensures Depth(payload) == n
  {
    if n == 0 then Inert(0) else Explosive(n, Nested(n - 1))
  }

  /** No fixed number of boundaries is enough without forgetting. */
  lemma NoNumberOfBoundariesSuffices(k: nat)
    ensures exists payload :: Boundaries(k, Raised(payload)).flow.Unwind?
  {
    BoundariesContainExactly(k, Nested(k));
    assert Boundaries(k, Raised(Nested(k))).flow.Unwind?;
  }

  /** A panic boundary with a fixed phase: unwinds become metadata, nothing else changes. */
  function CatchPhase<T>(phase: PanicPhase, operation: Flow<T>): (result: Flow<Result<T, Caught>>)
    ensures !result.Unwind?
    ensures result.Abort? <==> operation.Abort?
    ensures operation.Unwind? <==> result.Return? && result.value.Err?
  {
    match CatchUnwind(operation)
    case Return(Ok(value)) => Return(Ok(value))
    case Return(Err(payload)) => Return(Err(Caught(phase, payload)))
    case _ => Abort
  }

  /** Captured panic metadata as the executor owns it: the payload can be taken out once. */
  class PanicInfo {
    const phase: PanicPhase
    var payload: Option<Payload>

    constructor FromPayload(phase: PanicPhase, payload: Payload)
      ensures this.phase == phase
      ensures this.payload == Some(payload)
    {
      this.phase := phase;
      this.payload := Some(payload);
    }

    /** Takes the original payload out; the metadata is left empty. */
    method IntoPayload() returns (original: Payload)
      requires payload.Some?
      modifies this`payload
      ensures old(payload) == Some(original)
      ensures payload == None
    {
      original := payload.value;
      payload := None;
    }

    /** Consumes the metadata and unwinds with the payload it retained. */
    method ResumeUnwind() returns (flow: Flow<()>, disposed: seq<Disposal>)
      requires payload.Some?
      modifies this`payload
      ensures flow == Unwind(old(payload).value)
      ensures disposed == []
      ensures payload == None
    {
      var original := IntoPayload();
      var emptied;
      emptied, disposed := Drop();
      flow := Afterwards(Cleaning(emptied, disposed), Destroy(original).flow, Unwind(original));
    }

    /** Destructor: control always returns, whatever the retained payload's destructor does. */
    method Drop() returns (flow: Flow<()>, disposed: seq<Disposal>)
      modifies this`payload
      ensures payload == None
      ensures flow == Return(())
      ensures old(payload) == None ==> disposed == []
      ensures old(payload).Some? ==> Cleaning(flow, disposed) == DropMetadata(old(payload).value)
    {
      if payload == None {
        return Return(()), [];
      }
      var taken := payload.value;
      payload := None;
      var destruction := Destroy(taken);
      disposed := destruction.disposals;
      match CatchUnwind(destruction.flow) {
        case Return(Err(secondary)) =>
          disposed := disposed + [Forgotten(secondary)];
          flow := Return(());
        case Return(Ok(_)) => flow := Return(());
        case _ => flow := Abort;
      }
    }
  }
}
