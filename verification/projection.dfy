/**
 The projection of any interleaved run onto one invocation is a run of the
 sequential semantics of that invocation's entry point, for the callbacks as
 the run resolved them.
 */
module Projection {
  import opened Wrappers
  import opened Panics
  import opened Outcomes
  import opened Unwinding
  import opened LockedPhase
  import opened Protocol

  /** The token the locked phase starts from. */
  function Given(entry: Entry, cb: Callbacks): Token {
    if entry.LifecycleEntry? && cb.prepare.Prepared? then cb.prepare.token else UNIT_TOKEN
  }

  /** The invocation goes to the lock. */
  predicate Opened(entry: Entry, cb: Callbacks) {
    cb.first == Sees(true) && (entry.LifecycleEntry? ==> cb.prepare.Prepared?)
  }

  function Opening(entry: Entry, cb: Callbacks): seq<Event> {
    [InitialCheckRan(cb.first)] + if entry.LifecycleEntry? then [PrepareRan(cb.prepare)] else []
  }

  function BlockOf(entry: Entry, cb: Callbacks): Block {
    Execute(LockedOps(cb, Given(entry, cb), HoldsResult(entry, cb)))
  }

  function Ran(entry: Entry, cb: Callbacks): TaskRun {
    cb.task(Given(entry, cb))
  }

  /** The lock was acquired on the way in. */
  predicate Locks(entry: Entry, cb: Callbacks) {
    Opened(entry, cb) && cb.acquire.Returned?
  }

  /** Program point `pc` lies on the sequential path that these callbacks determine. */
  predicate OnPath(entry: Entry, cb: Callbacks, pc: Pc) {
    var given := Given(entry, cb);
    match pc
    case AtInitial => true
    case AtPrepare => cb.first == Sees(true) && entry.LifecycleEntry?
    case AtAcquire(token) => Opened(entry, cb) && token == given
    case AtSecond(token) => Locks(entry, cb) && token == given
    case AtTaskStart(token) => Opened(entry, cb) && TaskRuns(cb) && token == given
    case AtPublish(token) => Opened(entry, cb) && TaskRuns(cb) && token == given
    case AtStore(token) => Opened(entry, cb) && TaskRuns(cb) && token == given
    case AtTaskEnd(token) => Opened(entry, cb) && TaskRuns(cb) && token == given
    case AtRelease(token, value) =>
      && Locks(entry, cb) && cb.second.Sees?
      && (cb.second.open ==> Ran(entry, cb).ending.Finishes?)
      && token == TokenAfter(cb, given) && value == LockedValue(cb, given)
    case AtCleanup(token) =>
      Locks(entry, cb) && cb.second == Sees(false) && cb.release.Returned? && token == given
    case AtUnwindGuard(token, caught, dropsTask) =>
      && Locks(entry, cb) && token == TokenAfter(cb, given)
      && (if dropsTask then
            cb.second.CheckPanics? && caught == Caught(PanicPhase.SecondConditionCheck, cb.second.payload)
          else
            && cb.second == Sees(true) && Ran(entry, cb).ending.TaskPanics?
            && caught == Caught(PanicPhase.Task, Ran(entry, cb).ending.payload))
    case AtUnwindTask(token, caught) =>
      && Opened(entry, cb) && token == given
      && (match cb.acquire
          case Panicked(p) => caught == Caught(PanicPhase.LockAcquisition, p)
          case Returned =>
            match cb.second
            case CheckPanics(p) =>
              cb.releaseUnwinding.Returned? && caught == Caught(PanicPhase.SecondConditionCheck, p)
            case Sees(open) =>
              !open && cb.release.Panicked? && caught == Caught(PanicPhase.LockRelease, cb.release.payload))
    case AtUnwindResult(token, caught, dropped) =>
      && Opened(entry, cb) && TaskRuns(cb) && Ran(entry, cb).ending.Finishes?
      && cb.release.Panicked? && caught == Caught(PanicPhase.LockRelease, cb.release.payload)
      && token == Ran(entry, cb).token
      && HoldsResult(entry, cb) && dropped == ResultDrop(Ran(entry, cb).ending.result)
    case AtFinalize(token, locked) =>
      && Opened(entry, cb) && token == TokenAfter(cb, given)
      && (match locked
          case Ok(value) => BlockOf(entry, cb).end.Completed? && value == LockedValue(cb, given)
          case Err(caught) => BlockOf(entry, cb).end == Fails(caught))
    case AtSkip(why) =>
      (match why
       case SkipRejected => cb.first == Sees(false)
       case SkipPanicked(caught) =>
         if caught.phase.InitialConditionCheck? then cb.first == CheckPanics(caught.payload)
         else
           && caught.phase.Prepare? && entry.LifecycleEntry? && cb.first == Sees(true)
           && cb.prepare == PreparePanics(caught.payload)
       case SkipPrepareFailed(error) =>
         entry.LifecycleEntry? && cb.first == Sees(true) && cb.prepare == PrepareErrs(error))
    case AtDone(ending) => Meaning(entry, cb).0 == ending && !EndsInAbort(ending)
    case AtAbort => EndsInAbort(Meaning(entry, cb).0)
  }

  function TaskEvents(entry: Entry, cb: Callbacks): seq<Event> {
    [TaskStarted(Given(entry, cb)), TaskEnded(Ran(entry, cb).ending, Ran(entry, cb).token)]
  }

  function CheckedEvents(entry: Entry, cb: Callbacks): seq<Event> {
    [AcquireRan(cb.acquire), SecondCheckRan(cb.second)] +
    if cb.second == Sees(true) then TaskEvents(entry, cb) else []
  }

  /** The locked events an opened invocation has shown on reaching `pc`. */
  function LockedShown(entry: Entry, cb: Callbacks, pc: Pc): seq<Event> {
    match pc
    case AtSecond(_) => [AcquireRan(cb.acquire)]
    case AtTaskStart(_) => [AcquireRan(cb.acquire), SecondCheckRan(cb.second)]
    case AtPublish(token) => [AcquireRan(cb.acquire), SecondCheckRan(cb.second), TaskStarted(token)]
    case AtStore(token) => [AcquireRan(cb.acquire), SecondCheckRan(cb.second), TaskStarted(token)]
    case AtTaskEnd(token) => [AcquireRan(cb.acquire), SecondCheckRan(cb.second), TaskStarted(token)]
    case AtRelease(_, _) => CheckedEvents(entry, cb)
    case AtCleanup(_) => CheckedEvents(entry, cb) + [GuardDropped(cb.release, false)]
    case AtUnwindGuard(_, _, _) => CheckedEvents(entry, cb)
    case AtUnwindTask(_, _) =>
      if cb.acquire.Panicked? then [AcquireRan(cb.acquire)]
      else CheckedEvents(entry, cb) +
           (if cb.second.CheckPanics? then [GuardDropped(cb.releaseUnwinding, true)]
            else [GuardDropped(cb.release, false)])
    case AtUnwindResult(_, _, _) => CheckedEvents(entry, cb) + [GuardDropped(cb.release, false)]
    case AtFinalize(_, _) => BlockOf(entry, cb).trace
    case _ => []
  }

  /** The events an invocation has shown on reaching `pc`. */
  function History(entry: Entry, cb: Callbacks, pc: Pc): seq<Event> {
    match pc
    case AtInitial => []
    case AtPrepare => [InitialCheckRan(cb.first)]
    case AtSkip(why) =>
      [InitialCheckRan(cb.first)] +
      (match why
       case SkipPanicked(caught) => if caught.phase.Prepare? then [PrepareRan(cb.prepare)] else []
       case SkipPrepareFailed(_) => [PrepareRan(cb.prepare)]
       case SkipRejected => [])
    case AtDone(_) => Meaning(entry, cb).1
    case AtAbort => Meaning(entry, cb).1
    case _ => Opening(entry, cb) + LockedShown(entry, cb, pc)
  }

  predicate Follows(entry: Entry, l: Local) {
    OnPath(entry, l.callbacks, l.pc) && l.trace == History(entry, l.callbacks, l.pc)
  }

  /** The callbacks of a run differ from the script only in what the run resolves. */
  ghost predicate Resolves(script: Script, cb: Callbacks) {
    && (script.callbacks.first.CheckPanics? ==> cb.first == script.callbacks.first)
    && (cb.first.CheckPanics? ==> cb.first == script.callbacks.first)
    && (script.callbacks.second.CheckPanics? ==> cb.second == script.callbacks.second)
    && (cb.second.CheckPanics? ==> cb.second == script.callbacks.second)
    && (if script.callbacks.prepare.Prepared? then
          && cb.prepare.Prepared?
          && cb.prepare.token.pending == script.callbacks.prepare.token.pending
        else cb.prepare == script.callbacks.prepare)
    && (cb.acquire == script.callbacks.acquire || cb.acquire == Call.Panicked(POISON))
    && cb.task == script.callbacks.task
    && cb.release == script.callbacks.release
    && cb.releaseUnwinding == script.callbacks.releaseUnwinding
    && cb.dropTask == script.callbacks.dropTask
    && cb.commit == script.callbacks.commit
    && cb.rollback == script.callbacks.rollback
    && cb.dropToken == script.callbacks.dropToken
    && cb.dropsReturnSlot == script.callbacks.dropsReturnSlot
  }

  /** Before a value is resolved, an invocation still carries the script's. */
  ghost predicate Unresolved(script: Script, l: Local) {
    && (l.pc.AtInitial? ==> l.callbacks == script.callbacks)
    && (l.pc.AtPrepare? ==> l.callbacks == script.callbacks.(first := l.callbacks.first))
  }

  // ----- the sequential meaning, from the lock onwards -----

  /** Past the opening, the meaning of an entry point is its locked block and then its finalization. */
  lemma MeaningAfterLock(entry: Entry, cb: Callbacks, locked: Result<LockedExecution, Caught>)
    requires OnPath(entry, cb, AtFinalize(TokenAfter(cb, Given(entry, cb)), locked))
    ensures var (ending, events) := Finalization(entry, cb, TokenAfter(cb, Given(entry, cb)), locked);
            Meaning(entry, cb) == (ending, Opening(entry, cb) + BlockOf(entry, cb).trace + events)
  {
    var given := Given(entry, cb);
    var (ending, events) := Finalization(entry, cb, TokenAfter(cb, given), locked);
    var block := BlockOf(entry, cb);
    match entry
    case BasicEntry(false) =>
      assert block == LockedPropagating(cb, given);
      assert Opening(entry, cb) + block.trace + [] == [InitialCheckRan(cb.first)] + block.trace;
    case BasicEntry(true) =>
      assert block == Locked(cb, given);
      assert Opening(entry, cb) + block.trace + [] == [InitialCheckRan(cb.first)] + block.trace;
    case LifecycleEntry(_) =>
      assert block == Locked(cb, given);
      assert LockedResult(cb, given) == Return(locked);
      assert Opening(entry, cb) + block.trace + events ==
             [InitialCheckRan(cb.first)] + ([PrepareRan(cb.prepare)] + (block.trace + events));
  }

  /** An aborting locked block aborts every entry point, with no further event. */
  lemma MeaningAborts(entry: Entry, cb: Callbacks)
    requires Opened(entry, cb) && BlockOf(entry, cb).end.Aborts?
    ensures EndsInAbort(Meaning(entry, cb).0)
    ensures Meaning(entry, cb).1 == Opening(entry, cb) + BlockOf(entry, cb).trace
  {
    var given := Given(entry, cb);
    var block := BlockOf(entry, cb);
    match entry
    case BasicEntry(false) => assert block == LockedPropagating(cb, given);
    case BasicEntry(true) => assert block == Locked(cb, given);
    case LifecycleEntry(_) =>
      assert block == Locked(cb, given);
      assert Opening(entry, cb) + block.trace ==
             [InitialCheckRan(cb.first)] + ([PrepareRan(cb.prepare)] + (block.trace + []));
  }

  /** The locked block by cases, for the entry point's own treatment of the result. */
  lemma BlockCases(entry: Entry, cb: Callbacks)
    ensures BlockOf(entry, cb) ==
            if cb.acquire.Panicked? then
              Prepend([AcquireRan(cb.acquire)],
                      UnwindsTask(cb, Caught(PanicPhase.LockAcquisition, cb.acquire.payload)))
            else match cb.second
              case CheckPanics(p) =>
                Prepend(CheckedEvents(entry, cb), UnwindsGuardThenTask(cb, Caught(PanicPhase.SecondConditionCheck, p)))
              case Sees(open) =>
                if open && Ran(entry, cb).ending.TaskPanics? then
                  Prepend(CheckedEvents(entry, cb),
                          UnwindsGuard(cb, Caught(PanicPhase.Task, Ran(entry, cb).ending.payload)))
                else
                  var events := CheckedEvents(entry, cb) + [GuardDropped(cb.release, false)];
                  match cb.release
                  case Panicked(p) =>
                    var caught := Caught(PanicPhase.LockRelease, p);
                    if open then
                      Block(if HoldsResult(entry, cb) && ResultDrop(Ran(entry, cb).ending.result).Panicked? then Aborts
                            else Fails(caught), events)
                    else Prepend(events, UnwindsTask(cb, caught))
                  case Returned =>
                    if open then Block(Completed, events)
                    else Block(if cb.dropTask.Panicked? then
                                 Fails(Caught(PanicPhase.TaskCleanup, cb.dropTask.payload))
                               else Completed, events + [TaskDropped(cb.dropTask)])
  {
    var given := Given(entry, cb);
    LockedCases(cb, given, HoldsResult(entry, cb));
    if cb.second == Sees(true) {
      OpenCases(cb, given, HoldsResult(entry, cb));
    } else if cb.second == Sees(false) {
      ClosedCases(cb, given, HoldsResult(entry, cb));
    }
  }

  // ----- every step stays on the path -----

  /** A step that ends the locked phase hands over to finalization on the path. */
  lemma EntersFinalize(entry: Entry, cb: Callbacks, token: Token, locked: Result<LockedExecution, Caught>,
                       trace: seq<Event>, events: seq<Event>)
    requires Opened(entry, cb) && token == TokenAfter(cb, Given(entry, cb))
    requires trace == Opening(entry, cb) + events
    requires BlockOf(entry, cb) ==
             Block(match locked
                   case Ok(_) => Completed
                   case Err(caught) => Fails(caught), events)
    requires locked.Ok? ==> locked.value == LockedValue(cb, Given(entry, cb))
    ensures OnPath(entry, cb, AtFinalize(token, locked))
    ensures trace == History(entry, cb, AtFinalize(token, locked))
  {
  }

  lemma EntersAbort(entry: Entry, cb: Callbacks, trace: seq<Event>, events: seq<Event>)
    requires Opened(entry, cb)
    requires trace == Opening(entry, cb) + events
    requires BlockOf(entry, cb) == Block(Aborts, events)
    ensures OnPath(entry, cb, AtAbort)
    ensures trace == History(entry, cb, AtAbort)
  {
    MeaningAborts(entry, cb);
  }

  lemma FollowsCheck(script: Script, l: Local, g: Globals)
    requires Follows(script.entry, l)
    ensures l.pc.AtInitial? ==> Follows(script.entry, StepInitial(script, l, g))
    ensures l.pc.AtPrepare? && Unresolved(script, l) ==> Follows(script.entry, StepPrepare(script, l, g))
    ensures l.pc.AtAcquire? ==> Follows(script.entry, StepAcquire(script, l, g, l.pc.token))
  {
  }

  lemma FollowsLocked(script: Script, l: Local, g: Globals)
    requires Follows(script.entry, l)
    ensures l.pc.AtSecond? ==> Follows(script.entry, StepSecond(script, l, g, l.pc.token))
    ensures l.pc.AtTaskEnd? ==> Follows(script.entry, StepTaskEnd(l, l.pc.token))
  {
    var entry := script.entry;
    if l.pc.AtSecond? {
      var l' := StepSecond(script, l, g, l.pc.token);
      assert Opening(entry, l'.callbacks) == Opening(entry, l.callbacks);
      var events := [AcquireRan(l.callbacks.acquire)] + [SecondCheckRan(l'.callbacks.second)];
      assert l'.trace == Opening(entry, l.callbacks) + events;
    }
    if l.pc.AtTaskEnd? {
      var l' := StepTaskEnd(l, l.pc.token);
      assert l'.trace == Opening(entry, l.callbacks) + CheckedEvents(entry, l.callbacks);
    }
  }

  lemma FollowsRelease(script: Script, l: Local)
    requires l.pc.AtRelease? && Follows(script.entry, l)
    ensures Follows(script.entry, StepRelease(script, l, l.pc.token, l.pc.value))
  {
    var entry, cb := script.entry, l.callbacks;
    BlockCases(entry, cb);
    var l' := StepRelease(script, l, l.pc.token, l.pc.value);
    var events := CheckedEvents(entry, cb) + [GuardDropped(cb.release, false)];
    assert l'.trace == Opening(entry, cb) + events;
    if l'.pc.AtFinalize? {
      EntersFinalize(entry, cb, l'.pc.token, l'.pc.locked, l'.trace, events);
    }
  }

  lemma FollowsCleanup(script: Script, l: Local)
    requires l.pc.AtCleanup? && Follows(script.entry, l)
    ensures Follows(script.entry, StepCleanup(l, l.pc.token))
  {
    var entry, cb := script.entry, l.callbacks;
    BlockCases(entry, cb);
    var l' := StepCleanup(l, l.pc.token);
    var events := CheckedEvents(entry, cb) + [GuardDropped(cb.release, false)] + [TaskDropped(cb.dropTask)];
    assert l'.trace == Opening(entry, cb) + events;
    EntersFinalize(entry, cb, l'.pc.token, l'.pc.locked, l'.trace, events);
  }

  lemma FollowsUnwindGuard(script: Script, l: Local)
    requires l.pc.AtUnwindGuard? && Follows(script.entry, l)
    ensures Follows(script.entry, StepUnwindGuard(l, l.pc.token, l.pc.caught, l.pc.dropsTask))
  {
    var entry, cb := script.entry, l.callbacks;
    BlockCases(entry, cb);
    var l' := StepUnwindGuard(l, l.pc.token, l.pc.caught, l.pc.dropsTask);
    var events := CheckedEvents(entry, cb) + [GuardDropped(cb.releaseUnwinding, true)];
    assert l'.trace == Opening(entry, cb) + events;
    if l'.pc.AtFinalize? {
      EntersFinalize(entry, cb, l'.pc.token, l'.pc.locked, l'.trace, events);
    } else if l'.pc.AtAbort? {
      EntersAbort(entry, cb, l'.trace, events);
    }
  }

  lemma FollowsUnwindTask(script: Script, l: Local)
    requires l.pc.AtUnwindTask? && Follows(script.entry, l)
    ensures Follows(script.entry, StepUnwindTask(l, l.pc.token, l.pc.caught))
  {
    var entry, cb := script.entry, l.callbacks;
    BlockCases(entry, cb);
    var l' := StepUnwindTask(l, l.pc.token, l.pc.caught);
    var events := (if cb.acquire.Panicked? then [AcquireRan(cb.acquire)]
                   else CheckedEvents(entry, cb) +
                        (if cb.second.CheckPanics? then [GuardDropped(cb.releaseUnwinding, true)]
                         else [GuardDropped(cb.release, false)])) + [TaskDropped(cb.dropTask)];
    assert l'.trace == Opening(entry, cb) + events;
    assert BlockOf(entry, cb).trace == events;
    if l'.pc.AtFinalize? {
      EntersFinalize(entry, cb, l'.pc.token, l'.pc.locked, l'.trace, events);
    } else {
      EntersAbort(entry, cb, l'.trace, events);
    }
  }

  lemma FollowsUnwindResult(script: Script, l: Local)
    requires l.pc.AtUnwindResult? && Follows(script.entry, l)
    ensures Follows(script.entry, StepUnwindResult(l, l.pc.token, l.pc.caught, l.pc.dropped))
  {
    var entry, cb := script.entry, l.callbacks;
    BlockCases(entry, cb);
    var l' := StepUnwindResult(l, l.pc.token, l.pc.caught, l.pc.dropped);
    var events := CheckedEvents(entry, cb) + [GuardDropped(cb.release, false)];
    assert l'.trace == Opening(entry, cb) + events;
    if l'.pc.AtFinalize? {
      EntersFinalize(entry, cb, l'.pc.token, l'.pc.locked, l'.trace, events);
    } else {
      EntersAbort(entry, cb, l'.trace, events);
    }
  }

  lemma FollowsFinalize(script: Script, l: Local)
    requires l.pc.AtFinalize? && Follows(script.entry, l)
    ensures Follows(script.entry, StepFinalize(script, l, l.pc.token, l.pc.locked))
  {
    MeaningAfterLock(script.entry, l.callbacks, l.pc.locked);
  }

  lemma FollowsSkip(script: Script, l: Local)
    requires l.pc.AtSkip? && Follows(script.entry, l)
    ensures Follows(script.entry, StepSkip(script, l, l.pc.why))
  {
    var entry, cb := script.entry, l.callbacks;
    var ending := SkipEnding(entry, cb, l.pc.why);
    assert Meaning(entry, cb).0 == ending;
    assert Meaning(entry, cb).1 == History(entry, cb, l.pc) + [TaskDropped(cb.dropTask)];
  }

  /** Every step of an invocation keeps it on its sequential path. */
  lemma StepFollows(script: Script, l: Local, g: Globals)
    requires !Finished(l.pc) && Follows(script.entry, l) && Unresolved(script, l)
    ensures Follows(script.entry, NextLocal(script, l, g))
  {
    match l.pc {
      case AtInitial => FollowsCheck(script, l, g);
      case AtPrepare => FollowsCheck(script, l, g);
      case AtAcquire(_) => FollowsCheck(script, l, g);
      case AtSecond(_) => FollowsLocked(script, l, g);
      case AtTaskStart(_) =>
      case AtPublish(_) =>
      case AtStore(_) =>
      case AtTaskEnd(_) => FollowsLocked(script, l, g);
      case AtRelease(_, _) => FollowsRelease(script, l);
      case AtCleanup(_) => FollowsCleanup(script, l);
      case AtUnwindGuard(_, _, _) => FollowsUnwindGuard(script, l);
      case AtUnwindTask(_, _) => FollowsUnwindTask(script, l);
      case AtUnwindResult(_, _, _) => FollowsUnwindResult(script, l);
      case AtFinalize(_, _) => FollowsFinalize(script, l);
      case AtSkip(_) => FollowsSkip(script, l);
    }
  }

  /** The callbacks change only while something is still to be resolved. */
  lemma CallbacksKept(script: Script, l: Local, g: Globals)
    requires !Finished(l.pc)
    requires !l.pc.AtInitial? && !l.pc.AtPrepare? && !l.pc.AtAcquire? && !l.pc.AtSecond?
    ensures var l' := NextLocal(script, l, g);
            && l'.callbacks == l.callbacks
            && !l'.pc.AtInitial? && !l'.pc.AtPrepare? && !l'.pc.AtAcquire? && !l'.pc.AtSecond?
  {
  }

  lemma StepResolves(script: Script, l: Local, g: Globals)
    requires !Finished(l.pc) && Resolves(script, l.callbacks) && Unresolved(script, l)
    ensures Resolves(script, NextLocal(script, l, g).callbacks)
    ensures Unresolved(script, NextLocal(script, l, g))
  {
    if l.pc.AtInitial? || l.pc.AtSecond? {
      ReadResolves(script, l, g);
    } else if l.pc.AtPrepare? || l.pc.AtAcquire? {
      GrantResolves(script, l, g);
    } else {
      CallbacksKept(script, l, g);
    }
  }

  lemma ReadResolves(script: Script, l: Local, g: Globals)
    requires (l.pc.AtInitial? || l.pc.AtSecond?) && Resolves(script, l.callbacks) && Unresolved(script, l)
    ensures Resolves(script, NextLocal(script, l, g).callbacks)
    ensures Unresolved(script, NextLocal(script, l, g))
  {
  }

  lemma GrantResolves(script: Script, l: Local, g: Globals)
    requires (l.pc.AtPrepare? || l.pc.AtAcquire?) && Resolves(script, l.callbacks) && Unresolved(script, l)
    ensures Resolves(script, NextLocal(script, l, g).callbacks)
    ensures Unresolved(script, NextLocal(script, l, g))
  {
  }
}
