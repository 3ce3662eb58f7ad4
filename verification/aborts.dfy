/** Exactly which invocations take the process down: those that panic twice at once. */
module Aborts {
  import opened Outcomes
  import opened LockedPhase
  import opened DclExecutors
  import opened LifecycleSemantics
  import opened LockedProperties
  import opened Erasure
  import opened Protocol

  /** The skipped task's destructor panics into an unwind that is already under way before the lock. */
  predicate EarlyDoublePanic(cb: Callbacks) {
    && cb.dropTask.Panicked?
    && (cb.first.CheckPanics? || (cb.first == Sees(true) && cb.prepare.PreparePanics?))
  }

  /** The prepare error in the return slot panics when the skipped task's panic destroys it. */
  predicate PrepareErrorDoublePanic(cb: Callbacks) {
    && cb.first == Sees(true) && cb.prepare.PrepareErrs?
    && cb.dropTask.Panicked? && cb.dropsReturnSlot && cb.prepare.error.dropped.Panicked?
  }

  /** A destructor panics while another panic of the same invocation unwinds, in terms of the callbacks alone. */
  predicate DoublePanics(entry: Entry, cb: Callbacks) {
    match entry
    case BasicEntry(false) =>
      || CleanupPanicsAfterCheckPanic(cb)
      || (cb.first == Sees(true) && LockedDoublePanic(cb, UNIT_TOKEN) && !ResultLeaksOnRelease(cb, UNIT_TOKEN))
    case BasicEntry(true) => cb.first == Sees(true) && LockedDoublePanic(cb, UNIT_TOKEN)
    case LifecycleEntry(false) =>
      || EarlyDoublePanic(cb)
      || PrepareErrorDoublePanic(cb)
      || (cb.first == Sees(true) && cb.prepare.Prepared? && LockedDoublePanic(cb, cb.prepare.token))
      || ResultPanicsDuringFinalization(cb)
    case LifecycleEntry(true) =>
      cb.first == Sees(true) && cb.prepare.Prepared? && LockedDoublePanic(cb, cb.prepare.token)
  }

  /** An entry point aborts exactly on a double panic. */
  lemma AbortsExactly(entry: Entry, cb: Callbacks)
    ensures EndsInAbort(Meaning(entry, cb).0) <==> DoublePanics(entry, cb)
  {
    match entry
    case BasicEntry(false) => BasicAbortsExactly(cb);
    case BasicEntry(true) => BasicContainment(cb);
    case LifecycleEntry(false) => LifecycleAbortsExactly(cb);
    case LifecycleEntry(true) => LifecycleContainment(cb);
  }

  lemma BasicAbortsExactly(cb: Callbacks)
    ensures RunBasic(cb).flow.Abort? <==> DoublePanics(BasicEntry(false), cb)
  {
    BasicErasure(cb);
    BasicContainment(cb);
    if !RunBasic(cb).flow.Abort? {
      BasicErasureWithoutAbort(cb);
    }
    if ResultLeaksOnRelease(cb, UNIT_TOKEN) {
      LockedCases(cb, UNIT_TOKEN, false);
      OpenCases(cb, UNIT_TOKEN, false);
    }
  }

  lemma LifecycleAbortsExactly(cb: Callbacks)
    ensures RunWithToken(cb).flow.Abort? <==> DoublePanics(LifecycleEntry(false), cb)
  {
    if cb.first == Sees(true) && cb.prepare.Prepared? {
      LifecycleErasure(cb);
      LifecycleContainment(cb);
      if ResultPanicsDuringFinalization(cb) {
        LifecycleErasureExceptions(cb);
      }
    }
  }
}
