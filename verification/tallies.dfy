/** Counting the events that create and consume tokens. */
module Tallies {
  import opened Outcomes

  datatype Kind = Preparing | Committing | RollingBack | DroppingToken | Finalizing | EndingTask

  predicate Finalizes(event: Event) {
    event.CommitRan? || event.RollbackRan? || event.TokenDropped?
  }

  predicate Matches(kind: Kind, event: Event) {
    match kind
    case Preparing => event.PrepareRan? && event.preparation.Prepared?
    case Committing => event.CommitRan?
    case RollingBack => event.RollbackRan?
    case DroppingToken => event.TokenDropped?
    case Finalizing => Finalizes(event)
    case EndingTask => event.TaskEnded?
  }

  function Tally(kind: Kind, trace: seq<Event>): nat {
    if trace == [] then 0 else (if Matches(kind, trace[0]) then 1 else 0) + Tally(kind, trace[1..])
  }

  lemma {:induction false} TallyConcat(kind: Kind, a: seq<Event>, b: seq<Event>)
    ensures Tally(kind, a + b) == Tally(kind, a) + Tally(kind, b)
  {
    if a == [] {
      assert a + b == b;
    } else {
      assert (a + b)[0] == a[0] && (a + b)[1..] == a[1..] + b;
      TallyConcat(kind, a[1..], b);
    }
  }

  lemma {:induction false} TallyNone(kind: Kind, trace: seq<Event>)
    requires forall e :: e in trace ==> !Matches(kind, e)
    ensures Tally(kind, trace) == 0
  {
    if trace != [] {
      TallyNone(kind, trace[1..]);
    }
  }

  lemma TallySnoc(kind: Kind, trace: seq<Event>, event: Event)
    ensures Tally(kind, trace + [event]) == Tally(kind, trace) + (if Matches(kind, event) then 1 else 0)
  {
    TallyConcat(kind, trace, [event]);
    assert [event][1..] == [];
  }

  /** Every finalization is a commit, a rollback or a dropped token. */
  lemma {:induction false} FinalizationsSplit(trace: seq<Event>)
    ensures Tally(Finalizing, trace) ==
            Tally(Committing, trace) + Tally(RollingBack, trace) + Tally(DroppingToken, trace)
  {
    if trace != [] {
      FinalizationsSplit(trace[1..]);
    }
  }
}
