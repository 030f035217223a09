/** The connection-recovery budget and its no-progress guard (src/receiver.py:103-152). */
module Recovery {
  import opened Ranges

  /** How an error counts: the pipeline's own failure, one a fresh connection cannot fix, a connection failure, or a
    session that another receiver holds. */
  datatype ErrorKind = Own | Fatal | Connection | SessionLocked

  /** A fresh connection may help. */
  predicate Recyclable(kind: ErrorKind) {
    kind.Connection? || kind.SessionLocked?
  }

  datatype Event = Progress | Recycle | Recovered

  const MAX_RECOVERIES := 5

  /** No recovery since the last progress. */
  ghost predicate Ready(h: seq<Event>) {
    h == [] || Last(h).Progress? || (Last(h).Recycle? && Ready(Front(h)))
  }

  /** Every recovery came when the tracker was ready for it. */
  ghost predicate Spaced(h: seq<Event>) {
    h != [] ==> Spaced(Front(h)) && (Last(h).Recovered? ==> Ready(Front(h)))
  }

  ghost function CountOf(h: seq<Event>, e: Event): nat {
    if h == [] then 0 else CountOf(Front(h), e) + if Last(h) == e then 1 else 0
  }

  lemma {:induction false} ReadyMeansProgress(h: seq<Event>, i: nat) returns (k: nat)
    requires Ready(h) && i < |h| && h[i].Recovered?
    ensures i < k < |h| && h[k].Progress?
  {
    if Last(h).Progress? {
      k := |h| - 1;
    } else {
      k := ReadyMeansProgress(Front(h), i);
    }
  }

  /** Between any two recoveries a row was written or an unreadable body finally disposed of. */
  lemma {:induction false} ProgressBetweenRecoveries(h: seq<Event>, i: nat, j: nat) returns (k: nat)
    requires Spaced(h) && i < j < |h| && h[i].Recovered? && h[j].Recovered?
    ensures i < k < j && h[k].Progress?
  {
    if j < |h| - 1 {
      k := ProgressBetweenRecoveries(Front(h), i, j);
    } else {
      k := ReadyMeansProgress(Front(h), i);
    }
  }

  class RecoveryTracker {
    var generation: nat
    var count: nat
    var progressed: bool
    ghost var history: seq<Event>

    ghost predicate Valid()
      reads this
    {
      && Spaced(history) && (progressed ==> Ready(history)) && count <= MAX_RECOVERIES
      && count == CountOf(history, Recovered) && generation == count + CountOf(history, Recycle)
    }

    /** A failure that ends the run: no connection helps, the budget is used up, or nothing was achieved since the last
      recovery. */
    predicate Hopeless(kind: ErrorKind)
      reads this
    {
      !Recyclable(kind) || count >= MAX_RECOVERIES || !progressed
    }

    /** The budget and the guard are as they were. */
    ghost predicate Alike(count: nat, progressed: bool)
      reads this
    {
      this.count == count && this.progressed == progressed
    }

    constructor ()
      ensures Valid() && generation == count == 0 && history == [] && progressed
    {
      generation, count, progressed, history := 0, 0, true, [];
    }

    ghost method Note(e: Event)
      modifies this`history
      ensures history == old(history) + [e]
      ensures Spaced(history) <==> Spaced(old(history)) && (e.Recovered? ==> Ready(old(history)))
      ensures Ready(history) <==> e.Progress? || (e.Recycle? && Ready(old(history)))
      ensures forall x :: CountOf(history, x) == CountOf(old(history), x) + if x == e then 1 else 0
    {
      history := history + [e];
      assert Front(history) == old(history);
    }

    method NoteProgress()
      requires Valid()
      modifies this
      ensures Valid() && progressed && generation == old(generation) && count == old(count)
    {
      Note(Progress);
      progressed := true;
    }

    /** A fresh connection for an unreadable body: its own budget, not a recovery. */
    method UnreadableRetry()
      requires Valid()
      modifies this
      ensures Valid() && generation == old(generation) + 1 && count == old(count) && progressed == old(progressed)
    {
      Note(Recycle);
      generation := generation + 1;
    }

    /** Accounts for a failure, or ends the run. */
    method Failure(kind: ErrorKind) returns (ends: bool)
      requires Valid()
      modifies this
      ensures Valid()
      ensures ends <==> old(Hopeless(kind))
      ensures ends ==> generation == old(generation) && count == old(count) && progressed == old(progressed)
      ensures !ends ==> generation == old(generation) + 1 && count == old(count) + 1 && !progressed
    {
      ends := Hopeless(kind);
      if !ends {
        Note(Recovered);
        count, generation, progressed := count + 1, generation + 1, false;
      }
    }
  }
}
