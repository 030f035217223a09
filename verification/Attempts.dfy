/** The attempts to export a page, in order, and what they say about the paging state (src/peek.py:145-153,
  src/peek.py:281-342): which messages became rows or were finally skipped, and that the stored cursor passes another
  one only after an attempt that broke. */
module Attempts {
  import opened Ranges
  import opened Broker
  import opened Paging

  /** One attempt: the turn it was made in, whether by explicit paging, the messages it marked because they are
    scheduled or expired, those it selected, those of them that asked for a retry, those that could not be read then,
    and whether writing broke. */
  datatype Attempt = Attempt(turn: nat, explicit: bool, marked: set<int>, selected: set<int>, asked: set<int>,
                             unread: set<int>, broke: bool)

  /** What an attempt writes: nothing when it breaks. */
  ghost function WrittenBy(a: Attempt): set<int> {
    if a.broke then {} else a.selected - a.asked - a.unread
  }

  /** What an attempt is finally done with without a row. */
  ghost function SkippedBy(a: Attempt): set<int> {
    a.marked + if a.broke then {} else (a.selected - a.asked) * a.unread
  }

  ghost function RowsOf(trace: seq<Attempt>): set<int> {
    if trace == [] then {} else RowsOf(Front(trace)) + WrittenBy(Last(trace))
  }

  ghost function Skipped(trace: seq<Attempt>): set<int> {
    if trace == [] then {} else Skipped(Front(trace)) + SkippedBy(Last(trace))
  }

  /** All bodies that ever asked for a retry. */
  ghost function AskedIn(trace: seq<Attempt>): set<int> {
    if trace == [] then {} else AskedIn(Front(trace)) + Last(trace).asked
  }

  /** How often a fresh connection was opened for them. */
  ghost function Recycles(trace: seq<Attempt>): nat {
    if trace == [] then 0 else Recycles(Front(trace)) + if !Last(trace).broke && Last(trace).asked != {} then 1 else 0
  }

  ghost predicate LastBroke(trace: seq<Attempt>) {
    trace != [] && Last(trace).broke
  }

  /** The bodies that wait for their retry: those that asked for one in the last attempt that did not break. */
  ghost function WaitingIn(trace: seq<Attempt>): set<int> {
    if trace == [] then {} else if Last(trace).broke then WaitingIn(Front(trace)) else Last(trace).asked
  }

  ghost predicate StillWaiting(trace: seq<Attempt>) {
    WaitingIn(trace) != {}
  }

  /** `x` lies below every body that waits for its retry. */
  ghost predicate BelowWaiting(trace: seq<Attempt>, x: int) {
    forall w :: w in WaitingIn(trace) ==> x < w
  }

  /** What the attempts marked since the last one that did not break. */
  ghost function MarkedSince(trace: seq<Attempt>): set<int> {
    if LastBroke(trace) then MarkedSince(Front(trace)) + Last(trace).marked else {}
  }

  /** The last attempt selected `x` and broke, no body waits for its retry, and a message above `x` was marked by that
    attempt or by those that broke just before it. */
  ghost predicate LeftBehind(trace: seq<Attempt>, x: int) {
    && LastBroke(trace) && x in Last(trace).selected && !StillWaiting(trace)
    && exists m :: m in MarkedSince(trace) && x < m
  }

  /** What the attempts say about the view. */
  ghost predicate Tracked(v: View, s: set<int>, trace: seq<Attempt>) {
    && IsLeast(v.outstanding, WaitingIn(trace))
    && (LastBroke(trace) ==> v.window == Last(trace).selected)
    && (!LastBroke(trace) && !StillWaiting(trace) ==> v.window == {})
    && (forall m :: m in MarkedSince(trace) ==> UpTo(v.high, m))
    && (!StillWaiting(trace) ==> Overtaken(v, s, MarkedSince(trace)))
  }

  /** A stored message of the window up to the mark lies below one of `marked`. */
  ghost predicate Overtaken(v: View, s: set<int>, marked: set<int>) {
    forall x :: x in v.window && x in s && v.next <= x && UpTo(v.high, x) ==> Below(x, marked)
  }

  ghost predicate Below(x: int, marked: set<int>) {
    exists m :: m in marked && x < m
  }

  lemma TrackedLater(k: Config, v: View, s: set<int>, ever: set<int>, s': set<int>, trace: seq<Attempt>)
    requires Inv(k, v, s, ever) && Grows(s, ever, s') && Tracked(v, s, trace)
    ensures Tracked(v, s', trace)
  {
    assert forall x :: x in s' && UpTo(v.high, x) ==> x in s;
  }

  /** An attempt that breaks. */
  lemma TrackedBroken(k: Config, v: View, v': View, s: set<int>, ever: set<int>, trace: seq<Attempt>, a: Attempt)
    requires Inv(k, v, s, ever) && Tracked(v, s, trace) && a.broke && v'.next == v.next
    requires v'.outstanding == v.outstanding
    requires v'.window == a.selected && RaisedBy(v.high, a.marked, v'.high) && a.marked !! a.selected
    requires a.selected !! v.handled
    ensures Tracked(v', s, trace + [a])
  {
    assert Front(trace + [a]) == trace;
    if !StillWaiting(trace) {
      forall x | x in v'.window && x in s && v'.next <= x && UpTo(v'.high, x)
        ensures Below(x, MarkedSince(trace) + a.marked)
      {
        if UpTo(v.high, x) {
          assert x in Span(s, v.next, v.high);
          var m :| m in MarkedSince(trace) && x < m;
        } else {
          assert v'.high.value in a.marked;
        }
      }
    }
  }

  /** An attempt that does not. */
  lemma TrackedDone(v': View, s: set<int>, trace: seq<Attempt>, a: Attempt)
    requires !a.broke && v'.window == a.asked && IsLeast(v'.outstanding, a.asked)
    ensures Tracked(v', s, trace + [a])
  {
  }

  /** Moving on changes neither the window nor the mark. */
  lemma TrackedMoved(v: View, v': View, s: set<int>, trace: seq<Attempt>)
    requires Tracked(v, s, trace) && v'.window == v.window && v'.high == v.high && v'.outstanding == v.outstanding
    requires v.next <= v'.next
    ensures Tracked(v', s, trace)
  {
  }

  /** A stored message that the cursor covers is unexported exactly when it was left behind by an attempt that broke. */
  lemma UnexportedIsLeftBehind(k: Config, v: View, s: set<int>, ever: set<int>, trace: seq<Attempt>, x: int)
    requires Inv(k, v, s, ever) && Tracked(v, s, trace) && x in s && v.start <= x
    ensures Covered(v, x) && x !in v.handled <==> LeftBehind(trace, x)
  {
    if Covered(v, x) && x !in v.handled {
      UnhandledIsInWindow(k, v, s, ever, x);
      assert Below(x, MarkedSince(trace));
    }
    if LeftBehind(trace, x) {
      var m :| m in MarkedSince(trace) && x < m;
      assert UpTo(v.high, m);
    }
  }
}
