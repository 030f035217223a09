/** The peek pager (src/peek.py): explicit paging from the cursor, cursor mode on partitioned entities, one receiver for
  each session. The broker, the clock and the pipeline are a script with one turn for each peek. */
module Peek {
  import opened Ranges
  import opened Broker
  import opened Settlement
  import opened Recovery
  import opened Paging
  import opened Attempts

  /** How processing a selection ends; an own failure ends the run, a broken one is a recycle candidate. The sink writes
    all rows or none. */
  datatype End = Returned | OwnFailure | Broke(kind: ErrorKind)

  /** One peek: the clock, whether opening or peeking fails, what is stored (ascending), what cursor mode returns,
    whether the page shows partitioned numbers, which bodies cannot be decoded now, which are unreadable for good. */
  datatype Turn = Turn(pastDeadline: bool, fails: Option<ErrorKind>, stored: seq<int>, cursorPage: seq<int>,
                       partitioned: bool, now: int, undecodable: set<int>, unreadable: set<int>, end: End)

  datatype PeekCursor = PeekCursor(path: string, last: int)

  /** What opening the next session does. */
  datatype OpenReply = Handed(id: string) | NoMoreSessions | OpenFails(kind: ErrorKind)

  datatype SessionTurn = SessionTurn(open: OpenReply, turn: Turn)

  datatype SessionStop = NoMore | Revisited | AtStop(stop: Stop)

  datatype SessionEnding = MoreSessions | SessionsStopped(why: SessionStop) | SessionsFailed

  /** Whether a session is open, where its next page begins, and the sessions handed out since the last connection. */
  datatype Place = Place(session: bool, next: int, seen: set<string>)

  /** How a visit to a session ended: at an empty page, at the first message of this job, or because the session turned
    out to be held by another receiver. */
  datatype VisitEnd = Finished | AtJob(first: int) | TakenOver

  /** One session from the turn that handed it out to the turn that left it. */
  datatype Visit = Visit(id: string, begin: nat, end: nat, how: VisitEnd)

  /** The visits since turn `from`, the first one on the present connection; `begin` is where the open session began. */
  datatype Tour = Tour(from: nat, begin: nat, visits: seq<Visit>)

  /** `_start` (src/peek.py:132-143). */
  function StartAt(cursor: Option<PeekCursor>, path: string): int {
    if cursor.Some? && cursor.value.path == path then cursor.value.last + 1 else 1
  }

  datatype PageResult = PageDone(stop: Option<Stop>, retried: seq<int>, progressed: bool)
                      | PageFailed | PageBroke(kind: ErrorKind)

  datatype PeekEnding = Stopped(stop: Stop) | RunFailed | StillRunning

  lemma {:induction false} ScanSticky(c: Scanner, page: seq<int>, i: nat)
    requires i <= |page| && Scan(c, page[..i]).stop.Some?
    ensures Scan(c, page) == Scan(c, page[..i])
  {
    if i == |page| {
      assert page[..i] == page;
    } else {
      assert Front(page)[..i] == page[..i];
      ScanSticky(c, Front(page), i);
    }
  }

  /** The scanning loop of `_export` (src/peek.py:289-311). */
  method ScanPage(c: Scanner, page: seq<int>) returns (r: Scanned)
    ensures r == Scan(c, page)
  {
    r := Scanned([], [], None, 0);
    for i := 0 to |page|
      invariant r == Scan(c, page[..i])
    {
      assert Front(page[..i + 1]) == page[..i] && Last(page[..i + 1]) == page[i];
      r := Look(r, c, page[i]);
      if r.stop.Some? {
        ScanSticky(c, page, i + 1);
        return;
      }
    }
    assert page[..|page|] == page;
  }

  /** `_mark_processed` for several messages: the highest processed number only rises (src/peek.py:340-342). */
  method RaiseHigh(high: Option<int>, nums: seq<int>) returns (high': Option<int>)
    ensures RaisedBy(high, Elements(nums), high')
  {
    high' := high;
    for i := 0 to |nums|
      invariant RaisedBy(high, Elements(nums[..i]), high')
    {
      TakeOneMore(nums, i);
      high' := if high'.None? || high'.value < nums[i] then Some(nums[i]) else high';
    }
    assert nums[..|nums|] == nums;
  }

  method Least(nums: seq<int>) returns (m: Option<int>)
    ensures IsLeast(m, Elements(nums))
  {
    m := None;
    for i := 0 to |nums|
      invariant IsLeast(m, Elements(nums[..i]))
    {
      TakeOneMore(nums, i);
      m := if m.None? || nums[i] < m.value then Some(nums[i]) else m;
    }
    assert nums[..|nums|] == nums;
  }

  /** A selection after decoding: the bodies that ask for a retry, the others, and those of them that become rows. */
  datatype Parts = Parts(retried: seq<int>, done: seq<int>, written: seq<int>)

  /** `asks` are the bodies that get a retry when they cannot be decoded, `unread` those that cannot be read now. */
  ghost predicate Divided(selected: seq<int>, asks: set<int>, unread: set<int>, p: Parts) {
    && Distinct(p.retried) && Distinct(p.done) && Distinct(p.written)
    && Elements(p.retried) == Elements(selected) * asks
    && Elements(p.done) == Elements(selected) - Elements(p.retried)
    && Elements(p.written) == Elements(p.done) - unread
    && (asks == {} ==> p.retried == []) && |p.done| + |p.retried| == |selected| && |p.written| <= |p.done|
  }

  function Sort(p: Parts, num: int, asks: set<int>, unread: set<int>): Parts {
    if num in asks then p.(retried := p.retried + [num])
    else if num in unread then p.(done := p.done + [num])
    else p.(done := p.done + [num], written := p.written + [num])
  }

  lemma DistinctSnoc(s: seq<int>, x: int)
    requires Distinct(s) && x !in Elements(s)
    ensures Distinct(s + [x]) && Elements(s + [x]) == Elements(s) + {x}
  {
  }

  lemma SortStep(selected: seq<int>, i: nat, asks: set<int>, unread: set<int>, p: Parts)
    requires i < |selected| && Distinct(selected) && Divided(selected[..i], asks, unread, p)
    ensures Divided(selected[..i + 1], asks, unread, Sort(p, selected[i], asks, unread))
  {
    var x := selected[i];
    TakeOneMore(selected, i);
    assert x !in Elements(selected[..i]);
    assert Elements(p.retried) + Elements(p.done) + Elements(p.written) <= Elements(selected[..i]);
    DistinctSnoc(p.retried, x);
    DistinctSnoc(p.done, x);
    DistinctSnoc(p.written, x);
  }

  method Divide(selected: seq<int>, asks: set<int>, unread: set<int>) returns (p: Parts)
    requires Distinct(selected)
    ensures Divided(selected, asks, unread, p)
  {
    p := Parts([], [], []);
    for i := 0 to |selected|
      invariant Divided(selected[..i], asks, unread, p)
    {
      SortStep(selected, i, asks, unread, p);
      p := Sort(p, selected[i], asks, unread);
    }
    assert selected[..|selected|] == selected;
  }

  /** `done` is written, but for the bodies that cannot be read. */
  ghost predicate RowsFor(before: seq<int>, rows: seq<int>, done: set<int>, turn: Turn) {
    Elements(rows) == Elements(before) + (done - Unread(turn))
  }

  /** The bodies that cannot be read in a turn. */
  function Unread(turn: Turn): set<int> {
    turn.undecodable + turn.unreadable
  }

  /** Every row is written once, and the counted messages keep the limit. */
  ghost predicate Once(rows: seq<int>, handled: set<int>, taken: nat, limit: nat) {
    Distinct(rows) && Elements(rows) <= handled && |rows| <= taken && (limit > 0 ==> taken <= limit)
  }

  lemma OnceGrows(rows: seq<int>, handled: set<int>, taken: nat, limit: nat, written: seq<int>, done: seq<int>)
    requires Once(rows, handled, taken, limit) && Distinct(written) && Elements(written) <= Elements(done)
    requires Elements(done) !! handled
    requires |written| <= |done| && (limit > 0 ==> taken + |done| <= limit)
    ensures Once(rows + written, handled + Elements(done), taken + |done|, limit)
  {
    AllElements(rows);
    AllElements(written);
    ElementsConcat(rows, written);
  }

  class PeekPager {
    const k: Config
    const tracker: RecoveryTracker
    var processed: set<int>
    var high: Option<int>
    var outstanding: Option<int>
    var taken: nat
    var recycles: nat
    var failed: set<int>
    var rows: seq<int>
    ghost var handled: set<int>
    ghost var window: set<int>
    ghost var trace: seq<Attempt>

    constructor (k: Config)
      ensures Valid() && tracker.Valid() && fresh(tracker) && this.k == k && rows == [] && taken == 0
      ensures tracker.count == 0 && tracker.progressed
      ensures AtStart()
    {
      this.k := k;
      tracker := new RecoveryTracker();
      processed, high, outstanding, taken, recycles, failed, rows, handled, window, trace :=
        {}, None, None, 0, 0, {}, [], {}, {}, [];
    }

    ghost predicate Valid()
      reads this
    {
      recycles <= MAX_UNREADABLE_RECYCLES && Once(rows, handled, taken, k.limit)
    }

    ghost function At(start: int, next: int): View
      reads this
    {
      View(start, next, processed, high, outstanding, taken, handled, window)
    }

    /** Messages finally dealt with: in the processed set, and the highest mark raised (src/peek.py:340-342). */
    method Mark(nums: seq<int>)
      modifies this`processed, this`high
      ensures processed == old(processed) + Elements(nums)
      ensures RaisedBy(old(high), Elements(nums), high)
    {
      processed := processed + (set n | n in nums);
      high := RaiseHigh(high, nums);
    }

    /** The rows of one selection reach the sink, each for the first time, and its messages are done. */
    method Settle(p: Parts)
      requires Valid() && Distinct(p.written) && Distinct(p.done) && Elements(p.written) <= Elements(p.done)
      requires Elements(p.done) !! handled
      requires |p.written| <= |p.done| && (k.limit > 0 ==> taken + |p.done| <= k.limit)
      modifies this`rows, this`taken, this`processed, this`high, this`handled
      ensures Valid() && rows == old(rows) + p.written && taken == old(taken) + |p.done|
      ensures Absorbed(old(At(0, 0)), At(0, 0), {}, Elements(p.done))
    {
      DistinctSize(p.done);
      assert {} + Elements(p.done) == Elements(p.done);
      OnceGrows(rows, handled, taken, k.limit, p.written, p.done);
      handled := handled + Elements(p.done);
      rows, taken := rows + p.written, taken + |p.done|;
      Mark(p.done);
    }

    /** The bodies that get a retry on a fresh connection: a first failure, within the budget
      (src/settlement.py:189-203). */
    function Asks(turn: Turn, retriesEnabled: bool): set<int>
      reads this
    {
      if retriesEnabled && recycles < MAX_UNREADABLE_RECYCLES then turn.undecodable - failed else {}
    }

    /** First failures are remembered (src/settlement.py:205-206). */
    method NoteFailures(selected: seq<int>, asks: set<int>)
      modifies this`failed
      ensures failed == old(failed) + Elements(selected) * asks
    {
      AllElements(selected);
      failed := failed + (set n | n in selected && n in asks);
    }

    /** Hands the selection to the pipeline (src/peek.py:322-338): bodies to retry come back, the others are written or
      finally skipped. An own failure ends the run after the rows were written. */
    method Process(selected: seq<int>, turn: Turn, retriesEnabled: bool) returns (res: PageResult, ghost back: set<int>)
      requires Valid() && Distinct(selected) && Elements(selected) !! handled
      requires k.limit > 0 ==> taken + |selected| <= k.limit
      modifies this`rows, this`taken, this`processed, this`high, this`handled, this`failed
      ensures Valid() && failed == old(failed) + Elements(selected) * old(Asks(turn, retriesEnabled))
      ensures Processed(old(At(0, 0)), At(0, 0), old(rows), rows, selected, back, turn, res,
                        old(Asks(turn, retriesEnabled)))
    {
      var asks := Asks(turn, retriesEnabled);
      NoteFailures(selected, asks);
      if selected != [] && turn.end.Broke? {
        res, back := PageBroke(turn.end.kind), Elements(selected);
        BrokenIsProcessed(At(0, 0), rows, selected, turn, asks);
      } else {
        res, back := ProcessAll(selected, turn, asks);
      }
    }

    /** Every selected body is decoded, and the rows are written (src/settlement.py:325-342). */
    method ProcessAll(selected: seq<int>, turn: Turn, asks: set<int>) returns (res: PageResult, ghost back: set<int>)
      requires Valid() && Distinct(selected) && Elements(selected) !! handled
      requires k.limit > 0 ==> taken + |selected| <= k.limit
      requires !(selected != [] && turn.end.Broke?)
      modifies this`rows, this`taken, this`processed, this`high, this`handled
      ensures Valid() && Processed(old(At(0, 0)), At(0, 0), old(rows), rows, selected, back, turn, res, asks)
    {
      ghost var v, was := At(0, 0), rows;
      var p := Divide(selected, asks, Unread(turn));
      back := Elements(p.retried);
      Settle(p);
      res := if selected != [] && turn.end.OwnFailure? then PageFailed else PageDone(None, p.retried, p.done != []);
      SettledIsProcessed(v, At(0, 0), was, selected, turn, asks, p, res);
    }

    /** `_export` (src/peek.py:281-320). `r` is the scan, `back` what did not make it. */
    method Export(page: seq<int>, turn: Turn, retriesEnabled: bool)
        returns (res: PageResult, ghost r: Scanned, ghost back: set<int>)
      requires Valid() && Distinct(page) && Elements(page) * handled <= processed && processed <= handled
      modifies this`rows, this`taken, this`processed, this`high, this`handled, this`failed
      modifies this`outstanding, this`window
      ensures r == Scan(Scanner(k.attrs, k.limit, k.stopAtJobStart, old(processed), old(taken), turn.now), page)
      ensures Valid() && failed == old(failed) + Elements(r.selected) * old(Asks(turn, retriesEnabled))
      ensures ExportDone(old(At(0, 0)), At(0, 0), old(rows), rows, r, back, turn, res, old(Asks(turn, retriesEnabled)))
    {
      ghost var v, was, asks := At(0, 0), rows, Asks(turn, retriesEnabled);
      var scan := Screen(page, turn.now);
      r := scan;
      ghost var v1 := At(0, 0);
      res, back := Process(scan.selected, turn, retriesEnabled);
      res := Conclude(res, scan, back, v, v1, was, turn, asks);
    }

    /** The first body that waits for its retry is remembered (src/peek.py:313). */
    method Conclude(processed: PageResult, scan: Scanned, ghost back: set<int>, ghost v: View, ghost v1: View,
                    ghost was: seq<int>, ghost turn: Turn, ghost asks: set<int>)
        returns (res: PageResult)
      requires Valid() && Screened(v, v1, scan) && v1.outstanding == v.outstanding && outstanding == v1.outstanding
      requires Processed(v1, At(0, 0), was, rows, scan.selected, back, turn, processed, asks)
      modifies this`outstanding, this`window
      ensures Valid() && ExportDone(v, At(0, 0), was, rows, scan, back, turn, res, asks)
    {
      ghost var v2 := At(0, 0);
      res := processed;
      if res.PageDone? {
        outstanding := Least(res.retried);
        res := PageDone(scan.stop, res.retried, res.progressed);
      }
      window := back;
      assert At(0, 0) == v2.(window := back, outstanding := outstanding);
      ExportConcludes(v, v1, v2, At(0, 0), was, rows, scan, back, turn, processed, res, asks);
    }

    /** The loop over the page: what is not active yet or expired is dealt with, the rest up to the stop is selected
      (src/peek.py:289-311). */
    method Screen(page: seq<int>, now: int) returns (r: Scanned)
      requires Valid() && Distinct(page) && Elements(page) * handled <= processed && processed <= handled
      modifies this`processed, this`high, this`handled
      ensures r == Scan(Scanner(k.attrs, k.limit, k.stopAtJobStart, old(processed), taken, now), page)
      ensures Valid() && Screened(old(At(0, 0)), At(0, 0), r)
      ensures Distinct(r.selected) && Elements(r.selected) !! handled
      ensures k.limit > 0 ==> taken + |r.selected| <= k.limit
    {
      var c := Scanner(k.attrs, k.limit, k.stopAtJobStart, processed, taken, now);
      r := ScanPage(c, page);
      ScanIsSound(c, page);
      SliceWithin(page, r.cut);
      OnceWider(rows, handled, taken, k.limit, Elements(r.marked));
      handled := handled + Elements(r.marked);
      Mark(r.marked);
    }

    /** The budgets after a page (src/peek.py:189-205): progress, an unreadable recycle, or a connection recovery. */
    method Account(res: PageResult) returns (ends: bool)
      requires Valid() && tracker.Valid() && (res.PageDone? ==> res.retried == [] || recycles < MAX_UNREADABLE_RECYCLES)
      modifies tracker, this`recycles
      ensures Valid() && tracker.Valid()
      ensures recycles == old(recycles) + if res.PageDone? && res.retried != [] then 1 else 0
      ensures ends <==> res.PageFailed? || (res.PageBroke? && old(tracker.Hopeless(res.kind)))
      ensures ends ==> tracker.Alike(old(tracker.count), old(tracker.progressed))
    {
      ends := res.PageFailed?;
      if res.PageBroke? {
        ends := tracker.Failure(res.kind);
      } else if res.PageDone? {
        if res.progressed {
          tracker.NoteProgress();
        }
        if res.retried != [] {
          tracker.UnreadableRetry();
          recycles := recycles + 1;
        }
      }
    }

    /** The budget and the first failures, as the attempts tell. */
    ghost predicate Recalls()
      reads this
    {
      recycles == Recycles(trace) && failed == AskedIn(trace)
    }

    /** What may fail a run in this turn: an own failure, a partitioned entity in an incremental fetch, or an error that
      no connection helps against. */
    predicate MayFail(turn: Turn, incremental: bool)
      reads tracker
    {
      || turn.end.OwnFailure? || (incremental && turn.partitioned)
      || (turn.fails.Some? && tracker.Hopeless(turn.fails.value))
      || (turn.end.Broke? && tracker.Hopeless(turn.end.kind))
    }

    predicate SessionMayFail(t: SessionTurn)
      reads tracker
    {
      MayFail(t.turn, false) || (t.open.OpenFails? && tracker.Hopeless(t.open.kind))
    }

    predicate SessionFailedFor(script: seq<SessionTurn>, n: nat)
      requires n <= |script|
      reads tracker
    {
      n > 0 && SessionMayFail(script[n - 1])
    }

    /** The last of the first `n` turns had a reason to fail the run. */
    predicate FailedFor(script: seq<Turn>, n: nat, incremental: bool)
      requires n <= |script|
      reads tracker
    {
      n > 0 && MayFail(script[n - 1], incremental)
    }

    /** One page of the loop, from `_export` on (src/peek.py:188-205). `paged` when the invariant of explicit paging is
      kept. */
    method ExportPage(page: seq<int>, turn: Turn, start: int, next: int, retriesEnabled: bool, incremental: bool,
                      ghost paged: bool, ghost ever: set<int>, ghost past: seq<Turn>)
        returns (next': int, ending: PeekEnding)
      requires Valid() && tracker.Valid() && page != [] && Distinct(page)
      requires Going(k, At(start, next), rows, trace, past, |past|, Elements(turn.stored), paged, incremental, ever)
      requires paged ==> PageOf(Elements(turn.stored), next, page) && !turn.pastDeadline
      requires Recalls() && (retriesEnabled ==> Elements(page) <= Elements(turn.stored)) && (paged ==> retriesEnabled)
      modifies this, tracker
      ensures Valid() && tracker.Valid() && (!ending.RunFailed? ==> Recalls())
      ensures ending.RunFailed? ==> old(MayFail(turn, incremental))
      ensures ending.RunFailed? ==> tracker.Alike(old(tracker.count), old(tracker.progressed))
      ensures !ending.RunFailed? ==>
        Going(k, At(start, next'), rows, trace, past + [turn], |past| + 1, Elements(turn.stored), paged, incremental,
              ever)
      ensures !ending.RunFailed? ==> MadeIn(trace, |past|)
      ensures turn.end.Returned? && ending.StillRunning? ==>
        next' == if outstanding.Some? then outstanding.value else Last(page) + 1
      ensures turn.end.Returned? && outstanding.None? && !ending.RunFailed? ==>
        (ending.Stopped? <==> old(Scan(ScannerFor(k, At(start, next), turn.now), page)).stop.Some?)
      ensures ending.Stopped? && paged ==>
        Justified(k, turn.pastDeadline, At(start, next'), Elements(turn.stored), ending.stop)
    {
      var res := ExportKeeping(page, turn, start, next, retriesEnabled, incremental, paged, ever, past);
      next', ending := Move(res, next, Last(page), incremental, start);
      var ends := Account(res);
      ending := if ends then RunFailed else ending;
    }

    method ExportKeeping(page: seq<int>, turn: Turn, ghost start: int, ghost next: int, retriesEnabled: bool,
                         ghost incremental: bool, ghost paged: bool, ghost ever: set<int>, ghost past: seq<Turn>)
        returns (res: PageResult)
      requires Valid() && page != [] && Distinct(page)
      requires Going(k, At(start, next), rows, trace, past, |past|, Elements(turn.stored), paged, incremental, ever)
      requires paged ==> PageOf(Elements(turn.stored), next, page) && !turn.pastDeadline
      requires Recalls() && (retriesEnabled ==> Elements(page) <= Elements(turn.stored)) && (paged ==> retriesEnabled)
      modifies this`rows, this`taken, this`processed, this`high, this`handled, this`failed
      modifies this`outstanding, this`window, this`trace
      ensures Valid() && (res.PageDone? ==> res.retried == [] || recycles < MAX_UNREADABLE_RECYCLES)
      ensures (res.PageFailed? ==> turn.end.OwnFailure?) && (res.PageBroke? ==> turn.end == Broke(res.kind))
      ensures failed == AskedIn(trace) && MadeIn(trace, |past|)
      ensures (res.PageDone? <== turn.end.Returned?) && (res.PageBroke? ==> outstanding == old(outstanding))
      ensures res.PageDone? ==> res.stop == old(Scan(ScannerFor(k, At(start, next), turn.now), page)).stop
      ensures !res.PageFailed? ==>
        Recycles(trace) == recycles + if res.PageDone? && res.retried != [] then 1 else 0
      ensures !res.PageFailed? ==> Explained(k, past + [turn], trace, rows, handled)
      ensures !res.PageFailed? && paged ==> QuietUpTo(past + [turn], |past| + 1, trace) && Explicit(trace)
      ensures !res.PageFailed? ==>
        Steady(k, paged, incremental,
               Moved(At(start, next), res.PageDone?, if res.PageDone? then res.stop else None, Last(page), incremental),
               Elements(turn.stored), ever, trace)
      ensures paged && res.PageDone? && outstanding.None? && res.stop.Some? ==>
        Justified(k, turn.pastDeadline, At(start, next), Elements(turn.stored), res.stop.value)
    {
      ghost var v, before := At(start, next), trace;
      NothingForgotten(k, paged, incremental, v, Elements(turn.stored), ever, page, trace);
      ghost var r, a;
      res, r, a := ExportTraced(page, turn, retriesEnabled, past);
      TraceGrows(before, a);
      if !res.PageFailed? {
        StepKeeps(k, paged, incremental, v, turn, ever, page, r, Back(a), At(start, next), res, before, a, past);
      }
    }

    /** An export, with what it adds to the attempts. */
    method ExportTraced(page: seq<int>, turn: Turn, explicit: bool, ghost past: seq<Turn>)
        returns (res: PageResult, ghost r: Scanned, ghost a: Attempt)
      requires Valid() && Distinct(page) && Elements(page) * handled <= processed && processed <= handled
      requires Explained(k, past, trace, rows, handled)
      requires explicit ==> Recalls() && Elements(page) <= Elements(turn.stored)
      modifies this`rows, this`taken, this`processed, this`high, this`handled, this`failed
      modifies this`outstanding, this`window, this`trace
      ensures Valid() && r == Scan(ScannerFor(k, old(At(0, 0)), turn.now), page)
      ensures res.PageDone? ==> res.retried == [] || (explicit && recycles < MAX_UNREADABLE_RECYCLES)
      ensures trace == old(trace) + [a]
      ensures a.explicit == explicit && (!explicit ==> a.asked == {})
      ensures Attempted(k, old(At(0, 0)), At(0, 0), past, turn, old(trace), a, rows, r, res)
      ensures failed == old(failed) + a.asked
    {
      ghost var v, was, asks := At(0, 0), rows, AsksIn(turn, explicit, trace);
      assert Asks(turn, explicit) == asks;
      ghost var back;
      res, r, back := Export(page, turn, explicit);
      a := AttemptFor(|past|, explicit, r, asks, Unread(turn), res.PageDone?);
      NoteAttempt(v, was, page, turn, r, back, res, asks, past, a);
    }

    /** The attempt joins the trace. */
    ghost method NoteAttempt(v: View, was: seq<int>, page: seq<int>, turn: Turn, r: Scanned, back: set<int>,
                             res: PageResult, asks: set<int>, past: seq<Turn>, a: Attempt)
      requires ExportDone(v, At(0, 0), was, rows, r, back, turn, res, asks) && Distinct(page)
      requires r == Scan(ScannerFor(k, v, turn.now), page) && Elements(page) * v.handled <= v.processed
      requires Explained(k, past, trace, was, v.handled) && (a.explicit ==> Elements(page) <= Elements(turn.stored))
      requires a == AttemptFor(|past|, a.explicit, r, asks, Unread(turn), res.PageDone?)
      requires asks == AsksIn(turn, a.explicit, trace)
      modifies this`trace
      ensures trace == old(trace) + [a]
      ensures Attempted(k, v, At(0, 0), past, turn, old(trace), a, rows, r, res)
    {
      AttemptedFrom(k, v, At(0, 0), was, rows, page, turn, r, back, res, asks, past, trace, a);
      trace := trace + [a];
    }

    /** Where the loop goes on (src/peek.py:189-205). */
    method Move(res: PageResult, next: int, last: int, incremental: bool, ghost start: int)
        returns (next': int, ending: PeekEnding)
      requires Valid()
      modifies this`processed
      ensures Valid() && !ending.RunFailed?
      ensures ending.Stopped? <==> res.PageDone? && outstanding.None? && res.stop.Some?
      ensures ending.Stopped? ==> ending.stop == res.stop.value && At(start, next') == old(At(start, next))
      ensures At(start, next') ==
        Moved(old(At(start, next)), res.PageDone?, if res.PageDone? then res.stop else None, last, incremental)
    {
      next', ending := next, StillRunning;
      if res.PageDone? {
        if outstanding.Some? {
          next' := outstanding.value;
        } else if res.stop.Some? {
          ending := Stopped(res.stop.value);
        } else {
          next' := last + 1;
          processed := if incremental then {} else processed;
        }
      }
    }

    predicate Limited()
      reads this
    {
      k.limit > 0 && taken >= k.limit
    }

    method StopCheck(pastDeadline: bool) returns (stop: Option<Stop>)
      ensures stop == Some(MaxMessages) <==> Limited()
      ensures stop.Some? && stop != Some(MaxMessages) <==> stop == Some(MaxDuration)
      ensures stop == Some(MaxDuration) <==> pastDeadline && !Limited()
    {
      stop :=
        if Limited() then Some(MaxMessages) else if pastDeadline then Some(MaxDuration) else None;
    }

    /** One pass through the loop of `_run_pages` (src/peek.py:168-210). */
    method PageTurn(turn: Turn, start: int, next: int, cursorMode: bool, incremental: bool, ghost paged: bool,
                    ghost s: set<int>, ghost ever: set<int>, ghost past: seq<Turn>, ghost turns: seq<Turn>)
        returns (next': int, cursorMode': bool, ending: PeekEnding)
      requires Valid() && tracker.Valid() && Ascending(turn.stored) && Distinct(turn.cursorPage)
      requires (paged ==> !cursorMode) && (incremental ==> !cursorMode)
      requires s == Elements(turn.stored) && turns == past + [turn]
      requires Going(k, At(start, next), rows, trace, past, |past|, s, paged, incremental, ever) && Recalls()
      modifies this, tracker
      ensures Valid() && tracker.Valid() && (incremental ==> !cursorMode') && (!ending.RunFailed? ==> Recalls())
      ensures ending.RunFailed? ==> old(MayFail(turn, incremental)) && MayFail(turn, incremental)
      ensures old(Limited()) ==> ending == Stopped(MaxMessages)
      ensures turn.pastDeadline && !old(Limited()) ==> ending == Stopped(MaxDuration)
      ensures Clean(turn) && !old(Limited()) && Peeked(turn, next, cursorMode) == [] ==>
        ending == Stopped(EndOfEntity)
      ensures Exports(turn, next, cursorMode) && !old(Limited()) && !ending.RunFailed? ==> MadeIn(trace, |past|)
      ensures Exports(turn, next, cursorMode) && !old(Limited()) && turn.end.Returned? && ending.StillRunning? ==>
        next' == if outstanding.Some? then outstanding.value else Last(Peeked(turn, next, cursorMode)) + 1
      ensures cursorMode ==> cursorMode'
      ensures cursorMode' ==> cursorMode || turn.partitioned
      ensures !ending.RunFailed? ==>
        Going(k, At(start, next'), rows, trace, turns, if ending.Stopped? then |past| else |past| + 1, s,
              paged && !cursorMode', incremental, ever)
      ensures ending.Stopped? && paged ==>
        !cursorMode' && Justified(k, turn.pastDeadline, At(start, next'), s, ending.stop)
    {
      next', cursorMode', ending := next, cursorMode, StillRunning;
      NothingExported(k, At(start, next), rows, trace, past, turn, s, paged, incremental, ever);
      var stop := StopCheck(turn.pastDeadline);
      if stop.Some? {
        ending := Stopped(stop.value);
      } else if turn.fails.Some? {
        var ends := tracker.Failure(turn.fails.value);
        ending := if ends then RunFailed else StillRunning;
      } else {
        var page := Peeked(turn, next, cursorMode);
        PageFacts(turn.stored, next);
        if page == [] {
          ending := Stopped(EndOfEntity);
        } else if !cursorMode && turn.partitioned {
          // Nothing of this page is written: a full fetch reads it again in cursor mode.
          cursorMode' := !incremental;
          ending := if incremental then RunFailed else StillRunning;
        } else {
          next', ending := ExportPage(page, turn, start, next, !cursorMode, incremental, paged, ever, past);
        }
      }
    }

    /** Peeking works in this turn. */
    predicate Clean(turn: Turn) {
      !turn.pastDeadline && turn.fails.None?
    }

    /** The page of a turn (src/peek.py:173). */
    function Peeked(turn: Turn, next: int, cursorMode: bool): seq<int> {
      if cursorMode then turn.cursorPage else PageAt(turn.stored, next)
    }

    /** The turn exports a page, unless the limit is reached. */
    predicate Exports(turn: Turn, next: int, cursorMode: bool) {
      Clean(turn) && Peeked(turn, next, cursorMode) != [] && (cursorMode || !turn.partitioned)
    }

    method RunTurn(script: seq<Turn>, n: nat, start: int, next: int, cursorMode: bool, incremental: bool,
                   ghost growing: bool)
        returns (next': int, cursorMode': bool, ending: PeekEnding)
      requires n < |script| && Orderly(script, growing) && (incremental ==> growing && !cursorMode)
      requires Valid() && tracker.Valid() && Recalls()
      requires Standing(k, At(start, next), rows, trace, script, n, n, growing && !cursorMode, incremental)
      modifies this, tracker
      ensures Valid() && tracker.Valid() && (incremental ==> !cursorMode')
      ensures cursorMode' ==> cursorMode || ShowsPartitions(script, n + 1)
      ensures if ending.RunFailed? then FailedFor(script, n + 1, incremental) else Recalls()
      ensures Ended(k, At(start, next'), rows, trace, script, n + 1, growing && !cursorMode', incremental, ending)
    {
      ghost var paged, s, ever, past, turns :=
        growing && !cursorMode, StoredAt(script, n + 1), Ever(script, n + 1), script[..n], script[..n + 1];
      var turn := script[n];
      TurnBegins(k, At(start, next), rows, trace, script, n, growing, paged, incremental);
      TurnFacts(script, n, growing);
      next', cursorMode', ending := PageTurn(turn, start, next, cursorMode, incremental, paged, s, ever, past, turns);
      EndedFrom(k, At(start, next'), rows, trace, script, n + 1, growing && !cursorMode', incremental, ending);
    }

    /** `_run_pages` (src/peek.py:157-210): explicit paging, or cursor mode on a partitioned entity. `growing` when new
      messages always get higher numbers, which incremental fetch relies on. */
    method RunPages(start: int, incremental: bool, partitioned: bool, script: seq<Turn>, ghost growing: bool)
        returns (ending: PeekEnding, n: nat, ghost next: int, ghost paged: bool)
      requires Valid() && tracker.Valid() && Orderly(script, growing) && (incremental ==> growing) && AtStart()
      modifies this, tracker
      ensures Valid() && tracker.Valid() && n <= |script|
      ensures Ended(k, At(start, next), rows, trace, script, n, paged, incremental, ending)
      ensures incremental ==> paged
      ensures ending.RunFailed? ==> FailedFor(script, n, incremental)
      ensures growing && !partitioned && !ShowsPartitions(script, n) ==> paged
    {
      var at, cursorMode := start, !incremental && partitioned;
      n, ending := 0, StillRunning;
      GoingAtStart(k, At(start, start), script, growing && !cursorMode, incremental);
      while n < |script| && ending.StillRunning?
        invariant n <= |script| && (incremental ==> !cursorMode)
        invariant cursorMode ==> partitioned || ShowsPartitions(script, n)
        invariant Valid() && tracker.Valid()
        invariant if ending.RunFailed? then FailedFor(script, n, incremental) else Recalls()
        invariant Ended(k, At(start, at), rows, trace, script, n, growing && !cursorMode, incremental, ending)
        decreases |script| - n
      {
        at, cursorMode, ending := RunTurn(script, n, start, at, cursorMode, incremental, growing);
        n := n + 1;
      }
      next, paged := at, growing && !cursorMode;
    }

    ghost predicate AtStart()
      reads this
    {
      && processed == handled == window == failed == {} && high == outstanding == None
      && recycles == 0 && rows == [] && trace == []
    }

    /** `_new_cursor` (src/peek.py:145-153): the highest processed number that is not past a body waiting for its retry;
      the stored cursor when there is none from the start position on. */
    method NewCursor(start: int, cursor: Option<PeekCursor>, path: string, ghost next: int)
        returns (c: Option<PeekCursor>)
      ensures IsNewCursor(At(start, next), cursor, path, c)
    {
      var top := high;
      if top.Some? && outstanding.Some? && outstanding.value - 1 < top.value {
        top := Some(outstanding.value - 1);
      }
      c := if top.None? || top.value < start then cursor else Some(PeekCursor(path, top.value));
    }

    method FinishIncremental(cursor: Option<PeekCursor>, path: string, ghost script: seq<Turn>, ghost n: nat,
                             ghost next: int, ghost stop: Stop) returns (cursor': Option<PeekCursor>)
      requires 0 < n <= |script| && Valid()
      requires Ended(k, At(StartAt(cursor, path), next), rows, trace, script, n, true, true, Stopped(stop))
      ensures NeverBack(path, cursor, cursor')
      ensures CursorHonest(k, script[..n], rows, trace, path, StartAt(cursor, path), cursor', StoredAt(script, n))
      ensures stop.EndOfEntity? ==> AllPassed(StoredAt(script, n), path, StartAt(cursor, path), cursor')
    {
      cursor' := NewCursor(StartAt(cursor, path), cursor, path, next);
      LastTurn(script, n);
      if stop.EndOfEntity? {
        AllIsPassed(k, At(StartAt(cursor, path), next), StoredAt(script, n), Ever(script, n), cursor, path, cursor',
                    LateAt(script, n));
      }
      CursorMeaning(k, At(StartAt(cursor, path), next), script[..n], StoredAt(script, n), Ever(script, n), cursor, path,
                    cursor', rows, trace, stop);
    }

    /** An incremental `run` (src/peek.py:101-130). The new cursor is stored with the output state. */
    method RunIncremental(path: string, cursor: Option<PeekCursor>, script: seq<Turn>)
        returns (ending: PeekEnding, n: nat, cursor': Option<PeekCursor>)
      requires Valid() && tracker.Valid() && Orderly(script, true) && AtStart()
      modifies this, tracker
      ensures Valid() && n <= |script|
      ensures ending.Stopped? ==> n > 0 && NeverBack(path, cursor, cursor')
      ensures ending.Stopped? ==>
        CursorHonest(k, script[..n], rows, trace, path, StartAt(cursor, path), cursor', StoredAt(script, n))
      ensures ending == Stopped(EndOfEntity) ==>
        AllPassed(StoredAt(script, n), path, StartAt(cursor, path), cursor')
      ensures ending.Stopped? ==> Explained(k, script[..n], trace, rows, handled)
      ensures ending.RunFailed? ==> FailedFor(script, n, true)
      ensures ending.Stopped? ==> Justified(k, LateAt(script, n), At(StartAt(cursor, path), StartAt(cursor, path)),
                                            StoredAt(script, n), ending.stop)
    {
      ghost var next, paged;
      ending, n, next, paged := RunPages(StartAt(cursor, path), true, false, script, true);
      cursor' := None;
      if ending.Stopped? {
        cursor' := FinishIncremental(cursor, path, script, n, next, ending.stop);
      }
    }

    /** A full `run` on an entity that shows no partitions: when it stops at the end of the entity, every message stored
      then is a row or finally skipped. */
    method RunFull(script: seq<Turn>, ghost growing: bool) returns (ending: PeekEnding, n: nat)
      requires Valid() && tracker.Valid() && Orderly(script, growing) && AtStart()
      modifies this, tracker
      ensures Valid() && n <= |script| && (ending.Stopped? ==> n > 0)
      ensures ending == Stopped(EndOfEntity) && growing && !ShowsPartitions(script, n) ==>
        && Explained(k, script[..n], trace, rows, handled)
        && forall x :: x in StoredAt(script, n) && 1 <= x ==> DealtWith(trace, rows, x)
      ensures ending.RunFailed? ==> FailedFor(script, n, false)
    {
      ghost var next, paged;
      ending, n, next, paged := RunPages(1, false, false, script, growing);
    }

    /** The open session is left at an empty page; another page is exported, and the position moves past it. */
    ghost predicate SessionMoved(script: seq<SessionTurn>, n: nat, place: Place, place': Place, ending: SessionEnding)
      requires n < |script|
      reads this
    {
      var page, end := PageAt(script[n].turn.stored, place.next), script[n].turn.end;
      if page == [] then ending.MoreSessions? && place' == place.(session := false)
      else
        && (!ending.SessionsFailed? ==> MadeIn(trace, n))
        && (end.Returned? && ending.MoreSessions? && place'.session ==> place'.next == Last(page) + 1)
    }

    /** One session, one page of it, or the end of the run (src/peek.py:214-269). */
    method SessionTurn(script: seq<SessionTurn>, n: nat, place: Place, ghost tour: Tour)
        returns (place': Place, ending: SessionEnding, ghost tour': Tour)
      requires Valid() && tracker.Valid() && n < |script| && Ascending(script[n].turn.stored) && processed == handled
      requires Touring(k, script, n, tour, place, handled) && Explained(k, TurnsOf(script, n), trace, rows, handled)
      modifies this, tracker
      ensures Valid() && tracker.Valid()
      ensures old(Limited()) ==> ending == SessionsStopped(AtStop(MaxMessages))
      ensures script[n].turn.pastDeadline && !old(Limited()) ==> ending == SessionsStopped(AtStop(MaxDuration))
      ensures !old(Limited()) && Clean(script[n].turn) && place.session ==>
        SessionMoved(script, n, place, place', ending)
      ensures !old(Limited()) && !script[n].turn.pastDeadline && !place.session ==>
        match script[n].open
        case NoMoreSessions => ending == SessionsStopped(NoMore)
        case OpenFails(kind) => kind.SessionLocked? ==> ending.MoreSessions? && place' == place
        case Handed(id) =>
          if id in place.seen then ending == SessionsStopped(Revisited)
          else ending.MoreSessions? && place' == Place(true, 1, place.seen + {id})
      ensures !ending.SessionsFailed? ==>
        processed == handled && Explained(k, TurnsOf(script, n + 1), trace, rows, handled)
      ensures ending.MoreSessions? ==> Touring(k, script, n + 1, tour', place', handled)
      ensures ending.SessionsStopped? ==> SessionsEnd(k, script, n + 1, tour', handled, taken, ending.why)
      ensures ending.SessionsFailed? ==> old(SessionMayFail(script[n])) && SessionFailedFor(script, n + 1)
    {
      place', ending, tour' := place, MoreSessions, tour;
      var turn := script[n];
      ExplainedLater(k, TurnsOf(script, n), turn.turn, trace, rows, handled);
      var stop := StopCheck(turn.turn.pastDeadline);
      if stop.Some? {
        ending := SessionsStopped(AtStop(stop.value));
      } else if place.session {
        place', ending, tour' := NextInSession(script, n, place, tour);
      } else if turn.open.NoMoreSessions? {
        ending := SessionsStopped(NoMore);
      } else if turn.open == OpenFails(SessionLocked) {
        // Another receiver holds it.
        SkippedTour(k, script, n, tour, place, handled);
      } else if turn.open.OpenFails? {
        var ends := tracker.Failure(turn.open.kind);
        place', tour' := Place(false, 1, {}), Tour(n + 1, 0, []);
        ending := if ends then SessionsFailed else MoreSessions;
      } else if turn.open.id in place.seen {
        ending := SessionsStopped(Revisited);
      } else {
        place', tour' := Place(true, 1, place.seen + {turn.open.id}), tour.(begin := n);
      }
    }

    /** The next page of the open session (src/peek.py:253-269). */
    method NextInSession(script: seq<SessionTurn>, n: nat, place: Place, ghost tour: Tour)
        returns (place': Place, ending: SessionEnding, ghost tour': Tour)
      requires Valid() && tracker.Valid() && n < |script| && Ascending(script[n].turn.stored) && processed == handled
      requires place.session && Touring(k, script, n, tour, place, handled)
      requires Explained(k, TurnsOf(script, n), trace, rows, handled)
      modifies this, tracker
      ensures Valid() && tracker.Valid()
      ensures script[n].turn.fails.None? ==> SessionMoved(script, n, place, place', ending)
      ensures !ending.SessionsFailed? ==>
        processed == handled && Explained(k, TurnsOf(script, n + 1), trace, rows, handled)
      ensures ending.MoreSessions? ==> Touring(k, script, n + 1, tour', place', handled)
      ensures ending.SessionsStopped? ==> tour' == tour && ending.why == AtStop(MaxMessages) && Full(k, taken)
      ensures ending.SessionsFailed? ==> old(MayFail(script[n].turn, false)) && MayFail(script[n].turn, false)
    {
      place', ending, tour' := place, MoreSessions, tour;
      var turn := script[n].turn;
      ExplainedLater(k, TurnsOf(script, n), turn, trace, rows, handled);
      if turn.fails == Some(SessionLocked) {
        // Another receiver holds it.
        place', tour' := place.(session := false), Visited(tour, script, n, TakenOver);
        SessionIsLost(k, script, n, tour, place, handled, handled);
      } else if turn.fails.Some? {
        var ends := tracker.Failure(turn.fails.value);
        place', tour' := Place(false, 1, {}), Tour(n + 1, 0, []);
        ending := if ends then SessionsFailed else MoreSessions;
      } else {
        var page := PageAt(turn.stored, place.next);
        PageFacts(turn.stored, place.next);
        if page == [] {
          place', tour' := place.(session := false), Visited(tour, script, n, Finished);
          SessionEnds(k, script, n, tour, place, handled);
        } else {
          place', ending, tour' := ExportSessionPage(script, n, place, page, tour);
        }
      }
    }

    method ExportSessionPage(script: seq<SessionTurn>, n: nat, place: Place, page: seq<int>, ghost tour: Tour)
        returns (place': Place, ending: SessionEnding, ghost tour': Tour)
      requires Valid() && tracker.Valid() && n < |script| && processed == handled && page != []
      requires PageOf(Elements(script[n].turn.stored), place.next, page) && Distinct(page)
      requires place.session && Touring(k, script, n, tour, place, handled)
      requires Explained(k, TurnsOf(script, n), trace, rows, handled)
      modifies this, tracker
      ensures Valid() && tracker.Valid()
      ensures !ending.SessionsFailed? ==> MadeIn(trace, n)
      ensures script[n].turn.end.Returned? && ending.MoreSessions? && place'.session ==> place'.next == Last(page) + 1
      ensures !ending.SessionsFailed? ==>
        processed == handled && Explained(k, TurnsOf(script, n + 1), trace, rows, handled)
      ensures ending.MoreSessions? ==> Touring(k, script, n + 1, tour', place', handled)
      ensures ending.SessionsStopped? ==> tour' == tour && ending.why == AtStop(MaxMessages) && Full(k, taken)
      ensures ending.SessionsFailed? ==> old(MayFail(script[n].turn, false)) && MayFail(script[n].turn, false)
    {
      ghost var was := handled;
      TurnsCount(script, n);
      var res, cut := ExportInSession(page, script[n].turn, place.next, TurnsOf(script, n));
      place', ending, tour' := MoveInSession(k, script, n, place, page, res, tour, cut, was, handled, taken);
      if res != PageBroke(SessionLocked) {
        var ends := Account(res);
        ending := if ends then SessionsFailed else ending;
      }
    }

    /** One export of a session page; nothing is retried. */
    method ExportInSession(page: seq<int>, turn: Turn, ghost next: int, ghost past: seq<Turn>)
        returns (res: PageResult, ghost cut: nat)
      requires Valid() && processed == handled && page != []
      requires PageOf(Elements(turn.stored), next, page) && Distinct(page)
      requires Explained(k, past, trace, rows, handled)
      modifies this`rows, this`taken, this`processed, this`high, this`handled, this`failed
      modifies this`outstanding, this`window, this`trace
      ensures Valid() && MadeIn(trace, |past|) && (turn.end.Returned? ==> res.PageDone?)
      ensures ExportedInSession(k, old(At(0, 0)), At(0, 0), next, page, past, turn, trace, rows, res, cut)
    {
      ghost var v, before := At(0, 0), trace;
      ghost var r, a;
      res, r, a := ExportTraced(page, turn, false, past);
      SessionExported(k, v, At(0, 0), next, page, past, turn, before, a, rows, r, res);
      cut := r.cut;
    }

    /** `_run_sessions` (src/peek.py:214-251): every row once, however often sessions are peeked again. A run that ends
      because no further session is handed out has, on its last connection, visited every session it was handed to its
      end or to the first message of this job. */
    method RunSessions(script: seq<SessionTurn>) returns (ending: SessionEnding, n: nat, ghost tour: Tour)
      requires Valid() && tracker.Valid() && AtStart()
      requires forall i :: 0 <= i < |script| ==> Ascending(script[i].turn.stored)
      modifies this, tracker
      ensures Valid() && Distinct(rows) && (k.limit > 0 ==> |rows| <= k.limit) && n <= |script|
      ensures !ending.SessionsFailed? ==> Explained(k, TurnsOf(script, n), trace, rows, handled)
      ensures ending.SessionsStopped? ==> SessionsEnd(k, script, n, tour, handled, taken, ending.why)
      ensures ending.SessionsFailed? ==> SessionFailedFor(script, n)
    {
      var place := Place(false, 1, {});
      n, ending, tour := 0, MoreSessions, Tour(0, 0, []);
      while n < |script| && ending.MoreSessions?
        invariant n <= |script| && Valid() && tracker.Valid()
        invariant !ending.SessionsFailed? ==>
          processed == handled && Explained(k, TurnsOf(script, n), trace, rows, handled)
        invariant ending.MoreSessions? ==> Touring(k, script, n, tour, place, handled)
        invariant ending.SessionsStopped? ==> SessionsEnd(k, script, n, tour, handled, taken, ending.why)
        invariant ending.SessionsFailed? ==> SessionFailedFor(script, n)
        decreases |script| - n
      {
        place, ending, tour := SessionTurn(script, n, place, tour);
        n := n + 1;
      }
    }
  }

  /** Where a session goes on after a page (src/peek.py:240-269). */
  method MoveInSession(k: Config, script: seq<SessionTurn>, n: nat, place: Place, page: seq<int>, res: PageResult,
                       ghost tour: Tour, ghost cut: nat, ghost was: set<int>, ghost handled: set<int>,
                       ghost taken: nat)
      returns (place': Place, ending: SessionEnding, ghost tour': Tour)
    requires n < |script| && page != [] && place.session && Touring(k, script, n, tour, place, was)
    requires !res.PageFailed? ==> was <= handled
    requires res.PageBroke? ==> script[n].turn.end == Broke(res.kind)
    requires res.PageDone? ==>
      SessionPage(k, Elements(script[n].turn.stored), place.next, page, res.stop, cut, was, handled, taken)
    ensures !ending.SessionsFailed?
    ensures res.PageDone? && ending.MoreSessions? && place'.session ==> place'.next == Last(page) + 1
    ensures ending.MoreSessions? && !res.PageFailed? ==> Touring(k, script, n + 1, tour', place', handled)
    ensures ending.SessionsStopped? ==>
      res.PageDone? && tour' == tour && ending.why == AtStop(MaxMessages) && Full(k, taken)
  {
    place', tour', ending := place, tour, MoreSessions;
    if res == PageBroke(SessionLocked) {
      SessionIsLost(k, script, n, tour, place, was, handled);
      place', tour' := place.(session := false), Visited(tour, script, n, TakenOver);
    } else if res.PageBroke? {
      place', tour' := Place(false, 1, {}), Tour(n + 1, 0, []);
    } else if res.PageDone? {
      if res.stop.None? {
        SessionAdvances(k, script, n, tour, place, Last(page) + 1, was, handled);
        place' := place.(next := Last(page) + 1);
      } else if res.stop == Some(Watermark) {
        SessionReachesJob(k, script, n, tour, place, page[cut], was, handled);
        place', tour' := place.(session := false), Visited(tour, script, n, AtJob(page[cut]));
      } else {
        ending := SessionsStopped(AtStop(res.stop.value));
      }
    }
  }

  ghost predicate Screened(v: View, v': View, r: Scanned) {
    && v'.processed == v.processed + Elements(r.marked) && v'.handled == v.handled + Elements(r.marked)
    && v'.taken == v.taken
    && RaisedBy(v.high, Elements(r.marked), v'.high)
  }

  lemma OnceWider(rows: seq<int>, handled: set<int>, taken: nat, limit: nat, more: set<int>)
    requires Once(rows, handled, taken, limit)
    ensures Once(rows, handled + more, taken, limit)
  {
  }

  /** `done` is finally dealt with, beside what was `marked` without counting. */
  ghost predicate Absorbed(v: View, v': View, marked: set<int>, done: set<int>) {
    && v'.processed == v.processed + (marked + done) && v'.handled == v.handled + (marked + done)
    && v'.taken == v.taken + |done|
    && RaisedBy(v.high, marked + done, v'.high)
  }

  /** A page with a selection ends as its processing does. */
  predicate EndsAs(res: PageResult, turn: Turn, selected: bool) {
    && (res.PageBroke? <==> selected && turn.end.Broke?) && (res.PageBroke? ==> res.kind == turn.end.kind)
    && (res.PageFailed? <==> selected && turn.end.OwnFailure?)
  }

  /** What handing a selection to the pipeline does; `back` did not make it. */
  ghost predicate Processed(v: View, v': View, rows: seq<int>, rows': seq<int>, selected: seq<int>, back: set<int>,
                            turn: Turn, res: PageResult, asks: set<int>) {
    && back <= Elements(selected) && EndsAs(res, turn, selected != [])
    && (!res.PageFailed? ==>
          Absorbed(v, v', {}, Elements(selected) - back) && RowsFor(rows, rows', Elements(selected) - back, turn))
    && (res.PageBroke? ==> back == Elements(selected))
    && (res.PageDone? ==> back == Elements(res.retried) == Elements(selected) * asks)
    && (res.PageDone? && asks == {} ==> res.retried == [])
  }

  /** What an export does. */
  ghost predicate ExportDone(v: View, v': View, rows: seq<int>, rows': seq<int>, r: Scanned, back: set<int>, turn: Turn,
                             res: PageResult, asks: set<int>) {
    && back <= Elements(r.selected) && EndsAs(res, turn, r.selected != [])
    && (!res.PageFailed? ==> PageExported(v, v', r, back) && RowsFor(rows, rows', Elements(r.selected) - back, turn))
    && (res.PageBroke? ==> v'.outstanding == v.outstanding && back == Elements(r.selected))
    && (res.PageDone? ==> res.stop == r.stop && IsLeast(v'.outstanding, back))
    && (res.PageDone? ==> back == Elements(res.retried) == Elements(r.selected) * asks)
    && (res.PageDone? && asks == {} ==> res.retried == [])
  }

  lemma ExportConcludes(v: View, v1: View, v2: View, v': View, rows: seq<int>, rows': seq<int>, r: Scanned,
                        back: set<int>, turn: Turn, processed: PageResult, res: PageResult, asks: set<int>)
    requires Screened(v, v1, r) && Processed(v1, v2, rows, rows', r.selected, back, turn, processed, asks)
    requires v1.outstanding == v.outstanding && v2.outstanding == v1.outstanding
    requires v' == v2.(window := back, outstanding := v'.outstanding)
    requires if processed.PageDone?
             then res == PageDone(r.stop, processed.retried, processed.progressed)
               && IsLeast(v'.outstanding, Elements(processed.retried))
             else res == processed && v'.outstanding == v2.outstanding
    ensures ExportDone(v, v', rows, rows', r, back, turn, res, asks)
  {
    if !res.PageFailed? {
      MarkedThenProcessed(v, v1, v2, r, back);
    }
  }

  lemma BrokenIsProcessed(v: View, rows: seq<int>, selected: seq<int>, turn: Turn, asks: set<int>)
    requires selected != [] && turn.end.Broke?
    ensures Processed(v, v, rows, rows, selected, Elements(selected), turn, PageBroke(turn.end.kind), asks)
  {
    AbsorbNone(v, Elements(selected));
  }

  lemma SettledIsProcessed(v: View, v': View, rows: seq<int>, selected: seq<int>, turn: Turn, asks: set<int>, p: Parts,
                           res: PageResult)
    requires Divided(selected, asks, Unread(turn), p)
    requires Absorbed(v, v', {}, Elements(p.done)) && !(selected != [] && turn.end.Broke?)
    requires res == if selected != [] && turn.end.OwnFailure? then PageFailed
                    else PageDone(None, p.retried, p.done != [])
    ensures Processed(v, v', rows, rows + p.written, selected, Elements(p.retried), turn, res, asks)
  {
    ElementsConcat(rows, p.written);
  }

  lemma AbsorbNone(v: View, s: set<int>)
    ensures Absorbed(v, v, {}, s - s)
  {
  }

  ghost predicate PageExported(v: View, v': View, r: Scanned, back: set<int>) {
    && Absorbed(v, v', Elements(r.marked), Elements(r.selected) - back) && v'.window == back
  }

  lemma MarkedThenProcessed(v: View, v1: View, v2: View, r: Scanned, back: set<int>)
    requires Screened(v, v1, r) && Absorbed(v1, v2, {}, Elements(r.selected) - back)
    ensures Absorbed(v, v2, Elements(r.marked), Elements(r.selected) - back)
  {
  }

  lemma SliceWithin(page: seq<int>, cut: nat)
    requires cut <= |page|
    ensures Elements(page[..cut]) <= Elements(page)
  {
  }

  // ---------------------------------------------------------------- what one page means for the run

  lemma NothingOutstanding(k: Config, v: View, s: set<int>, ever: set<int>)
    requires Inv(k, v, s, ever)
    ensures Inv(k, v.(outstanding := None), s, ever)
  {
  }

  lemma PageLooked(k: Config, v: View, s: set<int>, page: seq<int>, r: Scanned, now: int, back: set<int>,
                   high: Option<int>)
    requires Kept(v, s) && Waiting(k, v, s) && PageOf(s, v.next, page) && page != []
    requires r == Scan(ScannerFor(k, v, now), page)
    requires back <= Elements(r.selected) && RaisedBy(v.high, Elements(r.marked) + (Elements(r.selected) - back), high)
    ensures r.cut <= |page| && (r.stop.None? ==> r.cut == |page|)
    ensures Looked(k, v, s, high, Elements(page[..r.cut]), Elements(r.marked), Elements(r.selected), back)
  {
    ScanIsSound(ScannerFor(k, v, now), page);
    ScanLooks(k, v, s, page, r, now, back, high);
  }

  lemma LookedCovers(k: Config, v: View, s: set<int>, high: Option<int>, seen: set<int>, marked: set<int>,
                     selected: set<int>, back: set<int>)
    requires Looked(k, v, s, high, seen, marked, selected, back) && v.processed <= v.handled
    ensures seen <= Exported(v, marked, selected, back, high).handled + back && Span(s, v.next, high) <= seen
    ensures back <= seen
  {
  }

  lemma ExportedView(v: View, v': View, r: Scanned, back: set<int>)
    requires PageExported(v, v', r, back) && v'.start == v.start && v'.next == v.next
    ensures v'.(outstanding := v.outstanding) == Exported(v, Elements(r.marked), Elements(r.selected), back, v'.high)
  {
  }

  lemma PageSettles(k: Config, v: View, s: set<int>, ever: set<int>, page: seq<int>, r: Scanned, now: int,
                    back: set<int>, v': View)
    requires Inv(k, v, s, ever) && PageOf(s, v.next, page) && page != [] && r == Scan(ScannerFor(k, v, now), page)
    requires PageExported(v, v', r, back) && back <= Elements(r.selected) && v'.start == v.start && v'.next == v.next
    ensures Inv(k, v'.(outstanding := v.outstanding), s, ever) && Inv(k, v'.(outstanding := None), s, ever)
  {
    PageLooked(k, v, s, page, r, now, back, v'.high);
    LookedKeeps(k, v, s, ever, v'.high, Elements(page[..r.cut]), Elements(r.marked), Elements(r.selected), back);
    ExportedView(v, v', r, back);
    NothingOutstanding(k, v'.(outstanding := v.outstanding), s, ever);
  }

  lemma PageCovers(k: Config, v: View, s: set<int>, page: seq<int>, r: Scanned, now: int, back: set<int>, v': View)
    requires Kept(v, s) && Waiting(k, v, s) && PageOf(s, v.next, page) && page != []
    requires r == Scan(ScannerFor(k, v, now), page)
    requires PageExported(v, v', r, back) && back <= Elements(r.selected)
    ensures r.cut <= |page| && (r.stop.None? ==> r.cut == |page|)
    ensures Elements(page[..r.cut]) <= v'.handled + back && Span(s, v.next, v'.high) <= Elements(page[..r.cut])
    ensures back <= Elements(page[..r.cut])
  {
    PageLooked(k, v, s, page, r, now, back, v'.high);
    LookedCovers(k, v, s, v'.high, Elements(page[..r.cut]), Elements(r.marked), Elements(r.selected), back);
  }

  /** A page looked at up to `cut` misses nothing stored up to any of its messages. */
  lemma UpToSeen(s: set<int>, next: int, page: seq<int>, cut: nat, y: int)
    requires PageOf(s, next, page) && cut <= |page| && y in Elements(page[..cut])
    ensures y in s && next <= y && forall x :: x in s && next <= x <= y ==> x in Elements(page[..cut])
  {
    SliceSubset(page, cut);
    forall x | x in s && next <= x <= y ensures x in Elements(page[..cut]) {
      assert y in Elements(page) && x in Elements(page);
      PrefixClosed(page, cut, x, y);
    }
  }

  /** Explicit paging goes back to the first body that asked for a retry. */
  lemma RetryStep(k: Config, v: View, s: set<int>, ever: set<int>, page: seq<int>, r: Scanned, now: int, back: set<int>,
                  v': View, first: int)
    requires Inv(k, v, s, ever) && PageOf(s, v.next, page) && page != [] && r == Scan(ScannerFor(k, v, now), page)
    requires PageExported(v, v', r, back) && back <= Elements(r.selected) && v'.start == v.start && v'.next == v.next
    requires v'.outstanding == Some(first) && IsLeast(v'.outstanding, back)
    ensures Inv(k, v'.(next := first), s, ever)
  {
    PageSettles(k, v, s, ever, page, r, now, back, v');
    PageCovers(k, v, s, page, r, now, back, v');
    UpToSeen(s, v.next, page, r.cut, first);
    RetryKeeps(k, v'.(outstanding := v.outstanding), s, ever, Elements(page[..r.cut]), first);
  }

  lemma LastIsGreatest(page: seq<int>, cut: nat)
    requires Ascending(page) && page != [] && cut == |page|
    ensures Last(page) in Elements(page[..cut]) && forall x :: x in Elements(page[..cut]) ==> x <= Last(page)
  {
  }

  lemma AdvanceFrom(k: Config, w: View, s: set<int>, ever: set<int>, page: seq<int>, cut: nat, kept: set<int>)
    requires Inv(k, w, s, ever) && w.window == {} && PageOf(s, w.next, page) && page != [] && cut == |page|
    requires kept <= w.handled
    requires Elements(page[..cut]) <= w.handled + {} && Span(s, w.next, w.high) <= Elements(page[..cut])
    ensures Inv(k, w.(next := Last(page) + 1, outstanding := None, processed := kept), s, ever)
  {
    LastIsGreatest(page, cut);
    UpToSeen(s, w.next, page, cut, Last(page));
    AdvanceKeeps(k, w, s, ever, Elements(page[..cut]), Last(page), kept);
  }

  /** A page exported to its end is left behind for good. */
  lemma AdvanceStep(k: Config, v: View, s: set<int>, ever: set<int>, page: seq<int>, r: Scanned, now: int, v': View,
                    kept: set<int>)
    requires Inv(k, v, s, ever) && PageOf(s, v.next, page) && page != [] && r == Scan(ScannerFor(k, v, now), page)
    requires PageExported(v, v', r, {}) && v'.start == v.start && v'.next == v.next && v'.outstanding == None
    requires r.stop.None?
    requires kept <= v'.handled
    ensures Inv(k, v'.(next := Last(page) + 1, processed := kept), s, ever)
  {
    PageSettles(k, v, s, ever, page, r, now, {}, v');
    PageCovers(k, v, s, page, r, now, {}, v');
    var w := v'.(outstanding := v.outstanding);
    AdvanceFrom(k, w, s, ever, page, r.cut, kept);
    assert w.(next := Last(page) + 1, outstanding := None, processed := kept) ==
      v'.(next := Last(page) + 1, processed := kept);
  }

  /** What is behind every message the run is done with: an attempt wrote it as a row, or skipped it finally; and the
    rows are exactly what the attempts wrote. */
  ghost predicate Explained(k: Config, turns: seq<Turn>, trace: seq<Attempt>, rows: seq<int>, handled: set<int>) {
    AttemptsOf(k, turns, trace) && Elements(rows) == RowsOf(trace) && handled == RowsOf(trace) + Skipped(trace)
  }

  /** `x` became a row, or the attempt that selected or marked it was finally done with it. */
  ghost predicate DealtWith(trace: seq<Attempt>, rows: seq<int>, x: int) {
    x in Elements(rows) || x in Skipped(trace)
  }

  lemma ExplainedLater(k: Config, turns: seq<Turn>, turn: Turn, trace: seq<Attempt>, rows: seq<int>, handled: set<int>)
    requires Explained(k, turns, trace, rows, handled)
    ensures Explained(k, turns + [turn], trace, rows, handled)
  {
    AttemptsLater(k, turns, turn, trace);
  }

  lemma TraceGrows(trace: seq<Attempt>, a: Attempt)
    ensures RowsOf(trace + [a]) == RowsOf(trace) + WrittenBy(a) && Skipped(trace + [a]) == Skipped(trace) + SkippedBy(a)
    ensures AskedIn(trace + [a]) == AskedIn(trace) + a.asked
    ensures Recycles(trace + [a]) == Recycles(trace) + if !a.broke && a.asked != {} then 1 else 0
  {
    assert Front(trace + [a]) == trace && Last(trace + [a]) == a;
  }

  /** What an attempt sends back: its whole selection when it breaks. */
  ghost function Back(a: Attempt): set<int> {
    if a.broke then a.selected else a.asked
  }

  lemma ExplainedStep(k: Config, turns: seq<Turn>, turn: Turn, trace: seq<Attempt>, a: Attempt, rows: seq<int>,
                      rows': seq<int>, handled: set<int>, handled': set<int>)
    requires Explained(k, turns, trace, rows, handled) && a.turn == |turns| && IsAttempt(k, turn, a, trace)
    requires handled' == handled + (a.marked + (a.selected - Back(a)))
    requires RowsFor(rows, rows', a.selected - Back(a), turn)
    ensures Explained(k, turns + [turn], trace + [a], rows', handled')
  {
    TraceGrows(trace, a);
    AttemptsLater(k, turns, turn, trace);
    assert Front(trace + [a]) == trace;
  }

  /** Why a message was finally skipped: an attempt marked it, when it was scheduled or expired; or selected it and did
    not break, when its body could not be read: for good, or because it had asked for a retry before, or because no
    retry was to be had any more. */
  ghost predicate SkippedFor(k: Config, turn: Turn, a: Attempt, before: seq<Attempt>, x: int) {
    || (x in a.marked && (k.attrs(x).pending || Expired(k.attrs(x), turn.now)))
    || (!a.broke && x in a.selected && x !in a.asked
        && (x in turn.unreadable || (x in turn.undecodable && x !in AsksIn(turn, a.explicit, before))))
  }

  lemma {:induction false} WhySkipped(k: Config, turns: seq<Turn>, trace: seq<Attempt>, x: int) returns (i: nat)
    requires AttemptsOf(k, turns, trace) && x in Skipped(trace)
    ensures i < |trace| && trace[i].turn < |turns|
    ensures SkippedFor(k, turns[trace[i].turn], trace[i], trace[..i], x)
  {
    if x in SkippedBy(Last(trace)) {
      i := |trace| - 1;
    } else {
      i := WhySkipped(k, turns, Front(trace), x);
      assert Front(trace)[..i] == trace[..i];
    }
  }

  /** Why a run may stop at `stop`: the limit is reached, the deadline is past, everything stored from the start
    position on is handled and no body in it waits for its retry, or everything before a message of this job is. */
  ghost predicate Justified(k: Config, pastDeadline: bool, v: View, s: set<int>, stop: Stop) {
    match stop
    case MaxMessages => k.limit > 0 && v.taken >= k.limit
    case MaxDuration => pastDeadline
    case EndOfEntity =>
      forall x :: x in s && v.start <= x ==> x in v.handled && (v.outstanding.Some? ==> x < v.outstanding.value)
    case Watermark =>
      && k.stopAtJobStart && v.window == {}
      && exists w :: w in s && k.attrs(w).afterStart && forall x :: x in s && v.start <= x < w ==> x in v.handled
  }

  lemma BeforeTheCut(s: set<int>, next: int, page: seq<int>, cut: nat, x: int)
    requires PageOf(s, next, page) && cut < |page| && x in s && next <= x < page[cut]
    ensures x in Elements(page[..cut])
  {
    AllElements(page);
    assert page[cut] in Elements(page) && x in Elements(page);
    var i :| 0 <= i < |page| && page[i] == x;
    assert page[..cut][i] == x;
  }

  lemma WatermarkIsJustified(v: View, s: set<int>, page: seq<int>, cut: nat, v': View)
    requires Kept(v, s) && PageOf(s, v.next, page) && cut < |page| && v.handled <= v'.handled
    requires Elements(page[..cut]) <= v'.handled + {}
    ensures page[cut] in s && forall x :: x in s && v.start <= x < page[cut] ==> x in v'.handled
  {
    assert page[cut] in Elements(page);
    forall x | x in s && v.start <= x < page[cut] ensures x in v'.handled {
      if v.next <= x {
        BeforeTheCut(s, v.next, page, cut, x);
      }
    }
  }

  lemma StopKinds(c: Scanner, page: seq<int>, r: Scanned)
    requires Distinct(page) && r == Scan(c, page) && r.stop.Some?
    ensures r.cut < |page| && (r.stop.value.MaxMessages? || r.stop.value.Watermark?) && Distinct(r.selected)
    ensures r.stop.value.MaxMessages? ==> c.limit > 0 && c.taken + |r.selected| >= c.limit
    ensures r.stop.value.Watermark? ==> c.stopAtJobStart && c.attrs(page[r.cut]).afterStart
  {
    ScanIsSound(c, page);
  }

  lemma AllTaken(v: View, v': View, r: Scanned)
    requires PageExported(v, v', r, {}) && Distinct(r.selected)
    ensures v'.taken == v.taken + |r.selected| && v.handled <= v'.handled
  {
    DistinctSize(r.selected);
    assert Elements(r.selected) - {} == Elements(r.selected);
  }

  lemma StopIsJustified(k: Config, v: View, s: set<int>, ever: set<int>, page: seq<int>, r: Scanned, now: int, v': View,
                        pastDeadline: bool)
    requires Inv(k, v, s, ever) && PageOf(s, v.next, page) && page != [] && r == Scan(ScannerFor(k, v, now), page)
    requires PageExported(v, v', r, {}) && v'.start == v.start && r.stop.Some?
    ensures Justified(k, pastDeadline, v', s, r.stop.value)
  {
    StopKinds(ScannerFor(k, v, now), page, r);
    AllTaken(v, v', r);
    if r.stop.value.Watermark? {
      PageCovers(k, v, s, page, r, now, {}, v');
      WatermarkIsJustified(v, s, page, r.cut, v');
    }
  }

  /** What every turn keeps: explicit paging its invariant, and anything but incremental fetch its memory of the whole
    run. */
  ghost predicate Steady(k: Config, paged: bool, incremental: bool, v: View, s: set<int>, ever: set<int>,
                         trace: seq<Attempt>) {
    && v.processed <= v.handled && (!incremental ==> v.handled <= v.processed)
    && (paged ==> Inv(k, v, s, ever) && Tracked(v, s, trace)) && (incremental ==> paged)
  }

  lemma NothingForgotten(k: Config, paged: bool, incremental: bool, v: View, s: set<int>, ever: set<int>,
                         page: seq<int>, trace: seq<Attempt>)
    requires Steady(k, paged, incremental, v, s, ever, trace) && (paged ==> PageOf(s, v.next, page))
    ensures Elements(page) * v.handled <= v.processed
  {
    forall x | x in Elements(page) * v.handled ensures x in v.processed {
      assert paged ==> x in s && v.next <= x;
    }
  }

  /** Where the loop goes on after a page. */
  function Moved(v: View, done: bool, stop: Option<Stop>, last: int, incremental: bool): View {
    if !done then v
    else if v.outstanding.Some? then v.(next := v.outstanding.value)
    else if stop.Some? then v
    else v.(next := last + 1, processed := if incremental then {} else v.processed)
  }

  lemma StepKeepsInv(k: Config, v: View, s: set<int>, ever: set<int>, page: seq<int>, r: Scanned, now: int,
                     back: set<int>, v': View, done: bool, incremental: bool)
    requires Inv(k, v, s, ever) && page != [] && PageOf(s, v.next, page) && r == Scan(ScannerFor(k, v, now), page)
    requires PageExported(v, v', r, back) && back <= Elements(r.selected) && v'.start == v.start && v'.next == v.next
    requires v'.processed <= v'.handled
    requires if done then IsLeast(v'.outstanding, back) else v'.outstanding == v.outstanding
    ensures Inv(k, Moved(v', done, r.stop, Last(page), incremental), s, ever)
  {
    if done && v'.outstanding.Some? {
      RetryStep(k, v, s, ever, page, r, now, back, v', v'.outstanding.value);
    } else if done && r.stop.None? {
      AdvanceStep(k, v, s, ever, page, r, now, v', if incremental then {} else v'.processed);
    } else {
      PageSettles(k, v, s, ever, page, r, now, back, v');
      assert v' == v'.(outstanding := None) || v' == v'.(outstanding := v.outstanding);
    }
  }

  /** An attempt, as the trace keeps it. */
  ghost function AttemptFor(turn: nat, explicit: bool, r: Scanned, asks: set<int>, unread: set<int>,
                            done: bool): Attempt {
    Attempt(turn, explicit, Elements(r.marked), Elements(r.selected), Elements(r.selected) * asks, unread, !done)
  }

  lemma MovedIsAhead(v: View, s: set<int>, page: seq<int>, back: set<int>, v': View, done: bool, stop: Option<Stop>,
                     incremental: bool)
    requires page != [] && PageOf(s, v.next, page) && back <= Elements(page) && v'.next == v.next
    requires done ==> IsLeast(v'.outstanding, back)
    ensures v.next <= Moved(v', done, stop, Last(page), incremental).next
  {
    AllElements(page);
    assert Last(page) in Elements(page);
  }

  lemma SelectedFacts(c: Scanner, page: seq<int>, r: Scanned, handled: set<int>)
    requires Distinct(page) && r == Scan(c, page) && Elements(page) * handled <= c.processed
    ensures Elements(r.marked) !! Elements(r.selected) && Elements(r.selected) !! handled
    ensures Elements(r.marked) <= Elements(page) && Elements(r.selected) <= Elements(page)
    ensures forall n :: n in Elements(r.selected) ==> Exportable(c, n) && !Expired(c.attrs(n), c.now)
    ensures forall n :: n in Elements(r.marked) ==> c.attrs(n).pending || Expired(c.attrs(n), c.now)
  {
    ScanIsSound(c, page);
    SliceWithin(page, r.cut);
  }

  lemma StepIsTracked(k: Config, v: View, s: set<int>, ever: set<int>, page: seq<int>, r: Scanned, now: int,
                      back: set<int>, v': View, done: bool, incremental: bool, trace: seq<Attempt>, a: Attempt)
    requires Inv(k, v, s, ever) && Tracked(v, s, trace) && page != [] && PageOf(s, v.next, page)
    requires r == Scan(ScannerFor(k, v, now), page) && Elements(page) * v.handled <= v.processed
    requires PageExported(v, v', r, back) && back <= Elements(r.selected) && v'.next == v.next
    requires if done then IsLeast(v'.outstanding, back)
             else v'.outstanding == v.outstanding && back == Elements(r.selected)
    requires a.broke == !done && a.marked == Elements(r.marked) && a.selected == Elements(r.selected) && Back(a) == back
    ensures Tracked(Moved(v', done, r.stop, Last(page), incremental), s, trace + [a])
  {
    SelectedFacts(ScannerFor(k, v, now), page, r, v.handled);
    if done {
      TrackedDone(v', s, trace, a);
    } else {
      assert Elements(r.marked) + (Elements(r.selected) - back) == a.marked;
      TrackedBroken(k, v, v', s, ever, trace, a);
    }
    MovedIsAhead(v, s, page, back, v', done, r.stop, incremental);
    TrackedMoved(v', Moved(v', done, r.stop, Last(page), incremental), s, trace + [a]);
  }

  /** The bodies that get a retry after these attempts: first failures, within the budget. */
  ghost function AsksAfter(turn: Turn, trace: seq<Attempt>): set<int> {
    if Recycles(trace) < MAX_UNREADABLE_RECYCLES then turn.undecodable - AskedIn(trace) else {}
  }

  /** Only explicit paging retries. */
  ghost function AsksIn(turn: Turn, explicit: bool, trace: seq<Attempt>): set<int> {
    if explicit then AsksAfter(turn, trace) else {}
  }

  /** What an attempt is worth: it was made in its turn, after the attempts `before`; by explicit paging on messages
    stored then, and only then its bodies get retries. */
  ghost predicate IsAttempt(k: Config, turn: Turn, a: Attempt, before: seq<Attempt>) {
    && (a.broke <==> turn.end.Broke? && a.selected != {}) && a.unread == Unread(turn)
    && a.asked == a.selected * AsksIn(turn, a.explicit, before)
    && (a.explicit ==> a.marked + a.selected <= Elements(turn.stored))
    && (forall n :: n in a.marked ==> k.attrs(n).pending || Expired(k.attrs(n), turn.now))
    && (forall n :: n in a.selected ==> ExportableMsg(k, n) && !Expired(k.attrs(n), turn.now))
  }

  ghost predicate MadeIn(trace: seq<Attempt>, j: int) {
    trace != [] && (Last(trace).turn == j || MadeIn(Front(trace), j))
  }

  /** The trace holds attempts of these turns, in order. */
  ghost predicate AttemptsOf(k: Config, turns: seq<Turn>, trace: seq<Attempt>) {
    trace != [] ==>
      && AttemptsOf(k, turns, Front(trace)) && (Front(trace) != [] ==> Last(Front(trace)).turn < Last(trace).turn)
      && Last(trace).turn < |turns| && IsAttempt(k, turns[Last(trace).turn], Last(trace), Front(trace))
  }

  /** Each of the first `upTo` turns was an attempt or failed, before the deadline. */
  ghost predicate QuietUpTo(turns: seq<Turn>, upTo: int, trace: seq<Attempt>) {
    upTo > 0 ==>
      && upTo <= |turns| && (MadeIn(trace, upTo - 1) || turns[upTo - 1].fails.Some?) && !turns[upTo - 1].pastDeadline
      && QuietUpTo(turns, upTo - 1, trace)
  }

  /** All attempts were made by explicit paging. */
  ghost predicate Explicit(trace: seq<Attempt>) {
    trace != [] ==> Last(trace).explicit && Explicit(Front(trace))
  }

  ghost predicate Recounted(k: Config, turns: seq<Turn>, upTo: int, trace: seq<Attempt>) {
    AttemptsOf(k, turns, trace) && QuietUpTo(turns, upTo, trace) && Explicit(trace)
  }

  lemma {:induction false} AttemptsLater(k: Config, turns: seq<Turn>, turn: Turn, trace: seq<Attempt>)
    requires AttemptsOf(k, turns, trace)
    ensures AttemptsOf(k, turns + [turn], trace)
  {
    if trace != [] {
      AttemptsLater(k, turns, turn, Front(trace));
    }
  }

  lemma {:induction false} QuietLater(turns: seq<Turn>, turn: Turn, upTo: int, trace: seq<Attempt>, more: seq<Attempt>)
    requires QuietUpTo(turns, upTo, trace) && (more == trace || (more != [] && Front(more) == trace))
    ensures QuietUpTo(turns + [turn], upTo, more)
  {
    if upTo > 0 {
      QuietLater(turns, turn, upTo - 1, trace, more);
    }
  }

  lemma QuietTurn(turns: seq<Turn>, turn: Turn, trace: seq<Attempt>)
    requires QuietUpTo(turns, |turns|, trace)
    ensures QuietUpTo(turns + [turn], if turn.fails.Some? && !turn.pastDeadline then |turns| + 1 else |turns|, trace)
  {
    QuietLater(turns, turn, |turns|, trace, trace);
  }

  lemma {:induction false} LastIsLatest(k: Config, turns: seq<Turn>, trace: seq<Attempt>, j: int)
    requires AttemptsOf(k, turns, trace) && MadeIn(trace, j)
    ensures j <= Last(trace).turn
  {
    if Last(trace).turn != j {
      LastIsLatest(k, turns, Front(trace), j);
    }
  }

  lemma AttemptTurn(turns: seq<Turn>, turn: Turn, trace: seq<Attempt>, a: Attempt)
    requires QuietUpTo(turns, |turns|, trace) && a.turn == |turns| && Explicit(trace) && a.explicit
    requires !turn.pastDeadline
    ensures QuietUpTo(turns + [turn], |turns| + 1, trace + [a]) && Explicit(trace + [a])
  {
    assert Front(trace + [a]) == trace;
    QuietLater(turns, turn, |turns|, trace, trace + [a]);
  }

  /** What came back are the bodies that asked, or all of a broken selection. */
  lemma SomeAsked(res: PageResult, a: Attempt, back: set<int>)
    requires a.broke == !res.PageDone?
    requires if res.PageDone? then back == Elements(res.retried) == a.asked else back == a.selected
    ensures back == Back(a) && (res.PageDone? ==> (a.asked != {} <==> res.retried != []))
  {
    if res.PageDone? && res.retried != [] {
      assert res.retried[0] in Elements(res.retried);
    }
  }

  /** What an export does, told by its attempt. */
  ghost predicate Attempted(k: Config, v: View, v': View, past: seq<Turn>, turn: Turn, before: seq<Attempt>, a: Attempt,
                            rows: seq<int>, r: Scanned, res: PageResult) {
    && EndsAs(res, turn, r.selected != []) && a.turn == |past| && a.broke == !res.PageDone?
    && a.marked == Elements(r.marked) && a.selected == Elements(r.selected)
    && (!res.PageFailed? ==> PageExported(v, v', r, Back(a)))
    && (!res.PageFailed? ==> Explained(k, past + [turn], before + [a], rows, v'.handled))
    && (res.PageDone? ==> res.stop == r.stop && IsLeast(v'.outstanding, Back(a)))
    && (res.PageDone? ==> (a.asked != {} <==> res.retried != []))
    && (res.PageBroke? ==> v'.outstanding == v.outstanding)
  }

  lemma AttemptedFrom(k: Config, v: View, v': View, was: seq<int>, rows: seq<int>, page: seq<int>, turn: Turn,
                      r: Scanned, back: set<int>, res: PageResult, asks: set<int>, past: seq<Turn>,
                      before: seq<Attempt>, a: Attempt)
    requires ExportDone(v, v', was, rows, r, back, turn, res, asks) && Distinct(page)
    requires r == Scan(ScannerFor(k, v, turn.now), page) && Elements(page) * v.handled <= v.processed
    requires Explained(k, past, before, was, v.handled) && (a.explicit ==> Elements(page) <= Elements(turn.stored))
    requires a == AttemptFor(|past|, a.explicit, r, asks, Unread(turn), res.PageDone?)
    requires asks == AsksIn(turn, a.explicit, before)
    ensures Attempted(k, v, v', past, turn, before, a, rows, r, res)
  {
    if !res.PageFailed? {
      SomeAsked(res, a, back);
      AttemptIsReal(k, v, page, turn, r, asks, res, a, before);
      ExplainedStep(k, past, turn, before, a, was, rows, v.handled, v'.handled);
    }
  }

  lemma AttemptIsReal(k: Config, v: View, page: seq<int>, turn: Turn, r: Scanned, asks: set<int>, res: PageResult,
                      a: Attempt, before: seq<Attempt>)
    requires Distinct(page) && r == Scan(ScannerFor(k, v, turn.now), page) && Elements(page) * v.handled <= v.processed
    requires EndsAs(res, turn, r.selected != []) && !res.PageFailed?
    requires a == AttemptFor(a.turn, a.explicit, r, asks, Unread(turn), res.PageDone?)
    requires a.explicit ==> Elements(page) <= Elements(turn.stored)
    requires asks == AsksIn(turn, a.explicit, before)
    ensures IsAttempt(k, turn, a, before)
  {
    SelectedFacts(ScannerFor(k, v, turn.now), page, r, v.handled);
    AllElements(r.selected);
    assert r.selected != [] ==> r.selected[0] in Elements(r.selected);
  }

  lemma StepKeeps(k: Config, paged: bool, incremental: bool, v: View, turn: Turn, ever: set<int>, page: seq<int>,
                  r: Scanned, back: set<int>, v': View, res: PageResult, trace: seq<Attempt>, a: Attempt,
                  past: seq<Turn>)
    requires Steady(k, paged, incremental, v, Elements(turn.stored), ever, trace) && page != [] && Distinct(page)
    requires paged ==> PageOf(Elements(turn.stored), v.next, page) && QuietUpTo(past, |past|, trace)
    requires paged ==> Explicit(trace) && a.explicit && !turn.pastDeadline
    requires r == Scan(ScannerFor(k, v, turn.now), page) && PageExported(v, v', r, back) && back <= Elements(r.selected)
    requires v'.start == v.start && v'.next == v.next && !res.PageFailed? && EndsAs(res, turn, r.selected != [])
    requires if res.PageDone? then IsLeast(v'.outstanding, back) && res.stop == r.stop
             else v'.outstanding == v.outstanding && back == Elements(r.selected)
    requires a.turn == |past| && a.broke == !res.PageDone? && Back(a) == back
    requires a.marked == Elements(r.marked) && a.selected == Elements(r.selected)
    ensures Steady(k, paged, incremental,
                   Moved(v', res.PageDone?, if res.PageDone? then res.stop else None, Last(page), incremental),
                   Elements(turn.stored), ever, trace + [a])
    ensures paged ==> QuietUpTo(past + [turn], |past| + 1, trace + [a]) && Explicit(trace + [a])
    ensures paged && res.PageDone? && v'.outstanding.None? && res.stop.Some? ==>
      Justified(k, turn.pastDeadline, v', Elements(turn.stored), res.stop.value)
  {
    var s, done := Elements(turn.stored), res.PageDone?;
    assert Moved(v', done, if done then res.stop else None, Last(page), incremental) ==
      Moved(v', done, r.stop, Last(page), incremental);
    if paged {
      NothingForgotten(k, paged, incremental, v, s, ever, page, trace);
      StepKeepsInv(k, v, s, ever, page, r, turn.now, back, v', done, incremental);
      StepIsTracked(k, v, s, ever, page, r, turn.now, back, v', done, incremental, trace, a);
      AttemptTurn(past, turn, trace, a);
      if done && v'.outstanding.None? && res.stop.Some? {
        StopIsJustified(k, v, s, ever, page, r, turn.now, v', turn.pastDeadline);
      }
    }
  }

  // ---------------------------------------------------------------- whole runs

  /** What was stored at the last of the first `n` turns. */
  ghost function StoredAt(script: seq<Turn>, n: nat): set<int>
    requires n <= |script|
  {
    if n == 0 then {} else Elements(script[n - 1].stored)
  }

  /** The last of the first `n` turns comes after the deadline. */
  predicate LateAt(script: seq<Turn>, n: nat)
    requires n <= |script|
  {
    n > 0 && script[n - 1].pastDeadline
  }

  /** Some page of the first `n` turns shows partitioned numbers. */
  ghost predicate ShowsPartitions(script: seq<Turn>, n: nat)
    requires n <= |script|
  {
    n > 0 && (script[n - 1].partitioned || ShowsPartitions(script, n - 1))
  }

  /** What was stored at any of the first `n` turns. */
  ghost function Ever(script: seq<Turn>, n: nat): set<int>
    requires n <= |script|
  {
    if n == 0 then {} else Ever(script, n - 1) + Elements(script[n - 1].stored)
  }

  /** Pages are in order, cursor mode repeats no message within a page, and, when they are `growing`, new messages get
    higher numbers than any before. */
  ghost predicate Orderly(script: seq<Turn>, growing: bool) {
    && (forall i :: 0 <= i < |script| ==> Ascending(script[i].stored) && Distinct(script[i].cursorPage))
    && (growing ==> forall i :: 0 <= i < |script| ==>
                      Grows(StoredAt(script, i), Ever(script, i), Elements(script[i].stored)))
  }

  /** The state of the loop after `turns`, of which the first `upTo` were attempts or failures; `s` is what is
    stored. */
  ghost predicate Going(k: Config, v: View, rows: seq<int>, trace: seq<Attempt>, turns: seq<Turn>, upTo: int,
                        s: set<int>, paged: bool, incremental: bool, ever: set<int>) {
    && Steady(k, paged, incremental, v, s, ever, trace)
    && Explained(k, turns, trace, rows, v.handled) && (paged ==> QuietUpTo(turns, upTo, trace) && Explicit(trace))
  }

  /** A turn that exports nothing: it fails, ends the run, or finds out about partitions. */
  lemma NothingExported(k: Config, v: View, rows: seq<int>, trace: seq<Attempt>, past: seq<Turn>, turn: Turn,
                        s: set<int>, paged: bool, incremental: bool, ever: set<int>)
    requires Going(k, v, rows, trace, past, |past|, s, paged, incremental, ever)
    ensures Going(k, v, rows, trace, past + [turn], |past|, s, paged, incremental, ever)
    ensures turn.fails.Some? && !turn.pastDeadline ==>
      Going(k, v, rows, trace, past + [turn], |past| + 1, s, paged, incremental, ever)
    ensures !incremental ==> Going(k, v, rows, trace, past + [turn], |past| + 1, s, false, false, ever)
  {
    ExplainedLater(k, past, turn, trace, rows, v.handled);
    if paged {
      QuietTurn(past, turn, trace);
      QuietLater(past, turn, |past|, trace, trace);
    }
  }

  lemma GoingAtStart(k: Config, v: View, script: seq<Turn>, paged: bool, incremental: bool)
    requires v.processed == v.handled == v.window == {} && v.high == v.outstanding == None && v.next == v.start
    requires (k.limit > 0 ==> v.taken <= k.limit) && (incremental ==> paged)
    ensures Standing(k, v, [], [], script, 0, 0, paged, incremental)
  {
    SteadyAtStart(k, paged, incremental, v);
  }

  ghost predicate Standing(k: Config, v: View, rows: seq<int>, trace: seq<Attempt>, script: seq<Turn>, n: nat,
                           upTo: int, paged: bool, incremental: bool)
    requires n <= |script|
  {
    Going(k, v, rows, trace, script[..n], upTo, StoredAt(script, n), paged, incremental, Ever(script, n))
  }

  /** How the run stands after `n` turns: a run that stopped had a reason. */
  ghost predicate Ended(k: Config, v: View, rows: seq<int>, trace: seq<Attempt>, script: seq<Turn>, n: nat, paged: bool,
                        incremental: bool, ending: PeekEnding)
    requires n <= |script|
  {
    && (!ending.RunFailed? ==>
          Standing(k, v, rows, trace, script, n, if ending.Stopped? then n - 1 else n, paged, incremental))
    && (ending.Stopped? ==> n > 0)
    && (ending.Stopped? && paged ==> Justified(k, LateAt(script, n), v, StoredAt(script, n), ending.stop))
  }

  lemma EndedFrom(k: Config, v: View, rows: seq<int>, trace: seq<Attempt>, script: seq<Turn>, n: nat, paged: bool,
                  incremental: bool, ending: PeekEnding)
    requires 0 < n <= |script|
    requires !ending.RunFailed? ==>
      Going(k, v, rows, trace, script[..n], if ending.Stopped? then n - 1 else n, StoredAt(script, n), paged,
            incremental, Ever(script, n))
    requires ending.Stopped? && paged ==> Justified(k, LateAt(script, n), v, StoredAt(script, n), ending.stop)
    ensures Ended(k, v, rows, trace, script, n, paged, incremental, ending)
  {
  }

  lemma SteadyAtStart(k: Config, paged: bool, incremental: bool, v: View)
    requires v.processed == v.handled == v.window == {} && v.high == v.outstanding == None && v.next == v.start
    requires (k.limit > 0 ==> v.taken <= k.limit) && (incremental ==> paged)
    ensures Steady(k, paged, incremental, v, {}, {}, [])
  {
    assert Span({}, v.next, v.high) == {};
  }

  lemma SteadyLater(k: Config, paged: bool, incremental: bool, v: View, script: seq<Turn>, n: nat, growing: bool,
                    trace: seq<Attempt>)
    requires n < |script| && Orderly(script, growing) && (paged ==> growing)
    requires Steady(k, paged, incremental, v, StoredAt(script, n), Ever(script, n), trace)
    ensures Steady(k, paged, incremental, v, StoredAt(script, n + 1), Ever(script, n + 1), trace)
  {
    if paged {
      Observe(k, v, StoredAt(script, n), Ever(script, n), Elements(script[n].stored));
      TrackedLater(k, v, StoredAt(script, n), Ever(script, n), Elements(script[n].stored), trace);
    }
  }

  /** The next turn may have found other messages. */
  lemma TurnBegins(k: Config, v: View, rows: seq<int>, trace: seq<Attempt>, script: seq<Turn>, n: nat, growing: bool,
                   paged: bool, incremental: bool)
    requires n < |script| && Orderly(script, growing) && (paged ==> growing)
    requires Standing(k, v, rows, trace, script, n, n, paged, incremental)
    ensures Going(k, v, rows, trace, script[..n], n, StoredAt(script, n + 1), paged, incremental, Ever(script, n + 1))
  {
    SteadyLater(k, paged, incremental, v, script, n, growing, trace);
  }

  lemma TurnFacts(script: seq<Turn>, n: nat, growing: bool)
    requires n < |script| && Orderly(script, growing)
    ensures script[..n + 1] == script[..n] + [script[n]] && StoredAt(script, n + 1) == Elements(script[n].stored)
    ensures |script[..n]| == n && LateAt(script, n + 1) == script[n].pastDeadline
    ensures Ascending(script[n].stored) && Distinct(script[n].cursorPage)
  {
  }

  // ---------------------------------------------------------------- sessions

  ghost function TurnsOf(script: seq<SessionTurn>, n: nat): seq<Turn>
    requires n <= |script|
  {
    if n == 0 then [] else TurnsOf(script, n - 1) + [script[n - 1].turn]
  }

  lemma {:induction false} TurnsCount(script: seq<SessionTurn>, n: nat)
    requires n <= |script|
    ensures |TurnsOf(script, n)| == n
  {
    if n > 0 {
      TurnsCount(script, n - 1);
    }
  }

  ghost function Ids(visits: seq<Visit>): set<string> {
    set v | v in visits :: v.id
  }

  ghost predicate Full(k: Config, taken: nat) {
    k.limit > 0 && taken >= k.limit
  }

  /** The connection broke in this turn: sessions are peeked again from the first. */
  predicate Breaks(t: SessionTurn) {
    || (t.open.OpenFails? && !t.open.kind.SessionLocked?) || (t.turn.fails.Some? && !t.turn.fails.value.SessionLocked?)
    || (t.turn.end.Broke? && !t.turn.end.kind.SessionLocked?)
  }

  /** What is stored all through the turns from `a` up to `b`. */
  ghost function Lasting(script: seq<SessionTurn>, a: nat, b: nat): set<int>
    requires a < b <= |script|
  {
    if b == a + 1 then Elements(script[a].turn.stored)
    else Lasting(script, a, b - 1) * Elements(script[b - 1].turn.stored)
  }

  /** The session was handed out at the first turn of the visit, and everything stored in it all through the turns after
    that is handled, as far as the visit went, unless another receiver turned out to hold it. */
  ghost predicate VisitDone(k: Config, script: seq<SessionTurn>, v: Visit, handled: set<int>) {
    && v.begin + 1 < v.end <= |script| && script[v.begin].open == Handed(v.id)
    && match v.how
       case Finished => forall x :: x in Lasting(script, v.begin + 1, v.end) && 1 <= x ==> x in handled
       case AtJob(first) =>
         && k.stopAtJobStart && k.attrs(first).afterStart && first in Elements(script[v.end - 1].turn.stored)
         && forall x :: x in Lasting(script, v.begin + 1, v.end) && 1 <= x < first ==> x in handled
       case TakenOver => LosesLock(script[v.end - 1].turn)
  }

  predicate LosesLock(turn: Turn) {
    turn.fails == Some(SessionLocked) || turn.end == Broke(SessionLocked)
  }

  /** The turns from `from` to `n` are these visits, each of another session, and tries at sessions others hold. */
  ghost predicate Toured(k: Config, script: seq<SessionTurn>, from: nat, n: nat, visits: seq<Visit>, handled: set<int>)
    decreases n
  {
    && from <= n <= |script|
    && if visits != [] && Last(visits).end == n then
         && VisitDone(k, script, Last(visits), handled) && Last(visits).id !in Ids(Front(visits))
         && Toured(k, script, from, Last(visits).begin, Front(visits), handled)
       else if n == from then visits == []
       else script[n - 1].open == OpenFails(SessionLocked) && Toured(k, script, from, n - 1, visits, handled)
  }

  /** The present connection was opened at turn `from`. */
  ghost predicate OnConnection(script: seq<SessionTurn>, n: nat, from: nat) {
    from <= n <= |script| && (from == 0 || Breaks(script[from - 1]))
  }

  /** How the loop over the sessions stands after `n` turns. */
  ghost predicate Touring(k: Config, script: seq<SessionTurn>, n: nat, tour: Tour, place: Place, handled: set<int>) {
    && OnConnection(script, n, tour.from)
    && if place.session then Open(k, script, n, tour, place, handled)
       else Toured(k, script, tour.from, n, tour.visits, handled) && place.seen == Ids(tour.visits)
  }

  ghost predicate Open(k: Config, script: seq<SessionTurn>, n: nat, tour: Tour, place: Place, handled: set<int>)
    requires n <= |script|
  {
    && tour.begin < n && Toured(k, script, tour.from, tour.begin, tour.visits, handled)
    && script[tour.begin].open.Handed? && script[tour.begin].open.id !in Ids(tour.visits)
    && place.seen == Ids(tour.visits) + {script[tour.begin].open.id}
    && if n == tour.begin + 1 then place.next == 1
       else forall x :: x in Lasting(script, tour.begin + 1, n) && 1 <= x < place.next ==> x in handled
  }

  ghost function Visited(tour: Tour, script: seq<SessionTurn>, n: nat, how: VisitEnd): Tour
    requires tour.begin < |script| && script[tour.begin].open.Handed?
  {
    tour.(visits := tour.visits + [Visit(script[tour.begin].open.id, tour.begin, n + 1, how)])
  }

  /** Why a run over `n` turns ended: no session was left or one came again, when the visits of the present connection
    are complete; or the limit or the deadline was reached. */
  ghost predicate SessionsEnd(k: Config, script: seq<SessionTurn>, n: nat, tour: Tour, handled: set<int>, taken: nat,
                              why: SessionStop) {
    && 0 < n <= |script| && OnConnection(script, n - 1, tour.from)
    && match why
       case NoMore =>
         script[n - 1].open.NoMoreSessions? && Toured(k, script, tour.from, n - 1, tour.visits, handled)
       case Revisited =>
         && script[n - 1].open.Handed? && script[n - 1].open.id in Ids(tour.visits)
         && Toured(k, script, tour.from, n - 1, tour.visits, handled)
       case AtStop(stop) =>
         (stop.MaxMessages? && Full(k, taken)) || (stop.MaxDuration? && script[n - 1].turn.pastDeadline)
  }

  lemma {:induction false} TouredLater(k: Config, script: seq<SessionTurn>, from: nat, n: nat, visits: seq<Visit>,
                                       handled: set<int>, handled': set<int>)
    requires Toured(k, script, from, n, visits, handled) && handled <= handled'
    ensures Toured(k, script, from, n, visits, handled')
    decreases n
  {
    if visits != [] && Last(visits).end == n {
      TouredLater(k, script, from, Last(visits).begin, Front(visits), handled, handled');
    } else if n != from {
      TouredLater(k, script, from, n - 1, visits, handled, handled');
    }
  }

  lemma {:induction false} VisitsEndBefore(k: Config, script: seq<SessionTurn>, from: nat, n: nat, visits: seq<Visit>,
                                           handled: set<int>)
    requires Toured(k, script, from, n, visits, handled) && visits != []
    ensures Last(visits).end <= n
    decreases n
  {
    if Last(visits).end != n {
      VisitsEndBefore(k, script, from, n - 1, visits, handled);
    }
  }

  /** A try at a session another receiver holds. */
  lemma SkippedTour(k: Config, script: seq<SessionTurn>, n: nat, tour: Tour, place: Place, handled: set<int>)
    requires n < |script| && !place.session && script[n].open == OpenFails(SessionLocked)
    requires Touring(k, script, n, tour, place, handled)
    ensures Touring(k, script, n + 1, tour, place, handled)
  {
    if tour.visits != [] {
      VisitsEndBefore(k, script, tour.from, n, tour.visits, handled);
    }
  }

  /** A visit is over. */
  lemma VisitEnds(k: Config, script: seq<SessionTurn>, n: nat, tour: Tour, place: Place, how: VisitEnd,
                  handled: set<int>, handled': set<int>)
    requires n < |script| && place.session && Touring(k, script, n, tour, place, handled) && handled <= handled'
    requires VisitDone(k, script, Visit(script[tour.begin].open.id, tour.begin, n + 1, how), handled')
    ensures Touring(k, script, n + 1, Visited(tour, script, n, how), place.(session := false), handled')
  {
    var visits, v := tour.visits, Visit(script[tour.begin].open.id, tour.begin, n + 1, how);
    TouredLater(k, script, tour.from, tour.begin, visits, handled, handled');
    assert Front(visits + [v]) == visits && Last(visits + [v]) == v;
    assert Ids(visits + [v]) == Ids(visits) + {v.id};
  }

  /** A session is left at an empty page: nothing is stored at or above the position. */
  lemma SessionEnds(k: Config, script: seq<SessionTurn>, n: nat, tour: Tour, place: Place, handled: set<int>)
    requires n < |script| && place.session && Touring(k, script, n, tour, place, handled)
    requires forall x :: x in Elements(script[n].turn.stored) ==> x < place.next
    ensures Touring(k, script, n + 1, Visited(tour, script, n, Finished), place.(session := false), handled)
  {
    VisitEnds(k, script, n, tour, place, Finished, handled, handled);
  }

  /** A session is left because another receiver holds it. */
  lemma SessionIsLost(k: Config, script: seq<SessionTurn>, n: nat, tour: Tour, place: Place, handled: set<int>,
                      handled': set<int>)
    requires n < |script| && place.session && Touring(k, script, n, tour, place, handled) && handled <= handled'
    requires LosesLock(script[n].turn)
    ensures Touring(k, script, n + 1, Visited(tour, script, n, TakenOver), place.(session := false), handled')
  {
    VisitEnds(k, script, n, tour, place, TakenOver, handled, handled');
  }

  /** What a page of a session leaves handled: everything stored from the position up to where the scan got. */
  ghost predicate PageHandled(s: set<int>, next: int, upTo: int, handled: set<int>) {
    forall x :: x in s && next <= x < upTo ==> x in handled
  }

  /** What one exported page of a session leaves: it is handled to its end, or up to the first message of this job, or
    the limit is reached. */
  ghost predicate SessionPage(k: Config, s: set<int>, next: int, page: seq<int>, stop: Option<Stop>, cut: nat,
                              handled: set<int>, handled': set<int>, taken': nat)
    requires page != []
  {
    && handled <= handled'
    && match stop
       case None => PageHandled(s, next, Last(page) + 1, handled')
       case Some(stop) =>
         if stop.Watermark? then
           && cut < |page| && page[cut] in s && k.stopAtJobStart && k.attrs(page[cut]).afterStart
           && PageHandled(s, next, page[cut], handled')
         else stop.MaxMessages? && Full(k, taken')
  }

  lemma CutIsHandled(k: Config, v: View, v': View, page: seq<int>, r: Scanned, now: int)
    requires Distinct(page) && v.processed == v.handled
    requires r == Scan(ScannerFor(k, v, now), page) && PageExported(v, v', r, {})
    ensures ScanSound(ScannerFor(k, v, now), page, r)
    ensures v.handled <= v'.handled && Elements(page[..r.cut]) <= v'.handled && v'.taken == v.taken + |r.selected|
  {
    ScanIsSound(ScannerFor(k, v, now), page);
    DistinctSize(r.selected);
    AllAbsorbed(v, v', Elements(r.marked), Elements(r.selected), Elements(page[..r.cut]));
  }

  lemma AllAbsorbed(v: View, v': View, marked: set<int>, selected: set<int>, seen: set<int>)
    requires Absorbed(v, v', marked, selected - {}) && seen <= v.handled + marked + selected
    ensures v.handled <= v'.handled && seen <= v'.handled && v'.taken == v.taken + |selected|
  {
    assert selected - {} == selected;
  }

  lemma SessionPageScanned(k: Config, v: View, v': View, s: set<int>, next: int, page: seq<int>, r: Scanned, now: int)
    requires PageOf(s, next, page) && page != [] && ScanSound(ScannerFor(k, v, now), page, r)
    requires v.handled <= v'.handled && Elements(page[..r.cut]) <= v'.handled && v'.taken == v.taken + |r.selected|
    ensures SessionPage(k, s, next, page, r.stop, r.cut, v.handled, v'.handled, v'.taken)
  {
    if r.stop.None? {
      LastIsGreatest(page, r.cut);
      UpToSeen(s, next, page, r.cut, Last(page));
    } else {
      forall x | x in s && next <= x < page[r.cut] ensures x in v'.handled {
        BeforeTheCut(s, next, page, r.cut, x);
      }
    }
  }

  /** What the export of a session page does. */
  ghost predicate ExportedInSession(k: Config, v: View, v': View, next: int, page: seq<int>, past: seq<Turn>,
                                    turn: Turn, trace: seq<Attempt>, rows: seq<int>, res: PageResult, cut: nat)
    requires page != []
  {
    && (res.PageFailed? ==> turn.end.OwnFailure?) && (res.PageBroke? ==> turn.end == Broke(res.kind))
    && (!res.PageFailed? ==> v.handled <= v'.handled && v'.processed == v'.handled)
    && (!res.PageFailed? ==> Explained(k, past + [turn], trace, rows, v'.handled))
    && (res.PageDone? ==>
          && res.retried == []
          && SessionPage(k, Elements(turn.stored), next, page, res.stop, cut, v.handled, v'.handled, v'.taken))
  }

  lemma SessionExported(k: Config, v: View, v': View, next: int, page: seq<int>, past: seq<Turn>, turn: Turn,
                        before: seq<Attempt>, a: Attempt, rows: seq<int>, r: Scanned, res: PageResult)
    requires Attempted(k, v, v', past, turn, before, a, rows, r, res) && v.processed == v.handled
    requires PageOf(Elements(turn.stored), next, page) && page != [] && Distinct(page)
    requires r == Scan(ScannerFor(k, v, turn.now), page) && a.asked == {}
    ensures ExportedInSession(k, v, v', next, page, past, turn, before + [a], rows, res, r.cut)
  {
    if res.PageDone? {
      CutIsHandled(k, v, v', page, r, turn.now);
      SessionPageScanned(k, v, v', Elements(turn.stored), next, page, r, turn.now);
    }
  }

  /** A page of a session was handled to its end. */
  lemma SessionAdvances(k: Config, script: seq<SessionTurn>, n: nat, tour: Tour, place: Place, next: int,
                        handled: set<int>, handled': set<int>)
    requires n < |script| && place.session && Touring(k, script, n, tour, place, handled) && handled <= handled'
    requires PageHandled(Elements(script[n].turn.stored), place.next, next, handled')
    ensures Touring(k, script, n + 1, tour, place.(next := next), handled')
  {
    TouredLater(k, script, tour.from, tour.begin, tour.visits, handled, handled');
  }

  /** A page of a session was handled up to the first message of this job. */
  lemma SessionReachesJob(k: Config, script: seq<SessionTurn>, n: nat, tour: Tour, place: Place, until: int,
                          handled: set<int>, handled': set<int>)
    requires n < |script| && place.session && Touring(k, script, n, tour, place, handled) && handled <= handled'
    requires PageHandled(Elements(script[n].turn.stored), place.next, until, handled')
    requires k.stopAtJobStart && k.attrs(until).afterStart && until in Elements(script[n].turn.stored)
    ensures Touring(k, script, n + 1, Visited(tour, script, n, AtJob(until)), place.(session := false), handled')
  {
    VisitEnds(k, script, n, tour, place, AtJob(until), handled, handled');
  }

  /** What was stored in a visited session all through the visit is a row or finally skipped, up to the first message of
    this job if that ended the visit. */
  lemma {:induction false} VisitedMeansExported(k: Config, script: seq<SessionTurn>, from: nat, n: nat, m: nat,
                                                visits: seq<Visit>, trace: seq<Attempt>, rows: seq<int>,
                                                handled: set<int>, v: Visit, x: int)
    requires Toured(k, script, from, n, visits, handled) && m <= |script|
    requires Explained(k, TurnsOf(script, m), trace, rows, handled)
    requires v in visits && 1 <= x && v.begin + 1 < v.end <= |script|
    requires x in Lasting(script, v.begin + 1, v.end) && (v.how.Finished? || (v.how.AtJob? && x < v.how.first))
    ensures DealtWith(trace, rows, x)
    decreases n
  {
    if Last(visits).end == n && v != Last(visits) {
      VisitedMeansExported(k, script, from, Last(visits).begin, m, Front(visits), trace, rows, handled, v, x);
    } else if Last(visits).end != n {
      VisitedMeansExported(k, script, from, n - 1, m, visits, trace, rows, handled, v, x);
    } else {
      assert x in handled;
    }
  }

  // ---------------------------------------------------------------- the stored cursor

  /** `c` is the highest number the cursor may cover, or the stored cursor when it may cover none. */
  ghost predicate IsNewCursor(v: View, cursor: Option<PeekCursor>, path: string, c: Option<PeekCursor>) {
    && (c == cursor || (c.Some? && c.value.path == path && Covered(v, c.value.last)))
    && (forall x :: Covered(v, x) ==> c.Some? && c.value.path == path && x <= c.value.last)
  }

  /** The cursor stays, or becomes one of this entity; on the same entity it never moves back. */
  predicate NeverBack(path: string, cursor: Option<PeekCursor>, cursor': Option<PeekCursor>) {
    && (cursor.Some? ==> cursor'.Some?) && (cursor' == cursor || (cursor'.Some? && cursor'.value.path == path))
    && (cursor.Some? && cursor.value.path == path ==>
          cursor'.value.path == path && cursor.value.last <= cursor'.value.last)
  }

  /** What the new cursor passes: from the start position up to it, a stored message is a row or finally skipped if and
    only if it was not left behind by an attempt that broke; if it was, the last turn was past the deadline, and only
    failures came between. */
  ghost predicate CursorHonest(k: Config, turns: seq<Turn>, rows: seq<int>, trace: seq<Attempt>, path: string,
                               start: int, cursor: Option<PeekCursor>, s: set<int>) {
    && turns != [] && Recounted(k, turns, |turns| - 1, trace) && Elements(rows) == RowsOf(trace)
    && CursorMoves(rows, trace, path, start, cursor)
    && forall x :: x in s && start <= x ==> HonestAt(rows, trace, path, start, cursor, Last(turns).pastDeadline, x)
  }

  /** What the run is done with is passed, unless a body at or below it waits for its retry; and it is done with nothing
    before its start. */
  ghost predicate CursorMoves(rows: seq<int>, trace: seq<Attempt>, path: string, start: int,
                              cursor: Option<PeekCursor>) {
    forall x :: DealtWith(trace, rows, x) ==>
      start <= x && (BelowWaiting(trace, x) ==> Passed(cursor, path, start, x))
  }

  ghost predicate HonestAt(rows: seq<int>, trace: seq<Attempt>, path: string, start: int, cursor: Option<PeekCursor>,
                           late: bool, x: int) {
    && (Passed(cursor, path, start, x) ==> (DealtWith(trace, rows, x) <==> !LeftBehind(trace, x)))
    && (LeftBehind(trace, x) ==> Passed(cursor, path, start, x) && late)
  }

  predicate Passed(cursor: Option<PeekCursor>, path: string, start: int, x: int) {
    cursor.Some? && cursor.value.path == path && start <= x <= cursor.value.last
  }

  /** Nothing is left behind unless writing broke in some turn. */
  lemma NoBreakNoGap(k: Config, turns: seq<Turn>, upTo: int, trace: seq<Attempt>, x: int)
    requires Recounted(k, turns, upTo, trace) && forall i :: 0 <= i < |turns| ==> !turns[i].end.Broke?
    ensures !LeftBehind(trace, x)
  {
    assert trace != [] ==> IsAttempt(k, turns[Last(trace).turn], Last(trace), Front(trace));
  }

  /** In a run in which no write breaks, the cursor passes nothing that is not a row or finally skipped. */
  lemma CursorLeavesNoGap(k: Config, turns: seq<Turn>, rows: seq<int>, trace: seq<Attempt>, path: string, start: int,
                          cursor: Option<PeekCursor>, s: set<int>)
    requires CursorHonest(k, turns, rows, trace, path, start, cursor, s)
    requires forall i :: 0 <= i < |turns| ==> !turns[i].end.Broke?
    ensures forall x :: x in s && Passed(cursor, path, start, x) ==> DealtWith(trace, rows, x)
  {
    forall x | x in s && Passed(cursor, path, start, x) ensures DealtWith(trace, rows, x) {
      NoBreakNoGap(k, turns, |turns| - 1, trace, x);
    }
  }

  lemma {:induction false} QuietAt(turns: seq<Turn>, upTo: int, trace: seq<Attempt>, j: nat)
    requires QuietUpTo(turns, upTo, trace) && j < upTo
    ensures j < |turns| && (MadeIn(trace, j) || turns[j].fails.Some?) && !turns[j].pastDeadline
  {
    if j < upTo - 1 {
      QuietAt(turns, upTo - 1, trace, j);
    }
  }

  /** Between the attempt that left something behind and the end of the run, peeking only failed. */
  lemma OnlyFailuresFollow(k: Config, turns: seq<Turn>, upTo: int, trace: seq<Attempt>, x: int, j: nat)
    requires Recounted(k, turns, upTo, trace) && LeftBehind(trace, x) && Last(trace).turn < j < upTo
    ensures turns[Last(trace).turn].end.Broke? && turns[j].fails.Some?
  {
    QuietAt(turns, upTo, trace, j);
    if MadeIn(trace, j) {
      LastIsLatest(k, turns, trace, j);
    }
  }

  lemma NewCursorPasses(v: View, cursor: Option<PeekCursor>, path: string, c: Option<PeekCursor>, x: int)
    requires IsNewCursor(v, cursor, path, c) && v.start == StartAt(cursor, path)
    ensures Passed(c, path, v.start, x) <==> Covered(v, x)
    ensures NeverBack(path, cursor, c)
  {
  }

  /** A run that leaves something behind was stopped by its deadline. */
  lemma LeftByTheDeadline(k: Config, pastDeadline: bool, v: View, s: set<int>, ever: set<int>, trace: seq<Attempt>,
                          stop: Stop, x: int)
    requires Inv(k, v, s, ever) && Tracked(v, s, trace) && Justified(k, pastDeadline, v, s, stop)
    requires x in s && v.start <= x && LeftBehind(trace, x)
    ensures pastDeadline && x !in v.handled && Covered(v, x)
  {
    UnexportedIsLeftBehind(k, v, s, ever, trace, x);
    assert x in v.window;
    if stop.MaxMessages? {
      SubsetSize({x}, v.window);
    }
  }

  /** What the cursor means for one message. */
  lemma CursorAt(k: Config, v: View, s: set<int>, ever: set<int>, pastDeadline: bool, trace: seq<Attempt>,
                 rows: seq<int>, cursor: Option<PeekCursor>, path: string, cursor': Option<PeekCursor>, stop: Stop,
                 x: int)
    requires v.start == StartAt(cursor, path) && IsNewCursor(v, cursor, path, cursor')
    requires Inv(k, v, s, ever) && Tracked(v, s, trace) && Justified(k, pastDeadline, v, s, stop)
    requires Elements(rows) == RowsOf(trace) && v.handled == RowsOf(trace) + Skipped(trace)
    requires x in s && v.start <= x
    ensures HonestAt(rows, trace, path, v.start, cursor', pastDeadline, x)
  {
    NewCursorPasses(v, cursor, path, cursor', x);
    UnexportedIsLeftBehind(k, v, s, ever, trace, x);
    if LeftBehind(trace, x) {
      LeftByTheDeadline(k, pastDeadline, v, s, ever, trace, stop, x);
    }
  }

  /** The cursor passes what the run is done with. */
  lemma CursorIsMoved(k: Config, v: View, s: set<int>, ever: set<int>, trace: seq<Attempt>, rows: seq<int>,
                      cursor: Option<PeekCursor>, path: string, cursor': Option<PeekCursor>)
    requires v.start == StartAt(cursor, path) && IsNewCursor(v, cursor, path, cursor')
    requires Inv(k, v, s, ever) && Tracked(v, s, trace)
    requires Elements(rows) == RowsOf(trace) && v.handled == RowsOf(trace) + Skipped(trace)
    ensures CursorMoves(rows, trace, path, v.start, cursor')
  {
    forall x | DealtWith(trace, rows, x)
      ensures v.start <= x && (BelowWaiting(trace, x) ==> Passed(cursor', path, v.start, x))
    {
      assert x in v.handled && UpTo(v.high, x);
      NewCursorPasses(v, cursor, path, cursor', x);
    }
  }

  ghost predicate AllPassed(s: set<int>, path: string, start: int, cursor: Option<PeekCursor>) {
    forall x :: x in s && start <= x ==> Passed(cursor, path, start, x)
  }

  /** At the end of the entity the cursor passes everything stored. */
  lemma AllIsPassed(k: Config, v: View, s: set<int>, ever: set<int>, cursor: Option<PeekCursor>, path: string,
                    cursor': Option<PeekCursor>, late: bool)
    requires v.start == StartAt(cursor, path) && IsNewCursor(v, cursor, path, cursor') && Inv(k, v, s, ever)
    requires Justified(k, late, v, s, EndOfEntity)
    ensures AllPassed(s, path, v.start, cursor')
  {
    forall x | x in s && v.start <= x ensures Passed(cursor', path, v.start, x) {
      assert x in v.handled && UpTo(v.high, x);
      NewCursorPasses(v, cursor, path, cursor', x);
    }
  }

  lemma CursorMeaning(k: Config, v: View, turns: seq<Turn>, s: set<int>, ever: set<int>, cursor: Option<PeekCursor>,
                      path: string, cursor': Option<PeekCursor>, rows: seq<int>, trace: seq<Attempt>, stop: Stop)
    requires turns != [] && v.start == StartAt(cursor, path) && IsNewCursor(v, cursor, path, cursor')
    requires Inv(k, v, s, ever) && Tracked(v, s, trace) && Justified(k, Last(turns).pastDeadline, v, s, stop)
    requires Explained(k, turns, trace, rows, v.handled) && QuietUpTo(turns, |turns| - 1, trace) && Explicit(trace)
    ensures NeverBack(path, cursor, cursor')
    ensures CursorHonest(k, turns, rows, trace, path, v.start, cursor', s)
  {
    NewCursorPasses(v, cursor, path, cursor', 0);
    CursorIsMoved(k, v, s, ever, trace, rows, cursor, path, cursor');
    forall x | x in s && v.start <= x
      ensures HonestAt(rows, trace, path, v.start, cursor', Last(turns).pastDeadline, x)
    {
      CursorAt(k, v, s, ever, Last(turns).pastDeadline, trace, rows, cursor, path, cursor', stop, x);
    }
  }

  lemma LastTurn(script: seq<Turn>, n: nat)
    requires 0 < n <= |script|
    ensures script[..n] != [] && Last(script[..n]).pastDeadline == LateAt(script, n) && |script[..n]| == n
  {
  }

  /** One incremental run in a history: what it started from and left, and whether the platform adopted its output. */
  datatype PeekRun = PeekRun(k: Config, path: string, before: Option<PeekCursor>, after: Option<PeekCursor>,
                             adopted: bool, turns: seq<Turn>, rows: seq<int>, trace: seq<Attempt>, stored: set<int>)

  /** What `RunIncremental` promises. */
  ghost predicate Promised(r: PeekRun) {
    && NeverBack(r.path, r.before, r.after)
    && CursorHonest(r.k, r.turns, r.rows, r.trace, r.path, StartAt(r.before, r.path), r.after, r.stored)
  }

  ghost function CursorNow(history: seq<PeekRun>): Option<PeekCursor> {
    if history == [] then None else if Last(history).adopted then Last(history).after else CursorNow(Front(history))
  }

  /** Every run starts from the cursor the last adopted run left, and an adopted run keeps the promise. */
  ghost predicate PeekHistory(history: seq<PeekRun>) {
    history != [] ==>
      && PeekHistory(Front(history)) && Last(history).before == CursorNow(Front(history))
      && (Last(history).adopted ==> Promised(Last(history)))
  }

  /** `x` became a row of the run or was finally skipped by it. */
  ghost predicate Imported(r: PeekRun, x: int) {
    DealtWith(r.trace, r.rows, x)
  }

  /** Writing broke in some turn of the run, and the deadline stopped it before the page was peeked again. */
  ghost predicate BrokeAtTheDeadline(r: PeekRun, x: int) {
    && LeftBehind(r.trace, x) && r.turns != [] && Last(r.turns).pastDeadline
    && exists i :: 0 <= i < |r.turns| && r.turns[i].end.Broke?
  }

  /** The cursor that an adopted run left for the entity moved past `x` in that run. */
  ghost predicate PassedBy(r: PeekRun, path: string, x: int) {
    r.adopted && r.path == path && Passed(r.after, path, StartAt(r.before, path), x)
  }

  lemma LeftBehindBroke(r: PeekRun, x: int)
    requires Promised(r) && x in r.stored && LeftBehind(r.trace, x)
    requires Passed(r.after, r.path, StartAt(r.before, r.path), x)
    ensures BrokeAtTheDeadline(r, x)
  {
    if forall i :: 0 <= i < |r.turns| ==> !r.turns[i].end.Broke? {
      NoBreakNoGap(r.k, r.turns, |r.turns| - 1, r.trace, x);
    }
  }

  /** Over any history of incremental runs, adopted or discarded: a message at or below the stored cursor became a row,
    or was finally skipped, in an adopted run whose cursor passed it, unless writing it broke in that run just before
    its deadline. It may have arrived at any time before, as long as every such run found it stored at its end. */
  lemma {:induction false} CursorNeverSkips(history: seq<PeekRun>, path: string, x: int) returns (i: nat)
    requires PeekHistory(history) && CursorNow(history).Some? && CursorNow(history).value.path == path
    requires 1 <= x <= CursorNow(history).value.last
    requires forall j :: 0 <= j < |history| && PassedBy(history[j], path, x) ==> x in history[j].stored
    ensures i < |history| && PassedBy(history[i], path, x)
    ensures Imported(history[i], x) || BrokeAtTheDeadline(history[i], x)
  {
    var r := Last(history);
    if r.adopted && r.path == path && StartAt(r.before, path) <= x {
      i := |history| - 1;
      if LeftBehind(r.trace, x) {
        LeftBehindBroke(r, x);
      }
    } else {
      i := CursorNeverSkips(Front(history), path, x);
    }
  }

  lemma {:induction false} RunInHistory(history: seq<PeekRun>, i: nat)
    requires PeekHistory(history) && i < |history|
    ensures history[i].before == CursorNow(history[..i]) && (history[i].adopted ==> Promised(history[i]))
  {
    if i == |history| - 1 {
      assert history[..i] == Front(history);
    } else {
      RunInHistory(Front(history), i);
      assert Front(history)[..i] == history[..i];
    }
  }

  ghost predicate Past(cursor: Option<PeekCursor>, path: string, x: int) {
    cursor.Some? && cursor.value.path == path && x <= cursor.value.last
  }

  lemma CursorSnoc(history: seq<PeekRun>, i: nat)
    requires i < |history|
    ensures CursorNow(history[..i + 1]) == if history[i].adopted then history[i].after else CursorNow(history[..i])
  {
    assert Front(history[..i + 1]) == history[..i];
  }

  /** The cursor has passed `x` for good, as long as only this entity is peeked. */
  lemma {:induction false} CursorStaysPast(history: seq<PeekRun>, i: nat, j: nat, path: string, x: int)
    requires PeekHistory(history) && i < j <= |history| && PassedBy(history[i], path, x)
    requires forall m :: i < m < j && history[m].adopted ==> history[m].path == path
    ensures Past(CursorNow(history[..j]), path, x)
  {
    CursorSnoc(history, j - 1);
    if i < j - 1 {
      CursorStaysPast(history, i, j - 1, path, x);
      RunInHistory(history, j - 1);
    }
  }

  /** A run that starts past `x` is not done with it. */
  lemma StartsPast(r: PeekRun, x: int)
    requires Promised(r) && Past(r.before, r.path, x)
    ensures !Imported(r, x)
  {
  }

  lemma BelowIsPassed(r: PeekRun, x: int)
    requires Promised(r) && r.adopted && Imported(r, x) && BelowWaiting(r.trace, x)
    ensures PassedBy(r, r.path, x)
  {
  }

  /** No message is dealt with twice: when two adopted runs of one entity, with none of another in between, both wrote
    or finally skipped `x`, a body at or below it was waiting for its retry when the first of them ended. */
  lemma NoSecondRow(history: seq<PeekRun>, i: nat, j: nat, path: string, x: int)
    requires PeekHistory(history) && i < j < |history| && history[i].adopted && history[j].adopted
    requires forall m :: i <= m <= j && history[m].adopted ==> history[m].path == path
    requires Imported(history[i], x) && Imported(history[j], x)
    ensures exists w :: w in WaitingIn(history[i].trace) && w <= x
  {
    RunInHistory(history, i);
    RunInHistory(history, j);
    if BelowWaiting(history[i].trace, x) {
      BelowIsPassed(history[i], x);
      CursorStaysPast(history, i, j, path, x);
      StartsPast(history[j], x);
    }
  }

  /** One run to come: its settings, its entity, what it meets, and whether the platform adopts its output. */
  datatype PeekPlan = PeekPlan(k: Config, path: string, script: seq<Turn>, adopt: bool)

  /** What a run that stopped leaves behind; a run that failed leaves nothing to adopt. */
  ghost predicate Carries(r: PeekRun, plan: PeekPlan) {
    && r.k == plan.k && r.path == plan.path && r.turns <= plan.script && (r.adopted ==> plan.adopt)
    && (r.adopted ==> r.stored == StoredAt(plan.script, |r.turns|))
  }

  ghost predicate AllCarried(history: seq<PeekRun>, plans: seq<PeekPlan>) {
    && |history| == |plans|
    && (history != [] ==> AllCarried(Front(history), Front(plans)) && Carries(Last(history), Last(plans)))
  }

  lemma HistoryGrows(history: seq<PeekRun>, r: PeekRun)
    requires PeekHistory(history) && r.before == CursorNow(history) && (r.adopted ==> Promised(r))
    ensures PeekHistory(history + [r])
    ensures CursorNow(history + [r]) == if r.adopted then r.after else CursorNow(history)
  {
    var more := history + [r];
    assert Front(more) == history && Last(more) == r;
  }

  lemma CarriedGrows(history: seq<PeekRun>, plans: seq<PeekPlan>, r: PeekRun, plan: PeekPlan)
    requires AllCarried(history, plans) && Carries(r, plan)
    ensures AllCarried(history + [r], plans + [plan])
  {
    assert Front(history + [r]) == history && Front(plans + [plan]) == plans;
  }

  /** Any sequence of incremental runs of the pager, adopted or discarded, finished or failed, each from the cursor the
    last adopted one left, is such a history. */
  method RunPeeks(plans: seq<PeekPlan>) returns (cursor: Option<PeekCursor>, ghost history: seq<PeekRun>)
    requires forall i :: 0 <= i < |plans| ==> Orderly(plans[i].script, true)
    ensures PeekHistory(history) && AllCarried(history, plans) && cursor == CursorNow(history)
  {
    cursor, history := None, [];
    for i := 0 to |plans|
      invariant PeekHistory(history) && AllCarried(history, plans[..i]) && cursor == CursorNow(history)
    {
      ghost var r;
      cursor, r := RunPlanned(plans[i], cursor);
      HistoryGrows(history, r);
      CarriedGrows(history, plans[..i], r, plans[i]);
      TakeSnoc(plans, i);
      history := history + [r];
    }
    TakeAll(plans);
  }

  /** One run of such a history. */
  method RunPlanned(plan: PeekPlan, cursor: Option<PeekCursor>)
      returns (cursor': Option<PeekCursor>, ghost r: PeekRun)
    requires Orderly(plan.script, true)
    ensures Carries(r, plan) && r.before == cursor && (r.adopted ==> Promised(r))
    ensures cursor' == if r.adopted then r.after else cursor
  {
    var pager := new PeekPager(plan.k);
    var ending, n, after := pager.RunIncremental(plan.path, cursor, plan.script);
    var adopted := ending.Stopped? && plan.adopt;
    r := PeekRun(plan.k, plan.path, cursor, after, adopted, plan.script[..n], pager.rows, pager.trace,
                 StoredAt(plan.script, n));
    cursor' := if adopted then after else cursor;
  }

  // ---------------------------------------------------------------- a concrete gap

  lemma ScanOfTwo(c: Scanner)
    requires c.limit == 0 && !c.stopAtJobStart && c.processed == {}
    requires c.attrs(5) == Msg(false, None, false) && c.attrs(6) == Msg(true, None, false)
    ensures Scan(c, [5, 6]).selected == [5] && Scan(c, [5, 6]).marked == [6]
  {
    assert Front([5, 6]) == [5] && Front([5]) == [];
    var r1 := Look(Scan(c, []), c, 5);
    assert Scan(c, [5]) == r1 && r1.selected == [5] && r1.marked == [];
    assert Scan(c, [5, 6]) == Look(r1, c, 6);
  }

  lemma ExportOfTwo(v: View, v': View, rows: seq<int>, rows': seq<int>, r: Scanned, back: set<int>, turn: Turn,
                    res: PageResult, asks: set<int>)
    requires ExportDone(v, v', rows, rows', r, back, turn, res, asks) && r.selected == [5] && r.marked == [6]
    requires v.high == v.outstanding == None && v.taken == 0 && turn.end == Broke(Connection)
    ensures res == PageBroke(Connection) && v'.high == Some(6) && v'.outstanding == None && v'.taken == 0
  {
    assert back == {5} && Elements(r.selected) - back == {};
    assert Elements(r.marked) + {} == {6} && 6 in Elements(r.marked);
  }

  /** The first turn of the gap below: writing 5 breaks after 6 was marked. */
  method ExportTwo(pager: PeekPager, turn: Turn) returns (res: PageResult)
    requires pager.Valid() && pager.AtStart() && pager.rows == [] && pager.taken == 0
    requires pager.k.limit == 0 && !pager.k.stopAtJobStart
    requires pager.k.attrs(5) == Msg(false, None, false) && pager.k.attrs(6) == Msg(true, None, false)
    requires turn.stored == [5, 6] && turn.end == Broke(Connection)
    modifies pager
    ensures pager.Valid() && res == PageBroke(Connection)
    ensures pager.high == Some(6) && pager.outstanding == None && pager.rows == []
  {
    ScanOfTwo(Scanner(pager.k.attrs, pager.k.limit, pager.k.stopAtJobStart, {}, 0, turn.now));
    var page := PageAt(turn.stored, 1);
    assert From([5, 6], 1) == [5, 6];
    ghost var v, asks := pager.At(0, 0), pager.Asks(turn, true);
    ghost var r, back;
    res, r, back := pager.Export(page, turn, true);
    ExportOfTwo(v, pager.At(0, 0), [], pager.rows, r, back, turn, res, asks);
  }

  /** The gap is real. A run of two turns: the page of 5 and of 6, which is scheduled, is exported, but writing 5 breaks
    with the connection; in the next turn the deadline is past. The cursor becomes 6, and there is no row. The calls are
    those the loop makes, in its order (src/peek.py:168-205). */
  method BrokenExportLeavesAGap(k: Config, path: string, script: seq<Turn>)
      returns (cursor: Option<PeekCursor>, rows: seq<int>)
    requires k.limit == 0 && !k.stopAtJobStart
    requires k.attrs(5) == Msg(false, None, false) && k.attrs(6) == Msg(true, None, false)
    requires |script| == 2 && !script[0].pastDeadline && script[0].fails == None && !script[0].partitioned
    requires script[0].stored == [5, 6] && script[0].end == Broke(Connection) && script[1].pastDeadline
    ensures cursor == Some(PeekCursor(path, 6)) && rows == []
  {
    var pager := new PeekPager(k);
    var stop := pager.StopCheck(script[0].pastDeadline);
    assert stop == None;
    var res := ExportTwo(pager, script[0]);
    var ends := pager.Account(res);
    assert !ends;
    stop := pager.StopCheck(script[1].pastDeadline);
    assert stop == Some(MaxDuration);
    cursor := pager.NewCursor(StartAt(None, path), None, path, 1);
    assert Covered(pager.At(1, 1), 6);
    rows := pager.rows;
  }
}
