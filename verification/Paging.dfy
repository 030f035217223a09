/** Peek pages as values: which messages of a page are exported, and what paging forward, re-peeking and failing keep
  (src/peek.py:132-205, src/peek.py:281-342). */
module Paging {
  import opened Ranges
  import opened Broker

  /** What never changes about a message: whether it is a scheduled message pending activation, when it expires, and
    whether it was enqueued at or after the start of the job. */
  datatype Msg = Msg(pending: bool, expiresAt: Option<int>, afterStart: bool)

  datatype Stop = MaxMessages | Watermark | MaxDuration | EndOfEntity

  /** Everything one scan of a page depends on. */
  datatype Scanner = Scanner(attrs: int -> Msg, limit: nat, stopAtJobStart: bool, processed: set<int>, taken: nat,
                             now: int)

  /** `cut` is how many messages of the page were looked at. */
  datatype Scanned = Scanned(selected: seq<int>, marked: seq<int>, stop: Option<Stop>, cut: nat)

  predicate Expired(m: Msg, now: int) {
    m.expiresAt.Some? && m.expiresAt.value < now
  }

  /** The loop of `_export`: one message after what was seen before it. */
  function Look(r: Scanned, c: Scanner, num: int): Scanned {
    var m := c.attrs(num);
    if r.stop.Some? then r
    else if num in c.processed then r.(cut := r.cut + 1)
    else if c.limit > 0 && c.taken + |r.selected| >= c.limit then r.(stop := Some(MaxMessages))
    else if m.pending || Expired(m, c.now) then r.(marked := r.marked + [num], cut := r.cut + 1)
    else if c.stopAtJobStart && m.afterStart then r.(stop := Some(Watermark))
    else r.(selected := r.selected + [num], cut := r.cut + 1)
  }

  function Scan(c: Scanner, page: seq<int>): Scanned {
    if page == [] then Scanned([], [], None, 0) else Look(Scan(c, Front(page)), c, Last(page))
  }

  /** A message that is never skipped as pending and never stops the export at the job start. */
  predicate Exportable(c: Scanner, num: int) {
    !c.attrs(num).pending && !(c.stopAtJobStart && c.attrs(num).afterStart)
  }

  /** What a scan leaves: everything before the cut is processed already, marked or selected; the limit is kept; and it
    stops only at an unprocessed message, because the limit is reached or because the message is not exportable. */
  ghost predicate ScanSound(c: Scanner, page: seq<int>, r: Scanned) {
    && r.cut <= |page| && (r.stop.None? <==> r.cut == |page|)
    && Elements(page[..r.cut]) <= c.processed + Elements(r.marked) + Elements(r.selected)
    && Elements(r.marked) + Elements(r.selected) <= Elements(page[..r.cut])
    && Elements(r.marked) + Elements(r.selected) !! c.processed
    && Elements(r.marked) !! Elements(r.selected) && Distinct(r.selected)
    && (forall n :: n in Elements(r.selected) ==> Exportable(c, n) && !Expired(c.attrs(n), c.now))
    && (forall n :: n in Elements(r.marked) ==> c.attrs(n).pending || Expired(c.attrs(n), c.now))
    && (c.limit > 0 && c.taken <= c.limit ==> c.taken + |r.selected| <= c.limit)
    && (r.stop.Some? ==> page[r.cut] !in c.processed)
    && (r.stop.Some? ==> r.stop.value.MaxMessages? || r.stop.value.Watermark?)
    && (r.stop == Some(MaxMessages) ==> c.limit > 0 && c.taken + |r.selected| >= c.limit)
    && (r.stop == Some(Watermark) ==> c.stopAtJobStart && c.attrs(page[r.cut]).afterStart)
  }

  lemma {:induction false} ScanIsSound(c: Scanner, page: seq<int>)
    requires Distinct(page)
    ensures ScanSound(c, page, Scan(c, page))
  {
    if page != [] {
      var before, r := Scan(c, Front(page)), Scan(c, page);
      ScanIsSound(c, Front(page));
      if before.stop.Some? {
        assert page[..r.cut] == Front(page)[..r.cut];
      } else {
        assert Front(page)[..before.cut] == Front(page) == page[..before.cut];
        TakeOneMore(page, before.cut);
        assert Last(page) !in Elements(Front(page));
        ElementsConcat(before.selected, [Last(page)]);
        ElementsConcat(before.marked, [Last(page)]);
      }
    }
  }

  // ---------------------------------------------------------------- explicit paging

  const PAGE := 250

  function From(stored: seq<int>, next: int): seq<int> {
    if stored == [] || next <= stored[0] then stored else From(stored[1..], next)
  }

  /** What a peek at `next` returns: the first messages at or after it, at most a page of them. */
  function PageAt(stored: seq<int>, next: int): seq<int> {
    var from := From(stored, next);
    if |from| <= PAGE then from else from[..PAGE]
  }

  lemma {:induction false} FromFacts(stored: seq<int>, next: int)
    requires Ascending(stored)
    ensures Ascending(From(stored, next)) && Elements(From(stored, next)) == set x | x in Elements(stored) && next <= x
  {
    AllElements(stored);
    if stored != [] && stored[0] < next {
      AscendingUncons(stored);
      FromFacts(stored[1..], next);
    }
  }

  /** A page holds stored messages in order, and everything from `next` up to its last message. */
  ghost predicate PageOf(s: set<int>, next: int, page: seq<int>) {
    && Ascending(page) && |page| <= PAGE && Elements(page) <= s && (forall x :: x in Elements(page) ==> next <= x)
    && (forall x, y :: x in s && next <= x && y in Elements(page) && x !in Elements(page) ==> |page| == PAGE && y < x)
  }

  lemma PageFacts(stored: seq<int>, next: int)
    requires Ascending(stored)
    ensures PageOf(Elements(stored), next, PageAt(stored, next))
    ensures PageAt(stored, next) == [] ==> forall x :: x in Elements(stored) ==> x < next
  {
    FromFacts(stored, next);
    var from, page := From(stored, next), PageAt(stored, next);
    AllElements(from);
    AllElements(page);
    if page == [] {
      assert Elements(from) == {};
      assert forall x :: x in Elements(stored) && next <= x ==> x in Elements(from);
    }
    forall x, y | x in Elements(from) && y in Elements(page) && x !in Elements(page) ensures |page| == PAGE && y < x {
      assert forall j :: 0 <= j < |page| ==> from[j] == page[j];
      var i :| 0 <= i < |from| && from[i] == x;
      var j :| 0 <= j < |page| && page[j] == y;
    }
  }

  /** The state of incremental paging. `handled` are the messages written or finally skipped in this run; `window` are
    those selected once whose export has not succeeded yet. */
  datatype View = View(start: int, next: int, processed: set<int>, high: Option<int>, outstanding: Option<int>,
                       taken: nat, handled: set<int>, window: set<int>)

  datatype Config = Config(attrs: int -> Msg, limit: nat, stopAtJobStart: bool)

  function ScannerFor(k: Config, v: View, now: int): Scanner {
    Scanner(k.attrs, k.limit, k.stopAtJobStart, v.processed, v.taken, now)
  }

  ghost predicate IsLeast(m: Option<int>, s: set<int>) {
    (m.None? <==> s == {}) && (m.Some? ==> m.value in s && forall x :: x in s ==> m.value <= x)
  }

  predicate UpTo(high: Option<int>, x: int) {
    high.Some? && x <= high.value
  }

  /** Stored messages from the paging position up to the highest processed one. */
  ghost function Span(s: set<int>, next: int, high: Option<int>): set<int> {
    set x | x in s && next <= x && UpTo(high, x)
  }

  ghost predicate Reached(ever: set<int>, v: View) {
    v.next > v.start ==> exists y :: y in ever && v.next <= y + 1
  }

  /** What every step of incremental paging keeps; `s` is what the last peek found stored, `ever` what any peek
    found. */
  ghost predicate Inv(k: Config, v: View, s: set<int>, ever: set<int>) {
    Placed(v, s, ever) && Kept(v, s) && Waiting(k, v, s)
  }

  ghost predicate Placed(v: View, s: set<int>, ever: set<int>) {
    && s <= ever && v.start <= v.next && Reached(ever, v) && (v.high.Some? ==> v.high.value in ever)
    && forall x :: x in v.handled ==> v.start <= x
  }

  /** Nothing handled is forgotten while it is stored, and nothing stored before the position is unhandled. */
  ghost predicate Kept(v: View, s: set<int>) {
    && v.processed <= v.handled && (forall x :: x in v.handled ==> UpTo(v.high, x))
    && (forall x :: x in v.handled && x in s && v.next <= x ==> x in v.processed)
    && (forall x :: x in s && v.start <= x < v.next ==> x in v.handled)
  }

  /** What is stored between the position and the highest processed message is handled or waits for another try, fits
    one page, and leaves room under the limit. */
  ghost predicate Waiting(k: Config, v: View, s: set<int>) {
    && Span(s, v.next, v.high) <= v.handled + v.window && |Span(s, v.next, v.high)| <= PAGE
    && v.window !! v.handled && (forall u :: u in v.window ==> ExportableMsg(k, u))
    && (k.limit > 0 ==> v.taken + |v.window| <= k.limit)
    && (v.outstanding.Some? ==> v.outstanding.value == v.next)
  }

  predicate ExportableMsg(k: Config, num: int) {
    !k.attrs(num).pending && !(k.stopAtJobStart && k.attrs(num).afterStart)
  }

  /** Sequence numbers grow: a message not seen at the last peek is newer than everything ever seen. */
  ghost predicate Grows(s: set<int>, ever: set<int>, s': set<int>) {
    forall x, y :: x in s' && x !in s && y in ever ==> y < x
  }

  lemma Observe(k: Config, v: View, s: set<int>, ever: set<int>, s': set<int>)
    requires Inv(k, v, s, ever) && Grows(s, ever, s')
    ensures Inv(k, v, s', ever + s')
  {
    assert forall x :: x in s' && UpTo(v.high, x) ==> x in s;
    assert Span(s', v.next, v.high) <= Span(s, v.next, v.high);
    SubsetSize(Span(s', v.next, v.high), Span(s, v.next, v.high));
    if v.next > v.start {
      var y :| y in ever && v.next <= y + 1;
      assert y in ever + s';
      assert forall x :: x in s' && x < v.next ==> x in s;
    }
  }

  // ---------------------------------------------------------------- a scan never stops inside the window

  /** The window always fits the page that is peeked again. */
  lemma SpanInPage(v: View, s: set<int>, page: seq<int>, x: int)
    requires PageOf(s, v.next, page) && |Span(s, v.next, v.high)| <= PAGE && x in Span(s, v.next, v.high)
    ensures page != [] ==> x in Elements(page)
  {
    if page != [] && x !in Elements(page) {
      DistinctSize(page);
      assert page[0] in Elements(page);
      var more := Elements(page) + {x};
      assert more <= Span(s, v.next, v.high);
      SubsetSize(more, Span(s, v.next, v.high));
      assert false;
    }
  }

  lemma SelectedInWindow(v: View, s: set<int>, page: seq<int>, cut: nat, selected: set<int>)
    requires Span(s, v.next, v.high) <= v.handled + v.window
    requires forall x :: x in v.handled && x in s && v.next <= x ==> x in v.processed
    requires PageOf(s, v.next, page) && cut < |page| && UpTo(v.high, page[cut])
    requires selected <= Elements(page[..cut]) - v.processed
    ensures selected <= v.window - {page[cut]}
  {
    AllElements(page);
    AllElements(page[..cut]);
    forall n | n in selected ensures n in v.window - {page[cut]} {
      var j :| 0 <= j < cut && page[..cut][j] == n;
      assert page[j] == n && n in Elements(page) && n in Span(s, v.next, v.high);
    }
  }

  /** A message waiting for another try is never what stops a scan. */
  lemma StopIsNotInSpan(k: Config, v: View, s: set<int>, page: seq<int>, r: Scanned, now: int)
    requires Kept(v, s) && Waiting(k, v, s) && PageOf(s, v.next, page)
    requires ScanSound(ScannerFor(k, v, now), page, r) && r.stop.Some?
    ensures !UpTo(v.high, page[r.cut])
  {
    AllElements(page);
    if UpTo(v.high, page[r.cut]) {
      SelectedInWindow(v, s, page, r.cut, Elements(r.selected));
      DistinctSize(r.selected);
      SubsetSize(Elements(r.selected), v.window - {page[r.cut]});
    }
  }

  lemma PrefixClosed(page: seq<int>, cut: nat, x: int, y: int)
    requires Ascending(page) && cut <= |page| && y in Elements(page[..cut]) && x <= y && x in Elements(page)
    ensures x in Elements(page[..cut])
  {
  }

  /** Everything in the span comes before the cut. */
  lemma SpanBeforeCut(k: Config, v: View, s: set<int>, page: seq<int>, r: Scanned, now: int, x: int)
    requires Kept(v, s) && Waiting(k, v, s) && PageOf(s, v.next, page) && page != []
    requires ScanSound(ScannerFor(k, v, now), page, r) && x in Span(s, v.next, v.high)
    ensures x in Elements(page[..r.cut])
  {
    SpanInPage(v, s, page, x);
    if r.stop.None? {
      assert page[..r.cut] == page;
    } else {
      StopIsNotInSpan(k, v, s, page, r, now);
      AllElements(page);
      AllElements(page[..r.cut]);
      var i :| 0 <= i < |page| && page[i] == x;
      assert i < r.cut;
      assert page[..r.cut][i] == x;
    }
  }

  /** `high` raised by processing `more`. */
  ghost predicate RaisedBy(high: Option<int>, more: set<int>, high': Option<int>) {
    && (high' == high || (high'.Some? && high'.value in more))
    && (forall x :: x in more ==> UpTo(high', x)) && (forall x :: UpTo(high, x) ==> UpTo(high', x))
  }

  // ---------------------------------------------------------------- an export keeps the invariant

  /** The view after an export in which `back` of the selected messages did not make it: those that asked for a retry,
    or all of them when the export failed. */
  function Exported(v: View, marked: set<int>, selected: set<int>, back: set<int>, high: Option<int>): View {
    var done := marked + (selected - back);
    v.(processed := v.processed + done, handled := v.handled + done, high := high, window := back,
       taken := v.taken + |selected - back|)
  }

  /** A scan, reduced to sets: `seen` is what was looked at, up to and beyond the raised mark. */
  ghost predicate Looked(k: Config, v: View, s: set<int>, high: Option<int>, seen: set<int>, marked: set<int>,
                         selected: set<int>, back: set<int>) {
    && seen <= s && |seen| <= PAGE && (forall x :: x in seen ==> v.next <= x) && Span(s, v.next, high) <= seen
    && seen <= v.processed + marked + selected && marked + selected <= seen && marked + selected !! v.processed
    && marked !! selected && back <= selected && RaisedBy(v.high, marked + (selected - back), high)
    && (forall n :: n in selected ==> ExportableMsg(k, n)) && (k.limit > 0 ==> v.taken + |selected| <= k.limit)
  }

  lemma SplitSize(a: set<int>, b: set<int>)
    requires b <= a
    ensures |a - b| + |b| == |a|
  {
  }

  lemma LookedKeepsHandled(k: Config, v: View, s: set<int>, high: Option<int>, seen: set<int>,
                           marked: set<int>, selected: set<int>, back: set<int>)
    requires Kept(v, s) && Looked(k, v, s, high, seen, marked, selected, back)
    ensures Kept(Exported(v, marked, selected, back, high), s)
  {
  }

  lemma LookedKeepsWaiting(k: Config, v: View, s: set<int>, high: Option<int>, seen: set<int>,
                           marked: set<int>, selected: set<int>, back: set<int>)
    requires Kept(v, s) && Waiting(k, v, s) && Looked(k, v, s, high, seen, marked, selected, back)
    ensures Waiting(k, Exported(v, marked, selected, back, high), s)
  {
    SubsetSize(Span(s, v.next, high), seen);
    SplitSize(selected, back);
    assert forall n :: n in back ==> n in s && v.next <= n && n !in v.processed;
    assert back !! v.handled;
  }

  lemma LookedKeepsPlace(k: Config, v: View, s: set<int>, ever: set<int>, high: Option<int>, seen: set<int>,
                         marked: set<int>, selected: set<int>, back: set<int>)
    requires Placed(v, s, ever) && Looked(k, v, s, high, seen, marked, selected, back)
    ensures Placed(Exported(v, marked, selected, back, high), s, ever)
  {
    assert Reached(ever, Exported(v, marked, selected, back, high));
  }

  /** An export keeps the invariant at the same position, whatever part of the selection came back. */
  lemma LookedKeeps(k: Config, v: View, s: set<int>, ever: set<int>, high: Option<int>, seen: set<int>,
                    marked: set<int>, selected: set<int>, back: set<int>)
    requires Inv(k, v, s, ever) && Looked(k, v, s, high, seen, marked, selected, back)
    ensures Inv(k, Exported(v, marked, selected, back, high), s, ever)
  {
    LookedKeepsHandled(k, v, s, high, seen, marked, selected, back);
    LookedKeepsWaiting(k, v, s, high, seen, marked, selected, back);
    LookedKeepsPlace(k, v, s, ever, high, seen, marked, selected, back);
  }

  /** Re-peeking from the first message that came back, on a fresh connection. */
  lemma RetryKeeps(k: Config, v: View, s: set<int>, ever: set<int>, seen: set<int>, first: int)
    requires Inv(k, v, s, ever) && v.next <= first && first in v.window && (forall x :: x in v.window ==> first <= x)
    requires seen <= v.handled + v.window && first in s && (forall x :: x in s && v.next <= x <= first ==> x in seen)
    ensures Inv(k, v.(next := first, outstanding := Some(first)), s, ever)
  {
    var v' := v.(next := first, outstanding := Some(first));
    assert first in ever && Reached(ever, v');
    SubsetSize(Span(s, first, v.high), Span(s, v.next, v.high));
  }

  /** Moving past a page that was exported to its end; the processed set is emptied or kept. */
  lemma AdvanceKeeps(k: Config, v: View, s: set<int>, ever: set<int>, seen: set<int>, last: int, kept: set<int>)
    requires Inv(k, v, s, ever) && v.window == {} && seen <= v.handled && Span(s, v.next, v.high) <= seen
    requires kept <= v.handled
    requires last in seen && last in s && v.next <= last && (forall x :: x in seen ==> x <= last)
    requires forall x :: x in s && v.next <= x <= last ==> x in seen
    ensures Inv(k, v.(next := last + 1, outstanding := None, processed := kept), s, ever)
  {
    var v' := v.(next := last + 1, outstanding := None, processed := kept);
    assert last in ever && Reached(ever, v');
    forall x | x in v.handled && x in s && v.next <= x ensures x <= last {
      assert x in Span(s, v.next, v.high);
    }
    assert Span(s, last + 1, v.high) == {};
  }

  lemma SliceSubset(page: seq<int>, cut: nat)
    requires Ascending(page) && cut <= |page|
    ensures Elements(page[..cut]) <= Elements(page) && |Elements(page[..cut])| == cut
  {
    DistinctSize(page[..cut]);
  }

  /** Stored messages up to the raised mark all come before the cut. */
  lemma NewSpanBeforeCut(k: Config, v: View, s: set<int>, page: seq<int>, r: Scanned, now: int, high: Option<int>,
                         x: int)
    requires Kept(v, s) && Waiting(k, v, s) && PageOf(s, v.next, page) && page != []
    requires ScanSound(ScannerFor(k, v, now), page, r) && x in Span(s, v.next, high)
    requires high == v.high || (high.Some? && high.value in Elements(page[..r.cut]))
    ensures x in Elements(page[..r.cut])
  {
    if high == v.high {
      SpanBeforeCut(k, v, s, page, r, now, x);
    } else {
      SliceSubset(page, r.cut);
      assert x in Elements(page);
      PrefixClosed(page, r.cut, x, high.value);
    }
  }

  /** The scan of a non-empty page is such a look, and it misses nothing stored up to its cut. */
  lemma ScanLooks(k: Config, v: View, s: set<int>, page: seq<int>, r: Scanned, now: int, back: set<int>,
                  high: Option<int>)
    requires Kept(v, s) && Waiting(k, v, s) && PageOf(s, v.next, page) && page != []
    requires ScanSound(ScannerFor(k, v, now), page, r)
    requires back <= Elements(r.selected) && RaisedBy(v.high, Elements(r.marked) + (Elements(r.selected) - back), high)
    ensures Looked(k, v, s, high, Elements(page[..r.cut]), Elements(r.marked), Elements(r.selected), back)
  {
    var seen := Elements(page[..r.cut]);
    SliceSubset(page, r.cut);
    DistinctSize(r.selected);
    assert Span(s, v.next, high) <= seen by {
      forall x | x in Span(s, v.next, high) ensures x in seen {
        NewSpanBeforeCut(k, v, s, page, r, now, high, x);
      }
    }
    assert forall n :: n in Elements(r.selected) ==> Exportable(ScannerFor(k, v, now), n) && ExportableMsg(k, n);
  }

  /** What the stored cursor may cover: processed numbers from the start position on, below a body that waits for its
    retry. */
  predicate Covered(v: View, x: int) {
    v.start <= x && UpTo(v.high, x) && (v.outstanding.Some? ==> x < v.outstanding.value)
  }

  /** A covered stored message that is neither written nor finally skipped is in the window, and no body waits for its
    retry. */
  lemma UnhandledIsInWindow(k: Config, v: View, s: set<int>, ever: set<int>, x: int)
    requires Inv(k, v, s, ever) && x in s && Covered(v, x) && x !in v.handled
    ensures v.outstanding.None? && x in v.window && v.next <= x
  {
    if v.next <= x {
      assert x in Span(s, v.next, v.high);
    }
  }
}
