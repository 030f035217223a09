/** The range encoding of a set of sequence numbers (src/state.py:28-89).

  A set of numbers has exactly one normal form: ascending inclusive ranges that are not empty, do not
  overlap and do not touch. Every operation of the source is proved to return the normal form of the
  right set, so the rest of the project reasons about sets. */
module Ranges {

  datatype Range = Range(lo: int, hi: int)

  predicate Within(lo: int, hi: int, x: int) {
    lo <= x <= hi
  }

  ghost function Interval(r: Range): set<int> {
    set x: int {:trigger Within(r.lo, r.hi, x)} | r.lo <= x <= r.hi && Within(r.lo, r.hi, x)
  }

  function Last<T>(s: seq<T>): T
    requires s != []
  {
    s[|s| - 1]
  }

  function Front<T>(s: seq<T>): seq<T>
    requires s != []
  {
    s[..|s| - 1]
  }

  /** The numbers a list of ranges covers, whatever its order, overlaps and empty ranges. */
  ghost function Cover(rs: seq<Range>): set<int> {
    if rs == [] then {} else Cover(Front(rs)) + Interval(Last(rs))
  }

  /** Every range is non-empty and starts after a gap from the one before it. */
  ghost predicate Canonical(rs: seq<Range>) {
    rs != [] ==>
      && Canonical(Front(rs))
      && Last(rs).lo <= Last(rs).hi
      && (Front(rs) != [] ==> Last(Front(rs)).hi + 1 < Last(rs).lo)
  }

  /** `rs` is the normal form of the set `s`. */
  ghost predicate IsNormal(rs: seq<Range>, s: set<int>) {
    Canonical(rs) && Cover(rs) == s
  }

  ghost predicate Ascending(s: seq<int>) {
    forall i, j :: 0 <= i < j < |s| ==> s[i] < s[j]
  }

  ghost function Elements<T>(s: seq<T>): set<T> {
    set x | x in s
  }

  lemma ElementsConcat<T>(a: seq<T>, b: seq<T>)
    ensures Elements(a + b) == Elements(a) + Elements(b)
  {
  }

  /** A member of a sequence has an index, and every index gives a member. */
  lemma AllElements<T>(s: seq<T>)
    ensures forall i :: 0 <= i < |s| ==> s[i] in Elements(s)
    ensures forall x :: x in Elements(s) <==> x in s
  {
  }

  lemma CoverSnoc(rs: seq<Range>, r: Range)
    ensures Cover(rs + [r]) == Cover(rs) + Interval(r)
  {
  }

  lemma CanonicalSnoc(rs: seq<Range>, r: Range)
    requires Canonical(rs) && r.lo <= r.hi && (rs != [] ==> Last(rs).hi + 1 < r.lo)
    ensures Canonical(rs + [r]) && Cover(rs + [r]) == Cover(rs) + Interval(r)
  {
  }

  // ---------------------------------------------------------------- the normal form of a set

  /** A canonical list covers nothing above its last range. */
  lemma {:induction false} CoverBound(rs: seq<Range>)
    requires Canonical(rs) && rs != []
    ensures forall x :: x in Cover(rs) ==> x <= Last(rs).hi
    ensures Last(rs).hi in Cover(rs)
  {
    if Front(rs) != [] {
      CoverBound(Front(rs));
    }
    assert Within(Last(rs).lo, Last(rs).hi, Last(rs).hi);
  }

  /** ... and its last range is separated from the numbers before it by a gap. */
  lemma LastRange(rs: seq<Range>)
    requires Canonical(rs) && rs != []
    ensures Canonical(Front(rs))
    ensures forall x :: x in Cover(Front(rs)) ==> x < Last(rs).lo - 1
    ensures Cover(Front(rs)) == Cover(rs) - Interval(Last(rs))
  {
  }

  /** The last range is fixed by the covered set alone. */
  lemma LastRangeIsForced(a: seq<Range>, b: seq<Range>)
    requires Canonical(a) && Canonical(b) && a != [] && b != [] && Cover(a) == Cover(b)
    ensures Last(a).lo <= Last(b).lo && Last(a).hi <= Last(b).hi
  {
    CoverBound(a);
    CoverBound(b);
    LastRange(a);
    var x := Last(a).lo - 1;
    assert x !in Cover(Front(a)) && x !in Interval(Last(a));
    assert !Within(Last(b).lo, Last(b).hi, x);
  }

  /** Two canonical lists with the same covered set are the same list. */
  lemma {:induction false} NormalFormIsUnique(a: seq<Range>, b: seq<Range>)
    requires Canonical(a) && Canonical(b) && Cover(a) == Cover(b)
    ensures a == b
  {
    if a == [] {
      if b != [] { CoverBound(b); }
    } else if b == [] {
      CoverBound(a);
    } else {
      LastRangeIsForced(a, b);
      LastRangeIsForced(b, a);
      LastRange(a);
      LastRange(b);
      NormalFormIsUnique(Front(a), Front(b));
      assert a == Front(a) + [Last(a)] && b == Front(b) + [Last(b)];
    }
  }

  /** Joining a range that overlaps or touches the last range of a canonical list. */
  lemma JoinKeepsCanonical(rs: seq<Range>, r: Range, joined: Range)
    requires Canonical(rs) && rs != [] && Last(rs).lo <= r.lo <= Last(rs).hi + 1 && r.lo <= r.hi
    requires joined == Range(Last(rs).lo, if Last(rs).hi < r.hi then r.hi else Last(rs).hi)
    ensures Canonical(Front(rs) + [joined]) && Cover(Front(rs) + [joined]) == Cover(rs) + Interval(r)
  {
  }

  lemma SingleInterval(x: int)
    ensures Interval(Range(x, x)) == {x}
  {
  }

  // ---------------------------------------------------------------- sorting (a library call in the source)

  predicate Before(a: Range, b: Range) {
    a.lo < b.lo || (a.lo == b.lo && a.hi <= b.hi)
  }

  ghost predicate Sorted(rs: seq<Range>) {
    forall i, j :: 0 <= i < j < |rs| ==> Before(rs[i], rs[j])
  }

  function InsertRange(r: Range, rs: seq<Range>): seq<Range> {
    if rs == [] || Before(r, rs[0]) then [r] + rs else [rs[0]] + InsertRange(r, rs[1..])
  }

  lemma SortedCons(r: Range, rs: seq<Range>)
    requires Sorted(rs) && forall x :: x in Elements(rs) ==> Before(r, x)
    ensures Sorted([r] + rs) && Elements([r] + rs) == {r} + Elements(rs)
  {
  }

  lemma SortedUncons(rs: seq<Range>)
    requires Sorted(rs) && rs != []
    ensures Sorted(rs[1..]) && Elements(rs) == {rs[0]} + Elements(rs[1..])
    ensures forall x :: x in Elements(rs[1..]) ==> Before(rs[0], x)
  {
  }

  lemma {:induction false} InsertRangeKeepsOrder(r: Range, rs: seq<Range>)
    requires Sorted(rs)
    ensures Sorted(InsertRange(r, rs)) && Elements(InsertRange(r, rs)) == Elements(rs) + {r}
  {
    if rs == [] {
      SortedCons(r, rs);
    } else {
      SortedUncons(rs);
      if Before(r, rs[0]) {
        SortedCons(r, rs);
      } else {
        InsertRangeKeepsOrder(r, rs[1..]);
        SortedCons(rs[0], InsertRange(r, rs[1..]));
      }
    }
  }

  function SortRanges(rs: seq<Range>): (out: seq<Range>)
    ensures Sorted(out) && Elements(out) == Elements(rs)
  {
    if rs == [] then []
    else
      assert rs == [rs[0]] + rs[1..];
      InsertRangeKeepsOrder(rs[0], SortRanges(rs[1..]));
      InsertRange(rs[0], SortRanges(rs[1..]))
  }

  function DropEmpty(rs: seq<Range>): (out: seq<Range>)
    ensures forall r :: r in out <==> r in rs && r.lo <= r.hi
  {
    if rs == [] then []
    else if rs[0].lo <= rs[0].hi then [rs[0]] + DropEmpty(rs[1..])
    else DropEmpty(rs[1..])
  }

  /** `x` is covered exactly when one of the ranges contains it. */
  lemma {:induction false} CoverMember(rs: seq<Range>, x: int)
    ensures x in Cover(rs) <==> exists r :: r in rs && Within(r.lo, r.hi, x)
  {
    if rs != [] {
      CoverMember(Front(rs), x);
      assert rs == Front(rs) + [Last(rs)];
    }
  }

  /** Lists with the same non-empty ranges cover the same numbers. */
  lemma SameRangesSameCover(a: seq<Range>, b: seq<Range>)
    requires forall r: Range :: r.lo <= r.hi ==> (r in a <==> r in b)
    ensures Cover(a) == Cover(b)
  {
    forall x ensures x in Cover(a) <==> x in Cover(b) {
      CoverMember(a, x);
      CoverMember(b, x);
    }
  }

  lemma AscendingCons(x: int, s: seq<int>)
    requires Ascending(s) && forall y :: y in Elements(s) ==> x < y
    ensures Ascending([x] + s) && Elements([x] + s) == {x} + Elements(s)
  {
    AllElements(s);
    ElementsConcat([x], s);
  }

  lemma AscendingUncons(s: seq<int>)
    requires Ascending(s) && s != []
    ensures Ascending(s[1..]) && Elements(s) == {s[0]} + Elements(s[1..])
    ensures forall y :: y in Elements(s[1..]) ==> s[0] < y
  {
  }

  function InsertNumber(x: int, s: seq<int>): seq<int> {
    if s == [] || x < s[0] then [x] + s
    else if x == s[0] then s
    else [s[0]] + InsertNumber(x, s[1..])
  }

  lemma {:induction false} InsertNumberKeepsOrder(x: int, s: seq<int>)
    requires Ascending(s)
    ensures Ascending(InsertNumber(x, s)) && Elements(InsertNumber(x, s)) == Elements(s) + {x}
  {
    if s == [] || x < s[0] {
      AllElements(s);
      AscendingCons(x, s);
    } else {
      AscendingUncons(s);
      if x != s[0] {
        InsertNumberKeepsOrder(x, s[1..]);
        AscendingCons(s[0], InsertNumber(x, s[1..]));
      }
    }
  }

  /** `sorted(set(seqs))`. */
  function SortedDistinct(s: seq<int>): (out: seq<int>)
    ensures Ascending(out) && Elements(out) == Elements(s)
  {
    if s == [] then []
    else
      assert s == [s[0]] + s[1..];
      InsertNumberKeepsOrder(s[0], SortedDistinct(s[1..]));
      InsertNumber(s[0], SortedDistinct(s[1..]))
  }

  /** An ascending sequence is determined by its elements. */
  lemma {:induction false} AscendingIsUnique(a: seq<int>, b: seq<int>)
    requires Ascending(a) && Ascending(b) && Elements(a) == Elements(b)
    ensures a == b
  {
    AllElements(a);
    AllElements(b);
    assert a != [] ==> a[0] in Elements(a);
    assert b != [] ==> b[0] in Elements(b);
    if a != [] {
      assert a == [a[0]] + a[1..] && b == [b[0]] + b[1..];
      assert Elements(a[1..]) == Elements(a) - {a[0]} && Elements(b[1..]) == Elements(b) - {b[0]};
      AscendingIsUnique(a[1..], b[1..]);
    }
  }

  ghost predicate Distinct<T>(s: seq<T>) {
    forall i, j :: 0 <= i < j < |s| ==> s[i] != s[j]
  }

  lemma {:induction false} DistinctSize<T>(s: seq<T>)
    requires Distinct(s)
    ensures |Elements(s)| == |s|
  {
    if s != [] {
      DistinctSize(s[1..]);
      assert s == [s[0]] + s[1..];
      assert Elements(s) == Elements(s[1..]) + {s[0]};
    }
  }

  // ---------------------------------------------------------------- the operations of the source

  /** The non-empty ranges in sorted order: the same numbers are covered. */
  method SortedNonEmpty(ranges: seq<Range>) returns (sorted: seq<Range>)
    ensures Cover(sorted) == Cover(ranges)
    ensures forall i :: 0 <= i < |sorted| ==> sorted[i].lo <= sorted[i].hi
    ensures forall i, j :: 0 <= i < j < |sorted| ==> sorted[i].lo <= sorted[j].lo
  {
    sorted := SortRanges(DropEmpty(ranges));
    AllElements(sorted);
    AllElements(DropEmpty(ranges));
    assert forall i, j :: 0 <= i < j < |sorted| ==> Before(sorted[i], sorted[j]);
    SameRangesSameCover(sorted, ranges);
  }

  lemma CoverTake(rs: seq<Range>, i: nat)
    requires i < |rs|
    ensures Cover(rs[..i + 1]) == Cover(rs[..i]) + Interval(rs[i])
  {
    assert rs[..i + 1] == rs[..i] + [rs[i]];
    CoverSnoc(rs[..i], rs[i]);
  }

  lemma {:induction false} CanonicalPrefix(rs: seq<Range>, i: nat)
    requires Canonical(rs) && i <= |rs|
    ensures Canonical(rs[..i])
  {
    if i < |rs| {
      CanonicalPrefix(Front(rs), i);
      assert Front(rs)[..i] == rs[..i];
    } else {
      assert rs[..i] == rs;
    }
  }

  /** Taking a canonical list range by range: each range is new and lies above what came before. */
  lemma CanonicalTake(rs: seq<Range>, i: nat)
    requires Canonical(rs) && i < |rs|
    ensures Cover(rs[..i + 1]) == Cover(rs[..i]) + Interval(rs[i])
    ensures Cover(rs[..i]) !! Interval(rs[i])
    ensures forall x :: x in Cover(rs[..i]) ==> x < rs[i].lo - 1
    ensures rs[i].lo <= rs[i].hi && (i > 0 ==> rs[i - 1].hi + 1 < rs[i].lo)
  {
    CanonicalPrefix(rs, i + 1);
    assert Front(rs[..i + 1]) == rs[..i] && Last(rs[..i + 1]) == rs[i];
    LastRange(rs[..i + 1]);
  }

  method MergeRanges(ranges: seq<Range>) returns (merged: seq<Range>)
    ensures IsNormal(merged, Cover(ranges))
  {
    var sorted := SortedNonEmpty(ranges);
    merged := [];
    for i := 0 to |sorted|
      invariant Canonical(merged) && Cover(merged) == Cover(sorted[..i])
      invariant merged != [] && i < |sorted| ==> Last(merged).lo <= sorted[i].lo
    {
      var r := sorted[i];
      CoverTake(sorted, i);
      if merged != [] && r.lo <= Last(merged).hi + 1 {
        var last := Last(merged);
        var joined := Range(last.lo, if last.hi < r.hi then r.hi else last.hi);
        JoinKeepsCanonical(merged, r, joined);
        merged := Front(merged) + [joined];
      } else {
        CanonicalSnoc(merged, r);
        merged := merged + [r];
      }
    }
    assert sorted[..|sorted|] == sorted;
  }

  lemma TakeSnoc<T>(s: seq<T>, i: nat)
    requires i < |s|
    ensures s[..i + 1] == s[..i] + [s[i]]
  {
  }

  lemma TakeAll<T>(s: seq<T>)
    ensures s[..|s|] == s
  {
  }

  lemma TakeOneMore<T>(s: seq<T>, i: nat)
    requires i < |s|
    ensures Elements(s[..i + 1]) == Elements(s[..i]) + {s[i]}
  {
  }

  method ToRanges(seqs: seq<int>) returns (ranges: seq<Range>)
    ensures IsNormal(ranges, Elements(seqs))
  {
    var ordered := SortedDistinct(seqs);
    if ordered == [] {
      return [];
    }
    ranges := [];
    var start, end := ordered[0], ordered[0];
    SingleInterval(start);
    ghost var open := [Range(start, end)];
    for i := 1 to |ordered|
      invariant start <= end == ordered[i - 1]
      invariant open == ranges + [Range(start, end)]
      invariant IsNormal(open, Elements(ordered[..i]))
    {
      var x := ordered[i];
      TakeOneMore(ordered, i);
      SingleInterval(x);
      assert Front(open) == ranges && Last(open) == Range(start, end);
      if x == end + 1 {
        JoinKeepsCanonical(open, Range(x, x), Range(start, x));
        end := x;
      } else {
        CanonicalSnoc(open, Range(x, x));
        ranges := ranges + [Range(start, end)];
        start, end := x, x;
      }
      open := ranges + [Range(start, end)];
    }
    assert ordered[..|ordered|] == ordered;
    ranges := ranges + [Range(start, end)];
  }

  /** The numbers of one range in order. */
  function Run(r: Range): (s: seq<int>)
    requires r.lo <= r.hi + 1
    ensures Ascending(s) && Elements(s) == Interval(r)
    decreases r.hi + 1 - r.lo
  {
    if r.lo == r.hi + 1 then []
    else
      var rest := Run(Range(r.lo + 1, r.hi));
      AscendingCons(r.lo, rest);
      assert forall x :: Within(r.lo, r.hi, x) <==> x == r.lo || Within(r.lo + 1, r.hi, x);
      [r.lo] + rest
  }

  lemma AscendingConcat(a: seq<int>, b: seq<int>)
    requires Ascending(a) && Ascending(b) && forall x, y :: x in Elements(a) && y in Elements(b) ==> x < y
    ensures Ascending(a + b) && Elements(a + b) == Elements(a) + Elements(b)
  {
    AllElements(a);
    AllElements(b);
    ElementsConcat(a, b);
  }

  method IterRanges(ranges: seq<Range>) returns (out: seq<int>)
    ensures Ascending(out) && Elements(out) == Cover(ranges)
  {
    var merged := MergeRanges(ranges);
    out := [];
    for i := 0 to |merged|
      invariant Ascending(out) && Elements(out) == Cover(merged[..i])
    {
      CanonicalTake(merged, i);
      var run := Run(merged[i]);
      AscendingConcat(out, run);
      out := out + run;
    }
    assert merged[..|merged|] == merged;
  }

  lemma {:induction false} IntervalSize(r: Range)
    requires r.lo <= r.hi + 1
    ensures |Interval(r)| == r.hi + 1 - r.lo
    decreases r.hi + 1 - r.lo
  {
    if r.lo <= r.hi {
      IntervalSize(Range(r.lo + 1, r.hi));
      assert forall x :: Within(r.lo, r.hi, x) <==> x == r.lo || Within(r.lo + 1, r.hi, x);
      assert Interval(r) == Interval(Range(r.lo + 1, r.hi)) + {r.lo};
    }
  }

  method CountRanges(ranges: seq<Range>) returns (n: nat)
    ensures n == |Cover(ranges)|
  {
    var merged := MergeRanges(ranges);
    n := 0;
    for i := 0 to |merged|
      invariant n == |Cover(merged[..i])|
    {
      CanonicalTake(merged, i);
      IntervalSize(merged[i]);
      n := n + (merged[i].hi - merged[i].lo + 1);
    }
    assert merged[..|merged|] == merged;
  }

  ghost function AtLeast(s: set<int>, first: int): set<int> {
    set x | x in s && first <= x
  }

  lemma CutInterval(r: Range, first: int, cut: Range)
    requires cut == Range(if r.lo < first then first else r.lo, r.hi)
    ensures Interval(cut) == AtLeast(Interval(r), first)
  {
  }

  /** `PendingGroup.tail`: the part of the ranges at or above `first`. */
  method TailRanges(ranges: seq<Range>, first: int) returns (tail: seq<Range>)
    ensures IsNormal(tail, AtLeast(Cover(ranges), first))
  {
    var merged := MergeRanges(ranges);
    tail := [];
    for i := 0 to |merged|
      invariant Canonical(tail) && Cover(tail) == AtLeast(Cover(merged[..i]), first)
      invariant tail != [] ==> i > 0 && Last(tail).hi <= merged[i - 1].hi
    {
      var r := merged[i];
      var cut := Range(if r.lo < first then first else r.lo, r.hi);
      CanonicalTake(merged, i);
      CutInterval(r, first, cut);
      assert AtLeast(Cover(merged[..i + 1]), first) == AtLeast(Cover(merged[..i]), first) + Interval(cut);
      if first <= r.hi {
        CanonicalSnoc(tail, cut);
        tail := tail + [cut];
      }
    }
    assert merged[..|merged|] == merged;
  }

  // ---------------------------------------------------------------- how fast the encoding grows

  ghost predicate BeginsRun(s: set<int>, x: int) {
    x in s && x - 1 !in s
  }

  /** The numbers at which a run of consecutive numbers begins. */
  ghost function Starts(s: set<int>): set<int> {
    set x | x in s && BeginsRun(s, x)
  }

  lemma StartsWithLast(before: set<int>, r: Range)
    requires r.lo <= r.hi && forall x :: x in before ==> x < r.lo - 1
    ensures Starts(before + Interval(r)) == Starts(before) + {r.lo}
  {
  }

  /** The normal form has one range for every run of the set. */
  lemma {:induction false} RangesAreRuns(rs: seq<Range>)
    requires Canonical(rs)
    ensures |rs| == |Starts(Cover(rs))|
  {
    if rs != [] {
      LastRange(rs);
      RangesAreRuns(Front(rs));
      StartsWithLast(Cover(Front(rs)), Last(rs));
    }
  }

  lemma SubsetSize<T>(a: set<T>, b: set<T>)
    requires a <= b
    ensures |a| <= |b|
  {
    assert b == a + (b - a);
  }

  lemma StartsOfUnion(a: set<int>, b: set<int>)
    ensures Starts(a + b) <= Starts(a) + Starts(b)
  {
  }

  /** Adding numbers to a normal form adds at most one range for each of them. */
  lemma GrowthIsBounded(a: seq<Range>, extra: set<int>, joined: seq<Range>)
    requires Canonical(a) && IsNormal(joined, Cover(a) + extra)
    ensures |joined| <= |a| + |extra|
  {
    RangesAreRuns(a);
    RangesAreRuns(joined);
    StartsOfUnion(Cover(a), extra);
    SubsetSize(Starts(Cover(joined)), Starts(Cover(a)) + Starts(extra));
    SubsetSize(Starts(extra), extra);
  }

  /** Joining two normal forms never needs more ranges than the two had. */
  lemma JoiningIsBounded(a: seq<Range>, b: seq<Range>, joined: seq<Range>)
    requires Canonical(a) && Canonical(b) && IsNormal(joined, Cover(a) + Cover(b))
    ensures |joined| <= |a| + |b|
  {
    RangesAreRuns(a);
    RangesAreRuns(b);
    RangesAreRuns(joined);
    StartsOfUnion(Cover(a), Cover(b));
    SubsetSize(Starts(Cover(joined)), Starts(Cover(a)) + Starts(Cover(b)));
  }
}
