/** The orphan scan (src/commit.py:291-315, src/commit.py:390-480): a paged search for deferred messages no state owns,
  proved to hand to recovery what one unpaged walk would collect. */
module Orphans {
  import opened Ranges
  import opened Broker

  datatype State = Active | Deferred | Scheduled

  datatype Message = Message(num: int, state: State, deliveries: nat, expiresAt: Option<int>, onceScheduled: bool)

  /** A peeked message and the clock when its page was read. */
  datatype Sighting = Sighting(msg: Message, now: int)

  datatype Scan = Scan(k: nat, guard: int, subQueue: bool)

  /** What a walk has found: qualifying messages since the last deferred one, whether the K rule ended it, whether the
    entity showed partitioned numbers, the orphans and the guarded deferrals. */
  datatype Walked = Walked(consecutive: nat, stopped: bool, partitioned: bool, orphans: seq<int>, guarded: seq<int>)

  const ORPHAN_PAGE := 250
  const PAGE_CAP := 20

  /** The K of the early stop. */
  function KStop(batchSize: nat, prefetch: nat): nat {
    if 2 * (batchSize + prefetch + 1) > 100 then 2 * (batchSize + prefetch + 1) else 100
  }

  predicate IsQualifying(m: Message, now: int) {
    m.state.Active? && m.deliveries == 0 && (m.expiresAt.None? || m.expiresAt.value > now) && !m.onceScheduled
  }

  /** One message of the walk; a stopped walk stays as it is. */
  function Visit(c: Scan, w: Walked, s: Sighting): Walked {
    var partitioned := w.partitioned || PartitionOf(s.msg.num) != 0;
    if w.stopped then w
    else if s.msg.state.Deferred? then
      if s.msg.deliveries >= c.guard then w.(consecutive := 0, partitioned := partitioned,
                                             guarded := w.guarded + [s.msg.num])
      else w.(consecutive := 0, partitioned := partitioned, orphans := w.orphans + [s.msg.num])
    else if !partitioned && !c.subQueue && IsQualifying(s.msg, s.now) then
      w.(consecutive := w.consecutive + 1, stopped := w.consecutive + 1 >= c.k)
    else w.(partitioned := partitioned)
  }

  /** The one-pass specification. */
  function Walk(c: Scan, partitioned: bool, stream: seq<Sighting>): Walked {
    if stream == [] then Walked(0, false, partitioned, [], [])
    else Visit(c, Walk(c, partitioned, Front(stream)), Last(stream))
  }

  lemma WalkSnoc(c: Scan, partitioned: bool, stream: seq<Sighting>, s: Sighting)
    ensures Walk(c, partitioned, stream + [s]) == Visit(c, Walk(c, partitioned, stream), s)
  {
  }

  lemma {:induction false} StoppedStays(c: Scan, partitioned: bool, stream: seq<Sighting>, more: seq<Sighting>)
    requires Walk(c, partitioned, stream).stopped
    ensures Walk(c, partitioned, stream + more) == Walk(c, partitioned, stream)
  {
    if more == [] {
      assert stream + more == stream;
    } else {
      StoppedStays(c, partitioned, stream, Front(more));
      assert stream + more == (stream + Front(more)) + [Last(more)];
      WalkSnoc(c, partitioned, stream + Front(more), Last(more));
    }
  }

  // ---------------------------------------------------------------- what the walk collects

  /** How a message locked by an earlier run peeks (src/commit.py:303-315): active, never delivered, not expired when
    its page was read, and never scheduled. */
  ghost predicate PeeksAsLocked(s: Sighting) {
    && s.msg.state == Active && s.msg.deliveries == 0 && !s.msg.onceScheduled
    && (s.msg.expiresAt.Some? ==> s.now < s.msg.expiresAt.value)
  }

  /** Such messages since the last deferred one, among the first `i`. */
  ghost function Streak(stream: seq<Sighting>, i: nat): nat
    requires i <= |stream|
  {
    if i == 0 || stream[i - 1].msg.state.Deferred? then 0
    else Streak(stream, i - 1) + if PeeksAsLocked(stream[i - 1]) then 1 else 0
  }

  /** No `k` of them in a row come before message `i`. */
  ghost predicate Reached(stream: seq<Sighting>, k: nat, i: nat)
    requires i <= |stream|
  {
    forall j :: 0 < j <= i ==> Streak(stream, j) < k
  }

  /** The messages of a plain entity that the scan must recover (`guarded` false) or list as guarded. */
  ghost predicate Wanted(c: Scan, stream: seq<Sighting>, i: nat, guarded: bool)
    requires i < |stream|
  {
    && stream[i].msg.state.Deferred? && (stream[i].msg.deliveries >= c.guard <==> guarded)
    && (c.subQueue || Reached(stream, c.k, i))
  }

  ghost predicate Plain(stream: seq<Sighting>) {
    forall i :: 0 <= i < |stream| ==> PartitionOf(stream[i].msg.num) == 0
  }

  ghost function NumbersWanted(c: Scan, stream: seq<Sighting>, guarded: bool): set<int> {
    set i | 0 <= i < |stream| && Wanted(c, stream, i, guarded) :: stream[i].msg.num
  }

  lemma {:induction false} StreakOfPrefix(stream: seq<Sighting>, n: nat, i: nat)
    requires i <= n <= |stream|
    ensures Streak(stream[..n], i) == Streak(stream, i)
  {
    if i > 0 {
      StreakOfPrefix(stream, n, i - 1);
    }
  }

  lemma WantedOfPrefix(c: Scan, stream: seq<Sighting>, n: nat, i: nat, guarded: bool)
    requires i < n <= |stream|
    ensures Wanted(c, stream[..n], i, guarded) <==> Wanted(c, stream, i, guarded)
  {
    forall j | 0 <= j <= i ensures Streak(stream[..n], j) == Streak(stream, j) {
      StreakOfPrefix(stream, n, j);
    }
  }

  lemma WantedSnoc(c: Scan, stream: seq<Sighting>, guarded: bool)
    requires stream != []
    ensures NumbersWanted(c, stream, guarded) ==
      NumbersWanted(c, Front(stream), guarded)
      + if Wanted(c, stream, |stream| - 1, guarded) then {Last(stream).msg.num} else {}
  {
    var n := |stream| - 1;
    assert Front(stream) == stream[..n];
    forall i | 0 <= i < n ensures Wanted(c, Front(stream), i, guarded) <==> Wanted(c, stream, i, guarded) {
      WantedOfPrefix(c, stream, n, i, guarded);
    }
    assert forall i :: 0 <= i < n ==> Front(stream)[i] == stream[i];
  }

  /** On an entity without partitions the walk stops exactly when K qualifying messages came in a row, and until then it
    keeps their count. */
  lemma {:induction false} WalkStops(c: Scan, stream: seq<Sighting>)
    requires Plain(stream) && c.k > 0
    ensures !Walk(c, false, stream).partitioned
    ensures Walk(c, false, stream).stopped <==> !c.subQueue && !Reached(stream, c.k, |stream|)
    ensures !Walk(c, false, stream).stopped && !c.subQueue ==>
      Walk(c, false, stream).consecutive == Streak(stream, |stream|)
  {
    if stream != [] {
      WalkStops(c, Front(stream));
      var n := |stream| - 1;
      assert Front(stream) == stream[..n];
      forall j | 0 <= j <= n ensures Streak(Front(stream), j) == Streak(stream, j) {
        StreakOfPrefix(stream, n, j);
      }
      assert Reached(stream, c.k, n) <==> Reached(Front(stream), c.k, n);
      assert Reached(stream, c.k, n + 1) <==> Reached(stream, c.k, n) && Streak(stream, n + 1) < c.k;
    }
  }

  /** The walk collects exactly the deferred messages reached before the stop: those below the guard as orphans, the
    others as guarded. */
  lemma {:induction false} WalkCollects(c: Scan, stream: seq<Sighting>)
    requires Plain(stream) && c.k > 0
    ensures Elements(Walk(c, false, stream).orphans) == NumbersWanted(c, stream, false)
    ensures Elements(Walk(c, false, stream).guarded) == NumbersWanted(c, stream, true)
  {
    if stream != [] {
      var w, n := Walk(c, false, Front(stream)), |stream| - 1;
      WalkCollects(c, Front(stream));
      WalkStops(c, Front(stream));
      WantedSnoc(c, stream, false);
      WantedSnoc(c, stream, true);
      assert Front(stream) == stream[..n];
      forall j | 0 <= j <= n ensures Streak(Front(stream), j) == Streak(stream, j) {
        StreakOfPrefix(stream, n, j);
      }
      assert Reached(stream, c.k, n) <==> Reached(Front(stream), c.k, n);
      ElementsConcat(w.orphans, [Last(stream).msg.num]);
      ElementsConcat(w.guarded, [Last(stream).msg.num]);
    }
  }

  ghost predicate InOrder(stream: seq<Sighting>) {
    forall i, j :: 0 <= i < j < |stream| ==> stream[i].msg.num < stream[j].msg.num
  }

  lemma AscendingSnoc(s: seq<int>, x: int)
    requires Ascending(s) && forall y :: y in Elements(s) ==> y < x
    ensures Ascending(s + [x]) && Elements(s + [x]) == Elements(s) + {x}
  {
    AllElements(s);
    ElementsConcat(s, [x]);
  }

  /** Every number is collected at most once, in order. */
  lemma {:induction false} WalkInOrder(c: Scan, partitioned: bool, stream: seq<Sighting>)
    requires InOrder(stream)
    ensures Ascending(Walk(c, partitioned, stream).orphans)
    ensures forall x :: x in Elements(Walk(c, partitioned, stream).orphans) ==>
      stream != [] && x <= Last(stream).msg.num
  {
    if stream != [] {
      WalkInOrder(c, partitioned, Front(stream));
      assert Front(stream) != [] ==> Last(Front(stream)).msg.num < Last(stream).msg.num;
      AscendingSnoc(Walk(c, partitioned, Front(stream)).orphans, Last(stream).msg.num);
    }
  }

  /** Messages left locked by one interruption peek as qualifying ones: at most a batch, the prefetch buffer and one
    more. With no longer run of qualifying messages than that, the early stop misses nothing. */
  lemma LockedClusterDoesNotStop(c: Scan, stream: seq<Sighting>, batchSize: nat, prefetch: nat)
    requires Plain(stream) && c.k == KStop(batchSize, prefetch)
    requires forall j :: 0 < j <= |stream| ==> Streak(stream, j) <= batchSize + prefetch + 1
    ensures !Walk(c, false, stream).stopped
    ensures Elements(Walk(c, false, stream).orphans)
         == set i | 0 <= i < |stream| && stream[i].msg.state.Deferred?
           && stream[i].msg.deliveries < c.guard :: stream[i].msg.num
  {
    WalkStops(c, stream);
    WalkCollects(c, stream);
  }

  // ---------------------------------------------------------------- recovery calls

  ghost function Flat(chunks: seq<seq<int>>): seq<int> {
    if chunks == [] then [] else Flat(Front(chunks)) + Last(chunks)
  }

  lemma FlatSnoc(chunks: seq<seq<int>>, chunk: seq<int>)
    ensures Flat(chunks + [chunk]) == Flat(chunks) + chunk
  {
  }

  lemma {:induction false} FlatConcat(a: seq<seq<int>>, b: seq<seq<int>>)
    ensures Flat(a + b) == Flat(a) + Flat(b)
  {
    if b == [] {
      assert a + b == a;
    } else {
      FlatConcat(a, Front(b));
      assert a + b == (a + Front(b)) + [Last(b)];
      FlatSnoc(a + Front(b), Last(b));
    }
  }

  /** A deferred receive the broker accepts. */
  ghost predicate RecoveryCall(chunk: seq<int>, size: nat) {
    1 <= |chunk| <= size && OnePartition(chunk)
  }

  ghost predicate RecoveryCalls(chunks: seq<seq<int>>, size: nat) {
    forall i :: 0 <= i < |chunks| ==> RecoveryCall(chunks[i], size)
  }

  /** Slices of one partition (src/commit.py:466-469). */
  method Slices(nums: seq<int>, size: nat) returns (chunks: seq<seq<int>>)
    requires size >= 1 && OnePartition(nums)
    ensures Flat(chunks) == nums && RecoveryCalls(chunks, size)
  {
    chunks := [];
    var i := 0;
    while i < |nums|
      invariant 0 <= i <= |nums| && Flat(chunks) == nums[..i] && RecoveryCalls(chunks, size)
      decreases |nums| - i
    {
      var end := if i + size < |nums| then i + size else |nums|;
      FlatSnoc(chunks, nums[i..end]);
      assert nums[..end] == nums[..i] + nums[i..end];
      RecoveryCallsConcat(chunks, [nums[i..end]], size);
      chunks := chunks + [nums[i..end]];
      i := end;
    }
  }

  ghost predicate OneEach(groups: seq<seq<int>>) {
    forall i :: 0 <= i < |groups| ==> groups[i] != [] && OnePartition(groups[i])
  }

  lemma NewGroup(groups: seq<seq<int>>, num: int)
    requires OneEach(groups)
    ensures OneEach(groups + [[num]]) && Flat(groups + [[num]]) == Flat(groups) + [num]
  {
  }

  lemma WiderGroup(groups: seq<seq<int>>, num: int)
    requires OneEach(groups) && groups != [] && PartitionOf(Last(groups)[0]) == PartitionOf(num)
    ensures OneEach(Front(groups) + [Last(groups) + [num]])
    ensures Flat(Front(groups) + [Last(groups) + [num]]) == Flat(groups) + [num]
  {
  }

  /** The ascending numbers split where the partition changes (src/commit.py:453-455). */
  method ByPartition(nums: seq<int>) returns (groups: seq<seq<int>>)
    ensures Flat(groups) == nums && OneEach(groups)
  {
    groups := [];
    for i := 0 to |nums|
      invariant Flat(groups) == nums[..i] && OneEach(groups)
    {
      TakeSnoc(nums, i);
      if groups != [] && PartitionOf(Last(groups)[0]) == PartitionOf(nums[i]) {
        WiderGroup(groups, nums[i]);
        groups := Front(groups) + [Last(groups) + [nums[i]]];
      } else {
        NewGroup(groups, nums[i]);
        groups := groups + [[nums[i]]];
      }
    }
    TakeAll(nums);
  }

  /** `_recover` (src/commit.py:445-480): the calls it makes, one partition each and no more than the limit. */
  method Recover(orphans: seq<int>, size: nat) returns (chunks: seq<seq<int>>)
    requires size >= 1
    ensures Flat(chunks) == SortedDistinct(orphans) && RecoveryCalls(chunks, size)
  {
    var groups := ByPartition(SortedDistinct(orphans));
    chunks := SliceAll(groups, size);
  }

  method SliceAll(groups: seq<seq<int>>, size: nat) returns (chunks: seq<seq<int>>)
    requires size >= 1 && OneEach(groups)
    ensures Flat(chunks) == Flat(groups) && RecoveryCalls(chunks, size)
  {
    chunks := [];
    for i := 0 to |groups|
      invariant Flat(chunks) == Flat(groups[..i]) && RecoveryCalls(chunks, size)
    {
      TakeSnoc(groups, i);
      FlatSnoc(groups[..i], groups[i]);
      var more := Slices(groups[i], size);
      FlatConcat(chunks, more);
      RecoveryCallsConcat(chunks, more, size);
      chunks := chunks + more;
    }
    TakeAll(groups);
  }

  lemma RecoveryCallsConcat(a: seq<seq<int>>, b: seq<seq<int>>, size: nat)
    requires RecoveryCalls(a, size) && RecoveryCalls(b, size)
    ensures RecoveryCalls(a + b, size)
  {
  }

  // ---------------------------------------------------------------- the paged scan

  function Tagged(page: seq<Message>, now: int): seq<Sighting> {
    seq(|page|, i requires 0 <= i < |page| => Sighting(page[i], now))
  }

  lemma Regroup(stream: seq<Sighting>, more: seq<Sighting>, i: nat)
    requires i < |more|
    ensures stream + more[..i + 1] == (stream + more[..i]) + [more[i]]
    ensures (stream + more[..i + 1]) + more[i + 1..] == stream + more
  {
  }

  lemma VisitNext(c: Scan, partitioned: bool, stream: seq<Sighting>, more: seq<Sighting>, i: nat)
    requires i < |more|
    ensures var w := Visit(c, Walk(c, partitioned, stream + more[..i]), more[i]);
            && w == Walk(c, partitioned, stream + more[..i + 1])
            && (w.stopped ==> w == Walk(c, partitioned, stream + more))
  {
    Regroup(stream, more, i);
    WalkSnoc(c, partitioned, stream + more[..i], more[i]);
    if Walk(c, partitioned, stream + more[..i + 1]).stopped {
      StoppedStays(c, partitioned, stream + more[..i + 1], more[i + 1..]);
    }
  }

  /** The scan of one page goes on from what the pages before it left (src/commit.py:404-420). */
  method ScanPage(c: Scan, w: Walked, page: seq<Message>, now: int, ghost partitioned: bool,
                  ghost stream: seq<Sighting>) returns (w': Walked)
    requires w == Walk(c, partitioned, stream)
    ensures w' == Walk(c, partitioned, stream + Tagged(page, now))
  {
    w' := w;
    ghost var more := Tagged(page, now);
    assert stream + more[..0] == stream;
    for i := 0 to |page|
      invariant w' == Walk(c, partitioned, stream + more[..i])
    {
      VisitNext(c, partitioned, stream, more, i);
      w' := Visit(c, w', Sighting(page[i], now));
      if w'.stopped {
        return;
      }
    }
    assert more[..|page|] == more;
  }

  function MessagesFrom(ms: seq<Message>, next: int): seq<Message> {
    if ms == [] || next <= ms[0].num then ms else MessagesFrom(ms[1..], next)
  }

  function PeekPage(ms: seq<Message>, next: int): seq<Message> {
    var from := MessagesFrom(ms, next);
    if |from| <= ORPHAN_PAGE then from else from[..ORPHAN_PAGE]
  }

  /** A plain entity: ascending numbers from 1 on, none of a partition. */
  ghost predicate PlainEntity(ms: seq<Message>) {
    && (forall i, j :: 0 <= i < j < |ms| ==> ms[i].num < ms[j].num)
    && (forall i :: 0 <= i < |ms| ==> 1 <= ms[i].num && PartitionOf(ms[i].num) == 0)
  }

  /** Where explicit paging stands after `n` messages. */
  function Position(ms: seq<Message>, n: nat): int
    requires n <= |ms|
  {
    if n == 0 then 1 else ms[n - 1].num + 1
  }

  lemma {:induction false} NextPage(ms: seq<Message>, n: nat)
    requires PlainEntity(ms) && n <= |ms|
    ensures MessagesFrom(ms, Position(ms, n)) == ms[n..]
  {
    if n > 0 {
      assert ms[0].num < Position(ms, n);
      assert Position(ms, n) == if n == 1 then ms[0].num + 1 else Position(ms[1..], n - 1);
      if n == 1 {
        assert ms[1..] != [] ==> ms[0].num < ms[1..][0].num;
      } else {
        NextPage(ms[1..], n - 1);
        assert ms[n..] == ms[1..][n - 1..];
      }
    }
  }

  /** The first `n` messages, each with the clock of its page. */
  ghost function Stream(ms: seq<Message>, clock: int -> int, n: nat): seq<Sighting>
    requires n <= |ms|
  {
    seq(n, i requires 0 <= i < n => Sighting(ms[i], clock(i / ORPHAN_PAGE)))
  }

  ghost function ReadAfter(ms: seq<Message>, pages: nat): nat {
    if |ms| < ORPHAN_PAGE * pages then |ms| else ORPHAN_PAGE * pages
  }

  lemma OnePageMore(ms: seq<Message>, clock: int -> int, p: nat)
    requires PlainEntity(ms) && |ms| >= 250 * p
    ensures ReadAfter(ms, p) == 250 * p <= ReadAfter(ms, p + 1) <= |ms|
    ensures PeekPage(ms, Position(ms, 250 * p)) == ms[250 * p..ReadAfter(ms, p + 1)]
    ensures Stream(ms, clock, ReadAfter(ms, p + 1))
         == Stream(ms, clock, 250 * p) + Tagged(ms[250 * p..ReadAfter(ms, p + 1)], clock(p))
  {
    NextPage(ms, 250 * p);
    var a, b := Stream(ms, clock, ReadAfter(ms, p + 1)), Stream(ms, clock, 250 * p);
    var t := Tagged(ms[250 * p..ReadAfter(ms, p + 1)], clock(p));
    forall i | 0 <= i < |a| ensures a[i] == (b + t)[i] {
      if i >= 250 * p {
        assert i / 250 == p;
      }
    }
  }

  lemma {:induction false} WalkGrows(c: Scan, partitioned: bool, stream: seq<Sighting>, more: seq<Sighting>)
    ensures Walk(c, partitioned, stream).orphans <= Walk(c, partitioned, stream + more).orphans
  {
    if more == [] {
      assert stream + more == stream;
    } else {
      WalkGrows(c, partitioned, stream, Front(more));
      assert stream + more == (stream + Front(more)) + [Last(more)];
      WalkSnoc(c, partitioned, stream + Front(more), Last(more));
    }
  }

  lemma SortedSuffix(was: seq<int>, now: seq<int>)
    requires was <= now && Ascending(now)
    ensures was + SortedDistinct(now[|was|..]) == now
  {
    AscendingIsUnique(SortedDistinct(now[|was|..]), now[|was|..]);
  }

  /** The orphans of the page just read, in order, are what is handed to recovery. */
  lemma PageOrphans(c: Scan, partitioned: bool, stream: seq<Sighting>, more: seq<Sighting>)
    ensures Walk(c, partitioned, stream).orphans <= Walk(c, partitioned, stream + more).orphans
    ensures var was, now := Walk(c, partitioned, stream).orphans, Walk(c, partitioned, stream + more).orphans;
            InOrder(stream + more) ==> was + SortedDistinct(now[|was|..]) == now
  {
    WalkGrows(c, partitioned, stream, more);
    if InOrder(stream + more) {
      WalkInOrder(c, partitioned, stream + more);
      SortedSuffix(Walk(c, partitioned, stream).orphans, Walk(c, partitioned, stream + more).orphans);
    }
  }

  /** Explicit paging of a plain entity after `p` non-empty pages. */
  ghost predicate OnPlain(ms: seq<Message>, clock: int -> int, p: nat, stream: seq<Sighting>, next: int) {
    && ReadAfter(ms, p) <= |ms| && stream == Stream(ms, clock, ReadAfter(ms, p))
    && next == Position(ms, ReadAfter(ms, p))
    && (p > 0 ==> |ms| > 250 * (p - 1))
  }

  lemma PlainStep(ms: seq<Message>, clock: int -> int, p: nat, stream: seq<Sighting>, next: int)
    requires PlainEntity(ms) && OnPlain(ms, clock, p, stream, next)
    ensures PeekPage(ms, next) == [] <==> |ms| <= 250 * p
    ensures var page := PeekPage(ms, next); page != [] ==>
      OnPlain(ms, clock, p + 1, stream + Tagged(page, clock(p)), Last(page).num + 1)
  {
    if |ms| < 250 * p {
      NextPage(ms, |ms|);
    } else {
      OnePageMore(ms, clock, p);
    }
  }

  lemma StreamIsOrderly(ms: seq<Message>, clock: int -> int, n: nat)
    requires PlainEntity(ms) && n <= |ms|
    ensures InOrder(Stream(ms, clock, n)) && Plain(Stream(ms, clock, n))
  {
  }

  /** A walk that has stopped found what the walk over everything within the cap finds. */
  lemma StoppedEarly(c: Scan, ms: seq<Message>, clock: int -> int, p: nat)
    requires p <= PAGE_CAP && Walk(c, false, Stream(ms, clock, ReadAfter(ms, p))).stopped
    ensures Walk(c, false, Stream(ms, clock, ReadAfter(ms, PAGE_CAP))) ==
      Walk(c, false, Stream(ms, clock, ReadAfter(ms, p)))
  {
    var a, b := Stream(ms, clock, ReadAfter(ms, p)), Stream(ms, clock, ReadAfter(ms, PAGE_CAP));
    assert b == a + b[|a|..];
    StoppedStays(c, false, a, b[|a|..]);
  }

  /** What a scan of a plain entity found and handed to recovery is what one walk over the first 5000 messages finds. */
  ghost predicate Refines(c: Scan, ms: seq<Message>, clock: int -> int, w: Walked, calls: seq<seq<int>>) {
    w == Walk(c, false, Stream(ms, clock, ReadAfter(ms, PAGE_CAP))) && Flat(calls) == w.orphans
  }

  /** `_scan_pages` (src/commit.py:390-425); `cursor` is what cursor mode returns once the entity showed partitioned
    numbers. It answers whether the scan finished: on a plain entity it says no for 4751 to 5000 messages, although all
    were read. */
  method ScanPages(c: Scan, known: bool, ms: seq<Message>, cursor: int -> seq<Message>, clock: int -> int, size: nat)
      returns (finished: bool, w: Walked, calls: seq<seq<int>>)
    requires size >= 1
    ensures RecoveryCalls(calls, size)
    ensures !known && PlainEntity(ms) ==> Refines(c, ms, clock, w, calls)
    ensures !known && PlainEntity(ms) ==> (finished <==> w.stopped || |ms| <= 4750)
  {
    w, calls, finished := Walked(0, false, known, [], []), [], false;
    var p, next := 0, 1;
    ghost var stream := [];
    ghost var plain := !known && PlainEntity(ms);
    while p < PAGE_CAP && !finished
      invariant 0 <= p <= PAGE_CAP && w == Walk(c, known, stream) && RecoveryCalls(calls, size)
      invariant w.stopped ==> finished
      invariant plain ==> !w.partitioned && OnPlain(ms, clock, p, stream, next) && Flat(calls) == w.orphans
      invariant plain && finished ==> w.stopped || |ms| <= 250 * p <= 4750
      decreases PAGE_CAP - p, !finished
    {
      var page := if w.partitioned then cursor(p) else PeekPage(ms, next);
      if plain {
        PlainStep(ms, clock, p, stream, next);
      }
      if page == [] {
        finished := true;
      } else {
        w, calls := ScanAndRecover(c, w, page, clock(p), size, calls, known, stream);
        stream, next, p, finished := stream + Tagged(page, clock(p)), Last(page).num + 1, p + 1, w.stopped;
        if plain {
          StreamIsOrderly(ms, clock, ReadAfter(ms, p));
          NeverPartitioned(c, stream);
        }
      }
    }
    if plain && w.stopped {
      StoppedEarly(c, ms, clock, p);
    }
  }

  /** The scan with the row's settings: K from the batch and prefetch sizes, the guard one below the entity's delivery
    limit, calls of at most a batch and at most 250 numbers. */
  method ScanEntity(batchSize: nat, prefetch: nat, maxDeliveryCount: int, subQueue: bool, known: bool, ms: seq<Message>,
                    cursor: int -> seq<Message>, clock: int -> int)
      returns (finished: bool, w: Walked, calls: seq<seq<int>>)
    requires batchSize >= 1
    ensures RecoveryCalls(calls, batchSize) && RecoveryCalls(calls, DEFERRED_MAX)
    ensures !known && PlainEntity(ms) ==>
      Refines(Scan(KStop(batchSize, prefetch), maxDeliveryCount - 1, subQueue), ms, clock, w, calls)
    ensures !known && PlainEntity(ms) ==> (finished <==> w.stopped || |ms| <= 4750)
  {
    var c := Scan(KStop(batchSize, prefetch), maxDeliveryCount - 1, subQueue);
    finished, w, calls :=
      ScanPages(c, known, ms, cursor, clock, if batchSize < DEFERRED_MAX then batchSize else DEFERRED_MAX);
  }

  lemma {:induction false} NeverPartitioned(c: Scan, stream: seq<Sighting>)
    requires Plain(stream)
    ensures !Walk(c, false, stream).partitioned
  {
    if stream != [] {
      NeverPartitioned(c, Front(stream));
    }
  }

  method ScanAndRecover(c: Scan, w: Walked, page: seq<Message>, now: int, size: nat, calls: seq<seq<int>>,
                        ghost known: bool, ghost stream: seq<Sighting>) returns (w': Walked, calls': seq<seq<int>>)
    requires w == Walk(c, known, stream) && size >= 1 && RecoveryCalls(calls, size)
    ensures w' == Walk(c, known, stream + Tagged(page, now)) && RecoveryCalls(calls', size)
    ensures InOrder(stream + Tagged(page, now)) && Flat(calls) == w.orphans ==> Flat(calls') == w'.orphans
  {
    w' := ScanPage(c, w, page, now, known, stream);
    PageOrphans(c, known, stream, Tagged(page, now));
    var chunks := Recover(w'.orphans[|w.orphans|..], size);
    FlatConcat(calls, chunks);
    calls' := calls + chunks;
  }

  /** Recovery gets exactly the deferred messages below the guard that are reached within 5000 messages and before K
    qualifying ones in a row, each once and in order; the deferrals at the guard are listed. */
  lemma RecoversExactly(c: Scan, ms: seq<Message>, clock: int -> int, w: Walked, calls: seq<seq<int>>)
    requires PlainEntity(ms) && c.k > 0 && Refines(c, ms, clock, w, calls)
    ensures Ascending(Flat(calls))
    ensures Elements(Flat(calls)) == NumbersWanted(c, Stream(ms, clock, ReadAfter(ms, PAGE_CAP)), false)
    ensures Elements(w.guarded) == NumbersWanted(c, Stream(ms, clock, ReadAfter(ms, PAGE_CAP)), true)
  {
    var stream := Stream(ms, clock, ReadAfter(ms, PAGE_CAP));
    StreamIsOrderly(ms, clock, ReadAfter(ms, PAGE_CAP));
    WalkCollects(c, stream);
    WalkInOrder(c, false, stream);
  }
}
