/** Deleting the pending set of the previous run (src/commit.py:74-78, src/commit.py:129-277). */
module Commit {
  import opened Ranges
  import opened Broker
  import opened Bisect
  import opened Pending

  const COMMIT_MAX_COUNT := 250
  const COMMIT_MAX_BYTES := 16 * 1024 * 1024

  function AtLeastOne(n: int): int {
    if n < 1 then 1 else n
  }

  /** Numbers per call for a group whose largest body has `maxBody` bytes: `ChunkBytes` says what it guarantees. */
  function ChunkSize(maxBody: int): int {
    var fit := COMMIT_MAX_BYTES / AtLeastOne(maxBody);
    AtLeastOne(if fit < COMMIT_MAX_COUNT then fit else COMMIT_MAX_COUNT)
  }

  ghost function TotalBytes(nums: seq<int>, bytes: int -> int): int {
    if nums == [] then 0 else TotalBytes(Front(nums), bytes) + bytes(Last(nums))
  }

  lemma {:induction false} TotalBytesBound(nums: seq<int>, bytes: int -> int, most: int)
    requires forall i :: 0 <= i < |nums| ==> bytes(nums[i]) <= most
    ensures TotalBytes(nums, bytes) <= |nums| * most
  {
    if nums != [] {
      TotalBytesBound(Front(nums), bytes, most);
      assert |nums| * most == |Front(nums)| * most + most;
    }
  }

  lemma Fits(n: nat, most: int, limit: nat)
    requires most >= 1 && n <= limit / most
    ensures n * most <= limit
  {
  }

  /** A call within the chunk size asks for at most 250 numbers, and for more than one only when all their bodies
    together fit 16 MiB. */
  lemma ChunkBytes(nums: seq<int>, bytes: int -> int, maxBody: int)
    requires 1 <= |nums| <= ChunkSize(maxBody)
    requires forall i :: 0 <= i < |nums| ==> bytes(nums[i]) <= maxBody
    ensures |nums| <= COMMIT_MAX_COUNT
    ensures |nums| == 1 || TotalBytes(nums, bytes) <= COMMIT_MAX_BYTES
  {
    var most := AtLeastOne(maxBody);
    TotalBytesBound(nums, bytes, most);
    if |nums| > 1 {
      Fits(|nums|, most, COMMIT_MAX_BYTES);
    }
  }

  ghost predicate NonNegative(nums: set<int>) {
    forall n :: n in nums ==> 0 <= n
  }

  ghost function Present(w: World, entity: Entity, session: Option<string>, nums: set<int>): set<int> {
    set n | n in nums && Receivable(w, entity, session, n)
  }

  /** A call the broker accepts: 1 to 250 ascending numbers of the group, no more than its chunk size. */
  ghost predicate LawfulCall(c: Call, entity: Entity, g: Group) {
    && c.entity == entity && c.session == Filter(entity, g.session)
    && 1 <= |c.nums| <= ChunkSize(g.maxBody) <= COMMIT_MAX_COUNT
    && Ascending(c.nums) && Elements(c.nums) <= Cover(g.ranges)
    && (OfOnePartition(g) ==> forall i :: 0 <= i < |c.nums| ==> PartitionOf(c.nums[i]) == g.partition)
  }

  ghost predicate LawfulCalls(before: seq<Call>, calls: seq<Call>, entity: Entity, g: Group) {
    && before <= calls
    && forall i :: |before| <= i < |calls| ==> LawfulCall(calls[i], entity, g)
  }

  lemma ChunkCallsAreLawful(before: seq<Call>, calls: seq<Call>, entity: Entity, g: Group, chunk: seq<int>)
    requires AskedOnly(before, calls, entity, Filter(entity, g.session), chunk)
    requires Ascending(chunk) && |chunk| <= ChunkSize(g.maxBody) && Elements(chunk) <= Cover(g.ranges)
    ensures LawfulCalls(before, calls, entity, g)
  {
  }

  lemma ChunkIsAccepted(g: Group, chunk: seq<int>)
    requires |chunk| <= ChunkSize(g.maxBody) && Elements(chunk) <= Cover(g.ranges)
    ensures OfOnePartition(g) ==> Accepted(chunk)
  {
    AllElements(chunk);
  }

  /** Deleting the receivable numbers of one chunk after those of the chunks before it. */
  lemma SweepMore(w: World, entity: Entity, session: Option<string>, a: set<int>, b: set<int>, w2: World)
    requires a !! b
    requires
      var w1 := Without(w, entity, Present(w, entity, session, a));
      w2 == Without(w1, entity, Present(w1, entity, session, b))
    ensures w2 == Without(w, entity, Present(w, entity, session, a + b))
  {
  }

  lemma ExactSweeps(o: Outcome, nums: seq<int>, w: World, w': World, entity: Entity, session: Option<string>)
    requires o.Done? && Accounts(o, nums) && Exact(o, nums, w, w', entity, session)
    ensures w' == Without(w, entity, Present(w, entity, session, Elements(nums)))
  {
  }

  /** A number is reported as already gone and still stored exactly when it was stored but not receivable
    (locked, of another session, or not deferred): the counter then calls gone what is not. */
  lemma GoneButStored(o: Outcome, nums: seq<int>, w: World, w': World, used: int, entity: Entity,
                      session: Option<string>, n: int)
    requires Correct(o, nums, w, w', true, used, entity, session) && n in nums
    ensures n in o.notFound && Id(entity, n) in w'.store <==>
      Id(entity, n) in w.store && !Receivable(w, entity, session, n)
  {
  }

  /** The progress mark after the first `i` numbers (src/commit.py:254). */
  function MarkAfter(nums: seq<int>, i: nat): int
    requires i <= |nums|
  {
    if i == 0 then 0 else nums[i - 1] + 1
  }

  /** Below the next number everything is done, at or above it nothing is. */
  lemma TailIsWhatIsLeft(nums: seq<int>, i: nat, next: int)
    requires Ascending(nums) && i <= |nums| && NonNegative(Elements(nums))
    requires next == MarkAfter(nums, i)
    ensures AtLeast(Elements(nums), next) == Elements(nums) - Elements(nums[..i])
  {
  }

  /** Nothing of `tail` was taken since entry `from` of the log: the tail of a failed group is exactly what is not
    deleted. */
  ghost predicate TailIsExact(log: seq<Effect>, from: nat, tail: set<int>) {
    forall i :: from <= i < |log| && log[i].Taken? ==> log[i].nums !! tail
  }

  /** The tail is exact if and only if the chunk that failed took nothing. */
  lemma TailExactness(log: seq<Effect>, cut: nat, log': seq<Effect>, entity: Entity, done: set<int>, chunk: set<int>,
                      tail: set<int>)
    requires |log| <= cut <= |log'| && TookOnly(log, log'[..cut], entity, done)
    requires TookOnly(log'[..cut], log', entity, chunk)
    requires done !! tail && chunk <= tail
    ensures TailIsExact(log', |log|, tail) <==> forall i :: cut <= i < |log'| ==> !log'[i].Taken?
  {
    forall i | |log| <= i < cut && log'[i].Taken? ensures log'[i].nums <= done {
      assert log'[..cut][i] == log'[i];
      assert TakesSome(log'[..cut][i], entity, done);
    }
    forall i | cut <= i < |log'| && log'[i].Taken? ensures !(log'[i].nums !! tail) {
      assert TakesSome(log'[i], entity, chunk);
      assert log'[i].nums * tail == log'[i].nums;
    }
  }

  /** What deleting the numbers `done` of a group does to a broker nobody else uses, whatever else was asked for. */
  ghost predicate Swept(w: World, w': World, exactly: bool, entity: Entity, g: Group, done: set<int>) {
    && Shrunk(w, w', entity, Cover(g.ranges))
    && (exactly ==> w' == Without(w, entity, Present(w, entity, Filter(entity, g.session), done)))
  }

  lemma SweptNothing(w: World, exactly: bool, entity: Entity, g: Group)
    ensures Swept(w, w, exactly, entity, g, {})
  {
    assert Present(w, entity, Filter(entity, g.session), {}) == {};
    assert Without(w, entity, {}) == w;
  }

  lemma SweptMore(w: World, w1: World, w2: World, exactly: bool, exactly1: bool, entity: Entity, g: Group,
                  done: set<int>, more: set<int>)
    requires Swept(w, w1, exactly, entity, g, done) && Swept(w1, w2, exactly1, entity, g, more) && done !! more
    ensures Swept(w, w2, exactly && exactly1, entity, g, done + more)
  {
    ShrunkTwice(w, w1, w2, entity, Cover(g.ranges), Cover(g.ranges));
    assert Cover(g.ranges) + Cover(g.ranges) == Cover(g.ranges);
    if exactly && exactly1 {
      SweepMore(w, entity, Filter(entity, g.session), done, more, w2);
    }
  }

  lemma ShrunkBySubset(w: World, w': World, entity: Entity, a: set<int>, b: set<int>)
    requires Shrunk(w, w', entity, a) && a <= b
    ensures Shrunk(w, w', entity, b)
  {
  }

  /** The effects and calls of a commit stay within the group. */
  ghost predicate Traced(log: seq<Effect>, log': seq<Effect>, calls: seq<Call>, calls': seq<Call>, entity: Entity,
                         g: Group) {
    TookOnly(log, log', entity, Cover(g.ranges)) && LawfulCalls(calls, calls', entity, g)
  }

  ghost function GroupsTotal(groups: seq<Group>): nat {
    if groups == [] then 0 else GroupsTotal(Front(groups)) + |Cover(Last(groups).ranges)|
  }

  lemma GroupsTotalSnoc(groups: seq<Group>, g: Group)
    ensures GroupsTotal(groups + [g]) == GroupsTotal(groups) + |Cover(g.ranges)|
  {
  }

  lemma {:induction false} GroupsTotalConcat(a: seq<Group>, b: seq<Group>)
    ensures GroupsTotal(a + b) == GroupsTotal(a) + GroupsTotal(b)
  {
    if b == [] {
      assert a + b == a;
    } else {
      GroupsTotalConcat(a, Front(b));
      assert a + b == (a + Front(b)) + [Last(b)];
      GroupsTotalSnoc(a + Front(b), Last(b));
    }
  }

  /** How many distinct numbers the stored groups hold, group by group. */
  ghost function StoredTotal(pending: seq<PendingEntity>): nat {
    if pending == [] then 0 else StoredTotal(Front(pending)) + GroupsTotal(Last(pending).groups)
  }

  /** How many groups are stored. */
  ghost function GroupCount(pending: seq<PendingEntity>): nat {
    if pending == [] then 0 else GroupCount(Front(pending)) + |Last(pending).groups|
  }

  /** The keys under which something is stored. */
  function KeysOf(pending: seq<PendingEntity>): set<Key> {
    set p, g | p in pending && g in p.groups :: KeyOf(p.entity, g)
  }

  lemma {:induction false} KeysAreGroups(pending: seq<PendingEntity>)
    ensures |KeysOf(pending)| <= GroupCount(pending) && forall k, n :: Stores(pending, k, n) ==> k in KeysOf(pending)
  {
    if pending != [] {
      var p := Last(pending);
      KeysAreGroups(Front(pending));
      KeysOfOne(p.entity, p.groups);
      assert KeysOf(pending) == KeysOf(Front(pending)) + EntityKeys(p.entity, p.groups) by {
        assert pending == Front(pending) + [p];
      }
    }
  }

  function EntityKeys(entity: Entity, groups: seq<Group>): set<Key> {
    set g | g in groups :: KeyOf(entity, g)
  }

  lemma {:induction false} KeysOfOne(entity: Entity, groups: seq<Group>)
    ensures |EntityKeys(entity, groups)| <= |groups|
  {
    if groups != [] {
      KeysOfOne(entity, Front(groups));
      assert groups == Front(groups) + [Last(groups)];
      assert EntityKeys(entity, groups) == EntityKeys(entity, Front(groups)) + {KeyOf(entity, Last(groups))};
    }
  }

  lemma StoredTotalSnoc(pending: seq<PendingEntity>, p: PendingEntity)
    ensures StoredTotal(pending + [p]) == StoredTotal(pending) + GroupsTotal(p.groups)
  {
  }

  /** The groups that have ranges (src/commit.py:197). */
  method WithRanges(groups: seq<Group>) returns (out: seq<Group>)
    ensures forall i :: 0 <= i < |out| ==> out[i] in groups
    ensures forall g :: g in groups && g.ranges != [] ==> g in out
    ensures GroupsTotal(out) == GroupsTotal(groups)
  {
    out := [];
    for i := 0 to |groups|
      invariant forall i :: 0 <= i < |out| ==> out[i] in groups
      invariant forall g :: g in groups[..i] && g.ranges != [] ==> g in out
      invariant GroupsTotal(out) == GroupsTotal(groups[..i])
    {
      TakeGroup(groups, i);
      if groups[i].ranges != [] {
        GroupsTotalSnoc(out, groups[i]);
        out := out + [groups[i]];
      }
    }
    assert groups[..|groups|] == groups;
  }

  method CountGroups(groups: seq<Group>) returns (n: nat)
    ensures n == GroupsTotal(groups)
  {
    n := 0;
    for i := 0 to |groups|
      invariant n == GroupsTotal(groups[..i])
    {
      var m := CountRanges(groups[i].ranges);
      TakeGroup(groups, i);
      n := n + m;
    }
    assert groups[..|groups|] == groups;
  }

  ghost predicate AllNonNegative(groups: seq<Group>) {
    forall g :: g in groups ==> NonNegative(Cover(g.ranges))
  }

  /** `c` is what is left of one of `groups`. */
  ghost predicate LeftOf(c: Group, groups: seq<Group>) {
    exists g :: g in groups && c.session == g.session && c.partition == g.partition && c.maxBody == g.maxBody
                && Cover(c.ranges) <= Cover(g.ranges)
  }

  /** Every new effect of the extractor takes stored numbers only, and every new call is lawful for a stored group. */
  ghost predicate WithinStored(log: seq<Effect>, log': seq<Effect>, calls: seq<Call>, calls': seq<Call>,
                               pending: seq<PendingEntity>) {
    && log <= log' && calls <= calls'
    && (forall i :: |log| <= i < |log'| ==> Environment(log'[i]) || TakesStored(log'[i], pending))
    && (forall i :: |calls| <= i < |calls'| ==> LawfulForStored(calls'[i], pending))
  }

  ghost predicate TakesStored(e: Effect, pending: seq<PendingEntity>) {
    e.Taken? && forall n :: n in e.nums ==> Holds(pending, e.entity, n)
  }

  ghost predicate LawfulForStored(c: Call, pending: seq<PendingEntity>) {
    exists p, g :: p in pending && g in p.groups && LawfulCall(c, p.entity, g)
  }

  lemma TracedWithinStored(log: seq<Effect>, log': seq<Effect>, calls: seq<Call>, calls': seq<Call>, p: PendingEntity,
                           g: Group)
    requires Traced(log, log', calls, calls', p.entity, g) && g in p.groups
    ensures WithinStored(log, log', calls, calls', [p])
  {
    assert p in [p];
    forall i | |log| <= i < |log'| && !Environment(log'[i]) ensures TakesStored(log'[i], [p]) {
      assert TakesSome(log'[i], p.entity, Cover(g.ranges));
    }
  }

  lemma WithinStoredTwice(log: seq<Effect>, log1: seq<Effect>, log2: seq<Effect>, calls: seq<Call>, calls1: seq<Call>,
                          calls2: seq<Call>, pending: seq<PendingEntity>)
    requires WithinStored(log, log1, calls, calls1, pending) && WithinStored(log1, log2, calls1, calls2, pending)
    ensures WithinStored(log, log2, calls, calls2, pending)
  {
    assert forall i :: 0 <= i < |log1| ==> log2[i] == log1[i];
    assert forall i :: 0 <= i < |calls1| ==> calls2[i] == calls1[i];
  }

  lemma WithinStoredOfOne(log: seq<Effect>, log': seq<Effect>, calls: seq<Call>, calls': seq<Call>,
                          pending: seq<PendingEntity>, p: PendingEntity)
    requires WithinStored(log, log', calls, calls', [p]) && p in pending
    ensures WithinStored(log, log', calls, calls', pending)
  {
    forall i | |log| <= i < |log'| && !Environment(log'[i]) ensures TakesStored(log'[i], pending) {
      forall n | n in log'[i].nums ensures Holds(pending, log'[i].entity, n) {
        assert Holds([p], log'[i].entity, n);
      }
    }
    forall i | |calls| <= i < |calls'| ensures LawfulForStored(calls'[i], pending) {
      assert LawfulForStored(calls'[i], [p]);
    }
  }

  ghost predicate LeftOfStored(carried: seq<PendingEntity>, pending: seq<PendingEntity>) {
    forall q :: q in carried ==> exists p :: p in pending && p.entity == q.entity && LeftOfGroups(q.groups, p.groups)
  }

  ghost predicate LeftOfGroups(left: seq<Group>, groups: seq<Group>) {
    forall c :: c in left ==> LeftOf(c, groups)
  }

  lemma {:induction false} ElementsAtMost(s: seq<int>)
    ensures |Elements(s)| <= |s|
  {
    if s != [] {
      ElementsAtMost(Front(s));
      assert s == Front(s) + [Last(s)];
      ElementsConcat(Front(s), [Last(s)]);
      assert Elements([Last(s)]) == {Last(s)};
    }
  }

  lemma SomeOf<T>(s: set<T>) returns (x: T)
    requires s != {}
    ensures x in s
  {
    x :| x in s;
  }

  lemma {:induction false} IdsSize(entity: Entity, nums: set<int>)
    ensures |Ids(entity, nums)| == |nums|
  {
    if nums != {} {
      var n := SomeOf(nums);
      IdsSize(entity, nums - {n});
      assert Ids(entity, nums) == Ids(entity, nums - {n}) + {Id(entity, n)};
    } else {
      assert Ids(entity, nums) == {};
    }
  }

  ghost function Ids(entity: Entity, nums: set<int>): set<Id> {
    set n | n in nums :: Id(entity, n)
  }

  /** At most, and with no reply lost exactly, the messages that left the broker were counted as committed. */
  ghost predicate Counted(counted: int, w: World, w': World, exactly: bool) {
    counted <= |w.store.Keys| - |w'.store.Keys| && (exactly ==> counted == |w.store.Keys| - |w'.store.Keys|)
  }

  lemma ReceivedAreGone(o: Outcome, nums: seq<int>, w: World, w': World, entity: Entity, session: Option<string>)
    requires o.Done? && Accounts(o, nums) && Cleared(o, nums, w, w', entity, session)
    requires Shrunk(w, w', entity, Elements(nums))
    ensures Ids(entity, Elements(o.received)) <= w.store.Keys - w'.store.Keys
  {
  }

  lemma OnlyReceivedAreGone(w: World, entity: Entity, nums: set<int>)
    ensures w.store.Keys - Without(w, entity, nums).store.Keys <= Ids(entity, nums)
  {
  }

  lemma ReceivedSize(o: Outcome, nums: seq<int>)
    requires Distinct(nums) && o.Done? && Accounts(o, nums)
    ensures |Elements(o.received)| == |o.received|
  {
    DistinctSize(nums);
    ElementsAtMost(o.received);
    ElementsAtMost(o.notFound);
  }

  lemma ReceivedWereDeleted(o: Outcome, nums: seq<int>, w: World, w': World, honest: bool, used: int, entity: Entity,
                            session: Option<string>)
    requires Distinct(nums) && Correct(o, nums, w, w', honest, used, entity, session)
    requires Shrunk(w, w', entity, Elements(nums))
    ensures Counted(|o.received|, w, w', honest)
  {
    ReceivedSize(o, nums);
    ReceivedAreGone(o, nums, w, w', entity, session);
    IdsSize(entity, Elements(o.received));
    SubsetSize(Ids(entity, Elements(o.received)), w.store.Keys - w'.store.Keys);
    KeysGone(w, w');
    if honest {
      OnlyReceivedAreGone(w, entity, Elements(o.received));
      SubsetSize(w.store.Keys - w'.store.Keys, Ids(entity, Elements(o.received)));
    }
  }

  lemma KeysGone(w: World, w': World)
    requires w'.store.Keys <= w.store.Keys
    ensures |w.store.Keys - w'.store.Keys| == |w.store.Keys| - |w'.store.Keys|
  {
  }

  datatype Counters = Counters(committed: int, carriedForward: int, droppedStale: int)

  /** The broker and the counters at one moment; `honest` when no reply will be lost, `calm` when no call will fail,
    `still` when nobody else will act; `staleLeft` calls to come will find their entity gone or unreadable, `heldLeft`
    their session held by another receiver. */
  datatype Snapshot = Snapshot(origin: World, world: World, log: seq<Effect>, calls: seq<Call>, honest: bool,
                               calm: bool, still: bool, staleLeft: nat, heldLeft: nat, books: Counters, total: nat)

  ghost predicate Later(s: Snapshot, s': Snapshot) {
    && s'.origin == s.origin && s.log <= s'.log && s.calls <= s'.calls
    && (s.honest ==> s'.honest) && (s.calm ==> s'.calm) && (s.still ==> s'.still)
    && s'.staleLeft <= s.staleLeft && s'.heldLeft <= s.heldLeft
  }

  /** A group of which `done` was asked for. */
  ghost predicate Partly(s: Snapshot, s': Snapshot, exactly: bool, entity: Entity, g: Group, done: set<int>) {
    && Later(s, s') && Traced(s.log, s'.log, s.calls, s'.calls, entity, g)
    && done <= Cover(g.ranges) && AllGone(s.origin, s'.log, |s.log|, entity, Filter(entity, g.session), done)
    && s'.total == s.total + |done| && s'.books == s.books.(committed := s'.books.committed)
    && (s.still ==> Swept(s.world, s'.world, exactly, entity, g, done))
    && (s.still ==> Counted(s'.books.committed - s.books.committed, s.world, s'.world, exactly))
  }

  lemma PartlyNothing(s: Snapshot, exactly: bool, entity: Entity, g: Group)
    ensures Partly(s, s, exactly, entity, g, {})
  {
    SweptNothing(s.world, exactly, entity, g);
  }

  lemma CallsTwice(calls: seq<Call>, calls1: seq<Call>, calls2: seq<Call>, entity: Entity, g: Group)
    requires LawfulCalls(calls, calls1, entity, g) && LawfulCalls(calls1, calls2, entity, g)
    ensures LawfulCalls(calls, calls2, entity, g)
  {
    assert forall i :: 0 <= i < |calls1| ==> calls2[i] == calls1[i];
  }

  lemma CountedTwice(counted: int, counted1: int, w: World, w1: World, w2: World, exactly: bool, exactly1: bool)
    requires Counted(counted, w, w1, exactly) && Counted(counted1, w1, w2, exactly1)
    ensures Counted(counted + counted1, w, w2, exactly && exactly1)
  {
  }

  lemma PartlyMore(s: Snapshot, s1: Snapshot, s2: Snapshot, exactly: bool, exactly1: bool, entity: Entity, g: Group,
                   done: set<int>, more: set<int>)
    requires Partly(s, s1, exactly, entity, g, done) && Partly(s1, s2, exactly1, entity, g, more) && done !! more
    ensures Partly(s, s2, exactly && exactly1, entity, g, done + more)
  {
    var session := Filter(entity, g.session);
    TookTwice(s.log, s1.log, s2.log, entity, Cover(g.ranges), Cover(g.ranges), Cover(g.ranges));
    CallsTwice(s.calls, s1.calls, s2.calls, entity, g);
    GoneLater(s.origin, s1.log, s2.log, |s.log|, |s.log|, entity, session, done);
    GoneLater(s.origin, s2.log, s2.log, |s1.log|, |s.log|, entity, session, more);
    assert |done + more| == |done| + |more|;
    if s.still {
      SweptMore(s.world, s1.world, s2.world, exactly, exactly1, entity, g, done, more);
      CountedTwice(s1.books.committed - s.books.committed, s2.books.committed - s1.books.committed, s.world, s1.world,
                   s2.world, exactly, exactly1);
    }
  }

  /** How the counters relate to the broker and to what is carried. */
  ghost predicate Balanced(s: Snapshot, s': Snapshot, forwarded: nat, exactly: bool, dropped: bool) {
    && (s.still ==> Counted(s'.books.committed - s.books.committed, s.world, s'.world, exactly))
    && s'.books.carriedForward == s.books.carriedForward + forwarded
    && (dropped || s'.books.droppedStale == s.books.droppedStale)
  }

  lemma BalancedThen(s: Snapshot, s1: Snapshot, s2: Snapshot, forwarded: nat, forwarded1: nat, exactly: bool,
                     exactly1: bool, dropped: bool, dropped1: bool)
    requires Balanced(s, s1, forwarded, exactly, dropped) && Balanced(s1, s2, forwarded1, exactly1, dropped1)
    requires Later(s, s1)
    ensures Balanced(s, s2, forwarded + forwarded1, exactly && exactly1, dropped || dropped1)
  {
  }

  /** What a group leaves to carry. */
  function LeftBy(v: Verdict): seq<Group> {
    if v.Carried? then [v.left] else []
  }

  lemma LeftTotal(carried: seq<Group>, v: Verdict)
    ensures GroupsTotal(carried + LeftBy(v)) == GroupsTotal(carried) + if v.Carried? then |Cover(v.left.ranges)| else 0
    ensures carried + LeftBy(v) == [] <==> carried == [] && !v.Carried?
  {
    if v.Carried? {
      GroupsTotalSnoc(carried, v.left);
    } else {
      assert carried + [] == carried;
    }
  }

  lemma GroupCountLeft(carried: seq<PendingEntity>, entity: Entity, groups: seq<Group>)
    ensures GroupCount(carried + LeftEntity(entity, groups)) == GroupCount(carried) + |groups|
  {
    if groups == [] {
      assert carried + [] == carried;
    } else {
      assert Front(carried + LeftEntity(entity, groups)) == carried;
    }
  }

  lemma StoredLeft(carried: seq<PendingEntity>, entity: Entity, groups: seq<Group>, more: seq<PendingEntity>)
    requires more == if groups == [] then [] else [PendingEntity(entity, groups)]
    ensures StoredTotal(carried + more) == StoredTotal(carried) + GroupsTotal(groups)
    ensures carried + more == [] <==> carried == [] && groups == []
  {
    if groups == [] {
      assert carried + more == carried;
    } else {
      StoredTotalSnoc(carried, PendingEntity(entity, groups));
    }
  }

  datatype Verdict = Deleted | Carried(left: Group) | Dropped(count: nat) | Aborted(error: Error)

  /** Which error leads to which verdict (src/commit.py:203-225); `own` for the configured entity. */
  predicate Follows(v: Verdict, error: Option<Error>, own: bool) {
    match error
    case None => v.Deleted?
    case Some(e) =>
      if e.SessionHeld? then v.Carried?
      else if (e.Stale? || e.Mismatch?) && !own then v.Dropped?
      else v == Aborted(e)
  }

  datatype EntityResult = Leftover(carried: seq<Group>, stale: bool) | EntityFailed(error: Error)

  /** A commit fails with an error met on the way, and never because a session is held. */
  predicate FailedWith(faults: seq<Fault>, faults': seq<Fault>, error: Error) {
    Spent(faults, faults', error) && !error.SessionHeld?
  }

  /** An entity whose commit fails does so with an error met on the way. */
  ghost predicate FailsFor(faults: seq<Fault>, faults': seq<Fault>, end: Option<EntityResult>) {
    && Consumed(faults, faults')
    && (end.Some? && end.value.EntityFailed? ==> FailedWith(faults, faults', end.value.error))
  }

  lemma FailsForLater(faults: seq<Fault>, faults1: seq<Fault>, faults2: seq<Fault>, end: Option<EntityResult>)
    requires FailsFor(faults, faults1, None) && FailsFor(faults1, faults2, end)
    ensures FailsFor(faults, faults2, end)
  {
  }

  /** `stale` lists the entities reported as gone or unreadable. */
  datatype Result = Ok(carried: seq<PendingEntity>, stale: set<Entity>) | Failure(error: Error)

  function Min(a: int, b: int): int {
    if a < b then a else b
  }

  /** `n` of `g` is in one of the carried groups. */
  ghost predicate CarriedIn(carried: seq<Group>, g: Group, n: int) {
    exists c :: c in carried && c.session == g.session && c.partition == g.partition && n in Cover(c.ranges)
  }

  /** Every number of `g` is carried, or a receive could not return it at some moment. */
  ghost predicate GroupHandled(s: Snapshot, s': Snapshot, entity: Entity, g: Group, carried: seq<Group>) {
    forall n :: n in Cover(g.ranges) ==>
      GoneAt(s.origin, s'.log, |s.log|, entity, Filter(entity, g.session), n) || CarriedIn(carried, g, n)
  }

  /** `left` is what is left of `g` from `next` on when `done` is what was finished. */
  ghost predicate Rest(g: Group, next: int, done: set<int>, left: Group) {
    && left.session == g.session && left.partition == g.partition && LeftOf(left, [g]) && Canonical(left.ranges)
    && (done <= Cover(g.ranges) && AtLeast(Cover(g.ranges), next) == Cover(g.ranges) - done ==>
          Cover(g.ranges) == done + Cover(left.ranges) && |done| + |Cover(left.ranges)| == |Cover(g.ranges)|)
  }

  /** Carrying what is not done handles everything. */
  lemma RestIsHandled(s: Snapshot, s': Snapshot, exactly: bool, entity: Entity, g: Group, done: set<int>, left: Group)
    requires Partly(s, s', exactly, entity, g, done)
    requires Cover(g.ranges) == done + Cover(left.ranges) && left.session == g.session && left.partition == g.partition
    ensures GroupHandled(s, s', entity, g, [left])
  {
    assert left in [left];
  }

  lemma HandledLater(s: Snapshot, s1: Snapshot, s2: Snapshot, entity: Entity, g: Group, carried: seq<Group>,
                     more: seq<Group>)
    requires GroupHandled(s, s1, entity, g, carried) && Later(s1, s2)
    ensures GroupHandled(s, s2, entity, g, carried + more)
  {
    forall n | n in Cover(g.ranges)
      ensures GoneAt(s.origin, s2.log, |s.log|, entity, Filter(entity, g.session), n) || CarriedIn(carried + more, g, n)
    {
      if GoneAt(s.origin, s1.log, |s.log|, entity, Filter(entity, g.session), n) {
        GoneLater(s.origin, s1.log, s2.log, |s.log|, |s.log|, entity, Filter(entity, g.session), {n});
      } else {
        var c :| c in carried && c.session == g.session && c.partition == g.partition && n in Cover(c.ranges);
        assert c in carried + more;
      }
    }
  }

  lemma HandledEarlier(s: Snapshot, s1: Snapshot, s2: Snapshot, entity: Entity, g: Group, carried: seq<Group>,
                       more: seq<Group>)
    requires GroupHandled(s1, s2, entity, g, more) && Later(s, s1)
    ensures GroupHandled(s, s2, entity, g, carried + more)
  {
    forall n | n in Cover(g.ranges)
      ensures GoneAt(s.origin, s2.log, |s.log|, entity, Filter(entity, g.session), n) || CarriedIn(carried + more, g, n)
    {
      if GoneAt(s.origin, s2.log, |s1.log|, entity, Filter(entity, g.session), n) {
        GoneLater(s.origin, s2.log, s2.log, |s1.log|, |s.log|, entity, Filter(entity, g.session), {n});
      } else {
        var c :| c in more && c.session == g.session && c.partition == g.partition && n in Cover(c.ranges);
        assert c in carried + more;
      }
    }
  }

  ghost predicate AllHandled(s: Snapshot, s': Snapshot, entity: Entity, groups: seq<Group>, carried: seq<Group>) {
    forall j :: 0 <= j < |groups| ==> GroupHandled(s, s', entity, groups[j], carried)
  }

  lemma AllHandledSnoc(s: Snapshot, s1: Snapshot, s2: Snapshot, entity: Entity, groups: seq<Group>, g: Group,
                       carried: seq<Group>, more: seq<Group>)
    requires AllHandled(s, s1, entity, groups, carried) && GroupHandled(s1, s2, entity, g, more) && Later(s, s1)
    requires Later(s1, s2)
    ensures AllHandled(s, s2, entity, groups + [g], carried + more)
  {
    HandledEarlier(s, s1, s2, entity, g, carried, more);
    forall j | 0 <= j < |groups| ensures GroupHandled(s, s2, entity, groups[j], carried + more) {
      HandledLater(s, s1, s2, entity, groups[j], carried, more);
    }
  }

  /** What the commit of one group does. */
  ghost predicate GroupDone(s: Snapshot, s': Snapshot, entity: Entity, configured: Entity, g: Group, v: Verdict) {
    && Later(s, s') && Traced(s.log, s'.log, s.calls, s'.calls, entity, g)
    && Balanced(s, s', if v.Carried? then |Cover(v.left.ranges)| else 0, v.Deleted? && s.honest, false)
    && (s.calm && OfOnePartition(g) ==> v.Deleted?)
    && (v.Dropped? ==> entity != configured && s'.staleLeft < s.staleLeft)
    && (v.Carried? ==> LeftOf(v.left, [g]) && Canonical(v.left.ranges) && s'.heldLeft < s.heldLeft)
    && (v.Deleted? ==> GroupHandled(s, s', entity, g, []) && s'.total == s.total + |Cover(g.ranges)|)
    && (NonNegative(Cover(g.ranges)) && v.Carried? ==>
          GroupHandled(s, s', entity, g, [v.left]) && s'.total == s.total + |Cover(g.ranges)|)
    && (NonNegative(Cover(g.ranges)) && v.Dropped? ==> s'.total + v.count == s.total + |Cover(g.ranges)|)
  }

  ghost predicate OnePartitionGroups(groups: seq<Group>) {
    forall g :: g in groups ==> OfOnePartition(g)
  }

  /** Where the commit of an entity stands after `groups`. */
  ghost predicate EntitySoFar(s: Snapshot, s': Snapshot, p: PendingEntity, groups: seq<Group>, carried: seq<Group>) {
    && Later(s, s') && WithinStored(s.log, s'.log, s.calls, s'.calls, [p]) && LeftOfGroups(carried, p.groups)
    && (s.calm && OnePartitionGroups(p.groups) ==> carried == []) && |carried| + s'.heldLeft <= s.heldLeft
    && Balanced(s, s', GroupsTotal(carried), carried == [] && s.honest, false)
    && (AllNonNegative(p.groups) ==>
          AllHandled(s, s', p.entity, groups, carried) && s'.total == s.total + GroupsTotal(groups))
  }

  /** What the commit of one entity does: the counters grow by what was stored, and every number is carried or could not
    be received at some moment, unless the entity is reported as stale. */
  ghost predicate EntityDone(s: Snapshot, s': Snapshot, p: PendingEntity, configured: Entity, r: EntityResult) {
    && Later(s, s') && WithinStored(s.log, s'.log, s.calls, s'.calls, [p])
    && (s.calm && OnePartitionGroups(p.groups) ==> r == Leftover([], false))
    && (r.Leftover? ==>
          && |r.carried| + s'.heldLeft <= s.heldLeft && LeftOfGroups(r.carried, p.groups)
          && (r.stale ==> p.entity != configured && s'.staleLeft < s.staleLeft)
          && Balanced(s, s', GroupsTotal(r.carried), r == Leftover([], false) && s.honest, r.stale)
          && (AllNonNegative(p.groups) ==> s'.total == s.total + GroupsTotal(p.groups))
          && (AllNonNegative(p.groups) ==> r.stale || AllHandled(s, s', p.entity, p.groups, r.carried)))
  }

  lemma EntityStarts(s: Snapshot, p: PendingEntity)
    ensures EntitySoFar(s, s, p, [], [])
  {
  }

  lemma LeftOfMore(carried: seq<Group>, g: Group, v: Verdict, groups: seq<Group>)
    requires LeftOfGroups(carried, groups) && g in groups && (v.Carried? ==> LeftOf(v.left, [g]))
    ensures LeftOfGroups(carried + LeftBy(v), groups)
  {
  }

  lemma GroupGoesOn(s: Snapshot, s1: Snapshot, s2: Snapshot, p: PendingEntity, g: Group)
    requires Later(s, s1) && WithinStored(s.log, s1.log, s.calls, s1.calls, [p])
    requires Later(s1, s2) && Traced(s1.log, s2.log, s1.calls, s2.calls, p.entity, g) && g in p.groups
    ensures Later(s, s2) && WithinStored(s.log, s2.log, s.calls, s2.calls, [p])
  {
    TracedWithinStored(s1.log, s2.log, s1.calls, s2.calls, p, g);
    WithinStoredTwice(s.log, s1.log, s2.log, s.calls, s1.calls, s2.calls, [p]);
  }

  lemma EntityGoesOn(s: Snapshot, s1: Snapshot, s2: Snapshot, p: PendingEntity, configured: Entity, groups: seq<Group>,
                     g: Group, v: Verdict, carried: seq<Group>)
    requires EntitySoFar(s, s1, p, groups, carried) && GroupDone(s1, s2, p.entity, configured, g, v) && g in p.groups
    requires v.Deleted? || v.Carried?
    ensures EntitySoFar(s, s2, p, groups + [g], carried + LeftBy(v))
  {
    GroupGoesOn(s, s1, s2, p, g);
    LeftOfMore(carried, g, v, p.groups);
    LeftTotal(carried, v);
    GroupsTotalSnoc(groups, g);
    BalancedThen(s, s1, s2, GroupsTotal(carried), if v.Carried? then |Cover(v.left.ranges)| else 0,
                 carried == [] && s.honest, v.Deleted? && s1.honest, false, false);
    if AllNonNegative(p.groups) {
      AllHandledSnoc(s, s1, s2, p.entity, groups, g, carried, LeftBy(v));
    }
  }

  lemma EntityFails(s: Snapshot, s1: Snapshot, s2: Snapshot, p: PendingEntity, configured: Entity, groups: seq<Group>,
                    g: Group, v: Verdict, carried: seq<Group>)
    requires EntitySoFar(s, s1, p, groups, carried) && GroupDone(s1, s2, p.entity, configured, g, v) && g in p.groups
    requires v.Aborted?
    ensures EntityDone(s, s2, p, configured, EntityFailed(v.error))
  {
    GroupGoesOn(s, s1, s2, p, g);
  }

  lemma EntityDrops(s: Snapshot, s1: Snapshot, s2: Snapshot, s3: Snapshot, p: PendingEntity, configured: Entity,
                    all: seq<Group>, i: nat, v: Verdict, carried: seq<Group>)
    requires i < |all| && EntitySoFar(s, s1, p, all[..i], carried) && GroupDone(s1, s2, p.entity, configured, all[i], v)
    requires all[i] in p.groups
    requires v.Dropped? && s3 == s2.(books := s2.books.(droppedStale := s3.books.droppedStale), total := s3.total)
    requires s3.total + GroupsTotal(all[..i + 1]) == s2.total + v.count + GroupsTotal(all)
    requires GroupsTotal(all) == GroupsTotal(p.groups)
    ensures EntityDone(s, s3, p, configured, Leftover(carried, true))
  {
    GroupGoesOn(s, s1, s2, p, all[i]);
    TakeGroup(all, i);
    BalancedThen(s, s1, s2, GroupsTotal(carried), 0, carried == [] && s.honest, false, false, false);
  }

  lemma EntityEnds(s: Snapshot, s': Snapshot, p: PendingEntity, configured: Entity, groups: seq<Group>,
                   carried: seq<Group>)
    requires EntitySoFar(s, s', p, groups, carried) && GroupsTotal(groups) == GroupsTotal(p.groups)
    requires forall g :: g in p.groups && g.ranges != [] ==> g in groups
    ensures EntityDone(s, s', p, configured, Leftover(carried, false))
  {
    if AllNonNegative(p.groups) {
      forall j | 0 <= j < |p.groups| ensures GroupHandled(s, s', p.entity, p.groups[j], carried) {
        if p.groups[j].ranges != [] {
          var i :| 0 <= i < |groups| && groups[i] == p.groups[j];
        }
      }
    }
  }

  /** Every number of `p` is carried under its key, or a receive could not return it at some moment. */
  ghost predicate EntityHandled(s: Snapshot, s': Snapshot, p: PendingEntity, carried: seq<PendingEntity>) {
    forall j, n :: 0 <= j < |p.groups| && n in Cover(p.groups[j].ranges) ==>
      GoneAt(s.origin, s'.log, |s.log|, p.entity, Filter(p.entity, p.groups[j].session), n)
        || Stores(carried, KeyOf(p.entity, p.groups[j]), n)
  }

  lemma EntityHandledLater(s: Snapshot, s1: Snapshot, s2: Snapshot, p: PendingEntity, carried: seq<PendingEntity>,
                           more: seq<PendingEntity>)
    requires EntityHandled(s, s1, p, carried) && Later(s1, s2)
    ensures EntityHandled(s, s2, p, carried + more)
  {
    forall j, n | 0 <= j < |p.groups| && n in Cover(p.groups[j].ranges)
      ensures GoneAt(s.origin, s2.log, |s.log|, p.entity, Filter(p.entity, p.groups[j].session), n)
           || Stores(carried + more, KeyOf(p.entity, p.groups[j]), n) {
      var session := Filter(p.entity, p.groups[j].session);
      if GoneAt(s.origin, s1.log, |s.log|, p.entity, session, n) {
        GoneLater(s.origin, s1.log, s2.log, |s.log|, |s.log|, p.entity, session, {n});
      } else {
        StoresMore(carried, more, KeyOf(p.entity, p.groups[j]), n);
      }
    }
  }

  lemma StoresMore(carried: seq<PendingEntity>, more: seq<PendingEntity>, k: Key, n: int)
    requires Stores(carried, k, n)
    ensures Stores(carried + more, k, n)
  {
    var p, g :| p in carried && g in p.groups && KeyOf(p.entity, g) == k && n in Cover(g.ranges);
    assert p in carried + more;
  }

  function LeftEntity(entity: Entity, groups: seq<Group>): seq<PendingEntity> {
    if groups == [] then [] else [PendingEntity(entity, groups)]
  }

  lemma EntityHandledNow(s: Snapshot, s1: Snapshot, s2: Snapshot, p: PendingEntity, left: seq<Group>,
                         carried: seq<PendingEntity>)
    requires AllHandled(s1, s2, p.entity, p.groups, left) && Later(s, s1)
    ensures EntityHandled(s, s2, p, carried + LeftEntity(p.entity, left))
  {
    forall j, n | 0 <= j < |p.groups| && n in Cover(p.groups[j].ranges)
      ensures GoneAt(s.origin, s2.log, |s.log|, p.entity, Filter(p.entity, p.groups[j].session), n)
           || Stores(carried + LeftEntity(p.entity, left), KeyOf(p.entity, p.groups[j]), n) {
      var session := Filter(p.entity, p.groups[j].session);
      assert GroupHandled(s1, s2, p.entity, p.groups[j], left);
      if GoneAt(s.origin, s2.log, |s1.log|, p.entity, session, n) {
        GoneLater(s.origin, s2.log, s2.log, |s1.log|, |s.log|, p.entity, session, {n});
      } else {
        var c :| c in left && c.session == p.groups[j].session && c.partition == p.groups[j].partition
          && n in Cover(c.ranges);
        var q := PendingEntity(p.entity, left);
        assert q in carried + LeftEntity(p.entity, left) && c in q.groups;
      }
    }
  }

  ghost predicate EntitiesNonNegative(pending: seq<PendingEntity>) {
    forall p :: p in pending ==> AllNonNegative(p.groups)
  }

  ghost predicate EntitiesHandled(s: Snapshot, s': Snapshot, done: seq<PendingEntity>, carried: seq<PendingEntity>,
                                  stale: set<Entity>) {
    forall j :: 0 <= j < |done| ==> done[j].entity in stale || EntityHandled(s, s', done[j], carried)
  }

  /** Where the commit stands after the entities `done`. */
  ghost predicate CommitSoFar(s: Snapshot, s': Snapshot, pending: seq<PendingEntity>, done: seq<PendingEntity>,
                              carried: seq<PendingEntity>, stale: set<Entity>) {
    && Later(s, s') && WithinStored(s.log, s'.log, s.calls, s'.calls, pending) && LeftOfStored(carried, pending)
    && (s.calm && AllOfOnePartition(pending) ==> carried == [] && stale == {})
    && stale <= StoredEntities(pending) && |stale| + s'.staleLeft <= s.staleLeft
    && GroupCount(carried) + s'.heldLeft <= s.heldLeft
    && Balanced(s, s', StoredTotal(carried), carried == [] && stale == {} && s.honest, stale != {})
    && (EntitiesNonNegative(pending) ==>
          s'.total == s.total + StoredTotal(done) && EntitiesHandled(s, s', done, carried, stale))
  }

  lemma EntitiesHandledSnoc(s: Snapshot, s1: Snapshot, s2: Snapshot, done: seq<PendingEntity>, p: PendingEntity,
                            left: seq<Group>, carried: seq<PendingEntity>, stale: set<Entity>, stale': set<Entity>)
    requires EntitiesHandled(s, s1, done, carried, stale) && Later(s, s1) && Later(s1, s2) && stale <= stale'
    requires p.entity in stale' || AllHandled(s1, s2, p.entity, p.groups, left)
    ensures EntitiesHandled(s, s2, done + [p], carried + LeftEntity(p.entity, left), stale')
  {
    if p.entity !in stale' {
      EntityHandledNow(s, s1, s2, p, left, carried);
    }
    forall j | 0 <= j < |done| && done[j].entity !in stale'
      ensures EntityHandled(s, s2, done[j], carried + LeftEntity(p.entity, left))
    {
      EntityHandledLater(s, s1, s2, done[j], carried, LeftEntity(p.entity, left));
    }
  }

  lemma CommitWithin(s: Snapshot, s1: Snapshot, s2: Snapshot, pending: seq<PendingEntity>, p: PendingEntity)
    requires Later(s, s1) && WithinStored(s.log, s1.log, s.calls, s1.calls, pending) && p in pending
    requires Later(s1, s2) && WithinStored(s1.log, s2.log, s1.calls, s2.calls, [p])
    ensures Later(s, s2) && WithinStored(s.log, s2.log, s.calls, s2.calls, pending)
  {
    WithinStoredOfOne(s1.log, s2.log, s1.calls, s2.calls, pending, p);
    WithinStoredTwice(s.log, s1.log, s2.log, s.calls, s1.calls, s2.calls, pending);
  }

  lemma LeftEntityIsLeft(carried: seq<PendingEntity>, p: PendingEntity, left: seq<Group>, pending: seq<PendingEntity>)
    requires LeftOfStored(carried, pending) && p in pending && LeftOfGroups(left, p.groups)
    ensures LeftOfStored(carried + LeftEntity(p.entity, left), pending)
  {
  }

  lemma CommitGoesOn(s: Snapshot, s1: Snapshot, s2: Snapshot, pending: seq<PendingEntity>, done: seq<PendingEntity>,
                     p: PendingEntity, configured: Entity, r: EntityResult, carried: seq<PendingEntity>,
                     stale: set<Entity>, stale': set<Entity>)
    requires CommitSoFar(s, s1, pending, done, carried, stale) && EntityDone(s1, s2, p, configured, r) && p in pending
    requires r.Leftover?
    requires stale' == if r.stale then stale + {p.entity} else stale
    ensures CommitSoFar(s, s2, pending, done + [p], carried + LeftEntity(p.entity, r.carried), stale')
  {
    CommitWithin(s, s1, s2, pending, p);
    LeftEntityIsLeft(carried, p, r.carried, pending);
    GroupsOfOne(pending, p);
    StoredLeft(carried, p.entity, r.carried, LeftEntity(p.entity, r.carried));
    StoredTotalSnoc(done, p);
    GroupCountLeft(carried, p.entity, r.carried);
    BalancedThen(s, s1, s2, StoredTotal(carried), GroupsTotal(r.carried), carried == [] && stale == {} && s.honest,
                 r == Leftover([], false) && s1.honest, stale != {}, r.stale);
    if EntitiesNonNegative(pending) {
      EntitiesHandledSnoc(s, s1, s2, done, p, r.carried, carried, stale, stale');
    }
  }

  /** When nobody else acts, what could not be received once cannot be received later. */
  lemma {:induction false} GoneStaysGone(origin: World, log: seq<Effect>, t: nat, entity: Entity,
                                         session: Option<string>, n: int)
    requires t <= |log| && !Receivable(Replay(origin, log[..t]), entity, session, n)
    requires forall i :: t <= i < |log| ==> log[i].Taken?
    ensures !Receivable(Replay(origin, log), entity, session, n)
  {
    if t < |log| {
      assert Front(log)[..t] == log[..t];
      GoneStaysGone(origin, Front(log), t, entity, session, n);
    } else {
      assert log[..t] == log;
    }
  }

  /** A group failed in the chunk `failed`, which began at entry `cut` of the log, after `done` was finished. At a
    broker nobody else uses, with no lost reply and all its numbers there, the chunk took nothing. */
  ghost predicate Broken(s: Snapshot, s': Snapshot, entity: Entity, g: Group, done: set<int>, cut: nat,
                         failed: seq<int>) {
    && |s.log| <= cut <= |s'.log| && s.log <= s'.log
    && TookOnly(s.log, s'.log[..cut], entity, done) && TookOnly(s'.log[..cut], s'.log, entity, Elements(failed))
    && Elements(failed) <= Cover(g.ranges) - done
    && (s.still && s.honest
        && AllReceivable(Replay(s.origin, s'.log[..cut]), entity, Filter(entity, g.session), failed) ==>
          cut == |s'.log|)
  }

  /** What the tail of a failed group is worth: it is exactly what is not deleted if and only if the failed chunk took
    nothing, and that is so when nobody else acts, no reply is lost and nothing of the failed chunk is missing. */
  ghost predicate TailAfter(s: Snapshot, s': Snapshot, entity: Entity, g: Group, next: int, cut: nat,
                            failed: seq<int>) {
    var tail := AtLeast(Cover(g.ranges), next);
    && |s.log| <= cut <= |s'.log|
    && (TailIsExact(s'.log, |s.log|, tail) <==> forall i :: cut <= i < |s'.log| ==> !s'.log[i].Taken?)
    && (s.still && s.honest
        && AllReceivable(Replay(s.origin, s'.log[..cut]), entity, Filter(entity, g.session), failed) ==>
          TailIsExact(s'.log, |s.log|, tail))
  }

  lemma TailAfterBroken(s: Snapshot, s': Snapshot, entity: Entity, g: Group, done: set<int>, next: int, cut: nat,
                        failed: seq<int>)
    requires Broken(s, s', entity, g, done, cut, failed) && AtLeast(Cover(g.ranges), next) == Cover(g.ranges) - done
    ensures TailAfter(s, s', entity, g, next, cut, failed)
  {
    TailExactness(s.log, cut, s'.log, entity, done, Elements(failed), AtLeast(Cover(g.ranges), next));
  }

  lemma OpenedIsPartly(s: Snapshot, s': Snapshot, entity: Entity, g: Group)
    requires Later(s, s')
    requires s' == s.(honest := s'.honest, calm := s'.calm, staleLeft := s'.staleLeft, heldLeft := s'.heldLeft)
    ensures Partly(s, s', s.honest, entity, g, {}) && Broken(s, s', entity, g, {}, |s'.log|, [])
  {
    SweptNothing(s.world, s.honest, entity, g);
    assert s'.log[..|s'.log|] == s'.log;
    assert Elements<int>([]) == {};
  }

  lemma AfterOpening(s: Snapshot, s1: Snapshot, s2: Snapshot, works: bool, entity: Entity, g: Group, done: set<int>,
                     cut: nat, failed: seq<int>)
    requires Later(s, s1)
    requires s1 == s.(honest := s1.honest, calm := s1.calm, staleLeft := s1.staleLeft, heldLeft := s1.heldLeft)
    requires Partly(s1, s2, works && s1.honest, entity, g, done)
    requires !works ==> Broken(s1, s2, entity, g, done, cut, failed)
    ensures Partly(s, s2, works && s.honest, entity, g, done)
    ensures !works ==> Broken(s, s2, entity, g, done, cut, failed)
  {
    OpenedIsPartly(s, s1, entity, g);
    PartlyMore(s, s1, s2, s.honest, works && s1.honest, entity, g, {}, done);
    assert {} + done == done;
  }

  lemma ChunkIsPartly(s: Snapshot, s': Snapshot, entity: Entity, g: Group, chunk: seq<int>, o: Outcome, used: int)
    requires Ascending(chunk) && |chunk| <= ChunkSize(g.maxBody) && Elements(chunk) <= Cover(g.ranges) && Later(s, s')
    requires Bisected(o, s.origin, s.log, s'.log, entity, Filter(entity, g.session), chunk)
    requires AskedOnly(s.calls, s'.calls, entity, Filter(entity, g.session), chunk)
    requires s.still ==>
      BisectedStill(o, s.world, s'.world, s.log, s'.log, s.honest, used, entity, Filter(entity, g.session), chunk)
    requires s'.books == s.books.(committed := s.books.committed + if o.Done? then |o.received| else 0)
    requires s'.total == s.total + if o.Done? then |o.received| + |o.notFound| else 0
    ensures Partly(s, s', o.Done? && s.honest, entity, g, if o.Done? then Elements(chunk) else {})
  {
    ChunkCallsAreLawful(s.calls, s'.calls, entity, g, chunk);
    TookMore(s.log, s'.log, entity, Elements(chunk), Cover(g.ranges));
    DistinctSize(chunk);
    if s.still {
      ShrunkBySubset(s.world, s'.world, entity, Elements(chunk), Cover(g.ranges));
      if o.Done? {
        ReceivedWereDeleted(o, chunk, s.world, s'.world, s.honest, used, entity, Filter(entity, g.session));
        if s.honest {
          ExactSweeps(o, chunk, s.world, s'.world, entity, Filter(entity, g.session));
        }
      } else {
        SubsetSize(s'.world.store.Keys, s.world.store.Keys);
      }
    }
  }

  lemma TookMore(log: seq<Effect>, log': seq<Effect>, entity: Entity, nums: set<int>, all: set<int>)
    requires TookOnly(log, log', entity, nums) && nums <= all
    ensures TookOnly(log, log', entity, all)
  {
  }

  /** The first `i` numbers of a group are done, and nothing else was taken. */
  ghost predicate ChunksDone(s: Snapshot, s': Snapshot, entity: Entity, g: Group, nums: seq<int>, i: nat)
    requires i <= |nums|
  {
    Partly(s, s', s.honest, entity, g, Elements(nums[..i])) && TookOnly(s.log, s'.log, entity, Elements(nums[..i]))
  }

  /** The first `i` numbers are done, and the chunk after them failed unless all `works`. */
  ghost predicate ChunksState(s: Snapshot, s': Snapshot, entity: Entity, g: Group, nums: seq<int>, i: nat, works: bool,
                              cut: nat, failed: seq<int>)
    requires i <= |nums|
  {
    match works
    case true => ChunksDone(s, s', entity, g, nums, i)
    case false =>
      && Partly(s, s', false, entity, g, Elements(nums[..i]))
      && Broken(s, s', entity, g, Elements(nums[..i]), cut, failed)
  }

  lemma NoChunks(s: Snapshot, entity: Entity, g: Group, nums: seq<int>)
    ensures ChunksDone(s, s, entity, g, nums, 0)
  {
    PartlyNothing(s, s.honest, entity, g);
    assert Elements(nums[..0]) == {};
  }

  lemma ChunkWorks(s: Snapshot, s1: Snapshot, s2: Snapshot, entity: Entity, g: Group, nums: seq<int>, begin: nat,
                   end: nat)
    requires begin <= end <= |nums| && Ascending(nums) && ChunksDone(s, s1, entity, g, nums, begin)
    requires Partly(s1, s2, s1.honest, entity, g, Elements(nums[begin..end]))
    requires TookOnly(s1.log, s2.log, entity, Elements(nums[begin..end]))
    ensures ChunksDone(s, s2, entity, g, nums, end)
  {
    SliceFacts(nums, begin, end);
    var done, more := Elements(nums[..begin]), Elements(nums[begin..end]);
    PartlyMore(s, s1, s2, s.honest, s1.honest, entity, g, done, more);
    TookTwice(s.log, s1.log, s2.log, entity, done, more, done + more);
  }

  lemma FailedIsPartly(s: Snapshot, s1: Snapshot, s2: Snapshot, entity: Entity, g: Group, done: set<int>)
    requires Partly(s, s1, s.honest, entity, g, done) && Partly(s1, s2, false, entity, g, {})
    ensures Partly(s, s2, false, entity, g, done)
  {
    PartlyMore(s, s1, s2, s.honest, false, entity, g, done, {});
    assert done + {} == done;
  }

  lemma FailedIsBroken(s: Snapshot, s1: Snapshot, s2: Snapshot, entity: Entity, g: Group, done: set<int>,
                       chunk: seq<int>)
    requires Later(s, s1) && Later(s1, s2) && TookOnly(s.log, s1.log, entity, done)
    requires TookOnly(s1.log, s2.log, entity, Elements(chunk))
    requires Elements(chunk) <= Cover(g.ranges) - done && s1.world == Replay(s1.origin, s1.log)
    requires s1.still && s1.honest && AllReceivable(s1.world, entity, Filter(entity, g.session), chunk) ==>
      s2.log == s1.log
    ensures Broken(s, s2, entity, g, done, |s1.log|, chunk)
  {
    assert s2.log[..|s1.log|] == s1.log;
  }

  lemma ChunkFails(s: Snapshot, s1: Snapshot, s2: Snapshot, entity: Entity, g: Group, nums: seq<int>, begin: nat,
                   end: nat)
    requires begin <= end <= |nums| && Ascending(nums) && Elements(nums) == Cover(g.ranges)
    requires ChunksDone(s, s1, entity, g, nums, begin)
    requires Partly(s1, s2, false, entity, g, {}) && TookOnly(s1.log, s2.log, entity, Elements(nums[begin..end]))
    requires s1.world == Replay(s1.origin, s1.log)
    requires s1.still && s1.honest && AllReceivable(s1.world, entity, Filter(entity, g.session), nums[begin..end]) ==>
      s2.log == s1.log
    ensures Partly(s, s2, false, entity, g, Elements(nums[..begin]))
    ensures Broken(s, s2, entity, g, Elements(nums[..begin]), |s1.log|, nums[begin..end])
  {
    SliceFacts(nums, begin, end);
    FailedIsPartly(s, s1, s2, entity, g, Elements(nums[..begin]));
    FailedIsBroken(s, s1, s2, entity, g, Elements(nums[..begin]), nums[begin..end]);
  }

  lemma NotOpened(s: Snapshot, entity: Entity, g: Group, nums: seq<int>)
    ensures ChunksState(s, s, entity, g, nums, 0, false, |s.log|, [])
  {
    assert Elements(nums[..0]) == {};
    OpenedIsPartly(s, s, entity, g);
    PartlyNothing(s, false, entity, g);
  }

  /** What deleting a group comes to: either all of it is done, or the tail from `next` on is what is left. */
  ghost predicate GroupOutcome(s: Snapshot, s': Snapshot, entity: Entity, g: Group, works: bool, next: int,
                               done: set<int>, cut: nat, failed: seq<int>) {
    && Partly(s, s', works && s.honest, entity, g, done) && (works ==> done == Cover(g.ranges))
    && (NonNegative(Cover(g.ranges)) ==> AtLeast(Cover(g.ranges), next) == Cover(g.ranges) - done)
    && (!works && NonNegative(Cover(g.ranges)) ==> TailAfter(s, s', entity, g, next, cut, failed))
  }

  lemma GroupEnds(s: Snapshot, s1: Snapshot, s2: Snapshot, entity: Entity, g: Group, nums: seq<int>, i: nat,
                  works: bool, next: int, cut: nat, failed: seq<int>)
    requires Later(s, s1)
    requires s1 == s.(honest := s1.honest, calm := s1.calm, staleLeft := s1.staleLeft, heldLeft := s1.heldLeft)
    requires Ascending(nums)
    requires Elements(nums) == Cover(g.ranges)
    requires i <= |nums| && next == MarkAfter(nums, i) && (works ==> i == |nums|)
    requires ChunksState(s1, s2, entity, g, nums, i, works, cut, failed)
    ensures GroupOutcome(s, s2, entity, g, works, next, Elements(nums[..i]), cut, failed)
  {
    AfterOpening(s, s1, s2, works, entity, g, Elements(nums[..i]), cut, failed);
    TakeAll(nums);
    if NonNegative(Cover(g.ranges)) {
      TailIsWhatIsLeft(nums, i, next);
      if !works {
        TailAfterBroken(s, s2, entity, g, Elements(nums[..i]), next, cut, failed);
      }
    }
  }

  lemma GroupsOfOne(pending: seq<PendingEntity>, p: PendingEntity)
    requires p in pending
    ensures AllOfOnePartition(pending) ==> OnePartitionGroups(p.groups)
  {
  }

  class PendingCommitter {
    const configured: Entity
    var committed: nat
    var alreadyGone: nat
    var carriedForward: nat
    var droppedStale: nat

    constructor (configured: Entity)
      ensures this.configured == configured && Total() == 0
    {
      this.configured := configured;
      committed, alreadyGone, carriedForward, droppedStale := 0, 0, 0, 0;
    }

    ghost function Snap(b: ServiceBus): Snapshot
      reads this, b
    {
      Snapshot(b.origin, b.world, b.log, b.calls, Honest(b.faults), b.faults == [], Still(b.weather),
               StaleLeft(b.faults), Left(b.faults, SessionHeld),
               Counters(committed, carriedForward, droppedStale), Total())
    }

    ghost function Total(): nat
      reads this
    {
      committed + alreadyGone + carriedForward + droppedStale
    }

    /** Opening the receiver, retried like every call (src/commit.py:244-246). */
    method OpenReceiver(b: ServiceBus) returns (error: Option<Error>)
      modifies b`faults
      ensures Consumed(old(b.faults), b.faults) && (error.Some? ==> Spent(old(b.faults), b.faults, error.value))
      ensures old(b.faults) == [] ==> b.faults == [] && error.None?
    {
      for attempt := 0 to 4
        invariant Consumed(old(b.faults), b.faults)
        invariant old(b.faults) == [] ==> attempt == 0 && b.faults == []
      {
        var fault := b.NextFault();
        if fault.Clean? {
          return None;
        }
        error := Some(fault.error);
        if attempt == 3 || !(fault.error.Transient? || fault.error.SessionHeld?) {
          return;
        }
      }
      error := None;
    }

    /** One chunk of a group: one bisecting receive and its counters (src/commit.py:250-253). At a broker nobody else
      uses, with no lost reply and all its numbers there, a failed chunk takes nothing. */
    method DeleteChunk(b: ServiceBus, entity: Entity, g: Group, chunk: seq<int>, first: bool)
        returns (error: Option<Error>)
      requires b.Valid() && Ascending(chunk) && |chunk| <= ChunkSize(g.maxBody) && Elements(chunk) <= Cover(g.ranges)
      modifies b, this`committed, this`alreadyGone
      ensures b.Valid() && (old(b.faults) == [] && OfOnePartition(g) ==> error.None?)
      ensures Consumed(old(b.faults), b.faults) && (error.Some? ==> Spent(old(b.faults), b.faults, error.value))
      ensures Partly(old(Snap(b)), Snap(b), error.None? && Honest(old(b.faults)), entity, g,
                     if error.None? then Elements(chunk) else {})
      ensures TookOnly(old(b.log), b.log, entity, Elements(chunk))
      ensures error.Some? && Still(old(b.weather)) && Honest(old(b.faults)) ==>
        (AllReceivable(old(b.world), entity, Filter(entity, g.session), chunk) ==> b.log == old(b.log))
    {
      ghost var start := Snap(b);
      var session := Filter(entity, g.session);
      ChunkIsAccepted(g, chunk);
      var o := ReceiveDeferredBisect(b, entity, session, chunk, first);
      if o.Done? {
        committed := committed + |o.received|;
        alreadyGone := alreadyGone + |o.notFound|;
      }
      ChunkIsPartly(start, Snap(b), entity, g, chunk, o, b.answered - old(b.answered));
      error := if o.Raised? then Some(o.error) else None;
    }

    /** One more chunk of a group of which the first `begin` numbers are done. */
    method NextChunk(b: ServiceBus, entity: Entity, g: Group, nums: seq<int>, begin: nat, end: nat,
                     ghost start: Snapshot)
        returns (error: Option<Error>)
      requires b.Valid() && Ascending(nums) && Elements(nums) == Cover(g.ranges) && begin <= end <= |nums|
      requires end - begin <= ChunkSize(g.maxBody)
      requires ChunksDone(start, Snap(b), entity, g, nums, begin)
      modifies b, this`committed, this`alreadyGone
      ensures b.Valid() && (old(b.faults) == [] && OfOnePartition(g) ==> error.None?)
      ensures Consumed(old(b.faults), b.faults) && (error.Some? ==> Spent(old(b.faults), b.faults, error.value))
      ensures ChunksState(start, Snap(b), entity, g, nums, if error.None? then end else begin, error.None?,
                          |old(b.log)|, nums[begin..end])
    {
      SliceFacts(nums, begin, end);
      ghost var before := Snap(b);
      error := DeleteChunk(b, entity, g, nums[begin..end], begin == 0);
      if error.Some? {
        ChunkFails(start, before, Snap(b), entity, g, nums, begin, end);
      } else {
        ChunkWorks(start, before, Snap(b), entity, g, nums, begin, end);
      }
    }

    /** The chunks of a group, until one fails; `i` of its numbers are done. The chunk that failed began at entry `cut`
      of the log. */
    method DeleteChunks(b: ServiceBus, entity: Entity, g: Group, nums: seq<int>)
        returns (error: Option<Error>, next: int, ghost i: nat, ghost cut: nat, ghost failed: seq<int>)
      requires b.Valid() && Ascending(nums) && Elements(nums) == Cover(g.ranges)
      modifies b, this`committed, this`alreadyGone
      ensures b.Valid() && (old(b.faults) == [] && OfOnePartition(g) ==> error.None?)
      ensures Consumed(old(b.faults), b.faults) && (error.Some? ==> Spent(old(b.faults), b.faults, error.value))
      ensures i <= |nums| && (error.None? ==> i == |nums|) && next == MarkAfter(nums, i)
      ensures ChunksState(old(Snap(b)), Snap(b), entity, g, nums, i, error.None?, cut, failed)
    {
      next, error, cut, failed := 0, None, |b.log|, [];
      ghost var start := Snap(b);
      NoChunks(start, entity, g, nums);
      var begin := 0;
      while begin < |nums| && error.None?
        invariant 0 <= begin <= |nums| && next == MarkAfter(nums, begin)
        invariant b.Valid() && (start.calm && OfOnePartition(g) ==> error.None?)
        invariant Consumed(old(b.faults), b.faults) && (error.Some? ==> Spent(old(b.faults), b.faults, error.value))
        invariant ChunksState(start, Snap(b), entity, g, nums, begin, error.None?, cut, failed)
        decreases |nums| - begin, error.None?
      {
        var end := Min(begin + ChunkSize(g.maxBody), |nums|);
        cut, failed := |b.log|, nums[begin..end];
        error := NextChunk(b, entity, g, nums, begin, end, start);
        if error.None? {
          begin := end;
          next := MarkAfter(nums, begin);
        }
      }
      i := begin;
    }

    /** `_delete_group`. `next` is the progress mark; `done` are the numbers the counters account for. When it fails,
      the tail from the mark on is exactly what is not deleted if and only if the chunk that failed took nothing. */
    method DeleteGroup(b: ServiceBus, entity: Entity, g: Group)
      returns (error: Option<Error>, next: int, ghost done: set<int>, ghost cut: nat, ghost failed: seq<int>)
      requires b.Valid()
      modifies b, this`committed, this`alreadyGone
      ensures b.Valid() && (old(b.faults) == [] && OfOnePartition(g) ==> error.None?)
      ensures Consumed(old(b.faults), b.faults) && (error.Some? ==> Spent(old(b.faults), b.faults, error.value))
      ensures GroupOutcome(old(Snap(b)), Snap(b), entity, g, error.None?, next, done, cut, failed)
    {
      next, cut, failed := 0, |b.log|, [];
      ghost var start := Snap(b);
      var nums := IterRanges(g.ranges);
      ghost var i := 0;
      error := OpenReceiver(b);
      ghost var ready := Snap(b);
      NotOpened(ready, entity, g, nums);
      if error.None? {
        error, next, i, cut, failed := DeleteChunks(b, entity, g, nums);
      }
      done := Elements(nums[..i]);
      GroupEnds(start, ready, Snap(b), entity, g, nums, i, error.None?, next, cut, failed);
    }

    /** What is left of a group from `next` on (src/state.py:85-89). */
    method RestOf(g: Group, next: int, ghost done: set<int>) returns (left: Group, count: nat)
      ensures Rest(g, next, done, left) && count == |Cover(left.ranges)|
    {
      var ranges := TailRanges(g.ranges, next);
      count := CountRanges(ranges);
      left := g.(ranges := ranges);
      assert g in [g];
      if done <= Cover(g.ranges) && AtLeast(Cover(g.ranges), next) == Cover(g.ranges) - done {
        assert Cover(g.ranges) == done + Cover(ranges) && done !! Cover(ranges);
      }
    }

    /** The handling of a failed group (src/commit.py:203-225). */
    method Judge(ghost b: ServiceBus, ghost start: Snapshot, entity: Entity, g: Group, error: Option<Error>, next: int,
                 ghost done: set<int>, ghost cut: nat, ghost failed: seq<int>) returns (v: Verdict)
      requires GroupOutcome(start, Snap(b), entity, g, error.None?, next, done, cut, failed)
      requires start.calm && OfOnePartition(g) ==> error.None?
      requires error == Some(Stale) || error == Some(Mismatch) ==> Snap(b).staleLeft < start.staleLeft
      requires error == Some(SessionHeld) ==> Snap(b).heldLeft < start.heldLeft
      modifies this`carriedForward
      ensures GroupDone(start, Snap(b), entity, configured, g, v) && Follows(v, error, entity == configured)
    {
      ghost var after := Snap(b);
      if error.None? {
        GroupIsDeleted(start, after, entity, configured, g);
        v := Deleted;
      } else if error.value.Transient? || error.value.Other? || (!error.value.SessionHeld? && entity == configured) {
        v := Aborted(error.value);
      } else {
        v := LeaveRest(b, start, entity, g, error.value.SessionHeld?, next, done);
      }
    }

    /** What is left of a group is carried when its session is held, and reported when its entity is stale. */
    method LeaveRest(ghost b: ServiceBus, ghost start: Snapshot, entity: Entity, g: Group, held: bool, next: int,
                     ghost done: set<int>)
        returns (v: Verdict)
      requires Partly(start, Snap(b), false, entity, g, done) && !(start.calm && OfOnePartition(g))
      requires if held then Snap(b).heldLeft < start.heldLeft
               else entity != configured && Snap(b).staleLeft < start.staleLeft
      requires NonNegative(Cover(g.ranges)) ==> AtLeast(Cover(g.ranges), next) == Cover(g.ranges) - done
      modifies this`carriedForward
      ensures GroupDone(start, Snap(b), entity, configured, g, v) && if held then v.Carried? else v.Dropped?
    {
      ghost var after := Snap(b);
      var left, count := RestOf(g, next, done);
      v := if held then Carried(left) else Dropped(count);
      carriedForward := carriedForward + if held then count else 0;
      GroupIsLeft(start, after, Snap(b), entity, configured, g, next, done, left, v);
    }

    /** One group (src/commit.py:199-225). */
    method CommitGroup(b: ServiceBus, entity: Entity, g: Group) returns (v: Verdict, error: Option<Error>)
      requires b.Valid()
      modifies b, this`committed, this`alreadyGone, this`carriedForward
      ensures b.Valid() && GroupDone(old(Snap(b)), Snap(b), entity, configured, g, v)
      ensures Consumed(old(b.faults), b.faults) && (error.Some? ==> Spent(old(b.faults), b.faults, error.value))
      ensures Follows(v, error, entity == configured)
    {
      ghost var start := Snap(b);
      var next;
      ghost var done, cut, failed;
      error, next, done, cut, failed := DeleteGroup(b, entity, g);
      v := Judge(b, start, entity, g, error, next, done, cut, failed);
    }

    /** The numbers of a stale entity from group `i` on are reported, not deleted (src/commit.py:214-215). */
    method DropStale(groups: seq<Group>, i: nat, count: nat)
      requires i < |groups|
      modifies this`droppedStale
      ensures Total() + GroupsTotal(groups[..i + 1]) == old(Total()) + count + GroupsTotal(groups)
    {
      SplitGroups(groups, i + 1);
      var later := CountGroups(groups[i + 1..]);
      droppedStale := droppedStale + count + later;
    }

    /** One group of an entity, and the end of the entity when it fails the run or turns out stale
      (src/commit.py:199-232). */
    method NextGroup(b: ServiceBus, p: PendingEntity, groups: seq<Group>, i: nat, carried: seq<Group>,
                     ghost start: Snapshot)
        returns (carried': seq<Group>, end: Option<EntityResult>)
      requires b.Valid() && i < |groups| && groups[i] in p.groups && GroupsTotal(groups) == GroupsTotal(p.groups)
      requires EntitySoFar(start, Snap(b), p, groups[..i], carried)
      modifies b, this
      ensures b.Valid() && (end.None? ==> EntitySoFar(start, Snap(b), p, groups[..i + 1], carried'))
      ensures FailsFor(old(b.faults), b.faults, end)
      ensures end.Some? ==> EntityDone(start, Snap(b), p, configured, end.value)
    {
      ghost var before := Snap(b);
      var v, _ := CommitGroup(b, p.entity, groups[i]);
      ghost var after := Snap(b);
      carried', end := carried + LeftBy(v), None;
      if v.Aborted? {
        EntityFails(start, before, after, p, configured, groups[..i], groups[i], v, carried);
        end := Some(EntityFailed(v.error));
      } else if v.Dropped? {
        DropStale(groups, i, v.count);
        EntityDrops(start, before, after, Snap(b), p, configured, groups, i, v, carried);
        end := Some(Leftover(carried, true));
      } else {
        EntityGoesOn(start, before, after, p, configured, groups[..i], groups[i], v, carried);
        TakeSnoc(groups, i);
      }
    }

    /** `_commit_entity`: all groups of one stored entity. */
    method CommitEntity(b: ServiceBus, p: PendingEntity) returns (r: EntityResult)
      requires b.Valid()
      modifies b, this
      ensures b.Valid() && EntityDone(old(Snap(b)), Snap(b), p, configured, r)
      ensures Consumed(old(b.faults), b.faults) && (r.EntityFailed? ==> FailedWith(old(b.faults), b.faults, r.error))
    {
      var groups := WithRanges(p.groups);
      var carried, i := [], 0;
      var end: Option<EntityResult> := None;
      ghost var start := Snap(b);
      EntityStarts(start, p);
      while i < |groups| && end.None?
        invariant i <= |groups| && b.Valid() && FailsFor(old(b.faults), b.faults, end)
        invariant end.None? ==> EntitySoFar(start, Snap(b), p, groups[..i], carried)
        invariant end.Some? ==> EntityDone(start, Snap(b), p, configured, end.value)
        decreases |groups| - i
      {
        ghost var faults := b.faults;
        carried, end := NextGroup(b, p, groups, i, carried, start);
        FailsForLater(old(b.faults), faults, b.faults, end);
        i := i + 1;
      }
      if end.None? {
        TakeAll(groups);
        EntityEnds(start, Snap(b), p, configured, groups, carried);
        end := Some(Leftover(carried, false));
      }
      r := end.value;
    }

    /** `commit`: the counters grow by exactly what was stored; every stored number is carried, or could not be received
      at some moment, or is on an entity reported as stale; what is counted as carried is carried, and when nobody else
      acts what is counted as committed left the broker. */
    method Commit(b: ServiceBus, pending: seq<PendingEntity>) returns (r: Result)
      requires b.Valid()
      modifies b, this
      ensures b.Valid() && WithinStored(old(b.log), b.log, old(b.calls), b.calls, pending)
      ensures old(b.faults) == [] && AllOfOnePartition(pending) ==> r == Ok([], {})
      ensures Consumed(old(b.faults), b.faults) && (r.Failure? ==> FailedWith(old(b.faults), b.faults, r.error))
      ensures r.Ok? ==> LeftOfStored(r.carried, pending) && configured !in r.stale
      ensures r.Ok? ==>
        && r.stale <= StoredEntities(pending) && |r.stale| <= StaleLeft(old(b.faults)) - StaleLeft(b.faults)
        && GroupCount(r.carried) <= Left(old(b.faults), SessionHeld) - Left(b.faults, SessionHeld)
      ensures r.Ok? ==>
        Balanced(old(Snap(b)), Snap(b), StoredTotal(r.carried), r == Ok([], {}) && Honest(old(b.faults)), r.stale != {})
      ensures r.Ok? && EntitiesNonNegative(pending) ==>
        && Total() == old(Total()) + StoredTotal(pending)
        && EntitiesHandled(old(Snap(b)), Snap(b), pending, r.carried, r.stale)
    {
      var carried, stale := [], {};
      ghost var start := Snap(b);
      for i := 0 to |pending|
        invariant b.Valid() && configured !in stale && Consumed(old(b.faults), b.faults)
        invariant CommitSoFar(start, Snap(b), pending, pending[..i], carried, stale)
      {
        TakeSnoc(pending, i);
        GroupsOfOne(pending, pending[i]);
        ghost var before, stale1 := Snap(b), stale;
        var left := CommitEntity(b, pending[i]);
        if left.EntityFailed? {
          CommitWithin(start, before, Snap(b), pending, pending[i]);
          return Failure(left.error);
        }
        stale := if left.stale then stale + {pending[i].entity} else stale;
        CommitGoesOn(start, before, Snap(b), pending, pending[..i], pending[i], configured, left, carried, stale1,
                     stale);
        carried := carried + LeftEntity(pending[i].entity, left.carried);
      }
      TakeAll(pending);
      r := Ok(carried, stale);
    }
  }

  lemma GroupIsDeleted(s: Snapshot, s': Snapshot, entity: Entity, configured: Entity, g: Group)
    requires Partly(s, s', s.honest, entity, g, Cover(g.ranges))
    ensures GroupDone(s, s', entity, configured, g, Deleted)
  {
  }

  lemma GroupIsLeft(s: Snapshot, s1: Snapshot, s2: Snapshot, entity: Entity, configured: Entity, g: Group, next: int,
                    done: set<int>, left: Group, v: Verdict)
    requires Partly(s, s1, false, entity, g, done) && Rest(g, next, done, left) && !(s.calm && OfOnePartition(g))
    requires NonNegative(Cover(g.ranges)) ==> AtLeast(Cover(g.ranges), next) == Cover(g.ranges) - done
    requires (v == Carried(left) && s1.heldLeft < s.heldLeft)
      || (v == Dropped(|Cover(left.ranges)|) && entity != configured && s1.staleLeft < s.staleLeft)
    requires var n := if v.Carried? then |Cover(left.ranges)| else 0;
             s2 == s1.(books := s1.books.(carriedForward := s1.books.carriedForward + n), total := s1.total + n)
    ensures GroupDone(s, s2, entity, configured, g, v)
  {
    if NonNegative(Cover(g.ranges)) {
      RestIsHandled(s, s1, false, entity, g, done, left);
    }
  }

  /** When nobody else acts, `EntityHandled` means that everything a receive could still return is carried. */
  lemma HandledMeansKept(s: Snapshot, s': Snapshot, pending: seq<PendingEntity>, p: PendingEntity, j: nat, n: int,
                         carried: seq<PendingEntity>)
    requires EntityHandled(s, s', p, carried) && WithinStored(s.log, s'.log, s.calls, s'.calls, pending)
    requires forall i :: |s.log| <= i < |s'.log| ==> !Environment(s'.log[i])
    requires j < |p.groups| && n in Cover(p.groups[j].ranges)
    requires Receivable(Replay(s.origin, s'.log), p.entity, Filter(p.entity, p.groups[j].session), n)
    ensures Stores(carried, KeyOf(p.entity, p.groups[j]), n)
  {
    var session := Filter(p.entity, p.groups[j].session);
    if GoneAt(s.origin, s'.log, |s.log|, p.entity, session, n) {
      var t := MomentGone(s.origin, s'.log, |s.log|, p.entity, session, n);
      forall i | t <= i < |s'.log| ensures s'.log[i].Taken? {
        assert TakesStored(s'.log[i], pending);
      }
      GoneStaysGone(s.origin, s'.log, t, p.entity, session, n);
      assert false;
    }
  }

  // ---------------------------------------------------------------- two concrete inputs

  /** A deferred message 7 that another receiver has locked is reported as gone, and stays on the broker. */
  lemma LockedIsReportedGone(entity: Entity, w: World)
    requires w == World(map[Id(entity, 7) := Record(None, true, true)], {}, {}, map[])
    ensures BisectNet(Net(w, []), false, entity, None, [7], false) == Bisection(Done([], [7]), Net(w, []))
    ensures Id(entity, 7) in w.store
  {
    assert !Receivable(w, entity, None, [7][0]);
    assert CallNet(Net(w, []), false, entity, None, [7]) == Replied(NotFound, Net(w, []));
  }

  /** A chunk of 1 and 2, of which 2 is locked: the left half is received, then the right half is refused four times.
    The chunk fails, its tail from 0 on still holds 1, and 1 is deleted. */
  lemma TailCanHoldDeleted(entity: Entity, w: World, faults: seq<Fault>, r: Bisection)
    requires w ==
      World(map[Id(entity, 1) := Record(None, true, false), Id(entity, 2) := Record(None, true, true)], {}, {}, map[])
    requires faults == [Clean, Clean, Refused(Transient), Refused(Transient), Refused(Transient), Refused(Transient)]
    requires r == BisectNet(Net(w, faults), false, entity, None, [1, 2], false)
    ensures r.outcome == Raised(Transient) && 1 in AtLeast({1, 2}, 0) && Id(entity, 1) in w.store
    ensures Id(entity, 1) !in r.net.world.store
  {
    var w1 := Without(w, entity, {1});
    var later := [Refused(Transient), Refused(Transient), Refused(Transient), Refused(Transient)];
    assert faults[1..][1..] == later;
    WholeIsNotFound(entity, w, faults);
    LeftIsReceived(entity, w, faults[1..], later);
    assert [1, 2][..1] == [1] && [1, 2][1..] == [2];
    RefusedToTheEnd(w1, entity, later, 4);
  }

  lemma WholeIsNotFound(entity: Entity, w: World, faults: seq<Fault>)
    requires Id(entity, 2) in w.store && w.store[Id(entity, 2)].locked && faults != [] && faults[0] == Clean
    ensures CallNet(Net(w, faults), false, entity, None, [1, 2]) == Replied(NotFound, Net(w, faults[1..]))
  {
    assert !Receivable(w, entity, None, [1, 2][1]);
  }

  lemma LeftIsReceived(entity: Entity, w: World, faults: seq<Fault>, later: seq<Fault>)
    requires Receivable(w, entity, None, 1) && faults != [] && faults[0] == Clean && faults[1..] == later
    ensures CallNet(Net(w, faults), false, entity, None, [1]) ==
      Replied(Received(SortedDistinct([1])), Net(Without(w, entity, {1}), later))
  {
    assert (set x | x in [1]) == {1};
  }

  lemma {:induction false} RefusedToTheEnd(w: World, entity: Entity, faults: seq<Fault>, tries: nat)
    requires |faults| == tries >= 1 && forall i :: 0 <= i < tries ==> faults[i] == Refused(Transient)
    ensures RetryNet(Net(w, faults), false, entity, None, [2], false, tries) == Replied(Failed(Transient), Net(w, []))
  {
    assert CallNet(Net(w, faults), false, entity, None, [2]) == Replied(Failed(Transient), Net(w, faults[1..]));
    if tries > 1 {
      RefusedToTheEnd(w, entity, faults[1..], tries - 1);
    } else {
      assert faults[1..] == [];
    }
  }

  // ---------------------------------------------------------------- the calls fit the broker

  /** A call the broker can answer: numbers of one partition, and more than one only when their recorded bodies together
    fit 16 MiB. */
  ghost predicate CallFits(c: Call, size: Id -> int) {
    && 1 <= |c.nums| <= COMMIT_MAX_COUNT && OnePartition(c.nums)
    && (|c.nums| == 1 || TotalBytes(c.nums, n => size(Id(c.entity, n))) <= COMMIT_MAX_BYTES)
  }

  /** Whatever stored set the recorded sizes fit, every call made for it fits the broker. */
  lemma StoredCallsFit(c: Call, pending: seq<PendingEntity>, size: Id -> int)
    requires LawfulForStored(c, pending) && FitsPending(pending, size) && AllOfOnePartition(pending)
    ensures CallFits(c, size)
  {
    var p, g :| p in pending && g in p.groups && LawfulCall(c, p.entity, g);
    assert OfOnePartition(g) && FitsGroup(p.entity, g, size);
    AllElements(c.nums);
    forall i | 0 <= i < |c.nums| ensures size(Id(c.entity, c.nums[i])) <= g.maxBody {
      assert c.nums[i] in Cover(g.ranges);
    }
    ChunkBytes(c.nums, n => size(Id(c.entity, n)), g.maxBody);
  }

  lemma TakeGroup(groups: seq<Group>, i: nat)
    requires i < |groups|
    ensures groups[..i + 1] == groups[..i] + [groups[i]]
    ensures GroupsTotal(groups[..i + 1]) == GroupsTotal(groups[..i]) + |Cover(groups[i].ranges)|
  {
  }

  lemma SplitGroups(groups: seq<Group>, i: nat)
    requires i <= |groups|
    ensures GroupsTotal(groups) == GroupsTotal(groups[..i]) + GroupsTotal(groups[i..])
  {
    assert groups == groups[..i] + groups[i..];
    GroupsTotalConcat(groups[..i], groups[i..]);
  }

  lemma SliceFacts(nums: seq<int>, i: nat, end: nat)
    requires Ascending(nums) && i <= end <= |nums|
    ensures Ascending(nums[i..end]) && Elements(nums[i..end]) <= Elements(nums)
    ensures Elements(nums[..i]) !! Elements(nums[i..end])
    ensures Elements(nums[..end]) == Elements(nums[..i]) + Elements(nums[i..end])
  {
  }
}
