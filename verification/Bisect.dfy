/** The bisecting deferred receive (src/commit.py:81-126). */
module Bisect {
  import opened Ranges
  import opened Broker

  /** `w` with some of the numbers `nums` of `entity` removed, and nothing else changed. */
  ghost predicate Shrunk(w: World, w': World, entity: Entity, nums: set<int>) {
    && w'.dead == w.dead && w'.expired == w.expired
    && (forall id :: id in w'.store ==> id in w.store && w'.store[id] == w.store[id])
    && (forall id :: id in w.store && id !in w'.store ==> id.entity == entity && id.num in nums)
  }

  /** The log grew, and every new entry takes some of the numbers `nums` of `entity`, or is none of the extractor's
    doing. */
  ghost predicate TookOnly(before: seq<Effect>, log: seq<Effect>, entity: Entity, nums: set<int>) {
    && before <= log
    && forall i :: |before| <= i < |log| ==> Environment(log[i]) || TakesSome(log[i], entity, nums)
  }

  ghost predicate TakesSome(e: Effect, entity: Entity, nums: set<int>) {
    e.Taken? && e.entity == entity && e.nums <= nums && e.nums != {}
  }

  lemma TookTwice(log: seq<Effect>, log1: seq<Effect>, log2: seq<Effect>, entity: Entity, a: set<int>, b: set<int>,
                  all: set<int>)
    requires TookOnly(log, log1, entity, a) && TookOnly(log1, log2, entity, b) && a <= all && b <= all
    ensures TookOnly(log, log2, entity, all)
  {
    assert forall i :: 0 <= i < |log1| ==> log2[i] == log1[i];
  }

  ghost predicate SubCall(c: Call, entity: Entity, session: Option<string>, nums: seq<int>) {
    && c.entity == entity && c.session == session
    && 1 <= |c.nums| <= |nums| && Elements(c.nums) <= Elements(nums)
    && (Ascending(nums) ==> Ascending(c.nums))
  }

  /** The calls grew, and every new call asks for some of `nums`. */
  ghost predicate AskedOnly(before: seq<Call>, calls: seq<Call>, entity: Entity, session: Option<string>,
                            nums: seq<int>) {
    && before <= calls
    && forall i :: |before| <= i < |calls| ==> SubCall(calls[i], entity, session, nums)
  }

  ghost function Missing(w: World, entity: Entity, session: Option<string>, nums: set<int>): set<int> {
    set n | n in nums && !Receivable(w, entity, session, n)
  }

  /** The smallest power of two at or above `n` is 2 to the `CeilLog2(n)`. */
  function CeilLog2(n: nat): nat {
    if n <= 1 then 0 else 1 + CeilLog2((n + 1) / 2)
  }

  function Power2(k: nat): nat {
    if k == 0 then 1 else 2 * Power2(k - 1)
  }

  lemma {:induction false} CeilLog2IsTheLogarithm(n: nat)
    requires n >= 1
    ensures n <= Power2(CeilLog2(n)) && (n >= 2 ==> Power2(CeilLog2(n) - 1) < n)
  {
    if n >= 2 {
      CeilLog2IsTheLogarithm((n + 1) / 2);
      if n == 2 {
        assert CeilLog2(1) == 0;
      }
    }
  }

  lemma {:induction false} CeilLog2Monotone(m: nat, n: nat)
    requires m <= n
    ensures CeilLog2(m) <= CeilLog2(n)
  {
    if m > 1 {
      CeilLog2Monotone((m + 1) / 2, (n + 1) / 2);
    }
  }

  /** Calls allowed for `n` numbers of which `missing` are not there. */
  function CallBound(missing: nat, n: nat): nat {
    1 + 2 * (missing * CeilLog2(n))
  }

  lemma CallBoundStep(k1: nat, n1: nat, k2: nat, n2: nat)
    requires k1 + k2 >= 1 && n1 == (n1 + n2) / 2 && n1 >= 1
    ensures 1 + CallBound(k1, n1) + CallBound(k2, n2) <= CallBound(k1 + k2, n1 + n2)
  {
    var l := CeilLog2(n2);
    assert n2 == (n1 + n2 + 1) / 2;
    CeilLog2Monotone(n1, n2);
    assert CeilLog2(n1 + n2) == 1 + l;
    Product(k1, CeilLog2(n1), l);
    assert (k1 + k2) * (1 + l) == k1 + k2 + k1 * l + k2 * l;
  }

  lemma Product(k: nat, a: nat, b: nat)
    requires a <= b
    ensures k * a <= k * b
  {
  }

  lemma WithoutIsShrunk(w: World, entity: Entity, nums: set<int>)
    ensures Shrunk(w, Without(w, entity, nums), entity, nums)
  {
  }

  lemma ShrunkTwice(w: World, w1: World, w2: World, entity: Entity, a: set<int>, b: set<int>)
    requires Shrunk(w, w1, entity, a) && Shrunk(w1, w2, entity, b)
    ensures Shrunk(w, w2, entity, a + b)
  {
  }

  /** Shrinking makes nothing receivable, and leaves the numbers it may not remove as they were. */
  lemma ShrunkReceivable(w: World, w': World, entity: Entity, nums: set<int>, other: Entity, session: Option<string>,
                         n: int)
    requires Shrunk(w, w', entity, nums)
    ensures Receivable(w', other, session, n) ==> Receivable(w, other, session, n)
    ensures other != entity || n !in nums ==> (Receivable(w', other, session, n) <==> Receivable(w, other, session, n))
  {
  }

  lemma WithoutTwice(w: World, entity: Entity, a: set<int>, b: set<int>)
    ensures Without(Without(w, entity, a), entity, b) == Without(w, entity, a + b)
  {
  }

  /** One or several calls for the same numbers that were not answered. */
  ghost predicate Unanswered(w: World, w': World, honest: bool, entity: Entity, nums: set<int>) {
    w' == w || (!honest && w' == Without(w, entity, nums))
  }

  /** After unanswered calls the numbers are either all still as they were or all deleted. */
  lemma UnansweredThen(w: World, w1: World, w2: World, honest: bool, entity: Entity, session: Option<string>,
                       nums: seq<int>)
    requires nums != [] && Unanswered(w, w1, honest, entity, Elements(nums))
    ensures Unanswered(w1, w2, honest, entity, Elements(nums)) ==> Unanswered(w, w2, honest, entity, Elements(nums))
    ensures AllReceivable(w1, entity, session, nums) ==> w1 == w
  {
  }

  /** Nobody else acts. */
  ghost predicate Still(weather: seq<seq<Effect>>) {
    weather == []
  }

  /** A broker nobody else uses: its state and the faults ahead. */
  datatype Net = Net(world: World, faults: seq<Fault>)

  datatype Replied = Replied(reply: Reply, net: Net)

  function CallNet(net: Net, partitioned: bool, entity: Entity, session: Option<string>, nums: seq<int>): Replied {
    var taken := Takes(FirstFault(net.faults), partitioned, net.world, entity, session, nums);
    Replied(Asked(FirstFault(net.faults), partitioned, net.world, entity, session, nums),
            Net(if taken then Without(net.world, entity, set x | x in nums) else net.world, LaterFaults(net.faults)))
  }

  predicate Retryable(reply: Reply, sessionToo: bool) {
    reply.Failed? && (reply.error.Transient? || (sessionToo && reply.error.SessionHeld?))
  }

  /** At most `tries` calls. */
  function RetryNet(net: Net, partitioned: bool, entity: Entity, session: Option<string>, nums: seq<int>,
                    sessionToo: bool, tries: nat): Replied
    decreases tries
  {
    var first := CallNet(net, partitioned, entity, session, nums);
    if tries <= 1 || !Retryable(first.reply, sessionToo) then first
    else RetryNet(first.net, partitioned, entity, session, nums, sessionToo, tries - 1)
  }

  predicate SameRetry(net: Net, tries: nat, net': Net, tries': nat, partitioned: bool, entity: Entity,
                      session: Option<string>, nums: seq<int>, sessionToo: bool) {
    RetryNet(net, partitioned, entity, session, nums, sessionToo, tries)
    == RetryNet(net', partitioned, entity, session, nums, sessionToo, tries')
  }

  /** What one answered or failed attempt leaves, whatever else happens at the broker: received numbers, and a single
    missing one, could not be returned at some moment since. */
  ghost predicate Told(reply: Reply, origin: World, log: seq<Effect>, log': seq<Effect>, entity: Entity,
                       session: Option<string>, nums: seq<int>) {
    && TookOnly(log, log', entity, Elements(nums))
    && (reply.Received? || (reply.NotFound? && |nums| == 1) ==>
          AllGone(origin, log', |log|, entity, session, Elements(nums)))
    && (reply.Received? ==> Ascending(reply.nums) && Elements(reply.nums) == Elements(nums))
    && (reply.NotFound? ==> !AllReceivable(Replay(origin, log'), entity, session, nums))
  }

  /** What it leaves at a broker nobody else uses. */
  ghost predicate ToldStill(reply: Reply, w: World, w': World, honest: bool, entity: Entity, session: Option<string>,
                            nums: seq<int>) {
    && (reply.Received? ==> AllReceivable(w, entity, session, nums) && w' == Without(w, entity, Elements(nums)))
    && (!reply.Received? ==> Unanswered(w, w', honest, entity, Elements(nums)))
    && (reply.NotFound? ==> !AllReceivable(w', entity, session, nums))
  }

  lemma AnswerTells(reply: Reply, fault: Fault, partitioned: bool, origin: World, log: seq<Effect>, at: nat,
                    log': seq<Effect>, entity: Entity, session: Option<string>, nums: seq<int>)
    requires nums != [] && at <= |log'| && OnlyEnvironment(log, log'[..at])
    requires Answer(reply, fault, partitioned, Replay(origin, log'[..at]), entity, session, nums, log'[at..])
    ensures Told(reply, origin, log, log', entity, session, nums)
  {
    var w := Replay(origin, log'[..at]);
    AnswerMeans(reply, fault, partitioned, w, entity, session, nums, log'[at..]);
    assert nums[0] in Elements(nums);
    assert log' == log'[..at] + log'[at..];
    forall i | |log| <= i < |log'| ensures Environment(log'[i]) || TakesSome(log'[i], entity, Elements(nums)) {
      if i < at {
        assert log'[i] == log'[..at][i];
      } else {
        assert log'[i] == log'[at..][i - at];
      }
    }
    if reply.Received? {
      ReplaySnoc(origin, log'[..at], Taken(entity, Elements(nums)));
      forall n | n in Elements(nums) ensures GoneAt(origin, log', |log|, entity, session, n) {
        assert !Receivable(Replay(origin, log'), entity, session, n);
      }
    } else if reply.NotFound? {
      assert log' == log'[..at];
    }
    if reply.NotFound? && |nums| == 1 {
      forall n | n in Elements(nums) ensures GoneAt(origin, log', |log|, entity, session, n) {
        assert n == nums[0] && !Receivable(w, entity, session, n);
      }
    }
  }

  lemma AnswerTellsStill(reply: Reply, fault: Fault, partitioned: bool, w: World, w': World, after: seq<Effect>,
                         honest: bool, entity: Entity, session: Option<string>, nums: seq<int>)
    requires Answer(reply, fault, partitioned, w, entity, session, nums, after) && (honest ==> !fault.ReplyLost?)
    requires w' == if after == [] then w else Apply(w, after[0])
    ensures ToldStill(reply, w, w', honest, entity, session, nums)
    ensures w' == if Takes(fault, partitioned, w, entity, session, nums) then Without(w, entity, set x | x in nums)
                  else w
  {
    AnswerMeans(reply, fault, partitioned, w, entity, session, nums, after);
  }

  ghost function NetOf(b: ServiceBus): Net
    reads b
  {
    Net(b.world, b.faults)
  }

  /** One call, described as the retry loop needs it. */
  method CallOnce(b: ServiceBus, entity: Entity, session: Option<string>, nums: seq<int>) returns (reply: Reply)
    requires b.Valid() && nums != []
    modifies b
    ensures b.Valid() && Consumed(old(b.faults), b.faults) && (Still(old(b.weather)) ==> Still(b.weather))
    ensures old(b.faults) == [] ==> b.faults == [] && (Accepted(nums) ==> !reply.Failed?)
    ensures b.answered == old(b.answered) + if reply.Failed? then 0 else 1
    ensures reply.Failed? ==> Spent(old(b.faults), b.faults, reply.error)
    ensures AskedOnly(old(b.calls), b.calls, entity, session, nums) && |b.calls| == |old(b.calls)| + 1
    ensures Told(reply, b.origin, old(b.log), b.log, entity, session, nums)
    ensures Still(old(b.weather)) ==>
      ToldStill(reply, old(b.world), b.world, Honest(old(b.faults)), entity, session, nums)
    ensures Still(old(b.weather)) ==>
      Replied(reply, NetOf(b)) == CallNet(old(NetOf(b)), entity in b.partitioned, entity, session, nums)
    ensures Still(old(b.weather)) && reply.Failed? && Honest(old(b.faults)) ==> b.log == old(b.log)
  {
    ghost var log, fault := b.log, FirstFault(b.faults);
    ghost var at;
    reply, at := b.ReceiveDeferred(entity, session, nums);
    AnswerTells(reply, fault, entity in b.partitioned, b.origin, log, at, b.log, entity, session, nums);
    if Still(old(b.weather)) {
      AfterTheLog(b.origin, log, b.log, at, reply, fault, entity in b.partitioned, entity, session, nums);
      AnswerTellsStill(reply, fault, entity in b.partitioned, old(b.world), b.world, b.log[at..], Honest(old(b.faults)),
                       entity, session, nums);
    }
  }

  lemma AfterTheLog(origin: World, log: seq<Effect>, log': seq<Effect>, at: nat, reply: Reply, fault: Fault,
                    partitioned: bool, entity: Entity, session: Option<string>, nums: seq<int>)
    requires at == |log| <= |log'| && log <= log'
    requires Answer(reply, fault, partitioned, Replay(origin, log'[..at]), entity, session, nums, log'[at..])
    ensures log'[..at] == log && (log'[at..] == [] ==> log' == log)
    ensures Replay(origin, log') == if log'[at..] == [] then Replay(origin, log)
                                    else Apply(Replay(origin, log), log'[at..][0])
  {
    assert log' == log + log'[at..];
    if log'[at..] != [] {
      ReplaySnoc(origin, log, log'[at..][0]);
      assert log' == log + [log'[at..][0]];
    }
  }

  /** `with_transient_retry` around one deferred receive: at most four calls. */
  method ReceiveWithRetry(b: ServiceBus, entity: Entity, session: Option<string>, nums: seq<int>, sessionToo: bool)
    returns (reply: Reply)
    requires b.Valid() && nums != []
    modifies b
    ensures b.Valid() && Consumed(old(b.faults), b.faults) && (Still(old(b.weather)) ==> Still(b.weather))
    ensures old(b.faults) == [] ==> b.faults == [] && (Accepted(nums) ==> !reply.Failed?)
    ensures b.answered == old(b.answered) + if reply.Failed? then 0 else 1
    ensures reply.Failed? ==> Spent(old(b.faults), b.faults, reply.error)
    ensures AskedOnly(old(b.calls), b.calls, entity, session, nums) && |b.calls| <= |old(b.calls)| + 4
    ensures Told(reply, b.origin, old(b.log), b.log, entity, session, nums)
    ensures Still(old(b.weather)) ==>
      ToldStill(reply, old(b.world), b.world, Honest(old(b.faults)), entity, session, nums)
    ensures Still(old(b.weather)) ==>
      Replied(reply, NetOf(b)) == RetryNet(old(NetOf(b)), entity in b.partitioned, entity, session, nums, sessionToo, 4)
    ensures Still(old(b.weather)) && reply.Failed? && Honest(old(b.faults)) ==> b.log == old(b.log)
  {
    ghost var w, honest, still, start := b.world, Honest(b.faults), Still(b.weather), NetOf(b);
    for attempt := 0 to 3
      invariant b.Valid() && Consumed(old(b.faults), b.faults) && (still ==> Still(b.weather))
      invariant old(b.faults) == [] ==> b.faults == [] && (Accepted(nums) ==> attempt == 0)
      invariant b.answered == old(b.answered) && |b.calls| == |old(b.calls)| + attempt
      invariant TookOnly(old(b.log), b.log, entity, Elements(nums))
      invariant AskedOnly(old(b.calls), b.calls, entity, session, nums)
      invariant still ==> Unanswered(w, b.world, honest, entity, Elements(nums)) && (honest ==> b.log == old(b.log))
      invariant still ==>
        SameRetry(start, 4, NetOf(b), 4 - attempt, entity in b.partitioned, entity, session, nums, sessionToo)
    {
      ghost var w1, log1 := b.world, b.log;
      reply := CallOnce(b, entity, session, nums);
      ToldLater(reply, b.origin, old(b.log), log1, b.log, entity, session, nums);
      if still {
        UnansweredThen(w, w1, b.world, honest, entity, session, nums);
      }
      if !Retryable(reply, sessionToo) {
        return;
      }
    }
    ghost var w1, log1 := b.world, b.log;
    reply := CallOnce(b, entity, session, nums);
    ToldLater(reply, b.origin, old(b.log), log1, b.log, entity, session, nums);
    if still {
      UnansweredThen(w, w1, b.world, honest, entity, session, nums);
    }
  }

  lemma ToldLater(reply: Reply, origin: World, log: seq<Effect>, log1: seq<Effect>, log2: seq<Effect>, entity: Entity,
                  session: Option<string>, nums: seq<int>)
    requires TookOnly(log, log1, entity, Elements(nums)) && Told(reply, origin, log1, log2, entity, session, nums)
    ensures Told(reply, origin, log, log2, entity, session, nums)
  {
    TookTwice(log, log1, log2, entity, Elements(nums), Elements(nums), Elements(nums));
    if reply.Received? || (reply.NotFound? && |nums| == 1) {
      GoneLater(origin, log2, log2, |log1|, |log|, entity, session, Elements(nums));
    }
  }

  datatype Outcome = Done(received: seq<int>, notFound: seq<int>) | Raised(error: Error)

  /** What a finished bisection reports: every number once, as received or as not found. */
  ghost predicate Accounts(o: Outcome, nums: seq<int>)
    requires o.Done?
  {
    && Elements(o.received) + Elements(o.notFound) == Elements(nums)
    && Elements(o.received) !! Elements(o.notFound)
    && |o.received| + |o.notFound| == |nums|
  }

  /** With no reply lost, the received numbers are the receivable ones, and they and only they are deleted. */
  ghost predicate Exact(o: Outcome, nums: seq<int>, w: World, w': World, entity: Entity, session: Option<string>)
    requires o.Done?
  {
    && (forall n :: n in Elements(nums) ==> (n in Elements(o.received) <==> Receivable(w, entity, session, n)))
    && w' == Without(w, entity, Elements(o.received))
  }

  /** What holds whatever replies were lost: nothing asked for is receivable any more, and only receivable
    numbers are reported as received. */
  ghost predicate Cleared(o: Outcome, nums: seq<int>, w: World, w': World, entity: Entity, session: Option<string>)
    requires o.Done?
  {
    && (forall n :: n in Elements(o.received) ==> Receivable(w, entity, session, n))
    && (forall n :: n in Elements(nums) ==> !Receivable(w', entity, session, n))
  }

  function Joined(left: Outcome, right: Outcome): Outcome
    requires left.Done? && right.Done?
  {
    Done(left.received + right.received, left.notFound + right.notFound)
  }

  lemma Halves(nums: seq<int>, middle: nat)
    requires Distinct(nums) && middle <= |nums|
    ensures Distinct(nums[..middle]) && Distinct(nums[middle..])
    ensures Elements(nums) == Elements(nums[..middle]) + Elements(nums[middle..])
    ensures Elements(nums[..middle]) !! Elements(nums[middle..])
    ensures Ascending(nums) ==> Ascending(nums[..middle]) && Ascending(nums[middle..])
  {
  }

  lemma JoinedAccounts(nums: seq<int>, middle: nat, left: Outcome, right: Outcome)
    requires Distinct(nums) && middle <= |nums| && left.Done? && right.Done?
    requires Accounts(left, nums[..middle]) && Accounts(right, nums[middle..])
    ensures Accounts(Joined(left, right), nums)
  {
    Halves(nums, middle);
    ElementsConcat(left.received, right.received);
    ElementsConcat(left.notFound, right.notFound);
  }

  lemma JoinedCleared(nums: seq<int>, middle: nat, left: Outcome, right: Outcome,
                      w: World, w1: World, w2: World, entity: Entity, session: Option<string>)
    requires Distinct(nums) && middle <= |nums| && left.Done? && right.Done?
    requires Cleared(left, nums[..middle], w, w1, entity, session)
    requires Cleared(right, nums[middle..], w1, w2, entity, session)
    requires Shrunk(w, w1, entity, Elements(nums[..middle])) && Shrunk(w1, w2, entity, Elements(nums[middle..]))
    ensures Cleared(Joined(left, right), nums, w, w2, entity, session)
  {
    Halves(nums, middle);
    ElementsConcat(left.received, right.received);
    forall n ensures Receivable(w2, entity, session, n) ==> Receivable(w1, entity, session, n)
             ensures Receivable(w1, entity, session, n) ==> Receivable(w, entity, session, n)
    {
      ShrunkReceivable(w, w1, entity, Elements(nums[..middle]), entity, session, n);
      ShrunkReceivable(w1, w2, entity, Elements(nums[middle..]), entity, session, n);
    }
  }

  /** Deleting numbers of the left half changes nothing about the right half. */
  lemma OtherHalfUntouched(w: World, entity: Entity, session: Option<string>, deleted: set<int>, other: set<int>)
    requires deleted !! other
    ensures forall n :: n in other ==>
      (Receivable(Without(w, entity, deleted), entity, session, n) <==> Receivable(w, entity, session, n))
    ensures Missing(Without(w, entity, deleted), entity, session, other) == Missing(w, entity, session, other)
  {
  }

  lemma MissingSplits(w: World, entity: Entity, session: Option<string>, a: set<int>, b: set<int>)
    requires a !! b
    ensures |Missing(w, entity, session, a + b)| == |Missing(w, entity, session, a)| + |Missing(w, entity, session, b)|
  {
    assert Missing(w, entity, session, a + b) == Missing(w, entity, session, a) + Missing(w, entity, session, b);
  }

  lemma JoinedExact(nums: seq<int>, middle: nat, left: Outcome, right: Outcome,
                    w: World, w1: World, w2: World, entity: Entity, session: Option<string>)
    requires Distinct(nums) && middle <= |nums| && left.Done? && right.Done?
    requires Accounts(left, nums[..middle]) && Accounts(right, nums[middle..])
    requires Exact(left, nums[..middle], w, w1, entity, session)
    requires Exact(right, nums[middle..], w1, w2, entity, session)
    ensures Exact(Joined(left, right), nums, w, w2, entity, session)
    ensures |Missing(w, entity, session, Elements(nums))| ==
            |Missing(w, entity, session, Elements(nums[..middle]))|
            + |Missing(w1, entity, session, Elements(nums[middle..]))|
  {
    Halves(nums, middle);
    ElementsConcat(left.received, right.received);
    WithoutTwice(w, entity, Elements(left.received), Elements(right.received));
    OtherHalfUntouched(w, entity, session, Elements(left.received), Elements(nums[middle..]));
    MissingSplits(w, entity, session, Elements(nums[..middle]), Elements(nums[middle..]));
  }

  /** Everything a finished bisection promises; `used` is the number of answered calls, at most two for each halving and
    missing number. */
  ghost predicate Correct(o: Outcome, nums: seq<int>, w: World, w': World, honest: bool, used: int,
                          entity: Entity, session: Option<string>) {
    && o.Done? && Accounts(o, nums) && Cleared(o, nums, w, w', entity, session)
    && (honest ==>
          && Exact(o, nums, w, w', entity, session)
          && used <= CallBound(|Missing(w, entity, session, Elements(nums))|, |nums|))
  }

  lemma JoinedCorrect(nums: seq<int>, left: Outcome, right: Outcome, w: World, w1: World, w2: World, honest: bool,
                      used1: int, used2: int, entity: Entity, session: Option<string>)
    requires Distinct(nums) && |nums| >= 2 && (honest ==> !AllReceivable(w, entity, session, nums))
    requires Correct(left, nums[..|nums| / 2], w, w1, honest, used1, entity, session)
    requires Correct(right, nums[|nums| / 2..], w1, w2, honest, used2, entity, session)
    requires Shrunk(w, w1, entity, Elements(nums[..|nums| / 2])) && Shrunk(w1, w2, entity, Elements(nums[|nums| / 2..]))
    ensures Correct(Joined(left, right), nums, w, w2, honest, 1 + used1 + used2, entity, session)
  {
    var middle := |nums| / 2;
    JoinedAccounts(nums, middle, left, right);
    JoinedCleared(nums, middle, left, right, w, w1, w2, entity, session);
    if honest {
      JoinedExact(nums, middle, left, right, w, w1, w2, entity, session);
      AllReceivableIsNoneMissing(w, entity, session, nums);
      CallBoundStep(|Missing(w, entity, session, Elements(nums[..middle]))|, middle,
                    |Missing(w1, entity, session, Elements(nums[middle..]))|, |nums| - middle);
    }
  }

  lemma AllReceivedCorrect(nums: seq<int>, got: seq<int>, w: World, honest: bool, entity: Entity,
                           session: Option<string>)
    requires Distinct(nums) && AllReceivable(w, entity, session, nums)
    requires Ascending(got) && Elements(got) == Elements(nums)
    ensures Correct(Done(got, []), nums, w, Without(w, entity, Elements(nums)), honest, 1, entity, session)
  {
    AllReceivableIsNoneMissing(w, entity, session, nums);
    assert Elements<int>([]) == {};
    assert |got| == |nums| by {
      DistinctSize(nums);
      DistinctSize(got);
    }
    assert CallBound(0, |nums|) == 1;
    assert forall n :: n in Elements(nums) ==> n !in Missing(w, entity, session, Elements(nums));
  }

  lemma NotFoundAloneCorrect(nums: seq<int>, w: World, honest: bool, entity: Entity, session: Option<string>)
    requires |nums| == 1 && !AllReceivable(w, entity, session, nums)
    ensures Correct(Done([], nums), nums, w, w, honest, 1, entity, session)
  {
  }

  /** A call whose effect is uncertain only ever removes numbers. */
  lemma CorrectFromBefore(o: Outcome, nums: seq<int>, w: World, w0: World, w': World, honest: bool, used: int,
                          entity: Entity, session: Option<string>)
    requires Correct(o, nums, w0, w', honest, used, entity, session)
    requires Unanswered(w, w0, honest, entity, Elements(nums))
    ensures Correct(o, nums, w, w', honest, used, entity, session)
  {
  }

  lemma SubCallsOfHalf(before: seq<Call>, calls: seq<Call>, entity: Entity, session: Option<string>, nums: seq<int>,
                       part: seq<int>)
    requires AskedOnly(before, calls, entity, session, part)
    requires |part| <= |nums| && Elements(part) <= Elements(nums) && (Ascending(nums) ==> Ascending(part))
    ensures AskedOnly(before, calls, entity, session, nums)
  {
  }

  lemma AllReceivableIsNoneMissing(w: World, entity: Entity, session: Option<string>, nums: seq<int>)
    ensures AllReceivable(w, entity, session, nums) <==> Missing(w, entity, session, Elements(nums)) == {}
  {
    AllElements(nums);
    if !AllReceivable(w, entity, session, nums) {
      var i :| 0 <= i < |nums| && !Receivable(w, entity, session, nums[i]);
      assert nums[i] in Missing(w, entity, session, Elements(nums));
    }
  }

  datatype Bisection = Bisection(outcome: Outcome, net: Net)

  /** The bisection at a broker nobody else uses, as a function of its state and of the faults ahead. */
  function BisectNet(net: Net, partitioned: bool, entity: Entity, session: Option<string>, nums: seq<int>,
                     sessionToo: bool): Bisection
    decreases |nums|, 1
  {
    if nums == [] then Bisection(Done([], []), net)
    else
      var first := RetryNet(net, partitioned, entity, session, nums, sessionToo, 4);
      if first.reply.Failed? then Bisection(Raised(first.reply.error), first.net)
      else if first.reply.Received? then Bisection(Done(first.reply.nums, []), first.net)
      else if |nums| == 1 then Bisection(Done([], nums), first.net)
      else HalvesNet(first.net, partitioned, entity, session, nums, sessionToo)
  }

  function HalvesNet(net: Net, partitioned: bool, entity: Entity, session: Option<string>, nums: seq<int>,
                     sessionToo: bool): Bisection
    requires |nums| >= 2
    decreases |nums|, 0
  {
    var left := BisectNet(net, partitioned, entity, session, nums[..|nums| / 2], sessionToo);
    if left.outcome.Raised? then left
    else
      var right := BisectNet(left.net, partitioned, entity, session, nums[|nums| / 2..], sessionToo);
      if right.outcome.Raised? then right else Bisection(Joined(left.outcome, right.outcome), right.net)
  }

  /** What a bisection does whatever else happens at the broker: it takes numbers it was asked for only, accounts for
    each once, and each could not be returned at some moment since. */
  ghost predicate Bisected(o: Outcome, origin: World, log: seq<Effect>, log': seq<Effect>, entity: Entity,
                           session: Option<string>, nums: seq<int>) {
    && TookOnly(log, log', entity, Elements(nums))
    && (o.Done? ==> Accounts(o, nums) && AllGone(origin, log', |log|, entity, session, Elements(nums)))
  }

  /** What it does at a broker nobody else uses: it is exact; and when all numbers are there, an error leaves them
    all. */
  ghost predicate BisectedStill(o: Outcome, w: World, w': World, log: seq<Effect>, log': seq<Effect>, honest: bool,
                                used: int, entity: Entity, session: Option<string>, nums: seq<int>) {
    && Shrunk(w, w', entity, Elements(nums)) && (o.Done? ==> Correct(o, nums, w, w', honest, used, entity, session))
    && (o.Raised? && honest && AllReceivable(w, entity, session, nums) ==> log' == log)
  }

  lemma BisectedTwice(left: Outcome, right: Outcome, origin: World, log: seq<Effect>, log1: seq<Effect>,
                      log2: seq<Effect>, entity: Entity, session: Option<string>, nums: seq<int>)
    requires Distinct(nums) && |nums| >= 2 && left.Done?
    requires Bisected(left, origin, log, log1, entity, session, nums[..|nums| / 2])
    requires Bisected(right, origin, log1, log2, entity, session, nums[|nums| / 2..])
    ensures Bisected(if right.Done? then Joined(left, right) else right, origin, log, log2, entity, session, nums)
  {
    var middle := |nums| / 2;
    Halves(nums, middle);
    TookTwice(log, log1, log2, entity, Elements(nums[..middle]), Elements(nums[middle..]), Elements(nums));
    if right.Done? {
      JoinedAccounts(nums, middle, left, right);
      GoneLater(origin, log1, log2, |log|, |log|, entity, session, Elements(nums[..middle]));
      GoneLater(origin, log2, log2, |log1|, |log|, entity, session, Elements(nums[middle..]));
    }
  }

  lemma BisectedLater(o: Outcome, origin: World, log: seq<Effect>, log1: seq<Effect>, log2: seq<Effect>, entity: Entity,
                      session: Option<string>, nums: seq<int>)
    requires TookOnly(log, log1, entity, Elements(nums)) && Bisected(o, origin, log1, log2, entity, session, nums)
    ensures Bisected(o, origin, log, log2, entity, session, nums)
  {
    TookTwice(log, log1, log2, entity, Elements(nums), Elements(nums), Elements(nums));
    if o.Done? {
      GoneLater(origin, log2, log2, |log1|, |log|, entity, session, Elements(nums));
    }
  }

  /** An answer that ends a bisection: all numbers received, or a single one not found. */
  lemma AnsweredAtOnce(reply: Reply, o: Outcome, origin: World, log: seq<Effect>, log': seq<Effect>, entity: Entity,
                       session: Option<string>, nums: seq<int>)
    requires Distinct(nums) && Told(reply, origin, log, log', entity, session, nums)
    requires (reply.Received? && o == Done(reply.nums, [])) || (reply.NotFound? && |nums| == 1 && o == Done([], nums))
    ensures Bisected(o, origin, log, log', entity, session, nums)
  {
    assert Elements<int>([]) == {};
    DistinctSize(nums);
    if reply.Received? {
      DistinctSize(reply.nums);
    }
  }

  /** `receive_deferred_bisect`. A failed half ends it: what the other half deleted stays deleted. */
  method ReceiveDeferredBisect(b: ServiceBus, entity: Entity, session: Option<string>, nums: seq<int>, sessionToo: bool)
    returns (o: Outcome)
    requires b.Valid() && Distinct(nums)
    modifies b
    decreases |nums|, 1
    ensures b.Valid() && Consumed(old(b.faults), b.faults) && (Still(old(b.weather)) ==> Still(b.weather))
    ensures old(b.faults) == [] ==> b.faults == [] && (Accepted(nums) ==> o.Done?)
    ensures o.Raised? ==> Spent(old(b.faults), b.faults, o.error)
    ensures AskedOnly(old(b.calls), b.calls, entity, session, nums)
    ensures Bisected(o, b.origin, old(b.log), b.log, entity, session, nums)
    ensures Still(old(b.weather)) ==> BisectedStill(o, old(b.world), b.world, old(b.log), b.log, Honest(old(b.faults)),
                                                    b.answered - old(b.answered), entity, session, nums)
    ensures Still(old(b.weather)) ==>
      Bisection(o, NetOf(b)) == BisectNet(old(NetOf(b)), entity in b.partitioned, entity, session, nums, sessionToo)
  {
    if nums == [] {
      EmptyIsCorrect(b.world, b.log, Honest(b.faults), entity, session);
      return Done([], []);
    }
    ghost var w, log, honest, answered: int, still := b.world, b.log, Honest(b.faults), b.answered, Still(b.weather);
    var reply := ReceiveWithRetry(b, entity, session, nums, sessionToo);
    ghost var w0, log0 := b.world, b.log;
    if reply.Failed? {
      if still {
        UnansweredIsShrunk(w, w0, honest, entity, Elements(nums));
      }
      o := Raised(reply.error);
    } else if reply.Received? || |nums| == 1 {
      o := if reply.Received? then Done(reply.nums, []) else Done([], nums);
      AnsweredAtOnce(reply, o, b.origin, log, b.log, entity, session, nums);
      if still {
        AnsweredCorrect(reply, o, nums, w, w0, honest, entity, session);
      }
    } else {
      o := ReceiveHalves(b, entity, session, nums, sessionToo);
      BisectedLater(o, b.origin, log, log0, b.log, entity, session, nums);
      if still {
        HalvesFromBefore(o, nums, w, w0, b.world, honest, b.answered - answered, entity, session, log, log0, b.log);
      }
    }
  }

  lemma EmptyIsCorrect(w: World, log: seq<Effect>, honest: bool, entity: Entity, session: Option<string>)
    ensures BisectedStill(Done([], []), w, w, log, log, honest, 0, entity, session, [])
  {
    assert Elements<int>([]) == {};
    assert Missing(w, entity, session, {}) == {};
    assert Without(w, entity, {}) == w;
  }

  lemma UnansweredIsShrunk(w: World, w': World, honest: bool, entity: Entity, nums: set<int>)
    requires Unanswered(w, w', honest, entity, nums)
    ensures Shrunk(w, w', entity, nums)
  {
    WithoutIsShrunk(w, entity, nums);
  }

  lemma AnsweredCorrect(reply: Reply, o: Outcome, nums: seq<int>, w: World, w': World, honest: bool, entity: Entity,
                        session: Option<string>)
    requires Distinct(nums) && nums != [] && ToldStill(reply, w, w', honest, entity, session, nums)
    requires reply.Received? ==> Ascending(reply.nums) && Elements(reply.nums) == Elements(nums)
    requires (reply.Received? && o == Done(reply.nums, [])) || (reply.NotFound? && |nums| == 1 && o == Done([], nums))
    ensures Shrunk(w, w', entity, Elements(nums)) && Correct(o, nums, w, w', honest, 1, entity, session)
  {
    if reply.Received? {
      WithoutIsShrunk(w, entity, Elements(nums));
      AllReceivedCorrect(nums, reply.nums, w, honest, entity, session);
    } else {
      UnansweredIsShrunk(w, w', honest, entity, Elements(nums));
      NotFoundAloneCorrect(nums, w', honest, entity, session);
      CorrectFromBefore(o, nums, w, w', w', honest, 1, entity, session);
    }
  }

  lemma HalvesFromBefore(o: Outcome, nums: seq<int>, w: World, w0: World, w': World, honest: bool, used: int,
                         entity: Entity, session: Option<string>, log: seq<Effect>, log0: seq<Effect>,
                         log': seq<Effect>)
    requires Unanswered(w, w0, honest, entity, Elements(nums)) && !AllReceivable(w0, entity, session, nums)
    requires BisectedStill(o, w0, w', log0, log', honest, used, entity, session, nums)
    ensures BisectedStill(o, w, w', log, log', honest, used, entity, session, nums)
  {
    UnansweredIsShrunk(w, w0, honest, entity, Elements(nums));
    ShrunkTwice(w, w0, w', entity, Elements(nums), Elements(nums));
    assert Elements(nums) + Elements(nums) == Elements(nums);
    if o.Done? {
      CorrectFromBefore(o, nums, w, w0, w', honest, used, entity, session);
    }
  }

  method ReceiveHalves(b: ServiceBus, entity: Entity, session: Option<string>, nums: seq<int>, sessionToo: bool)
    returns (o: Outcome)
    requires b.Valid() && Distinct(nums) && |nums| >= 2
    requires !AllReceivable(b.world, entity, session, nums)
    modifies b
    decreases |nums|, 0
    ensures b.Valid() && Consumed(old(b.faults), b.faults) && (Still(old(b.weather)) ==> Still(b.weather))
    ensures old(b.faults) == [] ==> b.faults == [] && (Accepted(nums) ==> o.Done?)
    ensures o.Raised? ==> Spent(old(b.faults), b.faults, o.error)
    ensures AskedOnly(old(b.calls), b.calls, entity, session, nums)
    ensures Bisected(o, b.origin, old(b.log), b.log, entity, session, nums)
    ensures Still(old(b.weather)) ==> BisectedStill(o, old(b.world), b.world, old(b.log), b.log, Honest(old(b.faults)),
                                                    b.answered + 1 - old(b.answered), entity, session, nums)
    ensures Still(old(b.weather)) ==>
      Bisection(o, NetOf(b)) == HalvesNet(old(NetOf(b)), entity in b.partitioned, entity, session, nums, sessionToo)
  {
    ghost var w0, log0, honest, a0: int, still := b.world, b.log, Honest(b.faults), b.answered, Still(b.weather);
    var middle := |nums| / 2;
    Halves(nums, middle);
    var left := ReceiveDeferredBisect(b, entity, session, nums[..middle], sessionToo);
    SubCallsOfHalf(old(b.calls), b.calls, entity, session, nums, nums[..middle]);
    ghost var w1, log1, a1: int, calls1 := b.world, b.log, b.answered, b.calls;
    if left.Raised? {
      HalfIsBisected(left, b.origin, log0, log1, entity, session, nums, nums[..middle]);
      if still {
        ShrunkHalf(w0, w1, entity, Elements(nums[..middle]), Elements(nums));
      }
      return left;
    }
    var right := ReceiveDeferredBisect(b, entity, session, nums[middle..], sessionToo);
    SubCallsOfHalf(calls1, b.calls, entity, session, nums, nums[middle..]);
    BisectedTwice(left, right, b.origin, log0, log1, b.log, entity, session, nums);
    o := if right.Raised? then right else Joined(left, right);
    if still {
      BisectedStillTwice(nums, left, right, o, w0, w1, b.world, honest, a1 - a0, b.answered - a1, entity, session, log0,
                         log1, b.log);
    }
  }

  lemma HalfIsBisected(o: Outcome, origin: World, log: seq<Effect>, log': seq<Effect>, entity: Entity,
                       session: Option<string>, nums: seq<int>, half: seq<int>)
    requires o.Raised? && Bisected(o, origin, log, log', entity, session, half) && Elements(half) <= Elements(nums)
    ensures Bisected(o, origin, log, log', entity, session, nums)
  {
  }

  lemma ShrunkHalf(w: World, w': World, entity: Entity, half: set<int>, nums: set<int>)
    requires Shrunk(w, w', entity, half) && half <= nums
    ensures Shrunk(w, w', entity, nums)
  {
  }

  lemma BisectedStillTwice(nums: seq<int>, left: Outcome, right: Outcome, o: Outcome, w: World, w1: World, w2: World,
                           honest: bool, used1: int, used2: int, entity: Entity, session: Option<string>,
                           log: seq<Effect>, log1: seq<Effect>, log2: seq<Effect>)
    requires Distinct(nums) && |nums| >= 2 && left.Done? && !AllReceivable(w, entity, session, nums)
    requires o == if right.Raised? then right else Joined(left, right)
    requires BisectedStill(left, w, w1, log, log1, honest, used1, entity, session, nums[..|nums| / 2])
    requires BisectedStill(right, w1, w2, log1, log2, honest, used2, entity, session, nums[|nums| / 2..])
    ensures BisectedStill(o, w, w2, log, log2, honest, 1 + used1 + used2, entity, session, nums)
  {
    Halves(nums, |nums| / 2);
    ShrunkTwice(w, w1, w2, entity, Elements(nums[..|nums| / 2]), Elements(nums[|nums| / 2..]));
    if right.Done? {
      JoinedCorrect(nums, left, right, w, w1, w2, honest, used1, used2, entity, session);
    }
  }
}
