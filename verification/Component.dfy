/** One run of the extractor over the classes of the other modules (src/component.py:166-178, src/component.py:270-274,
  src/component.py:354-373), proved to be a lawful run of the protocol, and whole histories of such runs, so that the
  theorems on histories are about them. */
module Component {
  import opened Ranges
  import opened Broker
  import opened Pending
  import Bisect
  import opened Commit
  import opened Settlement
  import opened Protocol

  /** A batch handed to the processor, by a receive, a peek or the orphan recovery; after an interruption `goesOn` says
    whether the connection is reopened or the run ends. */
  datatype Batch = Batch(deliveries: seq<Delivery>, generation: int, luck: Luck, goesOn: bool)

  lemma {:induction false} TakenLogIsSafe(log: seq<Effect>)
    requires forall i :: 0 <= i < |log| ==> log[i].Taken? || Environment(log[i])
    ensures SafeLog(log) && !ArmedIn(log) && forall entity :: Written(log, entity) == {}
  {
    if log != [] {
      TakenLogIsSafe(Front(log));
    }
  }

  /** The pending set under construction holds numbers of keys carried on and deferred numbers only. */
  ghost predicate Founded(drafts: map<Key, Draft>, input: seq<PendingEntity>, held: set<Key>, entity: Entity,
                          deferred: set<int>) {
    forall k, n {:trigger n in NumbersIn(drafts, k)} :: n in NumbersIn(drafts, k) ==>
      (k in held && Stores(input, k, n)) || (k.entity == entity && n in deferred)
  }

  lemma CarriedIsFounded(drafts: map<Key, Draft>, input: seq<PendingEntity>, carried: seq<PendingEntity>,
                         entity: Entity)
    requires LeftOfStored(carried, input)
    requires forall k, n :: n in NumbersIn(drafts, k) ==> Stores(carried, k, n)
    ensures Founded(drafts, input, KeysOf(carried), entity, {})
  {
    forall k, n | n in NumbersIn(drafts, k) ensures k in KeysOf(carried) && Stores(input, k, n) {
      LeftIsStored(carried, input, k, n);
    }
  }

  lemma LeftIsStored(carried: seq<PendingEntity>, input: seq<PendingEntity>, k: Key, n: int)
    requires LeftOfStored(carried, input) && Stores(carried, k, n)
    ensures k in KeysOf(carried) && Stores(input, k, n)
  {
    var q, c :| q in carried && c in q.groups && KeyOf(q.entity, c) == k && n in Cover(c.ranges);
    var p :| p in input && p.entity == q.entity && LeftOfGroups(q.groups, p.groups);
    assert LeftOf(c, p.groups);
    var g :| g in p.groups && c.session == g.session && c.partition == g.partition && c.maxBody == g.maxBody
      && Cover(c.ranges) <= Cover(g.ranges);
    assert KeyOf(p.entity, g) == k;
  }

  lemma FoundedLater(drafts: map<Key, Draft>, drafts': map<Key, Draft>, input: seq<PendingEntity>, held: set<Key>,
                     entity: Entity, deferred: set<int>, deferred': set<int>)
    requires Founded(drafts, input, held, entity, deferred) && JoinedOnly(drafts, drafts', entity, deferred')
    requires deferred <= deferred'
    ensures Founded(drafts', input, held, entity, deferred')
  {
  }

  lemma BuiltNumber(drafts: map<Key, Draft>, keys: seq<Key>, output: seq<PendingEntity>, k: Key, n: int)
    requires BuiltFrom(drafts, keys, output) && Stores(output, k, n)
    ensures n in NumbersIn(drafts, k)
  {
    var p, g :| p in output && g in p.groups && KeyOf(p.entity, g) == k && n in Cover(g.ranges);
    assert Matches(drafts, p.entity, g);
  }

  /** The log so far is that of a lawful run that has not finished. */
  ghost predicate LawfulSoFar(log: seq<Effect>, mode: Mode, entity: Entity, input: seq<PendingEntity>) {
    SafeLog(log) && forall i :: 0 <= i < |log| ==> LawfulEffect(log[i], mode, entity, input)
  }

  lemma LawfulLater(log: seq<Effect>, log': seq<Effect>, armed: bool, mode: Mode, entity: Entity,
                    input: seq<PendingEntity>)
    requires LawfulSoFar(log, mode, entity, input) && Advanced(log, log', armed, mode, entity)
    ensures LawfulSoFar(log', mode, entity, input)
  {
  }

  lemma BuiltStores(drafts: map<Key, Draft>, keys: seq<Key>, output: seq<PendingEntity>, k: Key, n: int)
    requires BuiltFrom(drafts, keys, output) && Elements(keys) == drafts.Keys && n in NumbersIn(drafts, k)
    ensures Stores(output, k, n)
  {
    AllElements(keys);
    var p, g :| p in output && g in p.groups && KeyOf(p.entity, g) == k;
    assert Matches(drafts, p.entity, g);
  }

  /** What the commit found in the input is in the pending set under construction, on an entity it reports as stale, or
    could not be received at some moment of the commit. */
  ghost predicate CarriedOn(drafts: map<Key, Draft>, input: seq<PendingEntity>, stale: set<Entity>, w: World,
                            log: seq<Effect>) {
    Numbered(input) ==>
      forall k, n :: Stores(input, k, n) ==>
        n in NumbersIn(drafts, k) || k.entity in stale || GoneAt(w, log, 0, k.entity, Filter(k.entity, k.session), n)
  }

  lemma NumberedIsNonNegative(input: seq<PendingEntity>)
    requires Numbered(input)
    ensures EntitiesNonNegative(input)
  {
    forall p, g, n | p in input && g in p.groups && n in Cover(g.ranges) ensures 0 <= n {
      assert Stores(input, KeyOf(p.entity, g), n);
    }
  }

  lemma HandledIsCarriedOn(drafts: map<Key, Draft>, input: seq<PendingEntity>, carried: seq<PendingEntity>,
                           stale: set<Entity>, s: Snapshot, s': Snapshot)
    requires EntitiesNonNegative(input) ==> EntitiesHandled(s, s', input, carried, stale)
    requires s.log == [] && forall k, n :: Stores(carried, k, n) ==> n in NumbersIn(drafts, k)
    ensures CarriedOn(drafts, input, stale, s.origin, s'.log)
  {
    if Numbered(input) {
      NumberedIsNonNegative(input);
      forall k, n | Stores(input, k, n)
        ensures n in NumbersIn(drafts, k) || k.entity in stale
          || GoneAt(s.origin, s'.log, 0, k.entity, Filter(k.entity, k.session), n)
      {
        var p, g :| p in input && g in p.groups && KeyOf(p.entity, g) == k && n in Cover(g.ranges);
        var i :| 0 <= i < |input| && input[i] == p;
        var j :| 0 <= j < |p.groups| && p.groups[j] == g;
        assert input[i].entity in stale || EntityHandled(s, s', input[i], carried);
      }
    }
  }

  lemma CarriedOnLater(drafts: map<Key, Draft>, drafts': map<Key, Draft>, input: seq<PendingEntity>, stale: set<Entity>,
                       w: World, log: seq<Effect>, entity: Entity, nums: set<int>)
    requires CarriedOn(drafts, input, stale, w, log) && JoinedOnly(drafts, drafts', entity, nums)
    ensures CarriedOn(drafts', input, stale, w, log)
  {
    forall k, n | n in NumbersIn(drafts, k) ensures n in NumbersIn(drafts', k) {
      assert NumbersIn(drafts, k) <= NumbersIn(drafts', k);
    }
  }

  /** The recorded sizes of the stored set, the partitions of its groups, and the calls made for it. */
  ghost predicate InOrder(pending: seq<PendingEntity>, size: Id -> int) {
    FitsPending(pending, size) && AllOfOnePartition(pending)
  }

  ghost predicate CallsFit(calls: seq<Call>, size: Id -> int) {
    forall i :: 0 <= i < |calls| ==> CallFits(calls[i], size)
  }

  /** The counts of a commit, as the run summary reports them. */
  datatype Summary = Summary(committed: int, alreadyGone: int, carriedForward: int, droppedStale: int)

  /** The summary accounts for every stored number: `carried` of them are carried on, no more left the broker than it
    says when nobody else acts, and nothing is dropped but for a stale entity. */
  ghost predicate Sums(c: Summary, input: seq<PendingEntity>, report: Report, carried: int, w: World, w': World,
                       still: bool) {
    && (Numbered(input) ==> c.committed + c.alreadyGone + c.carriedForward + c.droppedStale == StoredTotal(input))
    && c.carriedForward == carried && (report.stale == {} ==> c.droppedStale == 0)
    && (still ==> Counted(c.committed, w, w', false))
  }

  /** The numbers of a pending set under construction, each with its key. */
  ghost function PairsIn(drafts: map<Key, Draft>): set<(Key, int)> {
    set k, n | k in drafts && n in NumbersIn(drafts, k) :: (k, n)
  }

  ghost function PairsOf(entity: Entity, groups: seq<Group>): set<(Key, int)> {
    set g, n | g in groups && n in Cover(g.ranges) :: (KeyOf(entity, g), n)
  }

  ghost function AllPairs(pending: seq<PendingEntity>): set<(Key, int)> {
    if pending == [] then {} else AllPairs(Front(pending)) + PairsOf(Last(pending).entity, Last(pending).groups)
  }

  lemma {:induction false} PairsOfGroups(entity: Entity, groups: seq<Group>)
    ensures |PairsOf(entity, groups)| <= GroupsTotal(groups)
  {
    if groups != [] {
      var g := Last(groups);
      PairsOfGroups(entity, Front(groups));
      assert groups == Front(groups) + [g];
      var more := set n | n in Cover(g.ranges) :: (KeyOf(entity, g), n);
      PairsOfNumbers(KeyOf(entity, g), Cover(g.ranges));
      assert PairsOf(entity, groups) == PairsOf(entity, Front(groups)) + more;
    } else {
      assert PairsOf(entity, groups) == {};
    }
  }

  lemma {:induction false} PairsOfNumbers(k: Key, nums: set<int>)
    ensures |set n | n in nums :: (k, n)| == |nums|
  {
    if nums != {} {
      var n := SomeOf(nums);
      PairsOfNumbers(k, nums - {n});
      assert (set x | x in nums :: (k, x)) == (set x | x in nums - {n} :: (k, x)) + {(k, n)};
    } else {
      assert (set x | x in nums :: (k, x)) == {};
    }
  }

  lemma {:induction false} AllPairsSize(pending: seq<PendingEntity>)
    ensures |AllPairs(pending)| <= StoredTotal(pending)
    ensures forall k, n :: Stores(pending, k, n) ==> (k, n) in AllPairs(pending)
  {
    if pending != [] {
      var p := Last(pending);
      AllPairsSize(Front(pending));
      PairsOfGroups(p.entity, p.groups);
      forall k, n | Stores(pending, k, n) ensures (k, n) in AllPairs(pending) {
        var q, g :| q in pending && g in q.groups && KeyOf(q.entity, g) == k && n in Cover(g.ranges);
        if q in Front(pending) {
          assert Stores(Front(pending), k, n);
        }
      }
    }
  }

  lemma CarriedPairs(drafts: map<Key, Draft>, carried: seq<PendingEntity>)
    requires forall k, n :: n in NumbersIn(drafts, k) ==> Stores(carried, k, n)
    ensures |PairsIn(drafts)| <= StoredTotal(carried)
  {
    AllPairsSize(carried);
    SubsetSize(PairsIn(drafts), AllPairs(carried));
  }

  /** The errors met since `faults` are those of the report. */
  ghost predicate Met(report: Report, faults: seq<Fault>, faults': seq<Fault>) {
    && report.staleErrors == StaleLeft(faults) - StaleLeft(faults')
    && report.heldErrors == Left(faults, SessionHeld) - Left(faults', SessionHeld)
  }

  ghost predicate CommitFailed(faults: seq<Fault>, faults': seq<Fault>) {
    exists e :: FailedWith(faults, faults', e)
  }

  /** The commit with what it reports. */
  method DeleteStored(bus: ServiceBus, mode: Mode, entity: Entity, input: seq<PendingEntity>)
    returns (r: Commit.Result, report: Report, summary: Summary, ghost s: Snapshot, ghost s': Snapshot)
    requires bus.Valid() && bus.log == [] && bus.calls == [] && !mode.Peek?
    modifies bus
    ensures bus.Valid() && LawfulSoFar(bus.log, mode, entity, input) && !ArmedIn(bus.log)
    ensures forall i :: 0 <= i < |bus.log| ==> bus.log[i].Taken? || Environment(bus.log[i])
    ensures s.log == [] && s.origin == bus.origin && s'.log == bus.log
    ensures LawfulReport(entity, report, input) && Met(report, old(bus.faults), bus.faults)
    ensures r.Failure? ==> CommitFailed(old(bus.faults), bus.faults) && report.held == {}
    ensures r.Ok? ==> LeftOfStored(r.carried, input) && report.held == KeysOf(r.carried)
    ensures r.Ok? ==> EntitiesNonNegative(input) ==> EntitiesHandled(s, s', input, r.carried, report.stale)
    ensures r.Ok? ==>
      Sums(summary, input, report, StoredTotal(r.carried), bus.origin, bus.world, Bisect.Still(old(bus.weather)))
    ensures old(bus.faults) == [] && AllOfOnePartition(input) ==> r == Ok([], {}) && report == NOTHING_REPORTED
    ensures forall size: Id -> int :: InOrder(input, size) ==> CallsFit(bus.calls, size)
  {
    var faults := bus.faults;
    var committer := new PendingCommitter(entity);
    s := committer.Snap(bus);
    r := committer.Commit(bus, input);
    s' := committer.Snap(bus);
    CommitLogIsLawful(bus.log, mode, entity, input);
    CallsFitStored(bus.calls, input);
    summary := Summary(committer.committed, committer.alreadyGone, committer.carriedForward, committer.droppedStale);
    report := Report({}, StaleLeft(faults) - StaleLeft(bus.faults), {},
                     Left(faults, SessionHeld) - Left(bus.faults, SessionHeld));
    if r.Ok? {
      report := report.(stale := r.stale, held := KeysOf(r.carried));
      KeysAreGroups(r.carried);
      if Numbered(input) {
        NumberedIsNonNegative(input);
      }
    }
  }

  /** Deleting the stored pending set comes first, before anything is received; what it carries on is in the new pending
    set: nothing when no call fails, and no more keys than calls that found their session held. */
  method CommitPending(bus: ServiceBus, builder: PendingSetBuilder, mode: Mode, entity: Entity,
                       input: seq<PendingEntity>)
    returns (ok: bool, report: Report, summary: Summary)
    requires bus.Valid() && bus.log == [] && bus.calls == [] && builder.Valid() && builder.drafts == map[]
    modifies bus, builder
    ensures bus.Valid() && builder.Valid() && !ArmedIn(bus.log)
    ensures LawfulSoFar(bus.log, mode, entity, input)
    ensures forall i :: 0 <= i < |bus.log| ==> bus.log[i].Taken? || Environment(bus.log[i])
    ensures Founded(builder.drafts, input, report.held, entity, {})
    ensures ok && !mode.Peek? ==> CarriedOn(builder.drafts, input, report.stale, bus.origin, bus.log)
    ensures LawfulReport(entity, report, input) && Met(report, old(bus.faults), bus.faults)
    ensures ok && !mode.Peek? ==>
      && |PairsIn(builder.drafts)| <= summary.carriedForward
      && Sums(summary, input, report, summary.carriedForward, bus.origin, bus.world, Bisect.Still(old(bus.weather)))
    ensures !ok ==> CommitFailed(old(bus.faults), bus.faults)
    ensures old(bus.faults) == [] && AllOfOnePartition(input) ==>
      ok && report == NOTHING_REPORTED && builder.drafts == map[]
    ensures forall size: Id -> int :: InOrder(input, size) ==>
      CallsFit(bus.calls, size) && FitsDrafts(builder.drafts, size) && OnePartitionDrafts(builder.drafts)
  {
    ok, report, summary := true, NOTHING_REPORTED, Summary(0, 0, 0, 0);
    if !mode.Peek? {
      var r;
      ghost var s, s';
      r, report, summary, s, s' := DeleteStored(bus, mode, entity, input);
      ok := r.Ok?;
      if ok {
        LeftIsInOrder(r.carried, input);
        builder.Carry(r.carried);
        CarriedIsFounded(builder.drafts, input, r.carried, entity);
        CarriedPairs(builder.drafts, r.carried);
        HandledIsCarriedOn(builder.drafts, input, r.carried, report.stale, s, s');
      }
    }
  }

  lemma CommitLogIsLawful(log: seq<Effect>, mode: Mode, entity: Entity, input: seq<PendingEntity>)
    requires !mode.Peek? && forall i :: 0 <= i < |log| ==> Environment(log[i]) || TakesStored(log[i], input)
    ensures LawfulSoFar(log, mode, entity, input) && !ArmedIn(log)
    ensures forall i :: 0 <= i < |log| ==> log[i].Taken? || Environment(log[i])
  {
    forall i | 0 <= i < |log|
      ensures LawfulEffect(log[i], mode, entity, input) && (log[i].Taken? || Environment(log[i]))
    {
      assert Environment(log[i]) || TakesStored(log[i], input);
    }
    TakenLogIsSafe(log);
  }

  lemma CallsFitStored(calls: seq<Call>, input: seq<PendingEntity>)
    requires forall i :: 0 <= i < |calls| ==> LawfulForStored(calls[i], input)
    ensures forall size: Id -> int :: InOrder(input, size) ==> CallsFit(calls, size)
  {
    forall size: Id -> int, i | InOrder(input, size) && 0 <= i < |calls| ensures CallFits(calls[i], size) {
      StoredCallsFit(calls[i], input, size);
    }
  }

  lemma LeftIsInOrder(carried: seq<PendingEntity>, input: seq<PendingEntity>)
    requires LeftOfStored(carried, input)
    ensures forall size: Id -> int :: InOrder(input, size) ==> InOrder(carried, size)
  {
    forall size: Id -> int, q, c | InOrder(input, size) && q in carried && c in q.groups
      ensures FitsGroup(q.entity, c, size) && OfOnePartition(c)
    {
      var p :| p in input && p.entity == q.entity && LeftOfGroups(q.groups, p.groups);
      assert LeftOf(c, p.groups);
      var g :| g in p.groups && c.session == g.session && c.partition == g.partition && c.maxBody == g.maxBody
        && Cover(c.ranges) <= Cover(g.ranges);
      assert FitsGroup(p.entity, g, size) && OfOnePartition(g);
    }
  }

  // ---------------------------------------------------------------- what the batches of a run have done

  ghost predicate BatchesSized(batches: seq<Batch>, entity: Entity, size: Id -> int) {
    forall i :: 0 <= i < |batches| ==> Sized(ReadableOf(batches[i].deliveries), entity, size)
  }

  ghost function RowsIn(b: Batch): seq<Delivery> {
    ReadableOf(b.deliveries)
  }

  /** Only such a batch is interrupted: the sink refuses its rows, or the connection breaks while a message is
    settled. */
  ghost predicate Troubled(mode: Mode, b: Batch) {
    (RowsIn(b) != [] && b.luck.sinkFails) || (LockHolding(mode) && SomeBroken(b.deliveries))
  }

  /** Only such a batch fails its run: it ends the run by an interruption, or one of the two checks after it fails, or
    one of its bodies is unreadable under the fail policy. */
  ghost predicate MayFail(mode: Mode, policy: Policy, b: Batch) {
    || (Troubled(mode, b) && !b.goesOn) || b.luck.overflowed || b.luck.tooManyUnreadable
    || (policy.FailPolicy? && exists d :: d in b.deliveries && !d.body.Readable?)
  }

  ghost predicate SomeMayFail(mode: Mode, policy: Policy, batches: seq<Batch>) {
    exists i :: 0 <= i < |batches| && MayFail(mode, policy, batches[i])
  }

  /** Such a batch fails its run. */
  ghost predicate MustFail(mode: Mode, b: Batch) {
    || (!b.goesOn && RowsIn(b) != [] && b.luck.sinkFails)
    || (!b.goesOn && LockHolding(mode) && SomeBroken(RowsIn(b)))
    || (!Troubled(mode, b) && (b.luck.overflowed || b.luck.tooManyUnreadable))
  }

  ghost predicate SomeMustFail(mode: Mode, batches: seq<Batch>) {
    exists i :: 0 <= i < |batches| && MustFail(mode, batches[i])
  }

  /** The table has the rows of the batches in their order, each batch whole and once; only a troubled one may have
    none. */
  ghost predicate RowsOf(mode: Mode, batches: seq<Batch>, rows: seq<int>) {
    if batches == [] then rows == []
    else
      var b, chunk := Last(batches), NumbersOf(RowsIn(Last(batches)));
      || (Troubled(mode, b) && RowsOf(mode, Front(batches), rows))
      || (|chunk| <= |rows| && rows[|rows| - |chunk|..] == chunk
          && RowsOf(mode, Front(batches), rows[..|rows| - |chunk|]))
  }

  lemma RowsNext(mode: Mode, batches: seq<Batch>, b: Batch, rows: seq<int>, rows': seq<int>)
    requires RowsOf(mode, batches, rows)
    requires rows' == rows + NumbersOf(RowsIn(b)) || (rows' == rows && Troubled(mode, b))
    ensures RowsOf(mode, batches + [b], rows')
  {
    assert Front(batches + [b]) == batches;
    var chunk := NumbersOf(RowsIn(b));
    if rows' == rows + chunk {
      assert rows'[|rows'| - |chunk|..] == chunk && rows'[..|rows'| - |chunk|] == rows;
    }
  }

  ghost predicate JoinsSome(batches: seq<Batch>, entity: Entity, k: Key, n: int) {
    exists i :: 0 <= i < |batches| && Joins(RowsIn(batches[i]), entity, k, n)
  }

  /** What a run has once its commit is over: its settings, its input, the broker at its start, the log and the report
    of the commit, and the pending set the commit carried on. */
  datatype Frame = Frame(mode: Mode, policy: Policy, entity: Entity, input: seq<PendingEntity>, world: World,
                         commitLog: seq<Effect>, report: Report, carried: map<Key, Draft>)

  /** The settlement is apt for a message of one of the batches. */
  ghost predicate SettledFor(mode: Mode, policy: Policy, entity: Entity, e: Effect, batches: seq<Batch>) {
    exists i, h ::
      && 0 <= i < |batches| && AptIn(h, e, batches[i].deliveries)
      && h.mode == mode && h.policy == policy && h.entity == entity && h.generation == batches[i].generation
  }

  ghost predicate SettlesFor(mode: Mode, policy: Policy, entity: Entity, log: seq<Effect>, batches: seq<Batch>) {
    forall i :: 0 <= i < |log| && log[i].Settled? ==> SettledFor(mode, policy, entity, log[i], batches)
  }

  /** The rows of every untroubled batch are written, and settled the way of the mode where that was acknowledged. */
  ghost predicate AllStored(mode: Mode, entity: Entity, log: seq<Effect>, drafts: map<Key, Draft>,
                            batches: seq<Batch>) {
    forall i :: 0 <= i < |batches| && !Troubled(mode, batches[i]) ==>
      Stored(log, 0, drafts, mode, entity, RowsIn(batches[i]))
  }

  ghost predicate Gathered(carried: map<Key, Draft>, drafts: map<Key, Draft>, entity: Entity, batches: seq<Batch>) {
    forall k, n :: n in NumbersIn(drafts, k) && n !in NumbersIn(carried, k) ==> JoinsSome(batches, entity, k, n)
  }

  /** What the batches so far have done. */
  ghost predicate Worked(f: Frame, log: seq<Effect>, drafts: map<Key, Draft>, rows: seq<int>, batches: seq<Batch>) {
    && AllStored(f.mode, f.entity, log, drafts, batches) && RowsOf(f.mode, batches, rows)
    && Gathered(f.carried, drafts, f.entity, batches) && SettlesFor(f.mode, f.policy, f.entity, log, batches)
  }

  lemma StoredLater(log: seq<Effect>, log': seq<Effect>, drafts: map<Key, Draft>, drafts': map<Key, Draft>, mode: Mode,
                    entity: Entity, rows: seq<Delivery>, nums: set<int>)
    requires Stored(log, 0, drafts, mode, entity, rows) && log <= log' && JoinedOnly(drafts, drafts', entity, nums)
    requires Written(log, entity) <= Written(log', entity)
    ensures Stored(log', 0, drafts', mode, entity, rows)
  {
    SettledLater(log, log', 0, 0);
    forall i | LockHolding(mode) && 0 <= i < |rows| && rows[i].reply.Acked?
      ensures Finalised(log', 0, drafts', mode, entity, rows[i])
    {
      assert Finalised(log, 0, drafts, mode, entity, rows[i]);
      assert NumbersIn(drafts, KeyFor(entity, rows[i])) <= NumbersIn(drafts', KeyFor(entity, rows[i]));
    }
  }

  lemma AllStoredNext(mode: Mode, entity: Entity, log: seq<Effect>, log': seq<Effect>, drafts: map<Key, Draft>,
                      drafts': map<Key, Draft>, batches: seq<Batch>, b: Batch, nums: set<int>)
    requires AllStored(mode, entity, log, drafts, batches) && log <= log' && JoinedOnly(drafts, drafts', entity, nums)
    requires Written(log, entity) <= Written(log', entity)
    requires !Troubled(mode, b) ==> Stored(log', |log|, drafts', mode, entity, RowsIn(b))
    ensures AllStored(mode, entity, log', drafts', batches + [b])
  {
    forall i | 0 <= i < |batches + [b]| && !Troubled(mode, (batches + [b])[i])
      ensures Stored(log', 0, drafts', mode, entity, RowsIn((batches + [b])[i]))
    {
      if i < |batches| {
        StoredLater(log, log', drafts, drafts', mode, entity, RowsIn(batches[i]), nums);
      } else {
        FinalisedEarlier(log', |log|, 0, drafts', mode, entity, RowsIn(b));
      }
    }
  }

  lemma GatheredNext(carried: map<Key, Draft>, drafts: map<Key, Draft>, drafts': map<Key, Draft>, entity: Entity,
                     batches: seq<Batch>, b: Batch)
    requires Gathered(carried, drafts, entity, batches) && JoinedFrom(drafts, drafts', entity, RowsIn(b))
    ensures Gathered(carried, drafts', entity, batches + [b])
  {
    forall k, n | n in NumbersIn(drafts', k) && n !in NumbersIn(carried, k)
      ensures JoinsSome(batches + [b], entity, k, n)
    {
      if n in NumbersIn(drafts, k) {
        var i :| 0 <= i < |batches| && Joins(RowsIn(batches[i]), entity, k, n);
        assert (batches + [b])[i] == batches[i];
      } else {
        assert (batches + [b])[|batches|] == b;
      }
    }
  }

  lemma SettlesNext(log: seq<Effect>, log': seq<Effect>, h: Handling, batches: seq<Batch>, b: Batch)
    requires SettlesFor(h.mode, h.policy, h.entity, log, batches) && AllApt(h, log, log', b.deliveries)
    requires h.generation == b.generation
    ensures SettlesFor(h.mode, h.policy, h.entity, log', batches + [b])
  {
    forall i | 0 <= i < |log'| && log'[i].Settled?
      ensures SettledFor(h.mode, h.policy, h.entity, log'[i], batches + [b])
    {
      if i < |log| {
        assert log'[i] == log[i];
        var j, g :| 0 <= j < |batches| && AptIn(g, log[i], batches[j].deliveries)
          && g.mode == h.mode && g.policy == h.policy && g.entity == h.entity && g.generation == batches[j].generation;
        assert (batches + [b])[j] == batches[j];
      } else {
        assert (batches + [b])[|batches|] == b;
        assert AptIn(h, log'[i], b.deliveries);
      }
    }
  }

  lemma WorkedNext(f: Frame, h: Handling, log: seq<Effect>, log': seq<Effect>, drafts: map<Key, Draft>,
                   drafts': map<Key, Draft>, rows: seq<int>, rows': seq<int>, batches: seq<Batch>, b: Batch)
    requires Worked(f, log, drafts, rows, batches) && AllApt(h, log, log', b.deliveries)
    requires h.mode == f.mode && h.policy == f.policy && h.entity == f.entity && h.generation == b.generation
    requires Collected(log, log', drafts, drafts', f.entity, RowsIn(b))
    requires Written(log, f.entity) <= Written(log', f.entity)
    requires !Troubled(f.mode, b) ==> Stored(log', |log|, drafts', f.mode, f.entity, RowsIn(b))
    requires rows' == rows + NumbersOf(RowsIn(b)) || (rows' == rows && Troubled(f.mode, b))
    ensures Worked(f, log', drafts', rows', batches + [b])
  {
    AllStoredNext(f.mode, f.entity, log, log', drafts, drafts', batches, b, Deferred(log', f.entity));
    RowsNext(f.mode, batches, b, rows, rows');
    GatheredNext(f.carried, drafts, drafts', f.entity, batches, b);
    SettlesNext(log, log', h, batches, b);
  }

  lemma WorkedLater(f: Frame, log: seq<Effect>, log': seq<Effect>, drafts: map<Key, Draft>, rows: seq<int>,
                    batches: seq<Batch>)
    requires Worked(f, log, drafts, rows, batches) && OnlyEnvironment(log, log')
    requires Written(log, f.entity) <= Written(log', f.entity)
    ensures Worked(f, log', drafts, rows, batches)
  {
    forall i | 0 <= i < |batches| && !Troubled(f.mode, batches[i])
      ensures Stored(log', 0, drafts, f.mode, f.entity, RowsIn(batches[i]))
    {
      StoredLater(log, log', drafts, drafts, f.mode, f.entity, RowsIn(batches[i]), {});
    }
    forall i | 0 <= i < |log'| && log'[i].Settled?
      ensures SettledFor(f.mode, f.policy, f.entity, log'[i], batches)
    {
      assert i < |log| && log'[i] == log[i];
    }
  }

  // ---------------------------------------------------------------- one run

  /** Where a run stands after its commit and some batches. */
  ghost predicate RunSoFar(f: Frame, log: seq<Effect>, drafts: map<Key, Draft>, rows: seq<int>, batches: seq<Batch>) {
    && LawfulSoFar(log, f.mode, f.entity, f.input) && f.commitLog <= log
    && Founded(drafts, f.input, f.report.held, f.entity, Deferred(log, f.entity)) && AckedInPending(log, drafts)
    && (!f.mode.Peek? ==> CarriedOn(drafts, f.input, f.report.stale, f.world, f.commitLog))
    && Worked(f, log, drafts, rows, batches)
  }

  ghost predicate DraftsInOrder(drafts: map<Key, Draft>, size: Id -> int) {
    FitsDrafts(drafts, size) && OnePartitionDrafts(drafts)
  }

  /** The commit is over and no batch has come. */
  lemma RunBegins(f: Frame)
    requires LawfulSoFar(f.commitLog, f.mode, f.entity, f.input)
    requires forall i :: 0 <= i < |f.commitLog| ==> f.commitLog[i].Taken? || Environment(f.commitLog[i])
    requires Founded(f.carried, f.input, f.report.held, f.entity, {})
    requires !f.mode.Peek? ==> CarriedOn(f.carried, f.input, f.report.stale, f.world, f.commitLog)
    ensures RunSoFar(f, f.commitLog, f.carried, [], [])
  {
  }

  /** A batch: what it adds to the log and to the pending set keeps the run lawful. */
  lemma RunGoesOn(f: Frame, log: seq<Effect>, log': seq<Effect>, armed: bool, drafts: map<Key, Draft>,
                  drafts': map<Key, Draft>, rows: seq<int>, rows': seq<int>, batches: seq<Batch>, b: Batch)
    requires RunSoFar(f, log, drafts, rows, batches) && Advanced(log, log', armed, f.mode, f.entity)
    requires Collected(log, log', drafts, drafts', f.entity, RowsIn(b))
    requires Worked(f, log', drafts', rows', batches + [b])
    ensures RunSoFar(f, log', drafts', rows', batches + [b])
  {
    LawfulLater(log, log', armed, f.mode, f.entity, f.input);
    DeferredGrows(log, log', f.entity);
    FoundedLater(drafts, drafts', f.input, f.report.held, f.entity, Deferred(log, f.entity),
                 Deferred(log', f.entity));
    if !f.mode.Peek? {
      CarriedOnLater(drafts, drafts', f.input, f.report.stale, f.world, f.commitLog, f.entity,
                     Deferred(log', f.entity));
    }
  }

  /** What happens at the broker between two batches changes none of it. */
  lemma RunWaits(f: Frame, log: seq<Effect>, log': seq<Effect>, armed: bool, drafts: map<Key, Draft>, rows: seq<int>,
                 batches: seq<Batch>)
    requires RunSoFar(f, log, drafts, rows, batches) && OnlyEnvironment(log, log') && ArmedTruly(armed, log)
    ensures RunSoFar(f, log', drafts, rows, batches) && ArmedTruly(armed, log')
  {
    EnvironmentIsProcessing(log, log', f.mode, f.entity);
    LawfulLater(log, log', armed, f.mode, f.entity, f.input);
    DeferredGrows(log, log', f.entity);
    FoundedLater(drafts, drafts, f.input, f.report.held, f.entity, Deferred(log, f.entity), Deferred(log', f.entity));
    AckedLater(log, log', drafts);
    WorkedLater(f, log, log', drafts, rows, batches);
  }

  /** The run that ends here is lawful. */
  lemma RunEnds(f: Frame, log: seq<Effect>, drafts: map<Key, Draft>, rows: seq<int>, batches: seq<Batch>,
                keys: seq<Key>, output: seq<PendingEntity>)
    requires RunSoFar(f, log, drafts, rows, batches) && !f.mode.Peek? && LawfulReport(f.entity, f.report, f.input)
    requires BuiltFrom(drafts, keys, output) && Elements(keys) == drafts.Keys
    ensures LawfulRun(Run(f.mode, f.entity, log, |f.commitLog|, f.report, true, output, false), f.input, f.world)
  {
    var r := Run(f.mode, f.entity, log, |f.commitLog|, f.report, true, output, false);
    forall k, n | Stores(output, k, n)
      ensures (k in f.report.held && Stores(f.input, k, n)) || (k.entity == f.entity && n in Deferred(log, f.entity))
    {
      BuiltNumber(drafts, keys, output, k, n);
    }
    assert log[..|f.commitLog|] == f.commitLog;
    forall i | 0 <= i < |log| && DeferredAt(r, i) ensures StoredUnder(output, log[i].id) {
      assert InPending(drafts, log[i].id);
      var k: Key :| k.entity == log[i].id.entity && log[i].id.num in NumbersIn(drafts, k);
      BuiltStores(drafts, keys, output, k, log[i].id.num);
    }
    if Numbered(f.input) {
      forall k, n | Stores(f.input, k, n) ensures Stores(output, k, n) || LetGo(r, f.world, k, n) {
        if n in NumbersIn(drafts, k) {
          BuiltStores(drafts, keys, output, k, n);
        } else if k.entity in f.report.stale {
          SubsetSize({k.entity}, f.report.stale);
        }
      }
    }
  }

  lemma DraftsStayInOrder(batches: seq<Batch>, i: nat, entity: Entity, size: Id -> int, log: seq<Effect>,
                          log': seq<Effect>, drafts: map<Key, Draft>, drafts': map<Key, Draft>)
    requires i < |batches| && BatchesSized(batches, entity, size) && DraftsInOrder(drafts, size)
    requires Collected(log, log', drafts, drafts', entity, RowsIn(batches[i]))
    ensures DraftsInOrder(drafts', size)
  {
  }

  /** A run that fails or crashes here is lawful, and so is a peek run that ends here. */
  lemma RunStops(mode: Mode, entity: Entity, input: seq<PendingEntity>, commitEnd: nat, report: Report,
                 log: seq<Effect>, w: World)
    requires LawfulSoFar(log, mode, entity, input) && LawfulReport(entity, report, input)
    ensures LawfulRun(Run(mode, entity, log, commitEnd, report, false, [], false), input, w)
    ensures mode.Peek? ==> LawfulRun(Run(mode, entity, log, commitEnd, report, true, input, false), input, w)
  {
  }

  /** What a finished run leaves of its batches: the rows of every untroubled one are written, and each that the broker
    acknowledged is completed, or deferred and stored under its own key. */
  ghost predicate Extracted(mode: Mode, entity: Entity, log: seq<Effect>, output: seq<PendingEntity>, b: Batch) {
    && Numbers(RowsIn(b)) <= Written(log, entity)
    && forall d :: d in RowsIn(b) && d.reply.Acked? ==>
         && (mode.CompleteMode? ==> SettledAs(log, 0, Id(entity, d.num), Complete))
         && (mode.DeferCommit? ==>
               SettledAs(log, 0, Id(entity, d.num), Defer) && Stores(output, KeyFor(entity, d), d.num))
  }

  ghost predicate AllExtracted(mode: Mode, entity: Entity, log: seq<Effect>, output: seq<PendingEntity>,
                               batches: seq<Batch>) {
    forall i :: 0 <= i < |batches| && !Troubled(mode, batches[i]) ==> Extracted(mode, entity, log, output, batches[i])
  }

  /** Nothing is stored but what a held session made the commit carry on and the acknowledged rows of the batches. */
  ghost predicate StoresOnly(entity: Entity, input: seq<PendingEntity>, held: set<Key>, output: seq<PendingEntity>,
                             batches: seq<Batch>) {
    forall k, n :: Stores(output, k, n) ==>
      (k in held && Stores(input, k, n)) || JoinsSome(batches, entity, k, n)
  }

  lemma StoredIsExtracted(f: Frame, log: seq<Effect>, drafts: map<Key, Draft>, rows: seq<int>, batches: seq<Batch>,
                          keys: seq<Key>, output: seq<PendingEntity>)
    requires RunSoFar(f, log, drafts, rows, batches) && Founded(f.carried, f.input, f.report.held, f.entity, {})
    requires f.mode.Peek? || (BuiltFrom(drafts, keys, output) && Elements(keys) == drafts.Keys)
    ensures AllExtracted(f.mode, f.entity, log, output, batches)
    ensures !f.mode.Peek? ==> StoresOnly(f.entity, f.input, f.report.held, output, batches)
  {
    forall i | 0 <= i < |batches| && !Troubled(f.mode, batches[i])
      ensures Extracted(f.mode, f.entity, log, output, batches[i])
    {
      BatchIsExtracted(f.mode, f.entity, log, drafts, batches[i], keys, output);
    }
    forall k, n | !f.mode.Peek? && Stores(output, k, n)
      ensures (k in f.report.held && Stores(f.input, k, n)) || JoinsSome(batches, f.entity, k, n)
    {
      BuiltNumber(drafts, keys, output, k, n);
    }
  }

  lemma BatchIsExtracted(mode: Mode, entity: Entity, log: seq<Effect>, drafts: map<Key, Draft>, b: Batch,
                         keys: seq<Key>, output: seq<PendingEntity>)
    requires Stored(log, 0, drafts, mode, entity, RowsIn(b))
    requires mode.Peek? || (BuiltFrom(drafts, keys, output) && Elements(keys) == drafts.Keys)
    ensures Extracted(mode, entity, log, output, b)
  {
    forall d | d in RowsIn(b) && d.reply.Acked? && LockHolding(mode)
      ensures Finalised(log, 0, drafts, mode, entity, d)
      ensures mode.DeferCommit? ==> Stores(output, KeyFor(entity, d), d.num)
    {
      var i :| 0 <= i < |RowsIn(b)| && RowsIn(b)[i] == d;
      assert Finalised(log, 0, drafts, mode, entity, RowsIn(b)[i]);
      if mode.DeferCommit? {
        BuiltStores(drafts, keys, output, KeyFor(entity, d), d.num);
      }
    }
  }

  /** A run fails after batch `j`, with the rows of all batches up to it in the table, for a reason one of them gave. */
  ghost predicate FailsAfter(mode: Mode, policy: Policy, batches: seq<Batch>, rows: seq<int>, j: nat) {
    0 < j <= |batches| && RowsOf(mode, batches[..j], rows) && SomeMayFail(mode, policy, batches[..j])
  }

  ghost predicate FailsForABatch(mode: Mode, policy: Policy, batches: seq<Batch>, rows: seq<int>) {
    exists j :: FailsAfter(mode, policy, batches, rows, j)
  }

  /** A run: commit, carry, process every batch, write the state once at the end. `None` is a run that failed or
    crashed. `rows` is the table. */
  method RunOnce(bus: ServiceBus, mode: Mode, policy: Policy, entity: Entity, input: seq<PendingEntity>,
                 batches: seq<Batch>)
    returns (output: Option<seq<PendingEntity>>, commitEnd: nat, report: Report, rows: seq<int>)
    requires bus.Valid() && bus.log == [] && bus.calls == [] && !mode.ReceiveAndDelete?
    modifies bus
    ensures bus.Valid() && bus.origin == old(bus.world) && Met(report, old(bus.faults), bus.faults)
    ensures LawfulRun(Run(mode, entity, bus.log, commitEnd, report, output.Some?, StateOf(output), false), input,
                      old(bus.world))
    ensures output.Some? ==> AllExtracted(mode, entity, bus.log, output.value, batches) && RowsOf(mode, batches, rows)
    ensures output.Some? && !mode.Peek? ==> StoresOnly(entity, input, report.held, output.value, batches)
    ensures SettlesFor(mode, policy, entity, bus.log, batches)
    ensures output.Some? ==> !SomeMustFail(mode, batches)
    ensures output.None? ==>
      (rows == [] && CommitFailed(old(bus.faults), bus.faults)) || FailsForABatch(mode, policy, batches, rows)
    ensures old(bus.faults) == [] && AllOfOnePartition(input) ==>
      report == NOTHING_REPORTED && (output.Some? || FailsForABatch(mode, policy, batches, rows))
    ensures forall size: Id -> int :: InOrder(input, size) && BatchesSized(batches, entity, size) ==>
      CallsFit(bus.calls, size) && (output.Some? ==> InOrder(output.value, size))
  {
    var builder := new PendingSetBuilder();
    var ok, summary;
    ok, report, summary := CommitPending(bus, builder, mode, entity, input);
    commitEnd, rows := |bus.log|, [];
    ghost var f := Frame(mode, policy, entity, input, bus.origin, bus.log, report, builder.drafts);
    if ok {
      ok, rows := ProcessBatches(bus, builder, mode, policy, entity, batches, f);
    }
    output := EndRun(builder, mode, input, f, ok, bus.log, rows, batches);
  }

  /** All the batches, after the commit. */
  method ProcessBatches(bus: ServiceBus, builder: PendingSetBuilder, mode: Mode, policy: Policy, entity: Entity,
                        batches: seq<Batch>, ghost f: Frame) returns (ok: bool, rows: seq<int>)
    requires bus.Valid() && builder.Valid() && !mode.ReceiveAndDelete? && f.commitLog == bus.log
    requires f.mode == mode && f.policy == policy && f.entity == entity && f.carried == builder.drafts
    requires LawfulSoFar(bus.log, mode, entity, f.input) && Founded(f.carried, f.input, f.report.held, entity, {})
    requires forall i :: 0 <= i < |bus.log| ==> bus.log[i].Taken? || Environment(bus.log[i])
    requires !mode.Peek? ==> CarriedOn(f.carried, f.input, f.report.stale, f.world, bus.log)
    modifies bus`world, bus`log, bus`weather, builder
    ensures bus.Valid() && builder.Valid() && LawfulSoFar(bus.log, mode, entity, f.input)
    ensures SettlesFor(mode, policy, entity, bus.log, batches)
    ensures ok ==> RunSoFar(f, bus.log, builder.drafts, rows, batches) && RowsOf(mode, batches, rows)
    ensures if ok then !SomeMustFail(mode, batches) else FailsForABatch(mode, policy, batches, rows)
    ensures forall size: Id -> int ::
      DraftsInOrder(old(builder.drafts), size) && BatchesSized(batches, entity, size) ==>
        DraftsInOrder(builder.drafts, size)
  {
    var sink := new OutputTable();
    var processor := new Processor(mode, policy, entity);
    RunBegins(f);
    var outcomes;
    ok, outcomes := ProcessAll(bus, sink, builder, processor, batches, f);
    rows := sink.rows;
    TakeAll(batches);
    SettlesForMore(mode, policy, entity, bus.log, batches, |outcomes|);
  }

  lemma SettlesForMore(mode: Mode, policy: Policy, entity: Entity, log: seq<Effect>, batches: seq<Batch>, i: nat)
    requires i <= |batches| && SettlesFor(mode, policy, entity, log, batches[..i])
    ensures SettlesFor(mode, policy, entity, log, batches)
  {
    forall j | 0 <= j < |log| && log[j].Settled? ensures SettledFor(mode, policy, entity, log[j], batches) {
      var k, h :|
        0 <= k < i && AptIn(h, log[j], batches[..i][k].deliveries)
        && h.mode == mode && h.policy == policy && h.entity == entity && h.generation == batches[..i][k].generation;
      assert batches[k] == batches[..i][k];
    }
  }

  /** The state is written once at the end, unless the run failed. */
  method EndRun(builder: PendingSetBuilder, mode: Mode, input: seq<PendingEntity>, ghost f: Frame, ok: bool,
                ghost log: seq<Effect>, ghost rows: seq<int>, ghost batches: seq<Batch>)
      returns (output: Option<seq<PendingEntity>>)
    requires builder.Valid() && LawfulReport(f.entity, f.report, f.input) && f.mode == mode && f.input == input
    requires LawfulSoFar(log, f.mode, f.entity, f.input) && Founded(f.carried, f.input, f.report.held, f.entity, {})
    requires ok ==> RunSoFar(f, log, builder.drafts, rows, batches)
    ensures output.Some? == ok
    ensures LawfulRun(Run(f.mode, f.entity, log, |f.commitLog|, f.report, output.Some?, StateOf(output), false),
                      f.input, f.world)
    ensures ok ==> AllExtracted(f.mode, f.entity, log, output.value, batches)
    ensures ok && !f.mode.Peek? ==> StoresOnly(f.entity, f.input, f.report.held, output.value, batches)
    ensures forall size: Id -> int :: InOrder(f.input, size) && DraftsInOrder(builder.drafts, size) && ok ==>
      InOrder(output.value, size)
  {
    RunStops(f.mode, f.entity, f.input, |f.commitLog|, f.report, log, f.world);
    output := None;
    if ok && mode.Peek? {
      StoredIsExtracted(f, log, builder.drafts, rows, batches, [], input);
      output := Some(input);
    } else if ok {
      var built := builder.Build();
      RunEnds(f, log, builder.drafts, rows, batches, builder.order, built);
      StoredIsExtracted(f, log, builder.drafts, rows, batches, builder.order, built);
      output := Some(built);
    }
  }

  function StateOf(output: Option<seq<PendingEntity>>): seq<PendingEntity> {
    if output.Some? then output.value else []
  }

  /** Nothing in these batches can fail a run: the sink and the connection hold, and what cannot be read is no
    failure. */
  ghost predicate Untroubled(batches: seq<Batch>, policy: Policy) {
    forall i :: 0 <= i < |batches| ==> AllEasy(batches[i].deliveries, policy) && batches[i].luck == GOOD_LUCK
  }

  /** Every retry the batches so far asked for is among the verdicts. */
  ghost predicate AllNoted(outcomes: seq<Outcome>, batches: seq<Batch>, verdicts: set<(int, int)>) {
    && |outcomes| <= |batches|
    && forall i :: 0 <= i < |outcomes| && outcomes[i].Done? ==>
         Noted(outcomes[i].retried, batches[i].generation, verdicts)
  }

  lemma NotedNext(outcomes: seq<Outcome>, batches: seq<Batch>, verdicts: set<(int, int)>, verdicts': set<(int, int)>,
                  r: Outcome)
    requires AllNoted(outcomes, batches, verdicts) && verdicts <= verdicts' && |outcomes| < |batches|
    requires r.Done? ==> Noted(r.retried, batches[|outcomes|].generation, verdicts')
    ensures AllNoted(outcomes + [r], batches, verdicts')
  {
  }

  /** A message is retried on one connection only: batches that ask for it again belong to the same generation. */
  ghost predicate OneGeneration(outcomes: seq<Outcome>, batches: seq<Batch>) {
    && |outcomes| <= |batches|
    && forall i, j, n :: 0 <= i < j < |outcomes| && outcomes[i].Done? && outcomes[j].Done?
                         && n in outcomes[i].retried && n in outcomes[j].retried ==>
         batches[i].generation == batches[j].generation
  }

  lemma NotedOnce(outcomes: seq<Outcome>, batches: seq<Batch>, verdicts: set<(int, int)>, firstFailure: map<int, int>)
    requires AllNoted(outcomes, batches, verdicts)
    requires forall v :: v in verdicts ==> v.0 in firstFailure && firstFailure[v.0] == v.1
    ensures OneGeneration(outcomes, batches)
  {
    forall i, j, n | 0 <= i < j < |outcomes| && outcomes[i].Done? && outcomes[j].Done?
                     && n in outcomes[i].retried && n in outcomes[j].retried
      ensures batches[i].generation == batches[j].generation
    {
      assert (n, batches[i].generation) in verdicts && (n, batches[j].generation) in verdicts;
    }
  }

  /** How one batch ends and what that says of it. */
  lemma BatchTells(h: Handling, b: Batch, failing: bool, r: Outcome)
    requires EndsJustly(h, b.deliveries, b.luck, failing, r)
    ensures r.Interrupted? ==> Troubled(h.mode, b)
    ensures !GoesOn(r, b) ==> failing || MayFail(h.mode, h.policy, b)
    ensures GoesOn(r, b) ==> !MustFail(h.mode, b)
    ensures SomeFailing(h, b.deliveries) ==> MayFail(h.mode, h.policy, b)
  {
  }

  /** A failure, come or to come, has a reason in the batches so far, and while the run goes on none of them must fail
    it. */
  ghost predicate Judged(mode: Mode, policy: Policy, batches: seq<Batch>, i: nat, ok: bool, failing: bool) {
    && i <= |batches| && (failing || !ok ==> SomeMayFail(mode, policy, batches[..i]))
    && if ok then !SomeMustFail(mode, batches[..i]) else i > 0
  }

  lemma JudgedNext(mode: Mode, policy: Policy, batches: seq<Batch>, i: nat, r: Outcome, failing: bool, failing': bool)
    requires i < |batches| && Judged(mode, policy, batches, i, true, failing)
    requires failing' || !GoesOn(r, batches[i]) ==> failing || MayFail(mode, policy, batches[i])
    requires GoesOn(r, batches[i]) ==> !MustFail(mode, batches[i])
    ensures Judged(mode, policy, batches, i + 1, GoesOn(r, batches[i]), failing')
  {
    assert batches[..i + 1][i] == batches[i];
    assert forall j :: 0 <= j < i ==> batches[..i + 1][j] == batches[..i][j];
  }

  /** Batches that cannot fail a run do not fail it. */
  lemma UntroubledGoesOn(mode: Mode, policy: Policy, batches: seq<Batch>, rows: seq<int>)
    requires Untroubled(batches, policy)
    ensures !FailsForABatch(mode, policy, batches, rows)
  {
    forall j | 0 < j <= |batches| ensures !SomeMayFail(mode, policy, batches[..j]) {
      forall i | 0 <= i < j ensures !MayFail(mode, policy, batches[..j][i]) {
        assert batches[..j][i] == batches[i];
        assert AllEasy(batches[i].deliveries, policy);
      }
    }
  }

  /** The next batch of a run, after whatever happens at the broker before it. */
  method ProcessNext(bus: ServiceBus, sink: OutputTable, builder: PendingSetBuilder, processor: Processor,
                     batches: seq<Batch>, i: nat, ghost f: Frame) returns (r: Outcome)
    requires bus.Valid() && builder.Valid() && processor.Valid() && ArmedTruly(sink.armed, bus.log)
    requires processor.mode == f.mode && processor.policy == f.policy && processor.entity == f.entity
    requires !f.mode.ReceiveAndDelete? && i < |batches|
    requires RunSoFar(f, bus.log, builder.drafts, sink.rows, batches[..i])
    modifies bus`world, bus`log, bus`weather, sink, builder, processor
    ensures bus.Valid() && builder.Valid() && processor.Valid() && ArmedTruly(sink.armed, bus.log)
    ensures RunSoFar(f, bus.log, builder.drafts, sink.rows, batches[..i + 1])
    ensures old(processor.verdicts) <= processor.verdicts
    ensures r.Done? ==> Noted(r.retried, batches[i].generation, processor.verdicts)
    ensures processor.failPending || !GoesOn(r, batches[i]) ==>
      old(processor.failPending) || MayFail(f.mode, f.policy, batches[i])
    ensures GoesOn(r, batches[i]) ==> !MustFail(f.mode, batches[i])
    ensures forall size: Id -> int ::
      DraftsInOrder(old(builder.drafts), size) && BatchesSized(batches, f.entity, size) ==>
        DraftsInOrder(builder.drafts, size)
  {
    ghost var log0, b := bus.log, batches[i];
    bus.Pass();
    RunWaits(f, log0, bus.log, sink.armed, builder.drafts, sink.rows, batches[..i]);
    ghost var h, log, drafts, rows := processor.HandlingOf(b.generation), bus.log, builder.drafts, sink.rows;
    ghost var failing := processor.failPending;
    r := processor.Process(bus, sink, builder, batches[i].deliveries, batches[i].generation, batches[i].luck);
    BatchTells(h, b, failing, r);
    WorkedNext(f, h, log, bus.log, drafts, builder.drafts, rows, sink.rows, batches[..i], b);
    RunGoesOn(f, log, bus.log, sink.armed, drafts, builder.drafts, rows, sink.rows, batches[..i], b);
    TakeSnoc(batches, i);
    forall size: Id -> int | DraftsInOrder(drafts, size) && BatchesSized(batches, f.entity, size)
      ensures DraftsInOrder(builder.drafts, size) {
      DraftsStayInOrder(batches, i, f.entity, size, log, bus.log, drafts, builder.drafts);
    }
  }

  /** Whether the run goes on after this batch. */
  predicate GoesOn(r: Outcome, b: Batch) {
    !r.UserFailed? && (r.Interrupted? ==> b.goesOn)
  }

  /** The batches of a run, with whatever happens at the broker before each. */
  method ProcessAll(bus: ServiceBus, sink: OutputTable, builder: PendingSetBuilder, processor: Processor,
                    batches: seq<Batch>, ghost f: Frame) returns (ok: bool, outcomes: seq<Outcome>)
    requires bus.Valid() && builder.Valid() && processor.Valid() && ArmedTruly(sink.armed, bus.log)
    requires processor.mode == f.mode && processor.policy == f.policy && processor.entity == f.entity
    requires !f.mode.ReceiveAndDelete? && !processor.failPending
    requires RunSoFar(f, bus.log, builder.drafts, sink.rows, [])
    modifies bus`world, bus`log, bus`weather, sink, builder, processor
    ensures bus.Valid() && builder.Valid() && |outcomes| <= |batches| && (ok ==> |outcomes| == |batches|)
    ensures OneGeneration(outcomes, batches)
    ensures RunSoFar(f, bus.log, builder.drafts, sink.rows, batches[..|outcomes|])
    ensures ok ==> !SomeMustFail(f.mode, batches)
    ensures !ok ==> FailsAfter(f.mode, f.policy, batches, sink.rows, |outcomes|)
    ensures forall size: Id -> int ::
      DraftsInOrder(old(builder.drafts), size) && BatchesSized(batches, f.entity, size) ==>
        DraftsInOrder(builder.drafts, size)
  {
    outcomes, ok := [], true;
    var i := 0;
    while i < |batches| && ok
      invariant i == |outcomes| <= |batches| && AllNoted(outcomes, batches, processor.verdicts)
      invariant processor.Valid() && bus.Valid() && builder.Valid() && ArmedTruly(sink.armed, bus.log)
      invariant RunSoFar(f, bus.log, builder.drafts, sink.rows, batches[..i])
      invariant Judged(f.mode, f.policy, batches, i, ok, processor.failPending)
      invariant forall size: Id -> int ::
        DraftsInOrder(old(builder.drafts), size) && BatchesSized(batches, f.entity, size) ==>
          DraftsInOrder(builder.drafts, size)
      decreases |batches| - i
    {
      ghost var verdicts, failing := processor.verdicts, processor.failPending;
      var r := ProcessNext(bus, sink, builder, processor, batches, i, f);
      ok := GoesOn(r, batches[i]);
      NotedNext(outcomes, batches, verdicts, processor.verdicts, r);
      JudgedNext(f.mode, f.policy, batches, i, r, failing, processor.failPending);
      outcomes, i := outcomes + [r], i + 1;
    }
    TakeAll(batches);
    NotedOnce(outcomes, batches, processor.verdicts, processor.firstFailure);
  }

  // ---------------------------------------------------------------- whole histories

  /** One run to come: its settings, the network and the other users of the broker, its batches; where it crashes, if it
    does, and whether the platform adopts its output. */
  datatype Plan = Plan(mode: Mode, policy: Policy, entity: Entity, faults: seq<Fault>, weather: seq<seq<Effect>>,
                       batches: seq<Batch>, crash: Option<nat>, adopt: bool)

  ghost predicate Plannable(plans: seq<Plan>) {
    forall i :: 0 <= i < |plans| ==>
      (plans[i].mode.DeferCommit? || plans[i].mode.Peek?) && AllEnvironment(plans[i].weather)
  }

  /** The run is the one that was planned: a finished run is adopted exactly as the plan says; entities are reported as
    stale and keys are carried on for errors of the plan only; what is settled belongs to its batches, and a finished
    run has done all of them. */
  ghost predicate OfPlan(r: Run, plan: Plan) {
    && r.mode == plan.mode && r.entity == plan.entity && r.report.staleErrors <= StaleLeft(plan.faults)
    && r.report.heldErrors <= Left(plan.faults, SessionHeld) && (r.adopted <==> r.finished && plan.adopt)
    && SettlesFor(r.mode, plan.policy, r.entity, r.log, plan.batches)
    && (r.finished ==> AllExtracted(r.mode, r.entity, r.log, r.output, plan.batches))
    && (r.finished && plan.crash.Some? ==> |r.log| < plan.crash.value)
  }

  /** No call fails, no batch does, and nothing crashes. */
  ghost predicate Smooth(plan: Plan) {
    plan.crash.None? && plan.faults == [] && Untroubled(plan.batches, plan.policy)
  }

  ghost predicate AllOfPlans(h: seq<Run>, plans: seq<Plan>) {
    && |h| == |plans|
    && forall i :: 0 <= i < |h| ==> OfPlan(h[i], plans[i]) && (Smooth(plans[i]) ==> h[i].finished)
  }

  /** A smooth run writes the rows of every batch and stores exactly what it defers: each acknowledged row under its own
    key, and nothing of its input. */
  lemma SmoothRunIsComplete(h: seq<Run>, plans: seq<Plan>, q: nat, input: seq<PendingEntity>, w: World)
    requires AllOfPlans(h, plans) && q < |h| && Smooth(plans[q]) && plans[q].mode.DeferCommit?
    requires LawfulRun(h[q], input, w)
    ensures h[q].finished && h[q].report.held == {} && h[q].report.stale == {}
    ensures AllExtracted(h[q].mode, h[q].entity, h[q].log, h[q].output, plans[q].batches)
    ensures forall i :: 0 <= i < |plans[q].batches| ==> !Troubled(plans[q].mode, plans[q].batches[i])
    ensures forall k, n :: Stores(h[q].output, k, n) ==>
      k.entity == h[q].entity && n in Deferred(h[q].log, h[q].entity)
  {
    assert OfPlan(h[q], plans[q]) && h[q].finished;
    forall i | 0 <= i < |plans[q].batches| ensures !Troubled(plans[q].mode, plans[q].batches[i]) {
      assert AllEasy(plans[q].batches[i].deliveries, plans[q].policy);
    }
  }

  /** A run, cut off after some of its effects if the plan says so. */
  function Cut(r: Run, plan: Plan): Run {
    if plan.crash.Some? && plan.crash.value <= |r.log|
    then r.(log := r.log[..plan.crash.value], finished := false, adopted := false)
    else r.(adopted := plan.adopt && r.finished)
  }

  lemma CutIsLawful(r: Run, plan: Plan, input: seq<PendingEntity>, w: World)
    requires LawfulRun(r, input, w) && !r.adopted
    ensures LawfulRun(Cut(r, plan), input, w)
  {
    if plan.crash.Some? && plan.crash.value < |r.log| {
      SafeAtEveryStep(r.log, plan.crash.value);
    } else if plan.crash.Some? && plan.crash.value == |r.log| {
      assert r.log[..plan.crash.value] == r.log;
    }
  }

  lemma CutIsOfPlan(r: Run, plan: Plan)
    requires r.mode == plan.mode && r.entity == plan.entity && r.report.staleErrors <= StaleLeft(plan.faults)
    requires r.report.heldErrors <= Left(plan.faults, SessionHeld)
    requires SettlesFor(r.mode, plan.policy, r.entity, r.log, plan.batches)
    requires r.finished ==> AllExtracted(r.mode, r.entity, r.log, r.output, plan.batches)
    ensures OfPlan(Cut(r, plan), plan)
  {
  }

  lemma HistorySnoc(h: seq<Run>, r: Run)
    requires LawfulHistory(h) && LawfulRun(r, Visible(h), WorldAfter(h)) && (r.mode.DeferCommit? || r.mode.Peek?)
    ensures LawfulHistory(h + [r]) && WorldAfter(h + [r]) == Replay(WorldAfter(h), r.log)
    ensures Visible(h + [r]) == if r.adopted then r.output else Visible(h)
  {
    assert Front(h + [r]) == h;
  }

  /** Any sequence of runs of the modelled classes, with crashes, adopted and discarded outputs and other users of the
    broker, is a lawful history: every theorem of the protocol is about it. Every call of every commit fits the
    broker. */
  method RunHistory(plans: seq<Plan>, partitioned: set<Entity>) returns (h: seq<Run>, calls: seq<Call>)
    requires Plannable(plans)
    ensures LawfulHistory(h) && AllOfPlans(h, plans)
    ensures forall size: Id -> int :: PlansSized(plans, size) ==> CallsFit(calls, size)
  {
    h, calls := [], [];
    var world, pending := World(map[], {}, {}, map[]), [];
    for i := 0 to |plans|
      invariant LawfulHistory(h) && AllOfPlans(h, plans[..i]) && world == WorldAfter(h) && pending == Visible(h)
      invariant forall size: Id -> int :: PlansSized(plans, size) ==> CallsFit(calls, size) && InOrder(pending, size)
    {
      var run, more := RunPlan(plans[i], world, pending, partitioned);
      NothingHasSize(plans, pending, calls);
      HistorySnoc(h, run);
      TakeSnoc(plans, i);
      h, calls := h + [run], calls + more;
      world := Replay(world, run.log);
      pending := if run.adopted then run.output else pending;
    }
  }

  /** Whatever is true of all sizes is true of none. */
  lemma NothingHasSize(plans: seq<Plan>, pending: seq<PendingEntity>, calls: seq<Call>)
    requires forall size: Id -> int :: PlansSized(plans, size) ==> CallsFit(calls, size) && InOrder(pending, size)
    ensures AllOfOnePartition(pending)
  {
    var none := (id: Id) => 0;
    assert PlansSized(plans, none);
    assert InOrder(pending, none);
  }

  /** One run of a plan, from the broker and the pending set it finds. */
  method RunPlan(plan: Plan, world: World, pending: seq<PendingEntity>, partitioned: set<Entity>)
      returns (run: Run, calls: seq<Call>)
    requires (plan.mode.DeferCommit? || plan.mode.Peek?) && AllEnvironment(plan.weather)
    ensures LawfulRun(run, pending, world) && OfPlan(run, plan)
    ensures AllOfOnePartition(pending) && Smooth(plan) ==> run.finished
    ensures forall size: Id -> int :: InOrder(pending, size) && BatchesSized(plan.batches, plan.entity, size) ==>
      CallsFit(calls, size) && (run.adopted ==> InOrder(run.output, size))
  {
    var bus := new ServiceBus(world, plan.faults, plan.weather, partitioned);
    var output, commitEnd, report, _ := RunOnce(bus, plan.mode, plan.policy, plan.entity, pending, plan.batches);
    var made := Run(plan.mode, plan.entity, bus.log, commitEnd, report, output.Some?, StateOf(output), false);
    CutIsLawful(made, plan, pending, world);
    CutIsOfPlan(made, plan);
    if Smooth(plan) {
      forall rows ensures !FailsForABatch(plan.mode, plan.policy, plan.batches, rows) {
        UntroubledGoesOn(plan.mode, plan.policy, plan.batches, rows);
      }
    }
    run, calls := Cut(made, plan), bus.calls;
  }

  ghost predicate PlansSized(plans: seq<Plan>, size: Id -> int) {
    forall i :: 0 <= i < |plans| ==> BatchesSized(plans[i].batches, plans[i].entity, size)
  }
}
