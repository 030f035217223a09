/** The pending-commit set a defer-commit run stores and the builder that collects it
  (src/state.py:68-89, src/state.py:163-235). */
module Pending {
  import opened Ranges
  import opened Broker

  datatype Group = Group(session: Option<string>, partition: int, maxBody: int, ranges: seq<Range>)

  datatype PendingEntity = PendingEntity(entity: Entity, groups: seq<Group>)

  datatype Key = Key(entity: Entity, session: Option<string>, partition: int)

  datatype Draft = Draft(nums: seq<int>, carried: seq<Range>, maxBody: int)

  ghost function DraftNumbers(d: Draft): set<int> {
    Elements(d.nums) + Cover(d.carried)
  }

  /** The stored set holds `num` for the group key `k`. */
  ghost predicate Stores(pending: seq<PendingEntity>, k: Key, num: int) {
    exists p, g :: p in pending && g in p.groups && KeyOf(p.entity, g) == k && num in Cover(g.ranges)
  }

  ghost predicate Holds(pending: seq<PendingEntity>, entity: Entity, num: int) {
    exists p, g :: p in pending && g in p.groups && p.entity == entity && num in Cover(g.ranges)
  }

  ghost function StoredEntities(pending: seq<PendingEntity>): set<Entity> {
    set p | p in pending :: p.entity
  }

  function KeyOf(entity: Entity, g: Group): Key {
    Key(entity, g.session, g.partition)
  }

  /** All numbers of a group carry the partition id of the group. */
  ghost predicate OfOnePartition(g: Group) {
    forall n :: n in Cover(g.ranges) ==> PartitionOf(n) == g.partition
  }

  ghost predicate AllOfOnePartition(pending: seq<PendingEntity>) {
    forall p, g :: p in pending && g in p.groups ==> OfOnePartition(g)
  }

  ghost predicate OnePartitionDrafts(drafts: map<Key, Draft>) {
    forall k, n :: k in drafts && n in DraftNumbers(drafts[k]) ==> PartitionOf(n) == k.partition
  }

  datatype Added = Added(key: Key, num: int, bytes: int)

  function Larger(a: int, b: int): int {
    if a < b then b else a
  }

  ghost function NumbersIn(drafts: map<Key, Draft>, k: Key): set<int> {
    if k in drafts then DraftNumbers(drafts[k]) else {}
  }

  /** `g` is the stored form of the draft of its key. */
  ghost predicate Matches(drafts: map<Key, Draft>, entity: Entity, g: Group) {
    var k := KeyOf(entity, g);
    k in drafts && g.maxBody == drafts[k].maxBody && IsNormal(g.ranges, DraftNumbers(drafts[k]))
  }

  ghost predicate EntityStores(p: PendingEntity, k: Key, num: int) {
    exists g :: g in p.groups && KeyOf(p.entity, g) == k && num in Cover(g.ranges)
  }

  lemma StoresByEntity(pending: seq<PendingEntity>, k: Key, num: int)
    ensures Stores(pending, k, num) <==> exists p :: p in pending && EntityStores(p, k, num)
  {
  }

  lemma EntityStoresSnoc(entity: Entity, groups: seq<Group>, g: Group, k: Key, n: int)
    ensures EntityStores(PendingEntity(entity, groups + [g]), k, n) <==>
      EntityStores(PendingEntity(entity, groups), k, n) || (KeyOf(entity, g) == k && n in Cover(g.ranges))
  {
  }

  lemma {:induction false} CoverConcat(a: seq<Range>, b: seq<Range>)
    ensures Cover(a + b) == Cover(a) + Cover(b)
  {
    if b == [] {
      assert a + b == a;
    } else {
      CoverConcat(a, Front(b));
      assert a + b == (a + Front(b)) + [Last(b)];
      CoverSnoc(a + Front(b), Last(b));
    }
  }

  /** `size` gives the recorded body bytes of every message; the largest body of a draft covers all its numbers. */
  ghost predicate FitsDrafts(drafts: map<Key, Draft>, size: Id -> int) {
    forall k, n {:trigger n in NumbersIn(drafts, k)} :: n in NumbersIn(drafts, k) ==>
      size(Id(k.entity, n)) <= drafts[k].maxBody
  }

  ghost predicate FitsGroup(entity: Entity, g: Group, size: Id -> int) {
    forall n :: n in Cover(g.ranges) ==> size(Id(entity, n)) <= g.maxBody
  }

  ghost predicate FitsPending(pending: seq<PendingEntity>, size: Id -> int) {
    forall p, g :: p in pending && g in p.groups ==> FitsGroup(p.entity, g, size)
  }

  /** `d` takes the place of the draft of `k`; it holds `more` beside what that one held, and its largest body covers
    both. */
  lemma FitsMore(drafts: map<Key, Draft>, k: Key, d: Draft, more: set<int>, size: Id -> int)
    requires FitsDrafts(drafts, size) && DraftNumbers(d) == NumbersIn(drafts, k) + more
    requires k in drafts ==> drafts[k].maxBody <= d.maxBody
    requires forall n :: n in more ==> size(Id(k.entity, n)) <= d.maxBody
    ensures FitsDrafts(drafts[k := d], size)
  {
    var drafts' := drafts[k := d];
    forall k', n | n in NumbersIn(drafts', k') ensures size(Id(k'.entity, n)) <= drafts'[k'].maxBody {
      if k' != k {
        assert n in NumbersIn(drafts, k');
      } else if n !in more {
        assert n in NumbersIn(drafts, k);
      }
    }
  }

  class PendingSetBuilder {
    var drafts: map<Key, Draft>
    var order: seq<Key>
    ghost var recorded: set<Added>

    ghost predicate Valid()
      reads this
    {
      && drafts.Keys == Elements(order) && Distinct(order)
      && (forall a :: a in recorded ==>
            a.key in drafts && a.num in DraftNumbers(drafts[a.key]) && a.bytes <= drafts[a.key].maxBody)
    }

    ghost predicate OnePartitionEach()
      reads this
    {
      OnePartitionDrafts(drafts)
    }

    constructor ()
      ensures Valid() && OnePartitionEach() && drafts == map[] && recorded == {}
    {
      drafts, order, recorded := map[], [], {};
    }

    function DraftFor(k: Key): Draft
      reads this
    {
      if k in drafts then drafts[k] else Draft([], [], 0)
    }

    /** Replaces one draft by one that holds at least as much. */
    method SetDraft(k: Key, d: Draft)
      requires Valid()
      requires DraftNumbers(DraftFor(k)) <= DraftNumbers(d) && DraftFor(k).maxBody <= d.maxBody
      modifies this`drafts, this`order
      ensures Valid() && drafts == old(drafts)[k := d]
    {
      if k !in drafts {
        order := order + [k];
      }
      drafts := drafts[k := d];
    }

    /** A deferral joins the pending set (src/state.py:192-196). */
    method Add(entity: Entity, num: int, session: Option<string>, bytes: int)
      requires Valid()
      modifies this
      ensures Valid() && (old(OnePartitionEach()) ==> OnePartitionEach())
      ensures forall k :: k != Key(entity, session, PartitionOf(num)) ==>
        NumbersIn(drafts, k) == NumbersIn(old(drafts), k)
      ensures var k := Key(entity, session, PartitionOf(num)); NumbersIn(drafts, k) == NumbersIn(old(drafts), k) + {num}
      ensures recorded == old(recorded) + {Added(Key(entity, session, PartitionOf(num)), num, bytes)}
      ensures forall size: Id -> int :: FitsDrafts(old(drafts), size) && size(Id(entity, num)) <= bytes ==>
        FitsDrafts(drafts, size)
      ensures RangeStarts(drafts) <= RangeStarts(old(drafts)) + {(Key(entity, session, PartitionOf(num)), num)}
    {
      var k := Key(entity, session, PartitionOf(num));
      var d := DraftFor(k);
      var nums := if num in d.nums then d.nums else d.nums + [num];
      ElementsConcat(d.nums, [num]);
      assert Elements(nums) == Elements(d.nums) + {num};
      ghost var before := drafts;
      SetDraft(k, Draft(nums, d.carried, Larger(d.maxBody, bytes)));
      forall size: Id -> int | FitsDrafts(before, size) && size(Id(entity, num)) <= bytes
        ensures FitsDrafts(drafts, size)
      {
        FitsMore(before, k, drafts[k], {num}, size);
      }
      StartsMore(before, drafts, k, num);
      recorded := recorded + {Added(k, num, bytes)};
    }

    method CarryGroup(entity: Entity, g: Group)
      requires Valid()
      modifies this`drafts, this`order
      ensures Valid()
      ensures forall k :: k != KeyOf(entity, g) ==> NumbersIn(drafts, k) == NumbersIn(old(drafts), k)
      ensures NumbersIn(drafts, KeyOf(entity, g)) == NumbersIn(old(drafts), KeyOf(entity, g)) + Cover(g.ranges)
      ensures KeyOf(entity, g) in drafts && g.maxBody <= drafts[KeyOf(entity, g)].maxBody
      ensures forall size: Id -> int :: FitsDrafts(old(drafts), size) && FitsGroup(entity, g, size) ==>
        FitsDrafts(drafts, size)
    {
      var k := KeyOf(entity, g);
      var d := DraftFor(k);
      CoverConcat(d.carried, g.ranges);
      var carried := MergeRanges(d.carried + g.ranges);
      ghost var before := drafts;
      SetDraft(k, Draft(d.nums, carried, Larger(d.maxBody, g.maxBody)));
      forall size: Id -> int | FitsDrafts(before, size) && FitsGroup(entity, g, size) ensures FitsDrafts(drafts, size) {
        FitsMore(before, k, drafts[k], Cover(g.ranges), size);
      }
    }

    method CarryEntity(p: PendingEntity)
      requires Valid()
      modifies this`drafts, this`order
      ensures Valid()
      ensures forall k, n :: n in NumbersIn(drafts, k) <==> n in NumbersIn(old(drafts), k) || EntityStores(p, k, n)
      ensures forall size: Id -> int :: FitsDrafts(old(drafts), size) && FitsPending([p], size) ==>
        FitsDrafts(drafts, size)
    {
      for j := 0 to |p.groups|
        invariant Valid()
        invariant forall k, n :: n in NumbersIn(drafts, k) <==>
                    n in NumbersIn(old(drafts), k) || EntityStores(PendingEntity(p.entity, p.groups[..j]), k, n)
        invariant forall size: Id -> int :: FitsDrafts(old(drafts), size) && FitsPending([p], size) ==>
          FitsDrafts(drafts, size)
      {
        assert p in [p] && p.groups[j] in p.groups;
        CarryGroup(p.entity, p.groups[j]);
        assert p.groups[..j + 1] == p.groups[..j] + [p.groups[j]];
        forall k, n
          ensures EntityStores(PendingEntity(p.entity, p.groups[..j + 1]), k, n) <==>
            EntityStores(PendingEntity(p.entity, p.groups[..j]), k, n)
            || (KeyOf(p.entity, p.groups[j]) == k && n in Cover(p.groups[j].ranges))
        {
          EntityStoresSnoc(p.entity, p.groups[..j], p.groups[j], k, n);
        }
      }
      assert p.groups[..|p.groups|] == p.groups;
    }

    /** Groups an earlier run stored join the pending set (src/state.py:198-208). */
    method Carry(entities: seq<PendingEntity>)
      requires Valid()
      modifies this`drafts, this`order
      ensures Valid()
      ensures forall k, n :: n in NumbersIn(drafts, k) <==> n in NumbersIn(old(drafts), k) || Stores(entities, k, n)
      ensures entities == [] ==> drafts == old(drafts)
      ensures forall size: Id -> int :: FitsDrafts(old(drafts), size) && FitsPending(entities, size) ==>
        FitsDrafts(drafts, size)
      ensures old(OnePartitionEach()) && AllOfOnePartition(entities) ==> OnePartitionEach()
    {
      for i := 0 to |entities|
        invariant Valid() && (i == 0 ==> drafts == old(drafts))
        invariant forall k, n :: n in NumbersIn(drafts, k) <==>
          n in NumbersIn(old(drafts), k) || Stores(entities[..i], k, n)
        invariant forall size: Id -> int :: FitsDrafts(old(drafts), size) && FitsPending(entities, size) ==>
          FitsDrafts(drafts, size)
      {
        FitsOne(entities, entities[i]);
        CarryEntity(entities[i]);
        assert entities[..i + 1] == entities[..i] + [entities[i]];
        forall k, n
          ensures Stores(entities[..i + 1], k, n) <==> Stores(entities[..i], k, n) || EntityStores(entities[i], k, n)
        {
          StoresByEntity(entities[..i], k, n);
          StoresByEntity(entities[..i + 1], k, n);
        }
      }
      assert entities[..|entities|] == entities;
      if old(OnePartitionEach()) && AllOfOnePartition(entities) {
        forall k, n | k in drafts && n in DraftNumbers(drafts[k]) ensures PartitionOf(n) == k.partition {
          assert n in NumbersIn(drafts, k);
          if n !in NumbersIn(old(drafts), k) {
            var p, g :| p in entities && g in p.groups && KeyOf(p.entity, g) == k && n in Cover(g.ranges);
            assert OfOnePartition(g);
          }
        }
      }
    }

    /** The stored form of one draft. */
    method StoredGroup(k: Key) returns (g: Group)
      requires k in drafts
      ensures KeyOf(k.entity, g) == k && Matches(drafts, k.entity, g) && |g.ranges| == |Starts(NumbersIn(drafts, k))|
    {
      var added := ToRanges(drafts[k].nums);
      CoverConcat(drafts[k].carried, added);
      var ranges := MergeRanges(drafts[k].carried + added);
      RangesAreRuns(ranges);
      assert Cover(ranges) == NumbersIn(drafts, k);
      g := Group(k.session, k.partition, drafts[k].maxBody, ranges);
    }

    /** The stored form (src/state.py:210-231): one group for every key, each the normal form of its numbers. */
    method Build() returns (result: seq<PendingEntity>)
      requires Valid()
      ensures BuiltFrom(drafts, order, result)
      ensures OnePartitionEach() ==> AllOfOnePartition(result)
      ensures forall size: Id -> int :: FitsDrafts(drafts, size) ==> FitsPending(result, size)
      ensures RangesTotal(result) == |RangeStarts(drafts)| && Arranged(order, result)
    {
      result := [];
      for i := 0 to |order|
        invariant BuiltFrom(drafts, order[..i], result) && RangesTotal(result) == KeyRanges(drafts, order[..i])
        invariant Arranged(order[..i], result)
      {
        var g := StoredGroup(order[i]);
        KeyTaken(drafts, order, i);
        result := Append(drafts, order[..i], result, order[i], g);
      }
      TakeAll(order);
      KeyRangesAreStarts(drafts, order);
      StartsOfAll(drafts, order);
      BuiltFits(drafts, order, result);
    }
  }

  /** Every group of `result` is the stored form of one of `keys`, and every one of `keys` has exactly one. */
  ghost predicate BuiltFrom(drafts: map<Key, Draft>, keys: seq<Key>, result: seq<PendingEntity>) {
    && (forall p, g :: p in result && g in p.groups ==> Matches(drafts, p.entity, g) && KeyOf(p.entity, g) in keys)
    && (forall k :: k in keys ==> exists p, g :: p in result && g in p.groups && KeyOf(p.entity, g) == k)
    && (forall i, j :: 0 <= i < j < |result| ==> result[i].entity != result[j].entity)
    && (forall p :: p in result ==> OneGroupEach(p))
  }

  ghost predicate OneGroupEach(p: PendingEntity) {
    forall i, j :: 0 <= i < j < |p.groups| ==> KeyOf(p.entity, p.groups[i]) != KeyOf(p.entity, p.groups[j])
  }

  method FindEntity(result: seq<PendingEntity>, entity: Entity) returns (at: nat)
    ensures at <= |result| && (at < |result| ==> result[at].entity == entity)
    ensures forall i :: 0 <= i < at ==> result[i].entity != entity
  {
    at := 0;
    while at < |result| && result[at].entity != entity
      invariant at <= |result| && forall i :: 0 <= i < at ==> result[i].entity != entity
    {
      at := at + 1;
    }
  }

  lemma NewEntity(drafts: map<Key, Draft>, keys: seq<Key>, result: seq<PendingEntity>, k: Key, g: Group)
    requires BuiltFrom(drafts, keys, result) && KeyOf(k.entity, g) == k && Matches(drafts, k.entity, g)
    requires forall i :: 0 <= i < |result| ==> result[i].entity != k.entity
    ensures BuiltFrom(drafts, keys + [k], result + [PendingEntity(k.entity, [g])])
  {
  }

  lemma ReplacedMatches(drafts: map<Key, Draft>, keys: seq<Key>, result: seq<PendingEntity>, at: nat, k: Key, g: Group,
                        place: nat, p: PendingEntity)
    requires BuiltFrom(drafts, keys, result) && KeyOf(k.entity, g) == k && Matches(drafts, k.entity, g)
    requires at < |result| && result[at].entity == k.entity && place <= |result[at].groups|
    requires p == PendingEntity(k.entity, Inserted(result[at].groups, place, g))
    ensures forall q, h :: q in result[at := p] && h in q.groups ==>
      Matches(drafts, q.entity, h) && KeyOf(q.entity, h) in keys + [k]
  {
  }

  lemma ReplacedHasAll(keys: seq<Key>, result: seq<PendingEntity>, at: nat, k: Key, g: Group, place: nat,
                       p: PendingEntity)
    requires forall k :: k in keys ==> exists q, h :: q in result && h in q.groups && KeyOf(q.entity, h) == k
    requires KeyOf(k.entity, g) == k && at < |result| && result[at].entity == k.entity
    requires place <= |result[at].groups|
    requires p == PendingEntity(k.entity, Inserted(result[at].groups, place, g))
    ensures forall k' :: k' in keys + [k] ==>
      exists q, h :: q in result[at := p] && h in q.groups && KeyOf(q.entity, h) == k'
  {
    var out := result[at := p];
    assert g in p.groups && out[at] == p;
    forall k' | k' in keys ensures exists q, h :: q in out && h in q.groups && KeyOf(q.entity, h) == k' {
      var q, h :| q in result && h in q.groups && KeyOf(q.entity, h) == k';
      var i :| 0 <= i < |result| && result[i] == q;
      assert out[i].entity == q.entity && h in out[i].groups && out[i] in out;
    }
  }

  lemma MoreGroups(drafts: map<Key, Draft>, keys: seq<Key>, result: seq<PendingEntity>, at: nat, k: Key, g: Group,
                   place: nat)
    requires BuiltFrom(drafts, keys, result) && KeyOf(k.entity, g) == k && Matches(drafts, k.entity, g)
    requires at < |result| && result[at].entity == k.entity && k !in keys && place <= |result[at].groups|
    ensures BuiltFrom(drafts, keys + [k],
                      result[at := PendingEntity(k.entity, Inserted(result[at].groups, place, g))])
  {
    var p := PendingEntity(k.entity, Inserted(result[at].groups, place, g));
    InsertedHas(result[at].groups, place, g);
    ReplacedMatches(drafts, keys, result, at, k, g, place, p);
    ReplacedHasAll(keys, result, at, k, g, place, p);
    assert result[at] in result;
    InsertedApart(result[at], place, g);
  }

  lemma InsertedApart(p: PendingEntity, place: nat, g: Group)
    requires OneGroupEach(p) && place <= |p.groups|
    requires forall h :: h in p.groups ==> KeyOf(p.entity, h) != KeyOf(p.entity, g)
    ensures OneGroupEach(PendingEntity(p.entity, Inserted(p.groups, place, g)))
  {
  }

  method Append(ghost drafts: map<Key, Draft>, ghost keys: seq<Key>, result: seq<PendingEntity>, k: Key, g: Group)
    returns (out: seq<PendingEntity>)
    requires BuiltFrom(drafts, keys, result) && k !in keys && KeyOf(k.entity, g) == k && Matches(drafts, k.entity, g)
    requires Arranged(keys, result)
    ensures BuiltFrom(drafts, keys + [k], out) && RangesTotal(out) == RangesTotal(result) + |g.ranges|
    ensures Arranged(keys + [k], out)
  {
    var at := FindEntity(result, k.entity);
    if at == |result| {
      NewEntity(drafts, keys, result, k, g);
      TotalOfNew(result, PendingEntity(k.entity, [g]));
      assert Front([g]) == [] && GroupRanges([g]) == |g.ranges|;
      out := result + [PendingEntity(k.entity, [g])];
      ArrangedNew(keys, result, k, g);
    } else {
      var place := PlaceOf(result[at].groups, g);
      var p := PendingEntity(k.entity, Inserted(result[at].groups, place, g));
      MoreGroups(drafts, keys, result, at, k, g, place);
      TotalOfReplaced(result, at, p);
      InsertedRanges(result[at].groups, place, g);
      out := result[at := p];
      ArrangedMore(keys, result, at, k, p);
    }
  }

  // ---------------------------------------------------------------- the order of the stored set

  function Inserted(groups: seq<Group>, place: nat, g: Group): seq<Group>
    requires place <= |groups|
  {
    groups[..place] + [g] + groups[place..]
  }

  lemma InsertedHas(groups: seq<Group>, place: nat, g: Group)
    requires place <= |groups|
    ensures forall h :: h in Inserted(groups, place, g) <==> h in groups || h == g
  {
    assert groups == groups[..place] + groups[place..];
  }

  lemma {:induction false} InsertedRanges(groups: seq<Group>, place: nat, g: Group)
    requires place <= |groups|
    ensures GroupRanges(Inserted(groups, place, g)) == GroupRanges(groups) + |g.ranges|
  {
    var more := Inserted(groups, place, g);
    if place == |groups| {
      assert Front(more) == groups;
    } else {
      assert Front(more) == Inserted(Front(groups), place, g) && Last(more) == Last(groups);
      InsertedRanges(Front(groups), place, g);
    }
  }

  /** Texts in the order of their characters. */
  predicate TextUpTo(a: string, b: string) {
    a == [] || (b != [] && (a[0] < b[0] || (a[0] == b[0] && TextUpTo(a[1..], b[1..]))))
  }

  lemma {:induction false} TextTotal(a: string, b: string)
    ensures TextUpTo(a, b) || TextUpTo(b, a)
    ensures TextUpTo(a, b) && TextUpTo(b, a) ==> a == b
  {
    if a != [] && b != [] && a[0] == b[0] {
      TextTotal(a[1..], b[1..]);
      assert a == [a[0]] + a[1..] && b == [b[0]] + b[1..];
    }
  }

  lemma {:induction false} TextTransitive(a: string, b: string, c: string)
    requires TextUpTo(a, b) && TextUpTo(b, c)
    ensures TextUpTo(a, c)
  {
    if a != [] && a[0] == b[0] == c[0] {
      TextTransitive(a[1..], b[1..], c[1..]);
    }
  }

  function Text(session: Option<string>): string {
    if session.Some? then session.value else ""
  }

  /** By session, then by partition (src/state.py:223). A group without a session counts as one with the empty text. */
  predicate UpTo(g: Group, h: Group) {
    && TextUpTo(Text(g.session), Text(h.session))
    && (Text(g.session) == Text(h.session) ==> g.partition <= h.partition)
  }

  lemma UpToIsAnOrder(g: Group, h: Group, l: Group)
    ensures UpTo(g, h) || UpTo(h, g)
    ensures UpTo(g, h) && UpTo(h, l) ==> UpTo(g, l)
  {
    TextTotal(Text(g.session), Text(h.session));
    TextTotal(Text(h.session), Text(l.session));
    if UpTo(g, h) && UpTo(h, l) {
      TextTransitive(Text(g.session), Text(h.session), Text(l.session));
    }
  }

  ghost predicate InKeyOrder(groups: seq<Group>) {
    forall i, j :: 0 <= i < j < |groups| ==> UpTo(groups[i], groups[j])
  }

  /** Where the stable sort puts the next group. */
  method PlaceOf(groups: seq<Group>, g: Group) returns (place: nat)
    requires InKeyOrder(groups)
    ensures place <= |groups| && InKeyOrder(Inserted(groups, place, g))
  {
    place := 0;
    while place < |groups| && UpTo(groups[place], g)
      invariant place <= |groups| && forall i :: 0 <= i < place ==> UpTo(groups[i], g)
    {
      place := place + 1;
    }
    forall i | place <= i < |groups| ensures UpTo(g, groups[i]) {
      UpToIsAnOrder(g, groups[place], groups[i]);
    }
  }

  ghost function EntitiesOf(pending: seq<PendingEntity>): seq<Entity> {
    seq(|pending|, i requires 0 <= i < |pending| => pending[i].entity)
  }

  /** The entities of the keys in the order in which they come first. */
  ghost function FirstEntities(keys: seq<Key>): seq<Entity> {
    if keys == [] then []
    else if Last(keys).entity in FirstEntities(Front(keys)) then FirstEntities(Front(keys))
    else FirstEntities(Front(keys)) + [Last(keys).entity]
  }

  /** Entities in the order of their first keys, and the groups of each by session and partition. */
  ghost predicate Arranged(keys: seq<Key>, result: seq<PendingEntity>) {
    EntitiesOf(result) == FirstEntities(keys) && forall p :: p in result ==> InKeyOrder(p.groups)
  }

  lemma ArrangedNew(keys: seq<Key>, result: seq<PendingEntity>, k: Key, g: Group)
    requires Arranged(keys, result) && forall i :: 0 <= i < |result| ==> result[i].entity != k.entity
    ensures Arranged(keys + [k], result + [PendingEntity(k.entity, [g])])
  {
    var more := result + [PendingEntity(k.entity, [g])];
    assert Front(keys + [k]) == keys && Last(keys + [k]) == k;
    assert k.entity !in EntitiesOf(result);
    assert EntitiesOf(more) == EntitiesOf(result) + [k.entity];
  }

  lemma ArrangedMore(keys: seq<Key>, result: seq<PendingEntity>, at: nat, k: Key, p: PendingEntity)
    requires Arranged(keys, result) && at < |result| && result[at].entity == k.entity == p.entity
    requires InKeyOrder(p.groups)
    ensures Arranged(keys + [k], result[at := p])
  {
    assert Front(keys + [k]) == keys && Last(keys + [k]) == k;
    assert EntitiesOf(result)[at] == k.entity;
    assert EntitiesOf(result[at := p]) == EntitiesOf(result);
  }

  lemma FitsOne(entities: seq<PendingEntity>, p: PendingEntity)
    requires p in entities
    ensures forall size: Id -> int :: FitsPending(entities, size) ==> FitsPending([p], size)
  {
  }

  lemma BuiltFits(drafts: map<Key, Draft>, keys: seq<Key>, result: seq<PendingEntity>)
    requires BuiltFrom(drafts, keys, result)
    ensures forall size: Id -> int :: FitsDrafts(drafts, size) ==> FitsPending(result, size)
  {
    forall size: Id -> int, p, g | FitsDrafts(drafts, size) && p in result && g in p.groups
      ensures FitsGroup(p.entity, g, size)
    {
      assert Matches(drafts, p.entity, g);
      forall n | n in Cover(g.ranges) ensures size(Id(p.entity, n)) <= g.maxBody {
        assert n in NumbersIn(drafts, KeyOf(p.entity, g));
      }
    }
  }

  // ---------------------------------------------------------------- how large the stored set gets

  /** Where the stored ranges begin, key by key. */
  ghost function RangeStarts(drafts: map<Key, Draft>): set<(Key, int)> {
    set k, n | k in drafts && n in Starts(DraftNumbers(drafts[k])) :: (k, n)
  }

  lemma StartsMore(drafts: map<Key, Draft>, drafts': map<Key, Draft>, k: Key, num: int)
    requires NumbersIn(drafts', k) == NumbersIn(drafts, k) + {num} && drafts'.Keys == drafts.Keys + {k}
    requires forall k' :: k' in drafts && k' != k ==> drafts'[k'] == drafts[k']
    ensures RangeStarts(drafts') <= RangeStarts(drafts) + {(k, num)}
  {
    StartsOfUnion(NumbersIn(drafts, k), {num});
  }

  ghost function GroupRanges(groups: seq<Group>): nat {
    if groups == [] then 0 else GroupRanges(Front(groups)) + |Last(groups).ranges|
  }

  /** How many ranges a stored set has. */
  ghost function RangesTotal(pending: seq<PendingEntity>): nat {
    if pending == [] then 0 else RangesTotal(Front(pending)) + GroupRanges(Last(pending).groups)
  }

  ghost function KeyRanges(drafts: map<Key, Draft>, keys: seq<Key>): nat {
    if keys == [] then 0 else KeyRanges(drafts, Front(keys)) + |Starts(NumbersIn(drafts, Last(keys)))|
  }

  lemma TotalOfNew(pending: seq<PendingEntity>, p: PendingEntity)
    ensures RangesTotal(pending + [p]) == RangesTotal(pending) + GroupRanges(p.groups)
  {
    assert Front(pending + [p]) == pending;
  }

  lemma {:induction false} TotalOfReplaced(pending: seq<PendingEntity>, at: nat, p: PendingEntity)
    requires at < |pending|
    ensures RangesTotal(pending[at := p]) ==
      RangesTotal(pending) + GroupRanges(p.groups) - GroupRanges(pending[at].groups)
  {
    if at < |pending| - 1 {
      assert Front(pending[at := p]) == Front(pending)[at := p];
      TotalOfReplaced(Front(pending), at, p);
    } else {
      assert Front(pending[at := p]) == Front(pending);
    }
  }

  ghost function StartsOf(drafts: map<Key, Draft>, keys: seq<Key>): set<(Key, int)> {
    set k, n | k in keys && n in Starts(NumbersIn(drafts, k)) :: (k, n)
  }

  lemma PairsSize(k: Key, s: set<int>, pairs: set<(Key, int)>)
    requires pairs == set n | n in s :: (k, n)
    ensures |pairs| == |s|
    decreases |s|
  {
    if s == {} {
      assert pairs == {};
    } else {
      var n := AnyOf(s);
      var fewer := set m | m in s - {n} :: (k, m);
      PairsSize(k, s - {n}, fewer);
      assert pairs == fewer + {(k, n)};
    }
  }

  lemma AnyOf<T>(s: set<T>) returns (x: T)
    requires s != {}
    ensures x in s
  {
    x :| x in s;
  }

  lemma KeyTaken(drafts: map<Key, Draft>, keys: seq<Key>, i: nat)
    requires i < |keys| && Distinct(keys) && Elements(keys) == drafts.Keys
    ensures keys[i] in drafts && keys[..i + 1] == keys[..i] + [keys[i]] && keys[i] !in keys[..i]
    ensures KeyRanges(drafts, keys[..i + 1]) == KeyRanges(drafts, keys[..i]) + |Starts(NumbersIn(drafts, keys[i]))|
  {
    assert keys[i] in Elements(keys);
    assert Front(keys[..i + 1]) == keys[..i];
  }

  lemma StartsOfSnoc(drafts: map<Key, Draft>, keys: seq<Key>, k: Key, pairs: set<(Key, int)>)
    requires k !in keys && pairs == set n | n in Starts(NumbersIn(drafts, k)) :: (k, n)
    ensures StartsOf(drafts, keys + [k]) == StartsOf(drafts, keys) + pairs && StartsOf(drafts, keys) !! pairs
  {
  }

  lemma {:induction false} KeyRangesAreStarts(drafts: map<Key, Draft>, keys: seq<Key>)
    requires Distinct(keys)
    ensures KeyRanges(drafts, keys) == |StartsOf(drafts, keys)|
  {
    if keys != [] {
      var k, before := Last(keys), Front(keys);
      KeyRangesAreStarts(drafts, before);
      var pairs := set n | n in Starts(NumbersIn(drafts, k)) :: (k, n);
      PairsSize(k, Starts(NumbersIn(drafts, k)), pairs);
      assert keys == before + [k];
      StartsOfSnoc(drafts, before, k, pairs);
    } else {
      assert StartsOf(drafts, keys) == {};
    }
  }

  lemma StartsOfAll(drafts: map<Key, Draft>, keys: seq<Key>)
    requires Elements(keys) == drafts.Keys
    ensures StartsOf(drafts, keys) == RangeStarts(drafts)
  {
    AllElements(keys);
  }
}
