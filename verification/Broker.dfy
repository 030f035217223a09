/** The broker as the extractor sees it (tests/fakes/broker.py): stored messages, their deferral and lock
  flags, the effects that change them, and the deferred receive of the commit.

  Everything that ever changes a message is an `Effect`; the broker keeps the log of them. The
  protocol theorems are about logs, the methods of the other modules are proved to append only lawful
  effects. */
module Broker {
  import opened Ranges

  datatype Option<T> = None | Some(value: T)

  datatype Entity = Entity(path: string, subQueue: bool)

  datatype Id = Id(entity: Entity, num: int)

  /** The partition id in the top 16 bits of a sequence number (src/entity.py:48-50). */
  function PartitionOf(num: int): int {
    num / 0x1_0000_0000_0000
  }

  datatype Record = Record(session: Option<string>, deferred: bool, locked: bool)

  /** What became of every message: stored, dead-lettered, expired, or a scheduled one that got a new number when it was
    activated. */
  datatype World = World(store: map<Id, Record>, dead: set<Id>, expired: set<Id>, activated: map<Id, Id>)

  datatype Settlement = Complete | Defer | Abandon | DeadLetter

  /** `honoured` is false when the broker ignores a settlement because the lock is stale: the client never
    hears of it (tests/fakes/broker.py:871-875). `acked` is false when the client sees the connection break instead. */
  datatype Effect =
    | Taken(entity: Entity, nums: set<int>)
    | Locked(id: Id)
    | Wrote(entity: Entity, nums: set<int>)
    | Armed
    | Settled(id: Id, how: Settlement, honoured: bool, acked: bool)
    | Sent(id: Id, session: Option<string>)
    | Lapsed(id: Id)
    | Purged(id: Id)
    | Exhausted(id: Id)
    | Activated(id: Id, num: int)

  /** What happens at the broker without the extractor: sends, locks of other receivers and their lapses, expiry (also
    the purge a deferred receive does on its way, tests/fakes/broker.py:846-848), the delivery limit, activation of
    scheduled messages. */
  predicate Environment(e: Effect) {
    e.Sent? || e.Lapsed? || e.Purged? || e.Exhausted? || e.Locked? || e.Activated?
  }

  function Without(w: World, entity: Entity, nums: set<int>): World {
    w.(store := map id | id in w.store && !(id.entity == entity && id.num in nums) :: w.store[id])
  }

  function Change(w: World, id: Id, deferred: bool, locked: bool): World {
    if id in w.store then w.(store := w.store[id := w.store[id].(deferred := deferred, locked := locked)]) else w
  }

  function Bury(w: World, id: Id): World {
    if id in w.store then w.(store := w.store - {id}, dead := w.dead + {id}) else w
  }

  /** A scheduled message is stored again under a new number (tests/fakes/broker.py:693-718). */
  function Activate(w: World, id: Id, num: int): World {
    var to := Id(id.entity, num);
    if id !in w.store || w.store[id].deferred || w.store[id].locked || to in w.store then w
    else w.(store := (w.store - {id})[to := w.store[id]], activated := w.activated[id := to])
  }

  function Apply(w: World, e: Effect): World {
    match e
    case Taken(entity, nums) => Without(w, entity, nums)
    case Locked(id) => if id in w.store then Change(w, id, w.store[id].deferred, true) else w
    case Wrote(_, _) => w
    case Armed => w
    case Settled(id, how, honoured, _) =>
      if !honoured || id !in w.store then w
      else (match how
        case Complete => Without(w, id.entity, {id.num})
        case Defer => Change(w, id, true, false)
        case Abandon => Change(w, id, w.store[id].deferred, false)
        case DeadLetter => Bury(w, id))
    case Sent(id, session) =>
      if id in w.store then w else w.(store := w.store[id := Record(session, false, false)])
    case Lapsed(id) => if id in w.store then Change(w, id, w.store[id].deferred, false) else w
    case Purged(id) => if id in w.store then w.(store := w.store - {id}, expired := w.expired + {id}) else w
    case Exhausted(id) => Bury(w, id)
    case Activated(id, num) => Activate(w, id, num)
  }

  function Replay(w: World, log: seq<Effect>): World {
    if log == [] then w else Apply(Replay(w, Front(log)), Last(log))
  }

  lemma ReplaySnoc(w: World, log: seq<Effect>, e: Effect)
    ensures Replay(w, log + [e]) == Apply(Replay(w, log), e)
  {
  }

  /** A deferred receive returns `num` only when it is stored, deferred, unlocked and of the
    receiver's session (tests/fakes/broker.py:838-850). */
  predicate Receivable(w: World, entity: Entity, session: Option<string>, num: int) {
    var id := Id(entity, num);
    id in w.store && w.store[id].deferred && !w.store[id].locked
    && (session == None || w.store[id].session == session)
  }

  /** A sub-queue receiver takes no session (src/commit.py:256-262). */
  function Filter(entity: Entity, session: Option<string>): Option<string> {
    if entity.subQueue then None else session
  }

  predicate AllReceivable(w: World, entity: Entity, session: Option<string>, nums: seq<int>) {
    forall i :: 0 <= i < |nums| ==> Receivable(w, entity, session, nums[i])
  }

  datatype Error = Transient | SessionHeld | Stale | Mismatch | Other

  /** What the network does to one call: nothing, fail it before it reaches the broker, or lose the reply
    after the broker acted. */
  datatype Fault = Clean | Refused(error: Error) | ReplyLost(error: Error)

  datatype Reply = Received(nums: seq<int>) | NotFound | Failed(error: Error)

  datatype Call = Call(entity: Entity, session: Option<string>, nums: seq<int>)

  const DEFERRED_MAX := 250

  ghost predicate OnePartition(nums: seq<int>) {
    forall i, j :: 0 <= i < j < |nums| ==> PartitionOf(nums[i]) == PartitionOf(nums[j])
  }

  /** No reply is lost, so what the client was told is what happened. */
  ghost predicate Honest(faults: seq<Fault>) {
    forall i :: 0 <= i < |faults| ==> !faults[i].ReplyLost?
  }

  /** How many calls to come end with this error. */
  function Left(faults: seq<Fault>, e: Error): nat {
    if faults == [] then 0
    else Left(faults[1..], e) + if !faults[0].Clean? && faults[0].error == e then 1 else 0
  }

  /** How many calls to come find their entity gone or unreadable. */
  function StaleLeft(faults: seq<Fault>): nat {
    Left(faults, Stale) + Left(faults, Mismatch)
  }

  /** Some calls were made: there is nothing new ahead. */
  ghost predicate Consumed(faults: seq<Fault>, faults': seq<Fault>) {
    (Honest(faults) ==> Honest(faults')) && forall e :: Left(faults', e) <= Left(faults, e)
  }

  /** One of these calls ended with this error, or the broker itself refused one. */
  predicate Spent(faults: seq<Fault>, faults': seq<Fault>, e: Error) {
    e.Other? || Left(faults', e) < Left(faults, e)
  }

  /** A deferred receive the broker does not refuse. */
  ghost predicate Accepted(nums: seq<int>) {
    |nums| <= DEFERRED_MAX && OnePartition(nums)
  }

  /** The log only gained what happens without the extractor. */
  ghost predicate OnlyEnvironment(log: seq<Effect>, log': seq<Effect>) {
    log <= log' && forall i :: |log| <= i < |log'| ==> Environment(log'[i])
  }

  ghost predicate AllEnvironment(weather: seq<seq<Effect>>) {
    forall i, j :: 0 <= i < |weather| && 0 <= j < |weather[i]| ==> Environment(weather[i][j])
  }

  /** `weather` is what happens at the broker before each of the following calls. */
  class ServiceBus {
    var world: World
    var faults: seq<Fault>
    var weather: seq<seq<Effect>>
    var answered: nat
    const partitioned: set<Entity>
    const origin: World
    var log: seq<Effect>
    var calls: seq<Call>

    ghost predicate Valid()
      reads this
    {
      world == Replay(origin, log) && AllEnvironment(weather)
    }

    constructor (world: World, faults: seq<Fault>, weather: seq<seq<Effect>>, partitioned: set<Entity>)
      requires AllEnvironment(weather)
      ensures Valid() && this.world == world && this.faults == faults && this.weather == weather
      ensures this.partitioned == partitioned
      ensures origin == world && log == [] && calls == []
    {
      this.world, this.faults, this.weather, this.partitioned, this.answered := world, faults, weather, partitioned, 0;
      this.origin, this.log, this.calls := world, [], [];
    }

    /** Every change of a message goes through here. */
    method Record(e: Effect)
      requires Valid()
      modifies this`world, this`log
      ensures Valid() && log == old(log) + [e] && world == Apply(old(world), e)
    {
      ReplaySnoc(origin, log, e);
      world := Apply(world, e);
      log := log + [e];
    }

    /** Time passes: what the weather holds happens. */
    method Pass()
      requires Valid()
      modifies this`world, this`log, this`weather
      ensures Valid() && OnlyEnvironment(old(log), log)
      ensures old(weather) == [] ==> weather == [] && log == old(log) && world == old(world)
    {
      if weather != [] {
        var now := weather[0];
        weather := weather[1..];
        for i := 0 to |now|
          invariant Valid() && OnlyEnvironment(old(log), log)
        {
          Record(now[i]);
        }
      }
    }

    method NextFault() returns (fault: Fault)
      modifies this`faults
      ensures fault == FirstFault(old(faults)) && faults == LaterFaults(old(faults))
      ensures Consumed(old(faults), faults) && (Honest(old(faults)) ==> !fault.ReplyLost?)
      ensures !fault.Clean? ==> Spent(old(faults), faults, fault.error)
      ensures old(faults) == [] ==> faults == [] && fault.Clean?
    {
      fault, faults := FirstFault(faults), LaterFaults(faults);
    }

    /** `receive_deferred_messages` on a RECEIVE_AND_DELETE receiver: one call, all or nothing. `at` is where in the log
      it reached the broker. */
    method ReceiveDeferred(entity: Entity, session: Option<string>, nums: seq<int>)
        returns (reply: Reply, ghost at: nat)
      requires Valid()
      modifies this
      ensures Valid() && Consumed(old(faults), faults) && (reply.Failed? ==> Spent(old(faults), faults, reply.error))
      ensures faults == LaterFaults(old(faults)) && (old(faults) == [] && Accepted(nums) ==> !reply.Failed?)
      ensures calls == old(calls) + [Call(entity, session, nums)]
      ensures answered == old(answered) + if reply.Failed? then 0 else 1
      ensures at <= |log| && OnlyEnvironment(old(log), log[..at])
      ensures Answer(reply, FirstFault(old(faults)), entity in partitioned, Replay(origin, log[..at]), entity, session,
                     nums, log[at..])
      ensures old(weather) == [] ==> weather == [] && at == |old(log)|
    {
      calls := calls + [Call(entity, session, nums)];
      var fault := NextFault();
      Pass();
      at := |log|;
      SplitAt(log, []);
      ghost var was := log;
      reply := Asked(fault, entity in partitioned, world, entity, session, nums);
      if Takes(fault, entity in partitioned, world, entity, session, nums) {
        SplitAt(was, [Taken(entity, set x | x in nums)]);
        Record(Taken(entity, set x | x in nums));
      }
      answered := answered + if reply.Failed? then 0 else 1;
    }
  }

  lemma SplitAt(log: seq<Effect>, more: seq<Effect>)
    ensures (log + more)[..|log|] == log && (log + more)[|log|..] == more && log + [] == log
  {
  }

  function FirstFault(faults: seq<Fault>): Fault {
    if faults == [] then Clean else faults[0]
  }

  function LaterFaults(faults: seq<Fault>): seq<Fault> {
    if faults == [] then [] else faults[1..]
  }

  /** Refused by the broker itself: too many numbers, or of several partitions. */
  predicate Refuses(partitioned: bool, nums: seq<int>) {
    |nums| > DEFERRED_MAX
      || (partitioned && exists i :: 0 <= i < |nums| && PartitionOf(nums[i]) != PartitionOf(nums[0]))
  }

  predicate Takes(fault: Fault, partitioned: bool, w: World, entity: Entity, session: Option<string>, nums: seq<int>) {
    !fault.Refused? && !Refuses(partitioned, nums) && AllReceivable(w, entity, session, nums)
  }

  function Asked(fault: Fault, partitioned: bool, w: World, entity: Entity, session: Option<string>,
                 nums: seq<int>): Reply {
    if fault.Refused? then Failed(fault.error)
    else if Refuses(partitioned, nums) then Failed(Other)
    else if fault.ReplyLost? then Failed(fault.error)
    else if AllReceivable(w, entity, session, nums) then Received(SortedDistinct(nums))
    else NotFound
  }

  /** What one call does to a broker in state `w`: `after` is what it adds to the log. */
  ghost predicate Answer(reply: Reply, fault: Fault, partitioned: bool, w: World, entity: Entity,
                         session: Option<string>, nums: seq<int>, after: seq<Effect>) {
    && reply == Asked(fault, partitioned, w, entity, session, nums)
    && after == if Takes(fault, partitioned, w, entity, session, nums) then [Taken(entity, Elements(nums))] else []
  }

  /** What an answer means: received numbers were all there and are taken, a missing one means that nothing is taken,
    and a failed call takes nothing or, when its reply was lost, everything. */
  lemma AnswerMeans(reply: Reply, fault: Fault, partitioned: bool, w: World, entity: Entity, session: Option<string>,
                    nums: seq<int>, after: seq<Effect>)
    requires Answer(reply, fault, partitioned, w, entity, session, nums, after)
    ensures reply.Received? ==>
      AllReceivable(w, entity, session, nums) && Ascending(reply.nums) && Elements(reply.nums) == Elements(nums)
                                && after == [Taken(entity, Elements(nums))]
    ensures reply.NotFound? ==> !AllReceivable(w, entity, session, nums) && after == []
    ensures reply.Failed? ==> after == [] || (fault.ReplyLost? && after == [Taken(entity, Elements(nums))])
  {
  }

  /** At some moment since entry `from` of the log, a receive could not return `n`. */
  ghost predicate GoneAt(origin: World, log: seq<Effect>, from: nat, entity: Entity, session: Option<string>, n: int)
    decreases |log|
  {
    from <= |log| && (!Receivable(Replay(origin, log), entity, session, n)
                      || (log != [] && GoneAt(origin, Front(log), from, entity, session, n)))
  }

  ghost predicate AllGone(origin: World, log: seq<Effect>, from: nat, entity: Entity, session: Option<string>,
                          nums: set<int>) {
    forall n :: n in nums ==> GoneAt(origin, log, from, entity, session, n)
  }

  lemma {:induction false} MomentGone(origin: World, log: seq<Effect>, from: nat, entity: Entity,
                                      session: Option<string>, n: int) returns (t: nat)
    requires GoneAt(origin, log, from, entity, session, n)
    ensures from <= t <= |log| && !Receivable(Replay(origin, log[..t]), entity, session, n)
    decreases |log|
  {
    if !Receivable(Replay(origin, log), entity, session, n) {
      t := |log|;
      assert log[..t] == log;
    } else {
      t := MomentGone(origin, Front(log), from, entity, session, n);
      assert Front(log)[..t] == log[..t];
    }
  }

  lemma {:induction false} GoneSince(origin: World, log: seq<Effect>, from: nat, entity: Entity,
                                     session: Option<string>, n: int, t: nat)
    requires from <= t <= |log| && !Receivable(Replay(origin, log[..t]), entity, session, n)
    ensures GoneAt(origin, log, from, entity, session, n)
    decreases |log|
  {
    if t == |log| {
      assert log[..t] == log;
    } else {
      assert Front(log)[..t] == log[..t];
      GoneSince(origin, Front(log), from, entity, session, n, t);
    }
  }

  lemma GoneLater(origin: World, log: seq<Effect>, log': seq<Effect>, from: nat, from': nat, entity: Entity,
                  session: Option<string>, nums: set<int>)
    requires AllGone(origin, log, from, entity, session, nums) && log <= log' && from' <= from
    ensures AllGone(origin, log', from', entity, session, nums)
  {
    forall n | n in nums ensures GoneAt(origin, log', from', entity, session, n) {
      var t := MomentGone(origin, log, from, entity, session, n);
      assert log'[..t] == log[..t];
      GoneSince(origin, log', from', entity, session, n, t);
    }
  }
}
