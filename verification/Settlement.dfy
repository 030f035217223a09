/** The write-then-settle pipeline and the unreadable-body policy (src/settlement.py, src/output.py:133-151). */
module Settlement {
  import opened Ranges
  import opened Broker
  import opened Pending

  datatype Mode = CompleteMode | DeferCommit | ReceiveAndDelete | Peek

  datatype Policy = FailPolicy | DeadLetterPolicy | LeavePolicy

  /** What decoding a body gives: the row and its size, or one of the three unreadable errors. */
  datatype Body = Readable(bytes: nat) | DecodeError | NotJson | TooLarge

  /** What the one settlement call for a message does: sent (and honoured by the broker or not), refused on the client
    because the lock lapsed, or broken by the connection, before or after it took effect. */
  datatype SettleReply = Acked(honoured: bool) | LockLost | Broken(applied: bool)

  datatype Delivery = Delivery(num: int, session: Option<string>, body: Body, reply: SettleReply)

  /** `Lost` is a connection failure while settling an unreadable body. */
  datatype Action = Row | Retry | Disposed | Lost

  /** `Done` lists the numbers written and those that asked for a fresh connection; `UserFailed` is the pipeline's own
    failure after the batch was written and settled; `Interrupted` any other exception. */
  datatype Outcome = Done(written: seq<int>, retried: seq<int>) | UserFailed | Interrupted

  /** What the rest of the world decides during one batch: whether the sink fails, and the two checks after it. */
  datatype Luck = Luck(sinkFails: bool, overflowed: bool, tooManyUnreadable: bool)

  const MAX_UNREADABLE_RECYCLES := 50

  function LockHolding(mode: Mode): bool {
    mode.CompleteMode? || mode.DeferCommit?
  }

  // ---------------------------------------------------------------- write before settle, on logs

  /** The rows of `entity` a log has written. */
  ghost function Written(log: seq<Effect>, entity: Entity): set<int> {
    if log == [] then {}
    else Written(Front(log), entity) + if Last(log).Wrote? && Last(log).entity == entity then Last(log).nums else {}
  }

  /** The messages of `entity` whose deferral the broker acknowledged. */
  ghost function Deferred(log: seq<Effect>, entity: Entity): set<int> {
    if log == [] then {}
    else
      var e := Last(log);
      Deferred(Front(log), entity)
        + if e.Settled? && e.how.Defer? && e.acked && e.id.entity == entity then {e.id.num} else {}
  }

  ghost predicate ArmedIn(log: seq<Effect>) {
    log != [] && (Last(log).Armed? || ArmedIn(Front(log)))
  }

  /** When `e` completes or defers a message, its row is already written, and for a completion the always-upload flag
    is already set. */
  ghost predicate SafeAfter(log: seq<Effect>, e: Effect) {
    e.Settled? && (e.how.Complete? || e.how.Defer?) ==>
      e.id.num in Written(log, e.id.entity) && (e.how.Complete? ==> ArmedIn(log))
  }

  ghost predicate SafeLog(log: seq<Effect>) {
    log != [] ==> SafeLog(Front(log)) && SafeAfter(Front(log), Last(log))
  }

  /** At every step: whatever effect of a safe log is about to happen, its row came first. */
  lemma {:induction false} SafeAtEveryStep(log: seq<Effect>, i: nat)
    requires SafeLog(log) && i < |log|
    ensures SafeLog(log[..i]) && SafeAfter(log[..i], log[i])
  {
    if i < |log| - 1 {
      SafeAtEveryStep(Front(log), i);
      assert Front(log)[..i] == log[..i];
    } else {
      assert Front(log) == log[..i];
    }
  }

  /** What processing adds to a log: rows and settlements of this entity's messages, nothing taken from the broker; and
    what others do. */
  ghost predicate Processing(e: Effect, mode: Mode, entity: Entity) {
    || Environment(e) || e.Armed?
    || (e.Wrote? && e.entity == entity)
    || (e.Settled? && e.id.entity == entity && LockHolding(mode)
        && (e.how.Complete? ==> mode.CompleteMode?) && (e.how.Defer? ==> mode.DeferCommit?))
  }

  ghost predicate ProcessingOnly(log: seq<Effect>, log': seq<Effect>, mode: Mode, entity: Entity) {
    && log <= log' && SafeLog(log')
    && forall i :: |log| <= i < |log'| ==> Processing(log'[i], mode, entity)
  }

  /** Processing added to the log, without a deferral. */
  ghost predicate DecodedOnly(log: seq<Effect>, log': seq<Effect>, mode: Mode, entity: Entity) {
    && ProcessingOnly(log, log', mode, entity) && NothingDeferred(log, log')
    && Written(log, entity) <= Written(log', entity) && (ArmedIn(log) ==> ArmedIn(log'))
  }

  lemma ProcessingSnoc(log: seq<Effect>, log': seq<Effect>, e: Effect, mode: Mode, entity: Entity)
    requires ProcessingOnly(log, log', mode, entity) && Processing(e, mode, entity) && SafeAfter(log', e)
    ensures ProcessingOnly(log, log' + [e], mode, entity)
    ensures Written(log', entity) <= Written(log' + [e], entity) && (ArmedIn(log') ==> ArmedIn(log' + [e]))
    ensures e.Wrote? ==> e.nums <= Written(log' + [e], entity)
    ensures e.Armed? ==> ArmedIn(log' + [e])
  {
  }

  /** Since entry `from` the log has an acknowledged settlement of `id`. */
  ghost predicate SettledAs(log: seq<Effect>, from: nat, id: Id, how: Settlement) {
    exists i :: from <= i < |log| && log[i].Settled? && log[i].id == id && log[i].how == how && log[i].acked
  }

  /** The only settlement added is that of `id`, and it is acknowledged only if `acked`. */
  ghost predicate SettledOnly(log: seq<Effect>, log': seq<Effect>, id: Id, how: Settlement, acked: bool) {
    log <= log' && forall i :: |log| <= i < |log'| && log'[i].Settled? ==>
      log'[i].id == id && log'[i].how == how && (log'[i].acked ==> acked)
  }

  lemma {:induction false} EnvironmentIsProcessing(log: seq<Effect>, log': seq<Effect>, mode: Mode, entity: Entity)
    requires SafeLog(log) && OnlyEnvironment(log, log')
    ensures ProcessingOnly(log, log', mode, entity) && Written(log', entity) == Written(log, entity)
    ensures ArmedIn(log) ==> ArmedIn(log')
    decreases |log'|
  {
    if |log'| > |log| {
      assert Environment(Last(log'));
      EnvironmentIsProcessing(log, Front(log'), mode, entity);
    } else {
      assert log' == log;
    }
  }

  lemma SafeLater(log: seq<Effect>, log': seq<Effect>, e: Effect, entity: Entity)
    requires SafeAfter(log, e) && e.Settled? && e.id.entity == entity
    requires Written(log, entity) <= Written(log', entity) && (ArmedIn(log) ==> ArmedIn(log'))
    ensures SafeAfter(log', e)
  {
  }

  // ---------------------------------------------------------------- the sink

  class OutputTable {
    var rows: seq<int>
    var armed: bool

    constructor ()
      ensures rows == [] && !armed
    {
      rows, armed := [], false;
    }
  }

  /** The flag the table holds is in the log. */
  ghost predicate ArmedTruly(armed: bool, log: seq<Effect>) {
    armed ==> ArmedIn(log)
  }

  // ---------------------------------------------------------------- the unreadable bodies of a batch

  /** What decides on the unreadable bodies of one batch: the settings, the first failures known before it, and whether
    the run still grants retries. */
  datatype Handling = Handling(mode: Mode, policy: Policy, entity: Entity, generation: int, firstFailure: map<int, int>,
                               granted: bool)

  /** The body gets a retry on a fresh connection (src/settlement.py:185-203): it could not be decoded, and never before
    on another connection. */
  ghost predicate Asks(h: Handling, d: Delivery) {
    d.body.DecodeError? && h.granted && (d.num in h.firstFailure ==> h.firstFailure[d.num] == h.generation)
  }

  /** An unreadable body that gets no retry is dead-lettered, or else left on the entity. */
  predicate DeadLetters(h: Handling) {
    LockHolding(h.mode) && h.policy.DeadLetterPolicy? && !h.entity.subQueue
  }

  predicate Leaves(h: Handling) {
    LockHolding(h.mode) && !h.policy.FailPolicy? && !DeadLetters(h)
  }

  /** Why a batch settles the message `d` in this way: a row was written for it, its retry was granted, or it was
    refused under the dead-letter policy off a sub-queue. */
  ghost predicate Apt(h: Handling, e: Effect, d: Delivery) {
    && e.Settled? && LockHolding(h.mode) && e.id == Id(h.entity, d.num) && (e.acked ==> d.reply.Acked?)
    && match e.how
       case Complete => d.body.Readable? && h.mode.CompleteMode?
       case Defer => d.body.Readable? && h.mode.DeferCommit?
       case Abandon => Asks(h, d)
       case DeadLetter => !d.body.Readable? && !Asks(h, d) && DeadLetters(h)
  }

  ghost predicate AptIn(h: Handling, e: Effect, batch: seq<Delivery>) {
    exists d :: d in batch && Apt(h, e, d)
  }

  /** Every settlement added is an apt one of a message of the batch. */
  ghost predicate AllApt(h: Handling, log: seq<Effect>, log': seq<Effect>, batch: seq<Delivery>) {
    log <= log' && forall i :: |log| <= i < |log'| && log'[i].Settled? ==> AptIn(h, log'[i], batch)
  }

  lemma AptTwice(h: Handling, log: seq<Effect>, log1: seq<Effect>, log2: seq<Effect>, batch: seq<Delivery>)
    requires AllApt(h, log, log1, batch) && AllApt(h, log1, log2, batch)
    ensures AllApt(h, log, log2, batch)
  {
  }

  lemma AptAmong(h: Handling, log: seq<Effect>, log': seq<Effect>, rows: seq<Delivery>, batch: seq<Delivery>)
    requires AllApt(h, log, log', rows) && forall d :: d in rows ==> d in batch
    ensures AllApt(h, log, log', batch)
  {
    forall i | |log| <= i < |log'| && log'[i].Settled? ensures AptIn(h, log'[i], batch) {
      assert AptIn(h, log'[i], rows);
    }
  }

  /** First failures of this connection leave every decision of the batch as it was. */
  ghost predicate SameAsking(h: Handling, h': Handling) {
    h' == h.(firstFailure := h'.firstFailure) && forall d :: Asks(h, d) == Asks(h', d)
  }

  lemma SameApt(h: Handling, h': Handling, log: seq<Effect>, log': seq<Effect>, batch: seq<Delivery>)
    requires SameAsking(h, h') && AllApt(h', log, log', batch)
    ensures AllApt(h, log, log', batch)
  {
    forall i | |log| <= i < |log'| && log'[i].Settled? ensures AptIn(h, log'[i], batch) {
      var d :| d in batch && Apt(h', log'[i], d);
      assert Apt(h, log'[i], d);
    }
  }

  lemma SettledAptly(h: Handling, log: seq<Effect>, log': seq<Effect>, d: Delivery, how: Settlement)
    requires SettledOnly(log, log', Id(h.entity, d.num), how, d.reply.Acked?)
    requires Apt(h, Settled(Id(h.entity, d.num), how, true, d.reply.Acked?), d)
    ensures AllApt(h, log, log', [d])
  {
    forall i | |log| <= i < |log'| && log'[i].Settled? ensures AptIn(h, log'[i], [d]) {
      assert d in [d] && Apt(h, log'[i], d);
    }
  }

  /** The settlement went through, and is in the log when it was acknowledged. */
  ghost predicate WentThrough(log: seq<Effect>, from: nat, entity: Entity, d: Delivery, how: Settlement) {
    !d.reply.Broken? && (d.reply.Acked? ==> SettledAs(log, from, Id(entity, d.num), how))
  }

  /** What became of a message that has no row: it is left on the entity, or it asked for a fresh connection and was
    abandoned, or it is going to fail the run, or it was dead-lettered; without locks there is nothing to settle. */
  ghost predicate Dealt(h: Handling, log: seq<Effect>, from: nat, d: Delivery, again: bool, left: set<int>,
                        failing: bool) {
    || d.body.Readable? || d.num in left
    || if Asks(h, d) then again && (LockHolding(h.mode) ==> WentThrough(log, from, h.entity, d, Abandon))
       else if h.policy.FailPolicy? then failing
       else !Leaves(h) && (DeadLetters(h) ==> WentThrough(log, from, h.entity, d, DeadLetter))
  }

  ghost predicate AllDealt(h: Handling, log: seq<Effect>, from: nat, batch: seq<Delivery>, retried: seq<int>,
                           left: set<int>, failing: bool) {
    forall d :: d in batch ==> Dealt(h, log, from, d, d.num in retried, left, failing)
  }

  lemma DealtNext(h: Handling, h': Handling, log: seq<Effect>, log1: seq<Effect>, log2: seq<Effect>,
                  batch: seq<Delivery>, i: nat, retried: seq<int>, retried': seq<int>, left: set<int>, left': set<int>,
                  failing: bool, failing': bool)
    requires i < |batch| && log <= log1 <= log2 && SameAsking(h, h') && left <= left' && (failing ==> failing')
    requires retried <= retried' && AllDealt(h, log1, |log|, batch[..i], retried, left, failing)
    requires Dealt(h', log2, |log1|, batch[i], batch[i].num in retried', left', failing')
    ensures AllDealt(h, log2, |log|, batch[..i + 1], retried', left', failing')
  {
    forall d | d in batch[..i + 1] ensures Dealt(h, log2, |log|, d, d.num in retried', left', failing') {
      if d in batch[..i] {
        assert Dealt(h, log1, |log|, d, d.num in retried, left, failing);
        SettledLater(log1, log2, |log|, |log|);
      } else {
        assert d == batch[i];
        SettledLater(log2, log2, |log|, |log1|);
      }
    }
  }

  lemma SettledLater(log: seq<Effect>, log': seq<Effect>, from: nat, from': nat)
    requires log <= log' && from <= from'
    ensures forall id, how :: SettledAs(log, from', id, how) ==> SettledAs(log', from, id, how)
  {
    forall id, how | SettledAs(log, from', id, how) ensures SettledAs(log', from, id, how) {
      var i: nat :| from' <= i < |log| && log[i].Settled? && log[i].id == id && log[i].how == how && log[i].acked;
      assert log'[i] == log[i];
    }
  }

  lemma DealtLater(h: Handling, log: seq<Effect>, log': seq<Effect>, from: nat, batch: seq<Delivery>,
                   retried: seq<int>, left: set<int>, failing: bool)
    requires AllDealt(h, log, from, batch, retried, left, failing) && log <= log'
    ensures AllDealt(h, log', from, batch, retried, left, failing)
  {
    SettledLater(log, log', from, from);
  }

  /** Numbers are left for a refused body only. */
  ghost predicate LeftJustly(h: Handling, left: set<int>, left': set<int>, batch: seq<Delivery>) {
    left <= left' && forall n :: n in left' - left ==>
      Leaves(h) && exists d :: d in batch && d.num == n && Refused(h, d)
  }

  ghost predicate Refused(h: Handling, d: Delivery) {
    !d.body.Readable? && !Asks(h, d)
  }

  /** What handling one unreadable message does: it is settled aptly if at all, it is dealt with unless the connection
    broke, and its number is left for a refusal only. A retry abandons it and settles nothing else. */
  ghost predicate Handled(h: Handling, log: seq<Effect>, log': seq<Effect>, d: Delivery, a: Action, left: set<int>,
                          left': set<int>, failing: bool) {
    && AllApt(h, log, log', [d]) && LeftJustly(h, left, left', [d])
    && (if a.Lost? then LockHolding(h.mode) && d.reply.Broken? else Dealt(h, log', |log|, d, a.Retry?, left', failing))
    && (a.Retry? ==> Asks(h, d)) && (a.Disposed? ==> d.num in left || Refused(h, d)) && !a.Row?
    && (a.Retry? && LockHolding(h.mode) ==>
          SettledOnly(log, log', Id(h.entity, d.num), Abandon, d.reply.Acked?)
          && WentThrough(log', |log|, h.entity, d, Abandon))
  }

  /** What the processor remembers: first failures, verdicts, left numbers, a failure to come, and a count. */
  datatype Books = Books(firstFailure: map<int, int>, verdicts: set<(int, int)>, left: set<int>, failing: bool,
                         disposed: nat)

  ghost predicate BooksGrow(b: Books, b': Books) {
    Remembers(b.firstFailure, b'.firstFailure) && b.verdicts <= b'.verdicts && b.disposed <= b'.disposed
  }

  /** What decoding one message does: a readable one is a row and changes nothing. */
  ghost predicate Decoded(h: Handling, log: seq<Effect>, log': seq<Effect>, d: Delivery, a: Action, b: Books,
                          b': Books) {
    && DecodedOnly(log, log', h.mode, h.entity) && BooksGrow(b, b') && h.firstFailure == b.firstFailure
    && SameAsking(h, h.(firstFailure := b'.firstFailure))
    && (a.Row? <==> d.body.Readable?) && FailsJustly(h, [d], b.failing, b'.failing)
    && (if a.Row? then log' == log && b' == b else Handled(h, log, log', d, a, b.left, b'.left, b'.failing))
    && (a.Retry? ==> AskedRetry([d], d.num, b'.firstFailure, h.generation) && (d.num, h.generation) in b'.verdicts)
    && Tallied(a, b.disposed, b'.disposed, h.mode, h.policy, b.failing, b'.failing)
  }

  /** What decoding the first `i` messages of a batch has done. */
  ghost predicate BatchSoFar(h: Handling, log: seq<Effect>, log': seq<Effect>, batch: seq<Delivery>, i: nat,
                             b: Books, b': Books, rows: seq<Delivery>, retried: seq<int>, lost: bool)
    requires i <= |batch|
  {
    && DecodedOnly(log, log', h.mode, h.entity) && BooksGrow(b, b')
    && SameAsking(h, h.(firstFailure := b'.firstFailure)) && AllApt(h, log, log', batch)
    && LeftJustly(h, b.left, b'.left, batch) && FailsJustly(h, batch, b.failing, b'.failing)
    && (if lost then LockHolding(h.mode) && SomeLost(batch)
        else AllDealt(h, log', |log|, batch[..i], retried, b'.left, b'.failing))
    && RetriedSoFar(h, batch, retried, b'.firstFailure, b'.verdicts)
    && CountedSoFar(h, batch[..i], rows, retried, lost, b, b')
  }

  /** What decoding a whole batch has done: apt settlements only, all messages dealt with unless the connection broke,
    retries for bodies that asked for one, and the counts. */
  ghost predicate BatchDecoded(h: Handling, log: seq<Effect>, log': seq<Effect>, batch: seq<Delivery>, b: Books,
                               b': Books, rows: seq<Delivery>, retried: seq<int>, lost: bool) {
    && AllApt(h, log, log', batch) && BooksGrow(b, b')
    && LeftJustly(h, b.left, b'.left, batch) && FailsJustly(h, batch, b.failing, b'.failing)
    && (!lost ==> AllDealt(h, log', |log|, batch, retried, b'.left, b'.failing))
    && RetriedSoFar(h, batch, retried, b'.firstFailure, b'.verdicts)
    && CountedSoFar(h, batch, rows, retried, lost, b, b')
  }

  lemma NothingDecoded(h: Handling, log: seq<Effect>, batch: seq<Delivery>, b: Books, mode: Mode, entity: Entity)
    requires SafeLog(log) && h.firstFailure == b.firstFailure
    ensures BatchSoFar(h, log, log, batch, 0, b, b, [], [], false)
  {
    assert h.(firstFailure := b.firstFailure) == h;
  }

  lemma BatchEnds(h: Handling, log: seq<Effect>, log': seq<Effect>, batch: seq<Delivery>, i: nat, b: Books,
                  b': Books, rows: seq<Delivery>, retried: seq<int>, lost: bool)
    requires i <= |batch| && (i == |batch| || lost)
    requires BatchSoFar(h, log, log', batch, i, b, b', rows, retried, lost)
    ensures BatchDecoded(h, log, log', batch, b, b', rows, retried, lost)
    ensures DecodedOnly(log, log', h.mode, h.entity)
    ensures if lost then LockHolding(h.mode) && SomeLost(batch) else rows == ReadableOf(batch)
  {
    TakeAll(batch);
  }

  lemma MessageDecoded(h: Handling, log: seq<Effect>, log1: seq<Effect>, log2: seq<Effect>, batch: seq<Delivery>,
                       i: nat, a: Action, b: Books, b1: Books, b2: Books, rows: seq<Delivery>, rows': seq<Delivery>,
                       retried: seq<int>, retried': seq<int>)
    requires i < |batch| && BatchSoFar(h, log, log1, batch, i, b, b1, rows, retried, false)
    requires Decoded(h.(firstFailure := b1.firstFailure), log1, log2, batch[i], a, b1, b2)
    requires rows' == if a.Row? then rows + [batch[i]] else rows
    requires retried' == if a.Retry? then retried + [batch[i].num] else retried
    ensures BatchSoFar(h, log, log2, batch, i + 1, b, b2, rows', retried', a.Lost?)
  {
    var h1, d := h.(firstFailure := b1.firstFailure), batch[i];
    AptAmong(h1, log1, log2, [d], batch);
    SameApt(h, h1, log1, log2, batch);
    AptTwice(h, log, log1, log2, batch);
    LeftTwice(h, h1, b.left, b1.left, b2.left, batch, d);
    if !a.Lost? {
      assert Dealt(h1, log2, |log1|, d, a.Retry?, b2.left, b2.failing);
      DealtNext(h, h1, log, log1, log2, batch, i, retried, retried', b1.left, b2.left, b1.failing, b2.failing);
    }
    if a.Retry? {
      AskedAmong(batch, d, b2.firstFailure, h.generation);
    }
    RetriedNext(h, batch, d, a, retried, retried', b1, b2);
    ReadableNext(batch, i);
  }

  /** The retries so far were granted to bodies of the batch that asked on this connection. */
  ghost predicate RetriedSoFar(h: Handling, batch: seq<Delivery>, retried: seq<int>, firstFailure: map<int, int>,
                               verdicts: set<(int, int)>) {
    && AllAsked(batch, retried, firstFailure, h.generation) && Noted(retried, h.generation, verdicts)
    && (retried != [] ==> h.granted)
  }

  lemma RetriedNext(h: Handling, batch: seq<Delivery>, d: Delivery, a: Action, retried: seq<int>, retried': seq<int>,
                    b: Books, b': Books)
    requires RetriedSoFar(h, batch, retried, b.firstFailure, b.verdicts) && d in batch && BooksGrow(b, b')
    requires retried' == if a.Retry? then retried + [d.num] else retried
    requires a.Retry? ==> AskedRetry(batch, d.num, b'.firstFailure, h.generation) && h.granted
                          && (d.num, h.generation) in b'.verdicts
    ensures RetriedSoFar(h, batch, retried', b'.firstFailure, b'.verdicts)
  {
    AskedLater(batch, retried, b.firstFailure, b'.firstFailure, h.generation);
  }

  /** The counts after the messages of `batch`. */
  ghost predicate CountedSoFar(h: Handling, batch: seq<Delivery>, rows: seq<Delivery>, retried: seq<int>, lost: bool,
                               b: Books, b': Books) {
    && (!lost ==> rows == ReadableOf(batch) && |rows| + |retried| <= |batch|)
    && (!lost && !LockHolding(h.mode) ==> |rows| + |retried| + b'.disposed == |batch| + b.disposed)
    && (h.policy.FailPolicy? && !b'.failing ==> b'.disposed == b.disposed)
  }

  lemma LeftTwice(h: Handling, h1: Handling, left: set<int>, left1: set<int>, left2: set<int>, batch: seq<Delivery>,
                  d: Delivery)
    requires SameAsking(h, h1) && LeftJustly(h, left, left1, batch) && LeftJustly(h1, left1, left2, [d]) && d in batch
    ensures LeftJustly(h, left, left2, batch)
  {
    forall n | n in left2 - left ensures Leaves(h) && exists d :: d in batch && d.num == n && Refused(h, d) {
      if n in left2 - left1 {
        assert d.num == n && Refused(h1, d) && Refused(h, d);
        assert Leaves(h1) && Leaves(h);
      } else {
        assert n in left1 - left;
      }
    }
  }

  /** The run is going to fail for an earlier reason or because a body of the batch was refused under the fail
    policy. */
  ghost predicate FailsJustly(h: Handling, batch: seq<Delivery>, failing: bool, failing': bool) {
    (failing ==> failing') && (failing' ==> failing || SomeFailing(h, batch))
  }

  /** Some unreadable body of the batch fails the run. */
  ghost predicate SomeFailing(h: Handling, batch: seq<Delivery>) {
    h.policy.FailPolicy? && exists d :: d in batch && Refused(h, d)
  }

  /** The connection breaks while an unreadable body of the batch is settled. */
  predicate SomeLost(batch: seq<Delivery>) {
    exists d :: d in batch && !d.body.Readable? && d.reply.Broken?
  }

  // ---------------------------------------------------------------- the processor

  class Processor {
    const mode: Mode
    const policy: Policy
    const entity: Entity
    var retriesEnabled: bool
    var firstFailure: map<int, int>
    var left: set<int>
    var failPending: bool
    var received: nat
    var written: nat
    var disposed: nat
    var recycles: nat
    var settlementFailures: nat
    ghost var verdicts: set<(int, int)>

    /** A retry verdict always carries the generation of the first failure, so one number has one. */
    ghost predicate Valid()
      reads this
    {
      && (!LockHolding(mode) ==> left == {}) && (failPending ==> policy.FailPolicy?)
      && (forall v :: v in verdicts ==> v.0 in firstFailure && firstFailure[v.0] == v.1)
    }

    constructor (mode: Mode, policy: Policy, entity: Entity)
      ensures Valid() && this.mode == mode && this.policy == policy && this.entity == entity
      ensures received == written == disposed == recycles == 0 && retriesEnabled && !failPending && verdicts == {}
    {
      this.mode, this.policy, this.entity := mode, policy, entity;
      retriesEnabled, firstFailure, left, failPending, verdicts := true, map[], {}, false, {};
      received, written, disposed, recycles, settlementFailures := 0, 0, 0, 0, 0;
    }

    /** One settlement call under `safe_settle` (src/settlement.py:114-129), after whatever happened at the broker
      meanwhile. */
    method SafeSettle(bus: ServiceBus, num: int, how: Settlement, reply: SettleReply) returns (broke: bool)
      requires bus.Valid() && SafeLog(bus.log) && LockHolding(mode)
      requires SafeAfter(bus.log, Settled(Id(entity, num), how, true, true))
      requires Processing(Settled(Id(entity, num), how, true, true), mode, entity)
      modifies bus`world, bus`log, bus`weather, this`settlementFailures
      ensures bus.Valid() && broke == reply.Broken?
      ensures reply.Acked? ==> SettledAs(bus.log, |old(bus.log)|, Id(entity, num), how)
      ensures settlementFailures == old(settlementFailures) + if reply.LockLost? then 1 else 0
      ensures ProcessingOnly(old(bus.log), bus.log, mode, entity)
      ensures SettledOnly(old(bus.log), bus.log, Id(entity, num), how, reply.Acked?)
      ensures Written(old(bus.log), entity) <= Written(bus.log, entity) && (ArmedIn(old(bus.log)) ==> ArmedIn(bus.log))
    {
      bus.Pass();
      EnvironmentIsProcessing(old(bus.log), bus.log, mode, entity);
      ghost var log := bus.log;
      if reply.LockLost? {
        settlementFailures := settlementFailures + 1;
      } else if reply.Acked? || reply.applied {
        var e := Settled(Id(entity, num), how, if reply.Acked? then reply.honoured else true, reply.Acked?);
        SafeLater(old(bus.log), log, Settled(Id(entity, num), how, true, true), entity);
        ProcessingSnoc(old(bus.log), log, e, mode, entity);
        bus.Record(e);
        assert bus.log[|log|] == e;
      }
      broke := reply.Broken?;
    }

    /** Whether an unreadable body gets a retry on a fresh connection (src/settlement.py:185-203). */
    predicate ShouldRetry(d: Delivery, generation: int)
      reads this
    {
      && d.body.DecodeError? && (d.num in firstFailure ==> firstFailure[d.num] == generation)
      && !mode.ReceiveAndDelete? && retriesEnabled && recycles < MAX_UNREADABLE_RECYCLES
    }

    /** What decides on a batch of this generation from here. */
    ghost function HandlingOf(generation: int): Handling
      reads this
    {
      Handling(mode, policy, entity, generation, firstFailure,
               !mode.ReceiveAndDelete? && retriesEnabled && recycles < MAX_UNREADABLE_RECYCLES)
    }

    /** `UnreadableHandler.handle`: retry, or the final disposition of the policy. */
    method Handle(bus: ServiceBus, d: Delivery, generation: int) returns (a: Action)
      requires Valid() && bus.Valid() && SafeLog(bus.log) && !d.body.Readable?
      modifies bus`world, bus`log, bus`weather, this`settlementFailures, this`firstFailure, this`left, this`disposed,
               this`failPending, this`verdicts
      ensures Valid() && bus.Valid() && DecodedOnly(old(bus.log), bus.log, mode, entity)
      ensures Remembers(old(firstFailure), firstFailure) && old(verdicts) <= verdicts
      ensures SameAsking(old(HandlingOf(generation)), HandlingOf(generation))
      ensures Handled(old(HandlingOf(generation)), old(bus.log), bus.log, d, a, old(left), left, failPending)
      ensures a.Retry? ==> d.num !in old(left) && d.num in firstFailure && firstFailure[d.num] == generation
                           && verdicts == old(verdicts) + {(d.num, generation)}
      ensures failPending == (old(failPending) || (policy.FailPolicy? && a.Disposed? && d.num !in old(left)))
      ensures disposed == old(disposed) + if a.Disposed? && d.num !in old(left) then 1 else 0
    {
      if d.num in left {
        a := Disposed;
      } else if ShouldRetry(d, generation) {
        a := Again(bus, d, generation);
      } else {
        a := Dispose(bus, d, generation);
      }
    }

    /** `UnreadableHandler._retry`: the message is abandoned, to be read again on a fresh connection. */
    method Again(bus: ServiceBus, d: Delivery, generation: int) returns (a: Action)
      requires Valid() && bus.Valid() && SafeLog(bus.log) && d.num !in left && ShouldRetry(d, generation)
      modifies bus`world, bus`log, bus`weather, this`settlementFailures, this`firstFailure, this`verdicts
      ensures Valid() && bus.Valid() && DecodedOnly(old(bus.log), bus.log, mode, entity)
      ensures firstFailure == old(firstFailure)[d.num := generation]
      ensures verdicts == old(verdicts) + {(d.num, generation)}
      ensures a == if LockHolding(mode) && d.reply.Broken? then Lost else Retry
      ensures Handled(old(HandlingOf(generation)), old(bus.log), bus.log, d, a, left, left, failPending)
    {
      ghost var h, log := HandlingOf(generation), bus.log;
      firstFailure := firstFailure[d.num := generation];
      verdicts := verdicts + {(d.num, generation)};
      var broke := false;
      if LockHolding(mode) {
        broke := SafeSettle(bus, d.num, Abandon, d.reply);
        SettledAptly(h, log, bus.log, d, Abandon);
      }
      a := if broke then Lost else Retry;
    }

    /** `UnreadableHandler._dispose`: the final disposition of the policy. */
    method Dispose(bus: ServiceBus, d: Delivery, ghost generation: int) returns (a: Action)
      requires Valid() && bus.Valid() && SafeLog(bus.log) && d.num !in left
      requires !d.body.Readable? && !ShouldRetry(d, generation)
      modifies bus`world, bus`log, bus`weather, this`settlementFailures, this`left, this`disposed, this`failPending
      ensures Valid() && bus.Valid() && DecodedOnly(old(bus.log), bus.log, mode, entity)
      ensures a == if DeadLetters(HandlingOf(generation)) && d.reply.Broken? then Lost else Disposed
      ensures left == old(left) + if Leaves(HandlingOf(generation)) then {d.num} else {}
      ensures Handled(old(HandlingOf(generation)), old(bus.log), bus.log, d, a, old(left), left, failPending)
      ensures failPending == (old(failPending) || policy.FailPolicy?)
      ensures disposed == old(disposed) + if a.Disposed? then 1 else 0
    {
      ghost var h, log := HandlingOf(generation), bus.log;
      var broke := false;
      if policy.FailPolicy? {
        failPending := true;
      } else if LockHolding(mode) && policy.DeadLetterPolicy? && !entity.subQueue {
        broke := SafeSettle(bus, d.num, DeadLetter, d.reply);
        SettledAptly(h, log, bus.log, d, DeadLetter);
      } else if LockHolding(mode) {
        left := left + {d.num};
      }
      disposed := disposed + if broke then 0 else 1;
      a := if broke then Lost else Disposed;
    }

    /** A deferral that went through joins the pending set (src/settlement.py:79-82). */
    method DeferredIntoPending(ghost bus: ServiceBus, builder: PendingSetBuilder, d: Delivery, ghost log: seq<Effect>)
      requires builder.Valid() && d.body.Readable? && d.reply.Acked?
      requires SettledOnly(log, bus.log, Id(entity, d.num), Defer, true)
      requires SettledAs(bus.log, |log|, Id(entity, d.num), Defer)
      modifies builder
      ensures builder.Valid() && Collected(log, bus.log, old(builder.drafts), builder.drafts, entity, [d])
      ensures Recorded(builder.drafts, entity, d)
    {
      builder.Add(entity, d.num, d.session, d.body.bytes);
      CollectedAdded(log, bus.log, old(builder.drafts), builder.drafts, entity, d);
    }

    /** Settles one written message by the mode's settler (src/settlement.py:61-94, src/settlement.py:380-386). */
    method SettleOne(bus: ServiceBus, sink: OutputTable, builder: PendingSetBuilder, d: Delivery, ghost h: Handling)
        returns (broke: bool)
      requires h.mode == mode && h.entity == entity && bus.Valid() && builder.Valid() && SafeLog(bus.log)
      requires ArmedTruly(sink.armed, bus.log)
      requires d.num in Written(bus.log, entity) && d.body.Readable?
      modifies bus`world, bus`log, bus`weather, this`settlementFailures, sink`armed, builder
      ensures bus.Valid() && builder.Valid() && Advanced(old(bus.log), bus.log, sink.armed, mode, entity)
      ensures Collected(old(bus.log), bus.log, old(builder.drafts), builder.drafts, entity, [d])
      ensures broke == (LockHolding(mode) && d.reply.Broken?) && AllApt(h, old(bus.log), bus.log, [d])
      ensures LockHolding(mode) && d.reply.Acked? ==>
        Finalised(bus.log, |old(bus.log)|, builder.drafts, mode, entity, d)
    {
      broke := false;
      ghost var log, drafts := bus.log, builder.drafts;
      if mode.CompleteMode? {
        if !sink.armed {
          ProcessingSnoc(bus.log, bus.log, Armed, mode, entity);
          bus.Record(Armed);
          sink.armed := true;
        }
        ghost var armed := bus.log;
        broke := SafeSettle(bus, d.num, Complete, d.reply);
        assert SettledOnly(log, bus.log, Id(entity, d.num), Complete, d.reply.Acked?);
        CollectedUnchanged(log, bus.log, drafts, entity, d, Complete, d.reply.Acked?);
        SettledAptly(h, log, bus.log, d, Complete);
      } else if mode.DeferCommit? {
        broke := SafeSettle(bus, d.num, Defer, d.reply);
        SettledAptly(h, log, bus.log, d, Defer);
        if d.reply.Acked? {
          DeferredIntoPending(bus, builder, d, log);
        } else {
          CollectedUnchanged(log, bus.log, drafts, entity, d, Defer, false);
        }
      } else {
        CollectedUnchanged(log, bus.log, drafts, entity, d, Complete, false);
      }
    }

    /** Settles the written rows of a batch in order (src/settlement.py:343-344). */
    method SettleRows(bus: ServiceBus, sink: OutputTable, builder: PendingSetBuilder, rows: seq<Delivery>,
                      ghost h: Handling)
        returns (broke: bool)
      requires h.mode == mode && h.entity == entity
      requires bus.Valid() && builder.Valid() && SafeLog(bus.log) && ArmedTruly(sink.armed, bus.log)
      requires AllReadable(rows)
      requires Numbers(rows) <= Written(bus.log, entity)
      modifies bus`world, bus`log, bus`weather, this`settlementFailures, sink`armed, builder
      ensures bus.Valid() && builder.Valid() && Advanced(old(bus.log), bus.log, sink.armed, mode, entity)
      ensures Collected(old(bus.log), bus.log, old(builder.drafts), builder.drafts, entity, rows)
      ensures AllApt(h, old(bus.log), bus.log, rows)
      ensures broke <==> LockHolding(mode) && SomeBroken(rows)
      ensures !broke && LockHolding(mode) ==> AllFinalised(bus.log, |old(bus.log)|, builder.drafts, mode, entity, rows)
    {
      broke := false;
      ghost var log, drafts := bus.log, builder.drafts;
      NothingSettled(h, log, drafts, sink.armed, rows);
      var i := 0;
      while i < |rows| && !broke
        invariant i <= |rows| && bus.Valid() && builder.Valid()
        invariant RowsSettled(h, log, bus.log, drafts, builder.drafts, sink.armed, rows, i, broke)
        decreases |rows| - i
      {
        ghost var log1, drafts1, armed := bus.log, builder.drafts, sink.armed;
        RowIsReady(h, log, bus.log, drafts, builder.drafts, sink.armed, rows, i);
        broke := SettleOne(bus, sink, builder, rows[i], h);
        RowSettled(h, log, log1, bus.log, drafts, drafts1, builder.drafts, armed, sink.armed, rows, i, broke);
        i := i + 1;
      }
      AllSettled(h, log, bus.log, drafts, builder.drafts, sink.armed, rows, i, broke);
    }

    ghost function BooksOf(): Books
      reads this
    {
      Books(firstFailure, verdicts, left, failPending, disposed)
    }

    /** One message of a batch: a row, a retry, or disposed of (src/settlement.py:325-338). */
    method DecodeOne(bus: ServiceBus, d: Delivery, generation: int) returns (action: Action)
      requires Valid() && bus.Valid() && SafeLog(bus.log)
      modifies bus`world, bus`log, bus`weather
      modifies this`settlementFailures, this`firstFailure, this`left, this`disposed, this`failPending, this`verdicts,
               this`received
      ensures Valid() && bus.Valid() && received == old(received) + 1
      ensures Decoded(old(HandlingOf(generation)), old(bus.log), bus.log, d, action, old(BooksOf()), BooksOf())
    {
      received := received + 1;
      action := Row;
      if !d.body.Readable? {
        action := Handle(bus, d, generation);
      }
    }

    /** Decodes a batch: rows for the readable messages, the policy for the others (src/settlement.py:325-338). Every
      message ends as a row, as a retry or as disposed of, unless the connection fails. */
    method Decode(bus: ServiceBus, batch: seq<Delivery>, generation: int)
      returns (rows: seq<Delivery>, retried: seq<int>, lost: bool)
      requires Valid() && bus.Valid() && SafeLog(bus.log)
      modifies bus`world, bus`log, bus`weather
      modifies this`settlementFailures, this`firstFailure, this`left, this`disposed, this`failPending, this`verdicts,
               this`received
      ensures Valid() && bus.Valid() && DecodedOnly(old(bus.log), bus.log, mode, entity)
      ensures BatchDecoded(old(HandlingOf(generation)), old(bus.log), bus.log, batch, old(BooksOf()), BooksOf(), rows,
                           retried, lost)
      ensures !lost ==> rows == ReadableOf(batch) && received == old(received) + |batch|
      ensures lost ==> LockHolding(mode) && SomeLost(batch)
    {
      rows, retried, lost := [], [], false;
      ghost var h, log, books := HandlingOf(generation), bus.log, BooksOf();
      assert HandlingOf(generation) == h.(firstFailure := BooksOf().firstFailure);
      NothingDecoded(h, log, batch, books, mode, entity);
      var i := 0;
      while i < |batch| && !lost
        invariant i <= |batch| && Valid() && bus.Valid() && (!lost ==> received == old(received) + i)
        invariant HandlingOf(generation) == h.(firstFailure := BooksOf().firstFailure)
        invariant SafeLog(bus.log) && BatchSoFar(h, log, bus.log, batch, i, books, BooksOf(), rows, retried, lost)
        decreases |batch| - i
      {
        ghost var log1, books1, retried1, rows1 := bus.log, BooksOf(), retried, rows;
        var action := DecodeOne(bus, batch[i], generation);
        lost := action.Lost?;
        if action.Row? {
          rows := rows + [batch[i]];
        } else if action.Retry? {
          retried := retried + [batch[i].num];
        }
        MessageDecoded(h, log, log1, bus.log, batch, i, action, books, books1, BooksOf(), rows1, rows, retried1,
                       retried);
        i := i + 1;
      }
      BatchEnds(h, log, bus.log, batch, i, books, BooksOf(), rows, retried, lost);
    }

    /** One write for the whole batch, before any settlement (src/settlement.py:340-342). */
    method WriteRows(bus: ServiceBus, sink: OutputTable, rows: seq<Delivery>)
      requires bus.Valid() && SafeLog(bus.log) && ArmedTruly(sink.armed, bus.log)
      requires mode.ReceiveAndDelete? ==> sink.armed
      modifies bus`world, bus`log, bus`weather, this`written, sink`rows
      ensures forall i :: |old(bus.log)| <= i < |bus.log| ==> !bus.log[i].Settled?
      ensures bus.Valid() && Advanced(old(bus.log), bus.log, sink.armed, mode, entity)
      ensures Numbers(rows) <= Written(bus.log, entity)
      ensures sink.rows == old(sink.rows) + NumbersOf(rows) && written == old(written) + |rows|
    {
      if rows != [] {
        var e := Wrote(entity, set n | n in NumbersOf(rows));
        ProcessingSnoc(bus.log, bus.log, e, mode, entity);
        bus.Record(e);
        sink.rows := sink.rows + NumbersOf(rows);
        written := written + |rows|;
      }
    }

    /** Writes the rows of a batch, then settles them (src/settlement.py:340-344); `broke` when the sink refuses them or
      the connection breaks. */
    method WriteThenSettle(bus: ServiceBus, sink: OutputTable, builder: PendingSetBuilder, rows: seq<Delivery>,
                           luck: Luck, ghost h: Handling)
      returns (broke: bool)
      requires h.mode == mode && h.entity == entity
      requires bus.Valid() && builder.Valid() && SafeLog(bus.log) && ArmedTruly(sink.armed, bus.log)
      requires AllReadable(rows) && (mode.ReceiveAndDelete? ==> sink.armed)
      modifies bus`world, bus`log, bus`weather, this`settlementFailures, this`written, sink, builder
      ensures bus.Valid() && builder.Valid() && Advanced(old(bus.log), bus.log, sink.armed, mode, entity)
      ensures AllApt(h, old(bus.log), bus.log, rows)
      ensures Collected(old(bus.log), bus.log, old(builder.drafts), builder.drafts, entity, rows)
      ensures sink.rows == if rows != [] && luck.sinkFails then old(sink.rows) else old(sink.rows) + NumbersOf(rows)
      ensures written == old(written) + (|sink.rows| - |old(sink.rows)|)
      ensures broke <==> (rows != [] && luck.sinkFails) || (LockHolding(mode) && SomeBroken(rows))
      ensures !broke ==> Stored(bus.log, |old(bus.log)|, builder.drafts, mode, entity, rows)
    {
      if rows != [] && luck.sinkFails {
        CollectedNothing(bus.log, bus.log, builder.drafts, entity, rows);
        return true;
      }
      WriteRows(bus, sink, rows);
      ghost var log := bus.log;
      broke := SettleRows(bus, sink, builder, rows, h);
      AptTwice(h, old(bus.log), log, bus.log, rows);
      CollectedAfter(old(bus.log), log, bus.log, old(builder.drafts), builder.drafts, entity, rows);
      FinalisedEarlier(bus.log, |log|, |old(bus.log)|, builder.drafts, mode, entity, rows);
      AdvancedTwice(old(bus.log), log, bus.log, sink.armed, mode, entity);
    }

    /** Write, then settle, then fail: the part of `process` after decoding (src/settlement.py:340-356). */
    method Finish(bus: ServiceBus, sink: OutputTable, builder: PendingSetBuilder, batch: seq<Delivery>,
                  rows: seq<Delivery>, retried: seq<int>, luck: Luck, ghost h: Handling, ghost log0: seq<Effect>,
                  ghost b: Books)
      returns (r: Outcome)
      requires h.mode == mode && h.entity == entity && rows == ReadableOf(batch)
      requires h.granted ==> !h.mode.ReceiveAndDelete?
      requires bus.Valid() && builder.Valid() && SafeLog(bus.log) && ArmedTruly(sink.armed, bus.log)
      requires mode.ReceiveAndDelete? ==> sink.armed
      requires DecodedOnly(log0, bus.log, mode, entity)
      requires BatchDecoded(h, log0, bus.log, batch, b, BooksOf(), rows, retried, false)
      modifies bus`world, bus`log, bus`weather, this`settlementFailures, this`written, this`failPending, sink, builder
      ensures bus.Valid() && builder.Valid() && Advanced(log0, bus.log, sink.armed, mode, entity)
      ensures Collected(log0, bus.log, old(builder.drafts), builder.drafts, entity, rows)
      ensures BatchEnded(h, log0, bus.log, batch, b, BooksOf(), r) && EndsJustly(h, batch, luck, b.failing, r)
      ensures !r.Interrupted? ==> Stored(bus.log, |log0|, builder.drafts, mode, entity, rows)
      ensures sink.rows == if rows != [] && luck.sinkFails then old(sink.rows) else old(sink.rows) + NumbersOf(rows)
      ensures written == old(written) + (|sink.rows| - |old(sink.rows)|)
      ensures BatchCounted(h, batch, r, |batch|, written - old(written), disposed - b.disposed)
      ensures failPending ==> old(failPending)
    {
      ghost var log, books := bus.log, BooksOf();
      ReadableOnly(batch);
      var broke := WriteThenSettle(bus, sink, builder, rows, luck, h);
      r := if broke then Interrupted
           else if failPending || luck.overflowed || luck.tooManyUnreadable then UserFailed
           else Done(NumbersOf(rows), retried);
      failPending := failPending && broke;
      BatchIsFinished(h, log0, log, bus.log, old(builder.drafts), builder.drafts, batch, rows, retried, sink.armed, b,
                      books,
                      BooksOf(), luck, r, written - old(written));
    }

    /** `BatchProcessor.process`. */
    method Process(bus: ServiceBus, sink: OutputTable, builder: PendingSetBuilder, batch: seq<Delivery>,
                   generation: int, luck: Luck)
      returns (r: Outcome)
      requires Valid() && bus.Valid() && builder.Valid() && SafeLog(bus.log) && ArmedTruly(sink.armed, bus.log)
      requires mode.ReceiveAndDelete? ==> sink.armed
      modifies bus`world, bus`log, bus`weather, sink, builder
      modifies this`settlementFailures, this`firstFailure, this`left, this`disposed, this`failPending, this`verdicts,
               this`received, this`written
      ensures Valid() && bus.Valid() && builder.Valid()
      ensures Advanced(old(bus.log), bus.log, sink.armed, mode, entity)
      ensures Collected(old(bus.log), bus.log, old(builder.drafts), builder.drafts, entity, ReadableOf(batch))
      ensures BatchEnded(old(HandlingOf(generation)), old(bus.log), bus.log, batch, old(BooksOf()), BooksOf(), r)
      ensures EndsJustly(old(HandlingOf(generation)), batch, luck, old(failPending), r)
      ensures !r.Interrupted? ==> Stored(bus.log, |old(bus.log)|, builder.drafts, mode, entity, ReadableOf(batch))
      ensures sink.rows == old(sink.rows) + NumbersOf(ReadableOf(batch))
        || (sink.rows == old(sink.rows) && r.Interrupted? && (luck.sinkFails || SomeLost(batch)))
      ensures written == old(written) + (|sink.rows| - |old(sink.rows)|)
      ensures BatchCounted(old(HandlingOf(generation)), batch, r, received - old(received), written - old(written),
                           disposed - old(disposed))
    {
      ghost var h, log0, books := HandlingOf(generation), bus.log, BooksOf();
      var rows, retried, lost := Decode(bus, batch, generation);
      if lost {
        BatchIsLost(h, log0, bus.log, builder.drafts, batch, sink.armed, books, BooksOf(), rows, retried,
                    luck);
        r := Interrupted;
      } else {
        r := Finish(bus, sink, builder, batch, rows, retried, luck, h, log0, books);
      }
    }
  }

  /** The rows of a batch that was not interrupted are written, and settled the way of the mode where the broker
    acknowledged it. */
  ghost predicate Stored(log: seq<Effect>, from: nat, drafts: map<Key, Draft>, mode: Mode, entity: Entity,
                         rows: seq<Delivery>) {
    Numbers(rows) <= Written(log, entity) && (LockHolding(mode) ==> AllFinalised(log, from, drafts, mode, entity, rows))
  }

  /** What a batch leaves behind: apt settlements only, and a batch that is done has its rows in order, retries for
    bodies that asked for one, and every other message dealt with. */
  ghost predicate BatchEnded(h: Handling, log: seq<Effect>, log': seq<Effect>, batch: seq<Delivery>, b: Books,
                             b': Books, r: Outcome) {
    && AllApt(h, log, log', batch) && LeftJustly(h, b.left, b'.left, batch) && BooksGrow(b, b')
    && (b'.failing ==> r.Interrupted? && (b.failing || SomeFailing(h, batch)))
    && (r.Done? ==>
          && r.written == NumbersOf(ReadableOf(batch))
          && RetriedSoFar(h, batch, r.retried, b'.firstFailure, b'.verdicts)
          && AllDealt(h, log', |log|, batch, r.retried, b'.left, false))
  }

  /** The counts of a batch: every message is received, and without a retry it has a row or is disposed of; a batch that
    is done fails nothing, and asks for retries only where one is granted. The receive loop and the pager rely on
    nothing else. */
  ghost predicate BatchCounted(h: Handling, batch: seq<Delivery>, r: Outcome, received: int, written: int,
                               disposed: int) {
    && (!r.Interrupted? || !LockHolding(h.mode) ==> received == |batch|)
    && (!r.Interrupted? && h.mode.ReceiveAndDelete? ==> received == written + disposed)
    && (r.Done? && h.policy.FailPolicy? ==> disposed == 0)
    && (r.Done? ==> |r.written| + |r.retried| <= |batch| && (r.retried != [] ==> h.granted))
  }

  lemma BatchIsLost(h: Handling, log: seq<Effect>, log': seq<Effect>, drafts: map<Key, Draft>, batch: seq<Delivery>,
                    armed: bool, b: Books, b': Books, rows: seq<Delivery>, retried: seq<int>, luck: Luck)
    requires DecodedOnly(log, log', h.mode, h.entity) && ArmedTruly(armed, log) && LockHolding(h.mode)
    requires SomeLost(batch)
    requires BatchDecoded(h, log, log', batch, b, b', rows, retried, true)
    ensures Advanced(log, log', armed, h.mode, h.entity)
    ensures Collected(log, log', drafts, drafts, h.entity, ReadableOf(batch))
    ensures BatchEnded(h, log, log', batch, b, b', Interrupted)
    ensures EndsJustly(h, batch, luck, b.failing, Interrupted)
  {
    CollectedNothing(log, log', drafts, h.entity, ReadableOf(batch));
  }

  lemma BatchIsFinished(h: Handling, log: seq<Effect>, log1: seq<Effect>, log2: seq<Effect>, drafts: map<Key, Draft>,
                        drafts': map<Key, Draft>, batch: seq<Delivery>, rows: seq<Delivery>, retried: seq<int>,
                        armed: bool, b: Books, b1: Books, b2: Books, luck: Luck, r: Outcome, written: int)
    requires rows == ReadableOf(batch)
    requires DecodedOnly(log, log1, h.mode, h.entity) && (h.granted ==> !h.mode.ReceiveAndDelete?)
    requires BatchDecoded(h, log, log1, batch, b, b1, rows, retried, false)
    requires Advanced(log1, log2, armed, h.mode, h.entity) && AllApt(h, log1, log2, rows)
    requires Collected(log1, log2, drafts, drafts', h.entity, rows)
    requires b2 == b1.(failing := b1.failing && r.Interrupted?)
    requires written == if rows != [] && luck.sinkFails then 0 else |rows|
    requires FinishedAs(h, luck, rows, retried, b1.failing, r)
    requires !r.Interrupted? ==> Stored(log2, |log1|, drafts', h.mode, h.entity, rows)
    ensures Advanced(log, log2, armed, h.mode, h.entity)
    ensures Collected(log, log2, drafts, drafts', h.entity, rows)
    ensures BatchEnded(h, log, log2, batch, b, b2, r) && EndsJustly(h, batch, luck, b.failing, r)
    ensures BatchCounted(h, batch, r, |batch|, written, b2.disposed - b.disposed)
    ensures !r.Interrupted? ==> Stored(log2, |log|, drafts', h.mode, h.entity, rows)
  {
    ReadableOnly(batch);
    FinalisedEarlier(log2, |log1|, |log|, drafts', h.mode, h.entity, rows);
    AdvancedTwice(log, log1, log2, armed, h.mode, h.entity);
    CollectedAfter(log, log1, log2, drafts, drafts', h.entity, rows);
    AptAmong(h, log1, log2, rows, batch);
    AptTwice(h, log, log1, log2, batch);
    DealtLater(h, log1, log2, |log|, batch, retried, b1.left, b1.failing);
  }

  /** How writing and settling the rows ends: interrupted by the sink or the connection, or failed, or done. */
  ghost predicate FinishedAs(h: Handling, luck: Luck, rows: seq<Delivery>, retried: seq<int>, failing: bool,
                             r: Outcome) {
    && (r.Interrupted? <==> (rows != [] && luck.sinkFails) || (LockHolding(h.mode) && SomeBroken(rows)))
    && (r.UserFailed? <==> !r.Interrupted? && (failing || luck.overflowed || luck.tooManyUnreadable))
    && (r.Done? ==> r == Done(NumbersOf(rows), retried))
  }

  /** Why a batch ends as it does: it is interrupted when the sink refuses its rows or the connection breaks while one
    of them is settled, and else only when the connection breaks on an unreadable body; it fails the run for a body
    refused under the fail policy, or for one of the two checks after it. */
  ghost predicate EndsJustly(h: Handling, batch: seq<Delivery>, luck: Luck, failing: bool, r: Outcome) {
    && (ReadableOf(batch) != [] && luck.sinkFails ==> r.Interrupted?)
    && (LockHolding(h.mode) && SomeBroken(ReadableOf(batch)) ==> r.Interrupted?)
    && (r.Interrupted? ==> (ReadableOf(batch) != [] && luck.sinkFails) || (LockHolding(h.mode) && SomeBroken(batch)))
    && (failing || luck.overflowed || luck.tooManyUnreadable ==> !r.Done?)
    && (r.UserFailed? ==> failing || luck.overflowed || luck.tooManyUnreadable || SomeFailing(h, batch))
  }

  /** The messages of a batch that have a row, in order. */
  ghost function ReadableOf(batch: seq<Delivery>): seq<Delivery> {
    if batch == [] then []
    else ReadableOf(Front(batch)) + if Last(batch).body.Readable? then [Last(batch)] else []
  }

  ghost predicate AllReadable(rows: seq<Delivery>) {
    forall i :: 0 <= i < |rows| ==> rows[i].body.Readable?
  }

  lemma {:induction false} ReadableOnly(batch: seq<Delivery>)
    ensures AllReadable(ReadableOf(batch)) && forall d :: d in ReadableOf(batch) ==> d in batch
    ensures |ReadableOf(batch)| <= |batch|
  {
    if batch != [] {
      ReadableOnly(Front(batch));
    }
  }

  function NumbersOf(rows: seq<Delivery>): seq<int> {
    seq(|rows|, i requires 0 <= i < |rows| => rows[i].num)
  }

  /** `num` is the number of an undecodable message of the batch whose first failure was in this generation. */
  ghost predicate AskedRetry(batch: seq<Delivery>, num: int, firstFailure: map<int, int>, generation: int) {
    && (exists d :: d in batch && d.num == num && d.body.DecodeError?)
    && num in firstFailure && firstFailure[num] == generation
  }

  ghost function Numbers(rows: seq<Delivery>): set<int> {
    Elements(NumbersOf(rows))
  }

  /** The log grew by processing effects, loses no row, and the flag of the table is in it. */
  ghost predicate Advanced(log: seq<Effect>, log': seq<Effect>, armed: bool, mode: Mode, entity: Entity) {
    ProcessingOnly(log, log', mode, entity) && ArmedTruly(armed, log') && Written(log, entity) <= Written(log', entity)
  }

  lemma AdvancedTwice(log: seq<Effect>, log1: seq<Effect>, log2: seq<Effect>, armed: bool, mode: Mode, entity: Entity)
    requires ProcessingOnly(log, log1, mode, entity) && Written(log, entity) <= Written(log1, entity)
    requires Advanced(log1, log2, armed, mode, entity)
    ensures Advanced(log, log2, armed, mode, entity)
  {
  }

  /** The pending set lost nothing and only gained numbers of `nums` under `entity`. */
  ghost predicate JoinedOnly(drafts: map<Key, Draft>, drafts': map<Key, Draft>, entity: Entity, nums: set<int>) {
    forall k ::
      NumbersIn(drafts, k) <= NumbersIn(drafts', k) <= NumbersIn(drafts, k) + if k.entity == entity then nums else {}
  }

  lemma JoinedTwice(drafts: map<Key, Draft>, drafts1: map<Key, Draft>, drafts2: map<Key, Draft>, entity: Entity,
                    nums: set<int>, more: set<int>)
    requires JoinedOnly(drafts, drafts1, entity, nums) && JoinedOnly(drafts1, drafts2, entity, more) && nums <= more
    ensures JoinedOnly(drafts, drafts2, entity, more)
    ensures forall d :: Recorded(drafts1, entity, d) ==> Recorded(drafts2, entity, d)
  {
  }

  function KeyFor(entity: Entity, d: Delivery): Key {
    Key(entity, d.session, PartitionOf(d.num))
  }

  ghost predicate Recorded(drafts: map<Key, Draft>, entity: Entity, d: Delivery) {
    d.num in NumbersIn(drafts, KeyFor(entity, d))
  }

  /** A written message was settled the way of the mode, and a deferred one is in the pending set. */
  ghost predicate Finalised(log: seq<Effect>, from: nat, drafts: map<Key, Draft>, mode: Mode, entity: Entity,
                            d: Delivery) {
    && SettledAs(log, from, Id(entity, d.num), if mode.CompleteMode? then Complete else Defer)
    && (mode.DeferCommit? ==> Recorded(drafts, entity, d))
  }

  /** Every row whose settlement was acknowledged. */
  ghost predicate AllFinalised(log: seq<Effect>, from: nat, drafts: map<Key, Draft>, mode: Mode, entity: Entity,
                               rows: seq<Delivery>) {
    forall i :: 0 <= i < |rows| && rows[i].reply.Acked? ==> Finalised(log, from, drafts, mode, entity, rows[i])
  }

  lemma FinalisedNext(log: seq<Effect>, log': seq<Effect>, from: nat, drafts: map<Key, Draft>, drafts': map<Key, Draft>,
                      mode: Mode, entity: Entity, rows: seq<Delivery>, i: nat, nums: set<int>)
    requires i < |rows| && from <= |log| && log <= log' && JoinedOnly(drafts, drafts', entity, nums)
    requires AllFinalised(log, from, drafts, mode, entity, rows[..i])
    requires rows[i].reply.Acked? ==> Finalised(log', |log|, drafts', mode, entity, rows[i])
    ensures AllFinalised(log', from, drafts', mode, entity, rows[..i + 1])
  {
  }

  lemma FinalisedEarlier(log: seq<Effect>, from: nat, from': nat, drafts: map<Key, Draft>, mode: Mode, entity: Entity,
                         rows: seq<Delivery>)
    requires from' <= from
    ensures AllFinalised(log, from, drafts, mode, entity, rows) ==> AllFinalised(log, from', drafts, mode, entity, rows)
  {
  }

  /** What one message adds to the count of those disposed of; the fail policy remembers that it must fail the run. */
  predicate Tallied(action: Action, before: nat, after: nat, mode: Mode, policy: Policy, failBefore: bool,
                    failAfter: bool) {
    && before <= after <= before + (if action.Disposed? then 1 else 0)
    && (action.Disposed? && !LockHolding(mode) ==> after == before + 1)
    && (failBefore ==> failAfter) && (after > before && policy.FailPolicy? ==> failAfter)
    && (action.Lost? ==> LockHolding(mode))
  }

  /** A message that cannot fail the run or break the connection. */
  predicate Easy(d: Delivery, policy: Policy) {
    !d.reply.Broken? && (d.body.Readable? || !policy.FailPolicy?)
  }

  predicate AllEasy(batch: seq<Delivery>, policy: Policy) {
    forall d :: d in batch ==> Easy(d, policy)
  }

  predicate SomeBroken(rows: seq<Delivery>) {
    exists d :: d in rows && d.reply.Broken?
  }

  predicate BrokenBefore(rows: seq<Delivery>, i: nat)
    requires i <= |rows|
  {
    exists j :: 0 <= j < i && rows[j].reply.Broken?
  }

  const GOOD_LUCK := Luck(false, false, false)

  /** First failures are never forgotten or changed. */
  ghost predicate Remembers(firstFailure: map<int, int>, firstFailure': map<int, int>) {
    forall n :: n in firstFailure ==> n in firstFailure' && firstFailure'[n] == firstFailure[n]
  }

  /** Every retry of the batch is among the verdicts. */
  ghost predicate Noted(retried: seq<int>, generation: int, verdicts: set<(int, int)>) {
    forall i :: 0 <= i < |retried| ==> (retried[i], generation) in verdicts
  }

  ghost predicate AllAsked(batch: seq<Delivery>, retried: seq<int>, firstFailure: map<int, int>, generation: int) {
    forall i :: 0 <= i < |retried| ==> AskedRetry(batch, retried[i], firstFailure, generation)
  }

  lemma AskedAmong(batch: seq<Delivery>, d: Delivery, firstFailure: map<int, int>, generation: int)
    requires d in batch && AskedRetry([d], d.num, firstFailure, generation)
    ensures AskedRetry(batch, d.num, firstFailure, generation)
  {
    var x :| x in [d] && x.num == d.num && x.body.DecodeError?;
    assert x in batch;
  }

  lemma AskedLater(batch: seq<Delivery>, retried: seq<int>, firstFailure: map<int, int>, firstFailure': map<int, int>,
                   generation: int)
    requires AllAsked(batch, retried, firstFailure, generation)
    requires Remembers(firstFailure, firstFailure')
    ensures AllAsked(batch, retried, firstFailure', generation)
  {
  }

  lemma ReadableNext(batch: seq<Delivery>, i: nat)
    requires i < |batch|
    ensures ReadableOf(batch[..i + 1]) == ReadableOf(batch[..i]) + if batch[i].body.Readable? then [batch[i]] else []
  {
    assert Front(batch[..i + 1]) == batch[..i];
  }

  // ---------------------------------------------------------------- what the pending set collects

  ghost predicate InPending(drafts: map<Key, Draft>, id: Id) {
    exists k: Key :: k.entity == id.entity && id.num in NumbersIn(drafts, k)
  }

  /** Every deferral the broker acknowledged is in the pending set. */
  ghost predicate AckedInPending(log: seq<Effect>, drafts: map<Key, Draft>) {
    forall i :: 0 <= i < |log| && log[i].Settled? && log[i].how.Defer? && log[i].acked ==> InPending(drafts, log[i].id)
  }

  ghost predicate NothingDeferred(log: seq<Effect>, log': seq<Effect>) {
    log <= log' && forall i :: |log| <= i < |log'| && log'[i].Settled? ==> !log'[i].how.Defer?
  }

  /** The recorded sizes of the rows are at least those of `size`. */
  ghost predicate Sized(rows: seq<Delivery>, entity: Entity, size: Id -> int) {
    forall i :: 0 <= i < |rows| && rows[i].body.Readable? ==> size(Id(entity, rows[i].num)) <= rows[i].body.bytes
  }

  /** Some message of `rows` belongs under this key, and its deferral was acknowledged. */
  ghost predicate Joins(rows: seq<Delivery>, entity: Entity, k: Key, n: int) {
    exists d :: d in rows && d.reply.Acked? && d.num == n && KeyFor(entity, d) == k
  }

  ghost predicate JoinedFrom(drafts: map<Key, Draft>, drafts': map<Key, Draft>, entity: Entity, rows: seq<Delivery>) {
    forall k, n :: n in NumbersIn(drafts', k) && n !in NumbersIn(drafts, k) ==> Joins(rows, entity, k, n)
  }

  /** What the pending set gains from `rows`: nothing but their acknowledged deferrals, each under its own key, every
    one of those, at most one range for each row, and its largest bodies go on covering all numbers. */
  ghost predicate Collected(log: seq<Effect>, log': seq<Effect>, drafts: map<Key, Draft>, drafts': map<Key, Draft>,
                            entity: Entity, rows: seq<Delivery>) {
    && JoinedOnly(drafts, drafts', entity, Deferred(log', entity)) && JoinedFrom(drafts, drafts', entity, rows)
    && (AckedInPending(log, drafts) ==> AckedInPending(log', drafts'))
    && |RangeStarts(drafts')| <= |RangeStarts(drafts)| + |rows|
    && (OnePartitionDrafts(drafts) ==> OnePartitionDrafts(drafts'))
    && (forall size: Id -> int :: FitsDrafts(drafts, size) && Sized(rows, entity, size) ==> FitsDrafts(drafts', size))
  }

  lemma {:induction false} DeferredGrows(log: seq<Effect>, log': seq<Effect>, entity: Entity)
    requires log <= log'
    ensures Deferred(log, entity) <= Deferred(log', entity)
    decreases |log'|
  {
    if |log| < |log'| {
      DeferredGrows(log, Front(log'), entity);
    } else {
      assert log' == log;
    }
  }

  lemma {:induction false} DeferredThere(log: seq<Effect>, i: nat)
    requires i < |log| && log[i].Settled? && log[i].how.Defer? && log[i].acked
    ensures log[i].id.num in Deferred(log, log[i].id.entity)
  {
    if i < |log| - 1 {
      DeferredThere(Front(log), i);
    }
  }

  /** What is deferred was written first. */
  lemma {:induction false} DeferredIsWritten(log: seq<Effect>, entity: Entity)
    requires SafeLog(log)
    ensures Deferred(log, entity) <= Written(log, entity)
  {
    if log != [] {
      DeferredIsWritten(Front(log), entity);
    }
  }

  lemma AckedLater(log: seq<Effect>, log': seq<Effect>, drafts: map<Key, Draft>)
    requires AckedInPending(log, drafts) && NothingDeferred(log, log')
    ensures AckedInPending(log', drafts)
  {
    assert forall i :: 0 <= i < |log| ==> log'[i] == log[i];
  }

  /** One settlement: when an acknowledged deferral was added, it is in the new pending set. */
  lemma AckedMore(log: seq<Effect>, log': seq<Effect>, id: Id, how: Settlement, acked: bool, drafts: map<Key, Draft>,
                  drafts': map<Key, Draft>, nums: set<int>)
    requires AckedInPending(log, drafts) && SettledOnly(log, log', id, how, acked)
    requires JoinedOnly(drafts, drafts', id.entity, nums)
    requires how.Defer? && acked ==> InPending(drafts', id)
    ensures AckedInPending(log', drafts')
  {
    forall i | 0 <= i < |log'| && log'[i].Settled? && log'[i].how.Defer? && log'[i].acked
      ensures InPending(drafts', log'[i].id)
    {
      if i < |log| {
        assert log'[i] == log[i];
        var k: Key :| k.entity == log[i].id.entity && log[i].id.num in NumbersIn(drafts, k);
        assert NumbersIn(drafts, k) <= NumbersIn(drafts', k);
      }
    }
  }

  lemma CollectedNothing(log: seq<Effect>, log': seq<Effect>, drafts: map<Key, Draft>, entity: Entity,
                         rows: seq<Delivery>)
    requires NothingDeferred(log, log')
    ensures Collected(log, log', drafts, drafts, entity, rows)
  {
    if AckedInPending(log, drafts) {
      AckedLater(log, log', drafts);
    }
  }

  lemma CollectedNext(log: seq<Effect>, log1: seq<Effect>, log2: seq<Effect>, drafts: map<Key, Draft>,
                      drafts1: map<Key, Draft>, drafts2: map<Key, Draft>, entity: Entity, rows: seq<Delivery>, i: nat)
    requires i < |rows| && Collected(log, log1, drafts, drafts1, entity, rows[..i]) && log1 <= log2
    requires Collected(log1, log2, drafts1, drafts2, entity, [rows[i]])
    ensures Collected(log, log2, drafts, drafts2, entity, rows[..i + 1])
  {
    DeferredGrows(log1, log2, entity);
    JoinedTwice(drafts, drafts1, drafts2, entity, Deferred(log1, entity), Deferred(log2, entity));
    SizedParts(rows, i, entity);
    forall k, n | n in NumbersIn(drafts2, k) && n !in NumbersIn(drafts, k) ensures Joins(rows[..i + 1], entity, k, n) {
      if n in NumbersIn(drafts1, k) {
        assert Joins(rows[..i], entity, k, n);
      } else {
        assert Joins([rows[i]], entity, k, n);
        assert rows[..i + 1][i] == rows[i];
      }
    }
  }

  lemma SizedParts(rows: seq<Delivery>, i: nat, entity: Entity)
    requires i < |rows|
    ensures forall size: Id -> int :: Sized(rows[..i + 1], entity, size) ==>
      Sized(rows[..i], entity, size) && Sized([rows[i]], entity, size)
  {
    forall size: Id -> int | Sized(rows[..i + 1], entity, size)
      ensures Sized(rows[..i], entity, size) && Sized([rows[i]], entity, size)
    {
      assert rows[..i + 1][i] == rows[i];
      assert forall j :: 0 <= j < i ==> rows[..i + 1][j] == rows[..i][j];
    }
  }

  lemma CollectedAfter(log: seq<Effect>, log1: seq<Effect>, log2: seq<Effect>, drafts: map<Key, Draft>,
                       drafts': map<Key, Draft>, entity: Entity, rows: seq<Delivery>)
    requires NothingDeferred(log, log1) && Collected(log1, log2, drafts, drafts', entity, rows)
    ensures Collected(log, log2, drafts, drafts', entity, rows)
  {
    if AckedInPending(log, drafts) {
      AckedLater(log, log1, drafts);
    }
  }

  lemma CollectedWider(log: seq<Effect>, log': seq<Effect>, drafts: map<Key, Draft>, drafts': map<Key, Draft>,
                       entity: Entity, rows: seq<Delivery>, rows': seq<Delivery>)
    requires Collected(log, log', drafts, drafts', entity, rows) && rows <= rows'
    ensures Collected(log, log', drafts, drafts', entity, rows')
  {
    forall k, n | n in NumbersIn(drafts', k) && n !in NumbersIn(drafts, k) ensures Joins(rows', entity, k, n) {
      var d :| d in rows && d.reply.Acked? && d.num == n && KeyFor(entity, d) == k;
      assert d in rows';
    }
    assert forall size: Id -> int :: Sized(rows', entity, size) ==> Sized(rows, entity, size);
  }

  /** Settling one message without an acknowledged deferral leaves the pending set as it is. */
  lemma CollectedUnchanged(log: seq<Effect>, log': seq<Effect>, drafts: map<Key, Draft>, entity: Entity, d: Delivery,
                           how: Settlement, acked: bool)
    requires SettledOnly(log, log', Id(entity, d.num), how, acked) && !(how.Defer? && acked)
    ensures Collected(log, log', drafts, drafts, entity, [d])
  {
    if AckedInPending(log, drafts) {
      AckedMore(log, log', Id(entity, d.num), how, acked, drafts, drafts, {});
    }
  }

  lemma AddedIsDeferred(log: seq<Effect>, log': seq<Effect>, drafts: map<Key, Draft>, drafts': map<Key, Draft>,
                        entity: Entity, d: Delivery)
    requires SettledAs(log', |log|, Id(entity, d.num), Defer) && d.reply.Acked?
    requires forall k :: k != KeyFor(entity, d) ==> NumbersIn(drafts', k) == NumbersIn(drafts, k)
    requires NumbersIn(drafts', KeyFor(entity, d)) == NumbersIn(drafts, KeyFor(entity, d)) + {d.num}
    ensures JoinedOnly(drafts, drafts', entity, Deferred(log', entity)) && JoinedFrom(drafts, drafts', entity, [d])
    ensures InPending(drafts', Id(entity, d.num))
  {
    var i: nat :| |log| <= i < |log'| && log'[i].Settled? && log'[i].id == Id(entity, d.num) && log'[i].how == Defer
      && log'[i].acked;
    DeferredThere(log', i);
    assert d in [d] && d.num in NumbersIn(drafts', KeyFor(entity, d));
  }

  lemma CollectedAdded(log: seq<Effect>, log': seq<Effect>, drafts: map<Key, Draft>, drafts': map<Key, Draft>,
                       entity: Entity, d: Delivery)
    requires SettledOnly(log, log', Id(entity, d.num), Defer, true) && d.body.Readable? && d.reply.Acked?
    requires SettledAs(log', |log|, Id(entity, d.num), Defer)
    requires forall k :: k != KeyFor(entity, d) ==> NumbersIn(drafts', k) == NumbersIn(drafts, k)
    requires NumbersIn(drafts', KeyFor(entity, d)) == NumbersIn(drafts, KeyFor(entity, d)) + {d.num}
    requires forall size: Id -> int :: FitsDrafts(drafts, size) && size(Id(entity, d.num)) <= d.body.bytes ==>
      FitsDrafts(drafts', size)
    requires RangeStarts(drafts') <= RangeStarts(drafts) + {(KeyFor(entity, d), d.num)}
    requires OnePartitionDrafts(drafts) ==> OnePartitionDrafts(drafts')
    ensures Collected(log, log', drafts, drafts', entity, [d])
  {
    SubsetSize(RangeStarts(drafts'), RangeStarts(drafts) + {(KeyFor(entity, d), d.num)});
    AddedIsDeferred(log, log', drafts, drafts', entity, d);
    if AckedInPending(log, drafts) {
      AckedMore(log, log', Id(entity, d.num), Defer, true, drafts, drafts', {d.num});
    }
    forall size: Id -> int | FitsDrafts(drafts, size) && Sized([d], entity, size) ensures FitsDrafts(drafts', size) {
      assert [d][0] == d;
    }
  }

  /** The first `i` rows are settled. */
  ghost predicate RowsSettled(h: Handling, log: seq<Effect>, log': seq<Effect>, drafts: map<Key, Draft>,
                              drafts': map<Key, Draft>, armed: bool, rows: seq<Delivery>, i: nat, broke: bool)
    requires i <= |rows|
  {
    && Advanced(log, log', armed, h.mode, h.entity) && AllApt(h, log, log', rows)
    && Collected(log, log', drafts, drafts', h.entity, rows[..i])
    && (broke <==> LockHolding(h.mode) && BrokenBefore(rows, i))
    && (LockHolding(h.mode) ==> AllFinalised(log', |log|, drafts', h.mode, h.entity, rows[..i]))
  }

  lemma NothingSettled(h: Handling, log: seq<Effect>, drafts: map<Key, Draft>, armed: bool, rows: seq<Delivery>)
    requires SafeLog(log) && ArmedTruly(armed, log)
    ensures RowsSettled(h, log, log, drafts, drafts, armed, rows, 0, false)
  {
    CollectedNothing(log, log, drafts, h.entity, rows[..0]);
  }

  lemma RowIsReady(h: Handling, log: seq<Effect>, log': seq<Effect>, drafts: map<Key, Draft>,
                   drafts': map<Key, Draft>, armed: bool, rows: seq<Delivery>, i: nat)
    requires i < |rows| && RowsSettled(h, log, log', drafts, drafts', armed, rows, i, false)
    requires Numbers(rows) <= Written(log, h.entity) && AllReadable(rows)
    ensures rows[i].body.Readable? && SafeLog(log') && ArmedTruly(armed, log') && rows[i].num in Written(log', h.entity)
  {
    assert NumbersOf(rows)[i] == rows[i].num;
  }

  lemma RowSettled(h: Handling, log: seq<Effect>, log1: seq<Effect>, log2: seq<Effect>, drafts: map<Key, Draft>,
                   drafts1: map<Key, Draft>, drafts2: map<Key, Draft>, armed1: bool, armed2: bool,
                   rows: seq<Delivery>, i: nat, broke: bool)
    requires i < |rows| && RowsSettled(h, log, log1, drafts, drafts1, armed1, rows, i, false)
    requires Advanced(log1, log2, armed2, h.mode, h.entity) && AllApt(h, log1, log2, [rows[i]])
    requires Collected(log1, log2, drafts1, drafts2, h.entity, [rows[i]])
    requires LockHolding(h.mode) && rows[i].reply.Acked? ==>
      Finalised(log2, |log1|, drafts2, h.mode, h.entity, rows[i])
    requires broke <==> LockHolding(h.mode) && rows[i].reply.Broken?
    ensures RowsSettled(h, log, log2, drafts, drafts2, armed2, rows, i + 1, broke)
  {
    AdvancedTwice(log, log1, log2, armed2, h.mode, h.entity);
    AptAmong(h, log1, log2, [rows[i]], rows);
    AptTwice(h, log, log1, log2, rows);
    CollectedNext(log, log1, log2, drafts, drafts1, drafts2, h.entity, rows, i);
    if LockHolding(h.mode) {
      FinalisedNext(log1, log2, |log|, drafts1, drafts2, h.mode, h.entity, rows, i, Deferred(log2, h.entity));
    }
  }

  lemma AllSettled(h: Handling, log: seq<Effect>, log': seq<Effect>, drafts: map<Key, Draft>,
                   drafts': map<Key, Draft>, armed: bool, rows: seq<Delivery>, i: nat, broke: bool)
    requires i <= |rows| && RowsSettled(h, log, log', drafts, drafts', armed, rows, i, broke)
    requires i == |rows| || broke
    ensures Advanced(log, log', armed, h.mode, h.entity) && AllApt(h, log, log', rows)
    ensures Collected(log, log', drafts, drafts', h.entity, rows)
    ensures broke <==> LockHolding(h.mode) && SomeBroken(rows)
    ensures !broke && LockHolding(h.mode) ==> AllFinalised(log', |log|, drafts', h.mode, h.entity, rows)
  {
    CollectedWider(log, log', drafts, drafts', h.entity, rows[..i], rows);
    TakeAll(rows);
  }
}
