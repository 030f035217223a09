/** Whole histories of runs: what every sequence of defer-commit and peek runs keeps, with crashes at any step and
  output states adopted or discarded (src/component.py:166-178, src/component.py:270-274, src/component.py:354-373). */
module Protocol {
  import opened Ranges
  import opened Broker
  import opened Pending
  import opened Settlement

  /** What a commit reports: the entities it found stale, and how many calls found their entity gone or unreadable; the
    keys of which it carried numbers on, and how many calls found their session held by another receiver. */
  datatype Report = Report(stale: set<Entity>, staleErrors: int, held: set<Key>, heldErrors: int)

  const NOTHING_REPORTED := Report({}, 0, {}, 0)

  /** One run: its effects with everybody else's in between, of which the first `commitEnd` came before its commit
    ended; what the commit reported; whether the run reached the end, the pending set it then wrote, and whether the
    platform adopted that state (and with it imported the rows). */
  datatype Run = Run(mode: Mode, entity: Entity, log: seq<Effect>, commitEnd: nat, report: Report, finished: bool,
                     output: seq<PendingEntity>, adopted: bool)

  /** The pending set the next run sees: that of the last adopted run. */
  ghost function Visible(h: seq<Run>): seq<PendingEntity> {
    if h == [] then [] else if Last(h).adopted then Last(h).output else Visible(Front(h))
  }

  /** The rows of `entity` in Storage: those of the adopted runs. */
  ghost function Imported(h: seq<Run>, entity: Entity): set<int> {
    if h == [] then {}
    else Imported(Front(h), entity) + if Last(h).adopted then Written(Last(h).log, entity) else {}
  }

  /** The commit takes stored numbers only; the rest is processing or somebody else's doing. */
  ghost predicate LawfulEffect(e: Effect, mode: Mode, entity: Entity, input: seq<PendingEntity>) {
    || Processing(e, mode, entity)
    || (e.Taken? && !mode.Peek? && forall n :: n in e.nums ==> Holds(input, e.entity, n))
  }

  /** A peek run hands the pending set on; another run stores what it deferred itself with the broker's acknowledgement,
    and of its input only what a held session made it carry on. */
  ghost predicate LawfulOutput(r: Run, input: seq<PendingEntity>) {
    if r.mode.Peek? then r.output == input
    else forall k, n :: Stores(r.output, k, n) ==>
      (k in r.report.held && Stores(input, k, n)) || (k.entity == r.entity && n in Deferred(r.log, r.entity))
  }

  ghost predicate Numbered(pending: seq<PendingEntity>) {
    forall k, n :: Stores(pending, k, n) ==> 0 <= n
  }

  /** A number of the input is let go of by a run that finds its entity stale, which needs an error that says so and is
    never the run's own entity, or that could not receive it at some moment of its commit: it was deleted, locked, of
    another session or no longer deferred. `w` is the broker when the run began. */
  ghost predicate LetGo(r: Run, w: World, k: Key, n: int) {
    || (k.entity in r.report.stale && k.entity != r.entity && r.report.staleErrors > 0)
    || (r.commitEnd <= |r.log| && GoneAt(w, r.log[..r.commitEnd], 0, k.entity, Filter(k.entity, k.session), n))
  }

  /** A finished run forgets nothing: what it deferred with the broker's acknowledgement is in its output, and so is
    everything of the input that it does not let go of. */
  ghost predicate KeepsPending(r: Run, input: seq<PendingEntity>, w: World) {
    && (forall i :: 0 <= i < |r.log| && DeferredAt(r, i) ==> StoredUnder(r.output, r.log[i].id))
    && (Numbered(input) ==> forall k, n :: Stores(input, k, n) ==> Stores(r.output, k, n) || LetGo(r, w, k, n))
  }

  ghost predicate DeferredAt(r: Run, i: nat) {
    i < |r.log| && r.log[i].Settled? && r.log[i].how.Defer? && r.log[i].acked
  }

  ghost predicate StoredUnder(pending: seq<PendingEntity>, id: Id) {
    exists k: Key :: k.entity == id.entity && Stores(pending, k, id.num)
  }

  /** Only stored entities are reported as stale, each after an error of its own, and never the run's own entity; each
    key carried on had an error of its own too. */
  ghost predicate LawfulReport(entity: Entity, report: Report, input: seq<PendingEntity>) {
    && entity !in report.stale && report.stale <= StoredEntities(input) && |report.stale| <= report.staleErrors
    && |report.held| <= report.heldErrors
  }

  ghost predicate LawfulRun(r: Run, input: seq<PendingEntity>, w: World) {
    && SafeLog(r.log) && (r.adopted ==> r.finished) && (r.finished ==> LawfulOutput(r, input))
    && LawfulReport(r.entity, r.report, input)
    && (forall i :: 0 <= i < |r.log| ==> LawfulEffect(r.log[i], r.mode, r.entity, input))
    && (r.finished && !r.mode.Peek? ==> KeepsPending(r, input, w))
  }

  ghost function WorldAfter(h: seq<Run>): World {
    if h == [] then World(map[], {}, {}, map[]) else Replay(WorldAfter(Front(h)), Last(h).log)
  }

  ghost predicate LawfulHistory(h: seq<Run>) {
    h != [] ==>
      && LawfulHistory(Front(h)) && LawfulRun(Last(h), Visible(Front(h)), WorldAfter(Front(h)))
      && (Last(h).mode.DeferCommit? || Last(h).mode.Peek?)
  }

  /** A run that crashes after any number of its effects is lawful too, so every theorem below holds at every step. */
  lemma CrashAnywhere(h: seq<Run>, k: nat)
    requires h != [] && LawfulHistory(h) && k <= |Last(h).log|
    ensures LawfulHistory(Front(h) + [Last(h).(log := Last(h).log[..k], finished := false, adopted := false)])
  {
    var r := Last(h);
    var crashed := r.(log := r.log[..k], finished := false, adopted := false);
    assert Front(Front(h) + [crashed]) == Front(h);
    if k < |r.log| {
      SafeAtEveryStep(r.log, k);
    } else {
      assert r.log[..k] == r.log;
    }
  }

  /** What the next run may delete is imported. */
  lemma {:induction false} PendingIsImported(h: seq<Run>, entity: Entity, n: int)
    requires LawfulHistory(h) && Holds(Visible(h), entity, n)
    ensures n in Imported(h, entity)
  {
    if h != [] {
      var r, before := Last(h), Front(h);
      if !r.adopted || r.mode.Peek? || Holds(Visible(before), entity, n) {
        PendingIsImported(before, entity, n);
      } else {
        var p, g :| p in r.output && g in p.groups && p.entity == entity && n in Cover(g.ranges);
        assert Stores(r.output, KeyOf(entity, g), n);
        DeferredIsWritten(r.log, r.entity);
      }
    }
  }

  lemma {:induction false} ImportedByARun(h: seq<Run>, entity: Entity, n: int) returns (q: nat)
    requires n in Imported(h, entity)
    ensures q < |h| && h[q].adopted && n in Written(h[q].log, entity)
  {
    if Last(h).adopted && n in Written(Last(h).log, entity) {
      q := |h| - 1;
    } else {
      q := ImportedByARun(Front(h), entity, n);
    }
  }

  lemma {:induction false} HistoryPrefix(h: seq<Run>, k: nat)
    requires LawfulHistory(h) && k <= |h|
    ensures LawfulHistory(h[..k])
  {
    if k == |h| {
      assert h[..k] == h;
    } else {
      HistoryPrefix(Front(h), k);
      assert Front(h)[..k] == h[..k];
    }
  }

  /** A message the commit deletes was written by an earlier run whose state was adopted. */
  lemma DeletedOnlyAfterImport(h: seq<Run>, r: nat, i: nat, n: int) returns (q: nat)
    requires LawfulHistory(h) && r < |h| && i < |h[r].log| && h[r].log[i].Taken? && n in h[r].log[i].nums
    ensures q < r && h[q].adopted && n in Written(h[q].log, h[r].log[i].entity)
  {
    HistoryPrefix(h, r + 1);
    var upTo := h[..r + 1];
    assert Front(upTo) == h[..r] && Last(upTo) == h[r];
    assert LawfulEffect(h[r].log[i], h[r].mode, h[r].entity, Visible(h[..r]));
    PendingIsImported(h[..r], h[r].log[i].entity, n);
    q := ImportedByARun(h[..r], h[r].log[i].entity, n);
  }

  // ---------------------------------------------------------------- nothing is lost

  ghost predicate SentIn(log: seq<Effect>, id: Id) {
    exists i :: 0 <= i < |log| && log[i].Sent? && log[i].id == id
  }

  ghost predicate EverSent(h: seq<Run>, id: Id) {
    exists r :: 0 <= r < |h| && SentIn(h[r].log, id)
  }

  /** Stored, dead-lettered, expired, or stored again under a new number. */
  ghost predicate Present(w: World, id: Id) {
    id in w.store || id in w.dead || id in w.expired || id in w.activated
  }

  /** No effect of a defer-commit or peek run makes a message disappear, except taking it. */
  lemma EffectKeeps(w: World, e: Effect, mode: Mode, entity: Entity, input: seq<PendingEntity>, id: Id)
    requires LawfulEffect(e, mode, entity, input) && (mode.DeferCommit? || mode.Peek?)
    requires Present(w, id) || (e.Sent? && e.id == id)
    ensures Present(Apply(w, e), id) || Holds(input, id.entity, id.num)
  {
  }

  lemma {:induction false} LogKeeps(w: World, log: seq<Effect>, mode: Mode, entity: Entity, input: seq<PendingEntity>,
                                    id: Id)
    requires forall i :: 0 <= i < |log| ==> LawfulEffect(log[i], mode, entity, input)
    requires mode.DeferCommit? || mode.Peek?
    requires Present(w, id) || SentIn(log, id)
    ensures Present(Replay(w, log), id) || Holds(input, id.entity, id.num)
  {
    if log != [] {
      if Present(w, id) || SentIn(Front(log), id) {
        LogKeeps(w, Front(log), mode, entity, input, id);
      } else {
        assert Last(log).Sent? && Last(log).id == id;
      }
      if Present(Replay(w, Front(log)), id) || (Last(log).Sent? && Last(log).id == id) {
        EffectKeeps(Replay(w, Front(log)), Last(log), mode, entity, input, id);
      }
    }
  }

  /** Every message ever sent is still on the broker, dead-lettered, expired, or imported. */
  lemma {:induction false} NothingIsLost(h: seq<Run>, id: Id)
    requires LawfulHistory(h) && EverSent(h, id)
    ensures Present(WorldAfter(h), id) || id.num in Imported(h, id.entity)
  {
    var before, r := Front(h), Last(h);
    if EverSent(before, id) {
      NothingIsLost(before, id);
    } else {
      assert SentIn(r.log, id);
    }
    if id.num !in Imported(before, id.entity) {
      LogKeeps(WorldAfter(before), r.log, r.mode, r.entity, Visible(before), id);
      if Holds(Visible(before), id.entity, id.num) {
        PendingIsImported(before, id.entity, id.num);
      }
    }
  }

  lemma {:induction false} LogActivates(w: World, log: seq<Effect>, mode: Mode, entity: Entity,
                                        input: seq<PendingEntity>, id: Id)
    requires forall i :: 0 <= i < |log| ==> LawfulEffect(log[i], mode, entity, input)
    requires (mode.DeferCommit? || mode.Peek?) && id in Replay(w, log).activated
    ensures var to := Replay(w, log).activated[id];
            Present(Replay(w, log), to) || Holds(input, to.entity, to.num)
            || (id in w.activated && w.activated[id] == to && !Present(w, to))
  {
    var w', to := Replay(w, log), Replay(w, log).activated[id];
    if log != [] {
      var w1, e := Replay(w, Front(log)), Last(log);
      if id in w1.activated && w1.activated[id] == to {
        LogActivates(w, Front(log), mode, entity, input, id);
        if Present(w1, to) {
          EffectKeeps(w1, e, mode, entity, input, to);
        }
      } else {
        assert to in w'.store;
      }
    }
  }

  /** The message that an activated one has become is kept too: stored, dead-lettered, expired, imported, or activated
    again. */
  lemma {:induction false} NothingIsLostByActivation(h: seq<Run>, id: Id)
    requires LawfulHistory(h) && id in WorldAfter(h).activated
    ensures var to := WorldAfter(h).activated[id]; Present(WorldAfter(h), to) || to.num in Imported(h, to.entity)
  {
    var before, r, to := Front(h), Last(h), WorldAfter(h).activated[id];
    LogActivates(WorldAfter(before), r.log, r.mode, r.entity, Visible(before), id);
    if to.num !in Imported(before, to.entity) {
      if Holds(Visible(before), to.entity, to.num) {
        PendingIsImported(before, to.entity, to.num);
      } else if id in WorldAfter(before).activated && WorldAfter(before).activated[id] == to {
        NothingIsLostByActivation(before, id);
      }
    }
  }

  // ---------------------------------------------------------------- nothing is forgotten

  /** All rows ever written have the numbers of a broker, which counts from 1. */
  ghost predicate FromABroker(h: seq<Run>) {
    forall r, i, n :: 0 <= r < |h| && 0 <= i < |h[r].log| && h[r].log[i].Wrote? && n in h[r].log[i].nums ==> 0 <= n
  }

  lemma {:induction false} WrittenIsNumbered(log: seq<Effect>, entity: Entity, n: int) returns (i: nat)
    requires n in Written(log, entity)
    ensures i < |log| && log[i].Wrote? && n in log[i].nums
  {
    if Last(log).Wrote? && n in Last(log).nums && Last(log).entity == entity {
      i := |log| - 1;
    } else {
      i := WrittenIsNumbered(Front(log), entity, n);
    }
  }

  lemma VisibleIsNumbered(h: seq<Run>)
    requires LawfulHistory(h) && FromABroker(h)
    ensures Numbered(Visible(h))
  {
    forall k, n | Stores(Visible(h), k, n) ensures 0 <= n {
      assert Holds(Visible(h), k.entity, n);
      PendingIsImported(h, k.entity, n);
      var q := ImportedByARun(h, k.entity, n);
      var i := WrittenIsNumbered(h[q].log, k.entity, n);
    }
  }

  /** Some adopted run after `q` let go of the number. */
  ghost predicate LetGoSince(h: seq<Run>, q: nat, k: Key, n: int) {
    exists r :: q < r < |h| && h[r].adopted && h[r].mode.DeferCommit? && LetGo(h[r], WorldAfter(h[..r]), k, n)
  }

  lemma {:induction false} StoredUntilLetGo(h: seq<Run>, q: nat, k: Key, n: int)
    requires LawfulHistory(h) && FromABroker(h) && q < |h| && Stores(Visible(h[..q + 1]), k, n)
    ensures Stores(Visible(h), k, n) || LetGoSince(h, q, k, n)
  {
    if q == |h| - 1 {
      assert h[..q + 1] == h;
    } else {
      var before, r := Front(h), |h| - 1;
      assert before[..q + 1] == h[..q + 1] && h[..r] == before;
      assert FromABroker(before) by {
        assert forall i :: 0 <= i < |before| ==> before[i] == h[i];
      }
      StoredUntilLetGo(before, q, k, n);
      if LetGoSince(before, q, k, n) {
        var s :| q < s < |before| && before[s].adopted && before[s].mode.DeferCommit?
          && LetGo(before[s], WorldAfter(before[..s]), k, n);
        assert before[..s] == h[..s] && before[s] == h[s];
      } else {
        VisibleIsNumbered(before);
      }
    }
  }

  /** A message whose deferral the broker acknowledged in an adopted run stays in the visible pending set, under one
    key, until a later adopted run deletes it, cannot receive it, or reports its entity as stale. */
  lemma NothingIsForgotten(h: seq<Run>, q: nat, i: nat) returns (k: Key)
    requires LawfulHistory(h) && FromABroker(h) && q < |h| && h[q].adopted && h[q].mode.DeferCommit?
    requires DeferredAt(h[q], i)
    ensures k.entity == h[q].log[i].id.entity
    ensures Stores(Visible(h), k, h[q].log[i].id.num) || LetGoSince(h, q, k, h[q].log[i].id.num)
  {
    HistoryPrefix(h, q + 1);
    var upTo, id := h[..q + 1], h[q].log[i].id;
    assert Last(upTo) == h[q] && Visible(upTo) == h[q].output;
    assert StoredUnder(h[q].output, id);
    k :| k.entity == id.entity && Stores(h[q].output, k, id.num);
    StoredUntilLetGo(h, q, k, id.num);
  }

  /** What a run stores without having deferred it was in its input, and a held session made it carry that on. */
  lemma CarriedOnBecauseHeld(r: Run, input: seq<PendingEntity>, w: World, k: Key, n: int)
    requires LawfulRun(r, input, w) && r.finished && !r.mode.Peek? && Stores(r.output, k, n)
    ensures (k.entity == r.entity && n in Deferred(r.log, k.entity))
         || (k in r.report.held && r.report.heldErrors > 0 && Stores(input, k, n))
  {
    if k in r.report.held {
      SubsetSize({k}, r.report.held);
    }
  }

  /** Every adopted run from `q` on met a session held by another receiver and carried the key on. */
  ghost predicate HeldSince(h: seq<Run>, q: nat, k: Key) {
    forall r :: q < r < |h| && h[r].adopted && h[r].mode.DeferCommit? ==>
      k in h[r].report.held && h[r].report.heldErrors > 0
  }

  lemma HeldSinceSnoc(h: seq<Run>, q: nat, k: Key)
    requires h != [] && q < |h| - 1 && HeldSince(Front(h), q, k)
    requires Last(h).adopted && Last(h).mode.DeferCommit? ==>
      k in Last(h).report.held && Last(h).report.heldErrors > 0
    ensures HeldSince(h, q, k)
  {
    forall r | q < r < |h| - 1 ensures h[r] == Front(h)[r] {
    }
  }

  /** The partner: whatever is still pending was deferred, with the broker's acknowledgement, by an adopted run, and
    every adopted run since that committed met a session held by another receiver and carried it on. */
  lemma {:induction false} PendingBecauseHeld(h: seq<Run>, k: Key, n: int) returns (q: nat)
    requires LawfulHistory(h) && Stores(Visible(h), k, n)
    ensures q < |h| && h[q].adopted && h[q].entity == k.entity && n in Deferred(h[q].log, k.entity)
    ensures HeldSince(h, q, k)
  {
    var r, before := Last(h), Front(h);
    if r.adopted && r.mode.DeferCommit? {
      CarriedOnBecauseHeld(r, Visible(before), WorldAfter(before), k, n);
    }
    if r.adopted && r.mode.DeferCommit? && k.entity == r.entity && n in Deferred(r.log, k.entity) {
      q := |h| - 1;
    } else {
      q := PendingBecauseHeld(before, k, n);
      HeldSinceSnoc(h, q, k);
    }
  }
}
