/** The destructive receive loop (src/receiver.py:240-668): stop rules, empty receives, recoveries, unreadable recycles,
  sessions and the stop drain. The broker, the clock and the network are a script with one turn for each step; the
  pipeline answers for every message of a batch. */
module Receive {
  import opened Ranges
  import opened Broker
  import opened Settlement
  import opened Recovery

  datatype OpenReply = Opened(session: string) | NoSession | OpenFailed(kind: ErrorKind)

  /** A receive offers some messages, of which at most the count asked for are handed out; or it fails. */
  datatype ReceiveReply = Got(offered: seq<int>) | ReceiveFailed(kind: ErrorKind)

  datatype CheckReply = Remaining(count: nat) | CheckFailed(kind: ErrorKind)

  /** How one batch fares: the messages that cannot be decoded now, those that are unreadable for good, how processing
    ends, and by how much the batch makes the state to be saved grow. */
  datatype Fate = Fate(undecodable: set<int>, unreadable: set<int>, end: FateEnd, growth: nat)

  /** `written` tells whether the rows of a batch reached the sink before the connection broke while settling. */
  datatype FateEnd = Returned | OwnFailure | Broke(kind: ErrorKind, written: bool)

  /** What the outside decides during one step: the stop conditions of the clock, the reply to each call the step may
    make, and the fate of the two batches it may process. */
  datatype Turn = Turn(pastDeadline: bool, catchUpOver: bool, open: OpenReply, receive: ReceiveReply, fate: Fate,
                       watermark: bool, check: CheckReply, drain: ReceiveReply, drainFate: Fate)

  datatype StopReason =
    Idle | MaxMessages | MaxDuration | Watermark | StateBudget | NoMoreSessions | SessionRevisited | ReceiveStalled

  /** How a step ends: go on, stop, fail the run, or raise an error that may be recovered. */
  datatype StepResult = GoOn | Stop(reason: StopReason) | Fail | Raise(kind: ErrorKind)

  const MAX_EMPTY_RECEIVE_RETRIES := 5

  const STATE_BUDGET := 256 * 1024

  function Min(a: nat, b: nat): nat {
    if a < b then a else b
  }

  function FirstOf(offered: seq<int>, count: nat): seq<int> {
    offered[..Min(count, |offered|)]
  }

  // ---------------------------------------------------------------- the pipeline's answer for a batch

  /** The rows of a batch in order, how many messages are retried, and how many are finally disposed of. */
  datatype Judgement = Judgement(rows: seq<int>, retried: nat, disposed: nat)

  function Judge(batch: seq<int>, fate: Fate, mayRetry: bool): Judgement {
    if batch == [] then Judgement([], 0, 0)
    else
      var j, num := Judge(Front(batch), fate, mayRetry), Last(batch);
      if mayRetry && num in fate.undecodable then j.(retried := j.retried + 1)
      else if num in fate.undecodable || num in fate.unreadable then j.(disposed := j.disposed + 1)
      else j.(rows := j.rows + [num])
  }

  /** Every message is a row, a retry or disposed of, as far as the pipeline admits it. */
  lemma {:induction false} JudgeAddsUp(batch: seq<int>, fate: Fate, mayRetry: bool)
    ensures var j := Judge(batch, fate, mayRetry);
            |j.rows| + j.retried + j.disposed == |batch| && (j.retried > 0 ==> mayRetry)
  {
    if batch != [] {
      JudgeAddsUp(Front(batch), fate, mayRetry);
    }
  }

  predicate IsReadable(num: int, fate: Fate) {
    num !in fate.undecodable && num !in fate.unreadable
  }

  ghost function Positions(batch: seq<int>, nums: set<int>): set<int> {
    set i | 0 <= i < |batch| && batch[i] in nums
  }

  /** The rows are the readable messages, each as often as it came; what cannot be decoded is retried if that is still
    granted; everything else is disposed of. */
  lemma {:induction false} JudgeIsExact(batch: seq<int>, fate: Fate, mayRetry: bool)
    ensures var j := Judge(batch, fate, mayRetry);
            && (forall n :: multiset(j.rows)[n] == if IsReadable(n, fate) then multiset(batch)[n] else 0)
            && j.retried == if mayRetry then |Positions(batch, fate.undecodable)| else 0
  {
    if batch != [] {
      var before, num := Front(batch), Last(batch);
      JudgeIsExact(before, fate, mayRetry);
      assert batch == before + [num];
      assert Positions(batch, fate.undecodable) ==
             Positions(before, fate.undecodable) + if num in fate.undecodable then {|before|} else {};
    } else {
      assert Positions(batch, fate.undecodable) == {};
    }
  }

  /** The rows come in the order of the messages: those of a first part come first. */
  lemma {:induction false} JudgeKeepsOrder(batch: seq<int>, i: nat, fate: Fate, mayRetry: bool)
    requires i <= |batch|
    ensures Judge(batch[..i], fate, mayRetry).rows <= Judge(batch, fate, mayRetry).rows
  {
    if i < |batch| {
      JudgeKeepsOrder(Front(batch), i, fate, mayRetry);
      assert Front(batch)[..i] == batch[..i];
    } else {
      assert batch[..i] == batch;
    }
  }

  /** What the sink gets of a batch: all its rows, or none when writing them failed. */
  function Sunk(j: Judgement, fate: Fate, mode: Mode): (rows: seq<int>)
    ensures rows == j.rows || (rows == [] && fate.end.Broke?)
    ensures fate.end.Broke? && fate.end.written && !mode.ReceiveAndDelete? ==> rows == j.rows
  {
    if fate.end.Broke? && (mode.ReceiveAndDelete? || !fate.end.written) then [] else j.rows
  }

  // ---------------------------------------------------------------- what the theorems count

  /** Receivers opened, non-empty receives, empty receives retried, sessions dropped by an interruption, sessions handed
    out twice, a receiver lost when the run ends, rows of the stop drain, whether a batch failed; the messages handed
    out and those given to the pipeline, in order, how many were abandoned, finally disposed of, or in a batch whose
    write failed. */
  datatype Tally = Tally(opens: nat, nonEmpty: nat, emptyTotal: nat, discards: nat, revisits: nat, lostAtEnd: nat,
                         drained: nat, raised: bool, handedOut: seq<int>, processed: seq<int>, abandoned: nat,
                         disposed: nat, broken: nat)

  const NOTHING := Tally(0, 0, 0, 0, 0, 0, 0, false, [], [], 0, 0, 0)

  /** The three retry budgets: recoveries, unreadable recycles, consecutive empty receives. */
  predicate Budgets(t: Tally, plain: bool, receiver: bool, recoveries: nat, recycles: nat, emptyRetries: nat) {
    && recoveries <= MAX_RECOVERIES && recycles <= MAX_UNREADABLE_RECYCLES && emptyRetries <= MAX_EMPTY_RECEIVE_RETRIES
    && t.emptyTotal <= 5 * t.nonEmpty + emptyRetries && t.nonEmpty <= |t.handedOut|
    && (plain ==> t.opens <= recoveries + recycles + t.emptyTotal + t.lostAtEnd + if receiver then 1 else 0)
  }

  /** The message limit: rows never run ahead of what was counted, except by a drain or a failed batch. */
  predicate Limits(t: Tally, mode: Mode, limit: nat, taken: nat, written: nat) {
    && (limit > 0 ==> taken <= limit) && (!t.raised ==> written <= taken + t.drained)
    && (t.drained > 0 ==> mode.ReceiveAndDelete?)
  }

  /** Every session receiver opened so far belongs to a session seen, or was interrupted. */
  predicate SessionsSound(t: Tally, plain: bool, sessionId: Option<string>, seen: set<string>, recoveries: nat,
                          recycles: nat) {
    && (sessionId.Some? ==> sessionId.value in seen)
    && (!plain ==> t.opens <= |seen| + t.discards + t.revisits)
    && t.discards <= recoveries + recycles + t.lostAtEnd
  }

  /** Every message handed out is given to the pipeline or abandoned. In receive-and-delete mode, where it is deleted
    already, all are given to the pipeline, once and in order; each is a row, finally disposed of, or in a batch that
    the sink refused; and the always-upload flag is set as soon as there is one. */
  predicate Delivered(t: Tally, mode: Mode, written: nat, armed: bool) {
    && |t.handedOut| == |t.processed| + t.abandoned
    && (mode.ReceiveAndDelete? ==>
          && t.processed == t.handedOut && |t.processed| == written + t.disposed + t.broken
          && (t.handedOut != [] ==> armed))
  }

  /** How much of the budgets and of the entity the steps so far have used. */
  function Work(t: Tally, recoveries: nat): nat {
    t.opens + t.nonEmpty + t.emptyTotal + recoveries
  }

  /** On a plain entity the budgets leave at most 11 steps for every non-empty receive, and 72 more. */
  lemma WorkIsBounded(t: Tally, receiver: bool, recoveries: nat, recycles: nat, emptyRetries: nat)
    requires Budgets(t, true, receiver, recoveries, recycles, emptyRetries) && t.lostAtEnd <= 1
    ensures Work(t, recoveries) <= 72 + 11 * t.nonEmpty
    ensures t.lostAtEnd == 0 ==> Work(t, recoveries) <= 71 + 11 * t.nonEmpty
  {
  }

  class ReceiveLoop {
    const mode: Mode
    const sessions: bool
    const limit: nat
    const batchSize: nat
    const prefetch: nat
    const stopAtJobStart: bool
    const tracker: RecoveryTracker
    var receiver: bool
    var receivedOnReceiver: bool
    var sessionId: Option<string>
    var seen: set<string>
    var taken: nat
    var armed: bool
    var emptyRetries: nat
    var recycles: nat
    var state: nat
    var rows: seq<int>
    ghost var tally: Tally

    ghost predicate Valid()
      reads this, tracker
    {
      && tracker.Valid() && batchSize >= 1
      && Budgets(tally, !sessions, receiver, tracker.count, recycles, emptyRetries)
      && Limits(tally, mode, limit, taken, |rows|)
      && SessionsSound(tally, !sessions, sessionId, seen, tracker.count, recycles)
      && Delivered(tally, mode, |rows|, armed)
    }

    constructor (mode: Mode, sessions: bool, limit: nat, batchSize: nat, prefetch: nat, stopAtJobStart: bool,
                 state: nat)
      requires batchSize >= 1
      ensures Valid() && Running() && fresh(tracker) && this.mode == mode && this.sessions == sessions
      ensures this.limit == limit && this.prefetch == prefetch && this.state == state
      ensures tally == NOTHING && seen == {} && tracker.count == 0 && rows == [] && Work(tally, tracker.count) == 0
    {
      this.mode, this.sessions, this.limit := mode, sessions, limit;
      this.batchSize, this.prefetch, this.stopAtJobStart := batchSize, prefetch, stopAtJobStart;
      tracker := new RecoveryTracker();
      receiver, receivedOnReceiver, sessionId, seen, taken := false, false, None, {}, 0;
      armed, emptyRetries, recycles, rows, tally := false, 0, 0, [], NOTHING;
      this.state := state;
    }

    /** `_receive` (src/receiver.py:412-421): in receive-and-delete mode the flag is set with the first messages. */
    method Receive(offered: seq<int>, count: nat) returns (batch: seq<int>)
      modifies this`receivedOnReceiver, this`armed, this`tally
      ensures batch == FirstOf(offered, count) && receivedOnReceiver
      ensures tally == old(tally).(handedOut := old(tally).handedOut + batch)
      ensures armed == (old(armed) || (mode.ReceiveAndDelete? && batch != []))
    {
      receivedOnReceiver, batch := true, FirstOf(offered, count);
      tally := tally.(handedOut := tally.handedOut + batch);
      if batch != [] && mode.ReceiveAndDelete? && !armed {
        armed := true;
      }
    }

    /** A batch is given to the pipeline; in receive-and-delete mode the flag is set by then. */
    method Pipeline(batch: seq<int>, fate: Fate, drain: bool) returns (j: Judgement)
      requires mode.ReceiveAndDelete? && batch != [] ==> armed
      modifies this`rows, this`tally
      ensures j == Judge(batch, fate, MayRetry()) && |j.rows| + j.retried + j.disposed == |batch|
      ensures j.retried > 0 ==> recycles < MAX_UNREADABLE_RECYCLES && !mode.ReceiveAndDelete?
      ensures rows == old(rows) + Sunk(j, fate, mode)
      ensures tally == AfterBatch(old(tally), batch, j, fate, mode, drain)
    {
      j := Judge(batch, fate, MayRetry());
      JudgeAddsUp(batch, fate, MayRetry());
      rows := rows + Sunk(j, fate, mode);
      tally := AfterBatch(tally, batch, j, fate, mode, drain);
    }

    function MayRetry(): bool
      reads this
    {
      !mode.ReceiveAndDelete? && recycles < MAX_UNREADABLE_RECYCLES
    }

    /** Processes a received batch (src/receiver.py:423-441): what was processed is counted, retried messages are
      not. */
    method Deliver(batch: seq<int>, fate: Fate) returns (j: Judgement)
      requires tracker.Valid() && (mode.ReceiveAndDelete? && batch != [] ==> armed)
      modifies this`rows, this`taken, this`state, this`tally, tracker
      ensures tracker.Valid() && tracker.count == old(tracker.count) && tracker.generation == old(tracker.generation)
      ensures j == Judge(batch, fate, MayRetry()) && |j.rows| + j.retried + j.disposed == |batch|
      ensures j.retried > 0 ==> recycles < MAX_UNREADABLE_RECYCLES && !mode.ReceiveAndDelete?
      ensures rows == old(rows) + Sunk(j, fate, mode)
      ensures taken == old(taken) + if fate.end.Returned? then |batch| - j.retried else 0
      ensures tally == AfterBatch(old(tally), batch, j, fate, mode, false)
      ensures state == old(state) + Growth(mode, fate)
    {
      j := Pipeline(batch, fate, false);
      state := state + Growth(mode, fate);
      if Sunk(j, fate, mode) != [] || (fate.end.Returned? && j.retried < |batch|) {
        tracker.NoteProgress();
      }
      if fate.end.Returned? {
        taken := taken + |batch| - j.retried;
      }
    }

    /** Closes the receiver; an interrupted session may be handed out again (src/receiver.py:659-668). */
    method Close(interrupted: bool)
      modifies this`receiver, this`sessionId, this`seen, this`tally
      ensures !receiver && sessionId == None
        && seen == if Loses(interrupted, old(sessionId)) then old(seen) - {old(sessionId).value} else old(seen)
      ensures tally ==
        old(tally).(discards := old(tally).discards + if Loses(interrupted, old(sessionId)) then 1 else 0)
    {
      if interrupted && sessionId.Some? {
        seen := seen - {sessionId.value};
        tally := tally.(discards := tally.discards + 1);
      }
      receiver, sessionId := false, None;
    }

    /** `_finish_session` (src/receiver.py:653-657): the next step opens the next session. */
    method FinishSession()
      requires Valid() && sessions
      modifies this`receiver, this`sessionId, this`seen, this`tally
      ensures Valid() && !receiver && sessionId == None && seen == old(seen) && tally == old(tally)
    {
      Close(false);
    }

    /** Empties the local buffer at a stop (src/receiver.py:590-623): in receive-and-delete mode the messages are
      already deleted and go through the pipeline, otherwise they are abandoned. A receive that fails hands out nothing.
      Only an own failure of the drained batch can surface. */
    method StopDrain(failing: bool, turn: Turn) returns (fails: bool)
      requires Valid()
      modifies this`receivedOnReceiver, this`armed, this`rows, this`tally
      ensures Valid() && receivedOnReceiver == old(receivedOnReceiver)
      ensures fails <==> !failing && old(receivedOnReceiver) && DrainFails(turn)
      ensures tally == Emptied(old(tally), old(receivedOnReceiver), turn, mode, prefetch)
      ensures Drained(old(tally), tally, prefetch)
      ensures rows == old(rows) + DrainedRows(old(receivedOnReceiver), turn, mode, prefetch)
    {
      fails := false;
      if receivedOnReceiver && turn.drain.Got? {
        if mode.ReceiveAndDelete? {
          fails := DrainDeleted(turn);
          fails := fails && !failing;
        } else {
          DrainLocked(turn.drain.offered);
        }
      }
    }

    /** The batch of the stop drain fails on its own account. */
    predicate DrainFails(turn: Turn) {
      mode.ReceiveAndDelete? && turn.drain.Got? && turn.drain.offered != [] && turn.drainFate.end.OwnFailure?
    }

    /** Drained messages that the broker has deleted go through the pipeline. */
    method DrainDeleted(turn: Turn) returns (fails: bool)
      requires Valid() && mode.ReceiveAndDelete? && turn.drain.Got?
      modifies this`receivedOnReceiver, this`armed, this`rows, this`tally
      ensures Valid() && receivedOnReceiver && fails == DrainFails(turn)
      ensures tally == Emptied(old(tally), true, turn, mode, prefetch) && Drained(old(tally), tally, prefetch)
      ensures rows == old(rows) + DrainedRows(true, turn, mode, prefetch)
    {
      ghost var t, written := tally, |rows|;
      var drained := Receive(turn.drain.offered, prefetch + 1);
      if drained != [] {
        var j := Pipeline(drained, turn.drainFate, true);
        DrainIsSound(t, drained, j, turn.drainFate, mode, limit, taken, written, |rows|, prefetch);
      }
      fails := drained != [] && turn.drainFate.end.OwnFailure?;
    }

    /** Drained messages that are locked are abandoned. */
    method DrainLocked(offered: seq<int>)
      requires Valid() && !mode.ReceiveAndDelete?
      modifies this`receivedOnReceiver, this`armed, this`tally
      ensures Valid() && receivedOnReceiver && Drained(old(tally), tally, prefetch)
      ensures var drained := FirstOf(offered, prefetch + 1);
              tally == old(tally).(handedOut := old(tally).handedOut + drained,
                                   abandoned := old(tally).abandoned + |drained|)
    {
      var drained := Receive(offered, prefetch + 1);
      tally := tally.(abandoned := tally.abandoned + |drained|);
    }

    predicate LimitReached()
      reads this
    {
      limit > 0 && taken >= limit
    }

    predicate BudgetReached()
      reads this
    {
      mode.DeferCommit? && state >= STATE_BUDGET
    }

    /** The step must stop before it does anything else. */
    ghost predicate MustStop(catchingUp: bool, turn: Turn)
      reads this
    {
      LimitReached() || turn.pastDeadline || BudgetReached() || (catchingUp && turn.catchUpOver)
    }

    /** `_stop_check` (src/receiver.py:351-368): the limit comes before the deadline, that before the state budget, and
      the end of the catch-up last. */
    function StopCheck(catchingUp: bool, turn: Turn): (stop: Option<StopReason>)
      reads this
      ensures stop.Some? <==> MustStop(catchingUp, turn)
      ensures stop == Some(MaxMessages) <==> LimitReached()
      ensures stop == Some(MaxDuration) <==> turn.pastDeadline && !LimitReached()
      ensures stop == Some(StateBudget) <==> BudgetReached() && !turn.pastDeadline && !LimitReached()
    {
      if LimitReached() then Some(MaxMessages)
      else if turn.pastDeadline then Some(MaxDuration)
      else if BudgetReached() then Some(StateBudget)
      else if catchingUp && turn.catchUpOver then Some(if sessions then NoMoreSessions else Idle)
      else None
    }

    /** `_open_next` (src/receiver.py:374-395): a session seen before stops the loop, a new one joins those seen. */
    method OpenNext(catchingUp: bool, turn: Turn) returns (r: StepResult)
      requires Valid() && !receiver && sessionId == None
      modifies this`receiver, this`receivedOnReceiver, this`sessionId, this`seen, this`tally
      ensures r.Stop? ==>
        Justified(r.reason, catchingUp, turn) && (r.reason.NoMoreSessions? || r.reason.SessionRevisited?)
      ensures r.Raise? ==> Raises(turn, r.kind)
      ensures Valid() && !r.Fail? && (!receiver ==> sessionId == None)
      ensures sessions && turn.open.Opened? ==>
        receiver && (r == Stop(SessionRevisited) <==> turn.open.session in old(seen))
      ensures sessions && turn.open.Opened? && turn.open.session !in old(seen) ==>
        r.GoOn? && seen == old(seen) + {turn.open.session} && sessionId == Some(turn.open.session)
      ensures !sessions && turn.open.Opened? ==> r.GoOn? && receiver && seen == old(seen)
      ensures turn.open.OpenFailed? ==> r == Raise(turn.open.kind)
      ensures sessions && turn.open.NoSession? ==> r == if catchingUp then GoOn else Stop(NoMoreSessions)
      ensures receiver ==> !receivedOnReceiver && turn.open.Opened?
      ensures !sessions && r.GoOn? ==> tally.opens == old(tally.opens) + 1
      ensures old(tally.opens) <= tally.opens && seen <= old(seen) + TurnSessions(turn)
      ensures tally == old(tally).(opens := tally.opens, revisits := tally.revisits)
      ensures tally.revisits == old(tally.revisits) + if r == Stop(SessionRevisited) then 1 else 0
    {
      if turn.open.OpenFailed? || (!sessions && !turn.open.Opened?) {
        r := Raise(if turn.open.OpenFailed? then turn.open.kind else Connection);
      } else if turn.open.NoSession? {
        r := if catchingUp then GoOn else Stop(NoMoreSessions);
      } else {
        var revisited := sessions && turn.open.session in seen;
        r := if revisited then Stop(SessionRevisited) else GoOn;
        receiver, receivedOnReceiver := true, false;
        tally := tally.(opens := tally.opens + 1, revisits := tally.revisits + if revisited then 1 else 0);
        if sessions && !revisited {
          seen, sessionId := seen + {turn.open.session}, Some(turn.open.session);
        }
      }
    }

    /** An empty receive is not trusted as drained: reopen and try again while a peek shows more
      (src/receiver.py:447-483). */
    method OnEmpty(catchingUp: bool, turn: Turn) returns (r: StepResult)
      requires Valid() && receiver && turn.receive == Got([])
      modifies this`receiver, this`sessionId, this`seen, this`tally, this`emptyRetries
      ensures r.Stop? ==> Justified(r.reason, catchingUp, turn)
      ensures r.Raise? ==> Raises(turn, r.kind)
      ensures Valid() && !r.Fail? && seen == old(seen)
      ensures r.Stop? ==> !catchingUp && (r.reason.Idle? || r.reason.ReceiveStalled?)
      ensures !receiver ==> sessionId == None
      ensures tally == old(tally).(emptyTotal := tally.emptyTotal) && old(tally.emptyTotal) <= tally.emptyTotal
      ensures !sessions && !catchingUp && r.GoOn? ==> tally.emptyTotal == old(tally.emptyTotal) + 1
      ensures sessions ==> r.GoOn? && !receiver
      ensures !sessions && catchingUp ==> r.GoOn? && receiver
      ensures !sessions && !catchingUp ==>
        match turn.check
        case CheckFailed(kind) => r == Raise(kind) && receiver
        case Remaining(count) =>
          if count == 0 then r == Stop(Idle)
          else if old(emptyRetries) >= MAX_EMPTY_RECEIVE_RETRIES then r == Stop(ReceiveStalled)
          else r.GoOn? && !receiver && emptyRetries == old(emptyRetries) + 1
    {
      r := GoOn;
      if sessions {
        FinishSession();
      } else if !catchingUp {
        if turn.check.CheckFailed? {
          r := Raise(turn.check.kind);
        } else if turn.check.count == 0 {
          r := Stop(Idle);
        } else if emptyRetries >= MAX_EMPTY_RECEIVE_RETRIES {
          r := Stop(ReceiveStalled);
        } else {
          Close(false);
          emptyRetries, tally := emptyRetries + 1, tally.(emptyTotal := tally.emptyTotal + 1);
        }
      }
    }

    /** Why a step may stop the run, in terms of what it saw. */
    ghost predicate Justified(reason: StopReason, catchingUp: bool, turn: Turn)
      reads this
    {
      match reason
      case MaxMessages => limit > 0 && taken >= limit
      case MaxDuration => turn.pastDeadline
      case StateBudget => mode.DeferCommit? && state >= STATE_BUDGET
      case Idle =>
        && !sessions
        && if catchingUp then turn.catchUpOver else turn.receive == Got([]) && turn.check == Remaining(0)
      case NoMoreSessions => sessions && if catchingUp then turn.catchUpOver else turn.open.NoSession?
      case SessionRevisited => sessions && turn.open.Opened? && turn.open.session in seen
      case ReceiveStalled =>
        !sessions && !catchingUp && turn.receive == Got([]) && emptyRetries >= MAX_EMPTY_RECEIVE_RETRIES
      case Watermark => !sessions && stopAtJobStart && turn.watermark
    }

    /** An own failure of the pipeline in this turn. */
    predicate OwnFails(turn: Turn) {
      turn.fate.end.OwnFailure? || turn.drainFate.end.OwnFailure?
    }

    /** Some call of this turn raises this error. */
    predicate Raises(turn: Turn, kind: ErrorKind) {
      || turn.open == OpenFailed(kind) || turn.receive == ReceiveFailed(kind) || turn.check == CheckFailed(kind)
      || (turn.fate.end.Broke? && turn.fate.end.kind == kind) || (!sessions && turn.open.NoSession? && kind.Connection?)
    }

    /** The error that a step without a stop raises, when a receiver is `open` or not. */
    function Fault(turn: Turn, open: bool): Option<ErrorKind> {
      if !open then (if turn.open.OpenFailed? then Some(turn.open.kind) else None)
      else if turn.receive.ReceiveFailed? then Some(turn.receive.kind)
      else if turn.receive.offered != [] && turn.fate.end.Broke? then Some(turn.fate.end.kind)
      else None
    }

    /** Why a turn may fail the run: an own failure, before which the buffer is emptied, or an error the tracker gives
      up on. */
    ghost predicate Fails(turn: Turn)
      reads this, tracker
    {
      (OwnFails(turn) && EmptiedBy(turn)) || exists kind :: Raises(turn, kind) && tracker.Hopeless(kind)
    }

    /** The last messages handed out are those this turn took from the buffer. */
    ghost predicate EmptiedBy(turn: Turn)
      reads this
    {
      EndsWith(tally.handedOut, Buffer(true, turn, prefetch))
    }

    /** The run does not stop in this way with messages in the buffer; the other stops follow an empty receive or a
      fresh receiver. */
    ghost predicate StopDrained(reason: StopReason, catchingUp: bool, turn: Turn)
      reads this
    {
      reason.Watermark? || (Buffered() && Drains(reason, catchingUp)) ==> EmptiedBy(turn)
    }

    /** The last of the first `n` turns had a reason to end the loop like this. */
    ghost predicate EndedFor(e: Ending, catchingUp: bool, script: seq<Turn>, n: nat)
      requires n <= |script|
      reads this, tracker
    {
      e.StillRunning? || (n > 0 && EndedBy(e, catchingUp, script[n - 1]))
    }

    ghost predicate EndedBy(e: Ending, catchingUp: bool, turn: Turn)
      reads this, tracker
    {
      match e
      case StillRunning => !Late(turn, catchingUp)
      case Stopped(reason) => Justified(reason, catchingUp, turn) && StopDrained(reason, catchingUp, turn)
      case RunFailed => Fails(turn)
    }

    /** The buffer of the open receiver may hold messages. */
    predicate Buffered()
      reads this
    {
      receiver && receivedOnReceiver
    }

    /** What the next receive does to the tally, and how many of its messages are to be retried. */
    ghost function TakingNext(turn: Turn): Tally
      requires turn.receive.Got? && batchSize >= 1
      reads this
    {
      if limit > 0 && taken >= limit then tally else Taking(Room(), turn)
    }

    ghost function RetriesNext(turn: Turn): nat
      requires turn.receive.Got? && batchSize >= 1
      reads this
    {
      if limit > 0 && taken >= limit then 0 else Retries(Room(), turn)
    }

    ghost predicate Running()
      reads this
    {
      (!receiver ==> sessionId == None) && tally.revisits == 0 && tally.lostAtEnd == 0
    }

    /** The step stops at the job start: the whole batch is newer, and the buffer is emptied. */
    predicate AtJobStart(turn: Turn) {
      turn.fate.end.Returned? && stopAtJobStart && turn.watermark
    }

    /** The buffer is emptied after this batch. */
    predicate DrainsAfter(turn: Turn) {
      turn.fate.end.OwnFailure? || AtJobStart(turn)
    }

    /** How a step with a batch ends. */
    function BatchResult(turn: Turn): StepResult {
      match turn.fate.end
      case OwnFailure => Fail
      case Broke(kind, _) => Raise(kind)
      case Returned =>
        if !AtJobStart(turn) then GoOn
        else if DrainFails(turn) then Fail
        else if sessions then GoOn
        else Stop(Watermark)
    }

    /** What follows a processed batch: the watermark stop, which ends the run or the session, or the recycle for
      unreadable bodies (src/receiver.py:341-349). */
    method AfterProcessing(retried: nat, turn: Turn) returns (r: StepResult)
      requires Valid() && Running() && receiver && receivedOnReceiver && turn.fate.end.Returned?
      requires retried > 0 ==> recycles < MAX_UNREADABLE_RECYCLES
      modifies this, tracker
      ensures Valid() && Running() && r == BatchResult(turn)
      ensures r.Stop? ==> Justified(Watermark, false, turn) && receiver && receivedOnReceiver
      ensures seen <= old(seen) && taken == old(taken) && state == old(state) && tracker.count == old(tracker.count)
      ensures tally.(discards := old(tally).discards) ==
        if AtJobStart(turn) then Emptied(old(tally), true, turn, mode, prefetch) else old(tally)
      ensures Drained(old(tally), tally.(discards := old(tally).discards), prefetch)
      ensures AtJobStart(turn) && sessions && r.GoOn? ==> !receiver
      ensures !AtJobStart(turn) && retried > 0 ==>
        !receiver && recycles == old(recycles) + 1 && tracker.generation == old(tracker.generation) + 1
      ensures !AtJobStart(turn) && retried == 0 ==> receiver && recycles == old(recycles)
    {
      r := GoOn;
      if stopAtJobStart && turn.watermark {
        var fails := StopDrain(false, turn);
        if fails {
          r := Fail;
        } else if sessions {
          FinishSession();
        } else {
          r := Stop(Watermark);
        }
      } else if retried > 0 {
        tracker.UnreadableRetry();
        recycles := recycles + 1;
        Close(true);
      }
    }

    /** The tally after a batch of at most `count` messages. */
    ghost function Taking(count: nat, turn: Turn): Tally
      requires turn.receive.Got?
      reads this
    {
      var batch := FirstOf(turn.receive.offered, count);
      AfterBatch(HandOut(tally, batch), batch, Judge(batch, turn.fate, MayRetry()), turn.fate, mode, false)
    }

    /** How many messages of a batch are to be retried. */
    ghost function Retries(count: nat, turn: Turn): nat
      requires turn.receive.Got?
      reads this
    {
      Judge(FirstOf(turn.receive.offered, count), turn.fate, MayRetry()).retried
    }

    ghost function TakingRows(count: nat, turn: Turn): seq<int>
      requires turn.receive.Got?
      reads this
    {
      Sunk(Judge(FirstOf(turn.receive.offered, count), turn.fate, MayRetry()), turn.fate, mode)
    }

    /** A batch is received and processed (src/receiver.py:336-340). */
    method TakeBatch(count: nat, turn: Turn) returns (retried: nat)
      requires Valid() && turn.receive.Got? && turn.receive.offered != [] && count > 0
      requires limit > 0 ==> taken + count <= limit
      modifies this`receivedOnReceiver, this`armed, this`emptyRetries, this`rows, this`taken, this`state, this`tally,
               tracker
      ensures Valid() && tracker.count == old(tracker.count) && (retried > 0 ==> recycles < MAX_UNREADABLE_RECYCLES)
      ensures tracker.generation == old(tracker.generation)
      ensures tally == old(Taking(count, turn)) && retried == old(Retries(count, turn)) && receivedOnReceiver
      ensures rows == old(rows) + old(TakingRows(count, turn))
      ensures taken == old(taken) + if !turn.fate.end.Returned? then 0
                                    else |FirstOf(turn.receive.offered, count)| - retried
      ensures state == old(state) + Growth(mode, turn.fate)
    {
      ghost var t, before, was := tally, |rows|, taken;
      emptyRetries, tally := 0, tally.(nonEmpty := tally.nonEmpty + 1);
      var batch := Receive(turn.receive.offered, count);
      var j := Deliver(batch, turn.fate);
      retried := j.retried;
      BatchIsSound(t, batch, j, turn.fate, mode, limit, was, taken, before, |rows|, armed);
      assert tally == AfterBatch(HandOut(t, batch), batch, j, turn.fate, mode, false);
    }

    /** A non-empty receive (src/receiver.py:339-349). */
    method BatchStep(count: nat, turn: Turn) returns (r: StepResult)
      requires Valid() && Running() && receiver && turn.receive.Got? && turn.receive.offered != [] && count > 0
      requires limit > 0 ==> taken + count <= limit
      modifies this, tracker
      ensures Valid() && Running() && tracker.count == old(tracker.count) && seen <= old(seen)
      ensures r == BatchResult(turn)
      ensures r.Stop? ==> Justified(Watermark, false, turn) && receiver && receivedOnReceiver
      ensures tally.(discards := old(tally).discards) ==
        Batched(old(Taking(count, turn)), DrainsAfter(turn), turn, mode, prefetch)
      ensures OneBatchMore(old(tally), tally, prefetch) && state == old(state) + Growth(mode, turn.fate)
      ensures Recycled(turn, old(Retries(count, turn)), old(recycles), old(tracker.generation))
      ensures r.Fail? || r.Stop? ==> EmptiedBy(turn)
      ensures (r.Fail? ==> OwnFails(turn)) && (r.Raise? ==> Raises(turn, r.kind))
      ensures Grown(old(tally), tally, prefetch)
      ensures !sessions && (r.GoOn? || r.Raise?) ==> tally.drained == old(tally.drained)
    {
      EmptiedEnds(Taking(count, turn), true, turn, mode, prefetch);
      var retried := TakeBatch(count, turn);
      r := EndBatch(retried, turn);
    }

    /** How processing ended: go on, raise, or drain and fail (src/receiver.py:425-433). */
    method EndBatch(retried: nat, turn: Turn) returns (r: StepResult)
      requires Valid() && Running() && receiver && receivedOnReceiver
      requires retried > 0 ==> recycles < MAX_UNREADABLE_RECYCLES
      modifies this, tracker
      ensures Valid() && Running() && tracker.count == old(tracker.count) && seen <= old(seen)
      ensures r == BatchResult(turn) && state == old(state)
      ensures r.Stop? ==> Justified(Watermark, false, turn) && receiver && receivedOnReceiver
      ensures tally.(discards := old(tally).discards) == Batched(old(tally), DrainsAfter(turn), turn, mode, prefetch)
      ensures Drained(old(tally), tally.(discards := old(tally).discards), prefetch)
      ensures Recycled(turn, retried, old(recycles), old(tracker.generation))
    {
      if turn.fate.end.Returned? {
        r := AfterProcessing(retried, turn);
      } else if turn.fate.end.Broke? {
        r := Raise(turn.fate.end.kind);
      } else {
        var _ := StopDrain(true, turn);
        r := Fail;
      }
    }

    /** A batch with retries closes the connection for a fresh one; the end of a session at the job start closes it
      too. */
    ghost predicate Recycled(turn: Turn, retried: nat, recycles: nat, generation: nat)
      reads this, tracker
    {
      && (turn.fate.end.Returned? && !AtJobStart(turn) && retried > 0 ==>
            !receiver && this.recycles == recycles + 1 && tracker.generation == generation + 1)
      && (AtJobStart(turn) && sessions && !DrainFails(turn) ==> !receiver)
    }

    /** `_batch_count` (src/receiver.py:370-372). */
    function Room(): (n: nat)
      requires batchSize >= 1 && (limit > 0 ==> taken < limit)
      reads this
      ensures n > 0 && (limit > 0 ==> taken + n <= limit)
    {
      if limit > 0 then Min(batchSize, limit - taken) else batchSize
    }

    /** One receive and what follows it (src/receiver.py:334-349). */
    method ReceiveStep(catchingUp: bool, turn: Turn) returns (r: StepResult)
      requires Valid() && Running() && receiver && !MustStop(catchingUp, turn)
      modifies this, tracker
      ensures Reasoned(r, catchingUp, turn)
      ensures Valid() && Running() && tracker.count == old(tracker.count) && seen <= old(seen)
      ensures r != Stop(SessionRevisited) && GrownBy(old(state), state, mode, turn.fate)
      ensures Grown(old(tally), tally, prefetch) && tally.opens == old(tally.opens)
      ensures !sessions && !catchingUp && r.GoOn? ==>
        tally.nonEmpty + tally.emptyTotal > old(tally.nonEmpty + tally.emptyTotal)
      ensures !sessions && (r.GoOn? || r.Raise? || r == Stop(Idle)) ==> tally.drained == old(tally.drained)
      ensures Receives(turn) ==>
        && r == BatchResult(turn)
        && tally.(discards := old(tally).discards) ==
             Batched(old(Taking(Room(), turn)), DrainsAfter(turn), turn, mode, prefetch)
        && Recycled(turn, old(Retries(Room(), turn)), old(recycles), old(tracker.generation))
      ensures !Receives(turn) ==>
        !r.Fail? && (r.Stop? ==> !catchingUp && (r.reason.Idle? || r.reason.ReceiveStalled?))
      ensures !Receives(turn) && sessions && turn.receive.Got? ==> r.GoOn? && !receiver
      ensures Fault(turn, true).Some? ==> r == Raise(Fault(turn, true).value)
    {
      if turn.receive.ReceiveFailed? {
        receivedOnReceiver := true;
        r := Raise(turn.receive.kind);
      } else if turn.receive.offered == [] {
        receivedOnReceiver := true;
        r := OnEmpty(catchingUp, turn);
      } else {
        r := BatchStep(Room(), turn);
      }
    }

    /** How a step ends has its reason in the turn. */
    ghost predicate Reasoned(r: StepResult, catchingUp: bool, turn: Turn)
      reads this
    {
      match r
      case GoOn => true
      case Stop(reason) => Justified(reason, catchingUp, turn) && StopDrained(reason, catchingUp, turn)
      case Fail => OwnFails(turn) && EmptiedBy(turn)
      case Raise(kind) => Raises(turn, kind)
    }

    /** A stop that is due. */
    method StopStep(reason: StopReason, turn: Turn) returns (r: StepResult)
      requires Valid() && Running()
      modifies this`receivedOnReceiver, this`armed, this`rows, this`tally
      ensures Valid() && Running() && Buffered() == old(Buffered())
      ensures r == if old(Buffered()) && DrainFails(turn) then Fail else Stop(reason)
      ensures tally == Emptied(old(tally), old(Buffered()), turn, mode, prefetch)
      ensures Drained(old(tally), tally, prefetch) && (Buffered() ==> EmptiedBy(turn))
    {
      EmptiedEnds(tally, Buffered(), turn, mode, prefetch);
      var fails := false;
      if receiver {
        fails := StopDrain(false, turn);
      }
      r := if fails then Fail else Stop(reason);
    }

    /** `_step` (src/receiver.py:324-349): a stop that is due comes first, and empties the buffer of a receiver that has
      received. */
    method Step(catchingUp: bool, turn: Turn) returns (r: StepResult)
      requires Valid() && Running()
      modifies this, tracker
      ensures Reasoned(r, catchingUp, turn)
      ensures Valid() && tracker.count == old(tracker.count) && seen <= old(seen) + TurnSessions(turn)
      ensures r.GoOn? || r.Raise? || (!catchingUp && r.Stop? && Continues(r.reason)) ==> Running()
      ensures GrownBy(old(state), state, mode, turn.fate)
      ensures tally.revisits <= 1 && tally.lostAtEnd == 0 && Grown(old(tally), tally, prefetch)
      ensures !sessions && !catchingUp && r.GoOn? ==> Work(tally, tracker.count) > old(Work(tally, tracker.count))
      ensures !sessions && (r.GoOn? || r.Raise? || (r == Stop(Idle) && !catchingUp)) ==>
        tally.drained == old(tally.drained)
      ensures old(MustStop(catchingUp, turn)) ==>
        && r == (if old(Buffered()) && DrainFails(turn) then Fail else Stop(old(StopCheck(catchingUp, turn)).value))
        && tally == Emptied(old(tally), old(Buffered()), turn, mode, prefetch) && Buffered() == old(Buffered())
      ensures old(!MustStop(catchingUp, turn) && receiver) && Receives(turn) ==>
        && r == BatchResult(turn)
        && tally.(discards := old(tally).discards) ==
             Batched(old(TakingNext(turn)), DrainsAfter(turn), turn, mode, prefetch)
        && Recycled(turn, old(RetriesNext(turn)), old(recycles), old(tracker.generation))
      ensures r == Stop(Watermark) || (r.Fail? && !old(MustStop(catchingUp, turn))) ==>
        old(!MustStop(catchingUp, turn) && receiver) && Receives(turn)
      ensures old(!MustStop(catchingUp, turn)) && Fault(turn, old(receiver)).Some? ==>
        r == Raise(Fault(turn, old(receiver)).value)
      ensures old(!MustStop(catchingUp, turn) && receiver && sessions) && turn.receive == Got([]) ==>
        r.GoOn? && !receiver
      ensures old(!MustStop(catchingUp, turn) && !receiver) && !sessions && turn.open.Opened? ==> r.GoOn? && receiver
    {
      var stop := StopCheck(catchingUp, turn);
      if stop.Some? {
        r := StopStep(stop.value, turn);
      } else if receiver {
        r := ReceiveStep(catchingUp, turn);
      } else {
        r := OpenNext(catchingUp, turn);
      }
    }

    /** An error closes the connection; the tracker decides whether the next step may reopen it. An interrupted session
      is forgotten (src/receiver.py:625-630). */
    method Recover(kind: ErrorKind) returns (ends: bool)
      requires Valid() && Running()
      modifies this, tracker
      ensures Valid() && (!ends ==> Running()) && !receiver && sessionId == None
      ensures seen == if old(sessionId).Some? then old(seen) - {old(sessionId).value} else old(seen)
      ensures tally == old(tally).(discards := tally.discards, lostAtEnd := tally.lostAtEnd) && tally.lostAtEnd <= 1
      ensures tracker.count == old(tracker.count) + (if ends then 0 else 1) && state == old(state)
      ensures ends ==> tracker.Hopeless(kind)
    {
      ends := tracker.Failure(kind);
      if ends && receiver {
        tally := tally.(lostAtEnd := 1);
      }
      Close(true);
    }

    /** What follows an error: on to the next session when another receiver holds this one, a recovery, or the end of
      the run (src/receiver.py:315-321). */
    method Raised(kind: ErrorKind) returns (e: Ending)
      requires Valid() && Running()
      modifies this, tracker
      ensures Valid() && (e.StillRunning? ==> Running()) && !receiver && seen <= old(seen) && state == old(state)
      ensures tally == old(tally).(discards := tally.discards, lostAtEnd := tally.lostAtEnd) && tally.lostAtEnd <= 1
      ensures if sessions && kind.SessionLocked? then e.StillRunning? && tracker.count == old(tracker.count)
              else if e.StillRunning? then tracker.count == old(tracker.count) + 1
              else e.RunFailed? && tracker.count == old(tracker.count) && tracker.Hopeless(kind)
    {
      e := StillRunning;
      if sessions && kind.SessionLocked? {
        FinishSession();
      } else {
        var ends := Recover(kind);
        e := if ends then RunFailed else StillRunning;
      }
    }

    /** One round of `_consume`: a step and the handling of the error it may raise (src/receiver.py:309-322). */
    method Round(catchingUp: bool, turn: Turn) returns (e: Ending)
      requires Valid() && Running()
      modifies this, tracker
      ensures EndedBy(e, catchingUp, turn)
      ensures old(!MustStop(catchingUp, turn)) && Fault(turn, old(receiver)).Some? ==>
        if sessions && Fault(turn, old(receiver)) == Some(SessionLocked)
        then e.StillRunning? && !receiver && tracker.count == old(tracker.count)
        else e.RunFailed? || (e.StillRunning? && !receiver && tracker.count == old(tracker.count) + 1)
      ensures e.RunFailed? ==> (OwnFails(turn) || tracker.count == old(tracker.count))
      ensures Valid() && tally.revisits + tally.lostAtEnd <= 1 && seen <= old(seen) + TurnSessions(turn)
      ensures e.StillRunning? || (!catchingUp && e.Stopped? && Continues(e.reason)) ==> Running()
      ensures Grown(old(tally), tally, prefetch) && GrownBy(old(state), state, mode, turn.fate)
      ensures Work(tally, tracker.count) >= old(Work(tally, tracker.count)) && tracker.count >= old(tracker.count)
      ensures !sessions && !catchingUp && e.StillRunning? ==>
        Work(tally, tracker.count) > old(Work(tally, tracker.count))
      ensures !sessions && (e.StillRunning? || (e == Stopped(Idle) && !catchingUp)) ==>
        tally.drained == old(tally.drained)
    {
      var r := Step(catchingUp, turn);
      match r
      case GoOn => e := StillRunning;
      case Stop(reason) => e := Stopped(reason);
      case Fail => e := RunFailed;
      case Raise(kind) => e := Raised(kind);
    }

    /** `_consume`: rounds until a stop or a failure, or until the script runs out; `n` is how many. In
      receive-and-delete mode every message handed out has been given to the pipeline, once and in order, however it
      ends. */
    method Consume(script: seq<Turn>, catchingUp: bool) returns (e: Ending, n: nat)
      requires Valid() && Running()
      modifies this, tracker
      ensures Valid() && n <= |script| && (e.StillRunning? ==> n == |script|) && tracker.count >= old(tracker.count)
      ensures EndedFor(e, catchingUp, script, n) && InTime(script[..Went(n, e)], catchingUp)
      ensures mode.ReceiveAndDelete? ==> tally.processed == tally.handedOut && (tally.handedOut != [] ==> armed)
      ensures mode.ReceiveAndDelete? ==> |tally.handedOut| == |rows| + tally.disposed + tally.broken
      ensures tally.revisits + tally.lostAtEnd <= 1 && seen <= old(seen) + SessionsOf(script)
      ensures !catchingUp && e.Stopped? && Continues(e.reason) ==> Running()
      ensures OneBatchOver(script, old(state), state, mode)
      ensures !sessions && !catchingUp ==>
        n + old(Work(tally, tracker.count)) <= 73 + 11 * tally.nonEmpty && tally.nonEmpty <= |tally.handedOut|
      ensures sessions ==> tally.opens <= |seen| + MAX_RECOVERIES + MAX_UNREADABLE_RECYCLES + 1
      ensures !sessions ==>
        tally.drained <= old(tally.drained) + if e == Stopped(Idle) && !catchingUp then 0 else prefetch + 1
      ensures limit > 0 && !tally.raised ==> |rows| <= limit + if mode.ReceiveAndDelete? then tally.drained else 0
    {
      e, n := StillRunning, 0;
      while n < |script| && e.StillRunning?
        invariant n <= |script| && Valid() && tally.revisits + tally.lostAtEnd <= 1
        invariant e.StillRunning? || (!catchingUp && e.Stopped? && Continues(e.reason)) ==> Running()
        invariant OneBatchOver(script, old(state), state, mode) && tracker.count >= old(tracker.count)
        invariant EndedFor(e, catchingUp, script, n) && InTime(script[..Went(n, e)], catchingUp)
        invariant seen <= old(seen) + SessionsOf(script[..n])
        invariant !sessions && !catchingUp ==>
          n + old(Work(tally, tracker.count)) <= Work(tally, tracker.count) + if e.StillRunning? then 0 else 1
        invariant !sessions ==>
          tally.drained <= old(tally.drained)
            + if e.StillRunning? || (e == Stopped(Idle) && !catchingUp) then 0 else prefetch + 1
        decreases |script| - n
      {
        TakeTurn(script, n);
        e := Round(catchingUp, script[n]);
        InTimeAfter(script, n, e, catchingUp);
        n := n + 1;
      }
      SessionsOfPrefix(script, n);
      if !sessions {
        WorkIsBounded(tally, receiver, tracker.count, recycles, emptyRetries);
      }
    }

    /** `run` (src/receiver.py:292-302): a run that found nothing more, but lost connections on the way, catches up with
      the messages that come back. `later` is what happens then; `waits` when the configuration allows for it. */
    method Run(script: seq<Turn>, later: seq<Turn>, waits: bool) returns (e: Ending, n: nat, m: nat)
      requires Valid() && Running()
      modifies this, tracker
      ensures Valid() && n <= |script| && m <= |later| && (m > 0 ==> waits && tracker.count > 0)
      ensures e.StillRunning? ==> n == |script| || m == |later|
      ensures m == 0 && e.Stopped? && Continues(e.reason) ==> !(waits && tracker.count > 0)
      ensures (n > 0 ==> InTime(script[..n - 1], false)) && (m > 0 ==> InTime(later[..m - 1], true))
      ensures if m > 0 then EndedFor(e, true, later, m) else e.StillRunning? || EndedFor(e, false, script, n)
      ensures mode.ReceiveAndDelete? ==> tally.processed == tally.handedOut && (tally.handedOut != [] ==> armed)
      ensures mode.ReceiveAndDelete? ==> |tally.handedOut| == |rows| + tally.disposed + tally.broken
      ensures seen <= old(seen) + SessionsOf(script) + SessionsOf(later)
      ensures sessions ==> tally.opens <= |seen| + MAX_RECOVERIES + MAX_UNREADABLE_RECYCLES + 1
      ensures !sessions ==> tally.drained <= old(tally.drained) + prefetch + 1
      ensures limit > 0 && !tally.raised ==> |rows| <= limit + if mode.ReceiveAndDelete? then tally.drained else 0
      ensures OneBatchOver(script + later, old(state), state, mode)
    {
      e, n := Consume(script, false);
      InTimeEarlier(script, n, e, false);
      m := 0;
      OverEarlier(script, later, old(state), state, mode);
      if waits && tracker.count > 0 && e.Stopped? && Continues(e.reason) {
        assert !sessions ==> e == Stopped(Idle);
        ghost var between := state;
        e, m := Consume(later, true);
        InTimeEarlier(later, m, e, true);
        OverLater(script, later, old(state), between, state, mode);
      }
    }
  }

  datatype Ending = Stopped(reason: StopReason) | RunFailed | StillRunning

  /** The stops after which a run may catch up (src/receiver.py:632-637). */
  predicate Continues(reason: StopReason) {
    reason.Idle? || reason.NoMoreSessions?
  }

  /** What a batch adds to the state; only a defer-commit run looks at it. */
  function Growth(mode: Mode, fate: Fate): nat {
    if mode.DeferCommit? then fate.growth else 0
  }

  /** The state grows only while it is within its budget, by one batch. */
  predicate GrownBy(state: nat, state': nat, mode: Mode, fate: Fate) {
    state' == state || (state < STATE_BUDGET && state' == state + Growth(mode, fate))
  }

  /** The state never exceeds its budget by more than one batch of the script, whatever it started from. */
  ghost predicate OneBatchOver(script: seq<Turn>, state: nat, state': nat, mode: Mode) {
    state' == state || exists i :: 0 <= i < |script| && state' < STATE_BUDGET + Growth(mode, script[i].fate)
  }

  /** On a plain entity without new arrivals a receive-and-delete run ends: each of its messages is handed out at most
    once, so a loop that has run for `n` rounds has run for at most 73 and 11 for each message. */
  method EndsOnFiniteEntity(loop: ReceiveLoop, script: seq<Turn>, ghost contents: set<int>) returns (e: Ending, n: nat)
    requires loop.Valid() && loop.Running() && loop.mode.ReceiveAndDelete? && !loop.sessions
    requires Work(loop.tally, loop.tracker.count) == 0
    modifies loop, loop.tracker
    ensures loop.Valid() && (e.StillRunning? ==> n == |script|)
    ensures Distinct(loop.tally.handedOut) && Elements(loop.tally.handedOut) <= contents ==> n <= 73 + 11 * |contents|
  {
    e, n := loop.Consume(script, false);
    FewMessagesFewRounds(n, loop.tally.nonEmpty, loop.tally.handedOut, contents);
  }

  lemma FewMessagesFewRounds(n: nat, nonEmpty: nat, handedOut: seq<int>, contents: set<int>)
    requires n <= 73 + 11 * nonEmpty && nonEmpty <= |handedOut|
    ensures Distinct(handedOut) && Elements(handedOut) <= contents ==> n <= 73 + 11 * |contents|
  {
    if Distinct(handedOut) && Elements(handedOut) <= contents {
      DistinctSize(handedOut);
      SubsetSize(Elements(handedOut), contents);
    }
  }

  lemma OverEarlier(script: seq<Turn>, later: seq<Turn>, state: nat, state': nat, mode: Mode)
    requires OneBatchOver(script, state, state', mode)
    ensures OneBatchOver(script + later, state, state', mode)
  {
    if state' != state {
      var i :| 0 <= i < |script| && state' < STATE_BUDGET + Growth(mode, script[i].fate);
      assert (script + later)[i] == script[i];
    }
  }

  lemma OverLater(script: seq<Turn>, later: seq<Turn>, state: nat, between: nat, state': nat, mode: Mode)
    requires OneBatchOver(script + later, state, between, mode) && OneBatchOver(later, between, state', mode)
    ensures OneBatchOver(script + later, state, state', mode)
  {
    if state' != between {
      var i :| 0 <= i < |later| && state' < STATE_BUDGET + Growth(mode, later[i].fate);
      assert (script + later)[|script| + i] == later[i];
    }
  }

  /** What any step may change. */
  predicate Grown(t: Tally, t': Tally, prefetch: nat) {
    && t.opens <= t'.opens && t.nonEmpty <= t'.nonEmpty && t.emptyTotal <= t'.emptyTotal && t.handedOut <= t'.handedOut
    && t'.nonEmpty - t.nonEmpty <= |t'.handedOut| - |t.handedOut| && t'.drained <= t.drained + prefetch + 1
  }

  /** The session ids the broker hands out. */
  ghost function SessionsOf(script: seq<Turn>): set<string> {
    if script == [] then {} else SessionsOf(Front(script)) + TurnSessions(Last(script))
  }

  lemma {:induction false} SessionsOfPrefix(script: seq<Turn>, i: nat)
    requires i <= |script|
    ensures SessionsOf(script[..i]) <= SessionsOf(script)
  {
    if i == |script| {
      assert script[..i] == script;
    } else {
      SessionsOfPrefix(Front(script), i);
      assert Front(script)[..i] == script[..i];
    }
  }

  lemma TakeTurn(script: seq<Turn>, i: nat)
    requires i < |script|
    ensures SessionsOf(script[..i + 1]) == SessionsOf(script[..i]) + TurnSessions(script[i])
  {
    assert Front(script[..i + 1]) == script[..i] && Last(script[..i + 1]) == script[i];
  }

  predicate Loses(interrupted: bool, sessionId: Option<string>) {
    interrupted && sessionId.Some?
  }

  /** A batch went through the pipeline. */
  function AfterBatch(t: Tally, batch: seq<int>, j: Judgement, fate: Fate, mode: Mode, drain: bool): Tally {
    t.(processed := t.processed + batch, disposed := t.disposed + j.disposed,
       drained := t.drained + (if drain then |Sunk(j, fate, mode)| else 0),
       raised := t.raised || (!drain && !fate.end.Returned?),
       broken := t.broken + |j.rows| - |Sunk(j, fate, mode)|)
  }

  function HandOut(t: Tally, batch: seq<int>): Tally {
    t.(nonEmpty := t.nonEmpty + 1, handedOut := t.handedOut + batch)
  }

  /** A batch keeps what the loop promises. */
  lemma BatchIsSound(t: Tally, batch: seq<int>, j: Judgement, fate: Fate, mode: Mode, limit: nat, taken: nat,
                     taken': nat, written: nat, written': nat, armed: bool)
    requires batch != [] && |j.rows| + j.retried + j.disposed == |batch| && (j.retried > 0 ==> !mode.ReceiveAndDelete?)
    requires Limits(t, mode, limit, taken, written) && (limit > 0 ==> taken + |batch| <= limit)
    requires taken' == taken + (if fate.end.Returned? then |batch| - j.retried else 0)
    requires written' == written + |Sunk(j, fate, mode)|
    requires |t.handedOut| == |t.processed| + t.abandoned && (mode.ReceiveAndDelete? ==> armed)
    requires mode.ReceiveAndDelete? ==> t.processed == t.handedOut && |t.processed| == written + t.disposed + t.broken
    ensures var t' := AfterBatch(HandOut(t, batch), batch, j, fate, mode, false);
            Limits(t', mode, limit, taken', written') && Delivered(t', mode, written', armed)
  {
  }

  /** So does a stop drain in receive-and-delete mode. */
  lemma DrainIsSound(t: Tally, batch: seq<int>, j: Judgement, fate: Fate, mode: Mode, limit: nat, taken: nat,
                     written: nat, written': nat, prefetch: nat)
    requires mode.ReceiveAndDelete? && |batch| <= prefetch + 1 && |j.rows| + j.retried + j.disposed == |batch|
    requires j.retried == 0
    requires Limits(t, mode, limit, taken, written) && written' == written + |Sunk(j, fate, mode)|
    requires t.processed == t.handedOut && |t.processed| == written + t.disposed + t.broken && t.abandoned == 0
    ensures var t' := AfterBatch(t.(handedOut := t.handedOut + batch), batch, j, fate, mode, true);
            Limits(t', mode, limit, taken, written') && Delivered(t', mode, written', true) && Drained(t, t', prefetch)
  {
  }

  /** What one non-empty receive adds. */
  predicate OneBatchMore(t: Tally, t': Tally, prefetch: nat) {
    && t'.opens == t.opens && t'.emptyTotal == t.emptyTotal && t'.nonEmpty == t.nonEmpty + 1
    && t.handedOut <= t'.handedOut && |t'.handedOut| > |t.handedOut| && t'.drained <= t.drained + prefetch + 1
  }

  /** The messages a stop drain takes from the buffer of a receiver that has received. */
  function Buffer(received: bool, turn: Turn, prefetch: nat): seq<int> {
    if received && turn.drain.Got? then FirstOf(turn.drain.offered, prefetch + 1) else []
  }

  /** What a stop drain does: what the buffer holds is handed out, and given to the pipeline in receive-and-delete mode,
    abandoned otherwise. */
  function Emptied(t: Tally, received: bool, turn: Turn, mode: Mode, prefetch: nat): Tally {
    var drained := Buffer(received, turn, prefetch);
    var t' := t.(handedOut := t.handedOut + drained);
    if mode.ReceiveAndDelete?
    then AfterBatch(t', drained, Judge(drained, turn.drainFate, false), turn.drainFate, mode, true)
    else t'.(abandoned := t'.abandoned + |drained|)
  }

  ghost predicate EndsWith(s: seq<int>, end: seq<int>) {
    |end| <= |s| && s[|s| - |end|..] == end
  }

  lemma EmptiedEnds(t: Tally, received: bool, turn: Turn, mode: Mode, prefetch: nat)
    ensures EndsWith(Emptied(t, received, turn, mode, prefetch).handedOut, Buffer(received, turn, prefetch))
  {
  }

  /** The stops that come with messages in the buffer. */
  predicate Drains(reason: StopReason, catchingUp: bool) {
    reason.MaxMessages? || reason.MaxDuration? || reason.StateBudget? || (catchingUp && Continues(reason))
  }

  /** No turn is past the deadline or the end of the catch-up. */
  ghost predicate InTime(script: seq<Turn>, catchingUp: bool) {
    script != [] ==> InTime(Front(script), catchingUp) && !Late(Last(script), catchingUp)
  }

  predicate Late(turn: Turn, catchingUp: bool) {
    turn.pastDeadline || (catchingUp && turn.catchUpOver)
  }

  lemma InTimeAfter(script: seq<Turn>, n: nat, e: Ending, catchingUp: bool)
    requires n < |script| && InTime(script[..n], catchingUp) && (e.StillRunning? ==> !Late(script[n], catchingUp))
    ensures InTime(script[..Went(n + 1, e)], catchingUp)
  {
    assert Front(script[..n + 1]) == script[..n];
  }

  lemma InTimeEarlier(script: seq<Turn>, n: nat, e: Ending, catchingUp: bool)
    requires n <= |script| && InTime(script[..Went(n, e)], catchingUp)
    ensures n > 0 ==> InTime(script[..n - 1], catchingUp)
  {
    if n > 0 {
      assert Front(script[..n]) == script[..n - 1];
    }
  }

  /** How many of `n` rounds went on: all but a last one that ended the loop. */
  function Went(n: nat, e: Ending): nat {
    if e.StillRunning? || n == 0 then n else n - 1
  }

  /** The tally after a batch, with the buffer emptied if `drains`. */
  function Batched(t: Tally, drains: bool, turn: Turn, mode: Mode, prefetch: nat): Tally {
    if drains then Emptied(t, true, turn, mode, prefetch) else t
  }

  /** The receive of this turn returns messages. */
  predicate Receives(turn: Turn) {
    turn.receive.Got? && turn.receive.offered != []
  }

  function DrainedRows(received: bool, turn: Turn, mode: Mode, prefetch: nat): seq<int> {
    if mode.ReceiveAndDelete?
    then Sunk(Judge(Buffer(received, turn, prefetch), turn.drainFate, false), turn.drainFate, mode)
    else []
  }

  /** What a stop drain may change. */
  predicate Drained(t: Tally, t': Tally, prefetch: nat) {
    && t' == t.(handedOut := t'.handedOut, processed := t'.processed, abandoned := t'.abandoned,
                disposed := t'.disposed, broken := t'.broken, drained := t'.drained)
    && t.handedOut <= t'.handedOut && |t'.handedOut| <= |t.handedOut| + prefetch + 1
    && t'.drained <= t.drained + prefetch + 1
  }

  function TurnSessions(turn: Turn): set<string> {
    if turn.open.Opened? then {turn.open.session} else {}
  }
}
