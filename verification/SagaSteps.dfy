/** Every step of a worker keeps the transfer's invariant. */
module SagaSteps {
  import opened Base
  import opened Backoff
  import opened TransferStatus
  import opened Saga
  import opened SagaInvariants

  // ------------------------------------------------------------ conditional writes

  /** A pc about which the invariant claims nothing. */
  predicate Plain(pc: Pc) {
    pc == Top || pc == Ended || pc.Failing?
  }

  lemma PlainOk(v: View, p: Part, worker: Worker)
    requires Plain(worker.pc)
    ensures PcOk(v, p, worker)
  {
  }

  lemma StoredSnaps(p: Part, row: Row, snap: Row)
    requires HistoryOk(p) && SnapOk(p, snap)
    ensures SnapOk(Stored(p, row), snap)
  {
  }

  lemma UpdateKeeps(v: View, p: Part, w: Id, snap: Row, row: Row, next: Pc, onError: Pc, choice: Choice)
    requires PartInv(v, p) && SnapOk(p, snap) && Plain(onError)
    requires Holds(p, w, snap) ==> WriteOk(v, p, row) && row.status != Completed
    requires Holds(p, w, snap) ==> PcOk(v, Stored(p, row), Worker(next, snap))
    ensures PartInv(v, Update(p, w, snap, row, next, onError, choice))
  {
    hide PartInv, SnapOk, PcOk, WriteOk;
    if Holds(p, w, snap) {
      StoredKeeps(v, p, row);
      StoredSnaps(p, row, snap) by { PartHistory(v, p); }
      var worker := Worker(if choice.LostAck? then onError else next, snap);
      if choice.LostAck? { PlainOk(v, Stored(p, row), worker); }
      SetPcKeeps(v, Stored(p, row), w, worker);
    } else {
      PlainOk(v, p, Worker(Ended, snap));
      SetPcKeeps(v, p, w, Worker(Ended, snap));
    }
  }

  lemma PartHistory(v: View, p: Part)
    requires PartInv(v, p)
    ensures HistoryOk(p)
  {
  }

  predicate Moves(p: Part, w: Id, snap: Row, row: Row) {
    CanMove(snap.status, row.status) && Holds(p, w, snap) && p.row.status == snap.status
  }

  /** The part a transition leaves, with the completion event that `complete` enqueues. */
  function Transitioned(p: Part, w: Id, snap: Row, row: Row, next: Pc, onError: Pc, choice: Choice): Part {
    if Moves(p, w, snap, row) then
      SetPc(Stored(p, row), w, if choice.LostAck? then Worker(onError, snap) else Worker(next, Stored(p, row).row))
    else Transition(p, w, snap, row, next, onError, choice)
  }

  lemma TransitionKeeps(v: View, p: Part, w: Id, snap: Row, row: Row, next: Pc, onError: Pc, choice: Choice)
    requires PartInv(v, p) && SnapOk(p, snap) && Plain(next) && Plain(onError)
    requires Moves(p, w, snap, row) ==> WriteOk(v, p, row)
    ensures PartInv(v, Transitioned(p, w, snap, row, next, onError, choice))
  {
    hide PartInv, SnapOk, PcOk, WriteOk;
    if Moves(p, w, snap, row) {
      StoredKeeps(v, p, row);
      PartHistory(v, p);
      StoredSnaps(p, row, snap);
      var p' := Stored(p, row);
      PartHistory(v, p');
      RowIsSnapOk(p');
      var worker := if choice.LostAck? then Worker(onError, snap) else Worker(next, p'.row);
      PlainOk(v, p', worker);
      SetPcKeeps(v, p', w, worker);
    } else {
      PlainOk(v, p, Worker(Ended, snap));
      PlainOk(v, p, Worker(onError, snap));
      SetPcKeeps(v, p, w, Worker(Ended, snap));
      SetPcKeeps(v, p, w, Worker(onError, snap));
    }
  }

  // ------------------------------------------------------------------ what is known

  /** The current row, seen as the last entry of the history. */
  lemma RowFacts(v: View, p: Part)
    requires PartInv(v, p)
    ensures RowOk(p.row)
    ensures Ever(p.history, p.row.status)
    ensures p.row.status == FundsHeld || p.row.status == Processing ==> v.hold.Some?
    ensures p.row.leaseOwner.Some? ==> !Terminal(p.row.status)
  {
    var n := |p.history| - 1;
    assert RowOk(p.history[n]);
    assert p.history[n].status == p.row.status;
  }

  /** What a snapshot, however old, says about the current row. */
  lemma SnapFacts(v: View, p: Part, snap: Row)
    requires PartInv(v, p) && SnapOk(p, snap)
    ensures snap.order == p.row.order
    ensures snap.receiver.Some? ==> p.row.receiver == snap.receiver
    ensures snap.holdMayExist ==> p.row.holdMayExist
    ensures Ever(p.history, snap.status)
    ensures RowOk(snap)
  {
    var i := snap.version - 1;
    assert RowOk(p.history[i]) && p.history[i].status == snap.status;
    HistoryGrows(p.history, i, |p.history| - 1);
  }

  /** A row that is not past validation was never processing. */
  lemma EarlyRowNeverProcessed(v: View, p: Part)
    requires PartInv(v, p) && Rank(p.row.status) < 3
    ensures NoSettle(v, p)
  {
    if Ever(p.history, Processing) {
      var i :| 0 <= i < |p.history| && p.history[i].status == Processing;
      HistoryGrows(p.history, i, |p.history| - 1);
    }
  }

  // ---------------------------------------------------------------- the transitions

  lemma CompleteKeeps(v: View, p: Part, w: Id, snap: Row, choice: Choice)
    requires PartInv(v, p) && SnapOk(p, snap) && v.receipt.Some?
    requires snap.status == Processing || snap.status == Compensating
    ensures PartInv(v, Complete(p, w, snap, choice))
  {
    hide PartInv, SnapOk;
    RowFacts(v, p);
    var row := Unleased(Cleared(p.row)).(status := Completed);
    if Moves(p, w, snap, row) && p.row.receiver.None? {
      SetPcKeeps(v, p, w, Worker(Failing(false), snap));
    } else {
      TransitionKeeps(v, p, w, snap, row, Ended, Failing(false), choice);
      var p' := Transition(p, w, snap, row, Ended, Failing(false), choice);
      if Moves(p, w, snap, row) {
        assert |p'.history| == |p.history| + 1;
      } else {
        assert p'.history == p.history;
      }
    }
  }

  lemma MarkFailedKeeps(v: View, p: Part, w: Id, snap: Row, onError: Pc, choice: Choice)
    requires PartInv(v, p) && SnapOk(p, snap) && Plain(onError)
    requires snap.status == Compensating ==> NoSettle(v, p)
    ensures PartInv(v, MarkFailed(p, w, snap, onError, choice))
  {
    hide PartInv, SnapOk, NoSettle;
    RowFacts(v, p);
    var row := Unleased(p.row).(nextRetryAt := None, status := Failed);
    if Moves(p, w, snap, row) && snap.status != Compensating {
      EarlyRowNeverProcessed(v, p);
    }
    TransitionKeeps(v, p, w, snap, row, Ended, onError, choice);
  }

  lemma ScheduleRetryKeeps(v: View, p: Part, w: Id, snap: Row, now: Time, choice: Choice)
    requires PartInv(v, p) && SnapOk(p, snap)
    ensures PartInv(v, ScheduleRetry(p, w, snap, now, choice))
  {
    hide PartInv, SnapOk, RetryDelay;
    RowFacts(v, p);
    var retries := snap.retryCount + 1;
    UpdateKeeps(v, p, w, snap,
                Unleased(p.row).(retryCount := retries, nextRetryAt := Some(now + RetryDelay(retries))), Ended, Ended,
                  choice);
  }

  lemma HandleFailureKeeps(v: View, p: Part, w: Id, snap: Row, terminal: bool, now: Time, maxAttempts: nat,
    choice: Choice)
    requires PartInv(v, p) && SnapOk(p, snap)
    ensures PartInv(v, HandleFailure(p, w, snap, terminal, now, maxAttempts, choice))
  {
    hide PartInv, SnapOk, ScheduleRetry;
    if snap.status == Compensating || (!terminal && snap.retryCount + 1 < maxAttempts) {
      ScheduleRetryKeeps(v, p, w, snap, now, choice);
    } else if snap.holdMayExist {
      RowFacts(v, p);
      SnapFacts(v, p, snap);
      TransitionKeeps(v, p, w, snap, Cleared(p.row).(status := Compensating), Top, Ended, choice);
    } else {
      MarkFailedKeeps(v, p, w, snap, Ended, choice);
    }
  }

  // ------------------------------------------------------------------- calls

  lemma IssueKeeps(v: View, p: Part, w: Id, snap: Row, call: Call, pc: Pc)
    requires PartInv(v, p) && SnapOk(p, snap) && CallOk(p, call)
    requires PcOk(v, p, Worker(pc, snap))
    ensures PartInv(v, Issue(p, w, snap, call, pc))
  {
    hide PartInv, SnapOk, CallOk;
    CallAppears(v, p, call);
    var p' := p.(calls := p.calls + {call});
    CallsDoNotMatter(v, p, p', Worker(pc, snap));
    SetPcKeeps(v, p', w, Worker(pc, snap));
  }

  lemma CallsDoNotMatter(v: View, p: Part, p': Part, worker: Worker)
    requires p' == p.(calls := p'.calls) && PcOk(v, p, worker) && SnapOk(p, worker.snap)
    ensures PcOk(v, p', worker) && SnapOk(p', worker.snap)
  {
  }

  lemma AtTopKeeps(v: View, p: Part, w: Id, snap: Row, choice: Choice)
    requires PartInv(v, p) && SnapOk(p, snap)
    ensures PartInv(v, AtTop(p, w, snap, choice))
  {
    hide PartInv, SnapOk, Transition;
    RowFacts(v, p);
    SnapFacts(v, p, snap);
    match snap.status
    case Completed => SetPcKeeps(v, p, w, Worker(Ended, snap));
    case Failed => SetPcKeeps(v, p, w, Worker(Ended, snap));
    case Pending =>
      PlainTransition(v, p, w, snap, Cleared(p.row).(status := Validating), Top, Failing(false), choice);
    case Validating =>
      if snap.receiver.None? {
        IssueKeeps(v, p, w, snap, ValidateCall(snap.order), AwaitValidate);
      } else {
        SetPcKeeps(v, p, w, Worker(CheckFlag, snap));
      }
    case FundsHeld =>
      PlainTransition(v, p, w, snap, Cleared(p.row).(status := Processing), Top, Failing(false), choice);
    case Processing =>
      if snap.receiver.None? {
        SetPcKeeps(v, p, w, Worker(Failing(true), snap));
      } else {
        IssueKeeps(v, p, w, snap, SettleCall(snap.order, snap.receiver.value), AwaitSettle);
      }
    case Compensating =>
      IssueKeeps(v, p, w, snap, ReleaseCall(snap.order), AwaitRelease);
  }

  /** `TransitionKeeps` for the moves that complete nothing. */
  lemma PlainTransition(v: View, p: Part, w: Id, snap: Row, row: Row, next: Pc, onError: Pc, choice: Choice)
    requires PartInv(v, p) && SnapOk(p, snap) && Plain(next) && Plain(onError) && row.status != Completed
    requires Moves(p, w, snap, row) ==> WriteOk(v, p, row)
    ensures PartInv(v, Transition(p, w, snap, row, next, onError, choice))
  {
    hide PartInv, SnapOk, WriteOk;
    TransitionKeeps(v, p, w, snap, row, next, onError, choice);
  }

  // --------------------------------------------------------------- the whole worker

  lemma ReadingKeeps(v: View, p: Part, w: Id, worker: Worker)
    requires PartInv(v, p) && worker.pc.Reading? && PcOk(v, p, worker)
    ensures PartInv(v, SetPc(p, w, Worker(AfterReading(worker.pc.next), p.row)))
  {
    hide PartInv, SnapOk;
    PartHistory(v, p);
    RowIsSnapOk(p);
    SetPcKeeps(v, p, w, Worker(AfterReading(worker.pc.next), p.row));
  }

  lemma SavingKeeps(v: View, p: Part, w: Id, snap: Row, r: Id, choice: Choice)
    requires PartInv(v, p) && SnapOk(p, snap) && snap.status == Validating && snap.receiver.None?
    ensures PartInv(v,
      Update(p, w, snap, Cleared(p.row).(receiver := Some(r)), Reading(AfterReceiver), Failing(false), choice))
  {
    hide PartInv, SnapOk;
    RowFacts(v, p);
    PartHistory(v, p);
    if Holds(p, w, snap) {
      HeldSnapIsCurrent(p, w, snap);
    }
    UpdateKeeps(v, p, w, snap, Cleared(p.row).(receiver := Some(r)), Reading(AfterReceiver), Failing(false), choice);
  }

  lemma FlagKeeps(v: View, p: Part, w: Id, snap: Row, choice: Choice)
    requires PartInv(v, p) && SnapOk(p, snap) && snap.receiver.Some?
    ensures PartInv(v, Update(p, w, snap, p.row.(holdMayExist := true), Reading(AfterFlag), Failing(false), choice))
  {
    hide PartInv, SnapOk;
    RowFacts(v, p);
    SnapFacts(v, p, snap);
    UpdateKeeps(v, p, w, snap, p.row.(holdMayExist := true), Reading(AfterFlag), Failing(false), choice);
  }

  lemma PlacedKeeps(v: View, p: Part, w: Id, snap: Row, choice: Choice)
    requires PartInv(v, p) && SnapOk(p, snap) && snap.holdMayExist && v.hold.Some?
    ensures PartInv(v, Transition(p, w, snap, Cleared(p.row).(status := FundsHeld), Top, Failing(false), choice))
  {
    hide PartInv, SnapOk;
    RowFacts(v, p);
    SnapFacts(v, p, snap);
    PlainTransition(v, p, w, snap, Cleared(p.row).(status := FundsHeld), Top, Failing(false), choice);
  }

  lemma ContinueKeeps(v: View, p: Part, w: Id, now: Time, maxAttempts: nat, choice: Choice)
    requires PartInv(v, p) && w in p.workers && !Waiting(p.workers[w].pc)
    ensures PartInv(v, Continue(p, w, p.workers[w], now, maxAttempts, choice))
  {
    hide HistoryOk, SnapOk, LedgerOk, OutcomeOk, Update, Transition, Complete, MarkFailed, HandleFailure, AtTop,
      NoSettle;
    var worker := p.workers[w];
    var snap := worker.snap;
    assert SnapOk(p, snap) && PcOk(v, p, worker);
    match worker.pc
    case Reading(_) => ReadingKeeps(v, p, w, worker);
    case Top => AtTopKeeps(v, p, w, snap, choice);
    case SavingReceiver(r) => SavingKeeps(v, p, w, snap, r, choice);
    case CheckFlag =>
      if snap.holdMayExist { SetPcKeeps(v, p, w, Worker(Placing, snap)); } else { FlagKeeps(v, p, w, snap, choice); }
    case Placing =>
      SnapFacts(v, p, snap);
      IssueKeeps(v, p, w, snap, PlaceCall(snap.order), AwaitPlace);
    case PlaceDone => PlacedKeeps(v, p, w, snap, choice);
    case SettleDone => CompleteKeeps(v, p, w, snap, choice);
    case ReleaseDone(settled) =>
      if settled {
        CompleteKeeps(v, p, w, snap, choice);
      } else {
        assert ReplyOk(v, p, Released);
        MarkFailedKeeps(v, p, w, snap, Failing(false), choice);
      }
    case Failing(terminal) => HandleFailureKeeps(v, p, w, snap, terminal, now, maxAttempts, choice);
    case _ =>
  }

  lemma TakeKeeps(v: View, p: Part, w: Id, reply: Reply)
    requires PartInv(v, p) && w in p.workers && reply in p.replies && Received(p.workers[w].pc, reply).Some?
    ensures PartInv(v, SetPc(p, w, p.workers[w].(pc := Received(p.workers[w].pc, reply).value)))
  {
    hide HistoryOk, SnapOk, LedgerOk, OutcomeOk, NoSettle, Ever;
    var worker := p.workers[w];
    assert SnapOk(p, worker.snap) && PcOk(v, p, worker);
    assert ReplyOk(v, p, reply);
    SetPcKeeps(v, p, w, worker.(pc := Received(worker.pc, reply).value));
  }

  /** One step of any worker, with or without the lease, keeps the transfer's invariant. */
  lemma AdvanceKeeps(v: View, p: Part, w: Id, choice: Choice, now: Time, maxAttempts: nat)
    requires PartInv(v, p)
    ensures PartInv(v, Advance(p, w, choice, now, maxAttempts))
  {
    hide HistoryOk, SnapOk, LedgerOk, OutcomeOk, MessagesOk, Continue;
    if w in p.workers {
      var worker := p.workers[w];
      assert SnapOk(p, worker.snap);
      match choice
      case Fail(terminal) =>
        SetPcKeeps(v, p, w, worker.(pc := Ended));
        SetPcKeeps(v, p, w, worker.(pc := Failing(terminal)));
      case Take(reply) =>
        if reply in p.replies && Received(worker.pc, reply).Some? {
          TakeKeeps(v, p, w, reply);
        }
      case _ =>
        if !Waiting(worker.pc) {
          ContinueKeeps(v, p, w, now, maxAttempts, choice);
        }
    }
  }

  // ----------------------------------------------------------- what a step may touch

  /** Only a worker that holds the lease and the version writes the row, and never its order. */
  ghost predicate RowStep(p: Part, p': Part, w: Id) {
    && p'.replies == p.replies && p.calls <= p'.calls && p'.workers.Keys <= p.workers.Keys + {w}
    && p'.row.order == p.row.order
    && (p.row.holdMayExist ==> p'.row.holdMayExist)
    && (p'.row.status != p.row.status ==> p'.row.holdMayExist == p.row.holdMayExist)
    && (p.row.leaseOwner != Some(w) ==> p'.row == p.row && p'.completions == p.completions)
  }

  lemma TransitionShape(p: Part, w: Id, snap: Row, row: Row, next: Pc, onError: Pc, choice: Choice)
    requires row.order == p.row.order && row.holdMayExist == p.row.holdMayExist
    ensures var p' := Transition(p, w, snap, row, next, onError, choice);
      && RowStep(p, p', w)
      && p'.completions == p.completions
      && (p.row.leaseOwner != Some(w) ==> p'.history == p.history)
      && (p'.row.status == p.row.status || (p'.row.status == row.status && Holds(p, w, snap)))
  {
  }

  lemma UpdateShape(p: Part, w: Id, snap: Row, row: Row, next: Pc, onError: Pc, choice: Choice)
    requires row.order == p.row.order && (p.row.holdMayExist ==> row.holdMayExist) && row.status == p.row.status
    ensures var p' := Update(p, w, snap, row, next, onError, choice);
      RowStep(p, p', w) && p'.row.status == p.row.status
  {
  }

  lemma HandleFailureShape(p: Part, w: Id, snap: Row, terminal: bool, now: Time, maxAttempts: nat, choice: Choice)
    ensures var p' := HandleFailure(p, w, snap, terminal, now, maxAttempts, choice);
      && RowStep(p, p', w)
      && (p'.row.status == Failed ==> p.row.status == Failed || (Holds(p, w, snap) && !snap.holdMayExist))
  {
    hide Update, Transition, RetryDelay, RowStep;
    var retries := snap.retryCount + 1;
    UpdateShape(p, w, snap, Unleased(p.row).(retryCount := retries, nextRetryAt := Some(now + RetryDelay(retries))),
      Ended, Ended, choice);
    TransitionShape(p, w, snap, Cleared(p.row).(status := Compensating), Top, Ended, choice);
    TransitionShape(p, w, snap, Unleased(p.row).(nextRetryAt := None, status := Failed), Ended, Ended, choice);
  }

  lemma CompleteShape(p: Part, w: Id, snap: Row, choice: Choice)
    ensures var p' := Complete(p, w, snap, choice);
      RowStep(p, p', w) && (p'.row.status == Failed ==> p.row.status == Failed)
  {
    hide Transition;
    TransitionShape(p, w, snap, Unleased(Cleared(p.row)).(status := Completed), Ended, Failing(false), choice);
  }

  lemma AtTopShape(p: Part, w: Id, snap: Row, choice: Choice)
    ensures var p' := AtTop(p, w, snap, choice);
      RowStep(p, p', w) && (p'.row.status == Failed ==> p.row.status == Failed)
  {
    hide Transition;
    TransitionShape(p, w, snap, Cleared(p.row).(status := Validating), Top, Failing(false), choice);
    TransitionShape(p, w, snap, Cleared(p.row).(status := Processing), Top, Failing(false), choice);
  }

  /** A step that fails a transfer acts on a `released` answer, or on a row without the hold flag. */
  ghost predicate FailsFor(p: Part, w: Id) {
    && w in p.workers
    && Holds(p, w, p.workers[w].snap)
    && (p.workers[w].pc == ReleaseDone(false) || (p.workers[w].pc.Failing? && !p.workers[w].snap.holdMayExist))
  }

  lemma ContinueShape(p: Part, w: Id, now: Time, maxAttempts: nat, choice: Choice)
    requires w in p.workers
    ensures var p' := Continue(p, w, p.workers[w], now, maxAttempts, choice);
      RowStep(p, p', w) && (p'.row.status == Failed ==> p.row.status == Failed || FailsFor(p, w))
  {
    hide Update, Transition, Complete, HandleFailure, AtTop;
    var worker := p.workers[w];
    var snap := worker.snap;
    match worker.pc
    case Top => AtTopShape(p, w, snap, choice);
    case SavingReceiver(r) =>
      UpdateShape(p, w, snap, Cleared(p.row).(receiver := Some(r)), Reading(AfterReceiver), Failing(false), choice);
    case CheckFlag =>
      UpdateShape(p, w, snap, p.row.(holdMayExist := true), Reading(AfterFlag), Failing(false), choice);
    case PlaceDone =>
      TransitionShape(p, w, snap, Cleared(p.row).(status := FundsHeld), Top, Failing(false), choice);
    case SettleDone => CompleteShape(p, w, snap, choice);
    case ReleaseDone(_) =>
      CompleteShape(p, w, snap, choice);
      TransitionShape(p, w, snap, Unleased(p.row).(nextRetryAt := None, status := Failed), Ended, Failing(false),
        choice);
    case Failing(terminal) => HandleFailureShape(p, w, snap, terminal, now, maxAttempts, choice);
    case _ =>
  }

  lemma AdvanceShape(p: Part, w: Id, choice: Choice, now: Time, maxAttempts: nat)
    ensures var p' := Advance(p, w, choice, now, maxAttempts);
      RowStep(p, p', w) && (p'.row.status == Failed ==> p.row.status == Failed || FailsFor(p, w))
  {
    hide Continue, FailsFor;
    if w in p.workers {
      ContinueShape(p, w, now, maxAttempts, choice);
    }
  }

  /**
   * Claiming: a new worker gets the lease of a transfer if and only if it is not decided, its retry
   * is due and no lease still runs; then nobody else gets it until the lease has run out, and from
   * then on somebody can.
   */
  lemma ClaimGrantedIff(p: Part, w: Id, now: Time, leaseMs: nat)
    requires w !in p.workers && p.row.leaseOwner != Some(w)
    ensures var row := Spawn(p, w, now, leaseMs).row;
      && (row.leaseOwner == Some(w) <==>
            && p.row.status != Completed && p.row.status != Failed
            && (p.row.nextRetryAt == None || p.row.nextRetryAt.value <= now)
            && (p.row.leaseUntil == None || p.row.leaseUntil.value < now))
      && (row.leaseOwner == Some(w) ==>
            && Strip(row) == Strip(p.row) && row.leaseUntil == Some(now + leaseMs)
            && forall at :: now <= at ==> (Claimable(row, at) <==> now + leaseMs < at))
      && (row.leaseOwner != Some(w) ==> row == p.row)
  {
  }
}
