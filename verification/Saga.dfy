/**
 * One transfer's saga as a machine over its steps: transfer-saga.service.ts.
 *
 * Any number of workers run the same transfer. Each has only the row it last read, and a lease id
 * of its own; it writes through conditional updates on version and lease. A ledger call, once
 * issued, may take effect any number of times, at any later moment; its answers may be lost.
 * A worker may stop for ever between any two steps. A worker goes on even when its claim matched
 * no row, and a row read after an update may already be someone else's.
 */
module Saga {
  import opened Base
  import opened TransferStatus
  import opened Backoff

  /** What was ordered; no update ever touches it. */
  datatype Order = Order(
    user: Id, wallet: Id, amount: int, currency: Currency,
    destAmount: int, destCurrency: Currency, share: Option<Id>)

  /** A row of `transfers`. */
  datatype Row = Row(
    order: Order, receiver: Option<Id>, status: Status, holdMayExist: bool, retryCount: nat,
    nextRetryAt: Option<Time>, leaseOwner: Option<Id>, leaseUntil: Option<Time>, version: nat)

  datatype Call =
    | ValidateCall(order: Order)
    | PlaceCall(order: Order)
    | SettleCall(order: Order, receiver: Id)
    | ReleaseCall(order: Order)

  datatype Reply = Validated(receiver: Id) | Placed | Settled | Released | AlreadySettled

  datatype AfterRead = LoopTop | AfterReceiver | AfterFlag

  datatype Pc =
    | Reading(next: AfterRead)
    | Top
    | AwaitValidate
    | SavingReceiver(receiver: Id)
    | CheckFlag
    | Placing
    | AwaitPlace
    | PlaceDone
    | AwaitSettle
    | SettleDone
    | AwaitRelease
    | ReleaseDone(settled: bool)
    | Failing(terminal: bool)
    | Ended

  datatype Worker = Worker(pc: Pc, snap: Row)

  /**
   * `history` lists every version of the row without its lease; `calls` and `replies` are all the
   * calls issued and answers given so far; `completions` counts the completion events enqueued.
   */
  datatype Part = Part(
    row: Row, history: seq<Row>, workers: map<Id, Worker>, calls: set<Call>, replies: set<Reply>, completions: nat)

  /**
   * `Proceed` carries on, `Fail` is an error thrown at this point, `LostAck` performs the write but
   * reports an error, `Take` receives an answer.
   */
  datatype Choice = Proceed | Fail(terminal: bool) | LostAck | Take(reply: Reply)

  function Strip(r: Row): Row {
    r.(leaseOwner := None, leaseUntil := None)
  }

  function NewRow(o: Order): Row {
    Row(o, None, Pending, false, 0, None, None, None, 1)
  }

  function NewPart(o: Order): Part {
    Part(NewRow(o), [NewRow(o)], map[], {}, {}, 0)
  }

  // ---------------------------------------------------------------- claiming

  predicate Claimable(r: Row, now: Time) {
    && !Terminal(r.status)
    && (r.nextRetryAt.Some? ==> r.nextRetryAt.value <= now)
    && (r.leaseUntil.Some? ==> r.leaseUntil.value < now)
  }

  /** `claim`: the conditional lease update, and a worker that goes on whether or not it matched. */
  function Spawn(p: Part, w: Id, now: Time, leaseMs: nat): Part {
    if w in p.workers then p
    else
      var row := if Claimable(p.row, now)
                 then p.row.(leaseOwner := Some(w), leaseUntil := Some(now + leaseMs)) else p.row;
      p.(row := row, workers := p.workers[w := Worker(Reading(LoopTop), row)])
  }

  // ------------------------------------------------------------------ writes

  predicate Holds(p: Part, w: Id, snap: Row) {
    p.row.version == snap.version && p.row.leaseOwner == Some(w)
  }

  function SetPc(p: Part, w: Id, worker: Worker): Part {
    p.(workers := p.workers[w := worker])
  }

  /** Stores a new version of the row. */
  function Store(p: Part, row: Row): Part {
    p.(row := row.(version := p.row.version + 1),
       history := p.history + [Strip(row.(version := p.row.version + 1))])
  }

  /** `updateClaimed`: `row` is the patched current row; a lost lease ends the run. */
  function Update(p: Part, w: Id, snap: Row, row: Row, next: Pc, onError: Pc, choice: Choice): Part {
    if !Holds(p, w, snap) then SetPc(p, w, Worker(Ended, snap))
    else SetPc(Store(p, row), w, Worker(if choice.LostAck? then onError else next, snap))
  }

  /** `transitionUsingManager`: an update that also names the status it moves from. */
  function Transition(p: Part, w: Id, snap: Row, row: Row, next: Pc, onError: Pc, choice: Choice): Part {
    if !CanMove(snap.status, row.status) then SetPc(p, w, Worker(onError, snap))
    else if !Holds(p, w, snap) || p.row.status != snap.status then SetPc(p, w, Worker(Ended, snap))
    else
      var p' := Store(p, row);
      SetPc(p', w, if choice.LostAck? then Worker(onError, snap) else Worker(next, p'.row))
  }

  function Cleared(r: Row): Row {
    r.(retryCount := 0, nextRetryAt := None)
  }

  function Unleased(r: Row): Row {
    r.(leaseOwner := None, leaseUntil := None)
  }

  /** `complete`: the transition and its outbox row commit together or not at all. */
  function Complete(p: Part, w: Id, snap: Row, choice: Choice): Part {
    if CanMove(snap.status, Completed) && Holds(p, w, snap) && p.row.status == snap.status && p.row.receiver.None?
    then SetPc(p, w, Worker(Failing(false), snap))
    else
      var p' := Transition(p, w, snap, Unleased(Cleared(p.row)).(status := Completed), Ended, Failing(false), choice);
      if p'.history == p.history then p' else p'.(completions := p.completions + 1)
  }

  /** `fail`. */
  function MarkFailed(p: Part, w: Id, snap: Row, onError: Pc, choice: Choice): Part {
    Transition(p, w, snap, Unleased(p.row).(nextRetryAt := None, status := Failed), Ended, onError, choice)
  }

  /** `scheduleRetry`. */
  function ScheduleRetry(p: Part, w: Id, snap: Row, now: Time, choice: Choice): Part {
    var retries := snap.retryCount + 1;
    Update(p, w, snap,
           Unleased(p.row).(retryCount := retries, nextRetryAt := Some(now + RetryDelay(retries))), Ended, Ended,
             choice)
  }

  /** `handleFailure`: retry later, compensate, or fail outright. Errors thrown here end the run. */
  function HandleFailure(p: Part, w: Id, snap: Row, terminal: bool, now: Time, maxAttempts: nat, choice: Choice): Part {
    if snap.status == Compensating then ScheduleRetry(p, w, snap, now, choice)
    else if !terminal && snap.retryCount + 1 < maxAttempts then ScheduleRetry(p, w, snap, now, choice)
    else if snap.holdMayExist then
      Transition(p, w, snap, Cleared(p.row).(status := Compensating), Top, Ended, choice)
    else MarkFailed(p, w, snap, Ended, choice)
  }

  // -------------------------------------------------------------------- run

  function Issue(p: Part, w: Id, snap: Row, call: Call, pc: Pc): Part {
    SetPc(p.(calls := p.calls + {call}), w, Worker(pc, snap))
  }

  /** One pass through the loop of `run`, up to its first await. */
  function AtTop(p: Part, w: Id, snap: Row, choice: Choice): Part {
    match snap.status
    case Completed => SetPc(p, w, Worker(Ended, snap))
    case Failed => SetPc(p, w, Worker(Ended, snap))
    case Pending =>
      Transition(p, w, snap, Cleared(p.row).(status := Validating), Top, Failing(false), choice)
    case Validating =>
      if snap.receiver.None? then Issue(p, w, snap, ValidateCall(snap.order), AwaitValidate)
      else SetPc(p, w, Worker(CheckFlag, snap))
    case FundsHeld =>
      Transition(p, w, snap, Cleared(p.row).(status := Processing), Top, Failing(false), choice)
    case Processing =>
      if snap.receiver.None? then SetPc(p, w, Worker(Failing(true), snap))
      else Issue(p, w, snap, SettleCall(snap.order, snap.receiver.value), AwaitSettle)
    case Compensating => Issue(p, w, snap, ReleaseCall(snap.order), AwaitRelease)
  }

  /** What a worker waiting at `pc` makes of an answer, if it is one to its call. */
  function Received(pc: Pc, reply: Reply): Option<Pc> {
    match (pc, reply)
    case (AwaitValidate, Validated(r)) => Some(SavingReceiver(r))
    case (AwaitPlace, Placed) => Some(PlaceDone)
    case (AwaitSettle, Settled) => Some(SettleDone)
    case (AwaitRelease, Released) => Some(ReleaseDone(false))
    case (AwaitRelease, AlreadySettled) => Some(ReleaseDone(true))
    case _ => None
  }

  predicate Waiting(pc: Pc) {
    pc == AwaitValidate || pc == AwaitPlace || pc == AwaitSettle || pc == AwaitRelease
  }

  function AfterReading(next: AfterRead): Pc {
    match next
    case LoopTop => Top
    case AfterReceiver => CheckFlag
    case AfterFlag => Placing
  }

  /** The next step of a worker that meets no error and waits for nothing. */
  function Continue(p: Part, w: Id, worker: Worker, now: Time, maxAttempts: nat, choice: Choice): Part {
    var snap := worker.snap;
    match worker.pc
    case Reading(next) => SetPc(p, w, Worker(AfterReading(next), p.row))
    case Top => AtTop(p, w, snap, choice)
    case SavingReceiver(r) =>
      Update(p, w, snap, Cleared(p.row).(receiver := Some(r)), Reading(AfterReceiver), Failing(false), choice)
    case CheckFlag =>
      if snap.holdMayExist then SetPc(p, w, Worker(Placing, snap))
      else Update(p, w, snap, p.row.(holdMayExist := true), Reading(AfterFlag), Failing(false), choice)
    case Placing => Issue(p, w, snap, PlaceCall(snap.order), AwaitPlace)
    case PlaceDone =>
      Transition(p, w, snap, Cleared(p.row).(status := FundsHeld), Top, Failing(false), choice)
    case SettleDone => Complete(p, w, snap, choice)
    case ReleaseDone(settled) =>
      if settled then Complete(p, w, snap, choice) else MarkFailed(p, w, snap, Failing(false), choice)
    case Failing(terminal) => HandleFailure(p, w, snap, terminal, now, maxAttempts, choice)
    case _ => p
  }

  /** One step of worker `w`. */
  function Advance(p: Part, w: Id, choice: Choice, now: Time, maxAttempts: nat): Part {
    if w !in p.workers then p
    else
      var worker := p.workers[w];
      match choice
      case Fail(terminal) =>
        if worker.pc == Ended then p
        else if worker.pc.Failing? || worker.pc == Reading(LoopTop)
        then SetPc(p, w, worker.(pc := Ended))
        else SetPc(p, w, worker.(pc := Failing(terminal)))
      case Take(reply) =>
        if reply in p.replies && Received(worker.pc, reply).Some?
        then SetPc(p, w, worker.(pc := Received(worker.pc, reply).value)) else p
      case _ => if Waiting(worker.pc) then p else Continue(p, w, worker, now, maxAttempts, choice)
  }
}
