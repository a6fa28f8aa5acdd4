/**
 * A concrete run that ends with a failed transfer and an active hold: three hold requests time
 * out, the compensating release finds nothing to release, and then one of the requests lands.
 */
module LateHold {
  import opened Base
  import opened TransferStatus
  import opened Backoff
  import opened Saga
  import opened TransferSystem
  import Compensation
  import SagaTheorems
  import SagaRun
  import SagaSteps
  import R = SagaRefinement
  import FxQuote
  import W = WalletAggregate
  import T = LedgerTransactions
  import L = LedgerDb
  import LI = LedgerInvariants
  import LP = LedgerProperties

  const ALICE := 1
  const ALICE_WALLET := 10
  const BOB_WALLET := 20
  const TRANSFER := 5
  const WORKER := 7
  const ORDER := Order(ALICE, ALICE_WALLET, 50, "USD", 50, "USD", None)

  // ------------------------------------------------------------- the ledger

  const E0 := W.StoredEvent(100, ALICE_WALLET, 1, 2, 0, W.WalletCreated(ALICE, "USD"))
  const E1 := W.StoredEvent(101, BOB_WALLET, 1, 2, 0, W.WalletCreated(2, "USD"))
  const E2 := W.StoredEvent(102, ALICE_WALLET, 2, 1, 0,
    W.MoneyDeposited(T.Transaction(T.RandomTx(900), T.WalletMovement(ALICE_WALLET, 100))))

  const CREATED := W.Wallet(ALICE_WALLET, 1, Some(ALICE), Some("USD"), 0, map[], [])
  const FUNDED := W.Wallet(ALICE_WALLET, 2, Some(ALICE), Some("USD"), 100, map[], [])

  lemma Streams()
    ensures L.LoadStream([E0], ALICE_WALLET) == [E0] && L.LoadStream([E0], BOB_WALLET) == []
    ensures L.LoadStream([E0, E1], ALICE_WALLET) == [E0]
    ensures L.LoadStream([E0, E1, E2], ALICE_WALLET) == [E0, E2]
    ensures W.Rehydrate(ALICE_WALLET, [E0]) == Ok(CREATED)
    ensures W.Rehydrate(ALICE_WALLET, [E0, E2]) == Ok(FUNDED)
  {
    LI.LoadStreamAppend([], E0, ALICE_WALLET);
    LI.LoadStreamAppend([], E0, BOB_WALLET);
    LI.LoadStreamAppend([E0], E1, ALICE_WALLET);
    LI.LoadStreamAppend([E0, E1], E2, ALICE_WALLET);
    assert [E0] + [E1] == [E0, E1] && [E0, E1] + [E2] == [E0, E1, E2] && [] + [E0] == [E0];
    LI.RehydrateAppend(ALICE_WALLET, [], E0);
    LI.RehydrateAppend(ALICE_WALLET, [E0], E2);
    assert [E0] + [E2] == [E0, E2];
    LI.MovementIsRead(CREATED, 100, T.RandomTx(900));
  }

  /** Opening a wallet on tables that have neither the wallet nor the event id. */
  lemma OpenRuns(db: L.Db, id: Id, owner: Id, eventId: Id) returns (db': L.Db)
    requires id !in db.wallets && !L.HasWallet(db, owner, "USD") && L.LoadStream(db.events, id) == []
    requires !L.EventIdUsed(db.events, eventId) && eventId !in db.outbox
    ensures db' == L.After(db, L.Open(id, owner, "USD", eventId), 0)
    ensures db'.events == db.events + [W.StoredEvent(eventId, id, 1, 2, 0, W.WalletCreated(owner, "USD"))]
    ensures db'.wallets == db.wallets[id := L.WalletRow(owner, "USD")]
    ensures db'.receipts == db.receipts && db'.outbox.Keys == db.outbox.Keys + {eventId}
  {
    hide L.LoadStream, W.Rehydrate, L.HasWallet, L.EventIdUsed;
    db' := L.After(db, L.Open(id, owner, "USD", eventId), 0);
  }

  lemma Opened1() returns (db: L.Db)
    ensures L.After(L.EMPTY_DB, L.Open(ALICE_WALLET, ALICE, "USD", 100), 0) == db
    ensures db.events == [E0] && db.wallets == map[ALICE_WALLET := L.WalletRow(ALICE, "USD")]
    ensures db.receipts == map[] && db.outbox.Keys == {100}
  {
    hide L.After;
    db := OpenRuns(L.EMPTY_DB, ALICE_WALLET, ALICE, 100);
  }

  lemma Opened2(db: L.Db) returns (db': L.Db)
    requires db.events == [E0] && db.wallets == map[ALICE_WALLET := L.WalletRow(ALICE, "USD")]
    requires db.receipts == map[] && db.outbox.Keys == {100}
    ensures L.After(db, L.Open(BOB_WALLET, 2, "USD", 101), 0) == db' && OpenedDb(db')
  {
    hide L.After, L.LoadStream, W.Rehydrate;
    Streams();
    db' := OpenRuns(db, BOB_WALLET, 2, 101);
  }

  /** The funded tables before the deposit. */
  ghost predicate OpenedDb(db: L.Db) {
    && db.events == [E0, E1] && db.receipts == map[] && db.outbox.Keys == {100, 101}
    && db.wallets == map[ALICE_WALLET := L.WalletRow(ALICE, "USD"), BOB_WALLET := L.WalletRow(2, "USD")]
  }

  const DEPOSIT := L.Single(ALICE_WALLET, ALICE, L.DepositOp(100, 900), 102)

  lemma DepositDecided()
    ensures L.Decide(CREATED, L.DepositOp(100, 900)) == Ok(Some(E2.payload))
  {
    hide T.Balanced;
    T.MovementIsBalanced(ALICE_WALLET, 100);
  }

  lemma DepositCommits(db: L.Db)
    requires OpenedDb(db)
    ensures L.CommitEvent(db, CREATED, E2.payload, 102, 0).Ok?
  {
    hide L.LoadStream, W.Rehydrate, W.WalletAmount, T.Balanced, T.WalletMovement;
    Streams();
    LI.MovementIsRead(CREATED, 100, T.RandomTx(900));
  }

  lemma DepositRuns(db: L.Db)
    requires OpenedDb(db)
    ensures L.Exec(db, DEPOSIT, 0) == L.CommitEvent(db, CREATED, E2.payload, 102, 0)
  {
    hide L.LoadStream, W.Rehydrate, L.Decide, L.CommitEvent;
    Streams();
    DepositDecided();
  }

  lemma Deposited(db: L.Db) returns (db': L.Db)
    requires OpenedDb(db)
    ensures L.After(db, DEPOSIT, 0) == db'
    ensures db'.events == [E0, E1, E2] && db'.wallets == db.wallets && db'.receipts == map[]
  {
    hide L.Exec, L.CommitEvent, W.Apply;
    DepositCommits(db);
    DepositRuns(db);
    LI.CommitEventEffect(db, CREATED, E2.payload, 102, 0);
    db' := L.After(db, DEPOSIT, 0);
  }

  // --------------------------------------------------------------- the saga

  function Leased(status: Status, receiver: Option<Id>, flag: bool, version: nat): Row {
    Row(ORDER, receiver, status, flag, 0, None, Some(WORKER), Some(30_000), version)
  }

  /** The transfer with its one worker. */
  function P(row: Row, pc: Pc, snap: Row, calls: set<Call>, replies: set<Reply>, history: seq<Row>): Part {
    Part(row, history, map[WORKER := Worker(pc, snap)], calls, replies, 0)
  }

  function Sys(db: L.Db, p: Part): System {
    System(db, map[TRANSFER := p], map[], map[], 3)
  }

  lemma Extend(steps: seq<Step>, step: Step)
    ensures Run(Initial(3), steps + [step]) == Do(Run(Initial(3), steps), step)
  {
    hide Do;
    assert (steps + [step])[..|steps|] == steps;
  }

  lemma Worked(steps: seq<Step>, db: L.Db, p: Part, choice: Choice) returns (steps': seq<Step>)
    requires Run(Initial(3), steps) == Sys(db, p)
    ensures Run(Initial(3), steps') == Sys(db, Advance(p, WORKER, choice, 0, 3))
  {
    hide Run, Advance;
    var step := Work(TRANSFER, WORKER, choice, 0);
    steps' := steps + [step];
    Extend(steps, step);
    assert Sys(db, p).parts[TRANSFER := Advance(p, WORKER, choice, 0, 3)]
      == map[TRANSFER := Advance(p, WORKER, choice, 0, 3)];
  }

  const OPENED: Row := Leased(Pending, None, false, 1)
  const CHECKED: Row := Leased(Validating, None, false, 2)
  const RESOLVED: Row := Leased(Validating, Some(BOB_WALLET), false, 3)
  const FLAGGED: Row := Leased(Validating, Some(BOB_WALLET), true, 4)
  const VALIDATE: Call := ValidateCall(ORDER)
  const PLACE: Call := PlaceCall(ORDER)
  const RELEASE: Call := ReleaseCall(ORDER)

  lemma Starts(h: seq<Row>) returns (h': seq<Row>)
    ensures Advance(P(OPENED, Reading(LoopTop), OPENED, {}, {}, h), WORKER, Proceed, 0, 3)
      == P(OPENED, Top, OPENED, {}, {}, h)
    ensures Advance(P(OPENED, Top, OPENED, {}, {}, h), WORKER, Proceed, 0, 3) == P(CHECKED, Top, CHECKED, {}, {}, h')
    ensures Advance(P(CHECKED, Top, CHECKED, {}, {}, h'), WORKER, Proceed, 0, 3)
      == P(CHECKED, AwaitValidate, CHECKED, {VALIDATE}, {}, h')
  {
    h' := h + [Strip(CHECKED)];
  }

  lemma Resolves(h: seq<Row>) returns (h': seq<Row>)
    ensures Advance(P(CHECKED, AwaitValidate, CHECKED, {VALIDATE}, {Validated(BOB_WALLET)}, h), WORKER,
      Take(Validated(BOB_WALLET)), 0, 3)
         == P(CHECKED, SavingReceiver(BOB_WALLET), CHECKED, {VALIDATE}, {Validated(BOB_WALLET)}, h)
    ensures Advance(P(CHECKED, SavingReceiver(BOB_WALLET), CHECKED, {VALIDATE}, {Validated(BOB_WALLET)}, h), WORKER,
      Proceed, 0, 3)
         == P(RESOLVED, Reading(AfterReceiver), CHECKED, {VALIDATE}, {Validated(BOB_WALLET)}, h')
    ensures Advance(P(RESOLVED, Reading(AfterReceiver), CHECKED, {VALIDATE}, {Validated(BOB_WALLET)}, h'), WORKER,
      Proceed, 0, 3)
         == P(RESOLVED, CheckFlag, RESOLVED, {VALIDATE}, {Validated(BOB_WALLET)}, h')
  {
    h' := h + [Strip(RESOLVED)];
  }

  lemma Asks(h: seq<Row>, replies: set<Reply>) returns (h': seq<Row>)
    ensures Advance(P(RESOLVED, CheckFlag, RESOLVED, {VALIDATE}, replies, h), WORKER, Proceed, 0, 3)
         == P(FLAGGED, Reading(AfterFlag), RESOLVED, {VALIDATE}, replies, h')
    ensures Advance(P(FLAGGED, Reading(AfterFlag), RESOLVED, {VALIDATE}, replies, h'), WORKER, Proceed, 0, 3)
         == P(FLAGGED, Placing, FLAGGED, {VALIDATE}, replies, h')
  {
    h' := h + [Strip(FLAGGED)];
  }

  lemma Places(h: seq<Row>, replies: set<Reply>)
    ensures Advance(P(FLAGGED, Placing, FLAGGED, {VALIDATE}, replies, h), WORKER, Proceed, 0, 3)
         == P(FLAGGED, AwaitPlace, FLAGGED, {VALIDATE, PLACE}, replies, h)
  {
    assert {VALIDATE} + {PLACE} == {VALIDATE, PLACE};
  }

  // ------------------------------------------------------------------ the run

  ghost predicate FundedDb(db: L.Db) {
    && db.events == [E0, E1, E2] && db.receipts == map[]
    && db.wallets == map[ALICE_WALLET := L.WalletRow(ALICE, "USD"), BOB_WALLET := L.WalletRow(2, "USD")]
  }

  lemma LedgerReady() returns (steps: seq<Step>, db: L.Db)
    ensures FundedDb(db) && Run(Initial(3), steps) == System(db, map[], map[], map[], 3)
  {
    hide L.After;
    var s0 := Public(L.Open(ALICE_WALLET, ALICE, "USD", 100), 0);
    var s1 := Public(L.Open(BOB_WALLET, 2, "USD", 101), 0);
    var s2 := Public(DEPOSIT, 0);
    var db1 := Opened1();
    var db2 := Opened2(db1);
    db := Deposited(db2);
    Extend([], s0);
    Extend([] + [s0], s1);
    Extend([] + [s0] + [s1], s2);
    steps := [] + [s0] + [s1] + [s2];
  }

  lemma Claimed(steps: seq<Step>, db: L.Db) returns (steps': seq<Step>)
    requires Run(Initial(3), steps) == System(db, map[], map[], map[], 3)
    ensures Run(Initial(3), steps') == Sys(db, P(OPENED, Reading(LoopTop), OPENED, {}, {}, [NewRow(ORDER)]))
  {
    hide Run, FxQuote.Quote;
    FxQuote.QuoteSameCurrency(50, "USD");
    var create, claim := Create(TRANSFER, ORDER), Claim(TRANSFER, WORKER, 0, 30_000);
    Extend(steps, create);
    Extend(steps + [create], claim);
    steps' := steps + [create] + [claim];
  }

  lemma ValidateAnswered(steps: seq<Step>, db: L.Db, h: seq<Row>) returns (steps': seq<Step>)
    requires FundedDb(db) && Run(Initial(3), steps) == Sys(db, P(CHECKED, AwaitValidate, CHECKED, {VALIDATE}, {}, h))
    ensures Run(Initial(3), steps')
      == Sys(db, P(CHECKED, AwaitValidate, CHECKED, {VALIDATE}, {Validated(BOB_WALLET)}, h))
  {
    hide Run;
    var step := Deliver(TRANSFER, VALIDATE, Delivery(BOB_WALLET, false, 0, 0), 0);
    Extend(steps, step);
    steps' := steps + [step];
    assert {} + {Validated(BOB_WALLET)} == {Validated(BOB_WALLET)};
  }

  /** The ledger has nothing to release yet, and says so with success. */
  lemma NothingReleased(db: L.Db)
    requires FundedDb(db)
    ensures L.Exec(db, L.Single(ALICE_WALLET, ALICE, L.ReleaseOp(TRANSFER, true), 103), 0) == Ok(db)
    ensures L.HoldOf(db, ALICE_WALLET, TRANSFER) == None
    ensures LP.Coverable(db, ALICE_WALLET, ALICE, 50, 104)
  {
    hide L.LoadStream, W.Rehydrate, L.CommitEvent;
    Streams();
  }

  lemma UntilAsked() returns (steps: seq<Step>, db: L.Db, h: seq<Row>)
    ensures FundedDb(db)
    ensures Run(Initial(3), steps)
      == Sys(db, P(FLAGGED, AwaitPlace, FLAGGED, {VALIDATE, PLACE}, {Validated(BOB_WALLET)}, h))
  {
    hide Run, Advance, FundedDb;
    steps, db := LedgerReady();
    steps := Claimed(steps, db);
    h := [NewRow(ORDER)];
    var h1 := Starts(h);
    steps := Worked(steps, db, P(OPENED, Reading(LoopTop), OPENED, {}, {}, h), Proceed);
    steps := Worked(steps, db, P(OPENED, Top, OPENED, {}, {}, h), Proceed);
    steps := Worked(steps, db, P(CHECKED, Top, CHECKED, {}, {}, h1), Proceed);
    steps := ValidateAnswered(steps, db, h1);
    var rs := {Validated(BOB_WALLET)};
    var h2 := Resolves(h1);
    steps := Worked(steps, db, P(CHECKED, AwaitValidate, CHECKED, {VALIDATE}, rs, h1), Take(Validated(BOB_WALLET)));
    steps := Worked(steps, db, P(CHECKED, SavingReceiver(BOB_WALLET), CHECKED, {VALIDATE}, rs, h1), Proceed);
    steps := Worked(steps, db, P(RESOLVED, Reading(AfterReceiver), CHECKED, {VALIDATE}, rs, h2), Proceed);
    h := Asks(h2, rs);
    Places(h, rs);
    steps := Worked(steps, db, P(RESOLVED, CheckFlag, RESOLVED, {VALIDATE}, rs, h2), Proceed);
    steps := Worked(steps, db, P(FLAGGED, Reading(AfterFlag), RESOLVED, {VALIDATE}, rs, h), Proceed);
    steps := Worked(steps, db, P(FLAGGED, Placing, FLAGGED, {VALIDATE}, rs, h), Proceed);
  }

  // ------------------------------------------------------ three lost requests

  /** The run has brought the transfer to `p` and left the ledger as it was. */
  ghost predicate Stands(steps: seq<Step>, db: L.Db, p: Part) {
    var s := Run(Initial(3), steps);
    TRANSFER in s.parts && s.parts[TRANSFER] == p && s.db == db && s.maxAttempts == 3
  }

  lemma SysStands(steps: seq<Step>, db: L.Db, p: Part)
    requires Run(Initial(3), steps) == Sys(db, p)
    ensures Stands(steps, db, p)
  {
    hide Run;
  }

  lemma WorkedOn(steps: seq<Step>, db: L.Db, p: Part, w: Id, choice: Choice, now: Time)
    returns (steps': seq<Step>, p': Part)
    requires Stands(steps, db, p)
    ensures p' == Advance(p, w, choice, now, 3) && Stands(steps', db, p')
  {
    hide Run, Advance;
    var step := Work(TRANSFER, w, choice, now);
    steps' := steps + [step];
    p' := Advance(p, w, choice, now, 3);
    Extend(steps, step);
  }

  /** Worker `w` waits for the answer to its hold request; `lost` requests before it were lost. */
  ghost predicate Asking(p: Part, w: Id, lost: nat) {
    && R.At(p, w, AwaitPlace)
    && p.row.status == Validating && p.row.receiver.Some? && p.row.holdMayExist && p.row.retryCount == lost
    && p.row.order == ORDER && PLACE in p.calls
    && forall k :: k in p.workers ==> k <= w
  }

  /** What a worker's step leaves alone. */
  ghost predicate Beside(p: Part, p': Part) {
    p.calls <= p'.calls && p'.row.order == p.row.order && p'.workers.Keys <= p.workers.Keys
  }

  lemma Besides(p: Part, w: Id, choice: Choice, now: Time)
    requires w in p.workers
    ensures Beside(p, Advance(p, w, choice, now, 3))
  {
    hide Advance;
    SagaSteps.AdvanceShape(p, w, choice, now, 3);
  }

  lemma RetryStep(p: Part, w: Id, now: Time)
    requires R.At(p, w, Failing(false)) && p.row.status == Validating && p.row.retryCount + 1 < 3
    ensures Advance(p, w, Proceed, now, 3).row == SagaRun.Retried(p.row, now)
  {
    hide RetryDelay;
  }

  lemma CompensateStep(p: Part, w: Id, now: Time)
    requires R.At(p, w, Failing(false)) && p.row.status == Validating && p.row.retryCount == 2 && p.row.holdMayExist
    ensures R.Next(p, Advance(p, w, Proceed, now, 3), w, SagaRun.Moved(p.row, Compensating), Top)
  {
    hide RetryDelay;
  }

  lemma ClaimStep(p: Part, w: Id, now: Time)
    requires w !in p.workers && Claimable(p.row, now)
    ensures var p1 := Spawn(p, w, now, 30_000);
      var p2 := Advance(p1, w, Proceed, now, 3);
      && p2.row == SagaRun.Lease(p.row, w, now, 30_000) && R.At(p2, w, Top)
      && p2.calls == p.calls && p2.workers.Keys == p.workers.Keys + {w}
  {
  }

  /** A lost request is retried: the lease goes back, and the next worker asks again. */
  lemma AsksAgain(steps: seq<Step>, db: L.Db, p: Part, w: Id, lost: nat) returns (steps': seq<Step>, p': Part)
    requires Stands(steps, db, p) && Asking(p, w, lost) && lost + 1 < 3
    ensures Stands(steps', db, p') && Asking(p', w + 1, lost + 1)
  {
    hide Stands, Run, Advance, Spawn, RetryDelay;
    Besides(p, w, Fail(false), 0);
    R.FailStep(p, w, AwaitPlace, SagaRun.Failure(false), 0, 3);
    var s1, p1 := WorkedOn(steps, db, p, w, Fail(false), 0);
    Besides(p1, w, Proceed, 0);
    RetryStep(p1, w, 0);
    var s2, p2 := WorkedOn(s1, db, p1, w, Proceed, 0);
    var now := p2.row.nextRetryAt.value;
    ClaimStep(p2, w + 1, now);
    var s3, p3 := ClaimedBy(s2, db, p2, w + 1, now);
    var s4, p4 := WorkedOn(s3, db, p3, w + 1, Proceed, now);
    steps', p' := AsksOnce(s4, db, p4, w + 1, now);
  }

  lemma ClaimedBy(steps: seq<Step>, db: L.Db, p: Part, w: Id, now: Time) returns (steps': seq<Step>, p': Part)
    requires Stands(steps, db, p)
    ensures p' == Spawn(p, w, now, 30_000) && Stands(steps', db, p')
  {
    hide Run, Spawn;
    var step := Claim(TRANSFER, w, now, 30_000);
    steps' := steps + [step];
    p' := Spawn(p, w, now, 30_000);
    Extend(steps, step);
  }

  /** From the top of the loop, with the receiver and the flag stored, to the request. */
  lemma AsksOnce(steps: seq<Step>, db: L.Db, p: Part, w: Id, now: Time) returns (steps': seq<Step>, p': Part)
    requires Stands(steps, db, p) && R.At(p, w, Top)
    requires p.row.status == Validating && p.row.receiver.Some? && p.row.holdMayExist && p.row.order == ORDER
      && PLACE in p.calls
    requires forall k :: k in p.workers ==> k <= w
    ensures Stands(steps', db, p') && Asking(p', w, p.row.retryCount)
  {
    hide Stands, Run, Advance;
    Besides(p, w, Proceed, now);
    R.CheckStep(p, w, now, 3);
    var s1, p1 := WorkedOn(steps, db, p, w, Proceed, now);
    Besides(p1, w, Proceed, now);
    PlacingStep(p1, w, now);
    var s2, p2 := WorkedOn(s1, db, p1, w, Proceed, now);
    Besides(p2, w, Proceed, now);
    steps', p' := WorkedOn(s2, db, p2, w, Proceed, now);
  }

  lemma PlacingStep(p: Part, w: Id, now: Time)
    requires R.At(p, w, CheckFlag) && p.row.holdMayExist
    ensures var p1 := Advance(p, w, Proceed, now, 3);
      R.Next(p, p1, w, p.row, Placing) && R.Next(p1, Advance(p1, w, Proceed, now, 3), w, p.row, AwaitPlace)
  {
  }

  lemma AsksRelease(p: Part, w: Id, now: Time)
    requires R.At(p, w, Top) && p.row.status == Compensating
    ensures ReleaseCall(p.row.order) in Advance(p, w, Proceed, now, 3).calls
  {
  }

  /** The third lost request exhausts the attempts: the transfer is compensated. */
  lemma Compensates(steps: seq<Step>, db: L.Db, p: Part, w: Id) returns (steps': seq<Step>, p': Part)
    requires Stands(steps, db, p) && Asking(p, w, 2)
    ensures Stands(steps', db, p') && R.At(p', w, AwaitRelease) && p'.row.status == Compensating
      && p'.row.order == ORDER
    ensures PLACE in p'.calls && RELEASE in p'.calls
  {
    hide Stands, Run, Advance, RetryDelay;
    Besides(p, w, Fail(false), 0);
    R.FailStep(p, w, AwaitPlace, SagaRun.Failure(false), 0, 3);
    var s1, p1 := WorkedOn(steps, db, p, w, Fail(false), 0);
    Besides(p1, w, Proceed, 0);
    CompensateStep(p1, w, 0);
    var s2, p2 := WorkedOn(s1, db, p1, w, Proceed, 0);
    Besides(p2, w, Proceed, 0);
    R.AskStep(p2, w, 0, 3);
    AsksRelease(p2, w, 0);
    steps', p' := WorkedOn(s2, db, p2, w, Proceed, 0);
  }

  lemma ReleaseAnswered(steps: seq<Step>, db: L.Db, p: Part) returns (steps': seq<Step>, p': Part)
    requires FundedDb(db) && Stands(steps, db, p) && RELEASE in p.calls
    ensures p' == p.(replies := p.replies + {Released}) && Stands(steps', db, p')
  {
    hide Run, L.Exec;
    var step := Deliver(TRANSFER, RELEASE, Delivery(0, false, 103, 0), 0);
    NothingReleased(db);
    Extend(steps, step);
    steps' := steps + [step];
    p' := p.(replies := p.replies + {Released});
  }

  lemma UntilFailed() returns (steps: seq<Step>, db: L.Db, p: Part)
    ensures FundedDb(db) && Stands(steps, db, p)
    ensures p.row.status == Failed && p.row.order == ORDER && PLACE in p.calls
  {
    hide Run, Advance, FundedDb, Stands;
    var h;
    steps, db, h := UntilAsked();
    p := P(FLAGGED, AwaitPlace, FLAGGED, {VALIDATE, PLACE}, {Validated(BOB_WALLET)}, h);
    SysStands(steps, db, p);
    steps, p := AsksAgain(steps, db, p, WORKER, 0);
    steps, p := AsksAgain(steps, db, p, WORKER + 1, 1);
    var w := WORKER + 2;
    steps, p := Compensates(steps, db, p, w);
    steps, p := ReleaseAnswered(steps, db, p);
    Besides(p, w, Take(Released), 0);
    R.TakeStep(p, w, AwaitRelease, Released, 0, 3);
    steps, p := WorkedOn(steps, db, p, w, Take(Released), 0);
    Besides(p, w, Proceed, 0);
    GivesUp(p, w, 0);
    steps, p := WorkedOn(steps, db, p, w, Proceed, 0);
  }

  lemma GivesUp(p: Part, w: Id, now: Time)
    requires R.At(p, w, ReleaseDone(false)) && p.row.status == Compensating
    ensures Advance(p, w, Proceed, now, 3).row == SagaRun.GivenUp(p.row)
  {
  }

  /**
   * "Failed leaves no active hold" is false without timeliness, with the default three attempts:
   * three hold requests get lost, the release finds nothing, one of the requests lands after all,
   * and the failed transfer keeps 50 of the sender's 100 reserved.
   */
  lemma FailedWithActiveHold() returns (steps: seq<Step>)
    ensures var s := SagaTheorems.After(3, steps);
      && TRANSFER in s.parts && s.parts[TRANSFER].row.status == Failed
      && L.HoldOf(s.db, s.parts[TRANSFER].row.order.wallet, TRANSFER) == Some(W.Hold(50, W.Active))
  {
    hide Run, L.HoldOf, LP.Coverable, L.Exec, Do;
    var before, db, p := UntilFailed();
    NothingReleased(db);
    RunKeeps(3, before);
    var s := Run(Initial(3), before);
    var d := Delivery(0, false, 104, 0);
    Compensation.LatePlaceReserves(s, TRANSFER, d, 0);
    Extend(before, Deliver(TRANSFER, PLACE, d, 0));
    steps := before + [Deliver(TRANSFER, PLACE, d, 0)];
    OrderConstantLate(s, d);
  }

  lemma OrderConstantLate(s: System, d: Delivery)
    requires TRANSFER in s.parts
    ensures TRANSFER in Do(s, Deliver(TRANSFER, PLACE, d, 0)).parts
    ensures Do(s, Deliver(TRANSFER, PLACE, d, 0)).parts[TRANSFER].row == s.parts[TRANSFER].row
  {
    hide L.Exec, Validates;
  }
}
