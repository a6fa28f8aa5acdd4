/**
 * The two services together: the ledger's tables, every transfer's saga, and the split-bill rows,
 * with all their steps interleaved freely. A ledger call of the saga takes effect through `Deliver`,
 * any number of times and as late as it likes; users issue ledger commands of their own at any time.
 */
module TransferSystem {
  import opened Base
  import opened Saga
  import opened SagaInvariants
  import FxQuote
  import SagaSteps
  import L = LedgerDb
  import LI = LedgerInvariants
  import LP = LedgerProperties

  datatype Bill = Bill(total: int, currency: Currency, shares: seq<Id>)

  datatype ShareRow = ShareRow(bill: Id, amount: int)

  datatype System = System(
    db: L.Db, parts: map<Id, Part>, bills: map<Id, Bill>, shares: map<Id, ShareRow>, maxAttempts: nat)

  datatype Step =
    | Public(command: L.Command, now: Time)
    | OpenBill(bill: Id, total: int, currency: Currency, shareIds: seq<Id>, amounts: seq<int>)
    | Create(transfer: Id, order: Order)
    | Claim(transfer: Id, worker: Id, now: Time, leaseMs: nat)
    | Work(transfer: Id, worker: Id, choice: Choice, now: Time)
    | Deliver(transfer: Id, call: Call, delivery: Delivery, now: Time)

  /**
   * How a call takes effect: `receiver` is the wallet a validation resolves, `checkReceipt` picks
   * the receipt check of a release, and the ids are the event ids it draws.
   */
  datatype Delivery = Delivery(receiver: Id, checkReceipt: bool, first: Id, second: Id)

  function Initial(maxAttempts: nat): System {
    System(L.EMPTY_DB, map[], map[], map[], maxAttempts)
  }

  // ------------------------------------------------------------------- orders

  predicate ShareTaken(s: System, share: Id) {
    exists t :: t in s.parts && s.parts[t].row.order.share == Some(share)
  }

  /** What `createCanonical` guarantees of a new row: a quoted amount, and a free share of its own terms. */
  predicate OrderOk(s: System, o: Order) {
    && FxQuote.Quote(o.amount, o.currency, o.destCurrency) == Ok(o.destAmount)
    && (o.share.Some? ==>
          && o.share.value in s.shares
          && s.shares[o.share.value].bill in s.bills
          && o.amount == s.shares[o.share.value].amount
          && o.currency == o.destCurrency == s.bills[s.shares[o.share.value].bill].currency)
  }

  function Sum(xs: seq<int>): int {
    if |xs| == 0 then 0 else Sum(xs[..|xs| - 1]) + xs[|xs| - 1]
  }

  predicate BillOk(s: System, bill: Id, total: int, shareIds: seq<Id>, amounts: seq<int>) {
    && bill !in s.bills
    && |shareIds| == |amounts|
    && (forall i, j :: 0 <= i < j < |shareIds| ==> shareIds[i] != shareIds[j])
    && (forall i :: 0 <= i < |shareIds| ==> shareIds[i] !in s.shares)
    && (forall i :: 0 <= i < |amounts| ==> amounts[i] > 0)
    && Sum(amounts) == total
  }

  function WithShares(shares: map<Id, ShareRow>, bill: Id, ids: seq<Id>, amounts: seq<int>): map<Id, ShareRow>
    requires |ids| == |amounts|
  {
    if |ids| == 0 then shares
    else
      var n := |ids| - 1;
      WithShares(shares, bill, ids[..n], amounts[..n])[ids[n] := ShareRow(bill, amounts[n])]
  }

  // ------------------------------------------------------------ ledger calls

  /** The ledger command a call carries, if it is one that may write. */
  function CommandOf(t: Id, call: Call, d: Delivery): L.Command
    requires !call.ValidateCall?
  {
    match call
    case PlaceCall(o) => L.Single(o.wallet, o.user, L.PlaceOp(t, o.amount), d.first)
    case ReleaseCall(o) => L.Single(o.wallet, o.user, L.ReleaseOp(t, true), d.first)
    case SettleCall(o, receiver) => L.Settle(t, o.user, Terms(o, receiver), d.first, d.second)
  }

  /** `validateTransfer`: the sender's wallet, and another wallet of the target currency. */
  predicate Validates(db: L.Db, o: Order, receiver: Id) {
    && o.amount > 0 && o.destAmount > 0
    && o.wallet in db.wallets && db.wallets[o.wallet] == L.WalletRow(o.user, o.currency)
    && receiver in db.wallets && db.wallets[receiver].currency == o.destCurrency
    && receiver != o.wallet
  }

  function Answered(s: System, t: Id, r: Reply): System
    requires t in s.parts
  {
    s.(parts := s.parts[t := s.parts[t].(replies := s.parts[t].replies + {r})])
  }

  function SuccessReply(call: Call): Reply
    requires !call.ValidateCall?
  {
    match call
    case PlaceCall(_) => Placed
    case ReleaseCall(_) => Released
    case SettleCall(_, _) => Settled
  }

  function Delivered(s: System, t: Id, call: Call, d: Delivery, now: Time): System
    requires t in s.parts
  {
    if call.ValidateCall? then
      if Validates(s.db, call.order, d.receiver) then Answered(s, t, Validated(d.receiver)) else s
    else if call.ReleaseCall? && d.checkReceipt then
      if t in s.db.receipts then Answered(s, t, AlreadySettled) else s
    else
      match L.Exec(s.db, CommandOf(t, call, d), now)
      case Err(_) => s
      case Ok(db') => Answered(s.(db := db'), t, SuccessReply(call))
  }

  function Do(s: System, step: Step): System {
    match step
    case Public(command, now) =>
      if command.Settle? then s else s.(db := L.After(s.db, command, now))
    case OpenBill(bill, total, currency, shareIds, amounts) =>
      if !BillOk(s, bill, total, shareIds, amounts) then s
      else s.(bills := s.bills[bill := Bill(total, currency, shareIds)],
              shares := WithShares(s.shares, bill, shareIds, amounts))
    case Create(t, order) =>
      if t in s.parts || !OrderOk(s, order) || (order.share.Some? && ShareTaken(s, order.share.value)) then s
      else s.(parts := s.parts[t := NewPart(order)])
    case Claim(t, w, now, leaseMs) =>
      if t !in s.parts then s else s.(parts := s.parts[t := Spawn(s.parts[t], w, now, leaseMs)])
    case Work(t, w, choice, now) =>
      if t !in s.parts then s
      else s.(parts := s.parts[t := Advance(s.parts[t], w, choice, now, s.maxAttempts)])
    case Deliver(t, call, d, now) =>
      if t !in s.parts || call !in s.parts[t].calls then s else Delivered(s, t, call, d, now)
  }

  function Run(s: System, steps: seq<Step>): System {
    if |steps| == 0 then s else Do(Run(s, steps[..|steps| - 1]), steps[|steps| - 1])
  }

  // --------------------------------------------------------------- invariant

  function ViewOf(db: L.Db, t: Id, p: Part): View {
    View(L.HoldOf(db, p.row.order.wallet, t), if t in db.receipts then Some(db.receipts[t]) else None)
  }

  ghost predicate PartsOk(s: System) {
    forall t :: t in s.parts ==> PartInv(ViewOf(s.db, t, s.parts[t]), s.parts[t])
  }

  ghost predicate ReceiptsKnown(s: System) {
    forall t :: t in s.db.receipts ==> t in s.parts
  }

  ghost predicate SystemInv(s: System) {
    L.Inv(s.db) && PartsOk(s) && ReceiptsKnown(s)
  }

  // ------------------------------------------------------------------- proof

  /** A command that is not this transfer's settlement, or is one it ordered, leaves it sound. */
  lemma LedgerMoves(db: L.Db, c: L.Command, now: Time, t: Id, p: Part)
    requires L.Inv(db) && PartInv(ViewOf(db, t, p), p)
    requires c.Settle? && c.transfer == t ==>
      exists call :: call in p.calls && call.SettleCall? && c.terms == Terms(call.order, call.receiver)
    ensures PartInv(ViewOf(L.After(db, c, now), t, p), p)
  {
    hide L.Inv, PartInv, L.HoldOf, L.After;
    var db' := L.After(db, c, now);
    var v, v' := ViewOf(db, t, p), ViewOf(db', t, p);
    LP.CommandHoldStep(db, c, now, p.row.order.wallet, t);
    LP.CommandReceipts(db, c, now, t);
    HoldMoves(v, v'.hold, p);
    if v.receipt.None? && v'.receipt.Some? {
      var call :| call in p.calls && call.SettleCall? && c.terms == Terms(call.order, call.receiver);
      ReceiptAppears(v.(hold := v'.hold), p, call);
    }
  }

  lemma PublicKeeps(s: System, c: L.Command, now: Time)
    requires SystemInv(s) && !c.Settle?
    ensures SystemInv(s.(db := L.After(s.db, c, now)))
  {
    hide L.Inv, PartInv, L.After, ViewOf;
    LI.AfterKeepsInv(s.db, c, now);
    forall t | t in s.parts ensures PartInv(ViewOf(L.After(s.db, c, now), t, s.parts[t]), s.parts[t]) {
      LedgerMoves(s.db, c, now, t, s.parts[t]);
    }
    forall t | t in L.After(s.db, c, now).receipts ensures t in s.parts {
      LP.CommandReceipts(s.db, c, now, t);
    }
  }

  /** An answer that is true of the ledger may be given. */
  lemma AnsweredKeeps(s: System, t: Id, r: Reply)
    requires SystemInv(s) && t in s.parts && ReplyOk(ViewOf(s.db, t, s.parts[t]), s.parts[t], r)
    ensures SystemInv(Answered(s, t, r))
  {
    hide L.Inv, PartInv, L.HoldOf;
    var v := ViewOf(s.db, t, s.parts[t]);
    ReplyAppears(v, s.parts[t], r);
    assert ViewOf(s.db, t, Answered(s, t, r).parts[t]) == v;
  }

  /** A call's command, accepted by the ledger, makes its success answer true. */
  lemma SuccessIsTrue(s: System, t: Id, call: Call, d: Delivery, now: Time)
    requires SystemInv(s) && t in s.parts && call in s.parts[t].calls && !call.ValidateCall?
    requires L.Exec(s.db, CommandOf(t, call, d), now).Ok?
    requires PartInv(ViewOf(L.Exec(s.db, CommandOf(t, call, d), now).value, t, s.parts[t]), s.parts[t])
    ensures ReplyOk(ViewOf(L.Exec(s.db, CommandOf(t, call, d), now).value, t, s.parts[t]), s.parts[t],
      SuccessReply(call))
  {
    hide L.Inv, L.HoldOf, L.Exec, HistoryOk, WorkersOk, OutcomeOk, Ever;
    var p := s.parts[t];
    assert CallOk(p, call) by { assert PartInv(ViewOf(s.db, t, p), p); }
    var c := CommandOf(t, call, d);
    match call
    case PlaceCall(_) => LP.PlaceAnswers(s.db, c, now);
    case ReleaseCall(_) => LP.ReleaseAnswers(s.db, c, now);
    case SettleCall(_, _) => LP.SettleAnswers(s.db, c, now);
  }

  lemma ExecutedKeeps(s: System, t: Id, call: Call, d: Delivery, now: Time)
    requires SystemInv(s) && t in s.parts && call in s.parts[t].calls && !call.ValidateCall?
    requires L.Exec(s.db, CommandOf(t, call, d), now).Ok?
    ensures SystemInv(Answered(s.(db := L.Exec(s.db, CommandOf(t, call, d), now).value), t, SuccessReply(call)))
  {
    hide L.Inv, PartInv, L.HoldOf, L.Exec, ViewOf;
    var c := CommandOf(t, call, d);
    var s1 := s.(db := L.After(s.db, c, now));
    LI.AfterKeepsInv(s.db, c, now);
    forall u | u in s.parts ensures PartInv(ViewOf(s1.db, u, s.parts[u]), s.parts[u]) {
      LedgerMoves(s.db, c, now, u, s.parts[u]);
    }
    forall u | u in s1.db.receipts ensures u in s.parts {
      LP.CommandReceipts(s.db, c, now, u);
    }
    SuccessIsTrue(s, t, call, d, now);
    AnsweredKeeps(s1, t, SuccessReply(call));
  }

  lemma DeliveredKeeps(s: System, t: Id, call: Call, d: Delivery, now: Time)
    requires SystemInv(s) && t in s.parts && call in s.parts[t].calls
    ensures SystemInv(Delivered(s, t, call, d, now))
  {
    hide SystemInv, L.Exec, L.HoldOf;
    if call.ValidateCall? {
      AnsweredKeeps(s, t, Validated(d.receiver));
    } else if call.ReleaseCall? && d.checkReceipt {
      if t in s.db.receipts {
        AnsweredKeeps(s, t, AlreadySettled);
      }
    } else if L.Exec(s.db, CommandOf(t, call, d), now).Ok? {
      ExecutedKeeps(s, t, call, d, now);
    }
  }

  lemma PartKeeps(s: System, t: Id, p: Part)
    requires SystemInv(s) && t in s.parts && p.row.order == s.parts[t].row.order
    requires PartInv(ViewOf(s.db, t, s.parts[t]), p)
    ensures SystemInv(s.(parts := s.parts[t := p]))
  {
    hide L.Inv, PartInv, L.HoldOf;
    assert ViewOf(s.db, t, p) == ViewOf(s.db, t, s.parts[t]);
  }

  lemma OrderConstant(p: Part, w: Id, choice: Choice, now: Time, maxAttempts: nat, leaseMs: nat)
    ensures Advance(p, w, choice, now, maxAttempts).row.order == p.row.order
    ensures Spawn(p, w, now, leaseMs).row.order == p.row.order
  {
    hide Advance;
    SagaSteps.AdvanceShape(p, w, choice, now, maxAttempts);
  }

  lemma StepKeeps(s: System, step: Step)
    requires SystemInv(s)
    ensures SystemInv(Do(s, step))
  {
    hide L.Inv, PartInv, L.HoldOf, L.After, Delivered, Advance, Spawn, OrderOk, ShareTaken, BillOk;
    match step
    case Public(command, now) =>
      if !command.Settle? { PublicKeeps(s, command, now); }
    case OpenBill(_, _, _, _, _) =>
    case Create(t, order) =>
      NewPartInv(order, L.HoldOf(s.db, order.wallet, t));
    case Claim(t, w, now, leaseMs) =>
      if t in s.parts {
        SpawnKeeps(ViewOf(s.db, t, s.parts[t]), s.parts[t], w, now, leaseMs);
        OrderConstant(s.parts[t], w, Proceed, now, s.maxAttempts, leaseMs);
        PartKeeps(s, t, Spawn(s.parts[t], w, now, leaseMs));
      }
    case Work(t, w, choice, now) =>
      if t in s.parts {
        SagaSteps.AdvanceKeeps(ViewOf(s.db, t, s.parts[t]), s.parts[t], w, choice, now, s.maxAttempts);
        OrderConstant(s.parts[t], w, choice, now, s.maxAttempts, 0);
        PartKeeps(s, t, Advance(s.parts[t], w, choice, now, s.maxAttempts));
      }
    case Deliver(t, call, d, now) =>
      if t in s.parts && call in s.parts[t].calls {
        DeliveredKeeps(s, t, call, d, now);
      }
  }

  lemma InitialInv(maxAttempts: nat)
    ensures SystemInv(Initial(maxAttempts))
  {
    LI.EmptyInv();
  }

  /** The invariant holds after every run. */
  lemma {:induction false} RunKeeps(maxAttempts: nat, steps: seq<Step>)
    ensures SystemInv(Run(Initial(maxAttempts), steps))
  {
    hide Do, SystemInv;
    if |steps| == 0 {
      InitialInv(maxAttempts);
    } else {
      RunKeeps(maxAttempts, steps[..|steps| - 1]);
      StepKeeps(Run(Initial(maxAttempts), steps[..|steps| - 1]), steps[|steps| - 1]);
    }
  }
}
