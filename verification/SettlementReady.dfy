/**
 * What validation is for: a settlement that the saga orders cannot be refused for its wallets or
 * its amounts, only for want of its hold.
 */
module SettlementReady {
  import opened Base
  import opened TransferStatus
  import opened Backoff
  import opened Saga
  import opened SagaInvariants
  import opened TransferSystem
  import opened SagaTheorems
  import FxQuote
  import SagaSteps
  import SplitBills
  import W = WalletAggregate
  import L = LedgerDb
  import LP = LedgerProperties
  import B = BankRefinement

  // ------------------------------------------------------------- the receiver

  /** The receiver stored, or about to be stored, is one that a validation answered. */
  ghost predicate ReceiverAnswered(p: Part) {
    && (p.row.receiver.Some? ==> Validated(p.row.receiver.value) in p.replies)
    && (forall w :: w in p.workers && p.workers[w].pc.SavingReceiver? ==>
          Validated(p.workers[w].pc.receiver) in p.replies)
  }

  /** A step of `w` that leaves the receiver alone and does not go on to store one. */
  ghost predicate OtherStep(p: Part, p': Part, w: Id) {
    && p'.row.receiver == p.row.receiver && p'.replies == p.replies
    && (forall v :: v in p'.workers ==>
          if v == w then !p'.workers[v].pc.SavingReceiver? else v in p.workers && p'.workers[v] == p.workers[v])
  }

  lemma TransitionOther(p: Part, w: Id, snap: Row, row: Row, next: Pc, onError: Pc, choice: Choice)
    requires row.receiver == p.row.receiver && !next.SavingReceiver? && !onError.SavingReceiver?
    ensures OtherStep(p, Transition(p, w, snap, row, next, onError, choice), w)
  {
  }

  lemma UpdateOther(p: Part, w: Id, snap: Row, row: Row, next: Pc, onError: Pc, choice: Choice)
    requires row.receiver == p.row.receiver && !next.SavingReceiver? && !onError.SavingReceiver?
    ensures OtherStep(p, Update(p, w, snap, row, next, onError, choice), w)
  {
  }

  lemma FailureOther(p: Part, w: Id, snap: Row, terminal: bool, now: Time, maxAttempts: nat, choice: Choice)
    ensures OtherStep(p, HandleFailure(p, w, snap, terminal, now, maxAttempts, choice), w)
  {
    hide Update, Transition, RetryDelay, OtherStep;
    var retries := snap.retryCount + 1;
    UpdateOther(p, w, snap, Unleased(p.row).(retryCount := retries, nextRetryAt := Some(now + RetryDelay(retries))),
                Ended, Ended, choice);
    TransitionOther(p, w, snap, Cleared(p.row).(status := Compensating), Top, Ended, choice);
    TransitionOther(p, w, snap, Unleased(p.row).(nextRetryAt := None, status := Failed), Ended, Ended, choice);
  }

  lemma CompleteOther(p: Part, w: Id, snap: Row, choice: Choice)
    ensures OtherStep(p, Complete(p, w, snap, choice), w)
  {
    hide Transition;
    TransitionOther(p, w, snap, Unleased(Cleared(p.row)).(status := Completed), Ended, Failing(false), choice);
  }

  lemma AtTopOther(p: Part, w: Id, snap: Row, choice: Choice)
    ensures OtherStep(p, AtTop(p, w, snap, choice), w)
  {
    hide Transition;
    TransitionOther(p, w, snap, Cleared(p.row).(status := Validating), Top, Failing(false), choice);
    TransitionOther(p, w, snap, Cleared(p.row).(status := Processing), Top, Failing(false), choice);
  }

  lemma SavingKeepsReceiver(p: Part, w: Id, snap: Row, r: Id, choice: Choice)
    requires ReceiverAnswered(p) && Validated(r) in p.replies
    ensures ReceiverAnswered(
      Update(p, w, snap, Cleared(p.row).(receiver := Some(r)), Reading(AfterReceiver), Failing(false), choice))
  {
  }

  lemma OtherKeepsReceiver(p: Part, p': Part, w: Id)
    requires ReceiverAnswered(p) && OtherStep(p, p', w)
    ensures ReceiverAnswered(p')
  {
  }

  lemma ContinueKeepsReceiver(p: Part, w: Id, now: Time, maxAttempts: nat, choice: Choice)
    requires ReceiverAnswered(p) && w in p.workers
    ensures ReceiverAnswered(Continue(p, w, p.workers[w], now, maxAttempts, choice))
  {
    hide Update, Transition, Complete, HandleFailure, AtTop, OtherStep;
    var snap := p.workers[w].snap;
    match p.workers[w].pc
    case Top =>
      AtTopOther(p, w, snap, choice);
      OtherKeepsReceiver(p, AtTop(p, w, snap, choice), w);
    case SavingReceiver(r) => SavingKeepsReceiver(p, w, snap, r, choice);
    case CheckFlag =>
      UpdateOther(p, w, snap, p.row.(holdMayExist := true), Reading(AfterFlag), Failing(false), choice);
      OtherKeepsReceiver(
        p, Update(p, w, snap, p.row.(holdMayExist := true), Reading(AfterFlag), Failing(false), choice), w);
    case PlaceDone =>
      TransitionOther(p, w, snap, Cleared(p.row).(status := FundsHeld), Top, Failing(false), choice);
      OtherKeepsReceiver(
        p, Transition(p, w, snap, Cleared(p.row).(status := FundsHeld), Top, Failing(false), choice), w);
    case SettleDone =>
      CompleteOther(p, w, snap, choice);
      OtherKeepsReceiver(p, Complete(p, w, snap, choice), w);
    case ReleaseDone(settled) =>
      CompleteOther(p, w, snap, choice);
      TransitionOther(p, w, snap, Unleased(p.row).(nextRetryAt := None, status := Failed), Ended, Failing(false),
        choice);
      OtherKeepsReceiver(
        p, if settled then Complete(p, w, snap, choice) else MarkFailed(p, w, snap, Failing(false), choice), w);
    case Failing(terminal) =>
      FailureOther(p, w, snap, terminal, now, maxAttempts, choice);
      OtherKeepsReceiver(p, HandleFailure(p, w, snap, terminal, now, maxAttempts, choice), w);
    case _ =>
  }

  lemma AdvanceKeepsReceiver(p: Part, w: Id, choice: Choice, now: Time, maxAttempts: nat)
    requires ReceiverAnswered(p)
    ensures ReceiverAnswered(Advance(p, w, choice, now, maxAttempts))
  {
    hide Continue;
    if w in p.workers { ContinueKeepsReceiver(p, w, now, maxAttempts, choice); }
  }

  // ---------------------------------------------------------------- the system

  /** Every validation that was answered is still right: wallet rows never change. */
  ghost predicate AnswersValid(s: System) {
    forall t, r :: t in s.parts && Validated(r) in s.parts[t].replies ==> Validates(s.db, s.parts[t].row.order, r)
  }

  ghost predicate ReceiversAnswered(s: System) {
    forall t :: t in s.parts ==> ReceiverAnswered(s.parts[t])
  }

  lemma ValidatesStays(db: L.Db, c: L.Command, now: Time, o: Order, r: Id)
    requires Validates(db, o, r)
    ensures Validates(L.After(db, c, now), o, r)
  {
    hide L.Exec;
    if L.Exec(db, c, now).Ok? {
      LP.WalletsKept(db, c, now, o.wallet);
      LP.WalletsKept(db, c, now, r);
    }
  }

  lemma ReplyKeepsReceiver(p: Part, r: Reply)
    requires ReceiverAnswered(p)
    ensures ReceiverAnswered(p.(replies := p.replies + {r}))
  {
  }

  lemma DeliveredValid(s: System, t: Id, call: Call, d: Delivery, now: Time)
    requires SystemInv(s) && AnswersValid(s) && ReceiversAnswered(s) && t in s.parts && call in s.parts[t].calls
    ensures AnswersValid(Delivered(s, t, call, d, now)) && ReceiversAnswered(Delivered(s, t, call, d, now))
  {
    hide L.Inv, L.Exec, Validates, HistoryOk, WorkersOk, LedgerOk, OutcomeOk, L.HoldOf, CommandOf, ReceiverAnswered;
    assert PartInv(ViewOf(s.db, t, s.parts[t]), s.parts[t]);
    assert CallOk(s.parts[t], call);
    var s' := Delivered(s, t, call, d, now);
    forall u, r | u in s'.parts && Validated(r) in s'.parts[u].replies
      ensures Validates(s'.db, s'.parts[u].row.order, r)
    {
      if !(call.ValidateCall? && u == t && r == d.receiver) && s'.db != s.db {
        ValidatesStays(s.db, CommandOf(t, call, d), now, s.parts[u].row.order, r);
      }
    }
    forall u | u in s'.parts ensures ReceiverAnswered(s'.parts[u]) {
      if u == t && s'.parts[u] != s.parts[u] {
        var r :| s'.parts[u] == s.parts[u].(replies := s.parts[u].replies + {r});
        ReplyKeepsReceiver(s.parts[u], r);
      }
    }
  }

  lemma StepValid(s: System, step: Step)
    requires SystemInv(s) && AnswersValid(s) && ReceiversAnswered(s)
    ensures AnswersValid(Do(s, step)) && ReceiversAnswered(Do(s, step))
  {
    hide SystemInv, L.After, Delivered, Advance, OrderOk, ShareTaken, BillOk, WithShares, Validates, ReceiverAnswered;
    match step
    case Public(c, now) =>
      forall t, r | t in s.parts && Validated(r) in s.parts[t].replies && !c.Settle?
        ensures Validates(L.After(s.db, c, now), s.parts[t].row.order, r)
      {
        ValidatesStays(s.db, c, now, s.parts[t].row.order, r);
      }
    case OpenBill(_, _, _, _, _) =>
    case Create(t, o) => NewReceiver(o);
    case Claim(t, w, now, leaseMs) =>
      if t in s.parts { SpawnReceiver(s.parts[t], w, now, leaseMs); }
    case Work(t, w, choice, now) =>
      if t in s.parts {
        AdvanceKeepsReceiver(s.parts[t], w, choice, now, s.maxAttempts);
        SagaSteps.AdvanceShape(s.parts[t], w, choice, now, s.maxAttempts);
      }
    case Deliver(t, call, d, now) =>
      if t in s.parts && call in s.parts[t].calls { DeliveredValid(s, t, call, d, now); }
  }

  lemma NewReceiver(o: Order)
    ensures ReceiverAnswered(NewPart(o))
  {
  }

  lemma SpawnReceiver(p: Part, w: Id, now: Time, leaseMs: nat)
    requires ReceiverAnswered(p)
    ensures ReceiverAnswered(Spawn(p, w, now, leaseMs))
    ensures Spawn(p, w, now, leaseMs).row.order == p.row.order && Spawn(p, w, now, leaseMs).replies == p.replies
  {
  }

  lemma {:induction false} RunValid(maxAttempts: nat, steps: seq<Step>)
    ensures AnswersValid(After(maxAttempts, steps)) && ReceiversAnswered(After(maxAttempts, steps))
  {
    hide Do, SystemInv, Validates;
    if |steps| > 0 {
      RunValid(maxAttempts, steps[..|steps| - 1]);
      RunKeeps(maxAttempts, steps[..|steps| - 1]);
      StepValid(After(maxAttempts, steps[..|steps| - 1]), steps[|steps| - 1]);
    }
  }

  // ------------------------------------------------------------------ theorems

  /** In every run: the stored receiver is a wallet of the target currency, other than the sender's. */
  lemma ReceiverIsValid(maxAttempts: nat, steps: seq<Step>, t: Id)
    requires t in After(maxAttempts, steps).parts && After(maxAttempts, steps).parts[t].row.receiver.Some?
    ensures var s := After(maxAttempts, steps);
      var o, r := s.parts[t].row.order, s.parts[t].row.receiver.value;
      && o.amount > 0 && o.destAmount > 0
      && o.wallet in s.db.wallets && s.db.wallets[o.wallet] == L.WalletRow(o.user, o.currency)
      && r in s.db.wallets && s.db.wallets[r].currency == o.destCurrency && r != o.wallet
  {
    hide Run;
    RunValid(maxAttempts, steps);
    var s := After(maxAttempts, steps);
    assert ReceiverAnswered(s.parts[t]);
    assert Validates(s.db, s.parts[t].row.order, s.parts[t].row.receiver.value);
  }

  /**
   * A settlement ordered by the saga succeeds, with fresh event ids, if and only if its transfer
   * has been settled already or its hold is still active for the ordered amount.
   */
  lemma SettleAcceptedIff(maxAttempts: nat, steps: seq<Step>, t: Id, call: Call, d: Delivery, now: Time)
    requires t in After(maxAttempts, steps).parts && call in After(maxAttempts, steps).parts[t].calls
      && call.SettleCall?
    requires B.FreshEvents(After(maxAttempts, steps).db, CommandOf(t, call, d))
    ensures var s := After(maxAttempts, steps);
      var o := s.parts[t].row.order;
      L.Exec(s.db, CommandOf(t, call, d), now).Ok? <==>
        t in s.db.receipts || L.HoldOf(s.db, o.wallet, t) == Some(W.Hold(o.amount, W.Active))
  {
    hide Run, L.Inv, L.Exec, L.HoldOf, B.Serve, B.View, B.FreshEvents, PartInv;
    var s := After(maxAttempts, steps);
    WriteAhead(maxAttempts, steps, t, call);
    ReceiverIsValid(maxAttempts, steps, t);
    RunKeeps(maxAttempts, steps);
    B.AcceptedIffServed(s.db, CommandOf(t, call, d), now);
    if t in s.db.receipts {
      ReceiptTerms(maxAttempts, steps, t);
    }
    ServedIff(s.db, CommandOf(t, call, d));
  }

  /** The receipt of a transfer has its stored terms, whatever its status. */
  lemma ReceiptTerms(maxAttempts: nat, steps: seq<Step>, t: Id)
    requires t in After(maxAttempts, steps).parts && t in After(maxAttempts, steps).db.receipts
    ensures var s := After(maxAttempts, steps);
      s.parts[t].row.receiver.Some?
      && s.db.receipts[t] == Terms(s.parts[t].row.order, s.parts[t].row.receiver.value)
  {
    hide Run, L.Inv, HistoryOk, WorkersOk, MessagesOk, OutcomeOk, L.HoldOf, Ever;
    RunKeeps(maxAttempts, steps);
    var s := After(maxAttempts, steps);
    assert PartInv(ViewOf(s.db, t, s.parts[t]), s.parts[t]);
  }

  lemma ServedIff(db: L.Db, c: L.Command)
    requires L.Inv(db) && c.Settle? && L.TermsPositive(c.terms) && L.TransferWallets(db, c.user, c.terms)
    requires c.terms.sender != c.terms.receiver
    requires c.transfer in db.receipts ==> db.receipts[c.transfer] == c.terms
    ensures B.Serve(B.View(db), c).Ok? <==>
      c.transfer in db.receipts || L.HoldOf(db, c.terms.sender, c.transfer) == Some(W.Hold(c.terms.amount, W.Active))
  {
    hide L.Inv, L.LoadStream, W.Rehydrate, B.View, B.Transferred;
    B.ViewAt(db, c.terms.sender);
    B.ViewAt(db, c.terms.receiver);
    LP.Replays(db, c.terms.sender);
  }
}
