/** What the saga promises over whole runs: agreement with the ledger, and a fenced history. */
module SagaTheorems {
  import opened Base
  import opened TransferStatus
  import opened Saga
  import opened SagaInvariants
  import opened TransferSystem
  import SagaSteps
  import L = LedgerDb
  import LP = LedgerProperties

  function After(maxAttempts: nat, steps: seq<Step>): System {
    Run(Initial(maxAttempts), steps)
  }

  /** A failed transfer cannot have a receipt: its hold would have to be both released and consumed. */
  lemma FailedHasNoReceipt(s: System, t: Id)
    requires SystemInv(s) && t in s.parts && s.parts[t].row.status == Failed
    ensures t !in s.db.receipts
  {
    hide L.Inv, HistoryOk, WorkersOk, MessagesOk, L.HoldOf, Ever;
    var p := s.parts[t];
    assert PartInv(ViewOf(s.db, t, p), p);
    if t in s.db.receipts {
      LP.ReceiptMeansConsumed(s.db, t);
      assert false;
    }
  }

  /**
   * Cross-service agreement: whatever workers, crashes, lost answers and late or repeated ledger
   * calls a run contains, Completed means a receipt with exactly the stored wallets and amounts,
   * and Failed means no receipt.
   */
  lemma CrossServiceAgreement(maxAttempts: nat, steps: seq<Step>, t: Id)
    requires t in After(maxAttempts, steps).parts
    ensures var s := After(maxAttempts, steps);
      var row := s.parts[t].row;
      && (row.status == Completed ==>
            && row.receiver.Some? && t in s.db.receipts
            && (var receipt := s.db.receipts[t];
                && receipt.sender == row.order.wallet && receipt.receiver == row.receiver.value
                && receipt.amount == row.order.amount && receipt.currency == row.order.currency
                && receipt.destAmount == row.order.destAmount && receipt.destCurrency == row.order.destCurrency))
      && (row.status == Failed ==> t !in s.db.receipts)
  {
    hide L.Inv, HistoryOk, WorkersOk, MessagesOk, L.HoldOf, Ever, NoSettle, Run;
    var s := After(maxAttempts, steps);
    RunKeeps(maxAttempts, steps);
    assert PartInv(ViewOf(s.db, t, s.parts[t]), s.parts[t]);
    if s.parts[t].row.status == Failed {
      FailedHasNoReceipt(s, t);
    }
  }

  /** The ledger's side of the agreement: what money the transfer has moved. */
  lemma OutcomeIsTheMoney(maxAttempts: nat, steps: seq<Step>, t: Id)
    requires t in After(maxAttempts, steps).parts
    ensures var s := After(maxAttempts, steps);
      var row, debits, credits := s.parts[t].row, L.Debits(s.db.events, t), L.Credits(s.db.events, t);
      && (row.status == Completed ==>
            && row.receiver.Some?
            && |debits| == 1 && L.DebitMatches(debits[0], t, Terms(row.order, row.receiver.value))
            && |credits| == 1 && L.CreditMatches(credits[0], t, Terms(row.order, row.receiver.value)))
      && (row.status == Failed ==> debits == [] && credits == [])
  {
    hide L.CoreInv, PartsOk, ReceiptsKnown, Run, L.Debits, L.Credits, L.DebitMatches, L.CreditMatches;
    var s := After(maxAttempts, steps);
    CrossServiceAgreement(maxAttempts, steps, t);
    RunKeeps(maxAttempts, steps);
    assert L.SettledExactlyOnce(s.db, t);
  }

  // ------------------------------------------------------------- terminal rows

  lemma NoWriteWithoutLease(p: Part, w: Id, choice: Choice, now: Time, maxAttempts: nat)
    requires p.row.leaseOwner == None
    ensures Advance(p, w, choice, now, maxAttempts).row == p.row
    ensures Advance(p, w, choice, now, maxAttempts).completions == p.completions
  {
    hide Advance;
    SagaSteps.AdvanceShape(p, w, choice, now, maxAttempts);
  }

  lemma DeliveredKeepsRows(s: System, t: Id, call: Call, d: Delivery, now: Time, u: Id)
    requires t in s.parts && u in s.parts
    ensures u in Delivered(s, t, call, d, now).parts && Delivered(s, t, call, d, now).parts[u].row == s.parts[u].row
  {
    hide L.Exec, Validates, CommandOf;
  }

  lemma TerminalStays(s: System, step: Step, t: Id)
    requires SystemInv(s) && t in s.parts && Terminal(s.parts[t].row.status)
    ensures t in Do(s, step).parts && Do(s, step).parts[t].row == s.parts[t].row
  {
    hide L.Inv, HistoryOk, WorkersOk, MessagesOk, LedgerOk, L.HoldOf, Advance, L.After, L.Exec, OrderOk, ShareTaken,
      BillOk, WithShares, Delivered;
    assert PartInv(ViewOf(s.db, t, s.parts[t]), s.parts[t]);
    if step.Deliver? && step.transfer in s.parts {
      DeliveredKeepsRows(s, step.transfer, step.call, step.delivery, step.now, t);
    }
    if step.Work? {
      NoWriteWithoutLease(s.parts[t], step.worker, step.choice, step.now, s.maxAttempts);
    }
  }

  /**
   * An outcome is for ever: in every continuation the terminal row is untouched, a completed
   * transfer keeps its receipt, and a failed one never gets one.
   */
  lemma {:induction false} OutcomeIsForever(maxAttempts: nat, steps: seq<Step>, more: seq<Step>, t: Id)
    requires t in After(maxAttempts, steps).parts && Terminal(After(maxAttempts, steps).parts[t].row.status)
    ensures t in After(maxAttempts, steps + more).parts
    ensures After(maxAttempts, steps + more).parts[t].row == After(maxAttempts, steps).parts[t].row
    ensures t in After(maxAttempts, steps + more).db.receipts <==>
      After(maxAttempts, steps).parts[t].row.status == Completed
    decreases |more|
  {
    hide Do, SystemInv;
    if |more| == 0 {
      assert steps + more == steps;
    } else {
      var all := steps + more;
      assert all[..|all| - 1] == steps + more[..|more| - 1];
      OutcomeIsForever(maxAttempts, steps, more[..|more| - 1], t);
      RunKeeps(maxAttempts, all[..|all| - 1]);
      TerminalStays(After(maxAttempts, all[..|all| - 1]), more[|more| - 1], t);
    }
    CrossServiceAgreement(maxAttempts, steps + more, t);
  }

  // --------------------------------------------------------------- the history

  /**
   * The stored versions are numbered 1..n from a new Pending transfer to the current row, and
   * exactly one completion event exists if and only if the transfer is completed.
   */
  lemma StoredVersions(maxAttempts: nat, steps: seq<Step>, t: Id)
    requires t in After(maxAttempts, steps).parts
    ensures var p := After(maxAttempts, steps).parts[t];
      && |p.history| == p.row.version >= 1 && p.history[p.row.version - 1] == Strip(p.row)
      && p.history[0] == NewRow(p.row.order)
      && (forall i :: 0 <= i < |p.history| ==> p.history[i].version == i + 1)
      && (forall i :: 0 <= i < |p.history| && p.history[i].holdMayExist ==> p.history[i].receiver.Some?)
      && p.completions == (if p.row.status == Completed then 1 else 0)
  {
    hide L.Inv, WorkersOk, MessagesOk, LedgerOk, Run;
    var s := After(maxAttempts, steps);
    RunKeeps(maxAttempts, steps);
    assert PartInv(ViewOf(s.db, t, s.parts[t]), s.parts[t]);
  }

  /**
   * The fenced history: any two stored versions lie on a path of allowed moves; the receiver is
   * set at most once, the hold flag never reverts, and no version follows a terminal one.
   */
  lemma FencedHistory(maxAttempts: nat, steps: seq<Step>, t: Id, i: nat, j: nat)
    requires t in After(maxAttempts, steps).parts
    requires i < j < |After(maxAttempts, steps).parts[t].history|
    ensures var p := After(maxAttempts, steps).parts[t];
      var a, b := p.history[i], p.history[j];
      && a.order == b.order && a.version < b.version
      && !Terminal(a.status)
      && (j == i + 1 ==> a.status == b.status || CanMove(a.status, b.status))
      && Rank(a.status) <= Rank(b.status)
      && (a.receiver.Some? ==> b.receiver == a.receiver)
      && (a.holdMayExist ==> b.holdMayExist)
  {
    hide L.Inv, WorkersOk, MessagesOk, LedgerOk, Run;
    var s := After(maxAttempts, steps);
    RunKeeps(maxAttempts, steps);
    var p := s.parts[t];
    assert PartInv(ViewOf(s.db, t, p), p);
    HistoryGrows(p.history, i, j);
    assert Edge(p.history[i], p.history[i + 1]);
  }

  // ---------------------------------------------------------------- write-ahead

  /**
   * The order of effects behind the agreement: the ledger is asked for a hold only once the flag
   * is stored, for a settlement only once the hold exists, and it is asked for exactly the stored
   * order.
   */
  lemma WriteAhead(maxAttempts: nat, steps: seq<Step>, t: Id, call: Call)
    requires t in After(maxAttempts, steps).parts && call in After(maxAttempts, steps).parts[t].calls
    ensures var s := After(maxAttempts, steps);
      var p := s.parts[t];
      && call.order == p.row.order
      && (call.PlaceCall? ==> p.row.holdMayExist)
      && (call.SettleCall? ==>
            p.row.holdMayExist && p.row.receiver == Some(call.receiver) && L.HoldOf(s.db, call.order.wallet, t).Some?)
      && (call.ReleaseCall? ==> Rank(p.row.status) >= Rank(Compensating))
  {
    hide L.Inv, WorkersOk, OutcomeOk, Run, L.HoldOf;
    var s := After(maxAttempts, steps);
    RunKeeps(maxAttempts, steps);
    var p := s.parts[t];
    assert PartInv(ViewOf(s.db, t, p), p);
    assert CallOk(p, call);
    if call.SettleCall? {
      var i :| 0 <= i < |p.history| && p.history[i].status == Processing;
      assert RowOk(p.history[i]);
      HistoryGrows(p.history, i, |p.history| - 1);
    }
    if call.ReleaseCall? {
      var i :| 0 <= i < |p.history| && p.history[i].status == Compensating;
      HistoryGrows(p.history, i, |p.history| - 1);
    }
  }
}
