/** What a transfer's settlement does to the money in each currency. */
module TransferMoney {
  import opened Base
  import opened Saga
  import opened TransferSystem
  import opened SagaTheorems
  import SplitBills
  import Conservation
  import FxQuote
  import L = LedgerDb
  import LP = LedgerProperties

  /**
   * Whenever a settlement of the saga takes effect, the wallets of each currency lose what the
   * order takes and gain what its quote gives; for an order within one currency that is nothing.
   */
  lemma SettlementTotals(maxAttempts: nat, steps: seq<Step>, t: Id, call: Call, d: Delivery, now: Time, cur: Currency)
    requires t in After(maxAttempts, steps).parts && call in After(maxAttempts, steps).parts[t].calls
      && call.SettleCall?
    ensures var s := After(maxAttempts, steps);
      var s' := Do(s, Deliver(t, call, d, now));
      var o := s.parts[t].row.order;
      && FxQuote.Quote(o.amount, o.currency, o.destCurrency) == Ok(o.destAmount)
      && (t in s'.db.receipts && t !in s.db.receipts ==>
            Conservation.TotalBalance(s'.db, cur)
            == Conservation.TotalBalance(s.db, cur)
               - (if cur == o.currency then o.amount else 0) + (if cur == o.destCurrency then o.destAmount else 0))
      && (t !in s'.db.receipts || t in s.db.receipts ==> s'.db == s.db)
      && (o.currency == o.destCurrency ==>
            Conservation.TotalBalance(s'.db, cur) == Conservation.TotalBalance(s.db, cur))
  {
    hide Run, PartsOk, L.Exec, Conservation.TotalBalance, FxQuote.Quote, L.Inv, SplitBills.BillsSound;
    var s := After(maxAttempts, steps);
    var o := s.parts[t].row.order;
    SplitBills.RunKeepsPayments(maxAttempts, steps);
    WriteAhead(maxAttempts, steps, t, call);
    assert OrderOk(s, o);
    var c := CommandOf(t, call, d);
    if L.Exec(s.db, c, now).Ok? {
      LP.SettleAnswers(s.db, c, now);
      LP.CommandReceipts(s.db, c, now, t);
      if t !in s.db.receipts {
        Conservation.SettleTotals(s.db, c, now, cur);
      } else {
        SettledAgain(s.db, c, now);
      }
    }
    if o.currency == o.destCurrency {
      FxQuote.QuoteIsNearest(o.amount, o.currency, o.destCurrency);
      FxQuote.QuoteSameCurrency(o.amount, o.currency);
    }
  }

  /** A settlement that finds its receipt changes nothing. */
  lemma SettledAgain(db: L.Db, c: L.Command, now: Time)
    requires c.Settle? && c.transfer in db.receipts && L.Exec(db, c, now).Ok?
    ensures L.Exec(db, c, now) == Ok(db)
  {
  }
}
