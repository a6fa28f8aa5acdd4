/** From the transfers table to the saga: every created row is an order the saga may be given. */
module CreatedOrders {
  import opened Base
  import Saga
  import T = TransferCreation
  import S = TransferSystem
  import FxQuote

  /** The order of a stored transfer. */
  function OrderFor(row: T.Row): Saga.Order {
    var q := row.request;
    Saga.Order(q.sender, q.wallet, q.amount, q.currency, row.destAmount, q.destCurrency, q.share)
  }

  /** The terms that a share payment takes from its bill. */
  predicate ShareTerms(s: S.System, o: Saga.Order)
    requires o.share.Some?
  {
    && o.share.value in s.shares && s.shares[o.share.value].bill in s.bills
    && o.amount == s.shares[o.share.value].amount
    && o.currency == o.destCurrency == s.bills[s.shares[o.share.value].bill].currency
  }

  /**
   * Whatever calls created it, a row's order has the amounts the saga relies on: a plain transfer
   * is an acceptable order as it stands, and a share payment exactly when it has its share's terms.
   */
  lemma CreatedOrderOk(steps: seq<T.Step>, i: nat, s: S.System)
    requires i < |T.Run(steps).rows|
    ensures var o := OrderFor(T.Run(steps).rows[i]);
      if o.share.None? then S.OrderOk(s, o) else S.OrderOk(s, o) <==> ShareTerms(s, o)
  {
    hide T.Run, FxQuote.Quote;
    T.StoredAmounts(steps, i);
  }
}
