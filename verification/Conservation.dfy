/** Money is neither made nor lost: balances against the clearing account, and totals per currency. */
module Conservation {
  import opened Base
  import opened LedgerTransactions
  import opened WalletAggregate
  import opened LedgerDb
  import opened LedgerInvariants
  import opened LedgerProperties

  // ----------------------------------------------------- sums over a finite set

  ghost function SumOver(ids: set<Id>, f: Id -> int): int {
    if ids == {} then 0
    else
      var k :| k in ids;
      f(k) + SumOver(ids - {k}, f)
  }

  /** The sum does not depend on the order in which the set is taken apart. */
  lemma {:induction false} SumOverTake(ids: set<Id>, f: Id -> int, k: Id)
    requires k in ids
    ensures SumOver(ids, f) == f(k) + SumOver(ids - {k}, f)
    decreases |ids|
  {
    var j :| j in ids && SumOver(ids, f) == f(j) + SumOver(ids - {j}, f);
    if j != k {
      SumOverTake(ids - {j}, f, k);
      SumOverTake(ids - {k}, f, j);
      assert ids - {j} - {k} == ids - {k} - {j};
    }
  }

  lemma {:induction false} SumOverSame(ids: set<Id>, f: Id -> int, g: Id -> int)
    requires forall k :: k in ids ==> f(k) == g(k)
    ensures SumOver(ids, f) == SumOver(ids, g)
    decreases |ids|
  {
    if ids != {} {
      var k :| k in ids;
      SumOverTake(ids, f, k);
      SumOverTake(ids, g, k);
      SumOverSame(ids - {k}, f, g);
    }
  }

  lemma {:induction false} SumOverZero(ids: set<Id>, f: Id -> int)
    requires forall k :: k in ids ==> f(k) == 0
    ensures SumOver(ids, f) == 0
    decreases |ids|
  {
    if ids != {} {
      var k :| k in ids;
      SumOverTake(ids, f, k);
      SumOverZero(ids - {k}, f);
    }
  }

  lemma {:induction false} SumOverAdd(ids: set<Id>, f: Id -> int, g: Id -> int, h: Id -> int)
    requires forall k :: k in ids ==> h(k) == f(k) + g(k)
    ensures SumOver(ids, h) == SumOver(ids, f) + SumOver(ids, g)
    decreases |ids|
  {
    if ids != {} {
      var k :| k in ids;
      SumOverTake(ids, f, k);
      SumOverTake(ids, g, k);
      SumOverTake(ids, h, k);
      SumOverAdd(ids - {k}, f, g, h);
    }
  }

  /** Changing the summand at one key changes the sum by that difference. */
  lemma SumOverChange(ids: set<Id>, f: Id -> int, g: Id -> int, k: Id)
    requires forall j :: j in ids && j != k ==> f(j) == g(j)
    ensures SumOver(ids, g) == SumOver(ids, f) + if k in ids then g(k) - f(k) else 0
  {
    if k in ids {
      SumOverTake(ids, f, k);
      SumOverTake(ids, g, k);
      SumOverSame(ids - {k}, f, g);
    } else {
      SumOverSame(ids, f, g);
    }
  }

  // ------------------------------------------------------- one wallet's stream

  function BalanceOf(db: Db, id: Id): int {
    match Rehydrate(id, LoadStream(db.events, id))
    case Ok(w) => w.balance
    case Err(_) => 0
  }

  function ExternalPosted(p: Payload): int {
    match p
    case MoneyDeposited(tx) => NetTo(tx.postings, ExternalClearing)
    case WithdrawalCompleted(tx) => NetTo(tx.postings, ExternalClearing)
    case HoldConsumed(_, tx) => NetTo(tx.postings, ExternalClearing)
    case _ => 0
  }

  /** The sum of the `system:external` postings of a stream. */
  function ExternalIn(s: seq<StoredEvent>): int {
    if |s| == 0 then 0 else ExternalIn(s[..|s| - 1]) + ExternalPosted(s[|s| - 1].payload)
  }

  /** A canonical event moves the balance by the opposite of what it posts externally. */
  lemma ApplyConserves(w: Wallet, e: StoredEvent)
    requires Apply(w, e).Ok? && CanonicalPayload(w.id, e.payload)
    requires e.payload.WalletCreated? ==> w.balance == 0
    ensures Apply(w, e).value.balance == w.balance - ExternalPosted(e.payload)
  {
    hide PostingsTo, Total, HeldOver;
    match e.payload
    case MoneyDeposited(tx) =>
      MovementIsBalanced(w.id, tx.postings[0].amount);
    case WithdrawalCompleted(tx) =>
      MovementIsBalanced(w.id, tx.postings[0].amount);
    case HoldConsumed(_, tx) =>
      MovementIsBalanced(w.id, tx.postings[0].amount);
    case _ =>
  }

  lemma {:induction false} StreamConserves(id: Id, s: seq<StoredEvent>)
    requires Rehydrate(id, s).Ok?
    requires forall i :: 0 <= i < |s| ==> CanonicalPayload(id, s[i].payload)
    ensures Rehydrate(id, s).value.balance + ExternalIn(s) == 0
  {
    hide Apply, CanonicalPayload, ExternalPosted;
    if |s| > 0 {
      var front := s[..|s| - 1];
      StreamConserves(id, front);
      ReplaySolvent(id, front);
      var w := Rehydrate(id, front).value;
      if s[|s| - 1].payload.WalletCreated? {
        CreatedComesFirst(w, s[|s| - 1]);
      }
      ApplyConserves(w, s[|s| - 1]);
    }
  }

  lemma CreatedComesFirst(w: Wallet, e: StoredEvent)
    requires Apply(w, e).Ok? && e.payload.WalletCreated?
    ensures w.version == 0
  {
  }

  lemma {:induction false} StreamIsCanonical(events: seq<StoredEvent>, id: Id)
    requires forall i :: 0 <= i < |events| ==> CanonicalPayload(events[i].streamId, events[i].payload)
    ensures forall i :: 0 <= i < |LoadStream(events, id)| ==> CanonicalPayload(id, LoadStream(events, id)[i].payload)
  {
    hide CanonicalPayload;
    if |events| > 0 {
      StreamIsCanonical(events[..|events| - 1], id);
    }
  }

  lemma WalletConserves(db: Db, id: Id)
    requires Inv(db) && id in db.wallets
    ensures BalanceOf(db, id) + ExternalIn(LoadStream(db.events, id)) == 0
  {
    hide LoadStream, Rehydrate, ExternalIn, CanonicalPayload;
    Replays(db, id);
    assert EventsCanonical(db);
    StreamIsCanonical(db.events, id);
    StreamConserves(id, LoadStream(db.events, id));
  }

  // ------------------------------------------------------------ per currency

  ghost function WalletsIn(db: Db, c: Currency): set<Id> {
    set id | id in db.wallets && db.wallets[id].currency == c
  }

  ghost function Balances(db: Db): Id -> int {
    (id: Id) => BalanceOf(db, id)
  }

  ghost function Externals(db: Db): Id -> int {
    (id: Id) => ExternalIn(LoadStream(db.events, id))
  }

  ghost function TotalBalance(db: Db, c: Currency): int {
    SumOver(WalletsIn(db, c), Balances(db))
  }

  ghost function TotalExternal(db: Db, c: Currency): int {
    SumOver(WalletsIn(db, c), Externals(db))
  }

  /** Conservation: in each currency the wallets and the clearing account cancel out. */
  lemma CurrencyConserves(db: Db, c: Currency)
    requires Inv(db)
    ensures TotalBalance(db, c) + TotalExternal(db, c) == 0
  {
    hide BalanceOf, ExternalIn, LoadStream, Inv;
    var ids := WalletsIn(db, c);
    var f, g := Balances(db), Externals(db);
    var h := (id: Id) => BalanceOf(db, id) + ExternalIn(LoadStream(db.events, id));
    SumOverAdd(ids, f, g, h);
    forall id | id in ids ensures h(id) == 0 {
      WalletConserves(db, id);
    }
    SumOverZero(ids, h);
  }

  // ----------------------------------------------------------- one settlement

  lemma AppendedBalance(db: Db, w: Wallet, p: Payload, eventId: Id, now: Time, id: Id)
    requires CommitEvent(db, w, p, eventId, now).Ok? && !p.WalletCreated?
    requires Rehydrate(w.id, LoadStream(db.events, w.id)) == Ok(w)
    requires CanonicalPayload(w.id, p)
    ensures BalanceOf(CommitEvent(db, w, p, eventId, now).value, id)
         == BalanceOf(db, id) - if id == w.id then ExternalPosted(p) else 0
  {
    hide CommitEvent, LoadStream, Rehydrate, Apply, CanonicalPayload, ExternalPosted;
    CommitEventStreams(db, w, p, eventId, now, id);
    if id == w.id {
      CommitEventEffect(db, w, p, eventId, now);
      RehydrateAppend(id, LoadStream(db.events, id), Stored(w, p, eventId, now));
      ApplyConserves(w, Stored(w, p, eventId, now));
    } else {
      assert LoadStream(db.events, id) + [] == LoadStream(db.events, id);
    }
  }

  /** A new settlement moves exactly the two balances its terms name. */
  lemma SettleBalances(db: Db, c: Command, now: Time, id: Id)
    requires Inv(db) && c.Settle? && c.transfer !in db.receipts && Exec(db, c, now).Ok?
    ensures BalanceOf(Exec(db, c, now).value, id)
         == BalanceOf(db, id)
            - (if id == c.terms.sender then c.terms.amount else 0)
            + (if id == c.terms.receiver then c.terms.destAmount else 0)
  {
    hide Exec, CommitEvent, LoadStream, Rehydrate, Inv, PostingsTo, Total;
    var ws, wr, debit, credit, db1, db2 := SettleUnfolds(db, c, now);
    MovementIsBalanced(c.terms.sender, -c.terms.amount);
    MovementIsBalanced(c.terms.receiver, c.terms.destAmount);
    CommitEventStreams(db, ws, debit, c.debitId, now, wr.id);
    assert LoadStream(db.events, wr.id) + [] == LoadStream(db.events, wr.id);
    AppendedBalance(db, ws, debit, c.debitId, now, id);
    AppendedBalance(db1, wr, credit, c.creditId, now, id);
  }

  lemma SettleKeepsWallets(db: Db, c: Command, now: Time)
    requires c.Settle? && Exec(db, c, now).Ok?
    ensures Exec(db, c, now).value.wallets == db.wallets
  {
    hide LoadStream, Rehydrate, LatestVersion, Apply, LoadAggregate, SettlePayloads;
  }

  /**
   * A new settlement takes `amount` out of the source currency's total and puts `destAmount`
   * into the destination currency's total; every other currency keeps its total.
   */
  lemma SettleTotals(db: Db, c: Command, now: Time, cur: Currency)
    requires Inv(db) && c.Settle? && c.transfer !in db.receipts && Exec(db, c, now).Ok?
    ensures TotalBalance(Exec(db, c, now).value, cur)
         == TotalBalance(db, cur)
            - (if cur == c.terms.currency then c.terms.amount else 0)
            + (if cur == c.terms.destCurrency then c.terms.destAmount else 0)
  {
    hide Exec, BalanceOf, Inv;
    var db' := Exec(db, c, now).value;
    SettleKeepsWallets(db, c, now);
    assert WalletsIn(db', cur) == WalletsIn(db, cur);
    var ids := WalletsIn(db, cur);
    var f, h := Balances(db), Balances(db');
    var g := (id: Id) => BalanceOf(db, id) - if id == c.terms.sender then c.terms.amount else 0;
    forall id: Id ensures h(id) == g(id) + if id == c.terms.receiver then c.terms.destAmount else 0 {
      SettleBalances(db, c, now, id);
    }
    SumOverChange(ids, f, g, c.terms.sender);
    SumOverChange(ids, g, h, c.terms.receiver);
    SettleWalletsMatch(db, c, now);
  }

  lemma SettleWalletsMatch(db: Db, c: Command, now: Time)
    requires Inv(db) && c.Settle? && c.transfer !in db.receipts && Exec(db, c, now).Ok?
    ensures TransferWallets(db, c.user, c.terms)
  {
    hide LoadStream, Rehydrate, LatestVersion, Apply, LoadAggregate, SettlePayloads, Inv;
  }

  /** A settlement within one currency at par leaves every currency's total unchanged. */
  lemma SameCurrencySettleConserves(db: Db, c: Command, now: Time, cur: Currency)
    requires Inv(db) && c.Settle? && Exec(db, c, now).Ok?
    requires c.terms.currency == c.terms.destCurrency && c.terms.amount == c.terms.destAmount
    ensures TotalBalance(Exec(db, c, now).value, cur) == TotalBalance(db, cur)
  {
    if c.transfer !in db.receipts {
      hide Exec, TotalBalance, Inv;
      SettleTotals(db, c, now, cur);
    }
  }
}
