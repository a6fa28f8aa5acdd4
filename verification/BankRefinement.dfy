/**
 * What the ledger means: an ordinary bank. Accounts have a balance and a table of holds, and each
 * command is one update. The event-sourced ledger, with its replay, double entry, versions and
 * projections, refines it, command by command and over every interleaving of sessions.
 */
module BankRefinement {
  import opened Base
  import opened LedgerTransactions
  import opened WalletAggregate
  import opened LedgerDb
  import opened LedgerInvariants
  import opened LedgerProperties
  import Conservation
  import S = LedgerSessions
  import T = LedgerTheorems

  datatype Account = Account(owner: Id, currency: Currency, balance: int, holds: map<Id, Hold>)

  datatype Bank = Bank(accounts: map<Id, Account>, receipts: map<Id, Receipt>)

  // ------------------------------------------------------------- specification

  function ReservedIn(holds: map<Id, Hold>): Id -> int {
    (k: Id) => if k in holds then Reserved(holds[k]) else 0
  }

  /** The balance less all active holds. */
  ghost function Free(a: Account): int {
    a.balance - Conservation.SumOver(a.holds.Keys, ReservedIn(a.holds))
  }

  function WithStatus(a: Account, k: Id, status: HoldStatus): Account
    requires k in a.holds
  {
    a.(holds := a.holds[k := a.holds[k].(status := status)])
  }

  /** One operation on one account, or why it is refused. */
  ghost function Operate(a: Account, op: Op): Result<Account, LedgerError> {
    match op
    case DepositOp(amount, _) =>
      if amount <= 0 then Err(InvalidAmount) else Ok(a.(balance := a.balance + amount))
    case WithdrawOp(amount, _) =>
      if amount <= 0 then Err(InvalidAmount)
      else if Free(a) < amount then Err(InsufficientFunds)
      else Ok(a.(balance := a.balance - amount))
    case PlaceOp(k, amount) =>
      if amount <= 0 then Err(InvalidAmount)
      else if k in a.holds then (if a.holds[k].amount == amount then Ok(a) else Err(HoldConflict))
      else if Free(a) < amount then Err(InsufficientFunds)
      else Ok(a.(holds := a.holds[k := Hold(amount, Active)]))
    case ReleaseOp(k, allowMissing) =>
      if k !in a.holds then (if allowMissing then Ok(a) else Err(HoldNotFound))
      else (match a.holds[k].status
            case Active => Ok(WithStatus(a, k, Released))
            case Released => Ok(a)
            case Consumed => Err(HoldAlreadyConsumed))
    case ConsumeOp(k, _) =>
      if k !in a.holds then Err(HoldNotFound)
      else (match a.holds[k].status
            case Active => Ok(WithStatus(a, k, Consumed).(balance := a.balance - a.holds[k].amount))
            case Released => Err(HoldAlreadyReleased)
            case Consumed => Ok(a))
  }

  predicate Parties(b: Bank, user: Id, terms: Receipt) {
    && terms.sender in b.accounts && b.accounts[terms.sender].owner == user
    && b.accounts[terms.sender].currency == terms.currency
    && terms.receiver in b.accounts && b.accounts[terms.receiver].currency == terms.destCurrency
  }

  predicate Settleable(b: Bank, t: Id, user: Id, terms: Receipt) {
    && Parties(b, user, terms)
    && terms.sender != terms.receiver
    && t in b.accounts[terms.sender].holds && b.accounts[terms.sender].holds[t] == Hold(terms.amount, Active)
  }

  /** Why a settlement between these accounts is refused. */
  function NotSettleable(b: Bank, t: Id, user: Id, terms: Receipt): LedgerError
    requires !Settleable(b, t, user, terms)
  {
    if !Parties(b, user, terms) then WalletNotFound
    else if terms.sender == terms.receiver then SameWallet
    else
      var holds := b.accounts[terms.sender].holds;
      if t !in holds then HoldNotFound
      else if holds[t].amount != terms.amount then HoldAmountMismatch
      else if holds[t].status == Released then HoldAlreadyReleased
      else ConsumedWithoutReceipt
  }

  function Transferred(b: Bank, t: Id, terms: Receipt): Bank
    requires terms.sender in b.accounts && terms.receiver in b.accounts && t in b.accounts[terms.sender].holds
  {
    var from, to := b.accounts[terms.sender], b.accounts[terms.receiver];
    Bank(b.accounts[terms.sender := WithStatus(from, t, Consumed).(balance := from.balance - terms.amount)]
                   [terms.receiver := to.(balance := to.balance + terms.destAmount)],
         b.receipts[t := terms])
  }

  predicate HasAccount(b: Bank, owner: Id, currency: Currency) {
    exists id :: id in b.accounts && b.accounts[id].owner == owner && b.accounts[id].currency == currency
  }

  /** One command of the bank, or why it is refused. */
  ghost function Serve(b: Bank, c: Command): Result<Bank, LedgerError> {
    match c
    case Single(wallet, owner, op, _) =>
      if !PositiveAmount(op) then Err(InvalidAmount)
      else if wallet !in b.accounts || b.accounts[wallet].owner != owner then Err(WalletNotFound)
      else (match Operate(b.accounts[wallet], op)
            case Err(e) => Err(e)
            case Ok(a) => Ok(b.(accounts := b.accounts[wallet := a])))
    case Settle(t, user, terms, _, _) =>
      if !TermsPositive(terms) then Err(InvalidAmount)
      else if t in b.receipts then (if b.receipts[t] == terms then Ok(b) else Err(SettlementMismatch))
      else if Settleable(b, t, user, terms) then Ok(Transferred(b, t, terms))
      else Err(NotSettleable(b, t, user, terms))
    case Open(newId, owner, currency, _) =>
      if HasAccount(b, owner, currency) then Ok(b)
      else if newId in b.accounts then Err(UniqueViolation)
      else Ok(b.(accounts := b.accounts[newId := Account(owner, currency, 0, map[])]))
  }

  // -------------------------------------------------------------- the view

  function AccountFrom(row: WalletRow, w: Wallet): Account {
    Account(row.owner, row.currency, w.balance, w.holds)
  }

  function AccountOf(db: Db, id: Id): Account
    requires id in db.wallets
  {
    match Rehydrate(id, LoadStream(db.events, id))
    case Ok(w) => AccountFrom(db.wallets[id], w)
    case Err(_) => Account(db.wallets[id].owner, db.wallets[id].currency, 0, map[])
  }

  /** The bank that the tables stand for. */
  function View(db: Db): Bank {
    Bank(map id | id in db.wallets :: AccountOf(db, id), db.receipts)
  }

  // ----------------------------------------------------------- one aggregate

  function IdSet(order: seq<Id>): set<Id> {
    set k | k in order
  }

  lemma {:induction false} HeldIsSum(order: seq<Id>, holds: map<Id, Hold>)
    requires Distinct(order)
    ensures HeldOver(order, holds) == Conservation.SumOver(IdSet(order), ReservedIn(holds))
  {
    hide Conservation.SumOver, Reserved;
    if |order| == 0 {
      Conservation.SumOverZero(IdSet(order), ReservedIn(holds));
    } else {
      var front, k := order[..|order| - 1], order[|order| - 1];
      HeldIsSum(front, holds);
      Conservation.SumOverTake(IdSet(order), ReservedIn(holds), k);
      assert order == front + [k];
      assert IdSet(order) - {k} == IdSet(front);
    }
  }

  /** The insertion-ordered sum of the aggregate is the sum over the hold table. */
  lemma AvailableIsFree(row: WalletRow, w: Wallet)
    requires Solvent(w)
    ensures Free(AccountFrom(row, w)) == Available(w)
  {
    hide Conservation.SumOver, HeldOver, ReservedIn;
    HeldIsSum(w.order, w.holds);
    assert IdSet(w.order) == w.holds.Keys;
  }

  /** What the aggregate decides and replays is what the bank does to the account. */
  lemma MoneyDecisionMatches(row: WalletRow, w: Wallet, op: Op, eventId: Id, now: Time)
    requires Solvent(w) && PositiveAmount(op) && (op.DepositOp? || op.WithdrawOp?)
    ensures Decide(w, op).Err? ==> Operate(AccountFrom(row, w), op) == Err(Decide(w, op).error)
    ensures Decide(w, op).Ok? <==> Operate(AccountFrom(row, w), op).Ok?
    ensures Decide(w, op).Ok? ==>
      var p := Decide(w, op).value;
      && p.Some? && Apply(w, Stored(w, p.value, eventId, now)).Ok?
      && Operate(AccountFrom(row, w), op) == Ok(AccountFrom(row, Apply(w, Stored(w, p.value, eventId, now)).value))
  {
    hide Free, PostingsTo, Total, HeldOver;
    AvailableIsFree(row, w);
    var amount := if op.DepositOp? then op.amount else -op.amount;
    MovementIsRead(w, amount, RandomTx(op.tx));
    MovementIsBalanced(w.id, amount);
  }

  lemma HoldDecisionMatches(row: WalletRow, w: Wallet, op: Op, eventId: Id, now: Time)
    requires Solvent(w) && PositiveAmount(op) && (op.PlaceOp? || op.ReleaseOp?)
    ensures Decide(w, op).Err? ==> Operate(AccountFrom(row, w), op) == Err(Decide(w, op).error)
    ensures Decide(w, op).Ok? <==> Operate(AccountFrom(row, w), op).Ok?
    ensures Decide(w, op) == Ok(None) ==> Operate(AccountFrom(row, w), op) == Ok(AccountFrom(row, w))
    ensures Decide(w, op).Ok? && Decide(w, op).value.Some? ==>
      var e := Stored(w, Decide(w, op).value.value, eventId, now);
      && Apply(w, e).Ok?
      && Operate(AccountFrom(row, w), op) == Ok(AccountFrom(row, Apply(w, e).value))
  {
    hide Free, PostingsTo, Total, HeldOver;
    AvailableIsFree(row, w);
  }

  /** Consuming an active hold, with either kind of transaction id. */
  lemma ConsumeMatches(row: WalletRow, w: Wallet, k: Id, tx: TxId, eventId: Id, now: Time)
    requires Solvent(w) && k in w.holds && w.holds[k].status == Active
    ensures var debit := Transaction(tx, WalletMovement(w.id, -w.holds[k].amount));
      var e := Stored(w, HoldConsumed(k, debit), eventId, now);
      var a := AccountFrom(row, w);
      && ConsumeHold(w, k, tx) == Ok(Some(e.payload))
      && Apply(w, e).Ok?
      && AccountFrom(row, Apply(w, e).value) == WithStatus(a, k, Consumed).(balance := a.balance - w.holds[k].amount)
  {
    hide PostingsTo, Total, HeldOver;
    MovementIsRead(w, -w.holds[k].amount, tx);
    MovementIsBalanced(w.id, -w.holds[k].amount);
  }

  lemma DepositMatches(row: WalletRow, w: Wallet, amount: int, tx: TxId, eventId: Id, now: Time)
    requires Solvent(w) && amount > 0
    ensures var e := Stored(w, MoneyDeposited(Transaction(tx, WalletMovement(w.id, amount))), eventId, now);
      && Deposit(w, amount, tx) == Ok(e.payload)
      && Apply(w, e).Ok?
      && AccountFrom(row, Apply(w, e).value) == AccountFrom(row, w).(balance := w.balance + amount)
  {
    hide PostingsTo, Total, HeldOver;
    MovementIsRead(w, amount, tx);
    MovementIsBalanced(w.id, amount);
  }

  lemma DecisionMatches(row: WalletRow, w: Wallet, op: Op, eventId: Id, now: Time)
    requires Solvent(w)
    ensures PositiveAmount(op) && Decide(w, op).Ok? <==> Operate(AccountFrom(row, w), op).Ok?
    ensures PositiveAmount(op) && Decide(w, op).Err? ==> Operate(AccountFrom(row, w), op) == Err(Decide(w, op).error)
    ensures PositiveAmount(op) && Decide(w, op) == Ok(None) ==>
      Operate(AccountFrom(row, w), op) == Ok(AccountFrom(row, w))
    ensures PositiveAmount(op) && Decide(w, op).Ok? && Decide(w, op).value.Some? ==>
      var e := Stored(w, Decide(w, op).value.value, eventId, now);
      && Apply(w, e).Ok?
      && Operate(AccountFrom(row, w), op) == Ok(AccountFrom(row, Apply(w, e).value))
  {
    hide Apply, Free, Deposit, Withdraw, PlaceHold, ReleaseHold, Solvent;
    if PositiveAmount(op) {
      match op
      case DepositOp(_, _) => MoneyDecisionMatches(row, w, op, eventId, now);
      case WithdrawOp(_, _) => MoneyDecisionMatches(row, w, op, eventId, now);
      case PlaceOp(_, _) => HoldDecisionMatches(row, w, op, eventId, now);
      case ReleaseOp(_, _) => HoldDecisionMatches(row, w, op, eventId, now);
      case ConsumeOp(k, tx) =>
        if k in w.holds && w.holds[k].status == Active { ConsumeMatches(row, w, k, RandomTx(tx), eventId, now); }
    }
  }

  // --------------------------------------------------------------- one append

  /** On the current aggregate with a fresh event id, the append's guards all pass. */
  lemma CommitSucceeds(db: Db, w: Wallet, p: Payload, eventId: Id, now: Time)
    requires w.id in db.wallets && Rehydrate(w.id, LoadStream(db.events, w.id)) == Ok(w)
    requires !EventIdUsed(db.events, eventId) && eventId !in db.outbox
    requires Apply(w, Stored(w, p, eventId, now)).Ok?
    ensures CommitEvent(db, w, p, eventId, now).Ok?
  {
    hide LoadStream, Rehydrate, Apply, LatestVersion, EventIdUsed;
    LatestIsVersion(db.events, w.id);
  }

  /** An append on the current aggregate changes one account of the view. */
  lemma CommitView(db: Db, w: Wallet, p: Payload, eventId: Id, now: Time)
    requires w.id in db.wallets && Rehydrate(w.id, LoadStream(db.events, w.id)) == Ok(w)
    requires CommitEvent(db, w, p, eventId, now).Ok?
    ensures Apply(w, Stored(w, p, eventId, now)).Ok?
    ensures var w' := Apply(w, Stored(w, p, eventId, now)).value;
      View(CommitEvent(db, w, p, eventId, now).value)
      == View(db).(accounts := View(db).accounts[w.id := AccountFrom(db.wallets[w.id], w')])
  {
    hide LoadStream, Rehydrate, Apply, CommitEvent;
    CommitEventEffect(db, w, p, eventId, now);
    var db' := CommitEvent(db, w, p, eventId, now).value;
    var w' := Apply(w, Stored(w, p, eventId, now)).value;
    forall id | id in db.wallets
      ensures AccountOf(db', id) == if id == w.id then AccountFrom(db.wallets[id], w') else AccountOf(db, id)
    {
      CommitEventStreams(db, w, p, eventId, now, id);
      if id == w.id {
        RehydrateAppend(id, LoadStream(db.events, id), Stored(w, p, eventId, now));
      } else {
        assert LoadStream(db.events, id) + [] == LoadStream(db.events, id);
      }
    }
    assert View(db').accounts == View(db).accounts[w.id := AccountFrom(db.wallets[w.id], w')];
  }

  // ------------------------------------------------------------- single commands

  lemma SingleRefines(db: Db, c: Command, now: Time)
    requires Inv(db) && c.Single? && Exec(db, c, now).Ok?
    ensures Serve(View(db), c) == Ok(View(Exec(db, c, now).value))
  {
    hide Exec, CommitEvent, LoadStream, Rehydrate, Apply, Decide, Inv, Operate, View, Solvent, PositiveAmount;
    SingleShape(db, c, now);
    Replays(db, c.wallet);
    var w := Rehydrate(c.wallet, LoadStream(db.events, c.wallet)).value;
    ReplaySolvent(c.wallet, LoadStream(db.events, c.wallet));
    ViewAt(db, c.wallet);
    DecisionMatches(db.wallets[c.wallet], w, c.op, c.eventId, now);
    var b := View(db);
    if Decide(w, c.op) == Ok(None) {
      assert b.accounts[c.wallet := b.accounts[c.wallet]] == b.accounts;
    } else {
      CommitView(db, w, Decide(w, c.op).value.value, c.eventId, now);
    }
  }

  lemma ViewAt(db: Db, id: Id)
    ensures id in View(db).accounts <==> id in db.wallets
    ensures id in db.wallets ==>
      && View(db).accounts[id].owner == db.wallets[id].owner
      && View(db).accounts[id].currency == db.wallets[id].currency
      && (Rehydrate(id, LoadStream(db.events, id)).Ok? ==>
            View(db).accounts[id] == AccountFrom(db.wallets[id], Rehydrate(id, LoadStream(db.events, id)).value))
    ensures View(db).receipts == db.receipts
  {
  }

  /** How an accepted money or hold command went. */
  lemma SingleShape(db: Db, c: Command, now: Time)
    requires Inv(db) && c.Single? && Exec(db, c, now).Ok?
    ensures c.wallet in db.wallets && db.wallets[c.wallet].owner == c.owner && PositiveAmount(c.op)
    ensures var r := Rehydrate(c.wallet, LoadStream(db.events, c.wallet));
      && r.Ok? && r.value.id == c.wallet && Decide(r.value, c.op).Ok?
      && (Decide(r.value, c.op).value.None? ==> Exec(db, c, now) == Ok(db))
      && (Decide(r.value, c.op).value.Some? ==>
            Exec(db, c, now) == CommitEvent(db, r.value, Decide(r.value, c.op).value.value, c.eventId, now))
  {
    hide CommitEvent, LoadStream, Rehydrate, Decide, Inv, PositiveAmount;
    Replays(db, c.wallet);
    ReplaySolvent(c.wallet, LoadStream(db.events, c.wallet));
  }

  predicate FreshEvents(db: Db, c: Command) {
    match c
    case Single(_, _, _, eventId) => !EventIdUsed(db.events, eventId)
    case Settle(_, _, _, debitId, creditId) =>
      !EventIdUsed(db.events, debitId) && !EventIdUsed(db.events, creditId) && debitId != creditId
    case Open(_, _, _, eventId) => !EventIdUsed(db.events, eventId)
  }

  lemma FreshInOutbox(db: Db, eventId: Id)
    requires Inv(db) && !EventIdUsed(db.events, eventId)
    ensures eventId !in db.outbox
  {
    assert OutboxMirrorsEvents(db);
  }

  lemma SingleServes(db: Db, c: Command, now: Time)
    requires Inv(db) && c.Single? && FreshEvents(db, c) && Serve(View(db), c).Ok?
    ensures Exec(db, c, now).Ok?
  {
    hide CommitEvent, LoadStream, Rehydrate, Apply, Decide, Inv, Operate, View, Solvent, PositiveAmount, EventIdUsed;
    ViewAt(db, c.wallet);
    Replays(db, c.wallet);
    assert WalletConsistent(db, c.wallet) by { InvIsCore(db); }
    var w := Rehydrate(c.wallet, LoadStream(db.events, c.wallet)).value;
    ReplaySolvent(c.wallet, LoadStream(db.events, c.wallet));
    DecisionMatches(db.wallets[c.wallet], w, c.op, c.eventId, now);
    if Decide(w, c.op).value.Some? {
      FreshInOutbox(db, c.eventId);
      CommitSucceeds(db, w, Decide(w, c.op).value.value, c.eventId, now);
    }
  }

  // --------------------------------------------------------------- settlements

  lemma SettleRefines(db: Db, c: Command, now: Time)
    requires Inv(db) && c.Settle? && Exec(db, c, now).Ok?
    ensures Serve(View(db), c) == Ok(View(Exec(db, c, now).value))
  {
    hide CommitEvent, LoadStream, Rehydrate, Apply, Inv, View, Solvent, SettleAttempt;
    ViewAt(db, c.terms.sender);
    if c.transfer !in db.receipts {
      NewSettleRefines(db, c, now);
    }
  }

  lemma NewSettleRefines(db: Db, c: Command, now: Time)
    requires Inv(db) && c.Settle? && c.transfer !in db.receipts && Exec(db, c, now).Ok?
    ensures TermsPositive(c.terms) && Settleable(View(db), c.transfer, c.user, c.terms)
    ensures View(Exec(db, c, now).value) == Transferred(View(db), c.transfer, c.terms)
  {
    hide CommitEvent, LoadStream, Rehydrate, Apply, Inv, View, Solvent, Exec;
    var ws, wr, debit, credit, db1, db2 := SettleUnfolds(db, c, now);
    ViewAt(db, c.terms.sender);
    ViewAt(db, c.terms.receiver);
    Replays(db, ws.id);
    Replays(db, wr.id);
    ConsumeMatches(db.wallets[ws.id], ws, c.transfer, TransferTx(c.transfer), c.debitId, now);
    DepositMatches(db.wallets[wr.id], wr, c.terms.destAmount, TransferTx(c.transfer), c.creditId, now);
    CommitView(db, ws, debit, c.debitId, now);
    CommitEventEffect(db, ws, debit, c.debitId, now);
    CommitEventStreams(db, ws, debit, c.debitId, now, wr.id);
    assert LoadStream(db.events, wr.id) + [] == LoadStream(db.events, wr.id);
    CommitView(db1, wr, credit, c.creditId, now);
    CommitEventEffect(db1, wr, credit, c.creditId, now);
    WithReceipt(db2, c.transfer, c.terms);
  }

  lemma WithReceipt(db: Db, t: Id, terms: Receipt)
    ensures View(db.(receipts := db.receipts[t := terms])) == View(db).(receipts := db.receipts[t := terms])
  {
    hide LoadStream, Rehydrate;
    assert View(db.(receipts := db.receipts[t := terms])).accounts == View(db).accounts;
  }

  lemma SettleServes(db: Db, c: Command, now: Time)
    requires Inv(db) && c.Settle? && FreshEvents(db, c) && Serve(View(db), c).Ok?
    ensures Exec(db, c, now).Ok?
  {
    hide CommitEvent, LoadStream, Rehydrate, Apply, Inv, View, Solvent, EventIdUsed, Transferred;
    ViewAt(db, c.terms.sender);
    ViewAt(db, c.terms.receiver);
    if c.transfer !in db.receipts {
      Replays(db, c.terms.sender);
      Replays(db, c.terms.receiver);
      assert WalletConsistent(db, c.terms.sender) && WalletConsistent(db, c.terms.receiver) by { InvIsCore(db); }
      ReplaySolvent(c.terms.sender, LoadStream(db.events, c.terms.sender));
      ReplaySolvent(c.terms.receiver, LoadStream(db.events, c.terms.receiver));
      var ws := Rehydrate(c.terms.sender, LoadStream(db.events, c.terms.sender)).value;
      var wr := Rehydrate(c.terms.receiver, LoadStream(db.events, c.terms.receiver)).value;
      ConsumeMatches(db.wallets[ws.id], ws, c.transfer, TransferTx(c.transfer), c.debitId, now);
      DepositMatches(db.wallets[wr.id], wr, c.terms.destAmount, TransferTx(c.transfer), c.creditId, now);
      BothCommit(db, ws, wr, c, now);
    }
  }

  /** Both appends of a settlement pass their guards. */
  lemma BothCommit(db: Db, ws: Wallet, wr: Wallet, c: Command, now: Time)
    requires Inv(db) && c.Settle? && c.transfer !in db.receipts && FreshEvents(db, c) && ws.id != wr.id
    requires ws.id in db.wallets && Rehydrate(ws.id, LoadStream(db.events, ws.id)) == Ok(ws)
    requires wr.id in db.wallets && Rehydrate(wr.id, LoadStream(db.events, wr.id)) == Ok(wr)
    requires SettlePayloads(ws, wr, c.transfer, c.terms).Ok?
    requires var ps := SettlePayloads(ws, wr, c.transfer, c.terms).value;
      Apply(ws, Stored(ws, ps.0, c.debitId, now)).Ok? && Apply(wr, Stored(wr, ps.1, c.creditId, now)).Ok?
    ensures var ps := SettlePayloads(ws, wr, c.transfer, c.terms).value;
      CommitSettlement(db, ws, wr, ps.0, ps.1, c, now).Ok?
  {
    hide CommitEvent, LoadStream, Rehydrate, Apply, Inv, SettlePayloads, EventIdUsed;
    var ps := SettlePayloads(ws, wr, c.transfer, c.terms).value;
    FreshInOutbox(db, c.debitId);
    FreshInOutbox(db, c.creditId);
    CommitSucceeds(db, ws, ps.0, c.debitId, now);
    var db1 := CommitEvent(db, ws, ps.0, c.debitId, now).value;
    CommitEventEffect(db, ws, ps.0, c.debitId, now);
    StillFresh(db, ws, ps.0, c.debitId, now, c.creditId);
    CommitEventStreams(db, ws, ps.0, c.debitId, now, wr.id);
    assert LoadStream(db.events, wr.id) + [] == LoadStream(db.events, wr.id);
    CommitSucceeds(db1, wr, ps.1, c.creditId, now);
    CommitEventEffect(db1, wr, ps.1, c.creditId, now);
  }

  lemma StillFresh(db: Db, w: Wallet, p: Payload, eventId: Id, now: Time, other: Id)
    requires CommitEvent(db, w, p, eventId, now).Ok? && other != eventId
    requires !EventIdUsed(db.events, other) && other !in db.outbox
    ensures var db' := CommitEvent(db, w, p, eventId, now).value;
      !EventIdUsed(db'.events, other) && other !in db'.outbox
  {
    hide Apply, LatestVersion;
  }

  // ------------------------------------------------------------------- opening

  lemma HasAccountIff(db: Db, owner: Id, currency: Currency)
    ensures HasAccount(View(db), owner, currency) <==> HasWallet(db, owner, currency)
  {
    hide LoadStream, Rehydrate;
    if HasWallet(db, owner, currency) {
      var id :| id in db.wallets && db.wallets[id] == WalletRow(owner, currency);
      assert id in View(db).accounts;
    }
    if HasAccount(View(db), owner, currency) {
      var id :| id in View(db).accounts && View(db).accounts[id].owner == owner
        && View(db).accounts[id].currency == currency;
      assert db.wallets[id] == WalletRow(owner, currency);
    }
  }

  lemma CreatedAccount(id: Id, row: WalletRow, eventId: Id, now: Time)
    ensures var r := Apply(Empty(id), Stored(Empty(id), WalletCreated(row.owner, row.currency), eventId, now));
      r.Ok? && AccountFrom(row, r.value) == Account(row.owner, row.currency, 0, map[])
  {
  }

  lemma OpenedView(db: Db, id: Id, row: WalletRow)
    requires Inv(db) && id !in db.wallets
    ensures var db0, a := db.(wallets := db.wallets[id := row]), Account(row.owner, row.currency, 0, map[]);
      && LoadStream(db0.events, id) == [] && Rehydrate(id, []) == Ok(Empty(id))
      && View(db0).(accounts := View(db0).accounts[id := a]) == View(db).(accounts := View(db).accounts[id := a])
  {
    hide LoadStream, Apply, Inv, CanonicalPayload;
    assert EventsCanonical(db) by { InvIsCore(db); }
    StreamOfUnknown(db.events, id);
    var db0, a := db.(wallets := db.wallets[id := row]), Account(row.owner, row.currency, 0, map[]);
    assert View(db0).accounts[id := a] == View(db).accounts[id := a];
  }

  lemma OpenRefines(db: Db, c: Command, now: Time)
    requires Inv(db) && c.Open? && Exec(db, c, now).Ok?
    ensures Serve(View(db), c) == Ok(View(Exec(db, c, now).value))
  {
    hide CommitEvent, LoadStream, Apply, Inv, View, HasWallet, HasAccount;
    HasAccountIff(db, c.owner, c.currency);
    ViewAt(db, c.newId);
    if !HasWallet(db, c.owner, c.currency) {
      var row := WalletRow(c.owner, c.currency);
      OpenedView(db, c.newId, row);
      CreatedAccount(c.newId, row, c.eventId, now);
      CommitView(db.(wallets := db.wallets[c.newId := row]), Empty(c.newId), WalletCreated(c.owner, c.currency),
        c.eventId, now);
    }
  }

  lemma OpenServes(db: Db, c: Command, now: Time)
    requires Inv(db) && c.Open? && FreshEvents(db, c) && Serve(View(db), c).Ok?
    ensures Exec(db, c, now).Ok?
  {
    hide CommitEvent, LoadStream, Apply, Inv, View, HasWallet, HasAccount, EventIdUsed;
    HasAccountIff(db, c.owner, c.currency);
    ViewAt(db, c.newId);
    if !HasWallet(db, c.owner, c.currency) {
      var row := WalletRow(c.owner, c.currency);
      OpenedView(db, c.newId, row);
      CreatedAccount(c.newId, row, c.eventId, now);
      FreshInOutbox(db, c.eventId);
      CommitSucceeds(db.(wallets := db.wallets[c.newId := row]), Empty(c.newId), WalletCreated(c.owner, c.currency),
        c.eventId, now);
    }
  }

  // ------------------------------------------------------------------- theorems

  /** An accepted command does to the tables what the bank's command does to the accounts. */
  lemma CommandRefines(db: Db, c: Command, now: Time)
    requires Inv(db) && Exec(db, c, now).Ok?
    ensures Serve(View(db), c) == Ok(View(Exec(db, c, now).value))
  {
    hide Exec, Serve, View, Inv;
    match c
    case Single(_, _, _, _) => SingleRefines(db, c, now);
    case Settle(_, _, _, _, _) => SettleRefines(db, c, now);
    case Open(_, _, _, _) => OpenRefines(db, c, now);
  }

  /** And it is accepted whenever the bank accepts it: with fresh event ids, exactly then. */
  lemma AcceptedIffServed(db: Db, c: Command, now: Time)
    requires Inv(db) && FreshEvents(db, c)
    ensures Exec(db, c, now).Ok? <==> Serve(View(db), c).Ok?
  {
    hide Exec, Serve, View, Inv, FreshEvents;
    if Exec(db, c, now).Ok? { CommandRefines(db, c, now); }
    if Serve(View(db), c).Ok? {
      match c
      case Single(_, _, _, _) => SingleServes(db, c, now);
      case Settle(_, _, _, _, _) => SettleServes(db, c, now);
      case Open(_, _, _, _) => OpenServes(db, c, now);
    }
  }

  /** The bank after a list of commands; a refused one changes nothing. */
  ghost function BankAfter(log: seq<S.LogEntry>): Bank {
    if |log| == 0 then Bank(map[], map[])
    else
      var b := BankAfter(log[..|log| - 1]);
      match Serve(b, log[|log| - 1].command)
      case Ok(b') => b'
      case Err(_) => b
  }

  lemma {:induction false} SerialIsABank(log: seq<S.LogEntry>)
    requires S.LogEffective(log)
    ensures Inv(S.Serial(log)) && View(S.Serial(log)) == BankAfter(log)
  {
    hide Exec, Serve, View, Inv;
    if |log| == 0 {
      EmptyInv();
      EmptyBank();
    } else {
      var front, last := log[..|log| - 1], log[|log| - 1];
      forall i | 0 <= i < |front| ensures Exec(S.Serial(front[..i]), front[i].command, front[i].at).Ok? {
        assert front[..i] == log[..i];
      }
      SerialIsABank(front);
      CommandRefines(S.Serial(front), last.command, last.at);
      AfterKeepsInv(S.Serial(front), last.command, last.at);
    }
  }

  lemma EmptyBank()
    ensures View(EMPTY_DB) == Bank(map[], map[])
  {
  }

  /**
   * Over any interleaving of sessions, what the ledger's tables stand for is the simple bank that
   * served the committed commands one at a time.
   */
  lemma RunIsABank(steps: seq<S.Step>)
    ensures View(T.DbAfter(steps)) == BankAfter(S.Run(S.INITIAL, steps).log)
  {
    hide View, S.Run, S.Serial, S.LogEffective, Inv;
    S.RunKeepsLedger(steps);
    SerialIsABank(S.Run(S.INITIAL, steps).log);
  }
}
