/** Every ledger command keeps the ledger's invariants. */
module LedgerInvariants {
  import opened Base
  import opened LedgerTransactions
  import opened WalletAggregate
  import opened LedgerDb

  // ---------------------------------------------------- appending one event

  lemma LoadStreamAppend(events: seq<StoredEvent>, e: StoredEvent, id: Id)
    ensures LoadStream(events + [e], id) == LoadStream(events, id) + if e.streamId == id then [e] else []
  {
    assert (events + [e])[..|events|] == events;
  }

  lemma DebitsAppend(events: seq<StoredEvent>, e: StoredEvent, t: Id)
    ensures Debits(events + [e], t) == Debits(events, t) + if IsDebit(e, t) then [e] else []
    ensures Credits(events + [e], t) == Credits(events, t) + if IsCredit(e, t) then [e] else []
  {
    assert (events + [e])[..|events|] == events;
  }

  lemma RehydrateAppend(id: Id, s: seq<StoredEvent>, e: StoredEvent)
    requires Rehydrate(id, s).Ok?
    ensures Rehydrate(id, s + [e]) == Apply(Rehydrate(id, s).value, e)
  {
    assert (s + [e])[..|s|] == s;
  }

  /** In a consistent stream the latest stored version is the aggregate's version. */
  lemma LatestIsVersion(events: seq<StoredEvent>, id: Id)
    requires Rehydrate(id, LoadStream(events, id)).Ok?
    ensures LatestVersion(events, id) == Rehydrate(id, LoadStream(events, id)).value.version == |LoadStream(events, id)|
  {
    ReplaySolvent(id, LoadStream(events, id));
  }

  /** What a successful append changes. */
  lemma CommitEventEffect(db: Db, w: Wallet, p: Payload, eventId: Id, now: Time)
    requires CommitEvent(db, w, p, eventId, now).Ok?
    ensures var db' := CommitEvent(db, w, p, eventId, now).value;
      && db'.events == db.events + [Stored(w, p, eventId, now)]
      && db'.wallets == db.wallets && db'.receipts == db.receipts
      && Apply(w, Stored(w, p, eventId, now)).Ok?
      && db'.projections == db.projections[w.id := ProjectionOf(Apply(w, Stored(w, p, eventId, now)).value)]
  {
  }

  /** The streams after a successful append: one grew by one event, the others are untouched. */
  lemma CommitEventStreams(db: Db, w: Wallet, p: Payload, eventId: Id, now: Time, id: Id)
    requires CommitEvent(db, w, p, eventId, now).Ok?
    ensures LoadStream(CommitEvent(db, w, p, eventId, now).value.events, id)
         == LoadStream(db.events, id) + if id == w.id then [Stored(w, p, eventId, now)] else []
  {
    LoadStreamAppend(db.events, Stored(w, p, eventId, now), id);
  }

  /** An append keeps every stream consistent when it was decided on the current aggregate. */
  lemma CommitKeepsStreams(db: Db, w: Wallet, p: Payload, eventId: Id, now: Time)
    requires forall id :: id in db.wallets && id != w.id ==> WalletConsistent(db, id)
    requires Rehydrate(w.id, LoadStream(db.events, w.id)) == Ok(w)
    requires CommitEvent(db, w, p, eventId, now).Ok?
    requires var w' := Apply(w, Stored(w, p, eventId, now)).value;
      w'.owner == Some(db.wallets[w.id].owner) && w'.currency == Some(db.wallets[w.id].currency)
    ensures StreamsConsistent(CommitEvent(db, w, p, eventId, now).value)
  {
    var db' := CommitEvent(db, w, p, eventId, now).value;
    var e := Stored(w, p, eventId, now);
    forall id | id in db'.wallets ensures WalletConsistent(db', id) {
      CommitEventStreams(db, w, p, eventId, now, id);
      if id == w.id {
        RehydrateAppend(id, LoadStream(db.events, id), e);
      } else {
        assert WalletConsistent(db, id);
        assert LoadStream(db'.events, id) == LoadStream(db.events, id);
      }
    }
  }

  lemma CommitKeepsTables(db: Db, w: Wallet, p: Payload, eventId: Id, now: Time)
    requires EventsCanonical(db) && EventIdsUnique(db) && OutboxMirrorsEvents(db)
    requires CommitEvent(db, w, p, eventId, now).Ok?
    requires CanonicalPayload(w.id, p)
    ensures var db' := CommitEvent(db, w, p, eventId, now).value;
      EventsCanonical(db') && EventIdsUnique(db') && OutboxMirrorsEvents(db')
  {
    hide Apply, LoadStream, LatestVersion, CanonicalPayload, ProjectionOf;
    var db' := CommitEvent(db, w, p, eventId, now).value;
    var e := Stored(w, p, eventId, now);
    assert db'.events == db.events + [e];
    assert forall i :: 0 <= i < |db.events| ==> db.events[i].eventId != eventId;
    forall k | k in db'.outbox ensures db'.outbox[k].event in db'.events && db'.outbox[k].event.eventId == k {
      if k == eventId {
        assert db'.events[|db.events|] == e;
      } else {
        assert db.outbox[k].event in db.events;
      }
    }
  }

  /** Any event but a second `WalletCreated` leaves a wallet's identity alone. */
  lemma ApplyKeepsIdentity(w: Wallet, e: StoredEvent)
    requires Apply(w, e).Ok? && !e.payload.WalletCreated?
    ensures Apply(w, e).value.owner == w.owner && Apply(w, e).value.currency == w.currency
  {
  }

  /** One ordinary event, decided on the current aggregate, keeps the core invariant. */
  lemma CommitKeepsCore(db: Db, w: Wallet, p: Payload, eventId: Id, now: Time)
    requires CoreInv(db) && w.id in db.wallets
    requires Rehydrate(w.id, LoadStream(db.events, w.id)) == Ok(w)
    requires CommitEvent(db, w, p, eventId, now).Ok?
    requires !p.WalletCreated? && CanonicalPayload(w.id, p)
    ensures CoreInv(CommitEvent(db, w, p, eventId, now).value)
  {
    hide Apply, CommitEvent, LoadStream, EventsCanonical, EventIdsUnique, OutboxMirrorsEvents, ProjectionOf, Rehydrate,
      CanonicalPayload;
    assert WalletConsistent(db, w.id);
    CommitEventEffect(db, w, p, eventId, now);
    ApplyKeepsIdentity(w, Stored(w, p, eventId, now));
    CommitKeepsStreams(db, w, p, eventId, now);
    CommitKeepsTables(db, w, p, eventId, now);
  }

  // ---------------------------------------------------- deciding the payload

  lemma DecideIsCanonical(w: Wallet, op: Op)
    requires Solvent(w) && PositiveAmount(op)
    requires Decide(w, op).Ok? && Decide(w, op).value.Some?
    ensures var p := Decide(w, op).value.value;
      && CanonicalPayload(w.id, p) && !p.WalletCreated?
      && (p.MoneyDeposited? || p.HoldConsumed? ==> p.tx.id.RandomTx?)
  {
  }

  /** The movement of a canonical transaction is what the replay reads from it. */
  lemma MovementIsRead(w: Wallet, amount: int, tx: TxId)
    ensures WalletAmount(w, Transaction(tx, WalletMovement(w.id, amount))) == Ok(amount)
  {
    MovementIsBalanced(w.id, amount);
  }

  lemma CreateIsRead(w: Wallet, amount: int, tx: TxId)
    requires CreateTransaction(w.id, amount, tx).Ok?
    ensures WalletAmount(w, CreateTransaction(w.id, amount, tx).value) == Ok(amount)
  {
    MovementIsRead(w, amount, tx);
  }

  lemma HoldDecisionApplies(w: Wallet, op: Op, eventId: Id, now: Time)
    requires Solvent(w) && PositiveAmount(op) && !op.DepositOp? && !op.WithdrawOp?
    requires Decide(w, op).Ok? && Decide(w, op).value.Some?
    ensures Apply(w, Stored(w, Decide(w, op).value.value, eventId, now)).Ok?
  {
    if op.ConsumeOp? {
      CreateIsRead(w, -w.holds[op.holdId].amount, RandomTx(op.tx));
    }
  }

  /** What a wallet decides, its replay accepts: no command rolls back on its own event. */
  lemma DecisionApplies(w: Wallet, op: Op, eventId: Id, now: Time)
    requires Solvent(w) && PositiveAmount(op)
    requires Decide(w, op).Ok? && Decide(w, op).value.Some?
    ensures Apply(w, Stored(w, Decide(w, op).value.value, eventId, now)).Ok?
  {
    match op
    case DepositOp(amount, tx) => CreateIsRead(w, amount, RandomTx(tx));
    case WithdrawOp(amount, tx) => CreateIsRead(w, -amount, RandomTx(tx));
    case _ => HoldDecisionApplies(w, op, eventId, now);
  }

  // --------------------------------------------------------- single commands

  lemma OtherReceiptsKept(db: Db, db': Db, e: StoredEvent)
    requires ReceiptsInv(db)
    requires db'.events == db.events + [e] && db'.receipts == db.receipts && db'.wallets == db.wallets
    requires e.payload.MoneyDeposited? || e.payload.HoldConsumed? ==> e.payload.tx.id.RandomTx?
    ensures ReceiptsInv(db')
  {
    forall t: Id ensures SettledExactlyOnce(db', t) {
      assert SettledExactlyOnce(db, t);
      DebitsAppend(db.events, e, t);
      assert Debits(db'.events, t) == Debits(db.events, t);
      assert Credits(db'.events, t) == Credits(db.events, t);
    }
  }

  /** The aggregate and payload a money or hold command that changed something worked with. */
  lemma SingleUnfolds(db: Db, c: Command, now: Time) returns (w: Wallet, p: Payload)
    requires CoreInv(db) && c.Single? && Exec(db, c, now).Ok? && Exec(db, c, now).value != db
    ensures c.wallet in db.wallets && w.id == c.wallet && Solvent(w) && PositiveAmount(c.op)
    ensures Rehydrate(c.wallet, LoadStream(db.events, c.wallet)) == Ok(w)
    ensures Decide(w, c.op) == Ok(Some(p))
    ensures CommitEvent(db, w, p, c.eventId, now) == Exec(db, c, now)
  {
    hide Apply, LoadStream, Rehydrate, Decide, CommitEvent, Solvent, CoreInv, PositiveAmount;
    var s := LoadStream(db.events, c.wallet);
    ReplaySolvent(c.wallet, s);
    w := Rehydrate(c.wallet, s).value;
    p := Decide(w, c.op).value.value;
  }

  lemma SingleKeepsInv(db: Db, c: Command, now: Time)
    requires Inv(db) && c.Single? && Exec(db, c, now).Ok?
    ensures Inv(Exec(db, c, now).value)
  {
    hide Exec, CommitEvent, Apply, LoadStream, Rehydrate, Decide, CanonicalPayload, CoreInv, ReceiptsInv;
    var db' := Exec(db, c, now).value;
    if db' != db {
      var w, p := SingleUnfolds(db, c, now);
      DecideIsCanonical(w, c.op);
      CommitKeepsCore(db, w, p, c.eventId, now);
      CommitEventEffect(db, w, p, c.eventId, now);
      OtherReceiptsKept(db, db', Stored(w, p, c.eventId, now));
    }
  }

  // ---------------------------------------------------------------- settling

  lemma PayloadsUnfold(ws: Wallet, wr: Wallet, t: Id, terms: Receipt)
    requires SettlePayloads(ws, wr, t, terms).Ok?
    ensures HoldIn(ws, t) == Some(Hold(terms.amount, Active))
    ensures SettlePayloads(ws, wr, t, terms).value
         == (HoldConsumed(t, Transaction(TransferTx(t), WalletMovement(ws.id, -terms.amount))),
             MoneyDeposited(Transaction(TransferTx(t), WalletMovement(wr.id, terms.destAmount))))
  {
  }

  /** The two aggregates and payloads a successful settlement works with. */
  lemma SettleUnfolds(db: Db, c: Command, now: Time)
    returns (ws: Wallet, wr: Wallet, debit: Payload, credit: Payload, db1: Db, db2: Db)
    requires Inv(db) && c.Settle? && c.transfer !in db.receipts && Exec(db, c, now).Ok?
    ensures TermsPositive(c.terms) && TransferWallets(db, c.user, c.terms) && c.terms.sender != c.terms.receiver
    ensures Rehydrate(c.terms.sender, LoadStream(db.events, c.terms.sender)) == Ok(ws) && ws.id == c.terms.sender
    ensures Rehydrate(c.terms.receiver, LoadStream(db.events, c.terms.receiver)) == Ok(wr) && wr.id == c.terms.receiver
    ensures HoldIn(ws, c.transfer) == Some(Hold(c.terms.amount, Active))
    ensures debit
      == HoldConsumed(c.transfer, Transaction(TransferTx(c.transfer), WalletMovement(c.terms.sender, -c.terms.amount)))
    ensures credit
      == MoneyDeposited(Transaction(TransferTx(c.transfer), WalletMovement(c.terms.receiver, c.terms.destAmount)))
    ensures CommitEvent(db, ws, debit, c.debitId, now) == Ok(db1)
    ensures CommitEvent(db1, wr, credit, c.creditId, now) == Ok(db2)
    ensures Exec(db, c, now) == Ok(db2.(receipts := db2.receipts[c.transfer := c.terms]))
  {
    hide Apply, LoadStream, Rehydrate, SettlePayloads, CommitEvent, Solvent, Inv;
    var ss, rs := LoadStream(db.events, c.terms.sender), LoadStream(db.events, c.terms.receiver);
    ReplaySolvent(c.terms.sender, ss);
    ReplaySolvent(c.terms.receiver, rs);
    ws, wr := Rehydrate(c.terms.sender, ss).value, Rehydrate(c.terms.receiver, rs).value;
    PayloadsUnfold(ws, wr, c.transfer, c.terms);
    var ps := SettlePayloads(ws, wr, c.transfer, c.terms).value;
    debit, credit := ps.0, ps.1;
    db1 := CommitEvent(db, ws, debit, c.debitId, now).value;
    db2 := CommitEvent(db1, wr, credit, c.creditId, now).value;
    CommitEventEffect(db, ws, debit, c.debitId, now);
    CommitEventEffect(db1, wr, credit, c.creditId, now);
  }

  /** Two appends of one settlement leave one debit and one credit of its transfer. */
  lemma SettleReceipts(db: Db, db2: Db, d: StoredEvent, k: StoredEvent, t: Id, terms: Receipt)
    requires ReceiptsInv(db) && t !in db.receipts
    requires db2.events == db.events + [d] + [k] && db2.receipts == db.receipts && db2.wallets == db.wallets
    requires DebitMatches(d, t, terms) && CreditMatches(k, t, terms) && ReceiptLegit(db, terms)
    ensures ReceiptsInv(db2.(receipts := db2.receipts[t := terms]))
  {
    var db' := db2.(receipts := db2.receipts[t := terms]);
    forall u: Id ensures SettledExactlyOnce(db', u) {
      assert SettledExactlyOnce(db, u);
      DebitsAppend(db.events, d, u);
      DebitsAppend(db.events + [d], k, u);
      if u == t {
        assert Debits(db'.events, u) == [d];
        assert Credits(db'.events, u) == [k];
      } else {
        assert Debits(db'.events, u) == Debits(db.events, u);
        assert Credits(db'.events, u) == Credits(db.events, u);
      }
    }
  }

  lemma ReceiptInsertKeepsCore(db: Db, t: Id, terms: Receipt)
    requires CoreInv(db)
    ensures CoreInv(db.(receipts := db.receipts[t := terms]))
  {
    hide Rehydrate, LoadStream, CanonicalPayload, ProjectionOf;
    var db' := db.(receipts := db.receipts[t := terms]);
    forall id | id in db'.wallets ensures WalletConsistent(db', id) {
      assert WalletConsistent(db, id);
    }
  }

  lemma SettleKeepsInv(db: Db, c: Command, now: Time)
    requires Inv(db) && c.Settle? && Exec(db, c, now).Ok?
    ensures Inv(Exec(db, c, now).value)
  {
    hide CommitEvent, Apply, LoadStream, Rehydrate, CoreInv, ReceiptsInv, SettleAttempt;
    if c.transfer !in db.receipts {
      var ws, wr, debit, credit, db1, db2 := SettleUnfolds(db, c, now);
      CommitEventEffect(db, ws, debit, c.debitId, now);
      CommitEventEffect(db1, wr, credit, c.creditId, now);
      CommitKeepsCore(db, ws, debit, c.debitId, now);
      CommitEventStreams(db, ws, debit, c.debitId, now, wr.id);
      assert LoadStream(db1.events, wr.id) == LoadStream(db.events, wr.id);
      CommitKeepsCore(db1, wr, credit, c.creditId, now);
      ReceiptInsertKeepsCore(db2, c.transfer, c.terms);
      SettleReceipts(db, db2, Stored(ws, debit, c.debitId, now), Stored(wr, credit, c.creditId, now), c.transfer,
        c.terms);
    }
  }

  // ------------------------------------------------------- opening a wallet

  lemma {:induction false} StreamOfUnknown(events: seq<StoredEvent>, id: Id)
    requires forall i :: 0 <= i < |events| ==> events[i].streamId != id
    ensures LoadStream(events, id) == []
  {
    if |events| > 0 {
      StreamOfUnknown(events[..|events| - 1], id);
    }
  }

  lemma OpenRowKeepsTables(db: Db, id: Id, row: WalletRow)
    requires Inv(db) && id !in db.wallets && !HasWallet(db, row.owner, row.currency)
    ensures var db0 := db.(wallets := db.wallets[id := row]);
      && EventsCanonical(db0) && EventIdsUnique(db0) && OutboxMirrorsEvents(db0) && OwnersUnique(db0)
      && (forall k :: k in db0.wallets && k != id ==> WalletConsistent(db0, k))
      && LoadStream(db0.events, id) == []
  {
    hide LoadStream, Rehydrate, CanonicalPayload, ReceiptsInv, ProjectionOf;
    var db0 := db.(wallets := db.wallets[id := row]);
    StreamOfUnknown(db.events, id);
    forall k | k in db0.wallets && k != id ensures WalletConsistent(db0, k) {
      assert WalletConsistent(db, k);
    }
  }

  lemma OpenRowKeepsReceipts(db: Db, id: Id, row: WalletRow)
    requires ReceiptsInv(db) && id !in db.wallets
    ensures ReceiptsInv(db.(wallets := db.wallets[id := row]))
  {
    hide Debits, Credits, DebitMatches, CreditMatches;
    var db0 := db.(wallets := db.wallets[id := row]);
    forall t: Id ensures SettledExactlyOnce(db0, t) {
      assert SettledExactlyOnce(db, t);
    }
  }

  lemma OpenKeepsInv(db: Db, c: Command, now: Time)
    requires Inv(db) && c.Open? && Exec(db, c, now).Ok?
    ensures Inv(Exec(db, c, now).value)
  {
    hide CommitEvent, LoadStream, EventsCanonical, EventIdsUnique, OutboxMirrorsEvents, ReceiptsInv, HasWallet,
      StreamsConsistent, WalletConsistent;
    if !HasWallet(db, c.owner, c.currency) {
      var db0 := db.(wallets := db.wallets[c.newId := WalletRow(c.owner, c.currency)]);
      OpenRowKeepsTables(db, c.newId, WalletRow(c.owner, c.currency));
      OpenRowKeepsReceipts(db, c.newId, WalletRow(c.owner, c.currency));
      var w, p := Empty(c.newId), WalletCreated(c.owner, c.currency);
      CommitEventEffect(db0, w, p, c.eventId, now);
      CommitKeepsStreams(db0, w, p, c.eventId, now);
      CommitKeepsTables(db0, w, p, c.eventId, now);
      OtherReceiptsKept(db0, Exec(db, c, now).value, Stored(w, p, c.eventId, now));
    }
  }

  // -------------------------------------------------------------- all at once

  lemma EmptyInv()
    ensures Inv(EMPTY_DB)
  {
  }

  /** Every command, accepted or refused, keeps the ledger's invariant. */
  lemma AfterKeepsInv(db: Db, c: Command, now: Time)
    requires Inv(db)
    ensures Inv(After(db, c, now))
  {
    if Exec(db, c, now).Ok? {
      match c
      case Single(_, _, _, _) => SingleKeepsInv(db, c, now);
      case Settle(_, _, _, _, _) => SettleKeepsInv(db, c, now);
      case Open(_, _, _, _) => OpenKeepsInv(db, c, now);
    }
  }
}
