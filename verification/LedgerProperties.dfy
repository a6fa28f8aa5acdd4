/** What every ledger command does to holds, receipts and money totals. */
module LedgerProperties {
  import opened Base
  import opened LedgerTransactions
  import opened WalletAggregate
  import opened LedgerDb
  import opened LedgerInvariants

  // ------------------------------------------------------ streams of a command

  /** After an accepted command, each stream is the old one plus at most one event. */
  lemma StreamGrows(db: Db, c: Command, now: Time, id: Id) returns (added: seq<StoredEvent>)
    requires Inv(db) && Exec(db, c, now).Ok?
    ensures |added| <= 1
    ensures LoadStream(Exec(db, c, now).value.events, id) == LoadStream(db.events, id) + added
    ensures id in db.wallets && |added| == 1 ==> !added[0].payload.WalletCreated?
    ensures |added| == 1 ==>
      && added[0].streamId == id && added[0].createdAt == now
      && added[0].eventId in (match c
           case Single(_, _, _, eventId) => {eventId}
           case Settle(_, _, _, debitId, creditId) => {debitId, creditId}
           case Open(_, _, _, eventId) => {eventId})
  {
    hide CommitEvent, Exec, LoadStream, Rehydrate, Decide, Inv;
    var db' := Exec(db, c, now).value;
    added := [];
    if db' != db {
      match c
      case Single(wallet, _, op, eventId) =>
        assert CoreInv(db) by { InvIsCore(db); }
        var w, p := SingleUnfolds(db, c, now);
        CommitEventStreams(db, w, p, eventId, now, id);
        DecideIsCanonical(w, op);
        if id == wallet { added := [Stored(w, p, eventId, now)]; }
      case Settle(_, _, terms, debitId, creditId) =>
        SettleNotRecorded(db, c, now);
        var ws, wr, debit, credit, db1, db2 := SettleUnfolds(db, c, now);
        CommitEventStreams(db, ws, debit, debitId, now, id);
        CommitEventStreams(db1, wr, credit, creditId, now, id);
        if id == terms.sender { added := [Stored(ws, debit, debitId, now)]; }
        if id == terms.receiver { added := [Stored(wr, credit, creditId, now)]; }
      case Open(newId, owner, currency, eventId) =>
        OpenIsNew(db, c, now);
        var db0 := db.(wallets := db.wallets[newId := WalletRow(owner, currency)]);
        var w, p := Empty(newId), WalletCreated(owner, currency);
        CommitEventStreams(db0, w, p, eventId, now, id);
        if id == newId { added := [Stored(w, p, eventId, now)]; }
    }
  }

  lemma InvIsCore(db: Db)
    requires Inv(db)
    ensures CoreInv(db) && ReceiptsInv(db)
  {
  }

  lemma SettleNotRecorded(db: Db, c: Command, now: Time)
    requires c.Settle? && Exec(db, c, now).Ok? && Exec(db, c, now).value != db
    ensures c.transfer !in db.receipts
  {
  }

  lemma OpenIsNew(db: Db, c: Command, now: Time)
    requires c.Open? && Exec(db, c, now).Ok? && Exec(db, c, now).value != db
    ensures c.newId !in db.wallets
    ensures Exec(db, c, now)
         == CommitEvent(db.(wallets := db.wallets[c.newId := WalletRow(c.owner, c.currency)]),
                        Empty(c.newId), WalletCreated(c.owner, c.currency), c.eventId, now)
  {
  }

  /** A wallet of the table replays, before and after. */
  lemma Replays(db: Db, id: Id)
    requires Inv(db) && id in db.wallets
    ensures Rehydrate(id, LoadStream(db.events, id)).Ok?
    ensures Solvent(Rehydrate(id, LoadStream(db.events, id)).value)
  {
    assert WalletConsistent(db, id);
    ReplaySolvent(id, LoadStream(db.events, id));
  }

  lemma WalletsKept(db: Db, c: Command, now: Time, id: Id)
    requires Exec(db, c, now).Ok? && id in db.wallets
    ensures id in Exec(db, c, now).value.wallets && Exec(db, c, now).value.wallets[id] == db.wallets[id]
  {
    hide LoadStream, Rehydrate, Decide, LatestVersion, Apply, LoadAggregate, SettlePayloads;
  }

  // ------------------------------------------------------------------- holds

  lemma UnknownWalletHasNoHold(db: Db, wallet: Id, k: Id)
    requires Inv(db) && wallet !in db.wallets
    ensures HoldOf(db, wallet, k) == None
  {
    StreamOfUnknown(db.events, wallet);
  }

  /** A wallet just opened has no holds yet. */
  lemma FreshWalletHasNoHold(db: Db, c: Command, now: Time, wallet: Id, k: Id)
    requires Inv(db) && Exec(db, c, now).Ok? && wallet !in db.wallets
    ensures HoldOf(Exec(db, c, now).value, wallet, k) == None
  {
    hide CommitEvent, Apply, Inv, Decide, HasWallet;
    var added := StreamGrows(db, c, now, wallet);
    var db' := Exec(db, c, now).value;
    assert LoadStream(db.events, wallet) == [] by {
      InvIsCore(db);
      assert EventsCanonical(db);
      StreamOfUnknown(db.events, wallet);
    }
    if |added| == 1 {
      assert LoadStream(db'.events, wallet) == [added[0]];
      FirstEventHasNoHold(wallet, added[0]);
    } else {
      assert LoadStream(db'.events, wallet) == [];
    }
  }

  lemma FirstEventHasNoHold(wallet: Id, e: StoredEvent)
    ensures Rehydrate(wallet, [e]).Ok? ==> Rehydrate(wallet, [e]).value.holds == map[]
  {
    assert [e][..0] == [];
    assert Rehydrate(wallet, [e]) == Apply(Empty(wallet), e);
  }

  /**
   * Every accepted command moves every hold of every wallet by at most one legal step: a hold is
   * created active, an active one may be released or consumed, and nothing else ever happens to it.
   */
  lemma CommandHoldStep(db: Db, c: Command, now: Time, wallet: Id, k: Id)
    requires Inv(db)
    ensures HoldStep(HoldOf(db, wallet, k), HoldOf(After(db, c, now), wallet, k))
  {
    hide Exec, LoadStream, Rehydrate, Apply, Inv;
    if Exec(db, c, now).Ok? {
      if wallet in db.wallets {
        var added := StreamGrows(db, c, now, wallet);
        var s := LoadStream(db.events, wallet);
        Replays(db, wallet);
        if |added| == 1 {
          assert added == [added[0]];
          RehydrateAppend(wallet, s, added[0]);
          AfterKeepsInv(db, c, now);
          WalletsKept(db, c, now, wallet);
          Replays(After(db, c, now), wallet);
          ApplyHoldStep(Rehydrate(wallet, s).value, added[0], k);
        } else {
          assert s + added == s;
        }
      } else {
        UnknownWalletHasNoHold(db, wallet, k);
        FreshWalletHasNoHold(db, c, now, wallet, k);
      }
    }
  }

  /** Receipts are written once, by the settle command of their own transfer. */
  lemma CommandReceipts(db: Db, c: Command, now: Time, t: Id)
    requires Inv(db)
    ensures t in db.receipts ==> t in After(db, c, now).receipts && After(db, c, now).receipts[t] == db.receipts[t]
    ensures t !in db.receipts && t in After(db, c, now).receipts ==>
              c.Settle? && c.transfer == t && After(db, c, now).receipts[t] == c.terms
  {
    hide LoadStream, Rehydrate, Decide, LatestVersion, Apply, LoadAggregate, SettlePayloads, Inv;
  }

  // ----------------------------------------------- what an accepted call means

  /** A settlement that answers success has left its receipt, with exactly the asked terms. */
  lemma SettleAnswers(db: Db, c: Command, now: Time)
    requires Inv(db) && c.Settle? && Exec(db, c, now).Ok?
    ensures c.transfer in Exec(db, c, now).value.receipts
    ensures Exec(db, c, now).value.receipts[c.transfer] == c.terms
  {
    hide LoadStream, Rehydrate, LatestVersion, Apply, LoadAggregate, SettlePayloads, Inv, CommitEvent;
  }

  /** A new receipt takes an active hold of its own transfer, for its own amount. */
  lemma SettleNeedsActiveHold(db: Db, c: Command, now: Time)
    requires Inv(db) && c.Settle? && Exec(db, c, now).Ok? && c.transfer !in db.receipts
    ensures HoldOf(db, c.terms.sender, c.transfer) == Some(Hold(c.terms.amount, Active))
  {
    hide Exec, LoadStream, Rehydrate, Inv, CommitEvent;
    var ws, wr, debit, credit, db1, db2 := SettleUnfolds(db, c, now);
  }

  lemma {:induction false} ConsumedEventShows(id: Id, s: seq<StoredEvent>, k: Id, i: nat)
    requires Rehydrate(id, s).Ok? && i < |s|
    requires s[i].payload.HoldConsumed? && s[i].payload.holdId == k
    ensures HoldIn(Rehydrate(id, s).value, k).Some? && HoldIn(Rehydrate(id, s).value, k).value.status == Consumed
  {
    hide ApplyMoney, WalletAmount;
    var front := s[..|s| - 1];
    var e := s[|s| - 1];
    if i == |s| - 1 {
    } else {
      ConsumedEventShows(id, front, k, i);
      assert front[i] == s[i];
      if e.payload.WalletCreated? {
        ReplaySolvent(id, front);
        assert false;
      }
      ApplyHoldStep(Rehydrate(id, front).value, e, k);
    }
  }

  lemma {:induction false} DebitIsInStream(events: seq<StoredEvent>, t: Id, d: StoredEvent)
    requires d in Debits(events, t)
    ensures exists i :: 0 <= i < |LoadStream(events, d.streamId)| && LoadStream(events, d.streamId)[i] == d
  {
    var front := events[..|events| - 1];
    var s := LoadStream(events, d.streamId);
    if d in Debits(front, t) {
      DebitIsInStream(front, t, d);
      var i :| 0 <= i < |LoadStream(front, d.streamId)| && LoadStream(front, d.streamId)[i] == d;
      assert s[i] == d;
    } else {
      assert s[|s| - 1] == d;
    }
  }

  /** Wherever there is a receipt, the sender's hold of that transfer is consumed. */
  lemma ReceiptMeansConsumed(db: Db, t: Id)
    requires Inv(db) && t in db.receipts
    ensures var h := HoldOf(db, db.receipts[t].sender, t);
      h.Some? && h.value.status == Consumed
  {
    hide LoadStream, Rehydrate, Debits, Credits, CoreInv, CreditMatches;
    assert SettledExactlyOnce(db, t);
    var r := db.receipts[t];
    var d := Debits(db.events, t)[0];
    DebitIsInStream(db.events, t, d);
    var s := LoadStream(db.events, r.sender);
    var i :| 0 <= i < |s| && s[i] == d;
    Replays(db, r.sender);
    ConsumedEventShows(r.sender, s, t, i);
  }

  /** The guards of placing a new hold. */
  predicate Coverable(db: Db, wallet: Id, owner: Id, amount: int, eventId: Id) {
    var r := Rehydrate(wallet, LoadStream(db.events, wallet));
    && amount > 0
    && wallet in db.wallets && db.wallets[wallet].owner == owner
    && r.Ok? && Available(r.value) >= amount
    && !EventIdUsed(db.events, eventId)
  }

  lemma OutboxIds(db: Db, eventId: Id)
    requires Inv(db)
    ensures eventId in db.outbox <==> EventIdUsed(db.events, eventId)
  {
    assert OutboxMirrorsEvents(db);
    if eventId in db.outbox {
      var e := db.outbox[eventId].event;
      var i :| 0 <= i < |db.events| && db.events[i] == e;
    }
  }

  /** A new hold is placed exactly when the wallet can cover it. */
  lemma PlaceAccepted(db: Db, wallet: Id, owner: Id, k: Id, amount: int, eventId: Id, now: Time)
    requires Inv(db) && HoldOf(db, wallet, k) == None
    ensures Exec(db, Single(wallet, owner, PlaceOp(k, amount), eventId), now).Ok? <==>
      Coverable(db, wallet, owner, amount, eventId)
  {
    hide Rehydrate, LoadStream, Apply, HeldOver, LatestVersion, EventIdUsed;
    if wallet in db.wallets {
      Replays(db, wallet);
      assert WalletConsistent(db, wallet);
      LatestIsVersion(db.events, wallet);
      var w := Rehydrate(wallet, LoadStream(db.events, wallet)).value;
      ReplaySolvent(wallet, LoadStream(db.events, wallet));
      if amount > 0 && Available(w) >= amount {
        DecisionApplies(w, PlaceOp(k, amount), eventId, now);
      }
      OutboxIds(db, eventId);
    }
  }

  /** Where an accepted money or hold command leaves hold `k` of its wallet: decided, and replayed. */
  lemma SingleHold(db: Db, c: Command, now: Time, k: Id) returns (w: Wallet)
    requires Inv(db) && c.Single? && Exec(db, c, now).Ok?
    ensures PositiveAmount(c.op) && Decide(w, c.op).Ok?
    ensures Decide(w, c.op).value.None? ==> HoldOf(Exec(db, c, now).value, c.wallet, k) == HoldIn(w, k)
    ensures Decide(w, c.op).value.Some? ==>
      var r := Apply(w, Stored(w, Decide(w, c.op).value.value, c.eventId, now));
      r.Ok? && HoldOf(Exec(db, c, now).value, c.wallet, k) == HoldIn(r.value, k)
  {
    hide LoadStream, Rehydrate, Inv, Decide, CommitEvent, Apply, PositiveAmount;
    var s := LoadStream(db.events, c.wallet);
    w := Rehydrate(c.wallet, s).value;
    ReplaySolvent(c.wallet, s);
    if Decide(w, c.op).value.Some? {
      var p := Decide(w, c.op).value.value;
      CommitEventEffect(db, w, p, c.eventId, now);
      CommitEventStreams(db, w, p, c.eventId, now, c.wallet);
      RehydrateAppend(c.wallet, s, Stored(w, p, c.eventId, now));
    }
  }

  /** A transfer release that answers `released` found no hold, or leaves it released. */
  lemma ReleaseAnswers(db: Db, c: Command, now: Time)
    requires Inv(db) && c.Single? && c.op.ReleaseOp? && Exec(db, c, now).Ok?
    ensures var h := HoldOf(Exec(db, c, now).value, c.wallet, c.op.holdId);
      h.None? || h.value.status == Released
  {
    hide Inv, Exec, HoldOf;
    var w := SingleHold(db, c, now, c.op.holdId);
  }

  /** Placing a hold that answers success leaves a hold of that id and amount. */
  lemma PlaceAnswers(db: Db, c: Command, now: Time)
    requires Inv(db) && c.Single? && c.op.PlaceOp? && Exec(db, c, now).Ok?
    ensures var h := HoldOf(Exec(db, c, now).value, c.wallet, c.op.holdId);
      h.Some? && h.value.amount == c.op.amount
  {
    hide Inv, Exec, HoldOf;
    var w := SingleHold(db, c, now, c.op.holdId);
  }

  /** Consuming a hold that answers success leaves it consumed. */
  lemma ConsumeAnswers(db: Db, c: Command, now: Time)
    requires Inv(db) && c.Single? && c.op.ConsumeOp? && Exec(db, c, now).Ok?
    ensures var h := HoldOf(Exec(db, c, now).value, c.wallet, c.op.holdId);
      h.Some? && h.value.status == Consumed
  {
    hide Inv, Exec, HoldOf, PostingsTo, Total;
    var w := SingleHold(db, c, now, c.op.holdId);
  }

  /** The command that may turn `before` into a different `after` for hold `k` of `wallet`. */
  ghost predicate HoldCause(c: Command, wallet: Id, k: Id, before: Option<Hold>, after: Option<Hold>) {
    || before == after
    || (c.Single? && c.wallet == wallet && c.op.PlaceOp? && c.op.holdId == k && before.None?
         && after == Some(Hold(c.op.amount, Active)))
    || (c.Single? && c.wallet == wallet && c.op.ReleaseOp? && c.op.holdId == k && after.Some?
         && after.value.status == Released)
    || (c.Single? && c.wallet == wallet && c.op.ConsumeOp? && c.op.holdId == k && after.Some?
         && after.value.status == Consumed)
    || (c.Settle? && c.terms.sender == wallet && c.transfer == k && after.Some? && after.value.status == Consumed)
  }

  lemma SingleHoldCause(w: Wallet, op: Op, e: StoredEvent, k: Id, c: Command)
    requires Decide(w, op) == Ok(Some(e.payload)) && Apply(w, e).Ok?
    requires c.Single? && c.wallet == w.id && c.op == op
    ensures HoldCause(c, w.id, k, HoldIn(w, k), HoldIn(Apply(w, e).value, k))
  {
    hide HeldOver, WalletAmount;
  }

  lemma CommittedHold(db: Db, w: Wallet, p: Payload, eventId: Id, now: Time, wallet: Id, k: Id)
    requires CommitEvent(db, w, p, eventId, now).Ok?
    requires Rehydrate(w.id, LoadStream(db.events, w.id)) == Ok(w)
    ensures Apply(w, Stored(w, p, eventId, now)).Ok?
    ensures HoldOf(CommitEvent(db, w, p, eventId, now).value, wallet, k)
         == if wallet == w.id then HoldIn(Apply(w, Stored(w, p, eventId, now)).value, k) else HoldOf(db, wallet, k)
  {
    hide CommitEvent, LoadStream, Rehydrate, Apply;
    CommitEventEffect(db, w, p, eventId, now);
    CommitEventStreams(db, w, p, eventId, now, wallet);
    if wallet == w.id {
      RehydrateAppend(wallet, LoadStream(db.events, wallet), Stored(w, p, eventId, now));
    } else {
      assert LoadStream(db.events, wallet) + [] == LoadStream(db.events, wallet);
    }
  }

  lemma SettleHoldCause(db: Db, c: Command, now: Time, wallet: Id, k: Id)
    requires Inv(db) && c.Settle? && c.transfer !in db.receipts && Exec(db, c, now).Ok?
    ensures HoldCause(c, wallet, k, HoldOf(db, wallet, k), HoldOf(Exec(db, c, now).value, wallet, k))
  {
    hide Exec, CommitEvent, LoadStream, Rehydrate, Inv;
    var ws, wr, debit, credit, db1, db2 := SettleUnfolds(db, c, now);
    CommittedHold(db, ws, debit, c.debitId, now, wallet, k);
    CommitEventStreams(db, ws, debit, c.debitId, now, wr.id);
    assert LoadStream(db.events, wr.id) + [] == LoadStream(db.events, wr.id);
    CommittedHold(db1, wr, credit, c.creditId, now, wallet, k);
    DepositKeepsHolds(wr, Stored(wr, credit, c.creditId, now), k);
    DebitHold(ws, Stored(ws, debit, c.debitId, now), k);
  }

  lemma DepositKeepsHolds(w: Wallet, e: StoredEvent, k: Id)
    requires Apply(w, e).Ok? && e.payload.MoneyDeposited?
    ensures HoldIn(Apply(w, e).value, k) == HoldIn(w, k)
  {
  }

  lemma DebitHold(w: Wallet, e: StoredEvent, k: Id)
    requires Apply(w, e).Ok? && e.payload.HoldConsumed?
    ensures k != e.payload.holdId ==> HoldIn(Apply(w, e).value, k) == HoldIn(w, k)
    ensures k == e.payload.holdId ==> k in Apply(w, e).value.holds && Apply(w, e).value.holds[k].status == Consumed
  {
  }

  /** A hold changes only by a command that names it: placed, released or consumed by its id. */
  lemma CommandHoldCause(db: Db, c: Command, now: Time, wallet: Id, k: Id)
    requires Inv(db)
    ensures HoldCause(c, wallet, k, HoldOf(db, wallet, k), HoldOf(After(db, c, now), wallet, k))
  {
    hide Exec, CommitEvent, LoadStream, Rehydrate, Inv, HoldOf, Apply, Decide;
    if Exec(db, c, now).Ok? && Exec(db, c, now).value != db {
      match c
      case Single(_, _, op, eventId) =>
        assert CoreInv(db) by { InvIsCore(db); }
        var w, p := SingleUnfolds(db, c, now);
        CommittedHold(db, w, p, eventId, now, wallet, k);
        SingleHoldCause(w, op, Stored(w, p, eventId, now), k, c);
        CurrentHold(db, w, k);
      case Settle(_, _, _, _, _) =>
        SettleNotRecorded(db, c, now);
        SettleHoldCause(db, c, now, wallet, k);
      case Open(newId, _, _, _) =>
        OpenIsNew(db, c, now);
        OpenHoldCause(db, c, now, wallet, k);
    }
  }

  lemma CurrentHold(db: Db, w: Wallet, k: Id)
    requires Rehydrate(w.id, LoadStream(db.events, w.id)) == Ok(w)
    ensures HoldOf(db, w.id, k) == HoldIn(w, k)
  {
  }

  lemma OpenHoldCause(db: Db, c: Command, now: Time, wallet: Id, k: Id)
    requires Inv(db) && c.Open? && Exec(db, c, now).Ok? && c.newId !in db.wallets
    ensures HoldOf(Exec(db, c, now).value, wallet, k) == HoldOf(db, wallet, k)
  {
    hide Exec, LoadStream, Rehydrate, Inv;
    if wallet in db.wallets {
      if Exec(db, c, now).value != db {
        OpenIsNew(db, c, now);
        var db0 := db.(wallets := db.wallets[c.newId := WalletRow(c.owner, c.currency)]);
        CommitEventStreams(db0, Empty(c.newId), WalletCreated(c.owner, c.currency), c.eventId, now, wallet);
        assert LoadStream(db.events, wallet) + [] == LoadStream(db.events, wallet);
      }
    } else {
      UnknownWalletHasNoHold(db, wallet, k);
      FreshWalletHasNoHold(db, c, now, wallet, k);
    }
  }

  lemma UnknownHasNoStream(db: Db, id: Id)
    requires Inv(db) && id !in db.wallets
    ensures LoadStream(db.events, id) == []
  {
    assert EventsCanonical(db);
    StreamOfUnknown(db.events, id);
  }

  /** An attempt that had nothing to do would have had nothing to do at its load, either. */
  lemma NoOpAtLoad(loaded: Db, db: Db, c: Command, now: Time)
    requires Inv(loaded) && Inv(db) && c.Single?
    requires c.wallet in loaded.wallets ==> c.wallet in db.wallets && db.wallets[c.wallet] == loaded.wallets[c.wallet]
    requires SingleAttempt(db, LoadStream(loaded.events, c.wallet), c.wallet, c.owner, c.op, c.eventId, now) == Ok(db)
    ensures Exec(loaded, c, now) == Ok(loaded)
  {
    hide LoadStream, CommitEvent, Decide, Inv;
    var stream := LoadStream(loaded.events, c.wallet);
    if c.wallet !in loaded.wallets {
      UnknownHasNoStream(loaded, c.wallet);
      assert false;
    }
    var w := Rehydrate(c.wallet, stream).value;
    if Decide(w, c.op).value.Some? {
      CommitEventEffect(db, w, Decide(w, c.op).value.value, c.eventId, now);
      assert false;
    }
  }
}
