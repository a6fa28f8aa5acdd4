/**
 * Why an attempt is refused. A session decides on the streams it loaded and commits later; unless
 * it meets a conflict, it is refused exactly as the bank of its load refuses the command.
 */
module Refusals {
  import opened Base
  import opened LedgerTransactions
  import opened WalletAggregate
  import opened LedgerDb
  import opened LedgerInvariants
  import opened LedgerProperties
  import opened BankRefinement

  /** The errors that blame another session's commit. */
  predicate Conflict(e: LedgerError) {
    e == ExpectedVersion || e == DuplicateEventId || e == UniqueViolation
  }

  /** `db` follows `loaded`: no wallet row is lost or changed. */
  ghost predicate WalletsFollow(loaded: Db, db: Db) {
    forall id :: id in loaded.wallets ==> id in db.wallets && db.wallets[id] == loaded.wallets[id]
  }

  /** The wallet was opened between the load and the commit. */
  predicate OpenedSince(loaded: Db, db: Db, id: Id) {
    id !in loaded.wallets && id in db.wallets
  }

  // --------------------------------------------------------------- one append

  lemma CommitRefused(db: Db, w: Wallet, p: Payload, eventId: Id, now: Time)
    requires w.id in db.wallets && Apply(w, Stored(w, p, eventId, now)).Ok?
    requires CommitEvent(db, w, p, eventId, now).Err?
    ensures var e := CommitEvent(db, w, p, eventId, now).error;
      && Conflict(e)
      && (e == ExpectedVersion ==> LatestVersion(db.events, w.id) != w.version)
      && (e == DuplicateEventId ==> EventIdUsed(db.events, eventId))
      && (e == UniqueViolation ==> eventId in db.outbox)
  {
    hide Apply, LatestVersion, EventIdUsed;
  }

  /** A wallet that was there at the load is rehydrated as the bank of the load has it. */
  lemma Loaded(loaded: Db, db: Db, id: Id)
    requires Inv(loaded) && id in loaded.wallets && id in db.wallets && db.wallets[id] == loaded.wallets[id]
    ensures var r := Rehydrate(id, LoadStream(loaded.events, id));
      && r.Ok? && r.value.id == id && Solvent(r.value) && r.value.version == |LoadStream(loaded.events, id)|
      && LoadAggregate(db, id, LoadStream(loaded.events, id)) == Ok(r.value)
      && id in View(loaded).accounts && View(loaded).accounts[id] == AccountFrom(loaded.wallets[id], r.value)
  {
    hide LoadStream, Rehydrate, Inv, Solvent, View;
    Replays(loaded, id);
    ReplaySolvent(id, LoadStream(loaded.events, id));
    assert WalletConsistent(loaded, id) by { InvIsCore(loaded); }
    ViewAt(loaded, id);
  }

  /** A wallet opened since the load replays an empty stream, which has no identity. */
  lemma NotLoaded(loaded: Db, db: Db, id: Id)
    requires Inv(loaded) && OpenedSince(loaded, db, id)
    ensures LoadAggregate(db, id, LoadStream(loaded.events, id)) == Err(IdentityMismatch)
  {
    hide LoadStream, Inv;
    UnknownHasNoStream(loaded, id);
  }

  // ---------------------------------------------------------- single commands

  lemma DecideErrors(w: Wallet, op: Op)
    ensures Decide(w, op).Err? ==> !Conflict(Decide(w, op).error)
  {
  }

  /**
   * A refused attempt of a money or hold command: the bank of its load refuses the command for the
   * same reason, or the commit met a conflict that really happened.
   */
  lemma SingleRefused(loaded: Db, db: Db, c: Command, now: Time)
    requires Inv(loaded) && Inv(db) && WalletsFollow(loaded, db) && c.Single?
    requires LoadStream(loaded.events, c.wallet) <= LoadStream(db.events, c.wallet)
    requires SingleAttempt(db, LoadStream(loaded.events, c.wallet), c.wallet, c.owner, c.op, c.eventId, now).Err?
    ensures var stream := LoadStream(loaded.events, c.wallet);
      var e := SingleAttempt(db, stream, c.wallet, c.owner, c.op, c.eventId, now).error;
      && (!Conflict(e) ==>
           Serve(View(loaded), c) == Err(e) || (OpenedSince(loaded, db, c.wallet) && e == IdentityMismatch))
      && (e == DuplicateEventId || e == UniqueViolation ==> EventIdUsed(db.events, c.eventId))
      && (e == ExpectedVersion ==> LoadStream(loaded.events, c.wallet) < LoadStream(db.events, c.wallet))
  {
    hide LoadStream, Rehydrate, Inv, Decide, CommitEvent, Apply, Solvent, View, Operate, PositiveAmount, LoadAggregate,
      LatestVersion, EventIdUsed;
    ViewAt(loaded, c.wallet);
    if OpenedSince(loaded, db, c.wallet) {
      NotLoaded(loaded, db, c.wallet);
    } else if c.wallet in loaded.wallets {
      Loaded(loaded, db, c.wallet);
      var w := Rehydrate(c.wallet, LoadStream(loaded.events, c.wallet)).value;
      DecideErrors(w, c.op);
      DecisionMatches(loaded.wallets[c.wallet], w, c.op, c.eventId, now);
      if PositiveAmount(c.op) && Decide(w, c.op).Ok? && Decide(w, c.op).value.Some?
        && db.wallets[c.wallet].owner == c.owner {
        CommitRefused(db, w, Decide(w, c.op).value.value, c.eventId, now);
        FreshInOutboxIff(db, c.eventId);
        Replays(db, c.wallet);
        LatestIsVersion(db.events, c.wallet);
      }
    }
  }

  lemma FreshInOutboxIff(db: Db, eventId: Id)
    requires Inv(db)
    ensures eventId in db.outbox ==> EventIdUsed(db.events, eventId)
  {
    hide Inv, EventIdUsed;
    OutboxIds(db, eventId);
  }

  // -------------------------------------------------------------- settlements

  /** The aggregates of a settlement, decided: the debit and the credit, or the bank's refusal. */
  lemma PayloadsDecided(b: Bank, ws: Wallet, wr: Wallet, rowS: WalletRow, rowR: WalletRow, c: Command, now: Time)
    requires c.Settle? && TermsPositive(c.terms) && Solvent(ws) && Solvent(wr) && c.transfer !in b.receipts
    requires Parties(b, c.user, c.terms) && c.terms.sender != c.terms.receiver
    requires ws.id == c.terms.sender && b.accounts[c.terms.sender] == AccountFrom(rowS, ws)
    requires wr.id == c.terms.receiver && b.accounts[c.terms.receiver] == AccountFrom(rowR, wr)
    ensures var r := SettlePayloads(ws, wr, c.transfer, c.terms);
      && (r.Err? ==> Serve(b, c) == Err(r.error) && !Conflict(r.error))
      && (r.Ok? ==>
            && Serve(b, c).Ok?
            && Apply(ws, Stored(ws, r.value.0, c.debitId, now)).Ok?
            && Apply(wr, Stored(wr, r.value.1, c.creditId, now)).Ok?
            && !r.value.0.WalletCreated?)
  {
    hide Apply, PostingsTo, Total, HeldOver, Transferred, Free;
    DepositMatches(rowR, wr, c.terms.destAmount, TransferTx(c.transfer), c.creditId, now);
    if c.transfer in ws.holds && ws.holds[c.transfer].status == Active {
      ConsumeMatches(rowS, ws, c.transfer, TransferTx(c.transfer), c.debitId, now);
    }
  }

  /** The two appends and the receipt of a settlement, refused: by a conflict that really happened. */
  lemma SettlementConflict(db: Db, ws: Wallet, wr: Wallet, c: Command, debit: Payload, credit: Payload, now: Time)
    requires Inv(db) && c.Settle? && ws.id in db.wallets && wr.id in db.wallets && ws.id != wr.id
    requires Apply(ws, Stored(ws, debit, c.debitId, now)).Ok? && Apply(wr, Stored(wr, credit, c.creditId, now)).Ok?
    requires CommitSettlement(db, ws, wr, debit, credit, c, now).Err?
    ensures var e := CommitSettlement(db, ws, wr, debit, credit, c, now).error;
      && Conflict(e)
      && (e == ExpectedVersion ==>
            LatestVersion(db.events, ws.id) != ws.version || LatestVersion(db.events, wr.id) != wr.version)
      && (e == DuplicateEventId ==>
            EventIdUsed(db.events, c.debitId) || EventIdUsed(db.events, c.creditId) || c.debitId == c.creditId)
      && (e == UniqueViolation ==>
            || c.transfer in db.receipts
            || EventIdUsed(db.events, c.debitId) || EventIdUsed(db.events, c.creditId) || c.debitId == c.creditId)
  {
    hide Inv, Apply, LatestVersion, LoadStream, EventIdUsed, CommitEvent;
    FreshInOutboxIff(db, c.debitId);
    FreshInOutboxIff(db, c.creditId);
    var first := CommitEvent(db, ws, debit, c.debitId, now);
    if first.Err? {
      CommitRefused(db, ws, debit, c.debitId, now);
    } else {
      CommitEventEffect(db, ws, debit, c.debitId, now);
      CommitAdds(db, ws, debit, c.debitId, now, c.creditId);
      CommitEventStreams(db, ws, debit, c.debitId, now, wr.id);
      assert LoadStream(db.events, wr.id) + [] == LoadStream(db.events, wr.id);
      SameLatest(db, first.value, wr.id);
      var second := CommitEvent(first.value, wr, credit, c.creditId, now);
      if second.Err? {
        CommitRefused(first.value, wr, credit, c.creditId, now);
      } else {
        CommitEventEffect(first.value, wr, credit, c.creditId, now);
      }
    }
  }

  lemma SameLatest(a: Db, b: Db, id: Id)
    requires LoadStream(a.events, id) == LoadStream(b.events, id)
    ensures LatestVersion(a.events, id) == LatestVersion(b.events, id)
  {
  }

  /** An append uses up its own event id, and no other. */
  lemma CommitAdds(db: Db, w: Wallet, p: Payload, eventId: Id, now: Time, other: Id)
    requires CommitEvent(db, w, p, eventId, now).Ok?
    ensures var db' := CommitEvent(db, w, p, eventId, now).value;
      && (EventIdUsed(db'.events, other) ==> EventIdUsed(db.events, other) || other == eventId)
      && (other in db'.outbox ==> other in db.outbox || other == eventId)
  {
    hide Apply, LatestVersion;
    var db' := CommitEvent(db, w, p, eventId, now).value;
    if EventIdUsed(db'.events, other) {
      var i :| 0 <= i < |db'.events| && db'.events[i].eventId == other;
      if i < |db.events| { assert db.events[i].eventId == other; }
    }
  }

  /** The same for a settlement whose session found no receipt at its load. */
  lemma SettleRefused(loaded: Db, db: Db, c: Command, now: Time)
    requires Inv(loaded) && Inv(db) && WalletsFollow(loaded, db) && c.Settle? && c.transfer !in loaded.receipts
    requires LoadStream(loaded.events, c.terms.sender) <= LoadStream(db.events, c.terms.sender)
    requires LoadStream(loaded.events, c.terms.receiver) <= LoadStream(db.events, c.terms.receiver)
    requires SettleAttempt(db, LoadStream(loaded.events, c.terms.sender), LoadStream(loaded.events, c.terms.receiver),
      c, now).Err?
    ensures var ss, rs := LoadStream(loaded.events, c.terms.sender), LoadStream(loaded.events, c.terms.receiver);
      var e := SettleAttempt(db, ss, rs, c, now).error;
      && (!Conflict(e) ==>
            || Serve(View(loaded), c) == Err(e)
            || OpenedSince(loaded, db, c.terms.sender) || OpenedSince(loaded, db, c.terms.receiver))
      && (e == ExpectedVersion ==>
            ss < LoadStream(db.events, c.terms.sender) || rs < LoadStream(db.events, c.terms.receiver))
      && (e == DuplicateEventId ==> !FreshEvents(db, c))
      && (e == UniqueViolation ==> c.transfer in db.receipts || !FreshEvents(db, c))
  {
    hide LoadStream, Rehydrate, Inv, CommitSettlement, Apply, Solvent, View, LoadAggregate, SettlePayloads,
      LatestVersion, EventIdUsed, Transferred;
    var s, r := c.terms.sender, c.terms.receiver;
    ViewAt(loaded, s);
    ViewAt(loaded, r);
    if !OpenedSince(loaded, db, s) && !OpenedSince(loaded, db, r) {
      PartiesMatch(loaded, db, c);
      if TermsPositive(c.terms) && TransferWallets(db, c.user, c.terms) && s != r {
        Loaded(loaded, db, s);
        Loaded(loaded, db, r);
        var ws := Rehydrate(s, LoadStream(loaded.events, s)).value;
        var wr := Rehydrate(r, LoadStream(loaded.events, r)).value;
        PayloadsDecided(View(loaded), ws, wr, loaded.wallets[s], loaded.wallets[r], c, now);
        if SettlePayloads(ws, wr, c.transfer, c.terms).Ok? {
          var ps := SettlePayloads(ws, wr, c.transfer, c.terms).value;
          SettlementConflict(db, ws, wr, c, ps.0, ps.1, now);
          Replays(db, s);
          Replays(db, r);
          LatestIsVersion(db.events, s);
          LatestIsVersion(db.events, r);
        }
      }
    } else {
      OpenedRefused(loaded, db, c, now);
    }
  }

  lemma PartiesMatch(loaded: Db, db: Db, c: Command)
    requires WalletsFollow(loaded, db) && c.Settle?
    requires !OpenedSince(loaded, db, c.terms.sender) && !OpenedSince(loaded, db, c.terms.receiver)
    ensures Parties(View(loaded), c.user, c.terms) <==> TransferWallets(db, c.user, c.terms)
  {
    hide LoadStream, Rehydrate, View;
    ViewAt(loaded, c.terms.sender);
    ViewAt(loaded, c.terms.receiver);
  }

  lemma OpenedRefused(loaded: Db, db: Db, c: Command, now: Time)
    requires Inv(loaded) && WalletsFollow(loaded, db) && c.Settle?
    requires OpenedSince(loaded, db, c.terms.sender) || OpenedSince(loaded, db, c.terms.receiver)
    ensures var r := SettleAttempt(db, LoadStream(loaded.events, c.terms.sender),
      LoadStream(loaded.events, c.terms.receiver), c, now);
      r.Err? && !Conflict(r.error)
  {
    hide LoadStream, Rehydrate, Inv, CommitSettlement, LoadAggregate, SettlePayloads;
    if OpenedSince(loaded, db, c.terms.sender) { NotLoaded(loaded, db, c.terms.sender); }
    if OpenedSince(loaded, db, c.terms.receiver) { NotLoaded(loaded, db, c.terms.receiver); }
    if c.terms.sender in loaded.wallets { Loaded(loaded, db, c.terms.sender); }
  }

  // ------------------------------------------------------------------- theorem

  /** With fresh event ids a command is answered exactly as the bank answers it, refusals included. */
  lemma AnsweredAsServed(db: Db, c: Command, now: Time)
    requires Inv(db) && FreshEvents(db, c)
    ensures match Serve(View(db), c)
      case Ok(b) => Exec(db, c, now).Ok? && View(Exec(db, c, now).value) == b
      case Err(e) => Exec(db, c, now) == Err(e)
  {
    hide Exec, Serve, View, Inv, FreshEvents;
    AcceptedIffServed(db, c, now);
    if Exec(db, c, now).Ok? {
      CommandRefines(db, c, now);
    } else {
      match c
      case Single(_, _, _, _) => SingleAnswer(db, c, now);
      case Settle(_, _, _, _, _) => SettleAnswer(db, c, now);
      case Open(_, _, _, _) => OpenAnswer(db, c, now);
    }
  }

  lemma SingleAnswer(db: Db, c: Command, now: Time)
    requires Inv(db) && FreshEvents(db, c) && c.Single? && Exec(db, c, now).Err?
    ensures Serve(View(db), c) == Err(Exec(db, c, now).error)
  {
    hide LoadStream, SingleAttempt, Serve, View, Inv;
    SingleRefused(db, db, c, now);
  }

  lemma SettleAnswer(db: Db, c: Command, now: Time)
    requires Inv(db) && FreshEvents(db, c) && c.Settle? && Exec(db, c, now).Err?
    ensures Serve(View(db), c) == Err(Exec(db, c, now).error)
  {
    hide LoadStream, SettleAttempt, View, Inv, FreshEvents, Transferred;
    ViewAt(db, c.terms.sender);
    if TermsPositive(c.terms) && c.transfer !in db.receipts { SettleRefused(db, db, c, now); }
  }

  lemma OpenAnswer(db: Db, c: Command, now: Time)
    requires Inv(db) && FreshEvents(db, c) && c.Open? && Exec(db, c, now).Err?
    ensures Serve(View(db), c) == Err(Exec(db, c, now).error)
  {
    hide LoadStream, CommitEvent, View, Inv, HasWallet, HasAccount;
    HasAccountIff(db, c.owner, c.currency);
    ViewAt(db, c.newId);
    if c.newId !in db.wallets && !HasWallet(db, c.owner, c.currency) {
      OpenServes(db, c, now);
      assert false;
    }
  }
}
