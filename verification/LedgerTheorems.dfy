/** What holds of the ledger after every interleaving of concurrent sessions. */
module LedgerTheorems {
  import opened Base
  import opened WalletAggregate
  import opened LedgerDb
  import opened LedgerProperties
  import opened LedgerSessions
  import Conservation

  /** The tables after some interleaving. */
  function DbAfter(steps: seq<Step>): Db {
    Run(INITIAL, steps).db
  }

  lemma DbAfterInv(steps: seq<Step>)
    ensures Inv(DbAfter(steps))
  {
    hide Run, Inv, Serial, LogEffective;
    RunKeepsLedger(steps);
  }

  /**
   * No double spend: every wallet's stream is numbered 1..n, replays without error to its row's
   * owner and currency, and has only positive holds that the balance covers.
   */
  lemma NoDoubleSpend(steps: seq<Step>, id: Id)
    requires id in DbAfter(steps).wallets
    ensures var s := LoadStream(DbAfter(steps).events, id);
      && Rehydrate(id, s).Ok?
      && Solvent(Rehydrate(id, s).value)
      && Rehydrate(id, s).value.version == |s|
      && (forall i :: 0 <= i < |s| ==> s[i].version == i + 1)
  {
    hide Run, LoadStream, Rehydrate;
    DbAfterInv(steps);
    assert WalletConsistent(DbAfter(steps), id);
    ReplaySolvent(id, LoadStream(DbAfter(steps).events, id));
  }

  /** The projection table is the replay of every stream: same wallets, same four numbers. */
  lemma ProjectionRefinesReplay(steps: seq<Step>, id: Id)
    ensures DbAfter(steps).projections.Keys == DbAfter(steps).wallets.Keys
    ensures id in DbAfter(steps).wallets ==>
      var r := Rehydrate(id, LoadStream(DbAfter(steps).events, id));
      && r.Ok?
      && DbAfter(steps).projections[id]
         == Projection(r.value.balance, Held(r.value), r.value.balance - Held(r.value), r.value.version)
  {
    hide Run, LoadStream, Rehydrate, HeldOver;
    DbAfterInv(steps);
    if id in DbAfter(steps).wallets {
      assert WalletConsistent(DbAfter(steps), id);
    }
  }

  lemma SettlementIsExactlyOnce(steps: seq<Step>, t: Id)
    ensures SettledExactlyOnce(DbAfter(steps), t)
  {
    hide Run, SettledExactlyOnce;
    DbAfterInv(steps);
  }

  lemma EveryCurrencyConserves(steps: seq<Step>, c: Currency)
    ensures Conservation.TotalBalance(DbAfter(steps), c) + Conservation.TotalExternal(DbAfter(steps), c) == 0
  {
    hide Run, Inv, Conservation.TotalBalance, Conservation.TotalExternal;
    DbAfterInv(steps);
    Conservation.CurrencyConserves(DbAfter(steps), c);
  }

  lemma StepHoldStep(l: Ledger, step: Step, w: Id, k: Id)
    requires LedgerInv(l)
    ensures HoldStep(HoldOf(l.db, w, k), HoldOf(Do(l, step).db, w, k))
    ensures forall t :: t in l.db.receipts ==>
      t in Do(l, step).db.receipts && Do(l, step).db.receipts[t] == l.db.receipts[t]
  {
    hide HoldOf, Inv, Serial, LogEffective, SnapshotsArePrefixes, AnswersTrue, Attempt, LoadStream;
    if step.Commit? && step.sid in l.sessions && Do(l, step).db != l.db {
      AttemptIsSerial(l, step.sid, step.now);
      CommandHoldStep(l.db, l.sessions[step.sid].command, step.now, w, k);
      forall t | t in l.db.receipts
        ensures t in Do(l, step).db.receipts && Do(l, step).db.receipts[t] == l.db.receipts[t]
      {
        CommandReceipts(l.db, l.sessions[step.sid].command, step.now, t);
      }
    }
  }

  /** Nothing is reverted: an ended hold and a receipt stay as they are in every continuation. */
  lemma {:induction false} OutcomesAreFinal(before: seq<Step>, more: seq<Step>, w: Id, k: Id)
    ensures var h, h' := HoldOf(DbAfter(before), w, k), HoldOf(DbAfter(before + more), w, k);
      && (h.Some? ==> h'.Some? && h'.value.amount == h.value.amount)
      && (h.Some? && h.value.status != Active ==> h' == h)
    ensures forall t :: t in DbAfter(before).receipts ==>
      t in DbAfter(before + more).receipts && DbAfter(before + more).receipts[t] == DbAfter(before).receipts[t]
    decreases |more|
  {
    hide HoldOf, Do, LedgerInv;
    if |more| == 0 {
      assert before + more == before;
    } else {
      var front, last := more[..|more| - 1], more[|more| - 1];
      var all := before + more;
      assert all[..|all| - 1] == before + front;
      OutcomesAreFinal(before, front, w, k);
      RunKeepsLedger(before + front);
      StepHoldStep(Run(INITIAL, before + front), last, w, k);
    }
  }

  // ------------------------------------------------------- sessions are atomic

  lemma StepKeepsWallets(l: Ledger, step: Step, id: Id)
    requires LedgerInv(l) && id in l.db.wallets
    ensures id in Do(l, step).db.wallets && Do(l, step).db.wallets[id] == l.db.wallets[id]
  {
    hide HoldOf, Inv, Serial, LogEffective, SnapshotsArePrefixes, AnswersTrue, Attempt, LoadStream;
    if step.Commit? && step.sid in l.sessions && Do(l, step).db != l.db {
      AttemptIsSerial(l, step.sid, step.now);
      WalletsKept(l.db, l.sessions[step.sid].command, step.now, id);
    }
  }

  /** Whatever others do, a session keeps its command and what it has read, and its wallet its row. */
  lemma {:induction false} SessionWaits(before: seq<Step>, more: seq<Step>, sid: Id, id: Id)
    requires sid in Run(INITIAL, before).sessions && forall i :: 0 <= i < |more| ==> more[i].sid != sid
    ensures var l, l' := Run(INITIAL, before), Run(INITIAL, before + more);
      && sid in l'.sessions && l'.sessions[sid] == l.sessions[sid]
      && (id in l.db.wallets ==> id in l'.db.wallets && l'.db.wallets[id] == l.db.wallets[id])
    decreases |more|
  {
    hide Do, LedgerInv;
    if |more| == 0 {
      assert before + more == before;
    } else {
      var all, last := before + more, more[|more| - 1];
      assert all[..|all| - 1] == before + more[..|more| - 1];
      SessionWaits(before, more[..|more| - 1], sid, id);
      var l := Run(INITIAL, all[..|all| - 1]);
      RunKeepsLedger(all[..|all| - 1]);
      OtherSessions(l, last, sid);
      if id in l.db.wallets { StepKeepsWallets(l, last, id); }
    }
  }

  lemma OtherSessions(l: Ledger, step: Step, sid: Id)
    requires sid in l.sessions && step.sid != sid
    ensures sid in Do(l, step).sessions && Do(l, step).sessions[sid] == l.sessions[sid]
  {
    hide Attempt, LoadStream, CommitAnswers;
  }

  /** Settlements and openings that are accepted always change the tables. */
  lemma SettleOrOpenIsSerial(db: Db, s: Session, now: Time)
    requires Inv(db) && !s.command.Single? && Attempt(db, s, now).Ok?
    requires s.first.Some? ==> s.first.value <= LoadStream(db.events, FirstStream(s.command))
    requires s.second.Some? ==> s.second.value <= LoadStream(db.events, SecondStream(s.command))
    ensures Exec(db, s.command, now) == Attempt(db, s, now)
  {
    hide Inv, LoadStream, SettleAttempt, CommitEvent;
    if s.command.Settle? {
      SettleAttemptIsSerial(db, s.first.value, s.second.value, s.command, now);
    }
  }

  /**
   * Every accepted session is atomic, although its load and its commit are different steps and any
   * other steps come between: either it changed nothing and its command alone would have changed
   * nothing at its load, or it is its command alone at its commit.
   */
  lemma SessionLinearizes(before: seq<Step>, more: seq<Step>, sid: Id, now: Time)
    requires sid in Run(INITIAL, before).sessions && forall i :: 0 <= i < |more| ==> more[i].sid != sid
    requires var l := Run(INITIAL, before);
      l.sessions[sid].command.Single? ==>
        l.sessions[sid].first == Some(LoadStream(l.db.events, FirstStream(l.sessions[sid].command)))
    requires Attempt(Run(INITIAL, before + more).db, Run(INITIAL, before).sessions[sid], now).Ok?
    ensures var loaded, current := Run(INITIAL, before).db, Run(INITIAL, before + more).db;
      var s := Run(INITIAL, before).sessions[sid];
      || (Attempt(current, s, now) == Ok(current) && Exec(loaded, s.command, now) == Ok(loaded))
      || Exec(current, s.command, now) == Attempt(current, s, now)
  {
    hide Run, Inv, Serial, LogEffective, AnswersTrue, Attempt, Exec, LoadStream;
    var l, l' := Run(INITIAL, before), Run(INITIAL, before + more);
    var s := l.sessions[sid];
    RunKeepsLedger(before);
    RunKeepsLedger(before + more);
    SessionWaits(before, more, sid, FirstStream(s.command));
    if !s.command.Single? {
      SettleOrOpenIsSerial(l'.db, s, now);
    } else if Attempt(l'.db, s, now) == Ok(l'.db) {
      SingleNoOp(l.db, l'.db, s, now);
    } else {
      AttemptIsSerial(l', sid, now);
    }
  }

  lemma SingleNoOp(loaded: Db, db: Db, s: Session, now: Time)
    requires Inv(loaded) && Inv(db) && s.command.Single? && s.first == Some(LoadStream(loaded.events, s.command.wallet))
    requires s.command.wallet in loaded.wallets ==>
      s.command.wallet in db.wallets && db.wallets[s.command.wallet] == loaded.wallets[s.command.wallet]
    requires Attempt(db, s, now) == Ok(db)
    ensures Exec(loaded, s.command, now) == Ok(loaded)
  {
    hide LoadStream, Inv, SingleAttempt, Exec;
    NoOpAtLoad(loaded, db, s.command, now);
  }

  /** An answer of the receipt check is the command alone at that step. */
  lemma CheckIsAtomic(l: Ledger, sid: Id, now: Time)
    requires sid in l.sessions && l.sessions[sid].command.Settle? && sid !in Do(l, CheckReceipt(sid)).sessions
    ensures Do(l, CheckReceipt(sid)).db == l.db
    ensures var c := l.sessions[sid].command;
      if TermsPositive(c.terms) && l.db.receipts[c.transfer] == c.terms
      then Exec(l.db, c, now) == Ok(l.db) && SettleSucceeded(c.transfer, c.terms) in Do(l, CheckReceipt(sid)).answers
      else Exec(l.db, c, now).Err?
  {
    hide SettleAttempt, LoadStream;
  }
}
