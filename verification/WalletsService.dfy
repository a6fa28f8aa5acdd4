/**
 * The service's command loops over the ledger tables: load, let other sessions commit, try to
 * commit, retry on a version conflict. `others(k)` is what other sessions commit between the
 * load and the commit of attempt `k`; by serializability it is a list of whole commands.
 */
module WalletsService {
  import opened Base
  import opened WalletAggregate
  import opened LedgerDb
  import opened LedgerInvariants
  import opened LedgerProperties
  import opened LedgerSessions
  import opened BankRefinement
  import opened Refusals

  const MAX_CONCURRENCY_RETRIES := 25

  type Interference = nat -> seq<LogEntry>

  function RunLog(db: Db, log: seq<LogEntry>): Db {
    if |log| == 0 then db
    else After(RunLog(db, log[..|log| - 1]), log[|log| - 1].command, log[|log| - 1].at)
  }

  /** The tables after the first `n` rounds of interference. */
  function AfterRounds(db: Db, others: Interference, n: nat): Db {
    if n == 0 then db else RunLog(AfterRounds(db, others, n - 1), others(n - 1))
  }

  /**
   * A command that succeeded in attempt `attempts`: either it changed the tables as it would have
   * alone at its commit, or it had already been carried out when that attempt loaded its stream.
   */
  ghost predicate CarriedOut(start: Db, others: Interference, attempts: nat, c: Command, now: Time, db: Db)
    requires attempts >= 1
  {
    var loaded, before := AfterRounds(start, others, attempts - 1), AfterRounds(start, others, attempts);
    if db == before then Exec(loaded, c, now) == Ok(loaded) else Exec(before, c, now) == Ok(db)
  }

  lemma {:induction false} RunLogKeepsInv(db: Db, log: seq<LogEntry>)
    requires Inv(db)
    ensures Inv(RunLog(db, log))
  {
    hide Inv, After;
    if |log| > 0 {
      RunLogKeepsInv(db, log[..|log| - 1]);
      AfterKeepsInv(RunLog(db, log[..|log| - 1]), log[|log| - 1].command, log[|log| - 1].at);
    }
  }

  lemma {:induction false} RunLogExtends(db: Db, log: seq<LogEntry>, id: Id)
    requires Inv(db)
    ensures LoadStream(db.events, id) <= LoadStream(RunLog(db, log).events, id)
    ensures id in db.wallets ==> id in RunLog(db, log).wallets && RunLog(db, log).wallets[id] == db.wallets[id]
    ensures forall t :: t in db.receipts ==>
      t in RunLog(db, log).receipts && RunLog(db, log).receipts[t] == db.receipts[t]
  {
    hide Inv, LoadStream, Exec;
    if |log| > 0 {
      var front, e := log[..|log| - 1], log[|log| - 1];
      var mid := RunLog(db, front);
      RunLogExtends(db, front, id);
      RunLogKeepsInv(db, front);
      if Exec(mid, e.command, e.at).Ok? {
        var added := StreamGrows(mid, e.command, e.at, id);
        if id in mid.wallets { WalletsKept(mid, e.command, e.at, id); }
        forall t | t in mid.receipts
          ensures t in RunLog(db, log).receipts && RunLog(db, log).receipts[t] == mid.receipts[t]
        {
          CommandReceipts(mid, e.command, e.at, t);
        }
      }
    }
  }

  lemma LogFollows(db: Db, log: seq<LogEntry>)
    requires Inv(db)
    ensures WalletsFollow(db, RunLog(db, log))
  {
    hide Inv, RunLog, LoadStream;
    forall id | id in db.wallets
      ensures id in RunLog(db, log).wallets && RunLog(db, log).wallets[id] == db.wallets[id]
    {
      RunLogExtends(db, log, id);
    }
  }

  // ------------------------------------------------------------- what answers mean

  /** The bank of the last load refuses the command for this reason, or a conflict really happened. */
  ghost predicate SingleJust(loaded: Db, current: Db, c: Command, e: LedgerError)
    requires c.Single?
  {
    && (!Conflict(e) ==>
          Serve(View(loaded), c) == Err(e) || (OpenedSince(loaded, current, c.wallet) && e == IdentityMismatch))
    && (e == DuplicateEventId || e == UniqueViolation ==> EventIdUsed(current.events, c.eventId))
    && (e == ExpectedVersion ==> LoadStream(loaded.events, c.wallet) < LoadStream(current.events, c.wallet))
  }

  ghost predicate SettleJust(loaded: Db, current: Db, c: Command, e: LedgerError)
    requires c.Settle?
  {
    && (!Conflict(e) ==>
          || Serve(View(loaded), c) == Err(e)
          || OpenedSince(loaded, current, c.terms.sender) || OpenedSince(loaded, current, c.terms.receiver))
    && (e == ExpectedVersion ==>
          || LoadStream(loaded.events, c.terms.sender) < LoadStream(current.events, c.terms.sender)
          || LoadStream(loaded.events, c.terms.receiver) < LoadStream(current.events, c.terms.receiver))
    && (e == DuplicateEventId ==> !FreshEvents(current, c))
    && (e == UniqueViolation ==> c.transfer in current.receipts || !FreshEvents(current, c))
  }

  /** Nobody else commits anything. */
  ghost predicate Quiet(others: Interference) {
    forall k: nat :: others(k) == []
  }

  /** The answer, and the tables it leaves, are the bank's. */
  ghost predicate AnsweredByBank(start: Db, c: Command, r: Result<(), LedgerError>, db: Db) {
    match Serve(View(start), c)
    case Ok(b) => r.Ok? && View(db) == b
    case Err(e) => r == Err(e) && db == start
  }

  lemma {:induction false} QuietRounds(db: Db, others: Interference, n: nat)
    requires Quiet(others)
    ensures AfterRounds(db, others, n) == db
  {
    if n > 0 { QuietRounds(db, others, n - 1); }
  }

  lemma JustRefused(loaded: Db, db: Db, c: Command, now: Time)
    requires Inv(loaded) && Inv(db) && WalletsFollow(loaded, db) && c.Single?
    requires LoadStream(loaded.events, c.wallet) <= LoadStream(db.events, c.wallet)
    requires SingleAttempt(db, LoadStream(loaded.events, c.wallet), c.wallet, c.owner, c.op, c.eventId, now).Err?
    ensures var stream := LoadStream(loaded.events, c.wallet);
      var e := SingleAttempt(db, stream, c.wallet, c.owner, c.op, c.eventId, now).error;
      && SingleJust(loaded, db, c, e)
      && (e == ExpectedVersion ==> LoadStream(loaded.events, c.wallet) < LoadStream(db.events, c.wallet))
  {
    hide Inv, Serve, View, LoadStream, SingleAttempt;
    SingleRefused(loaded, db, c, now);
  }

  lemma QuietSingle(start: Db, others: Interference, attempts: nat, c: Command, now: Time, r: Result<(), LedgerError>,
    db: Db)
    requires Inv(start) && c.Single? && attempts >= 1 && Quiet(others) && FreshEvents(start, c)
    requires r.Ok? ==> CarriedOut(start, others, attempts, c, now, db)
    requires r.Err? ==> db == AfterRounds(start, others, attempts)
    requires r.Err? ==>
      SingleJust(AfterRounds(start, others, attempts - 1), AfterRounds(start, others, attempts), c, r.error)
    ensures AnsweredByBank(start, c, r, db)
  {
    hide Inv, Exec, Serve, View, LoadStream;
    QuietRounds(start, others, attempts);
    QuietRounds(start, others, attempts - 1);
    if r.Ok? { CommandRefines(start, c, now); }
  }

  /** No receipt is lost or changed. */
  ghost predicate ReceiptsKept(a: Db, b: Db) {
    forall t :: t in a.receipts ==> t in b.receipts && b.receipts[t] == a.receipts[t]
  }

  lemma KeptSelf(db: Db)
    ensures ReceiptsKept(db, db)
  {
  }

  /** What a round of other sessions leaves of an attempt's start. */
  lemma Round(start: Db, db: Db, log: seq<LogEntry>, id: Id)
    requires Inv(db) && ReceiptsKept(start, db)
    ensures Inv(RunLog(db, log)) && ReceiptsKept(start, RunLog(db, log))
    ensures LoadStream(db.events, id) <= LoadStream(RunLog(db, log).events, id)
  {
    hide Inv, RunLog, LoadStream;
    RunLogKeepsInv(db, log);
    RunLogExtends(db, log, id);
  }

  /** What an accepted settlement attempt leaves. */
  lemma SettleCommits(start: Db, db: Db, ss: seq<StoredEvent>, rs: seq<StoredEvent>, c: Command, now: Time)
    requires Inv(db) && ReceiptsKept(start, db) && c.Settle? && SettleAttempt(db, ss, rs, c, now).Ok?
    requires ss <= LoadStream(db.events, c.terms.sender) && rs <= LoadStream(db.events, c.terms.receiver)
    ensures var db' := SettleAttempt(db, ss, rs, c, now).value;
      && Inv(db') && ReceiptsKept(start, db') && Exec(db, c, now) == Ok(db')
      && c.transfer in db'.receipts && db'.receipts[c.transfer] == c.terms
  {
    hide Inv, LoadStream, SettleAttempt, Exec;
    SettleAttemptIsSerial(db, ss, rs, c, now);
    AfterKeepsInv(db, c, now);
    SettleAnswers(db, c, now);
    forall t | t in db.receipts
      ensures t in After(db, c, now).receipts && After(db, c, now).receipts[t] == db.receipts[t]
    {
      CommandReceipts(db, c, now, t);
    }
  }

  lemma RefusedByBank(db: Db, c: Command, e: LedgerError)
    requires c.Settle? && e == InvalidAmount && !TermsPositive(c.terms)
    ensures AnsweredByBank(db, c, Err(e), db)
  {
    hide View;
  }

  lemma FoundByBank(start: Db, others: Interference, rounds: nat, c: Command)
    requires Quiet(others) && c.Settle? && TermsPositive(c.terms)
    requires c.transfer in AfterRounds(start, others, rounds).receipts
    ensures var db := AfterRounds(start, others, rounds);
      AnsweredByBank(start, c, if db.receipts[c.transfer] == c.terms then Ok(()) else Err(SettlementMismatch), db)
  {
    hide AfterRounds, LoadStream, Rehydrate;
    QuietRounds(start, others, rounds);
    ViewAt(start, 0);
  }

  lemma SettleJustRefused(loaded: Db, db: Db, c: Command, now: Time)
    requires Inv(loaded) && Inv(db) && WalletsFollow(loaded, db) && c.Settle? && c.transfer !in loaded.receipts
    requires LoadStream(loaded.events, c.terms.sender) <= LoadStream(db.events, c.terms.sender)
    requires LoadStream(loaded.events, c.terms.receiver) <= LoadStream(db.events, c.terms.receiver)
    requires var ss, rs := LoadStream(loaded.events, c.terms.sender), LoadStream(loaded.events, c.terms.receiver);
      SettleAttempt(db, ss, rs, c, now).Err?
    ensures var ss, rs := LoadStream(loaded.events, c.terms.sender), LoadStream(loaded.events, c.terms.receiver);
      SettleJust(loaded, db, c, SettleAttempt(db, ss, rs, c, now).error)
  {
    hide Inv, Serve, View, LoadStream, SettleAttempt, FreshEvents;
    SettleRefused(loaded, db, c, now);
  }

  /** What one settlement transaction leaves, from the tables of its load and of its commit. */
  ghost predicate OnceDone(loaded: Db, current: Db, c: Command, now: Time, r: Result<(), LedgerError>, db: Db)
    requires c.Settle?
  {
    if c.transfer in loaded.receipts then
      db == loaded && r == if loaded.receipts[c.transfer] == c.terms then Ok(()) else Err(SettlementMismatch)
    else
      match r
      case Ok(_) => Exec(current, c, now) == Ok(db) && c.transfer in db.receipts && db.receipts[c.transfer] == c.terms
      case Err(e) => db == current && SettleJust(loaded, current, c, e) && e != SettlementMismatch
  }

  /** The refusals that `settleTransfer` tries again. */
  predicate Again(r: Result<(), LedgerError>) {
    r == Err(ExpectedVersion) || r == Err(UniqueViolation)
  }

  /** The call changed nothing itself, or carried out exactly its settlement at its last commit. */
  ghost predicate SettleChange(before: Db, transfer: Id, user: Id, terms: Receipt, uuid: nat -> Id, rounds: nat,
    now: Time, r: Result<(), LedgerError>, db: Db)
  {
    || db == before
    || (r.Ok? && rounds >= 2
        && Exec(before, Settle(transfer, user, terms, uuid(rounds - 2), uuid(rounds - 1)), now) == Ok(db))
  }

  /**
   * Why it was refused: an amount that is not positive; another receipt; the reason the bank of the
   * last load gives; or, after all 25 attempts, a conflict that really happened.
   */
  ghost predicate SettleReason(start: Db, others: Interference, transfer: Id, user: Id, terms: Receipt, uuid: nat -> Id,
    rounds: nat, r: Result<(), LedgerError>)
  {
    && rounds <= 2 * MAX_CONCURRENCY_RETRIES
    && (Again(r) ==> rounds == 2 * MAX_CONCURRENCY_RETRIES)
    && (r.Err? && r.error != SettlementMismatch ==>
          if rounds < 2 then r.error == InvalidAmount && !TermsPositive(terms)
          else SettleJust(AfterRounds(start, others, rounds - 1), AfterRounds(start, others, rounds),
                          Settle(transfer, user, terms, uuid(rounds - 2), uuid(rounds - 1)), r.error))
  }

  lemma NoChange(db: Db, transfer: Id, user: Id, terms: Receipt, uuid: nat -> Id, rounds: nat, now: Time,
    r: Result<(), LedgerError>)
    ensures SettleChange(db, transfer, user, terms, uuid, rounds, now, r, db)
  {
  }

  lemma AmountReason(start: Db, others: Interference, transfer: Id, user: Id, terms: Receipt, uuid: nat -> Id)
    requires !TermsPositive(terms)
    ensures SettleReason(start, others, transfer, user, terms, uuid, 0, Err(InvalidAmount))
  {
  }

  lemma FoundReason(start: Db, others: Interference, transfer: Id, user: Id, terms: Receipt, uuid: nat -> Id,
    rounds: nat, r: Result<(), LedgerError>)
    requires rounds <= 2 * MAX_CONCURRENCY_RETRIES && (r.Ok? || r.error == SettlementMismatch)
    ensures SettleReason(start, others, transfer, user, terms, uuid, rounds, r)
  {
    hide AfterRounds, SettleJust;
  }

  /** What one settlement transaction makes of the whole call. */
  lemma OnceMeans(start: Db, others: Interference, transfer: Id, user: Id, terms: Receipt, uuid: nat -> Id, rounds: nat,
    now: Time, r: Result<(), LedgerError>, db: Db)
    requires rounds + 2 <= 2 * MAX_CONCURRENCY_RETRIES
    requires var c := Settle(transfer, user, terms, uuid(rounds), uuid(rounds + 1));
      OnceDone(AfterRounds(start, others, rounds + 1), AfterRounds(start, others, rounds + 2), c, now, r, db)
    ensures r.Ok? ==> transfer in db.receipts && db.receipts[transfer] == terms
    ensures r == Err(SettlementMismatch) ==> transfer in db.receipts && db.receipts[transfer] != terms
    ensures var n := if transfer in AfterRounds(start, others, rounds + 1).receipts then rounds + 1 else rounds + 2;
      && SettleChange(AfterRounds(start, others, n), transfer, user, terms, uuid, n, now, r, db)
      && (!Again(r) || n == 2 * MAX_CONCURRENCY_RETRIES ==>
           SettleReason(start, others, transfer, user, terms, uuid, n, r))
      && (n == rounds + 1 ==> !Again(r))
      && (Again(r) ==> db == AfterRounds(start, others, n))
  {
    hide Exec, SettleJust, AfterRounds;
  }

  lemma NoRounds(db: Db, others: Interference)
    ensures AfterRounds(db, others, 0) == db
  {
  }

  lemma KeptTrans(a: Db, b: Db, c: Db)
    requires ReceiptsKept(a, b) && ReceiptsKept(b, c)
    ensures ReceiptsKept(a, c)
  {
  }

  lemma TwoRounds(db: Db, others: Interference, n: nat)
    ensures AfterRounds(db, others, n + 1) == RunLog(AfterRounds(db, others, n), others(n))
    ensures AfterRounds(db, others, n + 2) == RunLog(AfterRounds(db, others, n + 1), others(n + 1))
  {
  }

  /** Without other sessions the first transaction answers as the bank does, and meets no conflict. */
  lemma OneIsBank(start: Db, others: Interference, c: Command, now: Time, r: Result<(), LedgerError>, db: Db)
    requires Inv(start) && c.Settle? && TermsPositive(c.terms) && c.transfer !in start.receipts
    requires Quiet(others) && FreshEvents(start, c)
    requires OnceDone(AfterRounds(start, others, 1), AfterRounds(start, others, 2), c, now, r, db)
    ensures AnsweredByBank(start, c, r, db) && (r.Err? ==> !Conflict(r.error))
  {
    hide Inv, Exec, Serve, View, AfterRounds, LoadStream, FreshEvents;
    QuietRounds(start, others, 1);
    QuietRounds(start, others, 2);
    if r.Ok? { CommandRefines(start, c, now); }
  }

  /** An opening is refused only when its wallet id or its event id is taken. */
  lemma OpenRefused(db: Db, newId: Id, owner: Id, currency: Currency, eventId: Id, now: Time)
    requires Inv(db) && !HasWallet(db, owner, currency)
    requires OpenAttempt(db, newId, owner, currency, eventId, now).Err?
    ensures newId in db.wallets || EventIdUsed(db.events, eventId)
  {
    hide Inv, LoadStream, CommitEvent, EventIdUsed, HasWallet;
    if newId !in db.wallets && !EventIdUsed(db.events, eventId) {
      var row := WalletRow(owner, currency);
      OpenedView(db, newId, row);
      CreatedAccount(newId, row, eventId, now);
      FreshInOutbox(db, eventId);
      CommitSucceeds(db.(wallets := db.wallets[newId := row]), Empty(newId), WalletCreated(owner, currency), eventId,
        now);
    }
  }

  class WalletsService {
    var db: Db

    constructor ()
      ensures db == EMPTY_DB && Inv(db)
    {
      db := EMPTY_DB;
      EmptyInv();
    }

    /**
     * `executeMoneyCommand` and `executeHoldCommand`. A success that changed something is the
     * command run alone on the tables as they were at its commit; a success that changed nothing
     * had already been carried out at its last load; a refusal changes nothing, and gives the
     * reason the bank of the last load gives, or a conflict that really happened; it gives up on a
     * version conflict only if another session grew the stream in each of the 25 attempts. With
     * nobody else about, it answers as the bank does.
     */
    method ExecuteSingle(c: Command, others: Interference, now: Time)
      returns (r: Result<(), LedgerError>, attempts: nat)
      requires Inv(db) && c.Single?
      modifies this
      ensures Inv(db) && 1 <= attempts <= MAX_CONCURRENCY_RETRIES
      ensures r.Err? ==> db == AfterRounds(old(db), others, attempts)
      ensures r.Ok? ==> CarriedOut(old(db), others, attempts, c, now, db)
      ensures r.Err? ==>
        SingleJust(AfterRounds(old(db), others, attempts - 1), AfterRounds(old(db), others, attempts), c, r.error)
      ensures Quiet(others) && FreshEvents(old(db), c) ==> AnsweredByBank(old(db), c, r, db)
      ensures r == Err(ExpectedVersion) ==>
                && attempts == MAX_CONCURRENCY_RETRIES
                && forall k :: 0 <= k < attempts ==>
                     LoadStream(AfterRounds(old(db), others, k).events, c.wallet)
                     < LoadStream(AfterRounds(old(db), others, k + 1).events, c.wallet)
    {
      hide Inv, LoadStream, SingleAttempt, Exec, Quiet, FreshEvents, AnsweredByBank, SingleJust;
      ghost var start := db;
      attempts := 0;
      while true
        invariant Inv(db) && 0 <= attempts < MAX_CONCURRENCY_RETRIES
        invariant db == AfterRounds(old(db), others, attempts)
        invariant forall k :: 0 <= k < attempts ==>
                     LoadStream(AfterRounds(old(db), others, k).events, c.wallet)
                     < LoadStream(AfterRounds(old(db), others, k + 1).events, c.wallet)
        decreases MAX_CONCURRENCY_RETRIES - attempts
      {
        ghost var loaded := db;
        var stream := LoadStream(db.events, c.wallet);
        RunLogKeepsInv(db, others(attempts));
        RunLogExtends(db, others(attempts), c.wallet);
        LogFollows(db, others(attempts));
        db := RunLog(db, others(attempts));
        attempts := attempts + 1;
        var outcome := SingleAttempt(db, stream, c.wallet, c.owner, c.op, c.eventId, now);
        if outcome.Ok? {
          if outcome.value == db {
            NoOpAtLoad(loaded, db, c, now);
          } else {
            SingleAttemptIsSerial(db, stream, c, now);
            AfterKeepsInv(db, c, now);
          }
          db := outcome.value;
          if Quiet(others) && FreshEvents(start, c) { QuietSingle(start, others, attempts, c, now, Ok(()), db); }
          return Ok(()), attempts;
        }
        JustRefused(loaded, db, c, now);
        if outcome.error != ExpectedVersion || attempts == MAX_CONCURRENCY_RETRIES {
          if Quiet(others) && FreshEvents(start, c) {
            QuietSingle(start, others, attempts, c, now, Err(outcome.error), db);
          }
          return Err(outcome.error), attempts;
        }
      }
    }

    /**
     * `releaseTransferHold`: the answer `true` (already settled) is given only with a receipt in
     * the tables, `false` (released) only after a successful release, and an error only without a
     * receipt. `between` runs after the first receipt check, `last` before the second.
     */
    method ReleaseTransferHold(c: Command, between: seq<LogEntry>, others: Interference, last: seq<LogEntry>, now: Time)
      returns (r: Result<bool, LedgerError>, attempts: nat)
      requires Inv(db) && c.Single? && c.op.ReleaseOp? && c.op.allowMissing
      modifies this
      ensures Inv(db)
      ensures r == Ok(true) ==> c.op.holdId in db.receipts
      ensures r.Err? ==> c.op.holdId !in db.receipts
      ensures r.Err? ==> attempts >= 1
      ensures r.Err? ==>
        var start := RunLog(old(db), between);
        SingleJust(AfterRounds(start, others, attempts - 1), AfterRounds(start, others, attempts), c, r.error)
      ensures r == Ok(false) ==> c.op.holdId !in old(db).receipts
      ensures r == Ok(false) ==> attempts >= 1 && CarriedOut(RunLog(old(db), between), others, attempts, c, now, db)
      ensures r != Ok(false) ==>
        || (r == Ok(true) && db == old(db))
        || db == RunLog(AfterRounds(RunLog(old(db), between), others, attempts), last)
    {
      hide Inv, CarriedOut, AfterRounds, RunLog, SingleJust;
      if c.op.holdId in db.receipts {
        return Ok(true), 0;
      }
      RunLogKeepsInv(db, between);
      db := RunLog(db, between);
      var outcome;
      outcome, attempts := ExecuteSingle(c, others, now);
      match outcome
      case Ok(_) => return Ok(false), attempts;
      case Err(e) =>
        RunLogKeepsInv(db, last);
        db := RunLog(db, last);
        if c.op.holdId in db.receipts {
          return Ok(true), attempts;
        }
        return Err(e), attempts;
    }

    /**
     * `settleTransfer`: success leaves the receipt with exactly the asked terms, whether this call
     * wrote it or found it; a refusal leaves the tables to what the other sessions did, gives the
     * reason the bank of the last load gives, and gives up on a conflict only after 25 attempts.
     * With nobody else about, it answers as the bank does. `others(2k)` runs between the two
     * receipt checks of attempt `k`,
     * `others(2k + 1)` between its loads and its commit; `uuid` supplies the event ids.
     */
    method SettleTransfer(transfer: Id, user: Id, terms: Receipt, uuid: nat -> Id, others: Interference, now: Time)
      returns (r: Result<(), LedgerError>, rounds: nat)
      requires Inv(db)
      modifies this
      ensures Inv(db) && ReceiptsKept(old(db), db)
      ensures r.Ok? ==> transfer in db.receipts && db.receipts[transfer] == terms
      ensures r == Err(SettlementMismatch) ==> transfer in db.receipts && db.receipts[transfer] != terms
      ensures SettleChange(AfterRounds(old(db), others, rounds), transfer, user, terms, uuid, rounds, now, r, db)
      ensures SettleReason(old(db), others, transfer, user, terms, uuid, rounds, r)
      ensures Quiet(others) && FreshEvents(old(db), Settle(transfer, user, terms, uuid(0), uuid(1))) ==>
        AnsweredByBank(old(db), Settle(transfer, user, terms, uuid(0), uuid(1)), r, db)
    {
      hide Inv, RunLog, Exec, ReceiptsKept, Quiet, FreshEvents, AnsweredByBank, SettleJust, Serve, View, AfterRounds,
        OnceDone, SettleChange, SettleReason;
      ghost var start := db;
      ghost var first := Settle(transfer, user, terms, uuid(0), uuid(1));
      KeptSelf(db);
      NoRounds(db, others);
      if !TermsPositive(terms) {
        RefusedByBank(start, first, InvalidAmount);
        NoChange(db, transfer, user, terms, uuid, 0, now, Err(InvalidAmount));
        AmountReason(start, others, transfer, user, terms, uuid);
        return Err(InvalidAmount), 0;
      }
      rounds := 0;
      while true
        invariant Inv(db) && ReceiptsKept(start, db) && rounds < 2 * MAX_CONCURRENCY_RETRIES && rounds % 2 == 0
        invariant db == AfterRounds(start, others, rounds)
        invariant Quiet(others) && FreshEvents(start, first) ==> rounds == 0
        decreases 2 * MAX_CONCURRENCY_RETRIES - rounds
      {
        if transfer in db.receipts {
          r := if db.receipts[transfer] == terms then Ok(()) else Err(SettlementMismatch);
          if Quiet(others) && FreshEvents(start, first) { FoundByBank(start, others, rounds, first); }
          NoChange(db, transfer, user, terms, uuid, rounds, now, r);
          FoundReason(start, others, transfer, user, terms, uuid, rounds, r);
          return r, rounds;
        }
        ghost var before := db;
        var c, found := Settle(transfer, user, terms, uuid(rounds), uuid(rounds + 1)), false;
        r, found := SettleOnce(c, others(rounds), others(rounds + 1), now);
        KeptTrans(start, before, db);
        TwoRounds(start, others, rounds);
        OnceMeans(start, others, transfer, user, terms, uuid, rounds, now, r, db);
        if Quiet(others) && FreshEvents(start, first) {
          OneIsBank(start, others, first, now, r, db);
        }
        if found {
          return r, rounds + 1;
        }
        rounds := rounds + 2;
        if !Again(r) || rounds == 2 * MAX_CONCURRENCY_RETRIES {
          return r, rounds;
        }
      }
    }

    /** One transaction of `settleTransfer`: the receipt check, the loads, and the guarded commit. */
    method SettleOnce(c: Command, toLoad: seq<LogEntry>, toCommit: seq<LogEntry>, now: Time)
      returns (r: Result<(), LedgerError>, found: bool)
      requires Inv(db) && c.Settle? && TermsPositive(c.terms)
      modifies this
      ensures found <==> c.transfer in RunLog(old(db), toLoad).receipts
      ensures Inv(db) && ReceiptsKept(old(db), db)
      ensures OnceDone(RunLog(old(db), toLoad), RunLog(RunLog(old(db), toLoad), toCommit), c, now, r, db)
    {
      hide Inv, LoadStream, SettleAttempt, RunLog, Exec, ReceiptsKept, SettleJust;
      ghost var start := db;
      KeptSelf(db);
      Round(start, db, toLoad, 0);
      db := RunLog(db, toLoad);
      if c.transfer in db.receipts {
        return (if db.receipts[c.transfer] == c.terms then Ok(()) else Err(SettlementMismatch)), true;
      }
      ghost var loaded := db;
      var ss, rs := LoadStream(db.events, c.terms.sender), LoadStream(db.events, c.terms.receiver);
      Round(start, db, toCommit, c.terms.sender);
      Round(start, db, toCommit, c.terms.receiver);
      LogFollows(db, toCommit);
      db := RunLog(db, toCommit);
      var outcome := SettleAttempt(db, ss, rs, c, now);
      if outcome.Err? {
        SettleJustRefused(loaded, db, c, now);
        SettleAttemptErrors(db, ss, rs, c, now);
        return Err(outcome.error), false;
      }
      SettleCommits(start, db, ss, rs, c, now);
      db := outcome.value;
      return Ok(()), false;
    }

    /** `getOrCreateForUser`: the answer is the one wallet of that owner and currency. */
    method GetOrCreateForUser(owner: Id, currency: Currency, newId: Id, eventId: Id, others: seq<LogEntry>, now: Time)
      returns (r: Result<Id, LedgerError>)
      requires Inv(db)
      modifies this
      ensures Inv(db)
      ensures r.Ok? ==> r.value in db.wallets && db.wallets[r.value] == WalletRow(owner, currency)
      ensures r.Ok? ==> forall id :: id in db.wallets && db.wallets[id] == WalletRow(owner, currency) ==> id == r.value
      ensures r.Err? ==> !HasWallet(db, owner, currency)
      ensures
        || db == old(db)
        || db == RunLog(old(db), others)
        || Exec(RunLog(old(db), others), Open(newId, owner, currency, eventId), now) == Ok(db)
      ensures r.Err? ==> db == RunLog(old(db), others) && (newId in db.wallets || EventIdUsed(db.events, eventId))
    {
      hide LoadStream, CommitEvent, CoreInv, ReceiptsInv;
      if HasWallet(db, owner, currency) {
        var id := FindWallet(owner, currency);
        return Ok(id);
      }
      RunLogKeepsInv(db, others);
      db := RunLog(db, others);
      var outcome := OpenAttempt(db, newId, owner, currency, eventId, now);
      if outcome.Ok? {
        var c := Open(newId, owner, currency, eventId);
        assert !HasWallet(db, owner, currency);
        AfterKeepsInv(db, c, now);
        CommitEventEffect(db.(wallets := db.wallets[newId := WalletRow(owner, currency)]),
                          Empty(newId), WalletCreated(owner, currency), eventId, now);
        db := outcome.value;
        OpenedWallet(db, newId, owner, currency);
        UniqueOwner(db, newId);
        return Ok(newId);
      }
      if HasWallet(db, owner, currency) {
        var id := FindWallet(owner, currency);
        return Ok(id);
      }
      OpenRefused(db, newId, owner, currency, eventId, now);
      return Err(outcome.error);
    }

    /** The lookup by owner and currency. */
    method FindWallet(owner: Id, currency: Currency) returns (id: Id)
      requires Inv(db) && HasWallet(db, owner, currency)
      ensures id in db.wallets && db.wallets[id] == WalletRow(owner, currency)
      ensures forall k :: k in db.wallets && db.wallets[k] == WalletRow(owner, currency) ==> k == id
    {
      UniqueOwners(db);
      id :| id in db.wallets && db.wallets[id] == WalletRow(owner, currency);
    }
  }

  lemma UniqueOwners(db: Db)
    requires Inv(db)
    ensures OwnersUnique(db)
  {
  }

  lemma UniqueOwner(db: Db, id: Id)
    requires Inv(db) && id in db.wallets
    ensures forall k :: k in db.wallets && db.wallets[k] == db.wallets[id] ==> k == id
  {
    assert OwnersUnique(db);
  }

  lemma OpenedWallet(db: Db, id: Id, owner: Id, currency: Currency)
    requires id in db.wallets && db.wallets[id] == WalletRow(owner, currency)
    ensures HasWallet(db, owner, currency)
  {
  }

  lemma {:induction false} RehydrateErrors(id: Id, s: seq<StoredEvent>)
    ensures Rehydrate(id, s) != Err(SettlementMismatch)
  {
    if |s| > 0 {
      RehydrateErrors(id, s[..|s| - 1]);
    }
  }

  lemma CommitErrors(db: Db, w: Wallet, p: Payload, eventId: Id, now: Time)
    ensures CommitEvent(db, w, p, eventId, now) != Err(SettlementMismatch)
  {
    hide LatestVersion, EventIdUsed;
  }

  lemma SettleAttemptErrors(db: Db, ss: seq<StoredEvent>, rs: seq<StoredEvent>, c: Command, now: Time)
    requires c.Settle?
    ensures SettleAttempt(db, ss, rs, c, now) != Err(SettlementMismatch)
  {
    hide Rehydrate, CommitEvent;
    RehydrateErrors(c.terms.sender, ss);
    RehydrateErrors(c.terms.receiver, rs);
    if SettleAttempt(db, ss, rs, c, now) == Err(SettlementMismatch) {
      var ws, wr := LoadAggregate(db, c.terms.sender, ss).value, LoadAggregate(db, c.terms.receiver, rs).value;
      var ps := SettlePayloads(ws, wr, c.transfer, c.terms).value;
      CommitErrors(db, ws, ps.0, c.debitId, now);
      CommitErrors(CommitEvent(db, ws, ps.0, c.debitId, now).value, wr, ps.1, c.creditId, now);
      assert false;
    }
  }
}
