/**
 * Concurrent ledger sessions. A command reads its streams in one or more steps and commits in a
 * later one; the steps of all sessions interleave freely, and any session may stop or start over.
 * The commit is guarded by the expected stream version and by the unique keys only.
 */
module LedgerSessions {
  import opened Base
  import opened WalletAggregate
  import opened LedgerDb
  import opened LedgerInvariants
  import opened LedgerProperties

  /** `first` and `second` are the streams loaded so far; `unsettled` records the receipt check. */
  datatype Session = Session(
    command: Command, unsettled: bool, first: Option<seq<StoredEvent>>, second: Option<seq<StoredEvent>>)

  datatype Answer =
    | SettleSucceeded(transfer: Id, terms: Receipt)
    | AlreadySettled(transfer: Id)
    | HoldReleasedAnswer(wallet: Id, holdId: Id)
    | NothingToRelease(wallet: Id, holdId: Id)

  datatype LogEntry = LogEntry(command: Command, at: Time)

  /** `log` lists the commands that changed the tables, in commit order. */
  datatype Ledger = Ledger(db: Db, sessions: map<Id, Session>, log: seq<LogEntry>, answers: set<Answer>)

  datatype Step =
    | Begin(sid: Id, command: Command)
    | CheckReceipt(sid: Id)
    | LoadFirst(sid: Id)
    | LoadSecond(sid: Id)
    | Commit(sid: Id, now: Time)
    | Stop(sid: Id)

  const INITIAL := Ledger(EMPTY_DB, map[], [], {})

  function Fresh(c: Command): Session {
    Session(c, false, None, None)
  }

  /** The stream a command's first load reads. */
  function FirstStream(c: Command): Id {
    match c
    case Single(wallet, _, _, _) => wallet
    case Settle(_, _, terms, _, _) => terms.sender
    case Open(newId, _, _, _) => newId
  }

  function SecondStream(c: Command): Id {
    if c.Settle? then c.terms.receiver else FirstStream(c)
  }

  /** What the commit step of a session yields, decided on what the session has read. */
  function Attempt(db: Db, s: Session, now: Time): Result<Db, LedgerError> {
    match s.command
    case Single(wallet, owner, op, eventId) =>
      if s.first.None? then Err(ExpectedVersion)
      else SingleAttempt(db, s.first.value, wallet, owner, op, eventId, now)
    case Settle(_, _, _, _, _) =>
      if !s.unsettled || s.first.None? || s.second.None? then Err(ExpectedVersion)
      else SettleAttempt(db, s.first.value, s.second.value, s.command, now)
    case Open(newId, owner, currency, eventId) =>
      OpenAttempt(db, newId, owner, currency, eventId, now)
  }

  /** Whether the hold was in the stream the session had loaded. */
  predicate SawHold(s: Session, k: Id) {
    s.first.Some? && Rehydrate(FirstStream(s.command), s.first.value).Ok?
    && k in Rehydrate(FirstStream(s.command), s.first.value).value.holds
  }

  function CommitAnswers(s: Session): set<Answer> {
    match s.command
    case Single(wallet, _, op, _) =>
      if op.ReleaseOp? then
        {if SawHold(s, op.holdId) then HoldReleasedAnswer(wallet, op.holdId) else NothingToRelease(wallet, op.holdId)}
      else {}
    case Settle(transfer, _, terms, _, _) => {SettleSucceeded(transfer, terms)}
    case Open(_, _, _, _) => {}
  }

  /** The receipt check of a settlement, or either receipt check of a transfer release. */
  function AfterCheck(l: Ledger, sid: Id, s: Session): Ledger {
    match s.command
    case Settle(transfer, _, terms, _, _) =>
      if transfer !in l.db.receipts then l.(sessions := l.sessions[sid := s.(unsettled := true)])
      else if l.db.receipts[transfer] == terms && TermsPositive(terms) then
        l.(sessions := l.sessions - {sid}, answers := l.answers + {SettleSucceeded(transfer, terms)})
      else l.(sessions := l.sessions - {sid})
    case Single(_, _, op, _) =>
      if op.ReleaseOp? && op.allowMissing && op.holdId in l.db.receipts then
        l.(sessions := l.sessions - {sid}, answers := l.answers + {AlreadySettled(op.holdId)})
      else l
    case Open(_, _, _, _) => l
  }

  /** A refused attempt may be retried from the start; `Stop` is how it ends instead. */
  function AfterCommit(l: Ledger, sid: Id, s: Session, now: Time): Ledger {
    match Attempt(l.db, s, now)
    case Err(_) => l.(sessions := l.sessions[sid := Fresh(s.command)])
    case Ok(db') =>
      Ledger(db', l.sessions - {sid},
             if db' == l.db then l.log else l.log + [LogEntry(s.command, now)],
             l.answers + CommitAnswers(s))
  }

  function Do(l: Ledger, step: Step): Ledger {
    if step.Begin? then
      if step.sid in l.sessions then l else l.(sessions := l.sessions[step.sid := Fresh(step.command)])
    else if step.sid !in l.sessions then l
    else
      var s := l.sessions[step.sid];
      match step
      case CheckReceipt(sid) => AfterCheck(l, sid, s)
      case LoadFirst(sid) =>
        l.(sessions := l.sessions[sid := s.(first := Some(LoadStream(l.db.events, FirstStream(s.command))))])
      case LoadSecond(sid) =>
        l.(sessions := l.sessions[sid := s.(second := Some(LoadStream(l.db.events, SecondStream(s.command))))])
      case Commit(sid, now) => AfterCommit(l, sid, s, now)
      case Stop(sid) => l.(sessions := l.sessions - {sid})
      case Begin(_, _) => l
  }

  function Run(l: Ledger, steps: seq<Step>): Ledger {
    if |steps| == 0 then l else Do(Run(l, steps[..|steps| - 1]), steps[|steps| - 1])
  }

  /** The logged commands, one after the other, each alone. */
  function Serial(log: seq<LogEntry>): Db {
    if |log| == 0 then EMPTY_DB
    else After(Serial(log[..|log| - 1]), log[|log| - 1].command, log[|log| - 1].at)
  }

  /** Every logged command succeeded when run alone at its place in the log. */
  ghost predicate LogEffective(log: seq<LogEntry>) {
    forall i :: 0 <= i < |log| ==> Exec(Serial(log[..i]), log[i].command, log[i].at).Ok?
  }

  // --------------------------------------------------------------- invariant

  /** What a session has loaded is still the beginning of what the stream holds now. */
  ghost predicate SnapshotsArePrefixes(l: Ledger) {
    forall sid :: sid in l.sessions ==>
      var s := l.sessions[sid];
      && (s.first.Some? ==> s.first.value <= LoadStream(l.db.events, FirstStream(s.command)))
      && (s.second.Some? ==> s.second.value <= LoadStream(l.db.events, SecondStream(s.command)))
  }

  ghost predicate AnswerTrue(db: Db, a: Answer) {
    match a
    case SettleSucceeded(t, terms) => t in db.receipts && db.receipts[t] == terms
    case AlreadySettled(t) => t in db.receipts
    case HoldReleasedAnswer(w, k) => HoldOf(db, w, k).Some? && HoldOf(db, w, k).value.status == Released
    case NothingToRelease(_, _) => true
  }

  ghost predicate AnswersTrue(l: Ledger) {
    forall a :: a in l.answers ==> AnswerTrue(l.db, a)
  }

  ghost predicate LedgerInv(l: Ledger) {
    && Inv(l.db)
    && l.db == Serial(l.log)
    && LogEffective(l.log)
    && SnapshotsArePrefixes(l)
    && AnswersTrue(l)
  }

  // ------------------------------------------------------------------- proof

  /** A guarded commit on a stream read earlier saw the whole stream. */
  lemma GuardMeansCurrent(db: Db, stream: seq<StoredEvent>, w: Wallet, p: Payload, eventId: Id, now: Time)
    requires Inv(db) && w.id in db.wallets
    requires stream <= LoadStream(db.events, w.id) && Rehydrate(w.id, stream) == Ok(w)
    requires LatestVersion(db.events, w.id) == w.version
    ensures stream == LoadStream(db.events, w.id)
  {
    hide LoadStream, Rehydrate, LatestVersion, Inv;
    Replays(db, w.id);
    LatestIsVersion(db.events, w.id);
    ReplaySolvent(w.id, stream);
  }

  lemma CommitGuards(db: Db, w: Wallet, p: Payload, eventId: Id, now: Time)
    requires CommitEvent(db, w, p, eventId, now).Ok?
    ensures w.id in db.wallets && LatestVersion(db.events, w.id) == w.version
  {
  }

  lemma SingleAttemptIsSerial(db: Db, stream: seq<StoredEvent>, c: Command, now: Time)
    requires Inv(db) && c.Single? && stream <= LoadStream(db.events, c.wallet)
    requires var r := SingleAttempt(db, stream, c.wallet, c.owner, c.op, c.eventId, now); r.Ok? && r.value != db
    ensures Exec(db, c, now) == SingleAttempt(db, stream, c.wallet, c.owner, c.op, c.eventId, now)
  {
    hide LoadStream, Rehydrate, CommitEvent, Decide, Inv, LatestVersion;
    var w := Rehydrate(c.wallet, stream).value;
    var p := Decide(w, c.op).value.value;
    ReplaySolvent(c.wallet, stream);
    CommitGuards(db, w, p, c.eventId, now);
    GuardMeansCurrent(db, stream, w, p, c.eventId, now);
  }

  lemma SettleAttemptIsSerial(db: Db, ss: seq<StoredEvent>, rs: seq<StoredEvent>, c: Command, now: Time)
    requires Inv(db) && c.Settle?
    requires ss <= LoadStream(db.events, c.terms.sender) && rs <= LoadStream(db.events, c.terms.receiver)
    requires SettleAttempt(db, ss, rs, c, now).Ok?
    ensures Exec(db, c, now) == SettleAttempt(db, ss, rs, c, now)
  {
    hide LoadStream, Rehydrate, CommitEvent, SettlePayloads, Inv, LatestVersion;
    var ws, wr := Rehydrate(c.terms.sender, ss).value, Rehydrate(c.terms.receiver, rs).value;
    ReplaySolvent(c.terms.sender, ss);
    ReplaySolvent(c.terms.receiver, rs);
    var ps := SettlePayloads(ws, wr, c.transfer, c.terms).value;
    var db1 := CommitEvent(db, ws, ps.0, c.debitId, now).value;
    CommitGuards(db, ws, ps.0, c.debitId, now);
    GuardMeansCurrent(db, ss, ws, ps.0, c.debitId, now);
    CommitGuards(db1, wr, ps.1, c.creditId, now);
    CommitEventEffect(db, ws, ps.0, c.debitId, now);
    CommitEventEffect(db1, wr, ps.1, c.creditId, now);
    CommitEventStreams(db, ws, ps.0, c.debitId, now, wr.id);
    assert LoadStream(db.events, wr.id) + [] == LoadStream(db.events, wr.id);
    SameStreamSameVersion(db, db1, wr.id);
    GuardMeansCurrent(db, rs, wr, ps.1, c.creditId, now);
  }

  lemma SameStreamSameVersion(db: Db, db1: Db, id: Id)
    requires LoadStream(db.events, id) == LoadStream(db1.events, id)
    ensures LatestVersion(db.events, id) == LatestVersion(db1.events, id)
  {
  }

  /** A commit that changes the tables is the same command run alone at that moment. */
  lemma AttemptIsSerial(l: Ledger, sid: Id, now: Time)
    requires LedgerInv(l) && sid in l.sessions
    requires Attempt(l.db, l.sessions[sid], now).Ok? && Attempt(l.db, l.sessions[sid], now).value != l.db
    ensures Exec(l.db, l.sessions[sid].command, now) == Attempt(l.db, l.sessions[sid], now)
  {
    hide LoadStream, SingleAttempt, SettleAttempt, Inv, Serial, LogEffective, AnswersTrue;
    var s := l.sessions[sid];
    match s.command
    case Single(_, _, _, _) => SingleAttemptIsSerial(l.db, s.first.value, s.command, now);
    case Settle(_, _, _, _, _) => SettleAttemptIsSerial(l.db, s.first.value, s.second.value, s.command, now);
    case Open(_, _, _, _) =>
  }

  lemma AnswerStable(db: Db, c: Command, now: Time, a: Answer)
    requires Inv(db) && AnswerTrue(db, a)
    ensures AnswerTrue(After(db, c, now), a)
  {
    hide After, HoldOf, Inv;
    match a
    case SettleSucceeded(t, _) => CommandReceipts(db, c, now, t);
    case AlreadySettled(t) => CommandReceipts(db, c, now, t);
    case HoldReleasedAnswer(w, k) => CommandHoldStep(db, c, now, w, k);
    case NothingToRelease(_, _) =>
  }

  lemma SnapshotsStable(l: Ledger, c: Command, now: Time)
    requires Inv(l.db) && SnapshotsArePrefixes(l)
    ensures SnapshotsArePrefixes(l.(db := After(l.db, c, now)))
  {
    hide LoadStream, Exec, Inv;
    if Exec(l.db, c, now).Ok? {
      var db' := After(l.db, c, now);
      forall sid | sid in l.sessions
        ensures
          var s := l.sessions[sid];
          && (s.first.Some? ==> s.first.value <= LoadStream(db'.events, FirstStream(s.command)))
          && (s.second.Some? ==> s.second.value <= LoadStream(db'.events, SecondStream(s.command)))
      {
        var s := l.sessions[sid];
        var a := StreamGrows(l.db, c, now, FirstStream(s.command));
        var b := StreamGrows(l.db, c, now, SecondStream(s.command));
      }
    }
  }

  lemma LogGrows(log: seq<LogEntry>, e: LogEntry)
    requires LogEffective(log) && Exec(Serial(log), e.command, e.at).Ok?
    ensures LogEffective(log + [e]) && Serial(log + [e]) == After(Serial(log), e.command, e.at)
  {
    hide Exec;
    var log' := log + [e];
    assert log'[..|log|] == log;
    forall i | 0 <= i < |log'| ensures Exec(Serial(log'[..i]), log'[i].command, log'[i].at).Ok? {
      if i < |log| {
        assert log'[..i] == log[..i];
      }
    }
  }

  /** The answers a commit gives are true of the tables it leaves. */
  lemma CommitAnswersTrue(l: Ledger, sid: Id, now: Time, a: Answer)
    requires LedgerInv(l) && sid in l.sessions && Attempt(l.db, l.sessions[sid], now).Ok?
    requires a in CommitAnswers(l.sessions[sid])
    ensures AnswerTrue(Attempt(l.db, l.sessions[sid], now).value, a)
  {
    hide Serial, LogEffective, AnswersTrue, LoadStream, Rehydrate, HoldOf, Inv, SingleAttempt, SettleAttempt;
    var s := l.sessions[sid];
    var db' := Attempt(l.db, s, now).value;
    if s.command.Single? {
      if a.HoldReleasedAnswer? {
        ReleaseAnswerTrue(l.db, s, now);
      }
    } else {
      SettleAttemptIsSerial(l.db, s.first.value, s.second.value, s.command, now);
      SettleAnswers(l.db, s.command, now);
    }
  }

  lemma {:induction false} HoldAlongStream(id: Id, s: seq<StoredEvent>, t: seq<StoredEvent>, k: Id)
    requires s <= t && Rehydrate(id, s).Ok? && Rehydrate(id, t).Ok?
    requires k in Rehydrate(id, s).value.holds
    ensures k in Rehydrate(id, t).value.holds
    ensures Rehydrate(id, s).value.holds[k].status != Active ==>
              Rehydrate(id, t).value.holds[k] == Rehydrate(id, s).value.holds[k]
    decreases |t|
  {
    hide Apply;
    if |s| < |t| {
      var front, e := t[..|t| - 1], t[|t| - 1];
      HoldAlongStream(id, s, front, k);
      if e.payload.WalletCreated? {
        ReplaySolvent(id, front);
        CreatedIsFirst(Rehydrate(id, front).value, e);
      }
      ApplyHoldStep(Rehydrate(id, front).value, e, k);
    } else {
      assert s == t;
    }
  }

  lemma CreatedIsFirst(w: Wallet, e: StoredEvent)
    requires Apply(w, e).Ok? && e.payload.WalletCreated?
    ensures w.version == 0
  {
  }

  lemma ReleaseNoOp(w: Wallet, k: Id)
    requires k in w.holds && ReleaseHold(w, k) == Ok(None)
    ensures w.holds[k].status == Released
  {
  }

  /** A release answers "released" about a hold it saw only if that hold is released for good. */
  lemma ReleaseAnswerTrue(db: Db, s: Session, now: Time)
    requires Inv(db) && s.command.Single? && s.command.op.ReleaseOp? && s.first.Some?
    requires s.first.value <= LoadStream(db.events, s.command.wallet)
    requires Attempt(db, s, now).Ok? && SawHold(s, s.command.op.holdId)
    ensures var h := HoldOf(Attempt(db, s, now).value, s.command.wallet, s.command.op.holdId);
      h.Some? && h.value.status == Released
  {
    hide LoadStream, Rehydrate, CommitEvent, Inv, ReleaseHold;
    var c := s.command;
    var db' := Attempt(db, s, now).value;
    if db' == db {
      var w := Rehydrate(c.wallet, s.first.value).value;
      if Decide(w, c.op).value.Some? {
        CommitEventEffect(db, w, Decide(w, c.op).value.value, c.eventId, now);
        assert false;
      }
      ReleaseNoOp(w, c.op.holdId);
      Replays(db, c.wallet);
      HoldAlongStream(c.wallet, s.first.value, LoadStream(db.events, c.wallet), c.op.holdId);
    } else {
      SingleAttemptIsSerial(db, s.first.value, c, now);
      AttemptSawCurrent(db, s, now);
      ReleaseAnswers(db, c, now);
      CommandHoldStep(db, c, now, c.wallet, c.op.holdId);
    }
  }

  lemma AttemptSawCurrent(db: Db, s: Session, now: Time)
    requires Inv(db) && s.command.Single? && s.first.Some?
    requires s.first.value <= LoadStream(db.events, s.command.wallet)
    requires Attempt(db, s, now).Ok? && Attempt(db, s, now).value != db
    ensures s.first.value == LoadStream(db.events, s.command.wallet)
  {
    hide LoadStream, Rehydrate, CommitEvent, Decide, Inv, LatestVersion;
    var c := s.command;
    var w := Rehydrate(c.wallet, s.first.value).value;
    var p := Decide(w, c.op).value.value;
    ReplaySolvent(c.wallet, s.first.value);
    CommitGuards(db, w, p, c.eventId, now);
    GuardMeansCurrent(db, s.first.value, w, p, c.eventId, now);
  }

  lemma CommitKeepsLedger(l: Ledger, sid: Id, now: Time)
    requires LedgerInv(l) && sid in l.sessions
    ensures LedgerInv(AfterCommit(l, sid, l.sessions[sid], now))
  {
    hide Serial, LogEffective, LoadStream, HoldOf, Inv, Attempt, AnswerTrue, CommitAnswers;
    var s := l.sessions[sid];
    var l' := AfterCommit(l, sid, s, now);
    if Attempt(l.db, s, now).Ok? {
      forall a | a in CommitAnswers(s) ensures AnswerTrue(l'.db, a) {
        CommitAnswersTrue(l, sid, now, a);
      }
      if l'.db != l.db {
        AttemptIsSerial(l, sid, now);
        assert l'.db == After(l.db, s.command, now);
        LogGrows(l.log, LogEntry(s.command, now));
        AfterKeepsInv(l.db, s.command, now);
        SnapshotsStable(l, s.command, now);
        forall a | a in l.answers ensures AnswerTrue(l'.db, a) {
          AnswerStable(l.db, s.command, now, a);
        }
      }
    }
  }

  lemma StepKeepsLedger(l: Ledger, step: Step)
    requires LedgerInv(l)
    ensures LedgerInv(Do(l, step))
  {
    hide Serial, LogEffective, LoadStream, HoldOf, Inv, AfterCommit;
    if step.Commit? && step.sid in l.sessions {
      CommitKeepsLedger(l, step.sid, step.now);
    }
  }

  /**
   * Serializability: after any interleaving of any sessions, the tables are exactly those of the
   * logged commands run one at a time in commit order, each succeeding; the ledger's invariant
   * holds and every answer given so far is still true.
   */
  lemma {:induction false} RunKeepsLedger(steps: seq<Step>)
    ensures LedgerInv(Run(INITIAL, steps))
  {
    hide Do, LedgerInv;
    if |steps| == 0 {
      InitialLedger();
    } else {
      RunKeepsLedger(steps[..|steps| - 1]);
      StepKeepsLedger(Run(INITIAL, steps[..|steps| - 1]), steps[|steps| - 1]);
    }
  }

  lemma InitialLedger()
    ensures LedgerInv(INITIAL)
  {
    EmptyInv();
  }
}
