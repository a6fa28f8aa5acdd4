/**
 * The race between settling and releasing a placed hold. A release that loaded the stream before
 * the hold was placed can still answer `released` for want of a hold; nothing else can.
 */
module ReleaseRace {
  import opened Base
  import opened WalletAggregate
  import opened LedgerDb
  import opened LedgerProperties
  import opened LedgerSessions
  import opened LedgerTheorems

  /** A release of hold `k` in wallet `w`. */
  predicate Releases(c: Command, w: Id, k: Id) {
    c.Single? && c.wallet == w && c.op.ReleaseOp? && c.op.holdId == k
  }

  /**
   * An open release that may answer without a hold: it tolerates a missing one, its owner and its
   * stream are in order, and the stream it loaded does not have the hold.
   */
  predicate Blind(l: Ledger, sid: Id, w: Id, k: Id) {
    && sid in l.sessions
    && var s := l.sessions[sid];
    && Releases(s.command, w, k) && s.command.op.allowMissing
    && w in l.db.wallets && l.db.wallets[w].owner == s.command.owner
    && s.first.Some? && s.first.value != [] && !SawHold(s, k)
  }

  /** The hold is placed, and no open release is blind to it. */
  ghost predicate Placed(l: Ledger, w: Id, k: Id) {
    HoldOf(l.db, w, k).Some? && forall sid :: !Blind(l, sid, w, k)
  }

  /** The answers that one step gives, repeated ones included. */
  function Given(l: Ledger, step: Step): set<Answer> {
    Do(l.(answers := {}), step).answers
  }

  lemma GivenIsAdded(l: Ledger, step: Step)
    ensures Do(l, step).answers == l.answers + Given(l, step)
  {
    hide Attempt, CommitAnswers, LoadStream;
  }

  // ------------------------------------------------------------ blind sessions

  lemma CreatedIsFirst(w: Wallet, e: StoredEvent)
    requires Apply(w, e).Ok? && w.version > 0
    ensures Apply(w, e).value.owner == w.owner && Apply(w, e).value.currency == w.currency
  {
  }

  /** A non-empty beginning of a replayable stream replays, to the same identity. */
  lemma {:induction false} PrefixReplays(id: Id, s: seq<StoredEvent>, t: seq<StoredEvent>)
    requires s <= t && s != [] && Rehydrate(id, t).Ok?
    ensures Rehydrate(id, s).Ok?
    ensures Rehydrate(id, s).value.owner == Rehydrate(id, t).value.owner
    ensures Rehydrate(id, s).value.currency == Rehydrate(id, t).value.currency
    decreases |t|
  {
    hide Apply, Solvent;
    if |s| == |t| {
      assert s == t;
    } else {
      var front := t[..|t| - 1];
      PrefixReplays(id, s, front);
      ReplaySolvent(id, front);
      CreatedIsFirst(Rehydrate(id, front).value, t[|t| - 1]);
    }
  }

  /** The commit of a blind session answers `released`. */
  lemma BlindAnswers(l: Ledger, sid: Id, w: Id, k: Id, now: Time)
    requires LedgerInv(l) && Blind(l, sid, w, k)
    ensures NothingToRelease(w, k) in Given(l, Commit(sid, now))
  {
    hide LoadStream, Rehydrate, Inv, Serial, LogEffective, AnswersTrue, CommitEvent;
    var s := l.sessions[sid];
    assert WalletConsistent(l.db, w) by { InvIsCore(l.db); }
    PrefixReplays(w, s.first.value, LoadStream(l.db.events, w));
    assert Attempt(l.db, s, now) == Ok(l.db);
  }

  /** And only that of a blind session does. */
  lemma AnswerNeedsBlind(l: Ledger, step: Step, w: Id, k: Id)
    requires NothingToRelease(w, k) in Given(l, step)
    ensures Blind(l, step.sid, w, k)
  {
    hide LoadStream, CommitEvent, SettleAttempt, OpenAttempt, CommitSettlement, SettlePayloads;
  }

  /** With the hold placed, no session turns blind: every later load sees the hold. */
  lemma StepKeepsPlaced(l: Ledger, step: Step, w: Id, k: Id)
    requires LedgerInv(l) && Placed(l, w, k)
    ensures Placed(Do(l, step), w, k)
  {
    hide LedgerInv, Attempt, CommitAnswers, LoadStream, Rehydrate;
    StepHoldStep(l, step, w, k);
    WalletOfHold(l, w, k);
    StepKeepsWallets(l, step, w);
    forall sid ensures !Blind(Do(l, step), sid, w, k) {
      assert !Blind(l, sid, w, k);
    }
  }

  lemma WalletOfHold(l: Ledger, w: Id, k: Id)
    requires LedgerInv(l) && HoldOf(l.db, w, k).Some?
    ensures w in l.db.wallets
  {
    hide Inv, HoldOf, Serial, LogEffective;
    if w !in l.db.wallets { UnknownWalletHasNoHold(l.db, w, k); }
  }

  lemma {:induction false} RunKeepsPlaced(before: seq<Step>, more: seq<Step>, w: Id, k: Id)
    requires Placed(Run(INITIAL, before), w, k)
    ensures Placed(Run(INITIAL, before + more), w, k)
    ensures NothingToRelease(w, k) in Run(INITIAL, before + more).answers ==>
      NothingToRelease(w, k) in Run(INITIAL, before).answers
    decreases |more|
  {
    hide Do, LedgerInv, HoldOf, Blind, Given;
    if |more| == 0 {
      assert before + more == before;
    } else {
      var all := before + more;
      assert all[..|all| - 1] == before + more[..|more| - 1];
      RunKeepsPlaced(before, more[..|more| - 1], w, k);
      RunKeepsLedger(all[..|all| - 1]);
      var l, last := Run(INITIAL, all[..|all| - 1]), more[|more| - 1];
      StepKeepsPlaced(l, last, w, k);
      GivenIsAdded(l, last);
      if NothingToRelease(w, k) in Given(l, last) { AnswerNeedsBlind(l, last, w, k); }
    }
  }

  // ------------------------------------------------------------------ theorems

  /**
   * Exactly when a placed hold can still be answered `released` for want of it, in some
   * continuation: when an open release is blind to it.
   */
  lemma EmptyReleaseIff(before: seq<Step>, w: Id, k: Id)
    requires HoldOf(Run(INITIAL, before).db, w, k).Some?
    ensures (exists more, next :: NothingToRelease(w, k) in Given(Run(INITIAL, before + more), next)) <==>
      exists sid :: Blind(Run(INITIAL, before), sid, w, k)
  {
    hide Run, Do, LedgerInv, HoldOf, Blind, Given;
    RunKeepsLedger(before);
    if sid :| Blind(Run(INITIAL, before), sid, w, k) {
      BlindAnswers(Run(INITIAL, before), sid, w, k, 0);
      assert before + [] == before;
      assert NothingToRelease(w, k) in Given(Run(INITIAL, before + []), Commit(sid, 0));
    } else {
      forall more, next ensures NothingToRelease(w, k) !in Given(Run(INITIAL, before + more), next) {
        RunKeepsPlaced(before, more, w, k);
        if NothingToRelease(w, k) in Given(Run(INITIAL, before + more), next) {
          AnswerNeedsBlind(Run(INITIAL, before + more), next, w, k);
        }
      }
    }
  }

  /**
   * The settle/release race, from any state in which the hold is placed and over every
   * continuation. No release answers `released` without having seen the hold, so each `released`
   * given from then on is a `HoldReleasedAnswer`; that answer and a receipt on the wallet exclude
   * each other, and every answer given agrees with the hold and the receipts.
   */
  lemma SettleReleaseRace(before: seq<Step>, more: seq<Step>, next: Step, t: Id, w: Id)
    requires Placed(Run(INITIAL, before), w, t)
    ensures var l, l' := Run(INITIAL, before), Run(INITIAL, before + more);
      var h := HoldOf(l'.db, w, t);
      && h.Some?
      && NothingToRelease(w, t) !in Given(l', next)
      && (NothingToRelease(w, t) in l'.answers ==> NothingToRelease(w, t) in l.answers)
      && (HoldReleasedAnswer(w, t) in l'.answers ==> h.value.status == Released)
      && (t in l'.db.receipts && l'.db.receipts[t].sender == w ==> h.value.status == Consumed)
      && (AlreadySettled(t) in l'.answers ==> t in l'.db.receipts)
      && (forall terms :: SettleSucceeded(t, terms) in l'.answers ==>
            t in l'.db.receipts && l'.db.receipts[t] == terms)
  {
    hide Run, Do, Given, Blind, Inv, Serial, LogEffective, HoldOf, SnapshotsArePrefixes;
    var l' := Run(INITIAL, before + more);
    RunKeepsPlaced(before, more, w, t);
    if NothingToRelease(w, t) in Given(l', next) { AnswerNeedsBlind(l', next, w, t); }
    RunKeepsLedger(before + more);
    if HoldReleasedAnswer(w, t) in l'.answers {
      assert AnswerTrue(l'.db, HoldReleasedAnswer(w, t));
    }
    if t in l'.db.receipts {
      ReceiptMeansConsumed(l'.db, t);
    }
    if AlreadySettled(t) in l'.answers {
      assert AnswerTrue(l'.db, AlreadySettled(t));
    }
    forall terms | SettleSucceeded(t, terms) in l'.answers
      ensures t in l'.db.receipts && l'.db.receipts[t] == terms
    {
      assert AnswerTrue(l'.db, SettleSucceeded(t, terms));
    }
  }

  // --------------------------------------------------------------- the witness

  lemma RunGrows(steps: seq<Step>, step: Step)
    ensures Run(INITIAL, steps + [step]) == Do(Run(INITIAL, steps), step)
  {
    hide Do;
    assert (steps + [step])[..|steps|] == steps;
  }

  /** A session that has just begun and loaded. */
  lemma Loads(l: Ledger, sid: Id, c: Command)
    requires sid !in l.sessions
    ensures Do(Do(l, Begin(sid, c)), LoadFirst(sid))
         == l.(sessions := l.sessions[sid := Fresh(c).(first := Some(LoadStream(l.db.events, FirstStream(c))))])
  {
    hide LoadStream;
    assert l.sessions[sid := Fresh(c)][sid := Fresh(c).(first := Some(LoadStream(l.db.events, FirstStream(c))))]
        == l.sessions[sid := Fresh(c).(first := Some(LoadStream(l.db.events, FirstStream(c))))];
  }

  lemma FreshStreamIsBlind(l: Ledger, sid: Id, c: Command, k: Id)
    requires LedgerInv(l) && sid in l.sessions && c.Single? && c.wallet in l.db.wallets
    requires c == Single(c.wallet, l.db.wallets[c.wallet].owner, ReleaseOp(k, true), c.eventId)
    requires l.sessions[sid] == Fresh(c).(first := Some(LoadStream(l.db.events, c.wallet)))
    requires HoldOf(l.db, c.wallet, k) == None
    ensures Blind(l, sid, c.wallet, k)
  {
    hide LoadStream, Rehydrate, Inv, Serial, LogEffective, AnswersTrue, SnapshotsArePrefixes;
    assert WalletConsistent(l.db, c.wallet) by { InvIsCore(l.db); }
    EmptyHasNoOwner(c.wallet);
  }

  lemma EmptyHasNoOwner(id: Id)
    ensures Rehydrate(id, []) == Ok(Empty(id)) && Empty(id).owner == None
  {
  }

  /** The commit of a place that loaded the current stream. */
  lemma PlaceCommits(l: Ledger, sid: Id, c: Command, now: Time)
    requires LedgerInv(l) && sid in l.sessions && c.Single? && c.op.PlaceOp?
    requires l.sessions[sid] == Fresh(c).(first := Some(LoadStream(l.db.events, c.wallet)))
    requires HoldOf(l.db, c.wallet, c.op.holdId) == None
    requires Coverable(l.db, c.wallet, c.owner, c.op.amount, c.eventId)
    ensures var l' := Do(l, Commit(sid, now));
      HoldOf(l'.db, c.wallet, c.op.holdId).Some? && l'.sessions == l.sessions - {sid}
      && c.wallet in l'.db.wallets && l'.db.wallets[c.wallet] == l.db.wallets[c.wallet]
  {
    hide LoadStream, Inv, Serial, LogEffective, AnswersTrue, SnapshotsArePrefixes, HoldOf, SingleAttempt, Coverable;
    PlaceAccepted(l.db, c.wallet, c.owner, c.op.holdId, c.op.amount, c.eventId, now);
    PlaceAnswers(l.db, c, now);
    assert c.wallet in l.db.wallets by { CoverableWallet(l.db, c); }
    WalletsKept(l.db, c, now, c.wallet);
  }

  lemma CoverableWallet(db: Db, c: Command)
    requires c.Single? && c.op.PlaceOp? && Coverable(db, c.wallet, c.owner, c.op.amount, c.eventId)
    ensures c.wallet in db.wallets
  {
  }

  /**
   * The release in flight, in every reachable state whose wallet can cover a new hold: a release
   * loads, the hold is placed, and then the release answers `released`, leaving the hold active.
   */
  lemma EmptyReleaseHappens(before: seq<Step>, w: Id, k: Id, amount: int, eventId: Id, r: Id, p: Id)
    returns (more: seq<Step>)
    requires var l := Run(INITIAL, before);
      && HoldOf(l.db, w, k) == None && w in l.db.wallets
      && Coverable(l.db, w, l.db.wallets[w].owner, amount, eventId)
      && r !in l.sessions && p !in l.sessions && r != p
    ensures var l' := Run(INITIAL, before + more);
      HoldOf(l'.db, w, k).Some? && NothingToRelease(w, k) in Given(l', Commit(r, 0))
  {
    hide Run, Do, LedgerInv, HoldOf, Blind, Given, Coverable, LoadStream;
    var l := Run(INITIAL, before);
    var release := Single(w, l.db.wallets[w].owner, ReleaseOp(k, true), eventId);
    var place := Single(w, l.db.wallets[w].owner, PlaceOp(k, amount), eventId);
    var s2 := before + [Begin(r, release)] + [LoadFirst(r)];
    var s4 := s2 + [Begin(p, place)] + [LoadFirst(p)];
    RunGrows(before, Begin(r, release));
    RunGrows(before + [Begin(r, release)], LoadFirst(r));
    Loads(l, r, release);
    RunGrows(s2, Begin(p, place));
    RunGrows(s2 + [Begin(p, place)], LoadFirst(p));
    Loads(Run(INITIAL, s2), p, place);
    RunKeepsLedger(s4);
    FreshStreamIsBlind(Run(INITIAL, s4), r, release, k);
    PlaceCommits(Run(INITIAL, s4), p, place, 0);
    RunGrows(s4, Commit(p, 0));
    RunKeepsLedger(s4 + [Commit(p, 0)]);
    StaysBlind(Run(INITIAL, s4), Run(INITIAL, s4 + [Commit(p, 0)]), r, p, w, k);
    BlindAnswers(Run(INITIAL, s4 + [Commit(p, 0)]), r, w, k, 0);
    more := [Begin(r, release), LoadFirst(r), Begin(p, place), LoadFirst(p), Commit(p, 0)];
    assert before + more == s4 + [Commit(p, 0)];
  }

  lemma StaysBlind(l: Ledger, l': Ledger, r: Id, p: Id, w: Id, k: Id)
    requires Blind(l, r, w, k) && r != p && l'.sessions == l.sessions - {p}
    requires w in l'.db.wallets && l'.db.wallets[w] == l.db.wallets[w]
    ensures Blind(l', r, w, k)
  {
    hide SawHold;
  }
}
