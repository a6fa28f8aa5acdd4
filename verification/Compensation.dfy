/** Compensation gives the reserved money back, except to a hold that lands too late. */
module Compensation {
  import opened Base
  import opened TransferStatus
  import opened Saga
  import opened SagaInvariants
  import opened TransferSystem
  import opened SagaTheorems
  import SagaSteps
  import W = WalletAggregate
  import L = LedgerDb
  import LI = LedgerInvariants
  import LP = LedgerProperties

  // ------------------------------------------------------ one ledger command

  /** The wallet has an active hold `k`. */
  predicate Reserves(db: L.Db, wallet: Id, k: Id) {
    L.HoldOf(db, wallet, k).Some? && L.HoldOf(db, wallet, k).value.status == W.Active
  }

  /** The command places hold `k` in the wallet, and nothing stands in its way. */
  predicate Lands(db: L.Db, c: L.Command, wallet: Id, k: Id) {
    && c.Single? && c.wallet == wallet && c.op.PlaceOp? && c.op.holdId == k
    && L.HoldOf(db, wallet, k) == None
    && LP.Coverable(db, wallet, c.owner, c.op.amount, c.eventId)
  }

  /** The command is an accepted release or consume of hold `k`. */
  predicate Ends(db: L.Db, c: L.Command, now: Time, wallet: Id, k: Id) {
    && c.Single? && c.wallet == wallet && (c.op.ReleaseOp? || c.op.ConsumeOp?) && c.op.holdId == k
    && L.Exec(db, c, now).Ok?
  }

  /** The command is the accepted settlement of transfer `k` from the wallet. */
  predicate Settles(db: L.Db, c: L.Command, now: Time, wallet: Id, k: Id) {
    c.Settle? && c.terms.sender == wallet && c.transfer == k && k !in db.receipts && L.Exec(db, c, now).Ok?
  }

  lemma LandingReserves(db: L.Db, c: L.Command, now: Time, wallet: Id, k: Id)
    requires L.Inv(db) && L.HoldOf(db, wallet, k) == None
    ensures Reserves(L.After(db, c, now), wallet, k) <==> Lands(db, c, wallet, k)
  {
    hide L.Inv, L.HoldOf, L.Exec, LP.Coverable;
    LP.CommandHoldStep(db, c, now, wallet, k);
    LP.CommandHoldCause(db, c, now, wallet, k);
    if c.Single? && c.wallet == wallet && c.op.PlaceOp? && c.op.holdId == k {
      LP.PlaceAccepted(db, wallet, c.owner, k, c.op.amount, c.eventId, now);
      if L.Exec(db, c, now).Ok? { LP.PlaceAnswers(db, c, now); }
    }
  }

  lemma EndingReleases(db: L.Db, c: L.Command, now: Time, wallet: Id, k: Id)
    requires L.Inv(db) && (Ends(db, c, now, wallet, k) || Settles(db, c, now, wallet, k))
    ensures !Reserves(L.After(db, c, now), wallet, k)
  {
    hide L.Inv, L.HoldOf, L.Exec;
    if c.Settle? {
      LP.SettleAnswers(db, c, now);
      LI.AfterKeepsInv(db, c, now);
      LP.ReceiptMeansConsumed(L.After(db, c, now), k);
    } else if c.op.ReleaseOp? {
      LP.ReleaseAnswers(db, c, now);
    } else {
      LP.ConsumeAnswers(db, c, now);
    }
  }

  /** After a command a hold is active exactly if it just landed, or was active and did not end. */
  lemma CommandReserves(db: L.Db, c: L.Command, now: Time, wallet: Id, k: Id)
    requires L.Inv(db)
    ensures Reserves(L.After(db, c, now), wallet, k) <==>
      || Lands(db, c, wallet, k)
      || (Reserves(db, wallet, k) && !Ends(db, c, now, wallet, k) && !Settles(db, c, now, wallet, k))
  {
    hide L.Inv, L.HoldOf, L.Exec, LP.Coverable;
    LP.CommandHoldStep(db, c, now, wallet, k);
    LP.CommandHoldCause(db, c, now, wallet, k);
    if L.HoldOf(db, wallet, k) == None {
      LandingReserves(db, c, now, wallet, k);
    } else if Ends(db, c, now, wallet, k) || Settles(db, c, now, wallet, k) {
      EndingReleases(db, c, now, wallet, k);
    } else if c.Settle? && c.transfer == k && k in db.receipts && L.Exec(db, c, now).Ok? {
      SettledBefore(db, c, now);
    }
  }

  lemma SettledBefore(db: L.Db, c: L.Command, now: Time)
    requires c.Settle? && c.transfer in db.receipts
    ensures L.After(db, c, now) == db
  {
  }

  // ------------------------------------------------------------ timely steps

  /** The ledger command that a step of the system carries out, if there is one. */
  function CommandIn(s: System, step: Step): Option<L.Command> {
    match step
    case Public(c, _) => if c.Settle? then None else Some(c)
    case Deliver(t, call, d, _) =>
      if t !in s.parts || call !in s.parts[t].calls || call.ValidateCall? || (call.ReleaseCall? && d.checkReceipt)
      then None else Some(CommandOf(t, call, d))
    case _ => None
  }

  function TimeIn(step: Step): Time {
    match step
    case Public(_, now) => now
    case Deliver(_, _, _, now) => now
    case _ => 0
  }

  lemma StepDb(s: System, step: Step)
    ensures Do(s, step).db
         == (match CommandIn(s, step) case None => s.db case Some(c) => L.After(s.db, c, TimeIn(step)))
  {
    hide L.Exec, OrderOk, ShareTaken, BillOk, WithShares, Advance, Spawn, Validates;
  }

  /** A hold is still expected: the flag is stored and no release has been answered. */
  predicate Expects(p: Part) {
    p.row.holdMayExist && Released !in p.replies
  }

  /** Money is reserved for a transfer only while its hold is expected. */
  predicate HoldTimely(db: L.Db, t: Id, p: Part) {
    Expects(p) || !Reserves(db, p.row.order.wallet, t)
  }

  ghost predicate HoldsTimely(s: System) {
    forall t :: t in s.parts ==> HoldTimely(s.db, t, s.parts[t])
  }

  /** The step places the hold of a transfer that does not expect it, by a late call or by a user. */
  predicate Untimely(s: System, step: Step, t: Id) {
    && t in s.parts && !Expects(s.parts[t])
    && CommandIn(s, step).Some? && Lands(s.db, CommandIn(s, step).value, s.parts[t].row.order.wallet, t)
  }

  /** No such placement, and no transfer is created under the id of an active hold of its wallet. */
  ghost predicate Timely(s: System, step: Step) {
    && (forall t :: t in s.parts ==> !Untimely(s, step, t))
    && (step.Create? && Creates(s, step.transfer, step.order) ==> !Reserves(s.db, step.order.wallet, step.transfer))
  }

  /** The guards of `Create`. */
  predicate Creates(s: System, t: Id, o: Order) {
    t !in s.parts && OrderOk(s, o) && !(o.share.Some? && ShareTaken(s, o.share.value))
  }

  ghost predicate TimelyRun(maxAttempts: nat, steps: seq<Step>) {
    forall i :: 0 <= i < |steps| ==> Timely(After(maxAttempts, steps[..i]), steps[i])
  }

  // ------------------------------------------------------- what a step does

  /** How one step may change one transfer, as far as its hold is concerned. */
  lemma StepPart(s: System, step: Step, t: Id)
    requires SystemInv(s) && t in s.parts
    ensures t in Do(s, step).parts
    ensures var p, p' := s.parts[t], Do(s, step).parts[t];
      && p'.row.order == p.row.order
      && (p.row.holdMayExist ==> p'.row.holdMayExist)
      && (CommandIn(s, step).Some? ==> p'.row == p.row)
      && p.replies <= p'.replies
      && (Released in p'.replies && Released !in p.replies ==>
            && CommandIn(s, step).Some? && CommandIn(s, step).value.Single? && CommandIn(s, step).value.op.ReleaseOp?
            && CommandIn(s, step).value.wallet == p.row.order.wallet && CommandIn(s, step).value.op.holdId == t
            && L.Exec(s.db, CommandIn(s, step).value, TimeIn(step)).Ok?)
  {
    hide SystemInv, L.Exec, L.After, OrderOk, ShareTaken, BillOk, WithShares, Advance, Delivered;
    match step
    case Work(u, w, choice, now) =>
      if u in s.parts { SagaSteps.AdvanceShape(s.parts[u], w, choice, now, s.maxAttempts); }
    case Deliver(u, call, d, now) =>
      if u in s.parts && call in s.parts[u].calls { DeliveredPart(s, u, call, d, now, t); }
    case _ =>
  }

  lemma DeliveredPart(s: System, u: Id, call: Call, d: Delivery, now: Time, t: Id)
    requires SystemInv(s) && u in s.parts && call in s.parts[u].calls && t in s.parts
    ensures var s' := Delivered(s, u, call, d, now);
      && t in s'.parts && s'.parts[t].row == s.parts[t].row && s.parts[t].replies <= s'.parts[t].replies
      && (Released in s'.parts[t].replies && Released !in s.parts[t].replies ==>
            && t == u && call.ReleaseCall? && !d.checkReceipt
            && call.order.wallet == s.parts[t].row.order.wallet
            && L.Exec(s.db, CommandOf(u, call, d), now).Ok?)
  {
    hide L.Inv, L.Exec, Validates, HistoryOk, WorkersOk, LedgerOk, OutcomeOk, ReplyOk, L.HoldOf, CommandOf;
    assert PartInv(ViewOf(s.db, u, s.parts[u]), s.parts[u]);
    assert CallOk(s.parts[u], call);
  }

  /** For one transfer: a step leaves it timely exactly when it is not an untimely placement. */
  lemma PartTimelyIff(s: System, step: Step, t: Id)
    requires SystemInv(s) && t in s.parts && HoldTimely(s.db, t, s.parts[t])
    ensures t in Do(s, step).parts
    ensures HoldTimely(Do(s, step).db, t, Do(s, step).parts[t]) <==> !Untimely(s, step, t)
  {
    hide SystemInv, L.Inv, L.Exec, L.After, Do, Lands, Reserves, CommandIn, CommandOf;
    assert L.Inv(s.db) by { LedgerIsSound(s); }
    StepDb(s, step);
    StepPart(s, step, t);
    var p, p' := s.parts[t], Do(s, step).parts[t];
    if CommandIn(s, step).Some? {
      var c := CommandIn(s, step).value;
      CommandReserves(s.db, c, TimeIn(step), p.row.order.wallet, t);
      if Released in p'.replies && Released !in p.replies {
        EndingReleases(s.db, c, TimeIn(step), p.row.order.wallet, t);
        assert !Lands(s.db, c, p.row.order.wallet, t) by { NotAPlace(s.db, c, p.row.order.wallet, t); }
      }
    }
  }

  lemma NotAPlace(db: L.Db, c: L.Command, wallet: Id, k: Id)
    requires c.Single? && !c.op.PlaceOp?
    ensures !Lands(db, c, wallet, k)
  {
  }

  lemma LedgerIsSound(s: System)
    requires SystemInv(s)
    ensures L.Inv(s.db)
  {
  }

  lemma NewParts(s: System, step: Step, t: Id)
    requires t !in s.parts && t in Do(s, step).parts
    ensures step.Create? && step.transfer == t && Creates(s, t, step.order)
    ensures Do(s, step).parts[t] == NewPart(step.order) && Do(s, step).db == s.db
  {
    hide L.Exec, L.After, OrderOk, ShareTaken, BillOk, WithShares, Advance, Spawn, Validates;
  }

  lemma CreatedPart(s: System, t: Id, o: Order)
    requires Creates(s, t, o)
    ensures t in Do(s, Create(t, o)).parts && Do(s, Create(t, o)).parts[t] == NewPart(o)
      && Do(s, Create(t, o)).db == s.db
  {
  }

  /**
   * The exact guard, for every step of the system: the reserved money stays accounted for by
   * transfers that expect it if and only if the step is timely.
   */
  lemma StepTimelyIff(s: System, step: Step)
    requires SystemInv(s) && HoldsTimely(s)
    ensures HoldsTimely(Do(s, step)) <==> Timely(s, step)
  {
    hide SystemInv, Do, Untimely, Reserves, Creates;
    forall t | t in s.parts
      ensures t in Do(s, step).parts && (HoldTimely(Do(s, step).db, t, Do(s, step).parts[t]) <==> !Untimely(s, step, t))
    {
      PartTimelyIff(s, step, t);
    }
    forall t | t in Do(s, step).parts && t !in s.parts
      ensures step.Create? && step.transfer == t && Creates(s, t, step.order)
      ensures Do(s, step).parts[t] == NewPart(step.order) && Do(s, step).db == s.db
    {
      NewParts(s, step, t);
    }
    if step.Create? && Creates(s, step.transfer, step.order) {
      CreatedPart(s, step.transfer, step.order);
      assert step.transfer !in s.parts by { CreatesNew(s, step.transfer, step.order); }
    }
  }

  lemma CreatesNew(s: System, t: Id, o: Order)
    requires Creates(s, t, o)
    ensures t !in s.parts
  {
  }

  lemma NothingIsTimely(maxAttempts: nat)
    ensures HoldsTimely(Initial(maxAttempts))
  {
  }

  /** Over runs: every state on the way is timely if and only if every step is. */
  lemma {:induction false} RunTimelyIff(maxAttempts: nat, steps: seq<Step>)
    ensures TimelyRun(maxAttempts, steps) <==>
      forall i :: 0 <= i <= |steps| ==> HoldsTimely(After(maxAttempts, steps[..i]))
  {
    hide Do, SystemInv, HoldsTimely, Timely;
    if |steps| == 0 {
      NothingIsTimely(maxAttempts);
    } else {
      var front, n := steps[..|steps| - 1], |steps| - 1;
      assert forall i :: 0 <= i <= n ==> front[..i] == steps[..i];
      assert steps[..n + 1] == steps;
      RunTimelyIff(maxAttempts, front);
      RunKeeps(maxAttempts, front);
      if HoldsTimely(After(maxAttempts, front)) {
        StepTimelyIff(After(maxAttempts, front), steps[n]);
      }
    }
  }

  // ------------------------------------------------- the fate of a failed hold

  /** Step `i` of the run places hold `k` in the wallet. */
  ghost predicate LandsAt(maxAttempts: nat, steps: seq<Step>, i: int, wallet: Id, k: Id)
    requires 0 <= i < |steps|
  {
    var s := After(maxAttempts, steps[..i]);
    CommandIn(s, steps[i]).Some? && Lands(s.db, CommandIn(s, steps[i]).value, wallet, k)
  }

  /** Step `i` of the run is an accepted release or consume of hold `k`. */
  ghost predicate EndsAt(maxAttempts: nat, steps: seq<Step>, i: int, wallet: Id, k: Id)
    requires 0 <= i < |steps|
  {
    var s := After(maxAttempts, steps[..i]);
    CommandIn(s, steps[i]).Some? && Ends(s.db, CommandIn(s, steps[i]).value, TimeIn(steps[i]), wallet, k)
  }

  /** Step `i` places the hold of `t` at a time when `t` does not exist or does not expect it. */
  ghost predicate UntimelyAt(maxAttempts: nat, steps: seq<Step>, i: int, wallet: Id, t: Id)
    requires 0 <= i < |steps|
  {
    var s := After(maxAttempts, steps[..i]);
    LandsAt(maxAttempts, steps, i, wallet, t) && (t in s.parts ==> !Expects(s.parts[t]))
  }

  /** Since step `i` nothing has ended hold `k`. */
  ghost predicate Untouched(maxAttempts: nat, steps: seq<Step>, i: int, wallet: Id, k: Id)
    requires 0 <= i < |steps|
  {
    forall j :: i < j < |steps| ==> !EndsAt(maxAttempts, steps, j, wallet, k)
  }

  lemma PrefixFacts(maxAttempts: nat, steps: seq<Step>, i: int, wallet: Id, k: Id)
    requires 0 <= i < |steps| - 1
    ensures var front := steps[..|steps| - 1];
      && front[..i] == steps[..i] && front[i] == steps[i]
      && (LandsAt(maxAttempts, front, i, wallet, k) <==> LandsAt(maxAttempts, steps, i, wallet, k))
      && (EndsAt(maxAttempts, front, i, wallet, k) <==> EndsAt(maxAttempts, steps, i, wallet, k))
  {
    hide Run, Lands, Ends, CommandIn;
    assert steps[..|steps| - 1][..i] == steps[..i];
  }

  /** An active hold was placed by some step, and nothing has ended it since. */
  lemma {:induction false} ActiveBecause(maxAttempts: nat, steps: seq<Step>, wallet: Id, k: Id) returns (i: int)
    requires Reserves(After(maxAttempts, steps).db, wallet, k)
    ensures 0 <= i < |steps| && LandsAt(maxAttempts, steps, i, wallet, k) && Untouched(maxAttempts, steps, i, wallet, k)
  {
    hide Do, SystemInv, Reserves, Lands, Ends, Settles, CommandIn, L.After;
    if |steps| == 0 {
      assert false by { EmptyReserves(maxAttempts, wallet, k); }
    } else {
      var n := |steps| - 1;
      var s := After(maxAttempts, steps[..n]);
      RunKeeps(maxAttempts, steps[..n]);
      LedgerIsSound(s);
      StepDb(s, steps[n]);
      if CommandIn(s, steps[n]).Some? {
        CommandReserves(s.db, CommandIn(s, steps[n]).value, TimeIn(steps[n]), wallet, k);
      }
      if LandsAt(maxAttempts, steps, n, wallet, k) {
        i := n;
      } else {
        i := ActiveBecause(maxAttempts, steps[..n], wallet, k);
        PrefixFacts(maxAttempts, steps, i, wallet, k);
        forall j | i < j < |steps| ensures !EndsAt(maxAttempts, steps, j, wallet, k) {
          if j < n { PrefixFacts(maxAttempts, steps, j, wallet, k); }
        }
      }
    }
  }

  lemma EmptyReserves(maxAttempts: nat, wallet: Id, k: Id)
    ensures !Reserves(Initial(maxAttempts).db, wallet, k)
  {
  }

  lemma ReceiptsStay(s: System, step: Step, k: Id)
    requires SystemInv(s)
    ensures k in s.db.receipts ==> k in Do(s, step).db.receipts
    ensures CommandIn(s, step).Some? ==>
      forall wallet :: Settles(s.db, CommandIn(s, step).value, TimeIn(step), wallet, k) ==> k in Do(s, step).db.receipts
  {
    hide L.Inv, L.Exec, Do, CommandIn, SystemInv;
    LedgerIsSound(s);
    StepDb(s, step);
    if CommandIn(s, step).Some? {
      var c := CommandIn(s, step).value;
      LP.CommandReceipts(s.db, c, TimeIn(step), k);
      if c.Settle? && L.Exec(s.db, c, TimeIn(step)).Ok? { LP.SettleAnswers(s.db, c, TimeIn(step)); }
    }
  }

  /** A hold that was placed, never ended and never settled is active. */
  lemma {:induction false} StaysActive(maxAttempts: nat, steps: seq<Step>, i: int, wallet: Id, k: Id)
    requires 0 <= i < |steps| && LandsAt(maxAttempts, steps, i, wallet, k)
      && Untouched(maxAttempts, steps, i, wallet, k)
    requires k !in After(maxAttempts, steps).db.receipts
    ensures Reserves(After(maxAttempts, steps).db, wallet, k)
    decreases |steps|
  {
    hide Do, SystemInv, Reserves, Lands, Ends, Settles, CommandIn, L.After;
    var n := |steps| - 1;
    var s := After(maxAttempts, steps[..n]);
    RunKeeps(maxAttempts, steps[..n]);
    LedgerIsSound(s);
    StepDb(s, steps[n]);
    ReceiptsStay(s, steps[n], k);
    if CommandIn(s, steps[n]).Some? {
      CommandReserves(s.db, CommandIn(s, steps[n]).value, TimeIn(steps[n]), wallet, k);
    }
    if i < n {
      PrefixFacts(maxAttempts, steps, i, wallet, k);
      forall j | i < j < n ensures !EndsAt(maxAttempts, steps[..n], j, wallet, k) {
        PrefixFacts(maxAttempts, steps, j, wallet, k);
        assert !EndsAt(maxAttempts, steps, j, wallet, k);
      }
      StaysActive(maxAttempts, steps[..n], i, wallet, k);
      assert !EndsAt(maxAttempts, steps, n, wallet, k);
    }
  }

  /** Failing takes a `released` answer, or a row whose flag was never stored. */
  lemma {:induction false} FailedIsAnswered(maxAttempts: nat, steps: seq<Step>, t: Id)
    requires t in After(maxAttempts, steps).parts && After(maxAttempts, steps).parts[t].row.status == Failed
    ensures !Expects(After(maxAttempts, steps).parts[t])
  {
    hide Do, SystemInv;
    if |steps| == 0 {
      assert false;
    } else {
      var n := |steps| - 1;
      var s := After(maxAttempts, steps[..n]);
      RunKeeps(maxAttempts, steps[..n]);
      if t !in s.parts {
        NewParts(s, steps[n], t);
        assert false;
      }
      StepPart(s, steps[n], t);
      if s.parts[t].row.status == Failed {
        FailedIsAnswered(maxAttempts, steps[..n], t);
        TerminalStays(s, steps[n], t);
      } else {
        StepFails(s, steps[n], t);
      }
    }
  }

  lemma StepFails(s: System, step: Step, t: Id)
    requires SystemInv(s) && t in s.parts && s.parts[t].row.status != Failed
    requires t in Do(s, step).parts && Do(s, step).parts[t].row.status == Failed
    ensures !Expects(Do(s, step).parts[t])
  {
    hide L.Inv, L.Exec, L.After, OrderOk, ShareTaken, BillOk, WithShares, Advance, Delivered, PartInv;
    if step.Deliver? && step.transfer in s.parts {
      DeliveredKeepsRows(s, step.transfer, step.call, step.delivery, step.now, t);
    }
    if step.Work? && step.transfer == t {
      AdvanceFails(ViewOf(s.db, t, s.parts[t]), s.parts[t], step.worker, step.choice, step.now, s.maxAttempts);
    }
  }

  /** A worker fails a transfer only after a `released` answer or while the flag is not stored. */
  lemma AdvanceFails(v: View, p: Part, w: Id, choice: Choice, now: Time, maxAttempts: nat)
    requires PartInv(v, p)
    ensures var p' := Advance(p, w, choice, now, maxAttempts);
      && p'.replies == p.replies
      && (p'.row.status == Failed && p.row.status != Failed ==> !Expects(p'))
  {
    hide Advance, HistoryOk, MessagesOk, LedgerOk, OutcomeOk;
    SagaSteps.AdvanceShape(p, w, choice, now, maxAttempts);
    if w in p.workers && Holds(p, w, p.workers[w].snap) {
      var snap := p.workers[w].snap;
      assert SnapOk(p, snap) && PcOk(v, p, p.workers[w]);
      HeldSnapIsCurrent(p, w, snap) by { SagaSteps.PartHistory(v, p); }
    }
  }

  /** A hold that existed before any release was answered is not active after one. */
  lemma {:induction false} ReleaseEndsIt(maxAttempts: nat, steps: seq<Step>, i: int, t: Id)
    requires 0 <= i <= |steps| && t in After(maxAttempts, steps[..i]).parts
    requires var s := After(maxAttempts, steps[..i]);
      Released !in s.parts[t].replies && L.HoldOf(s.db, s.parts[t].row.order.wallet, t).Some?
    ensures var s, s' := After(maxAttempts, steps[..i]), After(maxAttempts, steps);
      && t in s'.parts && s'.parts[t].row.order == s.parts[t].row.order
      && L.HoldOf(s'.db, s.parts[t].row.order.wallet, t).Some?
      && (s.parts[t].row.holdMayExist ==> s'.parts[t].row.holdMayExist)
      && (Released in s'.parts[t].replies ==> !Reserves(s'.db, s.parts[t].row.order.wallet, t))
    decreases |steps|
  {
    hide Do, SystemInv, L.HoldOf, CommandIn, L.After, LP.Coverable, L.Exec;
    var wallet := After(maxAttempts, steps[..i]).parts[t].row.order.wallet;
    if i == |steps| {
      assert steps[..i] == steps;
    } else {
      var n := |steps| - 1;
      var s := After(maxAttempts, steps[..n]);
      assert steps[..n][..i] == steps[..i];
      ReleaseEndsIt(maxAttempts, steps[..n], i, t);
      RunKeeps(maxAttempts, steps[..n]);
      LedgerIsSound(s);
      StepDb(s, steps[n]);
      StepPart(s, steps[n], t);
      if CommandIn(s, steps[n]).Some? {
        var c := CommandIn(s, steps[n]).value;
        LP.CommandHoldStep(s.db, c, TimeIn(steps[n]), wallet, t);
        CommandReserves(s.db, c, TimeIn(steps[n]), wallet, t);
      }
    }
  }

  // ------------------------------------------------------------------ theorems

  /**
   * When compensation fails to give the money back, exactly: a failed transfer has an active hold
   * if and only if the hold was placed while the transfer did not expect it, before its flag was
   * stored or after a release was answered, and no release or consume of it has landed since.
   */
  lemma FailedReservesIff(maxAttempts: nat, steps: seq<Step>, t: Id)
    requires t in After(maxAttempts, steps).parts && After(maxAttempts, steps).parts[t].row.status == Failed
    ensures var s := After(maxAttempts, steps);
      var wallet := s.parts[t].row.order.wallet;
      Reserves(s.db, wallet, t) <==>
        exists i :: 0 <= i < |steps| && UntimelyAt(maxAttempts, steps, i, wallet, t)
          && Untouched(maxAttempts, steps, i, wallet, t)
  {
    hide Run, LandsAt, Untouched, Reserves;
    var s := After(maxAttempts, steps);
    var wallet := s.parts[t].row.order.wallet;
    CrossServiceAgreement(maxAttempts, steps, t);
    if Reserves(s.db, wallet, t) {
      var i := ActiveBecause(maxAttempts, steps, wallet, t);
      LandedUntimely(maxAttempts, steps, i, t);
    }
    if i :|
      && 0 <= i < |steps|
      && UntimelyAt(maxAttempts, steps, i, wallet, t) && Untouched(maxAttempts, steps, i, wallet, t)
    {
      StaysActive(maxAttempts, steps, i, wallet, t);
    }
  }

  /** A hold that a failed transfer expected when it was placed has been released by now. */
  lemma LandedUntimely(maxAttempts: nat, steps: seq<Step>, i: int, t: Id)
    requires t in After(maxAttempts, steps).parts && After(maxAttempts, steps).parts[t].row.status == Failed
    requires 0 <= i < |steps| && LandsAt(maxAttempts, steps, i, After(maxAttempts, steps).parts[t].row.order.wallet, t)
    requires Reserves(After(maxAttempts, steps).db, After(maxAttempts, steps).parts[t].row.order.wallet, t)
    ensures UntimelyAt(maxAttempts, steps, i, After(maxAttempts, steps).parts[t].row.order.wallet, t)
  {
    hide Do, SystemInv, CommandIn, Lands, Reserves, L.HoldOf;
    var before := After(maxAttempts, steps[..i]);
    if t in before.parts && Expects(before.parts[t]) {
      OrderStays(maxAttempts, steps, i, t);
      var wallet := before.parts[t].row.order.wallet;
      RunKeeps(maxAttempts, steps[..i]);
      var after := After(maxAttempts, steps[..i + 1]);
      assert steps[..i + 1][..i] == steps[..i];
      LandedHold(before, steps[i], t, wallet);
      ReleaseEndsIt(maxAttempts, steps, i + 1, t);
      FailedIsAnswered(maxAttempts, steps, t);
      assert false;
    }
  }

  /** The step that places a hold answers no release. */
  lemma LandedHold(s: System, step: Step, t: Id, wallet: Id)
    requires SystemInv(s) && t in s.parts && Expects(s.parts[t]) && wallet == s.parts[t].row.order.wallet
    requires CommandIn(s, step).Some? && Lands(s.db, CommandIn(s, step).value, wallet, t)
    ensures var s' := Do(s, step);
      t in s'.parts && Expects(s'.parts[t]) && s'.parts[t].row.order.wallet == wallet
        && L.HoldOf(s'.db, wallet, t).Some?
  {
    hide SystemInv, Do, L.Inv, L.Exec, L.HoldOf, CommandIn, LP.Coverable;
    LedgerIsSound(s);
    StepDb(s, step);
    StepPart(s, step, t);
    CommandReserves(s.db, CommandIn(s, step).value, TimeIn(step), wallet, t);
  }

  lemma {:induction false} OrderStays(maxAttempts: nat, steps: seq<Step>, i: int, t: Id)
    requires 0 <= i <= |steps| && t in After(maxAttempts, steps[..i]).parts
    ensures t in After(maxAttempts, steps).parts
    ensures After(maxAttempts, steps).parts[t].row.order == After(maxAttempts, steps[..i]).parts[t].row.order
    decreases |steps|
  {
    hide Do, SystemInv;
    if i == |steps| {
      assert steps[..i] == steps;
    } else {
      var n := |steps| - 1;
      assert steps[..n][..i] == steps[..i];
      OrderStays(maxAttempts, steps[..n], i, t);
      RunKeeps(maxAttempts, steps[..n]);
      StepPart(After(maxAttempts, steps[..n]), steps[n], t);
    }
  }

  /** Step `i` of the run is an accepted consume of hold `k`. */
  ghost predicate ConsumesAt(maxAttempts: nat, steps: seq<Step>, i: int, wallet: Id, k: Id)
    requires 0 <= i < |steps|
  {
    EndsAt(maxAttempts, steps, i, wallet, k) && CommandIn(After(maxAttempts, steps[..i]), steps[i]).value.op.ConsumeOp?
  }

  ghost predicate IsConsumed(db: L.Db, wallet: Id, k: Id) {
    L.HoldOf(db, wallet, k).Some? && L.HoldOf(db, wallet, k).value.status == W.Consumed
  }

  /** One command: a hold is consumed by consuming it or by its transfer's settlement, for good. */
  lemma CommandConsumes(db: L.Db, c: L.Command, now: Time, wallet: Id, k: Id)
    requires L.Inv(db)
    ensures (Ends(db, c, now, wallet, k) && c.op.ConsumeOp?) || IsConsumed(db, wallet, k) ==>
      IsConsumed(L.After(db, c, now), wallet, k)
    ensures IsConsumed(L.After(db, c, now), wallet, k) ==>
      IsConsumed(db, wallet, k) || (Ends(db, c, now, wallet, k) && c.op.ConsumeOp?) || Settles(db, c, now, wallet, k)
  {
    hide L.Inv, L.HoldOf, L.Exec;
    LP.CommandHoldStep(db, c, now, wallet, k);
    LP.CommandHoldCause(db, c, now, wallet, k);
    if Ends(db, c, now, wallet, k) && c.op.ConsumeOp? {
      LP.ConsumeAnswers(db, c, now);
    }
    if c.Settle? && c.transfer in db.receipts {
      SettledBefore(db, c, now);
    }
  }

  lemma {:induction false} ConsumedIff(maxAttempts: nat, steps: seq<Step>, wallet: Id, k: Id)
    requires k !in After(maxAttempts, steps).db.receipts
    ensures IsConsumed(After(maxAttempts, steps).db, wallet, k) <==>
      exists i :: 0 <= i < |steps| && ConsumesAt(maxAttempts, steps, i, wallet, k)
  {
    hide Do, SystemInv, IsConsumed, Ends, Settles, CommandIn, L.After;
    if |steps| == 0 {
      EmptyConsumes(maxAttempts, wallet, k);
    } else {
      var n := |steps| - 1;
      var s, front := After(maxAttempts, steps[..n]), steps[..n];
      RunKeeps(maxAttempts, front);
      LedgerIsSound(s);
      StepDb(s, steps[n]);
      ReceiptsStay(s, steps[n], k);
      ConsumedIff(maxAttempts, front, wallet, k);
      if CommandIn(s, steps[n]).Some? {
        CommandConsumes(s.db, CommandIn(s, steps[n]).value, TimeIn(steps[n]), wallet, k);
      }
      forall i | 0 <= i < n
        ensures ConsumesAt(maxAttempts, front, i, wallet, k) <==> ConsumesAt(maxAttempts, steps, i, wallet, k)
      {
        PrefixFacts(maxAttempts, steps, i, wallet, k);
      }
      if IsConsumed(s.db, wallet, k) {
        var i :| 0 <= i < n && ConsumesAt(maxAttempts, front, i, wallet, k);
        assert ConsumesAt(maxAttempts, steps, i, wallet, k);
      } else if IsConsumed(After(maxAttempts, steps).db, wallet, k) {
        assert ConsumesAt(maxAttempts, steps, n, wallet, k);
      }
    }
  }

  lemma EmptyConsumes(maxAttempts: nat, wallet: Id, k: Id)
    ensures !IsConsumed(Initial(maxAttempts).db, wallet, k)
  {
  }

  /**
   * Compensation restores the funds: in every timely run a failed transfer reserves nothing and
   * has moved no money. Its hold is absent or released, unless a user consumed it.
   */
  lemma FailedReservesNothing(maxAttempts: nat, steps: seq<Step>, t: Id)
    requires TimelyRun(maxAttempts, steps)
    requires t in After(maxAttempts, steps).parts && After(maxAttempts, steps).parts[t].row.status == Failed
    ensures var s := After(maxAttempts, steps);
      var wallet := s.parts[t].row.order.wallet;
      var h := L.HoldOf(s.db, wallet, t);
      && (h.None? || h.value.status == W.Released <==>
            !exists i :: 0 <= i < |steps| && ConsumesAt(maxAttempts, steps, i, wallet, t))
      && !Reserves(s.db, wallet, t)
      && L.Debits(s.db.events, t) == [] && L.Credits(s.db.events, t) == []
  {
    hide Run, TimelyRun, L.HoldOf, L.Debits, L.Credits, ConsumesAt;
    RunTimelyIff(maxAttempts, steps);
    assert steps[..|steps|] == steps;
    FailedIsAnswered(maxAttempts, steps, t);
    CrossServiceAgreement(maxAttempts, steps, t);
    OutcomeIsTheMoney(maxAttempts, steps, t);
    var s := After(maxAttempts, steps);
    assert HoldTimely(s.db, t, s.parts[t]);
    ConsumedIff(maxAttempts, steps, s.parts[t].row.order.wallet, t);
  }

  /**
   * The late call: when a `placeHold` of a failed transfer lands on a wallet without that hold,
   * the failed transfer ends up with an active hold if and only if the wallet can cover it.
   */
  lemma LatePlaceReserves(s: System, t: Id, d: Delivery, now: Time)
    requires SystemInv(s) && t in s.parts && s.parts[t].row.status == Failed
    requires PlaceCall(s.parts[t].row.order) in s.parts[t].calls
    requires L.HoldOf(s.db, s.parts[t].row.order.wallet, t) == None
    ensures var o := s.parts[t].row.order;
      var s' := Do(s, Deliver(t, PlaceCall(o), d, now));
      && t in s'.parts && s'.parts[t].row.status == Failed
      && (L.HoldOf(s'.db, o.wallet, t) == Some(W.Hold(o.amount, W.Active)) <==>
           LP.Coverable(s.db, o.wallet, o.user, o.amount, d.first))
  {
    hide L.HoldOf, PartInv, L.Inv, Do, LP.Coverable;
    var o := s.parts[t].row.order;
    var step := Deliver(t, PlaceCall(o), d, now);
    StepDb(s, step);
    StepPart(s, step, t);
    LandingReserves(s.db, CommandOf(t, PlaceCall(o), d), now, o.wallet, t);
    LP.CommandHoldCause(s.db, CommandOf(t, PlaceCall(o), d), now, o.wallet, t);
  }
}
