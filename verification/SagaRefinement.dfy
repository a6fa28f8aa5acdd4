/** The loop of `run` is a behaviour of the saga machine: same writes, same final row. */
module SagaRefinement {
  import opened Base
  import opened Backoff
  import opened TransferStatus
  import opened Saga
  import opened SagaInvariants
  import opened SagaRun

  /** A worker making these choices, undisturbed. */
  function Play(p: Part, w: Id, cs: seq<Choice>, now: Time, maxAttempts: nat): Part {
    if |cs| == 0 then p
    else Advance(Play(p, w, cs[..|cs| - 1], now, maxAttempts), w, cs[|cs| - 1], now, maxAttempts)
  }

  lemma PlayOne(p: Part, w: Id, cs: seq<Choice>, c: Choice, now: Time, maxAttempts: nat)
    ensures Play(p, w, cs + [c], now, maxAttempts) == Advance(Play(p, w, cs, now, maxAttempts), w, c, now, maxAttempts)
  {
    hide Advance;
    assert (cs + [c])[..|cs|] == cs;
  }

  /** Worker `w` holds the lease, has read the current row and stands at `pc`. */
  ghost predicate At(p: Part, w: Id, pc: Pc) {
    w in p.workers && p.workers[w] == Worker(pc, p.row) && p.row.leaseOwner == Some(w)
  }

  /** The answers the script promises have been given. */
  ghost predicate Ready(replies: set<Reply>, sc: Script) {
    && (sc.validate.Ok? ==> Validated(sc.validate.value) in replies)
    && (sc.place.Ok? ==> Placed in replies)
    && (sc.settle.Ok? ==> Settled in replies)
    && (sc.release == Ok(true) ==> AlreadySettled in replies)
    && (sc.release == Ok(false) ==> Released in replies)
  }

  /** `p'` continues `p` with row `row`, the worker having read it and standing at `pc`. */
  ghost predicate Next(p: Part, p': Part, w: Id, row: Row, pc: Pc) {
    At(p', w, pc) && p'.row == row && p'.replies == p.replies
  }

  lemma MoveStep(p: Part, w: Id, now: Time, maxAttempts: nat)
    requires At(p, w, Top) && (p.row.status == Pending || p.row.status == FundsHeld)
    ensures Next(p, Advance(p, w, Proceed, now, maxAttempts), w,
                 Moved(p.row, if p.row.status == Pending then Validating else Processing), Top)
  {
  }

  lemma FailStep(p: Part, w: Id, pc: Pc, f: Failure, now: Time, maxAttempts: nat)
    requires At(p, w, pc) && pc in {Top, AwaitValidate, AwaitPlace, AwaitSettle, AwaitRelease}
    ensures Next(p, Advance(p, w, Fail(f.terminal), now, maxAttempts), w, p.row, Failing(f.terminal))
  {
  }

  lemma HandleStep(p: Part, w: Id, f: Failure, sc: Script, now: Time, maxAttempts: nat)
    requires At(p, w, Failing(f.terminal)) && RowOk(p.row) && p.row.status in {Validating, Processing, Compensating}
    requires p.row.status == Compensating ==> sc.release.Err?
    ensures var p' := Advance(p, w, Proceed, now, maxAttempts);
      || p'.row == AfterFailure(p.row, f, sc, now, maxAttempts)
      || (p.row.status != Compensating && Next(p, p', w, Moved(p.row, Compensating), Top)
          && AfterFailure(p.row, f, sc, now, maxAttempts) == FromCompensating(Moved(p.row, Compensating), sc, now))
  {
    hide RetryDelay;
  }

  lemma AskStep(p: Part, w: Id, now: Time, maxAttempts: nat)
    requires At(p, w, Top)
    requires p.row.status == Compensating || (p.row.status == Processing && p.row.receiver.Some?)
          || (p.row.status == Validating && p.row.receiver.None?)
    ensures Next(p, Advance(p, w, Proceed, now, maxAttempts), w, p.row,
                 if p.row.status == Compensating then AwaitRelease else if p.row.status == Processing then AwaitSettle
                   else AwaitValidate)
  {
  }

  lemma TakeStep(p: Part, w: Id, pc: Pc, reply: Reply, now: Time, maxAttempts: nat)
    requires At(p, w, pc) && reply in p.replies && Received(pc, reply).Some?
    ensures Next(p, Advance(p, w, Take(reply), now, maxAttempts), w, p.row, Received(pc, reply).value)
  {
  }

  lemma FinishStep(p: Part, w: Id, pc: Pc, now: Time, maxAttempts: nat)
    requires At(p, w, pc) && RowOk(p.row)
    requires (pc == SettleDone && p.row.status == Processing) || (pc.ReleaseDone? && p.row.status == Compensating)
    ensures Advance(p, w, Proceed, now, maxAttempts).row
         == if pc == ReleaseDone(false) then GivenUp(p.row) else Done(p.row)
  {
  }

  lemma SaveSteps(p: Part, w: Id, r: Id, now: Time, maxAttempts: nat)
    requires At(p, w, SavingReceiver(r))
    ensures var p1 := Advance(p, w, Proceed, now, maxAttempts);
      Next(p, Advance(p1, w, Proceed, now, maxAttempts), w, Bump(Cleared(p.row).(receiver := Some(r))), CheckFlag)
  {
  }

  lemma CheckStep(p: Part, w: Id, now: Time, maxAttempts: nat)
    requires At(p, w, Top) && p.row.status == Validating && p.row.receiver.Some?
    ensures Next(p, Advance(p, w, Proceed, now, maxAttempts), w, p.row, CheckFlag)
  {
  }

  lemma FlagStep(p: Part, w: Id, now: Time, maxAttempts: nat) returns (cs: seq<Choice>)
    requires At(p, w, CheckFlag)
    ensures Next(p, Play(p, w, cs, now, maxAttempts), w, Flagged(p.row), AwaitPlace)
  {
    hide RetryDelay;
    var p1 := Advance(p, w, Proceed, now, maxAttempts);
    PlayOne(p, w, [], Proceed, now, maxAttempts);
    PlayOne(p, w, [] + [Proceed], Proceed, now, maxAttempts);
    cs := [] + [Proceed] + [Proceed];
    if !p.row.holdMayExist {
      PlayOne(p, w, cs, Proceed, now, maxAttempts);
      cs := cs + [Proceed];
    }
  }

  lemma PlacedStep(p: Part, w: Id, now: Time, maxAttempts: nat)
    requires At(p, w, PlaceDone) && p.row.status == Validating
    ensures Next(p, Advance(p, w, Proceed, now, maxAttempts), w, Moved(p.row, FundsHeld), Top)
  {
  }

  /**
   * The machine at a failure: a forward transfer stays undecided if and only if the failure is
   * retryable and attempts are left. It then waits for its delay without a lease; otherwise it is
   * compensated if a hold may exist, and failed if none can.
   */
  lemma FailureDecides(p: Part, w: Id, terminal: bool, now: Time, maxAttempts: nat)
    requires At(p, w, Failing(terminal)) && RowOk(p.row) && !Decided(p.row.status)
    ensures var row := Advance(p, w, Proceed, now, maxAttempts).row;
      && (!Decided(row.status) <==> !terminal && p.row.retryCount + 1 < maxAttempts)
      && (!Decided(row.status) ==>
            && row.status == p.row.status && row.retryCount == p.row.retryCount + 1 && row.leaseOwner == None
            && (forall at :: Claimable(row, at) <==> now + RetryDelay(row.retryCount) <= at))
      && (Decided(row.status) ==> row.status == if p.row.holdMayExist then Compensating else Failed)
  {
    hide RetryDelay;
  }

  // ------------------------------------------------------------- whole phases

  lemma {:induction false} PlayOn(p: Part, w: Id, a: seq<Choice>, b: seq<Choice>, now: Time, maxAttempts: nat)
    ensures Play(Play(p, w, a, now, maxAttempts), w, b, now, maxAttempts) == Play(p, w, a + b, now, maxAttempts)
    decreases |b|
  {
    hide Advance;
    if |b| == 0 {
      assert a + b == a;
    } else {
      PlayOn(p, w, a, b[..|b| - 1], now, maxAttempts);
      assert (a + b)[..|a + b| - 1] == a + b[..|b| - 1];
    }
  }

  lemma Single(p: Part, w: Id, c: Choice, now: Time, maxAttempts: nat)
    ensures Play(p, w, [c], now, maxAttempts) == Advance(p, w, c, now, maxAttempts)
  {
    hide Advance;
    PlayOne(p, w, [], c, now, maxAttempts);
    assert [] + [c] == [c];
  }

  lemma SimulateCompensating(p: Part, w: Id, sc: Script, now: Time, maxAttempts: nat) returns (cs: seq<Choice>)
    requires At(p, w, Top) && RowOk(p.row) && p.row.status == Compensating && Ready(p.replies, sc)
    ensures Play(p, w, cs, now, maxAttempts).row == FromCompensating(p.row, sc, now)
  {
    hide Advance, RetryDelay;
    AskStep(p, w, now, maxAttempts);
    var p1 := Advance(p, w, Proceed, now, maxAttempts);
    var c := if sc.release.Err? then Fail(sc.release.error.terminal)
      else Take(if sc.release.value then AlreadySettled else Released);
    var p2 := Advance(p1, w, c, now, maxAttempts);
    if sc.release.Err? {
      FailStep(p1, w, AwaitRelease, sc.release.error, now, maxAttempts);
      HandleStep(p2, w, sc.release.error, sc, now, maxAttempts);
    } else {
      TakeStep(p1, w, AwaitRelease, c.reply, now, maxAttempts);
      FinishStep(p2, w, ReleaseDone(sc.release.value), now, maxAttempts);
    }
    Three(p, w, Proceed, c, Proceed, now, maxAttempts);
    cs := [Proceed, c, Proceed];
  }

  lemma Three(p: Part, w: Id, a: Choice, b: Choice, c: Choice, now: Time, maxAttempts: nat)
    ensures Play(p, w, [a, b, c], now, maxAttempts)
         == Advance(Advance(Advance(p, w, a, now, maxAttempts), w, b, now, maxAttempts), w, c, now, maxAttempts)
  {
    hide Advance;
    PlayOne(p, w, [], a, now, maxAttempts);
    PlayOne(p, w, [] + [a], b, now, maxAttempts);
    PlayOne(p, w, [] + [a] + [b], c, now, maxAttempts);
    assert [] + [a] + [b] + [c] == [a, b, c];
  }

  /** A failure at `pc`, handled, and compensated in the same run if it comes to that. */
  lemma SimulateFailure(p: Part, w: Id, pc: Pc, f: Failure, sc: Script, now: Time, maxAttempts: nat)
    returns (cs: seq<Choice>)
    requires At(p, w, pc) && pc in {Top, AwaitValidate, AwaitPlace, AwaitSettle}
    requires RowOk(p.row) && (p.row.status == Validating || p.row.status == Processing) && Ready(p.replies, sc)
    ensures Play(p, w, cs, now, maxAttempts).row == AfterFailure(p.row, f, sc, now, maxAttempts)
  {
    hide Advance, AfterFailure, FromCompensating, RetryDelay;
    FailStep(p, w, pc, f, now, maxAttempts);
    var p1 := Advance(p, w, Fail(f.terminal), now, maxAttempts);
    HandleStep(p1, w, f, sc, now, maxAttempts);
    var p2 := Advance(p1, w, Proceed, now, maxAttempts);
    Single(p, w, Fail(f.terminal), now, maxAttempts);
    PlayOne(p, w, [Fail(f.terminal)], Proceed, now, maxAttempts);
    cs := [Fail(f.terminal)] + [Proceed];
    if p2.row != AfterFailure(p.row, f, sc, now, maxAttempts) {
      FailureNeedsFlag(p.row, f, sc, now, maxAttempts);
      var rest := SimulateCompensating(p2, w, sc, now, maxAttempts);
      PlayOn(p, w, cs, rest, now, maxAttempts);
      cs := cs + rest;
    }
  }

  lemma FailureNeedsFlag(r: Row, f: Failure, sc: Script, now: Time, maxAttempts: nat)
    requires RowOk(r) && AfterFailure(r, f, sc, now, maxAttempts) == FromCompensating(Moved(r, Compensating), sc, now)
    requires r.status == Validating || r.status == Processing
    ensures RowOk(Moved(r, Compensating))
  {
    hide RetryDelay;
  }

  lemma SimulateProcessing(p: Part, w: Id, sc: Script, now: Time, maxAttempts: nat) returns (cs: seq<Choice>)
    requires At(p, w, Top) && RowOk(p.row) && p.row.status == Processing && Ready(p.replies, sc)
    ensures Play(p, w, cs, now, maxAttempts).row == FromProcessing(p.row, sc, now, maxAttempts)
  {
    hide Advance, AfterFailure;
    AskStep(p, w, now, maxAttempts);
    var p1 := Advance(p, w, Proceed, now, maxAttempts);
    if sc.settle.Err? {
      var rest := SimulateFailure(p1, w, AwaitSettle, sc.settle.error, sc, now, maxAttempts);
      Single(p, w, Proceed, now, maxAttempts);
      PlayOn(p, w, [Proceed], rest, now, maxAttempts);
      cs := [Proceed] + rest;
    } else {
      TakeStep(p1, w, AwaitSettle, Settled, now, maxAttempts);
      FinishStep(Advance(p1, w, Take(Settled), now, maxAttempts), w, SettleDone, now, maxAttempts);
      Three(p, w, Proceed, Take(Settled), Proceed, now, maxAttempts);
      cs := [Proceed, Take(Settled), Proceed];
    }
  }

  lemma SimulateFundsHeld(p: Part, w: Id, sc: Script, now: Time, maxAttempts: nat) returns (cs: seq<Choice>)
    requires At(p, w, Top) && RowOk(p.row) && p.row.status == FundsHeld && Ready(p.replies, sc)
    ensures Play(p, w, cs, now, maxAttempts).row == FromFundsHeld(p.row, sc, now, maxAttempts)
  {
    hide Advance, FromProcessing;
    MoveStep(p, w, now, maxAttempts);
    var rest := SimulateProcessing(Advance(p, w, Proceed, now, maxAttempts), w, sc, now, maxAttempts);
    Single(p, w, Proceed, now, maxAttempts);
    PlayOn(p, w, [Proceed], rest, now, maxAttempts);
    cs := [Proceed] + rest;
  }

  lemma SimulateResolved(p: Part, w: Id, sc: Script, now: Time, maxAttempts: nat) returns (cs: seq<Choice>)
    requires At(p, w, CheckFlag) && RowOk(p.row) && p.row.status == Validating && p.row.receiver.Some?
      && Ready(p.replies, sc)
    ensures Play(p, w, cs, now, maxAttempts).row == FromResolved(p.row, sc, now, maxAttempts)
  {
    hide Advance, AfterFailure, FromFundsHeld;
    var flag := FlagStep(p, w, now, maxAttempts);
    var p1 := Play(p, w, flag, now, maxAttempts);
    if sc.place.Err? {
      var rest := SimulateFailure(p1, w, AwaitPlace, sc.place.error, sc, now, maxAttempts);
      PlayOn(p, w, flag, rest, now, maxAttempts);
      cs := flag + rest;
    } else {
      TakeStep(p1, w, AwaitPlace, Placed, now, maxAttempts);
      var p2 := Advance(p1, w, Take(Placed), now, maxAttempts);
      PlacedStep(p2, w, now, maxAttempts);
      PlayOne(p, w, flag, Take(Placed), now, maxAttempts);
      PlayOne(p, w, flag + [Take(Placed)], Proceed, now, maxAttempts);
      var before := flag + [Take(Placed)] + [Proceed];
      var rest := SimulateFundsHeld(Play(p, w, before, now, maxAttempts), w, sc, now, maxAttempts);
      PlayOn(p, w, before, rest, now, maxAttempts);
      cs := before + rest;
    }
  }

  lemma SimulateValidating(p: Part, w: Id, sc: Script, now: Time, maxAttempts: nat) returns (cs: seq<Choice>)
    requires At(p, w, Top) && RowOk(p.row) && p.row.status == Validating && Ready(p.replies, sc)
    ensures Play(p, w, cs, now, maxAttempts).row == FromValidating(p.row, sc, now, maxAttempts)
  {
    hide Advance, AfterFailure, FromResolved;
    if sc.policy.Some? {
      cs := SimulateFailure(p, w, Top, sc.policy.value, sc, now, maxAttempts);
    } else {
      Single(p, w, Proceed, now, maxAttempts);
      var p1 := Advance(p, w, Proceed, now, maxAttempts);
      if p.row.receiver.Some? {
        CheckStep(p, w, now, maxAttempts);
        var rest := SimulateResolved(p1, w, sc, now, maxAttempts);
        PlayOn(p, w, [Proceed], rest, now, maxAttempts);
        cs := [Proceed] + rest;
      } else {
        AskStep(p, w, now, maxAttempts);
        cs := SimulateResolving(p, p1, w, sc, now, maxAttempts);
      }
    }
  }

  lemma SimulateResolving(p: Part, p1: Part, w: Id, sc: Script, now: Time, maxAttempts: nat) returns (cs: seq<Choice>)
    requires Play(p, w, [Proceed], now, maxAttempts) == p1 && At(p1, w, AwaitValidate) && p1.row == p.row
    requires RowOk(p.row) && p.row.status == Validating && p.row.receiver.None? && Ready(p1.replies, sc)
      && sc.policy.None?
    ensures Play(p, w, cs, now, maxAttempts).row == FromValidating(p.row, sc, now, maxAttempts)
  {
    hide Advance, AfterFailure, FromResolved, Play;
    if sc.validate.Err? {
      var rest := SimulateFailure(p1, w, AwaitValidate, sc.validate.error, sc, now, maxAttempts);
      PlayOn(p, w, [Proceed], rest, now, maxAttempts);
      cs := [Proceed] + rest;
    } else {
      var c := Take(Validated(sc.validate.value));
      TakeStep(p1, w, AwaitValidate, c.reply, now, maxAttempts);
      SaveSteps(Advance(p1, w, c, now, maxAttempts), w, sc.validate.value, now, maxAttempts);
      Three(p1, w, c, Proceed, Proceed, now, maxAttempts);
      var save := [c, Proceed, Proceed];
      PlayOn(p, w, [Proceed], save, now, maxAttempts);
      var rest := SimulateResolved(Play(p1, w, save, now, maxAttempts), w, sc, now, maxAttempts);
      PlayOn(p, w, [Proceed] + save, rest, now, maxAttempts);
      cs := [Proceed] + save + rest;
    }
  }

  /**
   * For every script, a worker of the machine that has leased and read the row can play the run
   * to exactly the row `RunResult` names, once the ledger has given the script's answers.
   */
  lemma RunIsABehaviour(p: Part, w: Id, sc: Script, now: Time, maxAttempts: nat) returns (cs: seq<Choice>)
    requires At(p, w, Top) && RowOk(p.row) && Ready(p.replies, sc)
    ensures Play(p, w, cs, now, maxAttempts).row == RunResult(p.row, sc, now, maxAttempts)
  {
    hide Advance, FromValidating, FromFundsHeld, FromProcessing, FromCompensating;
    match p.row.status
    case Pending =>
      MoveStep(p, w, now, maxAttempts);
      var rest := SimulateValidating(Advance(p, w, Proceed, now, maxAttempts), w, sc, now, maxAttempts);
      Single(p, w, Proceed, now, maxAttempts);
      PlayOn(p, w, [Proceed], rest, now, maxAttempts);
      cs := [Proceed] + rest;
    case Validating => cs := SimulateValidating(p, w, sc, now, maxAttempts);
    case FundsHeld => cs := SimulateFundsHeld(p, w, sc, now, maxAttempts);
    case Processing => cs := SimulateProcessing(p, w, sc, now, maxAttempts);
    case Compensating => cs := SimulateCompensating(p, w, sc, now, maxAttempts);
    case _ => cs := [];
  }
}
