/**
 * `run` as the loop it is, for a run that keeps its lease: what it leaves behind, and why it and a
 * bounded number of its successors end. The ledger's answers are the run's script.
 */
module SagaRun {
  import opened Base
  import opened Backoff
  import opened TransferStatus
  import opened Saga
  import opened SagaInvariants

  datatype Failure = Failure(terminal: bool)

  /** The verdict of the transfer policy and the answer of each ledger call. */
  datatype Script = Script(
    policy: Option<Failure>, validate: Result<Id, Failure>, place: Result<(), Failure>,
    settle: Result<(), Failure>, release: Result<bool, Failure>)

  // ------------------------------------------------------------ specification

  function Bump(r: Row): Row {
    r.(version := r.version + 1)
  }

  function Retried(r: Row, now: Time): Row {
    Bump(Unleased(r).(retryCount := r.retryCount + 1, nextRetryAt := Some(now + RetryDelay(r.retryCount + 1))))
  }

  function Done(r: Row): Row {
    Bump(Unleased(Cleared(r)).(status := Completed))
  }

  function GivenUp(r: Row): Row {
    Bump(Unleased(r).(nextRetryAt := None, status := Failed))
  }

  function Moved(r: Row, s: Status): Row {
    Bump(Cleared(r).(status := s))
  }

  function FromCompensating(r: Row, sc: Script, now: Time): Row {
    match sc.release
    case Err(_) => Retried(r, now)
    case Ok(settled) => if settled then Done(r) else GivenUp(r)
  }

  function AfterFailure(r: Row, f: Failure, sc: Script, now: Time, maxAttempts: nat): Row {
    if r.status == Compensating || (!f.terminal && r.retryCount + 1 < maxAttempts) then Retried(r, now)
    else if r.holdMayExist then FromCompensating(Moved(r, Compensating), sc, now)
    else GivenUp(r)
  }

  function FromProcessing(r: Row, sc: Script, now: Time, maxAttempts: nat): Row {
    if r.receiver.None? then AfterFailure(r, Failure(true), sc, now, maxAttempts)
    else
      match sc.settle
      case Err(f) => AfterFailure(r, f, sc, now, maxAttempts)
      case Ok(_) => Done(r)
  }

  function FromFundsHeld(r: Row, sc: Script, now: Time, maxAttempts: nat): Row {
    FromProcessing(Moved(r, Processing), sc, now, maxAttempts)
  }

  function Flagged(r: Row): Row {
    if r.holdMayExist then r else Bump(r.(holdMayExist := true))
  }

  function FromResolved(r: Row, sc: Script, now: Time, maxAttempts: nat): Row {
    match sc.place
    case Err(f) => AfterFailure(Flagged(r), f, sc, now, maxAttempts)
    case Ok(_) => FromFundsHeld(Moved(Flagged(r), FundsHeld), sc, now, maxAttempts)
  }

  function FromValidating(r: Row, sc: Script, now: Time, maxAttempts: nat): Row {
    if sc.policy.Some? then AfterFailure(r, sc.policy.value, sc, now, maxAttempts)
    else if r.receiver.Some? then FromResolved(r, sc, now, maxAttempts)
    else
      match sc.validate
      case Err(f) => AfterFailure(r, f, sc, now, maxAttempts)
      case Ok(receiver) => FromResolved(Bump(Cleared(r).(receiver := Some(receiver))), sc, now, maxAttempts)
  }

  /** What a run leaves behind, from a row it has leased. */
  function RunResult(r: Row, sc: Script, now: Time, maxAttempts: nat): Row {
    match r.status
    case Pending => FromValidating(Moved(r, Validating), sc, now, maxAttempts)
    case Validating => FromValidating(r, sc, now, maxAttempts)
    case FundsHeld => FromFundsHeld(r, sc, now, maxAttempts)
    case Processing => FromProcessing(r, sc, now, maxAttempts)
    case Compensating => FromCompensating(r, sc, now)
    case Completed => r
    case Failed => r
  }

  function Lease(r: Row, owner: Id, now: Time, leaseMs: nat): Row {
    r.(leaseOwner := Some(owner), leaseUntil := Some(now + leaseMs))
  }

  // ------------------------------------------------------------------- the loop

  class SagaRunner {
    var row: Row
    ghost var history: seq<Row>

    ghost predicate Valid()
      reads this
    {
      && |history| > 0 && history[|history| - 1] == Strip(row)
      && RowOk(row)
      && forall i :: 0 <= i < |history| - 1 ==> Edge(history[i], history[i + 1])
    }

    constructor (order: Order)
      ensures Valid() && row == NewRow(order) && history == [NewRow(order)]
    {
      row := NewRow(order);
      history := [NewRow(order)];
    }

    /** `updateClaimed`. */
    method Update(snap: Row, owner: Id, patched: Row) returns (ok: bool)
      requires Valid()
      modifies this
      ensures !ok || (RowOk(patched) && Edge(Strip(old(row)), Strip(row))) ==> Valid()
      ensures ok <==> old(row).version == snap.version && old(row).leaseOwner == Some(owner)
      ensures ok ==> row == patched.(version := old(row).version + 1) && history == old(history) + [Strip(row)]
      ensures !ok ==> row == old(row) && history == old(history)
    {
      if row.version != snap.version || row.leaseOwner != Some(owner) {
        return false;
      }
      row := patched.(version := row.version + 1);
      history := history + [Strip(row)];
      return true;
    }

    /**
     * `run`: the claim, the loop and its failure handling. A run leaves exactly `RunResult`, every
     * version it stores is an allowed edge, and the step budget is never exhausted.
     */
    method Run(owner: Id, now: Time, leaseMs: nat, sc: Script, maxAttempts: nat) returns (exhausted: bool)
      requires Valid()
      modifies this
      ensures Valid() && old(history) <= history
      ensures !exhausted
      ensures !Claimable(old(row), now) ==> row == old(row)
      ensures Claimable(old(row), now) ==> row == RunResult(Lease(old(row), owner, now, leaseMs), sc, now, maxAttempts)
    {
      hide RetryDelay, AfterFailure, RunResult;
      if !Claimable(row, now) {
        return false;
      }
      row := Lease(row, owner, now, leaseMs);
      var transfer := row;
      ghost var target := RunResult(row, sc, now, maxAttempts);
      var step := 0;
      while step < 8
        invariant Valid() && old(history) <= history
        invariant transfer == row && row.leaseOwner == Some(owner)
        invariant RunResult(row, sc, now, maxAttempts) == target
        invariant step <= Rank(transfer.status) < 5
        decreases 8 - step
      {
        var stop, failure := Act(transfer, owner, now, sc, maxAttempts);
        if stop {
          return false;
        }
        transfer := row;
        if failure.Some? {
          stop := HandleFailure(transfer, owner, failure.value, now, sc, maxAttempts);
          if stop {
            return false;
          }
          transfer := row;
        }
        step := step + 1;
      }
      return true;
    }

    /** The body of the loop's `try`: it ends the run, moves the transfer on, or meets a failure. */
    method Act(snap: Row, owner: Id, now: Time, sc: Script, maxAttempts: nat)
      returns (stop: bool, failure: Option<Failure>)
      requires Valid() && snap == row && row.leaseOwner == Some(owner) && !Terminal(row.status)
      modifies this
      ensures Valid() && old(history) <= history
      ensures stop ==> row == RunResult(old(row), sc, now, maxAttempts)
      ensures !stop ==> row.leaseOwner == Some(owner) && !Terminal(row.status)
      ensures !stop && failure.None? ==>
        && Rank(old(row).status) < Rank(row.status)
        && RunResult(row, sc, now, maxAttempts) == RunResult(old(row), sc, now, maxAttempts)
      ensures !stop && failure.Some? ==>
        && row.status == old(row).status && row.status in {Validating, Processing, Compensating}
        && (row.status == Compensating ==> sc.release.Err?)
        && AfterFailure(row, failure.value, sc, now, maxAttempts) == RunResult(old(row), sc, now, maxAttempts)
    {
      hide RetryDelay, FromValidating;
      stop, failure := false, None;
      match snap.status {
        case Pending =>
          var _ := Update(snap, owner, Cleared(row).(status := Validating));
        case FundsHeld =>
          var _ := Update(snap, owner, Cleared(row).(status := Processing));
        case Validating =>
          failure := Validate(snap, owner, now, sc, maxAttempts);
        case Processing =>
          if snap.receiver.None? {
            failure := Some(Failure(true));
          } else if sc.settle.Err? {
            failure := Some(sc.settle.error);
          } else {
            var _ := Update(snap, owner, Unleased(Cleared(row)).(status := Completed));
            stop := true;
          }
        case Compensating =>
          if sc.release.Err? {
            failure := Some(sc.release.error);
          } else {
            var patched := if sc.release.value then Unleased(Cleared(row)).(status := Completed)
                           else Unleased(row).(nextRetryAt := None, status := Failed);
            var _ := Update(snap, owner, patched);
            stop := true;
          }
        case _ =>
      }
    }

    /** The `Validating` block: resolve, store the flag, place the hold, move on. */
    method Validate(snap: Row, owner: Id, now: Time, sc: Script, maxAttempts: nat) returns (failure: Option<Failure>)
      requires Valid() && snap == row && row.leaseOwner == Some(owner) && row.status == Validating
      modifies this
      ensures Valid() && old(history) <= history
      ensures row.leaseOwner == Some(owner)
      ensures failure.None? ==>
        row.status == FundsHeld
        && RunResult(row, sc, now, maxAttempts) == RunResult(old(row), sc, now, maxAttempts)
      ensures failure.Some? ==>
        row.status == Validating
        && AfterFailure(row, failure.value, sc, now, maxAttempts) == RunResult(old(row), sc, now, maxAttempts)
    {
      hide RetryDelay, AfterFailure, FromFundsHeld;
      if sc.policy.Some? {
        return sc.policy;
      }
      if row.receiver.None? {
        if sc.validate.Err? {
          return Some(sc.validate.error);
        }
        var _ := Update(row, owner, Cleared(row).(receiver := Some(sc.validate.value)));
      }
      if !row.holdMayExist {
        var _ := Update(row, owner, row.(holdMayExist := true));
      }
      if sc.place.Err? {
        return Some(sc.place.error);
      }
      var _ := Update(row, owner, Cleared(row).(status := FundsHeld));
      return None;
    }

    /** `handleFailure`: stop with a retry or a failure, or go on compensating. */
    method HandleFailure(snap: Row, owner: Id, f: Failure, now: Time, sc: Script, maxAttempts: nat) returns (stop: bool)
      requires Valid() && snap == row && row.leaseOwner == Some(owner)
      requires row.status in {Validating, Processing, Compensating}
      requires row.status == Compensating ==> sc.release.Err?
      modifies this
      ensures Valid() && old(history) <= history
      ensures stop ==> row == AfterFailure(old(row), f, sc, now, maxAttempts)
      ensures !stop ==>
        && row == Moved(old(row), Compensating) && Rank(old(row).status) < Rank(Compensating)
        && RunResult(row, sc, now, maxAttempts) == AfterFailure(old(row), f, sc, now, maxAttempts)
    {
      hide RetryDelay;
      if snap.status == Compensating || (!f.terminal && snap.retryCount + 1 < maxAttempts) {
        var _ := Update(snap, owner,
          Unleased(row).(retryCount := snap.retryCount + 1,
            nextRetryAt := Some(now + RetryDelay(snap.retryCount + 1))));
        return true;
      }
      if snap.holdMayExist {
        var _ := Update(snap, owner, Cleared(row).(status := Compensating));
        return false;
      }
      var _ := Update(snap, owner, Unleased(row).(nextRetryAt := None, status := Failed));
      return true;
    }
  }

  // -------------------------------------------------------------- termination

  /** Where the saga needs no more forward runs. */
  predicate Decided(s: Status) {
    s == Completed || s == Failed || s == Compensating
  }

  function Attempts(maxAttempts: nat): nat {
    if maxAttempts == 0 then 1 else maxAttempts
  }

  /** The lexicographic measure (rank, receiver, flag, attempts used), as one number. */
  function Measure(r: Row, maxAttempts: nat): nat {
    Level(r) * Attempts(maxAttempts) + r.retryCount
  }

  function Level(r: Row): nat {
    (Rank(r.status) * 2 + (if r.receiver.Some? then 1 else 0)) * 2 + (if r.holdMayExist then 1 else 0)
  }

  ghost predicate Healthy(r: Row, maxAttempts: nat) {
    RowOk(r) && (Decided(r.status) || r.retryCount < Attempts(maxAttempts))
  }

  /** One of the four components grew and no earlier one shrank. */
  ghost predicate Progress(a: Row, b: Row) {
    || Rank(a.status) < Rank(b.status)
    || (a.status == b.status && a.receiver.None? && b.receiver.Some?)
    || (a.status == b.status && b.receiver == a.receiver && !a.holdMayExist && b.holdMayExist)
    || (a.status == b.status && b.receiver == a.receiver && b.holdMayExist == a.holdMayExist
         && a.retryCount < b.retryCount)
  }

  ghost predicate Monotone(a: Row, b: Row) {
    && Rank(a.status) <= Rank(b.status)
    && (a.receiver.Some? ==> b.receiver == a.receiver)
    && (a.holdMayExist ==> b.holdMayExist)
  }

  lemma FailureProgress(start: Row, r: Row, f: Failure, sc: Script, now: Time, maxAttempts: nat)
    requires Healthy(r, maxAttempts) && !Decided(r.status)
    requires Monotone(start, r) && (start == r || Progress(start, r))
    requires start.status == r.status && start.receiver == r.receiver && start.holdMayExist == r.holdMayExist ==>
      start.retryCount == r.retryCount
    ensures var r' := AfterFailure(r, f, sc, now, maxAttempts);
      && Healthy(r', maxAttempts) && r'.leaseOwner == None
      && (Decided(r'.status) || (Progress(start, r') && Monotone(start, r')))
  {
    hide RetryDelay;
  }

  /**
   * Every run that keeps its lease gives it back, and either decides the transfer or makes
   * lexicographic progress on (status, receiver, hold flag, attempts used).
   */
  lemma RunProgress(r: Row, sc: Script, now: Time, maxAttempts: nat)
    requires Healthy(r, maxAttempts) && !Decided(r.status)
    ensures var r' := RunResult(r, sc, now, maxAttempts);
      && Healthy(r', maxAttempts) && r'.leaseOwner == None
      && (Decided(r'.status) || (Progress(r, r') && Monotone(r, r')))
  {
    hide AfterFailure;
    var v := if r.status == Pending then Moved(r, Validating) else r;
    if v.status == Validating {
      if sc.policy.Some? {
        FailureProgress(r, v, sc.policy.value, sc, now, maxAttempts);
      } else if v.receiver.None? && sc.validate.Err? {
        FailureProgress(r, v, sc.validate.error, sc, now, maxAttempts);
      } else {
        var c := if v.receiver.Some? then v else Bump(Cleared(v).(receiver := Some(sc.validate.value)));
        ResolvedProgress(r, c, sc, now, maxAttempts);
      }
    } else {
      HeldProgress(r, r, sc, now, maxAttempts);
    }
  }

  lemma ResolvedProgress(start: Row, r: Row, sc: Script, now: Time, maxAttempts: nat)
    requires Healthy(r, maxAttempts) && r.status == Validating && r.receiver.Some?
    requires Monotone(start, r) && (start == r || Progress(start, r)) && !Decided(start.status)
    requires start.status == r.status && start.receiver == r.receiver ==> start.retryCount == r.retryCount
    ensures var r' := FromResolved(r, sc, now, maxAttempts);
      && Healthy(r', maxAttempts) && r'.leaseOwner == None
      && (Decided(r'.status) || (Progress(start, r') && Monotone(start, r')))
  {
    hide AfterFailure;
    if sc.place.Err? {
      FailureProgress(start, Flagged(r), sc.place.error, sc, now, maxAttempts);
    } else {
      HeldProgress(start, Moved(Flagged(r), FundsHeld), sc, now, maxAttempts);
    }
  }

  lemma HeldProgress(start: Row, r: Row, sc: Script, now: Time, maxAttempts: nat)
    requires Healthy(r, maxAttempts) && (r.status == FundsHeld || r.status == Processing) && !Decided(start.status)
    requires Monotone(start, r) && (start == r || Rank(start.status) < Rank(r.status))
    ensures var r' := RunResult(r, sc, now, maxAttempts);
      && Healthy(r', maxAttempts) && r'.leaseOwner == None
      && (Decided(r'.status) || (Progress(start, r') && Monotone(start, r')))
  {
    hide AfterFailure;
    var q := if r.status == FundsHeld then Moved(r, Processing) else r;
    if sc.settle.Err? {
      FailureProgress(start, q, sc.settle.error, sc, now, maxAttempts);
    }
  }

  lemma Climb(x: nat, y: nat, a: nat, b: nat, m: nat)
    requires x < y || (x == y && a < b)
    requires a < m && b < m && y <= 15
    ensures x * m + a < y * m + b < 16 * m
  {
    if x < y {
      assert (x + 1) * m <= y * m;
    }
    assert y * m <= 15 * m;
  }

  lemma ProgressRaisesMeasure(a: Row, b: Row, maxAttempts: nat)
    requires Healthy(a, maxAttempts) && Healthy(b, maxAttempts) && !Decided(a.status) && !Decided(b.status)
    requires Progress(a, b) && Monotone(a, b)
    ensures Measure(a, maxAttempts) < Measure(b, maxAttempts) < 16 * Attempts(maxAttempts)
  {
    Climb(Level(a), Level(b), a.retryCount, b.retryCount, Attempts(maxAttempts));
  }

  datatype Attempted = Attempted(owner: Id, now: Time, leaseMs: nat, script: Script)

  /** Runs in sequence, each by a worker of its own. */
  function RunAll(r: Row, runs: seq<Attempted>, maxAttempts: nat): Row {
    if |runs| == 0 then r
    else
      var before := RunAll(r, runs[..|runs| - 1], maxAttempts);
      var a := runs[|runs| - 1];
      if Claimable(before, a.now)
      then RunResult(Lease(before, a.owner, a.now, a.leaseMs), a.script, a.now, maxAttempts) else before
  }

  /** Every run was due and found the row free. */
  ghost predicate AllClaimed(r: Row, runs: seq<Attempted>, maxAttempts: nat) {
    forall i :: 0 <= i < |runs| ==> Claimable(RunAll(r, runs[..i], maxAttempts), runs[i].now)
  }

  lemma {:induction false} RunsClimb(r: Row, runs: seq<Attempted>, maxAttempts: nat)
    requires Healthy(r, maxAttempts) && AllClaimed(r, runs, maxAttempts)
    requires forall i :: 0 <= i <= |runs| ==> !Decided(RunAll(r, runs[..i], maxAttempts).status)
    ensures Healthy(RunAll(r, runs, maxAttempts), maxAttempts)
    ensures |runs| <= Measure(RunAll(r, runs, maxAttempts), maxAttempts)
    ensures |runs| > 0 ==> Measure(RunAll(r, runs, maxAttempts), maxAttempts) < 16 * Attempts(maxAttempts)
  {
    hide RunResult, Measure;
    assert runs[..|runs|] == runs;
    if |runs| > 0 {
      var front, a := runs[..|runs| - 1], runs[|runs| - 1];
      forall i | 0 <= i <= |front| ensures front[..i] == runs[..i] {
      }
      assert AllClaimed(r, front, maxAttempts) by {
        forall i | 0 <= i < |front| ensures Claimable(RunAll(r, front[..i], maxAttempts), front[i].now) {
          assert front[..i] == runs[..i];
        }
      }
      RunsClimb(r, front, maxAttempts);
      var before := RunAll(r, front, maxAttempts);
      assert Claimable(before, a.now) && !Decided(before.status);
      var leased := Lease(before, a.owner, a.now, a.leaseMs);
      RunProgress(leased, a.script, a.now, maxAttempts);
      ProgressRaisesMeasure(leased, RunResult(leased, a.script, a.now, maxAttempts), maxAttempts);
      LeaseDoesNotCount(before, a, maxAttempts);
    } else {
      MeasureIsNat(r, maxAttempts);
    }
  }

  lemma LeaseDoesNotCount(r: Row, a: Attempted, maxAttempts: nat)
    ensures Measure(Lease(r, a.owner, a.now, a.leaseMs), maxAttempts) == Measure(r, maxAttempts)
  {
  }

  lemma MeasureIsNat(r: Row, maxAttempts: nat)
    ensures 0 <= Measure(r, maxAttempts)
  {
  }

  /**
   * Saga termination: among any 16 * max(1, maxAttempts) lease-keeping runs of a new transfer, one
   * leaves it Completed, Failed or Compensating, whatever the ledger answers.
   */
  lemma RunsDecide(order: Order, runs: seq<Attempted>, maxAttempts: nat)
    requires AllClaimed(NewRow(order), runs, maxAttempts)
    requires |runs| >= 16 * Attempts(maxAttempts)
    ensures exists i :: 0 <= i <= |runs| && Decided(RunAll(NewRow(order), runs[..i], maxAttempts).status)
  {
    hide RunAll, Measure;
    if forall i :: 0 <= i <= |runs| ==> !Decided(RunAll(NewRow(order), runs[..i], maxAttempts).status) {
      RunsClimb(NewRow(order), runs, maxAttempts);
      assert false;
    }
  }

  // ------------------------------------------------------- what a failure leads to

  /** The failure that stops a run of a forward transfer, if one does. */
  function FailureMet(r: Row, sc: Script): Option<Failure> {
    var early := r.status == Pending || r.status == Validating;
    if early && sc.policy.Some? then sc.policy
    else if early && r.receiver.None? && sc.validate.Err? then Some(sc.validate.error)
    else if early && sc.place.Err? then Some(sc.place.error)
    else if sc.settle.Err? then Some(sc.settle.error)
    else None
  }

  /** The attempts already counted against the step that fails; a step forward clears them. */
  function SpentBefore(r: Row, sc: Script): nat {
    var stuck :=
      || (r.status == Validating && (sc.policy.Some? || (r.receiver.None? && sc.validate.Err?)))
      || (r.status == Validating && r.receiver.Some? && sc.place.Err?)
      || r.status == Processing;
    if stuck then r.retryCount else 0
  }

  /** Whether the hold flag is stored by the time the run fails. */
  predicate FlagStored(r: Row, sc: Script) {
    r.holdMayExist || (sc.policy.None? && (r.receiver.Some? || sc.validate.Ok?))
  }

  /** The status in which the run fails. */
  function FailsIn(r: Row, sc: Script): Status {
    var early := r.status == Pending || r.status == Validating;
    if early && (sc.policy.Some? || (r.receiver.None? && sc.validate.Err?) || sc.place.Err?) then Validating
    else Processing
  }

  /**
   * Where a failure leads: retryable with attempts left, to a row that waits for its delay in the
   * same status; otherwise to the end of the forward phase, by the ledger's answer to the release
   * if a hold may exist, and by failing if none can.
   */
  ghost predicate LeadsTo(r': Row, f: Failure, status: Status, spent: nat, flagged: bool, sc: Script, now: Time,
    maxAttempts: nat) {
    if !f.terminal && spent + 1 < maxAttempts then
      && r'.status == status && r'.retryCount == spent + 1 && r'.leaseOwner == None
      && (forall at :: Claimable(r', at) <==> now + RetryDelay(spent + 1) <= at)
    else if flagged then
      match sc.release
      case Ok(settled) => r'.status == (if settled then Completed else Failed)
      case Err(_) => r'.status == Compensating && r'.retryCount == 1
    else r'.status == Failed
  }

  lemma FailureLeads(r: Row, f: Failure, sc: Script, now: Time, maxAttempts: nat)
    requires RowOk(r) && (r.status == Validating || r.status == Processing)
    ensures LeadsTo(AfterFailure(r, f, sc, now, maxAttempts), f, r.status, r.retryCount, r.holdMayExist, sc, now,
      maxAttempts)
  {
    hide RetryDelay;
  }

  /**
   * The outcome of a run of a forward transfer, whatever happens: without a failure it completes;
   * the first failure it meets leads where `LeadsTo` says, with a fresh count of attempts if the
   * run had stepped forward.
   */
  lemma ForwardOutcome(r: Row, sc: Script, now: Time, maxAttempts: nat)
    requires RowOk(r) && !Decided(r.status)
    ensures var r', met := RunResult(r, sc, now, maxAttempts), FailureMet(r, sc);
      if met.None? then r'.status == Completed
      else LeadsTo(r', met.value, FailsIn(r, sc), SpentBefore(r, sc), FlagStored(r, sc), sc, now, maxAttempts)
  {
    hide RetryDelay, AfterFailure, Claimable, LeadsTo;
    var v := if r.status == Pending then Moved(r, Validating) else r;
    if v.status == Validating {
      if sc.policy.Some? {
        FailureLeads(v, sc.policy.value, sc, now, maxAttempts);
      } else if v.receiver.None? && sc.validate.Err? {
        FailureLeads(v, sc.validate.error, sc, now, maxAttempts);
      } else {
        var c := if v.receiver.Some? then v else Bump(Cleared(v).(receiver := Some(sc.validate.value)));
        if sc.place.Err? {
          FailureLeads(Flagged(c), sc.place.error, sc, now, maxAttempts);
        } else if sc.settle.Err? {
          FailureLeads(Moved(Moved(Flagged(c), FundsHeld), Processing), sc.settle.error, sc, now, maxAttempts);
        }
      }
    } else if sc.settle.Err? {
      FailureLeads(if r.status == FundsHeld then Moved(r, Processing) else r, sc.settle.error, sc, now, maxAttempts);
    }
  }

  /** A terminal failure, of the policy or of any ledger call, ends the forward phase at once. */
  lemma TerminalEndsForward(r: Row, sc: Script, now: Time, maxAttempts: nat)
    requires RowOk(r) && !Decided(r.status) && FailureMet(r, sc) == Some(Failure(true))
    ensures Decided(RunResult(r, sc, now, maxAttempts).status)
  {
    hide RunResult, RetryDelay, Claimable;
    ForwardOutcome(r, sc, now, maxAttempts);
  }

  /** Compensating ends on the release's answer, and is otherwise tried again after its delay. */
  lemma CompensatingOutcome(r: Row, sc: Script, now: Time, maxAttempts: nat)
    requires r.status == Compensating
    ensures var r' := RunResult(r, sc, now, maxAttempts);
      match sc.release
      case Ok(settled) => r'.status == (if settled then Completed else Failed)
      case Err(_) =>
        && r'.status == Compensating && r'.retryCount == r.retryCount + 1 && r'.leaseOwner == None
        && (forall at :: Claimable(r', at) <==> now + RetryDelay(r.retryCount + 1) <= at)
  {
    hide RetryDelay;
  }

  /** With a willing policy and ledger one run completes the transfer from any forward status. */
  lemma WillingLedgerCompletes(r: Row, sc: Script, now: Time, maxAttempts: nat)
    requires RowOk(r) && !Decided(r.status)
    requires sc.policy.None? && sc.validate.Ok? && sc.place.Ok? && sc.settle.Ok?
    ensures RunResult(r, sc, now, maxAttempts).status == Completed
    ensures RunResult(r, sc, now, maxAttempts).receiver
         == if r.receiver.Some? then r.receiver else Some(sc.validate.value)
  {
  }

  /** A run completes or fails a transfer only on the ledger's word. */
  lemma VerdictsFollowAnswers(r: Row, sc: Script, now: Time, maxAttempts: nat)
    requires RowOk(r) && !Terminal(r.status)
    ensures var s := RunResult(r, sc, now, maxAttempts).status;
      && (s == Completed ==> sc.release == Ok(true) || (r.status != Compensating && sc.settle.Ok?))
      && (s == Failed ==> sc.release == Ok(false) || (!r.holdMayExist && Rank(r.status) <= Rank(Validating)
                                                    && (sc.policy.Some? || sc.validate.Err?)))
  {
    hide RetryDelay;
  }
}
