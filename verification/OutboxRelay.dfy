/**
 * The relay's batch loop and the consumer's message handler as the services run them, each tied to
 * the delivery machine: what they leave is what a sequence of the machine's steps leaves.
 */
module OutboxRelay {
  import opened Base
  import L = LedgerDb
  import opened Backoff
  import opened EventDelivery

  /** How the turn of one claimed message ends: marked at a time, or caught after a failure. */
  datatype Outcome =
    | Marked(at: Time)
    | PublishThrows(reached: bool)
    | MarkThrows

  function OutcomeRow(row: OutboxRow, outcome: Outcome, now: Time): OutboxRow {
    match outcome
    case Marked(at) => PublishedRow(row, at)
    case PublishThrows(_) => FailedRow(row, row.attempts, now)
    case MarkThrows => FailedRow(row, row.attempts, now)
  }

  /** The two machine steps of one message's turn. */
  function TurnSteps(lock: Id, outcome: Outcome, now: Time): seq<Step> {
    match outcome
    case Marked(at) => [Publish(lock, true, true), MarkPublished(lock, at)]
    case PublishThrows(reached) => [Publish(lock, false, reached), MarkFailed(lock, now)]
    case MarkThrows => [Publish(lock, true, true), MarkFailed(lock, now)]
  }

  function BatchSteps(lock: Id, outcomes: seq<Outcome>, now: Time): seq<Step> {
    if |outcomes| == 0 then []
    else BatchSteps(lock, outcomes[..|outcomes| - 1], now) + TurnSteps(lock, outcomes[|outcomes| - 1], now)
  }

  function Claims(rows: map<Id, OutboxRow>, batch: seq<Id>): seq<Claimed> {
    seq(|batch|, i requires 0 <= i < |batch| =>
      Claimed(batch[i], if batch[i] in rows then rows[batch[i]].attempts else 0))
  }

  lemma {:induction false} RunConcat(s: State, a: seq<Step>, b: seq<Step>)
    ensures Run(s, a + b) == Run(Run(s, a), b)
    decreases |b|
  {
    hide Do;
    if |b| == 0 {
      assert a + b == a;
    } else {
      var all := a + b;
      assert all[..|all| - 1] == a + b[..|b| - 1];
      RunConcat(s, a, b[..|b| - 1]);
    }
  }

  lemma RunTwo(s: State, x: Step, y: Step)
    ensures Run(s, [x, y]) == Do(Do(s, x), y)
  {
    hide Do;
    assert [x, y][..1] == [x];
    assert [x][..0] == [];
    assert Run(s, [x]) == Do(s, x);
  }

  /** The relay holds the lock on the next message, and its row is as it was claimed. */
  ghost predicate AtTurn(s: State, lock: Id, claims: seq<Claimed>) {
    && lock in s.relays && s.relays[lock] == Relay(claims, false)
    && (|claims| > 0 ==>
          && claims[0].eventId in s.rows && claims[0].eventId in s.db.outbox
          && s.rows[claims[0].eventId].lockId == Some(lock)
          && s.rows[claims[0].eventId].attempts == claims[0].attempts)
  }

  /** One turn settles exactly the head's row and moves the relay on. */
  lemma Turn(s: State, lock: Id, claims: seq<Claimed>, outcome: Outcome, now: Time)
    requires AtTurn(s, lock, claims) && |claims| > 0
    ensures var s' := Run(s, TurnSteps(lock, outcome, now));
      && s'.rows == s.rows[claims[0].eventId := OutcomeRow(s.rows[claims[0].eventId], outcome, now)]
      && lock in s'.relays && s'.relays[lock] == Relay(claims[1..], false)
      && s'.db == s.db && s'.inbox == s.inbox && s'.usedLocks == s.usedLocks
  {
    hide Do, RetryDelay, MessageOf, Delivered;
    var steps := TurnSteps(lock, outcome, now);
    RunTwo(s, steps[0], steps[1]);
    PublishTurn(s, lock, claims, steps[0].confirmed, steps[0].reached);
    MarkTurn(Do(s, steps[0]), lock, claims, steps[0].confirmed, steps[1]);
  }

  lemma PublishTurn(s: State, lock: Id, claims: seq<Claimed>, confirmed: bool, reached: bool)
    requires AtTurn(s, lock, claims) && |claims| > 0
    ensures var s' := Do(s, Publish(lock, confirmed, reached));
      && s'.rows == s.rows && s'.db == s.db && s'.inbox == s.inbox && s'.usedLocks == s.usedLocks
      && lock in s'.relays && s'.relays[lock] == Relay(claims, confirmed)
  {
    hide MessageOf, Delivered;
  }

  lemma MarkTurn(s: State, lock: Id, claims: seq<Claimed>, confirmed: bool, step: Step)
    requires |claims| > 0 && lock in s.relays && s.relays[lock] == Relay(claims, confirmed)
    requires claims[0].eventId in s.rows && s.rows[claims[0].eventId].lockId == Some(lock)
    requires (step.MarkPublished? && confirmed) || step.MarkFailed?
    requires step.lock == lock
    ensures var s', row := Do(s, step), s.rows[claims[0].eventId];
      && s'.rows == s.rows[claims[0].eventId :=
           if step.MarkPublished? then PublishedRow(row, step.now) else FailedRow(row, claims[0].attempts, step.now)]
      && lock in s'.relays && s'.relays[lock] == Relay(claims[1..], false)
      && s'.db == s.db && s'.inbox == s.inbox && s'.usedLocks == s.usedLocks
  {
    hide RetryDelay;
  }

  // ------------------------------------------------------------ other relays

  /** A step that does not use the lock; lock ids are drawn fresh, so no other relay's does. */
  predicate Foreign(step: Step, lock: Id) {
    match step
    case ClaimBatch(l, _, _) => l != lock
    case Publish(l, _, _) => l != lock
    case MarkPublished(l, _) => l != lock
    case MarkFailed(l, _) => l != lock
    case StopRelay(l) => l != lock
    case _ => true
  }

  lemma ForeignKeepsRelay(s: State, step: Step, lock: Id)
    requires lock in s.relays && Foreign(step, lock)
    ensures lock in Do(s, step).relays && Do(s, step).relays[lock] == s.relays[lock]
  {
    hide L.After, RetryDelay, MessageOf, Delivered, BatchOk, LockRows, UpdateLocked, Recorded, Answered;
  }

  /**
   * Between any two steps of a relay, whatever commands, other relays and consumers do: its batch
   * is as it was, and so is every row it holds whose lock has not expired.
   */
  lemma {:induction false} BatchUndisturbed(s: State, others: seq<Step>, lock: Id, k: Id)
    requires Inv(s) && lock in s.relays && k in s.rows
    requires s.rows[k].lockId == Some(lock) && s.rows[k].lockedUntil.Some?
    requires forall i :: 0 <= i < |others| ==> Foreign(others[i], lock)
    requires forall i :: 0 <= i < |others| && others[i].ClaimBatch? ==> others[i].now <= s.rows[k].lockedUntil.value
    ensures var s' := Run(s, others);
      && Inv(s') && lock in s'.relays && s'.relays[lock] == s.relays[lock]
      && k in s'.rows && s'.rows[k] == s.rows[k]
  {
    hide Do, Inv;
    if |others| > 0 {
      var front, last := others[..|others| - 1], others[|others| - 1];
      BatchUndisturbed(s, front, lock, k);
      StepKeeps(Run(s, front), last);
      ForeignKeepsRelay(Run(s, front), last, lock);
      LockHeld(Run(s, front), last, k, lock);
    }
  }

  // -------------------------------------------------------------- the batch loop

  /** After `n` turns: the first `n` rows of the batch are settled, the rest of it is locked. */
  ghost predicate Progress(start: State, s: State, lock: Id, batch: seq<Id>, outcomes: seq<Outcome>, now: Time, n: nat)
    requires n <= |outcomes| <= |batch| && forall i :: 0 <= i < |batch| ==> batch[i] in start.rows
  {
    && s.db == start.db && s.rows.Keys == start.rows.Keys
    && lock in s.relays && s.relays[lock] == Relay(Claims(start.rows, batch)[n..], false)
    && (forall k :: k in start.rows && k !in batch ==> s.rows[k] == start.rows[k])
    && (forall i :: 0 <= i < |batch| ==>
          s.rows[batch[i]] == (if i < n then OutcomeRow(start.rows[batch[i]], outcomes[i], now)
                               else Locked(start.rows[batch[i]], lock, now)))
  }

  lemma ProgressStarts(s: State, lock: Id, batch: seq<Id>, outcomes: seq<Outcome>, now: Time)
    requires lock !in s.usedLocks && BatchOk(s, batch, now) && |outcomes| <= |batch|
    ensures Progress(s, Do(s, ClaimBatch(lock, batch, now)), lock, batch, outcomes, now, 0)
  {
    hide Do, Locked;
    ClaimTurn(s, lock, batch, now);
    assert Claims(s.rows, batch)[0..] == Claims(s.rows, batch);
  }

  lemma ProgressTurn(
    start: State, s: State, lock: Id, batch: seq<Id>, outcomes: seq<Outcome>, now: Time, n: nat)
    requires Inv(start) && BatchOk(start, batch, now) && n < |outcomes| <= |batch|
    requires Progress(start, s, lock, batch, outcomes, now, n)
    ensures Progress(start, Run(s, TurnSteps(lock, outcomes[n], now)), lock, batch, outcomes, now, n + 1)
  {
    hide Run, Do, Inv, OutcomeRow, TurnSteps;
    InvMirrors(start);
    var claims := Claims(start.rows, batch);
    assert claims[n..][0] == Claimed(batch[n], start.rows[batch[n]].attempts);
    assert claims[n..][1..] == claims[n + 1..];
    Turn(s, lock, claims[n..], outcomes[n], now);
    OutcomeOfLocked(start.rows[batch[n]], lock, outcomes[n], now);
  }

  lemma ProgressMeans(start: State, s: State, lock: Id, batch: seq<Id>, outcomes: seq<Outcome>, now: Time, n: nat)
    requires n <= |outcomes| <= |batch| && forall i :: 0 <= i < |batch| ==> batch[i] in start.rows
    requires Progress(start, s, lock, batch, outcomes, now, n)
    ensures s.rows.Keys == start.rows.Keys
    ensures forall k :: k in start.rows && k !in batch ==> s.rows[k] == start.rows[k]
    ensures forall i :: 0 <= i < |batch| ==>
      s.rows[batch[i]] == (if i < n then OutcomeRow(start.rows[batch[i]], outcomes[i], now)
                           else Locked(start.rows[batch[i]], lock, now))
  {
    hide OutcomeRow;
  }

  /** The rows that a batch leaves, column by column. */
  lemma RowColumns(row: OutboxRow, outcome: Outcome, lock: Id, now: Time)
    requires row.publishedAt == None
    ensures var settled := OutcomeRow(row, outcome, now);
      && settled.lockId == None && settled.lockedUntil == None
      && (match outcome
          case Marked(at) => settled.publishedAt == Some(at) && settled.attempts == row.attempts
          case _ =>
            && settled.publishedAt == None && settled.attempts == row.attempts + 1
            && settled.availableAt == now + RetryDelay(row.attempts + 1))
    ensures Locked(row, lock, now).lockId == Some(lock) && Locked(row, lock, now).lockedUntil == Some(now + 30_000)
  {
    hide RetryDelay;
  }

  /** When a row may be claimed: due, not published, and not under a lock that still runs. */
  lemma WhenClaimable(row: OutboxRow, claimedAttempts: nat, lock: Id, now: Time, at: Time)
    requires row.publishedAt == None && row.availableAt <= now
    ensures !Claimable(PublishedRow(row, now), at)
    ensures Claimable(FailedRow(row, claimedAttempts, now), at) <==> now + RetryDelay(claimedAttempts + 1) <= at
    ensures now <= at ==> (Claimable(Locked(row, lock, now), at) <==> now + 30_000 < at)
    ensures row.lockedUntil == None && now <= at ==> Claimable(row, at)
    ensures !Claimable(NewOutboxRow(at + 1), at) && Claimable(NewOutboxRow(now), now)
  {
    hide RetryDelay;
  }

  lemma ClaimedUnpublished(s: State, batch: seq<Id>, now: Time, i: nat)
    requires BatchOk(s, batch, now) && i < |batch|
    ensures batch[i] in s.rows && s.rows[batch[i]].publishedAt == None
  {
  }

  lemma NoTurns(lock: Id, now: Time)
    ensures BatchSteps(lock, [], now) == []
  {
  }

  class OutboxService {
    /** The database and the broker. */
    var state: State

    constructor ()
      ensures state == INITIAL
    {
      state := INITIAL;
    }

    /**
     * Claims `batch` and gives each message its turn until `outcomes` ends: an outcome missing is
     * a process that stopped. Settled rows are published or back in line with one more attempt and
     * the backoff, unlocked either way; the rest of the batch stays locked until the lock expires.
     */
    method PublishBatch(lock: Id, batch: seq<Id>, now: Time, outcomes: seq<Outcome>) returns (n: nat)
      requires Inv(state) && lock !in state.usedLocks && BatchOk(state, batch, now) && |outcomes| <= |batch|
      modifies this
      ensures state == Run(old(state), [ClaimBatch(lock, batch, now)] + BatchSteps(lock, outcomes, now))
      ensures n == |outcomes|
      ensures state.rows.Keys == old(state.rows).Keys
      ensures forall k :: k in old(state.rows) && k !in batch ==> state.rows[k] == old(state.rows)[k]
      ensures forall i :: 0 <= i < |batch| ==>
        state.rows[batch[i]] == (if i < n then OutcomeRow(old(state.rows)[batch[i]], outcomes[i], now)
                                 else Locked(old(state.rows)[batch[i]], lock, now))
      ensures forall i :: 0 <= i < n ==>
        var row, row' := old(state.rows)[batch[i]], state.rows[batch[i]];
        && row'.lockId == None && row'.lockedUntil == None
        && (match outcomes[i]
            case Marked(at) => row'.publishedAt == Some(at) && row'.attempts == row.attempts
            case _ =>
              && row'.publishedAt == None && row'.attempts == row.attempts + 1
              && row'.availableAt == now + RetryDelay(row.attempts + 1))
      ensures forall i :: n <= i < |batch| ==>
        state.rows[batch[i]].lockId == Some(lock) && state.rows[batch[i]].lockedUntil == Some(now + 30_000)
    {
      hide Do, Run, Inv, TurnSteps, OutcomeRow, Progress, BatchSteps, RetryDelay, Locked;
      ghost var start := state;
      ProgressStarts(state, lock, batch, outcomes, now);
      RunOne(start, ClaimBatch(lock, batch, now));
      NoTurns(lock, now);
      state := Do(state, ClaimBatch(lock, batch, now));
      n := 0;
      while n < |outcomes|
        invariant n <= |outcomes| && Progress(start, state, lock, batch, outcomes, now, n)
        invariant state == Run(start, [ClaimBatch(lock, batch, now)] + BatchSteps(lock, outcomes[..n], now))
      {
        ProgressTurn(start, state, lock, batch, outcomes, now, n);
        BatchGrows(start, lock, batch, outcomes, now, n);
        state := Run(state, TurnSteps(lock, outcomes[n], now));
        n := n + 1;
      }
      ProgressMeans(start, state, lock, batch, outcomes, now, n);
      forall i | 0 <= i < |batch| ensures start.rows[batch[i]].publishedAt == None {
        ClaimedUnpublished(start, batch, now, i);
      }
      forall i | 0 <= i < n { RowColumns(start.rows[batch[i]], outcomes[i], lock, now); }
      forall i | n <= i < |batch| { RowColumns(start.rows[batch[i]], MarkThrows, lock, now); }
      assert outcomes[..n] == outcomes;
    }
  }

  lemma InvMirrors(s: State)
    requires Inv(s)
    ensures s.rows.Keys == s.db.outbox.Keys
  {
  }

  lemma RunOne(s: State, x: Step)
    ensures Run(s, [x]) == Do(s, x) && [x] + [] == [x]
  {
    hide Do;
    assert [x][..0] == [];
  }

  lemma ClaimTurn(s: State, lock: Id, batch: seq<Id>, now: Time)
    requires lock !in s.usedLocks && BatchOk(s, batch, now)
    ensures var s' := Do(s, ClaimBatch(lock, batch, now));
      && s'.db == s.db && s'.rows.Keys == s.rows.Keys
      && lock in s'.relays && s'.relays[lock] == Relay(Claims(s.rows, batch), false)
      && (forall k :: k in s.rows ==> s'.rows[k] == if k in batch then Locked(s.rows[k], lock, now) else s.rows[k])
  {
    hide Locked;
  }

  /** Settling a row takes the lock's columns away again. */
  lemma OutcomeOfLocked(row: OutboxRow, lock: Id, outcome: Outcome, now: Time)
    ensures OutcomeRow(Locked(row, lock, now), outcome, now) == OutcomeRow(row, outcome, now)
  {
  }

  lemma BatchGrows(s: State, lock: Id, batch: seq<Id>, outcomes: seq<Outcome>, now: Time, n: nat)
    requires n < |outcomes|
    ensures var first := [ClaimBatch(lock, batch, now)];
      Run(Run(s, first + BatchSteps(lock, outcomes[..n], now)), TurnSteps(lock, outcomes[n], now))
      == Run(s, first + BatchSteps(lock, outcomes[..n + 1], now))
  {
    hide Run, TurnSteps;
    var first := [ClaimBatch(lock, batch, now)];
    assert outcomes[..n + 1][..n] == outcomes[..n];
    RunConcat(s, first + BatchSteps(lock, outcomes[..n], now), TurnSteps(lock, outcomes[n], now));
    assert first + BatchSteps(lock, outcomes[..n + 1], now)
        == first + BatchSteps(lock, outcomes[..n], now) + TurnSteps(lock, outcomes[n], now);
  }

  // ------------------------------------------------------------- the consumer

  datatype Verdict = Ack | Requeue | DeadLetter

  /** The notifications service: its tables are what `consume` changes. */
  class ConsumerService {
    var inbox: Inbox

    constructor ()
      ensures inbox == Inbox({}, [])
    {
      inbox := Inbox({}, []);
    }

    /** The marker and the handler's insert commit together, or the transaction rolls back. */
    method Process(m: Message, handlerThrows: bool) returns (r: Result<bool, ()>)
      requires Trusted(m)
      modifies this
      ensures r.Ok? ==> inbox == Recorded(old(inbox), m) && (r.value <==> m.eventId !in old(inbox).processed)
      ensures r.Err? ==> inbox == old(inbox)
      ensures r.Err? <==> m.eventId !in old(inbox).processed && handlerThrows
      ensures m.eventId in old(inbox).processed ==> r == Ok(false)
    {
      if m.eventId in inbox.processed {
        return Ok(false);
      }
      if handlerThrows {
        return Err(());
      }
      inbox := Inbox(inbox.processed + {m.eventId}, inbox.feed + [FeedItem(m.eventId, m.body)]);
      return Ok(true);
    }

    /** Acknowledged means the event is in the feed; requeued after the commit is a redelivery. */
    method Consume(m: Message, handlerThrows: bool, emitThrows: bool, ghost s: State) returns (v: Verdict)
      requires Inv(s) && m in s.broker.queue && s.inbox == inbox
      modifies this
      ensures v == DeadLetter <==> !Trusted(m)
      ensures v == Requeue <==> Trusted(m) && m.eventId !in old(inbox).processed && (handlerThrows || emitThrows)
      ensures v == Ack ==> m.eventId in inbox.processed
      ensures
        var failed := v == Requeue && inbox == old(inbox);
        var step := if failed then HandlerFails(m) else Step.Consume(m, v != Requeue);
        inbox == Do(s, step).inbox && Inv(Do(s, step))
    {
      hide Inv, Trusted, Answered;
      StepKeeps(s, Step.Consume(m, true));
      StepKeeps(s, Step.Consume(m, false));
      StepKeeps(s, HandlerFails(m));
      if !Trusted(m) {
        return DeadLetter;
      }
      var processed := Process(m, handlerThrows);
      if processed.Err? || (processed.value && emitThrows) {
        return Requeue;
      }
      return Ack;
    }
  }
}
