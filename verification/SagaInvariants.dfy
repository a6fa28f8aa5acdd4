/**
 * What every step of every worker keeps, for one transfer, given what the ledger shows of it.
 */
module SagaInvariants {
  import opened Base
  import opened TransferStatus
  import opened Saga
  import W = WalletAggregate
  import L = LedgerDb

  /** What the ledger shows of a transfer: its hold in the sender's wallet, and its receipt. */
  datatype View = View(hold: Option<W.Hold>, receipt: Option<L.Receipt>)

  function Terms(o: Order, receiver: Id): L.Receipt {
    L.Receipt(o.wallet, receiver, o.amount, o.currency, o.destAmount, o.destCurrency)
  }

  // ------------------------------------------------------------- the history

  /** What one stored version may change of the previous one. */
  ghost predicate Edge(a: Row, b: Row) {
    && b.version == a.version + 1
    && b.order == a.order
    && !Terminal(a.status)
    && (b.status == a.status || CanMove(a.status, b.status))
    && (a.receiver.Some? ==> b.receiver == a.receiver)
    && (a.holdMayExist ==> b.holdMayExist)
  }

  ghost predicate RowOk(r: Row) {
    && (r.status == Pending ==> r.receiver.None?)
    && (r.holdMayExist ==> r.receiver.Some?)
    && (r.status in {FundsHeld, Processing, Compensating, Completed} ==> r.holdMayExist)
  }

  /** The stored versions 1..n: a path of edges from a new transfer to the current row. */
  ghost predicate HistoryOk(p: Part) {
    && |p.history| == p.row.version >= 1
    && p.history[|p.history| - 1] == Strip(p.row)
    && p.history[0] == NewRow(p.row.order)
    && (forall i :: 0 <= i < |p.history| ==> RowOk(p.history[i]) && p.history[i].version == i + 1)
    && (forall i :: 0 <= i < |p.history| - 1 ==> Edge(p.history[i], p.history[i + 1]))
  }

  ghost predicate Ever(history: seq<Row>, s: Status) {
    exists i :: 0 <= i < |history| && history[i].status == s
  }

  /** Along a history the order is constant and everything only grows. */
  lemma {:induction false} HistoryGrows(history: seq<Row>, i: nat, j: nat)
    requires i <= j < |history|
    requires forall k :: 0 <= k < |history| - 1 ==> Edge(history[k], history[k + 1])
    ensures history[j].order == history[i].order
    ensures Rank(history[i].status) <= Rank(history[j].status)
    ensures history[i].receiver.Some? ==> history[j].receiver == history[i].receiver
    ensures history[i].holdMayExist ==> history[j].holdMayExist
    decreases j - i
  {
    if i < j {
      HistoryGrows(history, i, j - 1);
      assert Edge(history[j - 1], history[j - 1 + 1]);
      MovesRaiseRank(history[j - 1].status, history[j].status);
    }
  }

  // --------------------------------------------------------------- the parts

  ghost predicate SnapOk(p: Part, snap: Row) {
    && 1 <= snap.version <= |p.history|
    && Strip(snap) == p.history[snap.version - 1]
  }

  /** Settlement is impossible from now on: never ordered, or its hold is gone. */
  ghost predicate NoSettle(v: View, p: Part) {
    !Ever(p.history, Processing) || (v.hold.Some? && v.hold.value.status == W.Released)
  }

  ghost predicate PcOk(v: View, p: Part, worker: Worker) {
    var snap := worker.snap;
    match worker.pc
    case Reading(AfterReceiver) => p.row.receiver.Some?
    case Reading(AfterFlag) => p.row.holdMayExist
    case AwaitValidate => snap.status == Validating && snap.receiver.None?
    case SavingReceiver(_) => snap.status == Validating && snap.receiver.None?
    case CheckFlag => snap.receiver.Some?
    case Placing => snap.holdMayExist
    case AwaitPlace => snap.holdMayExist
    case PlaceDone => snap.holdMayExist && v.hold.Some?
    case AwaitSettle => snap.status == Processing
    case SettleDone => snap.status == Processing && v.receipt.Some?
    case AwaitRelease => snap.status == Compensating
    case ReleaseDone(settled) =>
      snap.status == Compensating && (if settled then v.receipt.Some? else Released in p.replies)
    case _ => true
  }

  ghost predicate WorkersOk(v: View, p: Part) {
    forall w :: w in p.workers ==> SnapOk(p, p.workers[w].snap) && PcOk(v, p, p.workers[w])
  }

  /** A hold is asked for only after the flag is stored, a settlement only after the hold exists. */
  ghost predicate CallOk(p: Part, c: Call) {
    && c.order == p.row.order
    && (c.PlaceCall? ==> p.row.holdMayExist)
    && (c.SettleCall? ==> p.row.receiver == Some(c.receiver) && Ever(p.history, Processing))
    && (c.ReleaseCall? ==> Ever(p.history, Compensating))
  }

  ghost predicate ReplyOk(v: View, p: Part, r: Reply) {
    match r
    case Validated(_) => true
    case Placed => v.hold.Some?
    case Settled => v.receipt.Some?
    case AlreadySettled => v.receipt.Some?
    case Released => Ever(p.history, Compensating) && NoSettle(v, p)
  }

  ghost predicate MessagesOk(v: View, p: Part) {
    && (forall c :: c in p.calls ==> CallOk(p, c))
    && (forall r :: r in p.replies ==> ReplyOk(v, p, r))
  }

  ghost predicate LedgerOk(v: View, p: Part) {
    && (Ever(p.history, FundsHeld) || Ever(p.history, Processing) ==> v.hold.Some?)
    && (v.receipt.Some? ==>
          && Ever(p.history, Processing)
          && p.row.receiver.Some?
          && v.receipt.value == Terms(p.row.order, p.row.receiver.value))
  }

  ghost predicate OutcomeOk(v: View, p: Part) {
    && (Terminal(p.row.status) ==> p.row.leaseOwner == None)
    && (p.row.status == Completed ==> v.receipt.Some?)
    && (p.row.status == Failed ==> NoSettle(v, p))
    && p.completions == (if p.row.status == Completed then 1 else 0)
  }

  ghost predicate PartInv(v: View, p: Part) {
    HistoryOk(p) && WorkersOk(v, p) && MessagesOk(v, p) && LedgerOk(v, p) && OutcomeOk(v, p)
  }

  lemma NewPartInv(o: Order, hold: Option<W.Hold>)
    ensures PartInv(View(hold, None), NewPart(o))
  {
  }

  // ------------------------------------------------------- the ledger moves on

  /** Any legal change of the transfer's hold is harmless. */
  lemma HoldMoves(v: View, hold: Option<W.Hold>, p: Part)
    requires PartInv(v, p) && W.HoldStep(v.hold, hold)
    ensures PartInv(v.(hold := hold), p)
  {
    hide HistoryOk, Ever, SnapOk;
    var v' := v.(hold := hold);
    forall w | w in p.workers ensures PcOk(v', p, p.workers[w]) {
      assert PcOk(v, p, p.workers[w]);
    }
    forall r | r in p.replies ensures ReplyOk(v', p, r) {
      assert ReplyOk(v, p, r);
    }
  }

  /** A receipt appears only for a settlement this transfer has ordered. */
  lemma ReceiptAppears(v: View, p: Part, c: Call)
    requires PartInv(v, p) && v.receipt.None?
    requires c in p.calls && c.SettleCall?
    ensures PartInv(v.(receipt := Some(Terms(c.order, c.receiver))), p)
  {
    hide HistoryOk, Ever, SnapOk;
    var v' := v.(receipt := Some(Terms(c.order, c.receiver)));
    assert CallOk(p, c);
    forall w | w in p.workers ensures PcOk(v', p, p.workers[w]) {
      assert PcOk(v, p, p.workers[w]);
    }
    forall r | r in p.replies ensures ReplyOk(v', p, r) {
      assert ReplyOk(v, p, r);
    }
  }

  lemma ReplyAppears(v: View, p: Part, r: Reply)
    requires PartInv(v, p) && ReplyOk(v, p, r)
    ensures PartInv(v, p.(replies := p.replies + {r}))
  {
    hide Ever;
    var p' := p.(replies := p.replies + {r});
    forall w | w in p'.workers ensures PcOk(v, p', p'.workers[w]) {
      assert PcOk(v, p, p.workers[w]);
    }
    forall c | c in p'.calls ensures CallOk(p', c) {
      assert CallOk(p, c);
    }
    forall q | q in p'.replies ensures ReplyOk(v, p', q) {
      assert q != r ==> ReplyOk(v, p, q);
    }
  }

  // ------------------------------------------------ steps that store no version

  lemma SetPcKeeps(v: View, p: Part, w: Id, worker: Worker)
    requires PartInv(v, p) && SnapOk(p, worker.snap) && PcOk(v, p, worker)
    ensures PartInv(v, SetPc(p, w, worker))
  {
    hide Ever;
    var p' := SetPc(p, w, worker);
    forall k | k in p'.workers ensures SnapOk(p', p'.workers[k].snap) && PcOk(v, p', p'.workers[k]) {
      if k != w {
        assert SnapOk(p, p.workers[k].snap) && PcOk(v, p, p.workers[k]);
      }
    }
    forall c | c in p'.calls ensures CallOk(p', c) {
      assert CallOk(p, c);
    }
    forall r | r in p'.replies ensures ReplyOk(v, p', r) {
      assert ReplyOk(v, p, r);
    }
  }

  lemma CallAppears(v: View, p: Part, c: Call)
    requires PartInv(v, p) && CallOk(p, c)
    ensures PartInv(v, p.(calls := p.calls + {c}))
  {
    hide Ever;
    var p' := p.(calls := p.calls + {c});
    forall k | k in p'.workers ensures PcOk(v, p', p'.workers[k]) {
      assert PcOk(v, p, p.workers[k]);
    }
    forall d | d in p'.calls ensures CallOk(p', d) {
      assert d != c ==> CallOk(p, d);
    }
    forall r | r in p'.replies ensures ReplyOk(v, p', r) {
      assert ReplyOk(v, p, r);
    }
  }

  /** Taking the lease stores no version and changes nothing the invariant speaks of. */
  lemma LeaseKeeps(v: View, p: Part, owner: Option<Id>, until: Option<Time>)
    requires PartInv(v, p) && !Terminal(p.row.status)
    ensures PartInv(v, p.(row := p.row.(leaseOwner := owner, leaseUntil := until)))
  {
    hide Ever;
    var p' := p.(row := p.row.(leaseOwner := owner, leaseUntil := until));
    forall k | k in p'.workers ensures SnapOk(p', p'.workers[k].snap) && PcOk(v, p', p'.workers[k]) {
      assert SnapOk(p, p.workers[k].snap) && PcOk(v, p, p.workers[k]);
    }
    forall c | c in p'.calls ensures CallOk(p', c) {
      assert CallOk(p, c);
    }
    forall r | r in p'.replies ensures ReplyOk(v, p', r) {
      assert ReplyOk(v, p, r);
    }
  }

  lemma RowIsSnapOk(p: Part)
    requires HistoryOk(p)
    ensures SnapOk(p, p.row)
  {
  }

  lemma SpawnKeeps(v: View, p: Part, w: Id, now: Time, leaseMs: nat)
    requires PartInv(v, p)
    ensures PartInv(v, Spawn(p, w, now, leaseMs))
  {
    hide HistoryOk, WorkersOk, MessagesOk, LedgerOk, OutcomeOk, SnapOk;
    if w !in p.workers {
      var p1 := if Claimable(p.row, now)
                then p.(row := p.row.(leaseOwner := Some(w), leaseUntil := Some(now + leaseMs))) else p;
      if Claimable(p.row, now) {
        LeaseKeeps(v, p, Some(w), Some(now + leaseMs));
      }
      RowIsSnapOk(p1);
      SetPcKeeps(v, p1, w, Worker(Reading(LoopTop), p1.row));
    }
  }

  // ------------------------------------------------------ storing a new version

  /** A worker that still holds its version and lease has read the current row. */
  lemma HeldSnapIsCurrent(p: Part, w: Id, snap: Row)
    requires HistoryOk(p) && SnapOk(p, snap) && Holds(p, w, snap)
    ensures Strip(snap) == Strip(p.row)
  {
  }

  /** What a write must respect, beyond being an edge. */
  ghost predicate WriteOk(v: View, p: Part, row: Row) {
    && Edge(p.row, row.(version := p.row.version + 1))
    && RowOk(row)
    && (Terminal(row.status) ==> row.leaseOwner == None && row.status != p.row.status)
    && (row.status == FundsHeld || row.status == Processing ==> v.hold.Some?)
    && (row.status == Completed ==> v.receipt.Some?)
    && (row.status == Failed ==> NoSettle(v, p))
  }

  function Stored(p: Part, row: Row): Part {
    Store(p, row).(completions := p.completions + if row.status == Completed then 1 else 0)
  }

  lemma StoredHistory(p: Part, row: Row)
    requires HistoryOk(p) && RowOk(row) && Edge(p.row, row.(version := p.row.version + 1))
    ensures HistoryOk(Stored(p, row))
    ensures forall s :: Ever(Stored(p, row).history, s) <==> Ever(p.history, s) || row.status == s
  {
    var p' := Stored(p, row);
    var n := |p.history|;
    assert p'.history[..n] == p.history;
    forall i | 0 <= i < |p'.history| - 1 ensures Edge(p'.history[i], p'.history[i + 1]) {
      if i < n - 1 {
        assert Edge(p.history[i], p.history[i + 1]);
      }
    }
    forall s ensures Ever(p'.history, s) <==> Ever(p.history, s) || row.status == s {
      if Ever(p.history, s) {
        var i :| 0 <= i < |p.history| && p.history[i].status == s;
        assert p'.history[i].status == s;
      }
      assert p'.history[n].status == row.status;
    }
  }

  /** Once compensating or failed, a transfer is never again processing. */
  lemma NeverProcessingAgain(p: Part, row: Row)
    requires HistoryOk(p) && Edge(p.row, row.(version := p.row.version + 1))
    requires Ever(p.history, Compensating)
    ensures row.status != Processing
  {
    var i :| 0 <= i < |p.history| && p.history[i].status == Compensating;
    HistoryGrows(p.history, i, |p.history| - 1);
  }

  lemma StoredNoSettle(v: View, p: Part, row: Row)
    requires HistoryOk(p) && RowOk(row) && Edge(p.row, row.(version := p.row.version + 1))
    requires NoSettle(v, p) && row.status != Processing
    ensures NoSettle(v, Stored(p, row))
  {
    hide HistoryOk, Edge;
    StoredHistory(p, row);
  }

  lemma StoredWorkers(v: View, p: Part, row: Row)
    requires PartInv(v, p) && WriteOk(v, p, row)
    ensures WorkersOk(v, Stored(p, row))
  {
    hide Ever, MessagesOk, LedgerOk, OutcomeOk, NoSettle;
    var p' := Stored(p, row);
    forall k | k in p'.workers ensures SnapOk(p', p'.workers[k].snap) && PcOk(v, p', p'.workers[k]) {
      assert SnapOk(p, p.workers[k].snap) && PcOk(v, p, p.workers[k]);
      assert p'.history[p.workers[k].snap.version - 1] == p.history[p.workers[k].snap.version - 1];
    }
  }

  lemma StoredMessages(v: View, p: Part, row: Row)
    requires PartInv(v, p) && WriteOk(v, p, row)
    ensures MessagesOk(v, Stored(p, row))
  {
    hide WorkersOk, HistoryOk, LedgerOk, OutcomeOk, Ever, NoSettle;
    var p' := Stored(p, row);
    StoredHistory(p, row);
    forall c | c in p'.calls ensures CallOk(p', c) {
      assert CallOk(p, c);
    }
    forall r | r in p'.replies ensures ReplyOk(v, p', r) {
      assert ReplyOk(v, p, r);
      if r.Released? {
        NeverProcessingAgain(p, row);
        StoredNoSettle(v, p, row);
      }
    }
  }

  lemma StoredLedger(v: View, p: Part, row: Row)
    requires PartInv(v, p) && WriteOk(v, p, row)
    ensures LedgerOk(v, Stored(p, row)) && OutcomeOk(v, Stored(p, row))
  {
    hide WorkersOk, HistoryOk, MessagesOk, Ever, NoSettle;
    StoredHistory(p, row);
    if row.status == Failed {
      StoredNoSettle(v, p, row);
    }
  }

  lemma StoredKeeps(v: View, p: Part, row: Row)
    requires PartInv(v, p) && WriteOk(v, p, row)
    ensures PartInv(v, Stored(p, row))
  {
    hide WorkersOk, HistoryOk, MessagesOk, LedgerOk, OutcomeOk, Ever, NoSettle;
    StoredHistory(p, row);
    StoredWorkers(v, p, row);
    StoredMessages(v, p, row);
    StoredLedger(v, p, row);
  }
}
