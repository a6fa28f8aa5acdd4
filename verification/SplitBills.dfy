/** Split bills: share amounts, and what a bill collects over a whole run. */
module SplitBills {
  import opened Base
  import opened TransferStatus
  import opened Saga
  import opened SagaInvariants
  import opened TransferSystem
  import opened SagaTheorems
  import FxQuote
  import L = LedgerDb

  // -------------------------------------------------------------- share amounts

  datatype ShareError = TooSmall | MissingShare | SharesNotTotal | CustomInEqualSplit

  /** An equal split: the first `total % n` participants pay one minor unit more. */
  function EqualShares(total: nat, n: nat): Result<seq<int>, ShareError>
    requires n > 0
  {
    if total / n == 0 then Err(TooSmall)
    else Ok(seq(n, i => total / n + if i < total % n then 1 else 0))
  }

  /** A custom split of amounts already parsed; a missing share is `None`. */
  function CustomShares(total: nat, shares: seq<Option<nat>>): Result<seq<int>, ShareError> {
    if exists i :: 0 <= i < |shares| && shares[i].None? then Err(MissingShare)
    else
      var amounts := seq(|shares|, i requires 0 <= i < |shares| => if shares[i].Some? then shares[i].value else 0);
      if Sum(amounts) != total then Err(SharesNotTotal) else Ok(amounts)
  }

  /** `shareAmounts`, for participants whose custom shares, if any, have been parsed. */
  function ShareAmounts(equal: bool, total: nat, shares: seq<Option<nat>>): Result<seq<int>, ShareError>
    requires |shares| > 0
  {
    if !equal then CustomShares(total, shares)
    else if exists i :: 0 <= i < |shares| && shares[i].Some? then Err(CustomInEqualSplit)
    else EqualShares(total, |shares|)
  }

  lemma Parts(total: nat, n: nat)
    requires n > 0
    ensures total == n * (total / n) + total % n && total % n < n
    ensures total / n == 0 <==> total < n
  {
    FxQuote.DivBounds(total, n);
    if total / n >= 1 {
      assert n * 1 <= n * (total / n);
    }
  }

  lemma OneMore(k: nat, q: int)
    requires k > 0
    ensures k * q == (k - 1) * q + q
  {
  }

  /** The sum of the first `k` of `n` shares of `q` each, the first `r` of them one more. */
  lemma {:induction false} EqualPrefix(shares: seq<int>, q: int, r: nat, k: nat)
    requires k <= |shares| && forall i :: 0 <= i < |shares| ==> shares[i] == q + if i < r then 1 else 0
    ensures Sum(shares[..k]) == k * q + if k < r then k else r
  {
    if k > 0 {
      EqualPrefix(shares, q, r, k - 1);
      assert shares[..k][..k - 1] == shares[..k - 1];
      OneMore(k, q);
    }
  }

  /**
   * Equal shares are positive, differ by at most one minor unit, never increase along the list and
   * sum exactly to the total; the split is refused exactly when the total is below one unit each.
   */
  lemma EqualSharesExact(total: nat, n: nat)
    requires n > 0
    ensures EqualShares(total, n).Err? <==> total < n
    ensures EqualShares(total, n).Ok? ==>
      var shares := EqualShares(total, n).value;
      && |shares| == n && Sum(shares) == total
      && (forall i :: 0 <= i < n ==> shares[i] > 0)
      && (forall i, j :: 0 <= i <= j < n ==> 0 <= shares[i] - shares[j] <= 1)
  {
    Parts(total, n);
    if total / n > 0 {
      var shares := EqualShares(total, n).value;
      EqualPrefix(shares, total / n, total % n, n);
      assert shares[..n] == shares;
    }
  }

  /** Either mode yields one positive amount per participant, and together exactly the total. */
  lemma ShareAmountsExact(equal: bool, total: nat, shares: seq<Option<nat>>)
    requires |shares| > 0 && ShareAmounts(equal, total, shares).Ok?
    requires forall i :: 0 <= i < |shares| && shares[i].Some? ==> shares[i].value > 0
    ensures var amounts := ShareAmounts(equal, total, shares).value;
      && |amounts| == |shares| && Sum(amounts) == total
      && (forall i :: 0 <= i < |amounts| ==> amounts[i] > 0)
      && (!equal ==> forall i :: 0 <= i < |shares| ==> shares[i] == Some(amounts[i]))
  {
    if equal {
      EqualSharesExact(total, |shares|);
    }
  }

  /** Which splits are refused, and for what. */
  lemma ShareAmountsRefused(equal: bool, total: nat, shares: seq<Option<nat>>)
    requires |shares| > 0
    ensures var r := ShareAmounts(equal, total, shares);
      && (r == Err(CustomInEqualSplit) <==> equal && exists i :: 0 <= i < |shares| && shares[i].Some?)
      && (r == Err(TooSmall) <==> equal && total < |shares| && forall i :: 0 <= i < |shares| ==> shares[i].None?)
      && (r == Err(MissingShare) <==> !equal && exists i :: 0 <= i < |shares| && shares[i].None?)
      && (r == Err(SharesNotTotal) <==>
            && !equal && (forall i :: 0 <= i < |shares| ==> shares[i].Some?)
            && Sum(seq(|shares|, i requires 0 <= i < |shares| => Given(shares[i]))) != total)
  {
    hide EqualShares;
    EqualSharesExact(total, |shares|);
    TooSmallOnly(total, |shares|);
    var given := seq(|shares|, i requires 0 <= i < |shares| => Given(shares[i]));
    var taken := seq(|shares|, i requires 0 <= i < |shares| => if shares[i].Some? then shares[i].value else 0);
    assert given == taken;
  }

  /** A custom share in minor units; a missing one counts as nothing. */
  function Given(share: Option<nat>): int {
    match share
    case Some(n) => n
    case None => 0
  }

  lemma TooSmallOnly(total: nat, n: nat)
    requires n > 0
    ensures EqualShares(total, n).Err? ==> EqualShares(total, n) == Err(TooSmall)
  {
  }

  // ------------------------------------------------------------ the whole system

  /** Whatever split `shareAmounts` yields can be stored as a bill, under fresh ids. */
  lemma SplitMakesBill(s: System, bill: Id, equal: bool, total: nat, shares: seq<Option<nat>>, ids: seq<Id>)
    requires |shares| > 0 && ShareAmounts(equal, total, shares).Ok? && |ids| == |shares| && bill !in s.bills
    requires forall i :: 0 <= i < |shares| && shares[i].Some? ==> shares[i].value > 0
    requires forall i, j :: 0 <= i < j < |ids| ==> ids[i] != ids[j]
    requires forall i :: 0 <= i < |ids| ==> ids[i] !in s.shares
    ensures BillOk(s, bill, total, ids, ShareAmounts(equal, total, shares).value)
  {
    hide ShareAmounts, Sum;
    ShareAmountsExact(equal, total, shares);
  }

  /** Every stored bill is exactly the sum of its own positive shares. */
  ghost predicate BillSound(s: System, b: Id)
    requires b in s.bills
  {
    var bill := s.bills[b];
    && (forall i :: 0 <= i < |bill.shares| ==>
          bill.shares[i] in s.shares && s.shares[bill.shares[i]].bill == b && s.shares[bill.shares[i]].amount > 0)
    && (forall i, j :: 0 <= i < j < |bill.shares| ==> bill.shares[i] != bill.shares[j])
    && AmountOf(s.shares, bill.shares) == bill.total
  }

  function AmountOf(shares: map<Id, ShareRow>, ids: seq<Id>): int {
    if |ids| == 0 then 0
    else
      AmountOf(shares, ids[..|ids| - 1])
      + if ids[|ids| - 1] in shares then shares[ids[|ids| - 1]].amount else 0
  }

  ghost predicate BillsSound(s: System) {
    forall b :: b in s.bills ==> BillSound(s, b)
  }

  ghost predicate OrdersSound(s: System) {
    && (forall t :: t in s.parts ==> OrderOk(s, s.parts[t].row.order))
    && (forall t, u | t in s.parts && u in s.parts && s.parts[t].row.order.share.Some? ::
          s.parts[t].row.order.share == s.parts[u].row.order.share ==> t == u)
  }

  ghost predicate PaymentsInv(s: System) {
    SystemInv(s) && BillsSound(s) && OrdersSound(s)
  }

  // ------------------------------------------------------------- opening a bill

  lemma {:induction false} WithSharesAt(shares: map<Id, ShareRow>, bill: Id, ids: seq<Id>, amounts: seq<int>)
    requires |ids| == |amounts|
    requires forall i, j :: 0 <= i < j < |ids| ==> ids[i] != ids[j]
    ensures forall i :: 0 <= i < |ids| ==>
      ids[i] in WithShares(shares, bill, ids, amounts)
        && WithShares(shares, bill, ids, amounts)[ids[i]] == ShareRow(bill, amounts[i])
    ensures forall k :: k !in ids ==>
      (k in WithShares(shares, bill, ids, amounts) <==> k in shares)
      && (k in shares ==> WithShares(shares, bill, ids, amounts)[k] == shares[k])
  {
    if |ids| > 0 {
      var n := |ids| - 1;
      WithSharesAt(shares, bill, ids[..n], amounts[..n]);
      assert forall k :: k in ids[..n] ==> k in ids;
      forall i | 0 <= i < |ids|
        ensures ids[i] in WithShares(shares, bill, ids, amounts)
          && WithShares(shares, bill, ids, amounts)[ids[i]] == ShareRow(bill, amounts[i])
      {
        if i < n {
          assert ids[..n][i] == ids[i] && amounts[..n][i] == amounts[i];
        }
      }
    }
  }

  lemma {:induction false} AmountIsSum(shares: map<Id, ShareRow>, bill: Id, ids: seq<Id>, amounts: seq<int>)
    requires |ids| == |amounts|
    requires forall i :: 0 <= i < |ids| ==> ids[i] in shares && shares[ids[i]] == ShareRow(bill, amounts[i])
    ensures AmountOf(shares, ids) == Sum(amounts)
  {
    if |ids| > 0 {
      AmountIsSum(shares, bill, ids[..|ids| - 1], amounts[..|ids| - 1]);
    }
  }

  lemma {:induction false} AmountFrame(a: map<Id, ShareRow>, b: map<Id, ShareRow>, ids: seq<Id>)
    requires forall i :: 0 <= i < |ids| ==> ids[i] in a && ids[i] in b && a[ids[i]] == b[ids[i]]
    ensures AmountOf(a, ids) == AmountOf(b, ids)
  {
    if |ids| > 0 {
      AmountFrame(a, b, ids[..|ids| - 1]);
    }
  }

  function Opened(s: System, bill: Id, total: int, currency: Currency, ids: seq<Id>, amounts: seq<int>): System
    requires |ids| == |amounts|
  {
    s.(bills := s.bills[bill := Bill(total, currency, ids)], shares := WithShares(s.shares, bill, ids, amounts))
  }

  /** Opening a bill keeps every share that was there. */
  lemma OldSharesKept(s: System, bill: Id, total: int, currency: Currency, ids: seq<Id>, amounts: seq<int>)
    requires BillOk(s, bill, total, ids, amounts)
    ensures var s' := Opened(s, bill, total, currency, ids, amounts);
      forall k :: k in s.shares ==> k in s'.shares && s'.shares[k] == s.shares[k]
  {
    hide WithShares, Sum;
    WithSharesAt(s.shares, bill, ids, amounts);
    assert forall k :: k in s.shares ==> k !in ids;
  }

  lemma OpenBillSound(s: System, bill: Id, total: int, currency: Currency, ids: seq<Id>, amounts: seq<int>)
    requires BillsSound(s) && BillOk(s, bill, total, ids, amounts)
    ensures BillsSound(Opened(s, bill, total, currency, ids, amounts))
  {
    hide WithShares, Sum, AmountOf;
    var s' := Opened(s, bill, total, currency, ids, amounts);
    WithSharesAt(s.shares, bill, ids, amounts);
    OldSharesKept(s, bill, total, currency, ids, amounts);
    AmountIsSum(s'.shares, bill, ids, amounts);
    forall b | b in s'.bills ensures BillSound(s', b) {
      if b != bill {
        assert BillSound(s, b);
        AmountFrame(s.shares, s'.shares, s.bills[b].shares);
      }
    }
  }

  lemma OpenBillKeeps(s: System, bill: Id, total: int, currency: Currency, ids: seq<Id>, amounts: seq<int>)
    requires BillsSound(s) && OrdersSound(s) && BillOk(s, bill, total, ids, amounts)
    ensures var s' := Opened(s, bill, total, currency, ids, amounts); BillsSound(s') && OrdersSound(s')
  {
    hide WithShares, Sum, FxQuote.Quote, BillsSound;
    OpenBillSound(s, bill, total, currency, ids, amounts);
    OldSharesKept(s, bill, total, currency, ids, amounts);
  }

  lemma CreateKeeps(s: System, t: Id, o: Order)
    requires OrdersSound(s) && t !in s.parts && OrderOk(s, o)
    requires o.share.Some? ==> !ShareTaken(s, o.share.value)
    ensures OrdersSound(s.(parts := s.parts[t := NewPart(o)]))
  {
    hide FxQuote.Quote;
  }

  /** Parts may change in any way that keeps their orders. */
  lemma SameOrders(s: System, s': System)
    requires OrdersSound(s) && BillsSound(s) && s'.bills == s.bills && s'.shares == s.shares
    requires s'.parts.Keys == s.parts.Keys
    requires forall t :: t in s.parts ==> s'.parts[t].row.order == s.parts[t].row.order
    ensures OrdersSound(s') && BillsSound(s')
  {
    hide FxQuote.Quote, AmountOf;
    forall b | b in s'.bills ensures BillSound(s', b) {
      assert BillSound(s, b);
    }
    forall t | t in s'.parts ensures OrderOk(s', s'.parts[t].row.order) {
      assert OrderOk(s, s.parts[t].row.order);
    }
  }

  lemma StepKeepsPayments(s: System, step: Step)
    requires PaymentsInv(s)
    ensures PaymentsInv(Do(s, step))
  {
    hide SystemInv, OrdersSound, BillsSound, OrderOk, ShareTaken, BillOk, WithShares, Advance, Spawn, Delivered,
      L.After;
    StepKeeps(s, step);
    match step
    case OpenBill(bill, total, currency, ids, amounts) =>
      if BillOk(s, bill, total, ids, amounts) { OpenBillKeeps(s, bill, total, currency, ids, amounts); }
    case Create(t, o) =>
      if Do(s, step) != s {
        CreateKeeps(s, t, o);
        SameBills(s, Do(s, step));
      }
    case Claim(t, w, now, leaseMs) =>
      if t in s.parts {
        OrderConstant(s.parts[t], w, Proceed, now, s.maxAttempts, leaseMs);
        SameOrders(s, Do(s, step));
      }
    case Work(t, w, choice, now) =>
      if t in s.parts {
        OrderConstant(s.parts[t], w, choice, now, s.maxAttempts, 0);
        SameOrders(s, Do(s, step));
      }
    case Public(_, _) => SameOrders(s, Do(s, step));
    case Deliver(t, call, d, now) =>
      if t in s.parts {
        DeliveredShape(s, t, call, d, now);
        SameOrders(s, Do(s, step));
      }
  }

  lemma SameBills(s: System, s': System)
    requires BillsSound(s) && s'.bills == s.bills && s'.shares == s.shares
    ensures BillsSound(s')
  {
    hide AmountOf;
    forall b | b in s'.bills ensures BillSound(s', b) {
      assert BillSound(s, b);
    }
  }

  lemma DeliveredShape(s: System, t: Id, call: Call, d: Delivery, now: Time)
    requires t in s.parts
    ensures var s' := Delivered(s, t, call, d, now);
      && s'.bills == s.bills && s'.shares == s.shares && s'.parts.Keys == s.parts.Keys
      && forall u :: u in s.parts ==> s'.parts[u].row == s.parts[u].row
  {
    hide L.Exec, Validates, CommandOf;
  }

  lemma {:induction false} RunKeepsPayments(maxAttempts: nat, steps: seq<Step>)
    ensures PaymentsInv(After(maxAttempts, steps))
  {
    hide Do, PaymentsInv;
    if |steps| == 0 {
      InitialInv(maxAttempts);
      InitialPayments(maxAttempts);
    } else {
      RunKeepsPayments(maxAttempts, steps[..|steps| - 1]);
      StepKeepsPayments(After(maxAttempts, steps[..|steps| - 1]), steps[|steps| - 1]);
    }
  }

  lemma InitialPayments(maxAttempts: nat)
    requires SystemInv(Initial(maxAttempts))
    ensures PaymentsInv(Initial(maxAttempts))
  {
  }

  // --------------------------------------------------------------- what is collected

  /** The transfer that pays a share, if there is one. */
  ghost function TransferOf(s: System, share: Id): Option<Id> {
    if ShareTaken(s, share) then
      var t :| t in s.parts && s.parts[t].row.order.share == Some(share);
      Some(t)
    else None
  }

  /** The money the ledger has credited for a share. */
  ghost function Collected(s: System, share: Id): int {
    var t := TransferOf(s, share);
    if t.Some? && t.value in s.db.receipts then s.db.receipts[t.value].destAmount else 0
  }

  ghost function CollectedOver(s: System, ids: seq<Id>): int {
    if |ids| == 0 then 0 else CollectedOver(s, ids[..|ids| - 1]) + Collected(s, ids[|ids| - 1])
  }

  /** `shareView`: a share is paid when its transfer is completed. */
  ghost predicate Paid(s: System, share: Id) {
    TransferOf(s, share).Some? && s.parts[TransferOf(s, share).value].row.status == Completed
  }

  ghost function PaidCount(s: System, ids: seq<Id>): nat {
    if |ids| == 0 then 0 else PaidCount(s, ids[..|ids| - 1]) + if Paid(s, ids[|ids| - 1]) then 1 else 0
  }

  datatype BillStatus = BillPending | PartiallyPaid | BillSettled

  function DeriveStatus(paid: nat, total: nat): BillStatus {
    if total > 0 && paid == total then BillSettled
    else if paid > 0 then PartiallyPaid
    else BillPending
  }

  function StatusRank(b: BillStatus): nat {
    match b
    case BillPending => 0
    case PartiallyPaid => 1
    case BillSettled => 2
  }

  /** `toView`'s derived status. */
  ghost function ViewStatus(s: System, b: Id): BillStatus
    requires b in s.bills
  {
    DeriveStatus(PaidCount(s, s.bills[b].shares), |s.bills[b].shares|)
  }

  lemma {:induction false} PaidCountMeans(s: System, ids: seq<Id>)
    ensures PaidCount(s, ids) <= |ids|
    ensures PaidCount(s, ids) == |ids| <==> forall i :: 0 <= i < |ids| ==> Paid(s, ids[i])
    ensures PaidCount(s, ids) == 0 <==> forall i :: 0 <= i < |ids| ==> !Paid(s, ids[i])
  {
    hide Paid;
    if |ids| > 0 {
      var front := ids[..|ids| - 1];
      PaidCountMeans(s, front);
      assert forall i :: 0 <= i < |front| ==> front[i] == ids[i];
    }
  }

  /** What each status of a bill says about its shares. */
  lemma StatusMeans(s: System, b: Id)
    requires b in s.bills
    ensures var ids, status := s.bills[b].shares, ViewStatus(s, b);
      && (status == BillSettled <==> |ids| > 0 && forall i :: 0 <= i < |ids| ==> Paid(s, ids[i]))
      && (status == PartiallyPaid <==>
            (exists i :: 0 <= i < |ids| && Paid(s, ids[i])) && (exists i :: 0 <= i < |ids| && !Paid(s, ids[i])))
      && (status == BillPending <==> forall i :: 0 <= i < |ids| ==> !Paid(s, ids[i]))
  {
    hide Paid, PaidCount;
    PaidCountMeans(s, s.bills[b].shares);
  }

  /** A share collects nothing, or exactly its amount; a paid share has been collected. */
  lemma ShareCollected(s: System, share: Id)
    requires PaymentsInv(s) && share in s.shares && s.shares[share].amount > 0
    ensures Collected(s, share) == 0 || Collected(s, share) == s.shares[share].amount
    ensures Paid(s, share) ==> Collected(s, share) == s.shares[share].amount
  {
    hide L.Inv, HistoryOk, WorkersOk, MessagesOk, BillsSound, FxQuote.Quote, L.HoldOf, Ever;
    if ShareTaken(s, share) {
      var t := TransferOf(s, share).value;
      var o := s.parts[t].row.order;
      assert OrderOk(s, o);
      FxQuote.QuoteIsNearest(o.amount, o.currency, o.destCurrency);
      FxQuote.QuoteSameCurrency(o.amount, o.currency);
      assert PartInv(ViewOf(s.db, t, s.parts[t]), s.parts[t]);
    }
  }

  lemma {:induction false} BillCollected(s: System, ids: seq<Id>)
    requires PaymentsInv(s)
    requires forall i :: 0 <= i < |ids| ==> ids[i] in s.shares && s.shares[ids[i]].amount > 0
    ensures 0 <= CollectedOver(s, ids) <= AmountOf(s.shares, ids)
    ensures PaidCount(s, ids) <= |ids|
    ensures PaidCount(s, ids) == |ids| ==> CollectedOver(s, ids) == AmountOf(s.shares, ids)
  {
    hide PaymentsInv, Collected, Paid;
    if |ids| > 0 {
      BillCollected(s, ids[..|ids| - 1]);
      ShareCollected(s, ids[|ids| - 1]);
    }
  }

  /**
   * Split bills never over-collect: after any run a bill has collected at most its total, and a
   * view that says Settled means that the total has been collected exactly.
   */
  lemma NeverOverCollects(maxAttempts: nat, steps: seq<Step>, b: Id)
    requires b in After(maxAttempts, steps).bills
    ensures var s := After(maxAttempts, steps);
      && 0 <= CollectedOver(s, s.bills[b].shares) <= s.bills[b].total
      && (ViewStatus(s, b) == BillSettled ==> CollectedOver(s, s.bills[b].shares) == s.bills[b].total)
  {
    hide Run, SystemInv, OrdersSound, CollectedOver, PaidCount, AmountOf;
    RunKeepsPayments(maxAttempts, steps);
    var s := After(maxAttempts, steps);
    assert BillSound(s, b);
    BillCollected(s, s.bills[b].shares);
  }

  // ------------------------------------------------------------- status over time

  lemma PaidIsCompleted(s: System, share: Id, t: Id)
    requires OrdersSound(s) && t in s.parts && s.parts[t].row.order.share == Some(share)
    ensures TransferOf(s, share) == Some(t)
    ensures Paid(s, share) <==> s.parts[t].row.status == Completed
  {
    hide OrderOk;
    assert ShareTaken(s, share);
  }

  /** One step keeps every order, and every completed transfer completed. */
  lemma StepKeepsCompleted(s: System, step: Step, t: Id)
    requires SystemInv(s) && t in s.parts
    ensures t in Do(s, step).parts && Do(s, step).parts[t].row.order == s.parts[t].row.order
    ensures s.parts[t].row.status == Completed ==> Do(s, step).parts[t].row.status == Completed
  {
    hide SystemInv, OrderOk, ShareTaken, BillOk, WithShares, Advance, Spawn, Delivered, L.After;
    if Terminal(s.parts[t].row.status) {
      TerminalStays(s, step, t);
    }
    match step
    case Claim(u, w, now, leaseMs) =>
      if u in s.parts { OrderConstant(s.parts[u], w, Proceed, now, s.maxAttempts, leaseMs); }
    case Work(u, w, choice, now) =>
      if u in s.parts { OrderConstant(s.parts[u], w, choice, now, s.maxAttempts, 0); }
    case Deliver(u, call, d, now) =>
      if u in s.parts { DeliveredShape(s, u, call, d, now); }
    case _ =>
  }

  lemma PaidStays(s: System, step: Step, share: Id)
    requires PaymentsInv(s) && Paid(s, share)
    ensures Paid(Do(s, step), share)
  {
    hide SystemInv, BillsSound, OrdersSound, Do;
    var t := TransferOf(s, share).value;
    StepKeepsCompleted(s, step, t);
    StepKeepsPayments(s, step);
    PaidIsCompleted(Do(s, step), share, t);
  }

  lemma {:induction false} PaidCountGrows(s: System, step: Step, ids: seq<Id>)
    requires PaymentsInv(s)
    ensures PaidCount(s, ids) <= PaidCount(Do(s, step), ids) <= |ids|
  {
    hide PaymentsInv, Do, Paid;
    if |ids| > 0 {
      PaidCountGrows(s, step, ids[..|ids| - 1]);
      if Paid(s, ids[|ids| - 1]) {
        PaidStays(s, step, ids[|ids| - 1]);
      }
    }
  }

  lemma BillsStay(s: System, step: Step, b: Id)
    requires b in s.bills
    ensures b in Do(s, step).bills && Do(s, step).bills[b] == s.bills[b]
  {
    hide OrderOk, ShareTaken, WithShares, Advance, Spawn, L.After, L.Exec, Validates, CommandOf;
  }

  /** The derived status of a bill never moves backwards. */
  lemma {:induction false} StatusNeverMovesBack(maxAttempts: nat, steps: seq<Step>, more: seq<Step>, b: Id)
    requires b in After(maxAttempts, steps).bills
    ensures b in After(maxAttempts, steps + more).bills
    ensures After(maxAttempts, steps + more).bills[b] == After(maxAttempts, steps).bills[b]
    ensures StatusRank(ViewStatus(After(maxAttempts, steps), b))
         <= StatusRank(ViewStatus(After(maxAttempts, steps + more), b))
    decreases |more|
  {
    hide Do, PaymentsInv, PaidCount;
    if |more| == 0 {
      assert steps + more == steps;
    } else {
      var all := steps + more;
      var front := all[..|all| - 1];
      assert front == steps + more[..|more| - 1];
      StatusNeverMovesBack(maxAttempts, steps, more[..|more| - 1], b);
      RunKeepsPayments(maxAttempts, front);
      var s := After(maxAttempts, front);
      BillsStay(s, more[|more| - 1], b);
      PaidCountGrows(s, more[|more| - 1], s.bills[b].shares);
    }
  }
}
