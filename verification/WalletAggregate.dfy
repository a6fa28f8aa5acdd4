/** The event-sourced wallet: wallet.aggregate.ts. */
module WalletAggregate {
  import opened Base
  import opened LedgerTransactions

  datatype HoldStatus = Active | Released | Consumed

  datatype Hold = Hold(amount: int, status: HoldStatus)

  datatype Payload =
    | WalletCreated(owner: Id, currency: Currency)
    | MoneyDeposited(tx: Transaction)
    | WithdrawalCompleted(tx: Transaction)
    | FundsHeld(holdId: Id, amount: int)
    | HoldReleased(holdId: Id)
    | HoldConsumed(holdId: Id, tx: Transaction)

  datatype StoredEvent = StoredEvent(
    eventId: Id, streamId: Id, version: nat, schemaVersion: nat, createdAt: Time, payload: Payload)

  /** `order` lists the hold ids by insertion, as a JavaScript `Map` iterates them. */
  datatype Wallet = Wallet(
    id: Id, version: nat, owner: Option<Id>, currency: Option<Currency>,
    balance: int, holds: map<Id, Hold>, order: seq<Id>)

  function Empty(id: Id): Wallet {
    Wallet(id, 0, None, None, 0, map[], [])
  }

  function Reserved(h: Hold): int {
    if h.status == Active then h.amount else 0
  }

  function HeldOver(order: seq<Id>, holds: map<Id, Hold>): int {
    if |order| == 0 then 0
    else
      HeldOver(order[..|order| - 1], holds)
      + (if order[|order| - 1] in holds then Reserved(holds[order[|order| - 1]]) else 0)
  }

  function Held(w: Wallet): int {
    HeldOver(w.order, w.holds)
  }

  function Available(w: Wallet): int {
    w.balance - Held(w)
  }

  // ---------------------------------------------------------------- commands

  function Deposit(w: Wallet, amount: int, tx: TxId): Result<Payload, LedgerError> {
    match CreateTransaction(w.id, amount, tx)
    case Err(e) => Err(e)
    case Ok(t) => Ok(MoneyDeposited(t))
  }

  function Withdraw(w: Wallet, amount: int, tx: TxId): Result<Payload, LedgerError> {
    if Available(w) < amount then Err(InsufficientFunds)
    else
      match CreateTransaction(w.id, -amount, tx)
      case Err(e) => Err(e)
      case Ok(t) => Ok(WithdrawalCompleted(t))
  }

  /** `None` means that the command was already carried out. */
  function PlaceHold(w: Wallet, holdId: Id, amount: int): Result<Option<Payload>, LedgerError> {
    if amount <= 0 then Err(InvalidAmount)
    else if holdId in w.holds then
      if w.holds[holdId].amount != amount then Err(HoldConflict) else Ok(None)
    else if Available(w) < amount then Err(InsufficientFunds)
    else Ok(Some(FundsHeld(holdId, amount)))
  }

  function ReleaseHold(w: Wallet, holdId: Id): Result<Option<Payload>, LedgerError> {
    if holdId !in w.holds then Err(HoldNotFound)
    else
      match w.holds[holdId].status
      case Released => Ok(None)
      case Consumed => Err(HoldAlreadyConsumed)
      case Active => Ok(Some(HoldReleased(holdId)))
  }

  function ConsumeHold(w: Wallet, holdId: Id, tx: TxId): Result<Option<Payload>, LedgerError> {
    if holdId !in w.holds then Err(HoldNotFound)
    else
      match w.holds[holdId].status
      case Consumed => Ok(None)
      case Released => Err(HoldAlreadyReleased)
      case Active =>
        match CreateTransaction(w.id, -w.holds[holdId].amount, tx)
        case Err(e) => Err(e)
        case Ok(t) => Ok(Some(HoldConsumed(holdId, t)))
  }

  // ------------------------------------------------------------------ replay

  function WithHold(w: Wallet, version: nat, holdId: Id, hold: Hold): Wallet {
    w.(version := version,
       holds := w.holds[holdId := hold],
       order := if holdId in w.holds then w.order else w.order + [holdId])
  }

  /** The one amount a balanced transaction posts to the wallet. */
  function WalletAmount(w: Wallet, tx: Transaction): Result<int, LedgerError> {
    if !Balanced(tx.postings) then Err(UnbalancedPostings)
    else
      var own := PostingsTo(tx.postings, WalletAccount(w.id));
      if |own| != 1 then Err(InvalidEvent) else Ok(own[0].amount)
  }

  function ApplyMoney(w: Wallet, version: nat, tx: Transaction): Result<Wallet, LedgerError> {
    match WalletAmount(w, tx)
    case Err(e) => Err(e)
    case Ok(amount) =>
      if w.balance + amount < Held(w) then Err(SpendsReservedFunds)
      else Ok(w.(version := version, balance := w.balance + amount))
  }

  function ApplyConsumed(w: Wallet, version: nat, holdId: Id, tx: Transaction): Result<Wallet, LedgerError> {
    if holdId !in w.holds || w.holds[holdId].status != Active then Err(InvalidEvent)
    else
      match WalletAmount(w, tx)
      case Err(e) => Err(e)
      case Ok(amount) =>
        var hold := w.holds[holdId];
        if amount != -hold.amount then Err(InvalidEvent)
        else Ok(WithHold(w, version, holdId, hold.(status := Consumed)).(balance := w.balance - hold.amount))
  }

  function Apply(w: Wallet, e: StoredEvent): Result<Wallet, LedgerError> {
    if e.version != w.version + 1 then Err(VersionGap)
    else if !e.payload.WalletCreated? && e.schemaVersion != 1 then Err(UnsupportedSchema)
    else
      match e.payload
      case WalletCreated(owner, currency) =>
        if w.version != 0 || (e.schemaVersion != 1 && e.schemaVersion != 2) then Err(InvalidEvent)
        else Ok(Wallet(w.id, e.version, Some(owner), Some(currency), 0, map[], []))
      case MoneyDeposited(tx) => ApplyMoney(w, e.version, tx)
      case WithdrawalCompleted(tx) => ApplyMoney(w, e.version, tx)
      case FundsHeld(holdId, amount) =>
        if holdId in w.holds || amount <= 0 || amount > Available(w) then Err(InvalidEvent)
        else Ok(WithHold(w, e.version, holdId, Hold(amount, Active)))
      case HoldReleased(holdId) =>
        if holdId !in w.holds || w.holds[holdId].status != Active then Err(InvalidEvent)
        else Ok(WithHold(w, e.version, holdId, w.holds[holdId].(status := Released)))
      case HoldConsumed(holdId, tx) => ApplyConsumed(w, e.version, holdId, tx)
  }

  function Rehydrate(id: Id, events: seq<StoredEvent>): Result<Wallet, LedgerError> {
    if |events| == 0 then Ok(Empty(id))
    else
      match Rehydrate(id, events[..|events| - 1])
      case Err(e) => Err(e)
      case Ok(w) => Apply(w, events[|events| - 1])
  }

  // -------------------------------------------------------------- invariants

  predicate Distinct(ids: seq<Id>) {
    forall i, j :: 0 <= i < j < |ids| ==> ids[i] != ids[j]
  }

  /** Every hold is positive and the reserved total never exceeds the balance. */
  ghost predicate Solvent(w: Wallet) {
    && Distinct(w.order)
    && (forall k: Id :: k in w.order <==> k in w.holds)
    && (forall k :: k in w.holds ==> w.holds[k].amount > 0)
    && 0 <= Held(w) <= w.balance
  }

  lemma {:induction false} HeldFrame(order: seq<Id>, holds: map<Id, Hold>, k: Id, h: Hold)
    requires k !in order
    ensures HeldOver(order, holds[k := h]) == HeldOver(order, holds)
  {
    if |order| > 0 {
      HeldFrame(order[..|order| - 1], holds, k, h);
    }
  }

  lemma {:induction false} HeldUpdate(order: seq<Id>, holds: map<Id, Hold>, k: Id, h: Hold)
    requires Distinct(order) && k in order && k in holds
    ensures HeldOver(order, holds[k := h]) == HeldOver(order, holds) - Reserved(holds[k]) + Reserved(h)
  {
    var front := order[..|order| - 1];
    if order[|order| - 1] == k {
      HeldFrame(front, holds, k, h);
    } else {
      HeldUpdate(front, holds, k, h);
    }
  }

  lemma {:induction false} HeldNonNegative(order: seq<Id>, holds: map<Id, Hold>)
    requires forall k :: k in holds ==> holds[k].amount > 0
    ensures HeldOver(order, holds) >= 0
  {
    if |order| > 0 {
      HeldNonNegative(order[..|order| - 1], holds);
    }
  }

  lemma WithHoldHeld(w: Wallet, version: nat, k: Id, h: Hold)
    requires Solvent(w)
    ensures Held(WithHold(w, version, k, h))
      == Held(w) - (if k in w.holds then Reserved(w.holds[k]) else 0) + Reserved(h)
    ensures Distinct(WithHold(w, version, k, h).order)
    ensures forall j: Id :: j in WithHold(w, version, k, h).order <==> j in WithHold(w, version, k, h).holds
  {
    var w' := WithHold(w, version, k, h);
    if k in w.holds {
      HeldUpdate(w.order, w.holds, k, h);
    } else {
      assert w'.order[..|w'.order| - 1] == w.order;
      HeldFrame(w.order, w.holds, k, h);
    }
  }

  lemma EndHoldSolvent(w: Wallet, version: nat, k: Id, status: HoldStatus)
    requires Solvent(w) && k in w.holds && w.holds[k].status == Active && status != Active
    ensures Solvent(WithHold(w, version, k, w.holds[k].(status := status)))
    ensures Held(WithHold(w, version, k, w.holds[k].(status := status))) == Held(w) - w.holds[k].amount
  {
    var w' := WithHold(w, version, k, w.holds[k].(status := status));
    WithHoldHeld(w, version, k, w.holds[k].(status := status));
    HeldNonNegative(w'.order, w'.holds);
  }

  lemma StartHoldSolvent(w: Wallet, version: nat, k: Id, amount: int)
    requires Solvent(w) && k !in w.holds && 0 < amount <= Available(w)
    ensures Solvent(WithHold(w, version, k, Hold(amount, Active)))
  {
    WithHoldHeld(w, version, k, Hold(amount, Active));
  }

  lemma ConsumedSolvent(w: Wallet, version: nat, k: Id, tx: Transaction)
    requires Solvent(w) && ApplyConsumed(w, version, k, tx).Ok?
    ensures Solvent(ApplyConsumed(w, version, k, tx).value)
  {
    EndHoldSolvent(w, version, k, Consumed);
    var next := WithHold(w, version, k, w.holds[k].(status := Consumed));
    var w' := ApplyConsumed(w, version, k, tx).value;
    assert w'.holds == next.holds && w'.order == next.order;
  }

  /** Whatever event the replay accepts keeps the wallet solvent. */
  lemma ApplySolvent(w: Wallet, e: StoredEvent)
    requires Solvent(w) && Apply(w, e).Ok?
    ensures Solvent(Apply(w, e).value)
    ensures Apply(w, e).value.version == w.version + 1
    ensures Apply(w, e).value.id == w.id
  {
    match e.payload
    case WalletCreated(_, _) =>
    case MoneyDeposited(tx) =>
    case WithdrawalCompleted(tx) =>
    case FundsHeld(holdId, amount) =>
      StartHoldSolvent(w, e.version, holdId, amount);
    case HoldReleased(holdId) =>
      EndHoldSolvent(w, e.version, holdId, Released);
    case HoldConsumed(holdId, tx) =>
      ConsumedSolvent(w, e.version, holdId, tx);
  }

  lemma EmptySolvent(id: Id)
    ensures Solvent(Empty(id))
  {
  }

  lemma ApplyVersion(w: Wallet, e: StoredEvent)
    requires Apply(w, e).Ok?
    ensures e.version == w.version + 1
  {
  }

  /**
   * No double spend, at the level of one stream: any event list that replays without error,
   * however it was produced, numbers its events 1..n and ends solvent.
   */
  lemma {:induction false} ReplaySolvent(id: Id, events: seq<StoredEvent>)
    requires Rehydrate(id, events).Ok?
    ensures Solvent(Rehydrate(id, events).value)
    ensures Rehydrate(id, events).value.version == |events|
    ensures Rehydrate(id, events).value.id == id
    ensures forall i :: 0 <= i < |events| ==> events[i].version == i + 1
  {
    hide Apply, Solvent;
    EmptySolvent(id);
    if |events| > 0 {
      var front := events[..|events| - 1];
      ReplaySolvent(id, front);
      ApplySolvent(Rehydrate(id, front).value, events[|events| - 1]);
      ApplyVersion(Rehydrate(id, front).value, events[|events| - 1]);
      assert forall i :: 0 <= i < |front| ==> events[i] == front[i];
    }
  }

  /** What the replay insists on, event by event. */
  ghost predicate WellFormed(id: Id, e: StoredEvent) {
    match e.payload
    case WalletCreated(_, _) => e.version == 1 && (e.schemaVersion == 1 || e.schemaVersion == 2)
    case MoneyDeposited(tx) => e.schemaVersion == 1 && MovesWallet(id, tx)
    case WithdrawalCompleted(tx) => e.schemaVersion == 1 && MovesWallet(id, tx)
    case FundsHeld(_, amount) => e.schemaVersion == 1 && amount > 0
    case HoldReleased(_) => e.schemaVersion == 1
    case HoldConsumed(_, tx) => e.schemaVersion == 1 && MovesWallet(id, tx)
  }

  /** A balanced double entry with one posting on the wallet. */
  ghost predicate MovesWallet(id: Id, tx: Transaction) {
    |tx.postings| >= 2 && Total(tx.postings) == 0 && |PostingsTo(tx.postings, WalletAccount(id))| == 1
  }

  /** A stream with a malformed or unbalanced event anywhere does not replay. */
  lemma {:induction false} ReplayWellFormed(id: Id, events: seq<StoredEvent>)
    requires Rehydrate(id, events).Ok?
    ensures forall i :: 0 <= i < |events| ==> WellFormed(id, events[i])
  {
    hide Apply, Solvent, WellFormed;
    if |events| > 0 {
      var front := events[..|events| - 1];
      ReplayWellFormed(id, front);
      ReplaySolvent(id, front);
      ApplyWellFormed(Rehydrate(id, front).value, events[|events| - 1]);
      assert forall i :: 0 <= i < |front| ==> events[i] == front[i];
    }
  }

  lemma ApplyWellFormed(w: Wallet, e: StoredEvent)
    requires Apply(w, e).Ok?
    ensures WellFormed(w.id, e)
  {
    hide Total, PostingsTo;
  }

  /** What one replayed event may do to one hold: create it active, or end an active one. */
  ghost predicate HoldStep(before: Option<Hold>, after: Option<Hold>) {
    || before == after
    || (before.None? && after.Some? && after.value.status == Active)
    || (before.Some? && before.value.status == Active && after.Some?
        && after.value.amount == before.value.amount && after.value.status != Active)
  }

  function HoldIn(w: Wallet, k: Id): Option<Hold> {
    if k in w.holds then Some(w.holds[k]) else None
  }

  lemma ApplyHoldStep(w: Wallet, e: StoredEvent, k: Id)
    requires Apply(w, e).Ok? && !e.payload.WalletCreated?
    ensures HoldStep(HoldIn(w, k), HoldIn(Apply(w, e).value, k))
  {
  }
}
