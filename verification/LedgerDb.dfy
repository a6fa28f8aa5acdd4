/**
 * The ledger's tables and its commands, each as one serial transaction:
 * event-store.service.ts, wallets.service.ts and the enqueue half of outbox.service.ts.
 */
module LedgerDb {
  import opened Base
  import opened LedgerTransactions
  import opened WalletAggregate

  datatype WalletRow = WalletRow(owner: Id, currency: Currency)

  datatype Projection = Projection(balance: int, held: int, available: int, version: nat)

  /** A row of `ledger_transfer_settlements`; also the terms a settle command asks for. */
  datatype Receipt = Receipt(
    sender: Id, receiver: Id, amount: int, currency: Currency, destAmount: int, destCurrency: Currency)

  /** What an outbox row carries: the stored event and the wallet's owner and currency. */
  datatype Envelope = Envelope(event: StoredEvent, owner: Id, currency: Currency)

  /** `events` is the table `ledger_events` in commit order. */
  datatype Db = Db(
    wallets: map<Id, WalletRow>, events: seq<StoredEvent>, projections: map<Id, Projection>,
    receipts: map<Id, Receipt>, outbox: map<Id, Envelope>)

  const EMPTY_DB := Db(map[], [], map[], map[], map[])

  // ------------------------------------------------------------- event store

  function LoadStream(events: seq<StoredEvent>, id: Id): seq<StoredEvent> {
    if |events| == 0 then []
    else
      var front := LoadStream(events[..|events| - 1], id);
      if events[|events| - 1].streamId == id then front + [events[|events| - 1]] else front
  }

  function LatestVersion(events: seq<StoredEvent>, id: Id): nat {
    var s := LoadStream(events, id);
    if |s| == 0 then 0 else s[|s| - 1].version
  }

  predicate EventIdUsed(events: seq<StoredEvent>, eventId: Id) {
    exists i :: 0 <= i < |events| && events[i].eventId == eventId
  }

  function ProjectionOf(w: Wallet): Projection {
    Projection(w.balance, Held(w), Available(w), w.version)
  }

  function SchemaOf(p: Payload): nat {
    if p.WalletCreated? then 2 else 1
  }

  function Stored(w: Wallet, p: Payload, eventId: Id, now: Time): StoredEvent {
    StoredEvent(eventId, w.id, w.version + 1, SchemaOf(p), now, p)
  }

  /**
   * Appends one event at the expected version `w.version`, enqueues its outbox row and saves
   * the projection of the updated aggregate. `w` is what the session rehydrated, maybe long ago.
   */
  function CommitEvent(db: Db, w: Wallet, p: Payload, eventId: Id, now: Time): Result<Db, LedgerError> {
    if w.id !in db.wallets then Err(WalletNotFound)
    else if LatestVersion(db.events, w.id) != w.version then Err(ExpectedVersion)
    else if EventIdUsed(db.events, eventId) then Err(DuplicateEventId)
    else if eventId in db.outbox then Err(UniqueViolation)
    else
      var e := Stored(w, p, eventId, now);
      match Apply(w, e)
      case Err(err) => Err(err)
      case Ok(w') =>
        Ok(db.(events := db.events + [e],
               outbox := db.outbox[eventId := Envelope(e, db.wallets[w.id].owner, db.wallets[w.id].currency)],
               projections := db.projections[w.id := ProjectionOf(w')]))
  }

  // ---------------------------------------------------------------- commands

  datatype Op =
    | DepositOp(amount: int, tx: Id)
    | WithdrawOp(amount: int, tx: Id)
    | PlaceOp(holdId: Id, amount: int)
    | ReleaseOp(holdId: Id, allowMissing: bool)
    | ConsumeOp(holdId: Id, tx: Id)

  datatype Command =
    | Single(wallet: Id, owner: Id, op: Op, eventId: Id)
    | Settle(transfer: Id, user: Id, terms: Receipt, debitId: Id, creditId: Id)
    | Open(newId: Id, owner: Id, currency: Currency, eventId: Id)

  predicate PositiveAmount(op: Op) {
    match op
    case DepositOp(amount, _) => amount > 0
    case WithdrawOp(amount, _) => amount > 0
    case PlaceOp(_, amount) => amount > 0
    case ReleaseOp(_, _) => true
    case ConsumeOp(_, _) => true
  }

  function Lift(r: Result<Payload, LedgerError>): Result<Option<Payload>, LedgerError> {
    match r
    case Ok(p) => Ok(Some(p))
    case Err(e) => Err(e)
  }

  function Decide(w: Wallet, op: Op): Result<Option<Payload>, LedgerError> {
    match op
    case DepositOp(amount, tx) => Lift(Deposit(w, amount, RandomTx(tx)))
    case WithdrawOp(amount, tx) => Lift(Withdraw(w, amount, RandomTx(tx)))
    case PlaceOp(holdId, amount) => PlaceHold(w, holdId, amount)
    case ReleaseOp(holdId, allowMissing) =>
      if allowMissing && holdId !in w.holds then Ok(None) else ReleaseHold(w, holdId)
    case ConsumeOp(holdId, tx) => ConsumeHold(w, holdId, RandomTx(tx))
  }

  /** Rehydrates a wallet and compares its owner and currency with the wallet row. */
  function LoadAggregate(db: Db, id: Id, stream: seq<StoredEvent>): Result<Wallet, LedgerError> {
    if id !in db.wallets then Err(WalletNotFound)
    else
      match Rehydrate(id, stream)
      case Err(e) => Err(e)
      case Ok(w) =>
        if w.owner != Some(db.wallets[id].owner) || w.currency != Some(db.wallets[id].currency)
        then Err(IdentityMismatch) else Ok(w)
  }

  /** One attempt of a money or hold command whose session loaded `stream`. */
  function SingleAttempt(db: Db, stream: seq<StoredEvent>, wallet: Id, owner: Id, op: Op, eventId: Id, now: Time)
    : Result<Db, LedgerError>
  {
    if !PositiveAmount(op) then Err(InvalidAmount)
    else if wallet !in db.wallets || db.wallets[wallet].owner != owner then Err(WalletNotFound)
    else
      match LoadAggregate(db, wallet, stream)
      case Err(e) => Err(e)
      case Ok(w) =>
        match Decide(w, op)
        case Err(e) => Err(e)
        case Ok(None) => Ok(db)
        case Ok(Some(p)) => CommitEvent(db, w, p, eventId, now)
  }

  predicate TermsPositive(terms: Receipt) {
    terms.amount > 0 && terms.destAmount > 0
  }

  predicate TransferWallets(db: Db, user: Id, terms: Receipt) {
    && terms.sender in db.wallets
    && db.wallets[terms.sender].owner == user
    && db.wallets[terms.sender].currency == terms.currency
    && terms.receiver in db.wallets
    && db.wallets[terms.receiver].currency == terms.destCurrency
  }

  /** The debit that settling `transfer` makes on the sender's wallet. */
  function DecideDebit(w: Wallet, transfer: Id, amount: int): Result<Payload, LedgerError> {
    if transfer !in w.holds then Err(HoldNotFound)
    else if w.holds[transfer].amount != amount then Err(HoldAmountMismatch)
    else
      match ConsumeHold(w, transfer, TransferTx(transfer))
      case Err(e) => Err(e)
      case Ok(None) => Err(ConsumedWithoutReceipt)
      case Ok(Some(p)) => Ok(p)
  }

  function SettlePayloads(ws: Wallet, wr: Wallet, transfer: Id, terms: Receipt)
    : Result<(Payload, Payload), LedgerError>
  {
    match DecideDebit(ws, transfer, terms.amount)
    case Err(e) => Err(e)
    case Ok(debit) =>
      match Deposit(wr, terms.destAmount, TransferTx(transfer))
      case Err(e) => Err(e)
      case Ok(credit) => Ok((debit, credit))
  }

  /** The settlement transaction after its receipt check, from the two streams its session loaded. */
  function SettleAttempt(db: Db, ss: seq<StoredEvent>, rs: seq<StoredEvent>, c: Command, now: Time)
    : Result<Db, LedgerError>
    requires c.Settle?
  {
    if !TermsPositive(c.terms) then Err(InvalidAmount)
    else if !TransferWallets(db, c.user, c.terms) then Err(WalletNotFound)
    else if c.terms.sender == c.terms.receiver then Err(SameWallet)
    else
      match LoadAggregate(db, c.terms.sender, ss)
      case Err(e) => Err(e)
      case Ok(ws) =>
        match LoadAggregate(db, c.terms.receiver, rs)
        case Err(e) => Err(e)
        case Ok(wr) =>
          match SettlePayloads(ws, wr, c.transfer, c.terms)
          case Err(e) => Err(e)
          case Ok(ps) => CommitSettlement(db, ws, wr, ps.0, ps.1, c, now)
  }

  function CommitSettlement(db: Db, ws: Wallet, wr: Wallet, debit: Payload, credit: Payload, c: Command, now: Time)
    : Result<Db, LedgerError>
    requires c.Settle?
  {
    match CommitEvent(db, ws, debit, c.debitId, now)
    case Err(e) => Err(e)
    case Ok(db1) =>
      match CommitEvent(db1, wr, credit, c.creditId, now)
      case Err(e) => Err(e)
      case Ok(db2) =>
        if c.transfer in db2.receipts then Err(UniqueViolation)
        else Ok(db2.(receipts := db2.receipts[c.transfer := c.terms]))
  }

  predicate HasWallet(db: Db, owner: Id, currency: Currency) {
    exists id :: id in db.wallets && db.wallets[id] == WalletRow(owner, currency)
  }

  function OpenAttempt(db: Db, newId: Id, owner: Id, currency: Currency, eventId: Id, now: Time)
    : Result<Db, LedgerError>
  {
    if HasWallet(db, owner, currency) || newId in db.wallets then Err(UniqueViolation)
    else
      CommitEvent(db.(wallets := db.wallets[newId := WalletRow(owner, currency)]),
                  Empty(newId), WalletCreated(owner, currency), eventId, now)
  }

  /** A command run alone: what each service method means when nothing interleaves with it. */
  function Exec(db: Db, c: Command, now: Time): Result<Db, LedgerError> {
    match c
    case Single(wallet, owner, op, eventId) =>
      SingleAttempt(db, LoadStream(db.events, wallet), wallet, owner, op, eventId, now)
    case Settle(transfer, user, terms, _, _) =>
      if !TermsPositive(terms) then Err(InvalidAmount)
      else if transfer in db.receipts then
        if db.receipts[transfer] == terms then Ok(db) else Err(SettlementMismatch)
      else
        SettleAttempt(db, LoadStream(db.events, terms.sender), LoadStream(db.events, terms.receiver), c, now)
    case Open(newId, owner, currency, eventId) =>
      if HasWallet(db, owner, currency) then Ok(db)
      else OpenAttempt(db, newId, owner, currency, eventId, now)
  }

  /** A refused command leaves the tables alone: its transaction rolled back. */
  function After(db: Db, c: Command, now: Time): Db {
    match Exec(db, c, now)
    case Ok(db') => db'
    case Err(_) => db
  }

  /** The hold `k` of a wallet, as its stream says. */
  function HoldOf(db: Db, wallet: Id, k: Id): Option<Hold> {
    match Rehydrate(wallet, LoadStream(db.events, wallet))
    case Ok(w) => HoldIn(w, k)
    case Err(_) => None
  }

  // -------------------------------------------------------------- invariants

  /** The wallet's stream replays to its row's identity and to its saved projection. */
  ghost predicate WalletConsistent(db: Db, id: Id)
    requires id in db.wallets
  {
    var r := Rehydrate(id, LoadStream(db.events, id));
    && r.Ok?
    && r.value.owner == Some(db.wallets[id].owner)
    && r.value.currency == Some(db.wallets[id].currency)
    && id in db.projections
    && db.projections[id] == ProjectionOf(r.value)
  }

  /** Every stored movement is one wallet posting against the clearing account. */
  predicate CanonicalTx(wallet: Id, tx: Transaction) {
    |tx.postings| == 2 && tx.postings == WalletMovement(wallet, tx.postings[0].amount)
  }

  predicate CanonicalPayload(wallet: Id, p: Payload) {
    match p
    case MoneyDeposited(tx) => CanonicalTx(wallet, tx) && tx.postings[0].amount > 0
    case WithdrawalCompleted(tx) => CanonicalTx(wallet, tx) && tx.postings[0].amount < 0
    case HoldConsumed(_, tx) => CanonicalTx(wallet, tx) && tx.postings[0].amount < 0
    case _ => true
  }

  ghost predicate EventsCanonical(db: Db) {
    forall i :: 0 <= i < |db.events| ==>
      db.events[i].streamId in db.wallets && CanonicalPayload(db.events[i].streamId, db.events[i].payload)
  }

  ghost predicate EventIdsUnique(db: Db) {
    forall i, j :: 0 <= i < j < |db.events| ==> db.events[i].eventId != db.events[j].eventId
  }

  /** The outbox holds one row per stored event, and nothing else. */
  ghost predicate OutboxMirrorsEvents(db: Db) {
    && (forall i :: 0 <= i < |db.events| ==>
          && db.events[i].streamId in db.wallets
          && db.events[i].eventId in db.outbox
          && db.outbox[db.events[i].eventId]
             == Envelope(db.events[i], db.wallets[db.events[i].streamId].owner,
               db.wallets[db.events[i].streamId].currency))
    && (forall k :: k in db.outbox ==> db.outbox[k].event in db.events && db.outbox[k].event.eventId == k)
  }

  ghost predicate OwnersUnique(db: Db) {
    forall a, b :: a in db.wallets && b in db.wallets && db.wallets[a] == db.wallets[b] ==> a == b
  }

  ghost predicate StreamsConsistent(db: Db) {
    forall id :: id in db.wallets ==> WalletConsistent(db, id)
  }

  ghost predicate CoreInv(db: Db) {
    && StreamsConsistent(db)
    && EventsCanonical(db)
    && EventIdsUnique(db)
    && OutboxMirrorsEvents(db)
    && OwnersUnique(db)
    && db.projections.Keys == db.wallets.Keys
  }

  predicate IsDebit(e: StoredEvent, t: Id) {
    e.payload.HoldConsumed? && e.payload.tx.id == TransferTx(t)
  }

  predicate IsCredit(e: StoredEvent, t: Id) {
    e.payload.MoneyDeposited? && e.payload.tx.id == TransferTx(t)
  }

  function Debits(events: seq<StoredEvent>, t: Id): seq<StoredEvent> {
    if |events| == 0 then []
    else
      var front := Debits(events[..|events| - 1], t);
      if IsDebit(events[|events| - 1], t) then front + [events[|events| - 1]] else front
  }

  function Credits(events: seq<StoredEvent>, t: Id): seq<StoredEvent> {
    if |events| == 0 then []
    else
      var front := Credits(events[..|events| - 1], t);
      if IsCredit(events[|events| - 1], t) then front + [events[|events| - 1]] else front
  }

  /** The sender's event of a settlement. */
  predicate DebitMatches(e: StoredEvent, t: Id, r: Receipt) {
    e.streamId == r.sender
    && e.payload == HoldConsumed(t, Transaction(TransferTx(t), WalletMovement(r.sender, -r.amount)))
  }

  /** The receiver's event of a settlement. */
  predicate CreditMatches(e: StoredEvent, t: Id, r: Receipt) {
    e.streamId == r.receiver
    && e.payload == MoneyDeposited(Transaction(TransferTx(t), WalletMovement(r.receiver, r.destAmount)))
  }

  ghost predicate ReceiptLegit(db: Db, r: Receipt) {
    && TermsPositive(r)
    && r.sender != r.receiver
    && r.sender in db.wallets && db.wallets[r.sender].currency == r.currency
    && r.receiver in db.wallets && db.wallets[r.receiver].currency == r.destCurrency
  }

  /**
   * Exactly-once settlement of `t`: with a receipt, the whole table holds one debit and one
   * credit of `t`, in the receipt's streams and for its amounts; without one it holds neither.
   */
  ghost predicate SettledExactlyOnce(db: Db, t: Id) {
    var debits, credits := Debits(db.events, t), Credits(db.events, t);
    if t in db.receipts then
      && ReceiptLegit(db, db.receipts[t])
      && |debits| == 1 && DebitMatches(debits[0], t, db.receipts[t])
      && |credits| == 1 && CreditMatches(credits[0], t, db.receipts[t])
    else
      debits == [] && credits == []
  }

  ghost predicate ReceiptsInv(db: Db) {
    forall t: Id :: SettledExactlyOnce(db, t)
  }

  ghost predicate Inv(db: Db) {
    CoreInv(db) && ReceiptsInv(db)
  }
}
