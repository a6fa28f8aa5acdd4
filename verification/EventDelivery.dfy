/**
 * From a committed ledger event to the activity feed: the outbox relay with its expiring locks, an
 * at-least-once broker, and the deduplicating consumer. All steps interleave; a relay or consumer
 * may stop anywhere, a lock may expire mid-publish, and a publish may reach the broker unconfirmed.
 */
module EventDelivery {
  import opened Base
  import opened Backoff
  import L = LedgerDb
  import LI = LedgerInvariants
  import W = WalletAggregate

  const LOCK_DURATION_MS := 30_000

  /** The delivery columns of `integration_outbox`. */
  datatype OutboxRow = OutboxRow(
    attempts: nat, availableAt: Time, lockedUntil: Option<Time>, lockId: Option<Id>, publishedAt: Option<Time>)

  /** A message as the consumer sees it; `body` is the rest of the envelope. */
  datatype Message = Message(eventId: Id, producer: string, eventType: string, routingKey: string, body: L.Envelope)

  /** A relay's claimed batch: what is left of it, and whether its head is confirmed. */
  datatype Relay = Relay(batch: seq<Claimed>, confirmed: bool)

  datatype Claimed = Claimed(eventId: Id, attempts: nat)

  /** A row of the feed keeps the whole envelope as it arrived. */
  datatype FeedItem = FeedItem(eventId: Id, event: L.Envelope)

  datatype Broker = Broker(queue: multiset<Message>, deadLetters: multiset<Message>)

  /** The consumer's tables: `processed_messages` and the activity feed. */
  datatype Inbox = Inbox(processed: set<Id>, feed: seq<FeedItem>)

  /** `relays` are keyed by lock id; `confirms` counts the confirmed publishes of each event. */
  datatype State = State(
    db: L.Db, rows: map<Id, OutboxRow>, relays: map<Id, Relay>, usedLocks: set<Id>, confirms: map<Id, nat>,
    broker: Broker, inbox: Inbox)

  datatype Step =
    | Commit(command: L.Command, now: Time)
    | ClaimBatch(lock: Id, batch: seq<Id>, now: Time)
    | Publish(lock: Id, confirmed: bool, reached: bool)
    | MarkPublished(lock: Id, now: Time)
    | MarkFailed(lock: Id, now: Time)
    | StopRelay(lock: Id)
    | Stranger(message: Message)
    | Consume(message: Message, acknowledged: bool)
    | HandlerFails(message: Message)

  const INITIAL := State(L.EMPTY_DB, map[], map[], {}, map[], Broker(multiset{}, multiset{}), Inbox({}, []))

  // -------------------------------------------------------------- the producer

  function NewOutboxRow(now: Time): OutboxRow {
    OutboxRow(0, now, None, None, None)
  }

  function EventName(p: W.Payload): string {
    match p
    case WalletCreated(_, _) => "WalletCreated"
    case MoneyDeposited(_) => "MoneyDeposited"
    case WithdrawalCompleted(_) => "WithdrawalCompleted"
    case FundsHeld(_, _) => "FundsHeld"
    case HoldReleased(_) => "HoldReleased"
    case HoldConsumed(_, _) => "HoldConsumed"
  }

  /** `walletRoutingKey`: a hyphen before each inner capital, and all in lower case. */
  function Kebab(s: string): string {
    if |s| == 0 then ""
    else
      var hyphen := |s| > 1 && ('a' <= s[0] <= 'z' || '0' <= s[0] <= '9') && 'A' <= s[1] <= 'Z';
      [LowerCase(s[0])] + (if hyphen then "-" else "") + Kebab(s[1..])
  }

  function LowerCase(c: char): char {
    if 'A' <= c <= 'Z' then c + ' ' else c
  }

  function RoutingName(p: W.Payload): string {
    Kebab(EventName(p))
  }

  /** A consumer can tell the kinds of events apart by their names. */
  lemma EventNamesDistinct(p: W.Payload, q: W.Payload)
    requires EventName(p) == EventName(q)
    ensures p.WalletCreated? == q.WalletCreated? && p.MoneyDeposited? == q.MoneyDeposited?
    ensures p.WithdrawalCompleted? == q.WithdrawalCompleted? && p.FundsHeld? == q.FundsHeld?
    ensures p.HoldReleased? == q.HoldReleased? && p.HoldConsumed? == q.HoldConsumed?
  {
  }

  lemma {:induction false} KebabIsLower(s: string)
    ensures forall i :: 0 <= i < |Kebab(s)| ==> !('A' <= Kebab(s)[i] <= 'Z')
  {
    if |s| > 0 { KebabIsLower(s[1..]); }
  }

  function MessageOf(e: L.Envelope): Message {
    Message(e.event.eventId, "ledger-service", "ledger.wallet." + EventName(e.event.payload),
            "ledger.wallet." + RoutingName(e.event.payload) + ".v1", e)
  }

  /** A ledger command commits, and with it the outbox rows of its events. */
  function Committed(s: State, c: L.Command, now: Time): State {
    var db' := L.After(s.db, c, now);
    s.(db := db', rows := map k | k in db'.outbox.Keys :: if k in s.rows then s.rows[k] else NewOutboxRow(now))
  }

  // ------------------------------------------------------------------ the relay

  predicate Claimable(r: OutboxRow, now: Time) {
    && r.publishedAt.None?
    && r.availableAt <= now
    && (r.lockedUntil.Some? ==> r.lockedUntil.value < now)
  }

  /** `claim` takes any eligible rows, as `SKIP LOCKED` may. */
  predicate BatchOk(s: State, batch: seq<Id>, now: Time) {
    && (forall i :: 0 <= i < |batch| ==> batch[i] in s.rows && Claimable(s.rows[batch[i]], now))
    && (forall i, j :: 0 <= i < j < |batch| ==> batch[i] != batch[j])
  }

  function Locked(r: OutboxRow, lock: Id, now: Time): OutboxRow {
    r.(lockId := Some(lock), lockedUntil := Some(now + LOCK_DURATION_MS))
  }

  function LockRows(rows: map<Id, OutboxRow>, batch: seq<Id>, lock: Id, now: Time): map<Id, OutboxRow> {
    map k | k in rows :: if k in batch then Locked(rows[k], lock, now) else rows[k]
  }

  function PublishedRow(r: OutboxRow, now: Time): OutboxRow {
    r.(publishedAt := Some(now), lockedUntil := None, lockId := None)
  }

  function FailedRow(r: OutboxRow, claimedAttempts: nat, now: Time): OutboxRow {
    r.(attempts := claimedAttempts + 1, availableAt := now + RetryDelay(claimedAttempts + 1), lockedUntil := None,
      lockId := None)
  }

  /** The conditional update `WHERE event_id = … AND lock_id = …`. */
  function UpdateLocked(rows: map<Id, OutboxRow>, eventId: Id, lock: Id, row: OutboxRow): map<Id, OutboxRow> {
    if eventId in rows && rows[eventId].lockId == Some(lock) then rows[eventId := row] else rows
  }

  function Delivered(b: Broker, m: Message): Broker {
    Broker(b.queue + multiset{m}, b.deadLetters)
  }

  function AfterPublish(s: State, lock: Id, confirmed: bool, reached: bool): State {
    if lock !in s.relays || |s.relays[lock].batch| == 0 || s.relays[lock].confirmed then s
    else
      var id := s.relays[lock].batch[0].eventId;
      if id !in s.db.outbox then s
      else
        s.(broker := if reached || confirmed then Delivered(s.broker, MessageOf(s.db.outbox[id])) else s.broker,
           relays := if confirmed then s.relays[lock := s.relays[lock].(confirmed := true)] else s.relays,
           confirms := if confirmed then s.confirms[id := Confirms(s, id) + 1] else s.confirms)
  }

  function Confirms(s: State, id: Id): nat {
    if id in s.confirms then s.confirms[id] else 0
  }

  /** The relay moves on to the next message of its batch. */
  function Advanced(r: Relay): Relay
    requires |r.batch| > 0
  {
    Relay(r.batch[1..], false)
  }

  // --------------------------------------------------------------- the consumer

  predicate StartsWith(s: string, prefix: string) {
    prefix <= s
  }

  predicate Trusted(m: Message) {
    || (m.producer == "ledger-service" && StartsWith(m.eventType, "ledger.wallet.")
         && StartsWith(m.routingKey, "ledger."))
    || (m.producer == "payments-service" && StartsWith(m.eventType, "payments.")
         && StartsWith(m.routingKey, "payments."))
  }

  /** The inbox transaction: the dedupe marker and the handler's feed item, together or not at all. */
  function Recorded(inbox: Inbox, m: Message): Inbox {
    if !Trusted(m) || m.eventId in inbox.processed then inbox
    else Inbox(inbox.processed + {m.eventId}, inbox.feed + [FeedItem(m.eventId, m.body)])
  }

  /** Dead-letters an untrusted message; without the ack a trusted one stays for redelivery. */
  function Answered(b: Broker, m: Message, acknowledged: bool): Broker {
    if !Trusted(m) then Broker(b.queue - multiset{m}, b.deadLetters + multiset{m})
    else if acknowledged then Broker(b.queue - multiset{m}, b.deadLetters)
    else b
  }

  function Consumed(s: State, m: Message, acknowledged: bool): State {
    if m !in s.broker.queue then s
    else s.(broker := Answered(s.broker, m, acknowledged), inbox := Recorded(s.inbox, m))
  }

  function Do(s: State, step: Step): State {
    match step
    case Commit(c, now) => Committed(s, c, now)
    case ClaimBatch(lock, batch, now) =>
      if lock in s.usedLocks || !BatchOk(s, batch, now) then s
      else s.(rows := LockRows(s.rows, batch, lock, now),
              relays := s.relays[lock := Relay(seq(|batch|, i requires 0 <= i < |batch| =>
                Claimed(batch[i], if batch[i] in s.rows then s.rows[batch[i]].attempts else 0)), false)],
              usedLocks := s.usedLocks + {lock})
    case Publish(lock, confirmed, reached) => AfterPublish(s, lock, confirmed, reached)
    case MarkPublished(lock, now) =>
      if lock !in s.relays || |s.relays[lock].batch| == 0 || !s.relays[lock].confirmed then s
      else
        var c := s.relays[lock].batch[0];
        s.(relays := s.relays[lock := Advanced(s.relays[lock])],
           rows := if c.eventId !in s.rows then s.rows
                   else UpdateLocked(s.rows, c.eventId, lock, PublishedRow(s.rows[c.eventId], now)))
    case MarkFailed(lock, now) =>
      if lock !in s.relays || |s.relays[lock].batch| == 0 then s
      else
        var c := s.relays[lock].batch[0];
        s.(relays := s.relays[lock := Advanced(s.relays[lock])],
           rows := if c.eventId !in s.rows then s.rows
                   else UpdateLocked(s.rows, c.eventId, lock, FailedRow(s.rows[c.eventId], c.attempts, now)))
    case StopRelay(lock) => s.(relays := s.relays - {lock})
    case Stranger(m) => if Trusted(m) then s else s.(broker := Delivered(s.broker, m))
    case Consume(m, acknowledged) => Consumed(s, m, acknowledged)
    case HandlerFails(_) => s
  }

  function Run(s: State, steps: seq<Step>): State {
    if |steps| == 0 then s else Do(Run(s, steps[..|steps| - 1]), steps[|steps| - 1])
  }

  // --------------------------------------------------------------- invariant

  ghost predicate RowsMirrorOutbox(s: State) {
    s.rows.Keys == s.db.outbox.Keys
  }

  /** Marked published only after a confirmed publish; a confirmed relay head is a confirmed event. */
  ghost predicate PublishedConfirmed(s: State) {
    && (forall k :: k in s.rows && s.rows[k].publishedAt.Some? ==> Confirms(s, k) >= 1)
    && (forall l :: l in s.relays && s.relays[l].confirmed ==>
         |s.relays[l].batch| > 0 && Confirms(s, s.relays[l].batch[0].eventId) >= 1)
  }

  /** What the broker holds is a committed event's own message, or is not trusted. */
  ghost predicate QueueGenuine(s: State) {
    && (forall m :: m in s.broker.queue && Trusted(m) ==>
         m.eventId in s.db.outbox && m == MessageOf(s.db.outbox[m.eventId]))
    && (forall m :: m in s.broker.deadLetters ==> !Trusted(m))
  }

  /** A confirmed event is in the feed, or still in the broker. */
  ghost predicate NothingLost(s: State) {
    forall k :: Confirms(s, k) >= 1 ==>
      k in s.db.outbox && (k in s.inbox.processed || MessageOf(s.db.outbox[k]) in s.broker.queue)
  }

  /** One feed item per marked event, each with the contents its outbox row committed. */
  ghost predicate FeedExact(inbox: Inbox, outbox: map<Id, L.Envelope>) {
    && (forall i :: 0 <= i < |inbox.feed| ==>
          inbox.feed[i].eventId in outbox && inbox.feed[i].event == outbox[inbox.feed[i].eventId])
    && (forall i, j :: 0 <= i < j < |inbox.feed| ==> inbox.feed[i].eventId != inbox.feed[j].eventId)
    && (forall k :: k in inbox.processed <==> exists i :: 0 <= i < |inbox.feed| && inbox.feed[i].eventId == k)
  }

  ghost predicate Inv(s: State) {
    && L.Inv(s.db)
    && RowsMirrorOutbox(s)
    && PublishedConfirmed(s)
    && QueueGenuine(s)
    && NothingLost(s)
    && FeedExact(s.inbox, s.db.outbox)
  }

  // ------------------------------------------------------------------- proof

  lemma {:induction false} PrefixTrusted(a: string, b: string)
    ensures StartsWith(a + b, a)
  {
    assert (a + b)[..|a|] == a;
  }

  /** The relay's own messages pass the consumer's trust check and keep their event id. */
  lemma OwnMessagesTrusted(e: L.Envelope)
    ensures Trusted(MessageOf(e)) && MessageOf(e).eventId == e.event.eventId
  {
    hide EventName, RoutingName;
    PrefixTrusted("ledger.wallet.", EventName(e.event.payload));
    var rest := RoutingName(e.event.payload) + ".v1";
    PrefixTrusted("ledger.wallet.", rest);
    assert "ledger.wallet." + rest == "ledger.wallet." + RoutingName(e.event.payload) + ".v1";
    assert "ledger." <= "ledger.wallet.";
  }

  lemma PrefixIff(s: string, prefix: string)
    ensures StartsWith(s, prefix) <==> exists rest :: s == prefix + rest
  {
    if StartsWith(s, prefix) {
      assert s == prefix + s[|prefix|..];
    }
    forall rest | s == prefix + rest ensures StartsWith(s, prefix) {
      PrefixTrusted(prefix, rest);
    }
  }

  /** Who is trusted: each service for its own event types and its own routing keys, and no one else. */
  lemma TrustedIff(m: Message)
    ensures Trusted(m) <==>
      || (m.producer == "ledger-service"
          && (exists rest :: m.eventType == "ledger.wallet." + rest)
          && (exists rest :: m.routingKey == "ledger." + rest))
      || (m.producer == "payments-service"
          && (exists rest :: m.eventType == "payments." + rest) && (exists rest :: m.routingKey == "payments." + rest))
  {
    hide StartsWith;
    PrefixIff(m.eventType, "ledger.wallet.");
    PrefixIff(m.routingKey, "ledger.");
    PrefixIff(m.eventType, "payments.");
    PrefixIff(m.routingKey, "payments.");
  }

  /** Outbox rows are written once. */
  lemma OutboxGrows(db: L.Db, c: L.Command, now: Time)
    ensures forall k :: k in db.outbox ==>
      k in L.After(db, c, now).outbox && L.After(db, c, now).outbox[k] == db.outbox[k]
  {
    hide L.LoadStream, W.Rehydrate, L.Decide, L.LatestVersion, W.Apply, L.LoadAggregate, L.SettlePayloads,
      L.EventIdUsed;
  }

  lemma OutboxKeys(db: L.Db, k: Id)
    requires L.Inv(db) && k in db.outbox
    ensures db.outbox[k].event.eventId == k
  {
    assert L.OutboxMirrorsEvents(db);
  }

  /** A growing outbox disturbs neither the broker nor the feed. */
  lemma OutboxGrowthKeeps(s: State, s': State)
    requires Inv(s) && s'.broker == s.broker && s'.inbox == s.inbox && s'.confirms == s.confirms
    requires forall k :: k in s.db.outbox ==> k in s'.db.outbox && s'.db.outbox[k] == s.db.outbox[k]
    ensures QueueGenuine(s') && NothingLost(s') && FeedExact(s'.inbox, s'.db.outbox)
  {
    hide L.Inv, Trusted, MessageOf, PublishedConfirmed;
    assert forall k :: Confirms(s', k) == Confirms(s, k);
  }

  lemma CommitKeeps(s: State, c: L.Command, now: Time)
    requires Inv(s)
    ensures Inv(Committed(s, c, now))
  {
    hide L.Inv, L.After, QueueGenuine, NothingLost, FeedExact;
    LI.AfterKeepsInv(s.db, c, now);
    OutboxGrows(s.db, c, now);
    var s' := Committed(s, c, now);
    OutboxGrowthKeeps(s, s');
    assert forall k :: Confirms(s', k) == Confirms(s, k);
  }

  lemma DeliveredGenuine(s: State, id: Id)
    requires L.Inv(s.db) && QueueGenuine(s) && id in s.db.outbox
    ensures QueueGenuine(s.(broker := Delivered(s.broker, MessageOf(s.db.outbox[id]))))
  {
    hide L.Inv, Trusted, MessageOf;
    OutboxKeys(s.db, id);
    OwnMessagesTrusted(s.db.outbox[id]);
  }

  lemma PublishQueue(s: State, lock: Id, confirmed: bool, reached: bool)
    requires L.Inv(s.db) && QueueGenuine(s)
    ensures QueueGenuine(AfterPublish(s, lock, confirmed, reached))
  {
    hide L.Inv, Trusted, MessageOf, Delivered;
    if lock in s.relays && |s.relays[lock].batch| > 0 && s.relays[lock].batch[0].eventId in s.db.outbox {
      DeliveredGenuine(s, s.relays[lock].batch[0].eventId);
    }
  }

  lemma PublishLosesNothing(s: State, lock: Id, confirmed: bool, reached: bool)
    requires NothingLost(s)
    ensures NothingLost(AfterPublish(s, lock, confirmed, reached))
  {
    hide L.Inv, Trusted, MessageOf;
  }

  lemma PublishConfirmed(s: State, lock: Id, confirmed: bool, reached: bool)
    requires PublishedConfirmed(s)
    ensures PublishedConfirmed(AfterPublish(s, lock, confirmed, reached))
  {
    hide L.Inv, Trusted, MessageOf, Delivered;
  }

  lemma PublishKeeps(s: State, lock: Id, confirmed: bool, reached: bool)
    requires Inv(s)
    ensures Inv(AfterPublish(s, lock, confirmed, reached))
  {
    hide L.Inv, Trusted, MessageOf, FeedExact, PublishedConfirmed, QueueGenuine, NothingLost, AfterPublish;
    PublishShape(s, lock, confirmed, reached);
    PublishQueue(s, lock, confirmed, reached);
    PublishLosesNothing(s, lock, confirmed, reached);
    PublishConfirmed(s, lock, confirmed, reached);
  }

  lemma PublishShape(s: State, lock: Id, confirmed: bool, reached: bool)
    ensures var s' := AfterPublish(s, lock, confirmed, reached);
      s'.db == s.db && s'.rows == s.rows && s'.inbox == s.inbox
  {
    hide MessageOf;
  }

  lemma ConsumedQueue(s: State, m: Message, acknowledged: bool)
    requires QueueGenuine(s)
    ensures QueueGenuine(Consumed(s, m, acknowledged))
  {
    hide Trusted, MessageOf, Recorded;
  }

  lemma ConsumedLosesNothing(s: State, m: Message, acknowledged: bool)
    requires L.Inv(s.db) && QueueGenuine(s) && NothingLost(s)
    ensures NothingLost(Consumed(s, m, acknowledged))
  {
    hide L.Inv, Trusted, MessageOf;
    var s' := Consumed(s, m, acknowledged);
    forall k | Confirms(s', k) >= 1
      ensures k in s'.db.outbox && (k in s'.inbox.processed || MessageOf(s'.db.outbox[k]) in s'.broker.queue)
    {
      assert Confirms(s, k) >= 1;
      OutboxKeys(s.db, k);
      OwnMessagesTrusted(s.db.outbox[k]);
    }
  }

  lemma QueuedBody(s: State, m: Message)
    requires QueueGenuine(s) && m in s.broker.queue && Trusted(m)
    ensures m.eventId in s.db.outbox && m.body == s.db.outbox[m.eventId]
  {
    hide Trusted, EventName, RoutingName;
  }

  lemma ConsumeKeeps(s: State, m: Message, acknowledged: bool)
    requires Inv(s)
    ensures Inv(Consumed(s, m, acknowledged))
  {
    hide L.Inv, Trusted, MessageOf, PublishedConfirmed, NothingLost, FeedExact, QueueGenuine, Recorded, Answered;
    var s' := Consumed(s, m, acknowledged);
    RelaysUntouched(s, s');
    ConsumedQueue(s, m, acknowledged);
    ConsumedLosesNothing(s, m, acknowledged);
    if m in s.broker.queue {
      if Trusted(m) { QueuedBody(s, m); }
      RecordedExact(s.inbox, s.db.outbox, m);
    }
  }

  lemma RelaysUntouched(s: State, s': State)
    requires PublishedConfirmed(s) && s'.rows == s.rows && s'.relays == s.relays && s'.confirms == s.confirms
    ensures PublishedConfirmed(s')
  {
  }

  /** Recording a message keeps the feed exact: one item per marked event. */
  lemma RecordedExact(inbox: Inbox, outbox: map<Id, L.Envelope>, m: Message)
    requires FeedExact(inbox, outbox) && (Trusted(m) ==> m.eventId in outbox && m.body == outbox[m.eventId])
    ensures FeedExact(Recorded(inbox, m), outbox)
  {
    hide Trusted;
    var after, id, n := Recorded(inbox, m), m.eventId, |inbox.feed|;
    if after != inbox {
      forall k ensures k in after.processed <==> exists i :: 0 <= i < |after.feed| && after.feed[i].eventId == k {
        if k in inbox.processed {
          var i :| 0 <= i < n && inbox.feed[i].eventId == k;
          assert after.feed[i].eventId == k;
        }
        assert after.feed[n].eventId == id;
        if i :| 0 <= i < |after.feed| && after.feed[i].eventId == k {
          if i < n { assert inbox.feed[i].eventId == k; }
        }
      }
      forall i, j | 0 <= i < j < |after.feed| ensures after.feed[i].eventId != after.feed[j].eventId {
        if j == n { assert inbox.feed[i].eventId in inbox.processed; }
      }
    }
  }

  lemma BrokerUntouched(s: State, s': State)
    requires QueueGenuine(s) && NothingLost(s)
    requires s'.db == s.db && s'.broker == s.broker && s'.inbox == s.inbox && s'.confirms == s.confirms
    ensures QueueGenuine(s') && NothingLost(s')
  {
    hide Trusted, MessageOf;
    assert forall k :: Confirms(s', k) == Confirms(s, k);
  }

  lemma RelayStepConfirmed(s: State, step: Step)
    requires PublishedConfirmed(s) && (step.ClaimBatch? || step.MarkPublished? || step.MarkFailed? || step.StopRelay?)
    ensures PublishedConfirmed(Do(s, step))
  {
    hide RetryDelay, BatchOk;
    assert forall k :: Confirms(Do(s, step), k) == Confirms(s, k);
  }

  lemma RelayStepKeeps(s: State, step: Step)
    requires Inv(s) && (step.ClaimBatch? || step.MarkPublished? || step.MarkFailed? || step.StopRelay?)
    ensures Inv(Do(s, step))
  {
    hide L.Inv, FeedExact, RetryDelay, BatchOk, PublishedConfirmed, QueueGenuine, NothingLost;
    var s' := Do(s, step);
    BrokerUntouched(s, s');
    RelayStepConfirmed(s, step);
  }

  lemma StrangerKeeps(s: State, m: Message)
    requires Inv(s) && !Trusted(m)
    ensures Inv(s.(broker := Delivered(s.broker, m)))
  {
    hide L.Inv, Trusted, MessageOf, FeedExact;
  }

  lemma StepKeeps(s: State, step: Step)
    requires Inv(s)
    ensures Inv(Do(s, step))
  {
    hide Inv, Committed, AfterPublish, Consumed, LockRows, BatchOk, Trusted;
    match step
    case Commit(c, now) => CommitKeeps(s, c, now);
    case Publish(lock, confirmed, reached) => PublishKeeps(s, lock, confirmed, reached);
    case Consume(m, acknowledged) => ConsumeKeeps(s, m, acknowledged);
    case Stranger(m) => if !Trusted(m) { StrangerKeeps(s, m); }
    case HandlerFails(_) =>
    case _ => RelayStepKeeps(s, step);
  }

  lemma InitialInv()
    ensures Inv(INITIAL)
  {
    LI.EmptyInv();
  }

  lemma {:induction false} RunKeeps(steps: seq<Step>)
    ensures Inv(Run(INITIAL, steps))
  {
    hide Do, Inv;
    if |steps| == 0 {
      InitialInv();
    } else {
      RunKeeps(steps[..|steps| - 1]);
      StepKeeps(Run(INITIAL, steps[..|steps| - 1]), steps[|steps| - 1]);
    }
  }

  // ----------------------------------------------------------------- theorems

  /**
   * Effectively-once delivery, after any run: every stored ledger event has exactly one outbox
   * row; a row marked published was confirmed by the broker at least once, and its event is in the
   * feed or still queued; the feed has at most one item per event, each for a committed event and
   * with that event's own contents; and no message of the ledger is ever dead-lettered.
   */
  lemma EffectivelyOnce(steps: seq<Step>, k: Id)
    ensures var s := Run(INITIAL, steps);
      && (k in s.rows <==> exists i :: 0 <= i < |s.db.events| && s.db.events[i].eventId == k)
      && (k in s.rows && s.rows[k].publishedAt.Some? ==>
            && Confirms(s, k) >= 1
            && ((k in s.db.outbox && MessageOf(s.db.outbox[k]) in s.broker.queue)
                 || exists i :: 0 <= i < |s.inbox.feed| && s.inbox.feed[i].eventId == k))
      && (forall i, j :: 0 <= i < j < |s.inbox.feed| ==> s.inbox.feed[i].eventId != s.inbox.feed[j].eventId)
      && (forall i :: 0 <= i < |s.inbox.feed| ==>
           s.inbox.feed[i].event.event in s.db.events && s.inbox.feed[i].event.event.eventId == s.inbox.feed[i].eventId)
      && (forall m :: m in s.broker.deadLetters ==> !Trusted(m))
  {
    hide Run, Trusted, MessageOf, L.CanonicalPayload, L.WalletConsistent, L.ReceiptsInv;
    RunKeeps(steps);
    var s := Run(INITIAL, steps);
    assert L.OutboxMirrorsEvents(s.db);
    if k in s.rows {
      var e := s.db.outbox[k].event;
      var i :| 0 <= i < |s.db.events| && s.db.events[i] == e;
      assert s.db.events[i].eventId == k;
    }
  }

  /** A published row is never claimed, retried or unpublished again, whatever stale relays do. */
  lemma PublishedStays(s: State, step: Step, k: Id)
    requires Inv(s) && k in s.rows && s.rows[k].publishedAt.Some? && s.rows[k].lockId == None
    ensures k in Do(s, step).rows && Do(s, step).rows[k] == s.rows[k]
  {
    hide L.Inv, L.After, Trusted, FeedExact, QueueGenuine, NothingLost, PublishedConfirmed, RetryDelay, AfterPublish,
      Recorded, Answered;
    if step.Commit? {
      OutboxGrows(s.db, step.command, step.now);
    } else if step.Publish? {
      PublishShape(s, step.lock, step.confirmed, step.reached);
    }
  }

  /** Until a lock expires, only the relay that holds it changes the row. */
  lemma LockHeld(s: State, step: Step, k: Id, lock: Id)
    requires Inv(s) && k in s.rows && s.rows[k].lockId == Some(lock) && s.rows[k].lockedUntil.Some?
    requires step.ClaimBatch? ==> step.now <= s.rows[k].lockedUntil.value
    requires step.MarkPublished? || step.MarkFailed? ==> step.lock != lock
    ensures k in Do(s, step).rows && Do(s, step).rows[k] == s.rows[k]
  {
    hide L.Inv, L.After, Trusted, FeedExact, QueueGenuine, NothingLost, PublishedConfirmed, RetryDelay, AfterPublish,
      Recorded, Answered;
    if step.Commit? {
      OutboxGrows(s.db, step.command, step.now);
    } else if step.Publish? {
      PublishShape(s, step.lock, step.confirmed, step.reached);
    }
  }

  /** Every publish mark also gives the lock back. */
  ghost predicate PublishedUnlocked(s: State) {
    forall k :: k in s.rows && s.rows[k].publishedAt.Some? ==> s.rows[k].lockId == None
  }

  lemma UnlockedKeeps(s: State, step: Step)
    requires PublishedUnlocked(s)
    ensures PublishedUnlocked(Do(s, step))
  {
    hide L.After, Trusted, RetryDelay, AfterPublish, Recorded, Answered;
    if step.Publish? {
      PublishShape(s, step.lock, step.confirmed, step.reached);
    }
  }

  /** Once published, a row keeps every column in every continuation. */
  lemma {:induction false} PublishedForever(before: seq<Step>, more: seq<Step>, k: Id)
    requires k in Run(INITIAL, before).rows && Run(INITIAL, before).rows[k].publishedAt.Some?
    ensures k in Run(INITIAL, before + more).rows && Run(INITIAL, before + more).rows[k] == Run(INITIAL, before).rows[k]
    decreases |more|
  {
    hide Do, Inv;
    if |more| == 0 {
      assert before + more == before;
    } else {
      var all := before + more;
      assert all[..|all| - 1] == before + more[..|more| - 1];
      PublishedForever(before, more[..|more| - 1], k);
      RunKeeps(all[..|all| - 1]);
      RunUnlocked(all[..|all| - 1]);
      PublishedStays(Run(INITIAL, all[..|all| - 1]), more[|more| - 1], k);
    }
  }

  lemma {:induction false} RunUnlocked(steps: seq<Step>)
    ensures PublishedUnlocked(Run(INITIAL, steps))
  {
    hide Do;
    if |steps| > 0 {
      RunUnlocked(steps[..|steps| - 1]);
      UnlockedKeeps(Run(INITIAL, steps[..|steps| - 1]), steps[|steps| - 1]);
    }
  }
}
