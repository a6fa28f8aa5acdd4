/**
 * `reconcileGlobal` over the rows of `ledger_events` as they are stored: each posting is untyped
 * JSON, read field by field, and its amount is text.
 */
module GlobalReconciliation {
  import opened Base
  import opened LedgerTransactions
  import opened WalletAggregate
  import L = LedgerDb
  import S = LedgerSessions
  import T = LedgerTheorems
  import M = MoneyText

  datatype Json = Text(s: string) | OtherJson

  /** An element of the array `postings`; a missing property is `None`. */
  datatype JsonPosting = JsonPosting(accountId: Option<Json>, amountMinor: Option<Json>) | NotAnObject

  /** `moves` says that the event type is a posting one; `postings` is `None` when it is no array. */
  datatype EventRow = EventRow(eventId: Id, createdAt: Time, moves: bool, postings: Option<seq<JsonPosting>>)

  datatype GlobalReport =
    GlobalReport(transactionCount: nat, credits: int, debits: int, invalid: seq<Id>, balanced: bool)

  // ------------------------------------------------------------ reading a row

  function ReadAmount(p: JsonPosting): Option<int> {
    match p
    case JsonPosting(Some(Text(_)), Some(Text(amount))) =>
      (match M.ParseMinorUnits(amount)
       case Ok(n) => Some(n)
       case Err(_) => None)
    case _ => None
  }

  /** `postingAmounts`: nothing if there are fewer than two postings, or one cannot be read. */
  function PostingAmounts(e: EventRow): Option<seq<int>> {
    if e.postings.None? || |e.postings.value| < 2 then None
    else
      var ps := e.postings.value;
      if exists i :: 0 <= i < |ps| && ReadAmount(ps[i]).None? then None
      else Some(seq(|ps|, i requires 0 <= i < |ps| => if ReadAmount(ps[i]).Some? then ReadAmount(ps[i]).value else 0))
  }

  function Sum(amounts: seq<int>): int {
    if |amounts| == 0 then 0 else Sum(amounts[..|amounts| - 1]) + amounts[|amounts| - 1]
  }

  function Positive(amounts: seq<int>): int {
    if |amounts| == 0 then 0
    else Positive(amounts[..|amounts| - 1]) + if amounts[|amounts| - 1] >= 0 then amounts[|amounts| - 1] else 0
  }

  /** A stored movement that cannot be read, or that double entry does not allow. */
  predicate Invalid(e: EventRow) {
    e.moves && (PostingAmounts(e).None? || Sum(PostingAmounts(e).value) != 0)
  }

  /** The amounts that a row adds to the credits and debits. */
  function AmountsOf(e: EventRow): seq<int> {
    if !e.moves || PostingAmounts(e).None? then [] else PostingAmounts(e).value
  }

  // ---------------------------------------------------------------- the report

  function InvalidIds(events: seq<EventRow>): seq<Id> {
    if |events| == 0 then []
    else
      var last := events[|events| - 1];
      InvalidIds(events[..|events| - 1]) + if Invalid(last) then [last.eventId] else []
  }

  /** All amounts posted by the events, in order. */
  function AllAmounts(events: seq<EventRow>): seq<int> {
    if |events| == 0 then []
    else AllAmounts(events[..|events| - 1]) + AmountsOf(events[|events| - 1])
  }

  function MovementCount(events: seq<EventRow>): nat {
    if |events| == 0 then 0
    else MovementCount(events[..|events| - 1]) + if events[|events| - 1].moves then 1 else 0
  }

  /** The report on some loaded events. */
  function Report(events: seq<EventRow>): GlobalReport {
    var amounts, invalid := AllAmounts(events), InvalidIds(events);
    var credits, debits := Positive(amounts), Positive(amounts) - Sum(amounts);
    GlobalReport(MovementCount(events), credits, debits, invalid, invalid == [] && credits == debits)
  }

  predicate InWindow(e: EventRow, from: Time, to: Time) {
    from <= e.createdAt <= to
  }

  /** The rows that the query for a time window finds. */
  function Window(table: seq<EventRow>, from: Time, to: Time): seq<EventRow> {
    if |table| == 0 then []
    else
      var front := Window(table[..|table| - 1], from, to);
      if InWindow(table[|table| - 1], from, to) then front + [table[|table| - 1]] else front
  }

  // --------------------------------------------------------------------- proof

  lemma {:induction false} SumConcat(a: seq<int>, b: seq<int>)
    ensures Sum(a + b) == Sum(a) + Sum(b) && Positive(a + b) == Positive(a) + Positive(b)
    decreases |b|
  {
    if |b| == 0 {
      assert a + b == a;
    } else {
      assert (a + b)[..|a + b| - 1] == a + b[..|b| - 1];
      SumConcat(a, b[..|b| - 1]);
    }
  }

  /** With no invalid movement, credits equal debits. */
  lemma {:induction false} NoInvalidMeansEven(events: seq<EventRow>)
    requires InvalidIds(events) == []
    ensures Sum(AllAmounts(events)) == 0
  {
    hide PostingAmounts;
    if |events| > 0 {
      var front, last := events[..|events| - 1], events[|events| - 1];
      NoInvalidMeansEven(front);
      SumConcat(AllAmounts(front), AmountsOf(last));
    }
  }

  lemma {:induction false} InvalidIdsEmpty(events: seq<EventRow>)
    ensures InvalidIds(events) == [] <==> forall i :: 0 <= i < |events| ==> !Invalid(events[i])
  {
    hide Invalid;
    if |events| > 0 {
      InvalidIdsEmpty(events[..|events| - 1]);
      assert forall i :: 0 <= i < |events| - 1 ==> events[i] == events[..|events| - 1][i];
    }
  }

  lemma Extend(events: seq<EventRow>, n: nat)
    requires n < |events|
    ensures events[..n + 1][..n] == events[..n] && events[..n + 1][n] == events[n]
    ensures InvalidIds(events[..n + 1])
         == InvalidIds(events[..n]) + if Invalid(events[n]) then [events[n].eventId] else []
    ensures AllAmounts(events[..n + 1]) == AllAmounts(events[..n]) + AmountsOf(events[n])
    ensures MovementCount(events[..n + 1]) == MovementCount(events[..n]) + if events[n].moves then 1 else 0
  {
  }

  /** The verdict is `balanced` exactly when every movement is a balanced double entry. */
  lemma BalancedIff(events: seq<EventRow>)
    ensures Report(events).balanced <==> forall i :: 0 <= i < |events| ==> !Invalid(events[i])
  {
    hide Invalid;
    InvalidIdsEmpty(events);
    if InvalidIds(events) == [] { NoInvalidMeansEven(events); }
  }

  lemma {:induction false} WindowHas(table: seq<EventRow>, from: Time, to: Time, e: EventRow)
    ensures e in Window(table, from, to) <==> e in table && InWindow(e, from, to)
  {
    if |table| > 0 {
      WindowHas(table[..|table| - 1], from, to, e);
      assert table == table[..|table| - 1] + [table[|table| - 1]];
    }
  }

  /** The query's result, in whatever order. */
  lemma LoadedHas(table: seq<EventRow>, from: Time, to: Time, events: seq<EventRow>, e: EventRow)
    requires multiset(events) == multiset(Window(table, from, to))
    ensures e in events <==> e in table && InWindow(e, from, to)
  {
    WindowHas(table, from, to, e);
    assert e in events <==> e in multiset(events);
  }

  lemma Nothing()
    ensures InvalidIds([]) == [] && AllAmounts([]) == [] && MovementCount([]) == 0 && Positive([]) == 0 && Sum([]) == 0
  {
  }

  function Magnitude(amounts: seq<int>): int {
    if |amounts| == 0 then 0
    else
      var last := amounts[|amounts| - 1];
      Magnitude(amounts[..|amounts| - 1]) + if last < 0 then -last else last
  }

  lemma {:induction false} PositiveParts(amounts: seq<int>)
    ensures 0 <= Positive(amounts) && Sum(amounts) <= Positive(amounts)
    ensures 2 * Positive(amounts) == Magnitude(amounts) + Sum(amounts)
  {
    if |amounts| > 0 { PositiveParts(amounts[..|amounts| - 1]); }
  }

  /**
   * The numbers of a report: credits and debits are not negative, differ by the sum of all posted
   * amounts and add up to their total magnitude, and exactly the invalid movements are listed.
   */
  lemma ReportMeans(events: seq<EventRow>, id: Id)
    ensures var r, amounts := Report(events), AllAmounts(events);
      && r.credits >= 0 && r.debits >= 0
      && r.credits - r.debits == Sum(amounts) && r.credits + r.debits == Magnitude(amounts)
      && (id in r.invalid <==> exists i :: 0 <= i < |events| && Invalid(events[i]) && events[i].eventId == id)
      && r.transactionCount == |Moving(events)|
  {
    hide Invalid;
    PositiveParts(AllAmounts(events));
    ListedIff(events, id);
    CountIsMoving(events);
  }

  /** The positions of the movements. */
  function Moving(events: seq<EventRow>): set<int> {
    set i | 0 <= i < |events| && events[i].moves
  }

  lemma {:induction false} ListedIff(events: seq<EventRow>, id: Id)
    ensures id in InvalidIds(events) <==> exists i :: 0 <= i < |events| && Invalid(events[i]) && events[i].eventId == id
  {
    hide Invalid;
    if |events| > 0 {
      var front := events[..|events| - 1];
      ListedIff(front, id);
      assert forall i :: 0 <= i < |front| ==> front[i] == events[i];
      if exists i :: 0 <= i < |events| && Invalid(events[i]) && events[i].eventId == id {
        var i :| 0 <= i < |events| && Invalid(events[i]) && events[i].eventId == id;
        if i < |front| { assert Invalid(front[i]) && front[i].eventId == id; }
      }
    }
  }

  lemma {:induction false} CountIsMoving(events: seq<EventRow>)
    ensures MovementCount(events) == |Moving(events)|
  {
    if |events| > 0 {
      var front, n := events[..|events| - 1], |events| - 1;
      CountIsMoving(front);
      if events[n].moves {
        assert Moving(events) == Moving(front) + {n};
      } else {
        assert Moving(events) == Moving(front);
      }
    }
  }

  // ----------------------------------------------------------------- the loops

  /**
   * The credit and debit loops over the events that the query for the window loads from `table`.
   * The verdict is `balanced` exactly when every movement stored in the window can be read and is
   * a balanced double entry.
   */
  method ReconcileGlobal(table: seq<EventRow>, from: Time, to: Time, events: seq<EventRow>)
    returns (r: GlobalReport)
    requires multiset(events) == multiset(Window(table, from, to))
    ensures r == Report(events)
    ensures r.balanced <==> forall i :: 0 <= i < |table| && from <= table[i].createdAt <= to ==> !Invalid(table[i])
  {
    hide InvalidIds, AllAmounts, MovementCount, Positive, Sum, Window, PostingAmounts;
    var credits, debits, count := 0, 0, 0;
    var invalid: seq<Id> := [];
    assert events[..0] == [];
    Nothing();
    for n := 0 to |events|
      invariant count == MovementCount(events[..n]) && invalid == InvalidIds(events[..n])
      invariant credits == Positive(AllAmounts(events[..n])) && credits - debits == Sum(AllAmounts(events[..n]))
    {
      Extend(events, n);
      SumConcat(AllAmounts(events[..n]), AmountsOf(events[n]));
      Nothing();
      if !events[n].moves {
        continue;
      }
      count := count + 1;
      var amounts := PostingAmounts(events[n]);
      if amounts.None? {
        invalid := invalid + [events[n].eventId];
        continue;
      }
      if Sum(amounts.value) != 0 {
        invalid := invalid + [events[n].eventId];
      }
      var more, less := CreditsAndDebits(amounts.value);
      credits, debits := credits + more, debits + less;
    }
    assert events[..|events|] == events;
    BalancedIff(events);
    forall i | 0 <= i < |table| && InWindow(table[i], from, to) ensures table[i] in events {
      LoadedHas(table, from, to, events, table[i]);
    }
    forall i | 0 <= i < |events| ensures events[i] in table && InWindow(events[i], from, to) {
      LoadedHas(table, from, to, events, events[i]);
    }
    r := GlobalReport(count, credits, debits, invalid, invalid == [] && credits == debits);
  }

  method CreditsAndDebits(amounts: seq<int>) returns (credits: int, debits: int)
    ensures credits == Positive(amounts) && credits - debits == Sum(amounts)
  {
    credits, debits := 0, 0;
    for n := 0 to |amounts|
      invariant credits == Positive(amounts[..n]) && credits - debits == Sum(amounts[..n])
    {
      assert amounts[..n + 1][..n] == amounts[..n];
      if amounts[n] >= 0 { credits := credits + amounts[n]; } else { debits := debits - amounts[n]; }
    }
    assert amounts[..|amounts|] == amounts;
  }

  // --------------------------------------------------- what the ledger stores

  function PostingsOf(p: Payload): Option<seq<Posting>> {
    match p
    case MoneyDeposited(tx) => Some(tx.postings)
    case WithdrawalCompleted(tx) => Some(tx.postings)
    case HoldConsumed(_, tx) => Some(tx.postings)
    case _ => None
  }

  function AccountText(a: Account): string {
    match a
    case WalletAccount(wallet) => "wallet:" + M.Digits(wallet)
    case ExternalClearing => "system:external"
  }

  function Written(p: Posting): JsonPosting {
    JsonPosting(Some(Text(AccountText(p.account))), Some(Text(M.SignedDigits(p.amount))))
  }

  /** A stored event as its row holds it. */
  function RowOf(e: StoredEvent): EventRow {
    match PostingsOf(e.payload)
    case None => EventRow(e.eventId, e.createdAt, false, None)
    case Some(ps) =>
      EventRow(e.eventId, e.createdAt, true, Some(seq(|ps|, i requires 0 <= i < |ps| => Written(ps[i]))))
  }

  function TableOf(events: seq<StoredEvent>): seq<EventRow> {
    seq(|events|, i requires 0 <= i < |events| => RowOf(events[i]))
  }

  lemma {:induction false} AmountsSum(ps: seq<Posting>)
    ensures Sum(seq(|ps|, i requires 0 <= i < |ps| => ps[i].amount)) == Total(ps)
  {
    if |ps| > 0 {
      var front, all := ps[..|ps| - 1], seq(|ps|, i requires 0 <= i < |ps| => ps[i].amount);
      AmountsSum(front);
      assert all[..|all| - 1] == seq(|front|, i requires 0 <= i < |front| => front[i].amount);
    }
  }

  lemma WrittenIsRead(p: Posting)
    ensures ReadAmount(Written(p)) == Some(p.amount)
  {
    hide M.SignedDigits, M.ParseMinorUnits;
    M.ParseOfSigned(p.amount);
  }

  /** What the ledger writes can be read, so a row is invalid only if its postings do not balance. */
  lemma RowInvalidIff(e: StoredEvent)
    ensures Invalid(RowOf(e)) <==> PostingsOf(e.payload).Some? && !Balanced(PostingsOf(e.payload).value)
  {
    hide ReadAmount, Written, Total, Sum;
    if PostingsOf(e.payload).Some? && |PostingsOf(e.payload).value| >= 2 {
      var ps := PostingsOf(e.payload).value;
      var row := RowOf(e).postings.value;
      forall i | 0 <= i < |ps| ensures ReadAmount(row[i]) == Some(ps[i].amount) { WrittenIsRead(ps[i]); }
      assert PostingAmounts(RowOf(e)).value == seq(|ps|, i requires 0 <= i < |ps| => ps[i].amount);
      AmountsSum(ps);
    }
  }

  lemma CanonicalIsValid(wallet: Id, e: StoredEvent)
    requires L.CanonicalPayload(wallet, e.payload)
    ensures !Invalid(RowOf(e))
  {
    hide Total, PostingsTo, Invalid, RowOf;
    RowInvalidIff(e);
    if PostingsOf(e.payload).Some? {
      MovementIsBalanced(wallet, PostingsOf(e.payload).value[0].amount);
    }
  }

  lemma StoredIsValid(db: L.Db, j: nat)
    requires L.Inv(db) && j < |db.events|
    ensures !Invalid(RowOf(db.events[j]))
  {
    hide Invalid, RowOf, L.CanonicalPayload;
    assert L.EventsCanonical(db);
    CanonicalIsValid(db.events[j].streamId, db.events[j]);
  }

  /**
   * After any interleaving and for every time window, whatever order the events are loaded in:
   * no movement is invalid, so the report is balanced.
   */
  lemma EveryWindowBalances(steps: seq<S.Step>, from: Time, to: Time, events: seq<EventRow>)
    requires multiset(events) == multiset(Window(TableOf(T.DbAfter(steps).events), from, to))
    ensures Report(events).balanced && Report(events).invalid == []
  {
    hide T.DbAfter, Invalid, L.CanonicalPayload, Window, Report, RowOf, L.Inv;
    T.DbAfterInv(steps);
    var stored := T.DbAfter(steps).events;
    forall i | 0 <= i < |events| ensures !Invalid(events[i]) {
      LoadedHas(TableOf(stored), from, to, events, events[i]);
      var j :| 0 <= j < |TableOf(stored)| && TableOf(stored)[j] == events[i];
      StoredIsValid(T.DbAfter(steps), j);
    }
    BalancedIff(events);
    BalancedHasNone(events);
  }

  lemma BalancedHasNone(events: seq<EventRow>)
    requires Report(events).balanced
    ensures Report(events).invalid == []
  {
  }
}
