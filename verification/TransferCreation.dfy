/**
 * Idempotent creation: any number of concurrent `createCanonical` calls over one transfers table.
 * Each database round trip of a call is one step, and the steps of all calls interleave freely.
 */
module TransferCreation {
  import opened Base
  import FxQuote

  /** The canonical request. The stored SHA-256 fingerprint is injective, so it is the request. */
  datatype Request = Request(
    sender: Id, wallet: Id, receiverReference: string, amount: int, currency: Currency, destCurrency: Currency,
    share: Option<Id>)

  /** A new transfer, with the amount its quote gives. */
  datatype Row = Row(id: Id, request: Request, key: string, destAmount: int)

  datatype Phase =
    | CheckingShare
    | CheckingKey
    | Inserting(destAmount: int)
    | LookingUp
    | Returned(id: Id)
    | Conflict
    | WinnerNotVisible
    | InsertFailed(id: Id)
    | QuoteRefused(error: FxQuote.FxError)

  datatype Call = Call(request: Request, key: string, phase: Phase)

  datatype State = State(rows: seq<Row>, calls: map<nat, Call>)

  /** `Advance` gives a call its next round trip; `newId` is the UUID it drew. */
  datatype Step = Start(call: nat, request: Request, key: string) | Advance(call: nat, newId: Id)

  const INITIAL := State([], map[])

  datatype Criterion = ByShare(share: Id) | ByKey(sender: Id, key: string)

  predicate Matches(row: Row, c: Criterion) {
    match c
    case ByShare(share) => row.request.share == Some(share)
    case ByKey(sender, key) => row.request.sender == sender && row.key == key
  }

  function FindOne(rows: seq<Row>, c: Criterion): Option<Row> {
    if |rows| == 0 then None else if Matches(rows[0], c) then Some(rows[0]) else FindOne(rows[1..], c)
  }

  function ResolveExisting(existing: Row, request: Request): Phase {
    if existing.request != request then Conflict else Returned(existing.id)
  }

  /** The quote a request is created with. */
  function QuoteOf(request: Request): Result<int, FxQuote.FxError> {
    FxQuote.Quote(request.amount, request.currency, request.destCurrency)
  }

  function KeyOf(c: Call): Criterion {
    ByKey(c.request.sender, c.key)
  }

  /** The guards of the insert: the two unique constraints. */
  predicate Taken(rows: seq<Row>, c: Call) {
    FindOne(rows, KeyOf(c)).Some? || (c.request.share.Some? && FindOne(rows, ByShare(c.request.share.value)).Some?)
  }

  predicate IdTaken(rows: seq<Row>, id: Id) {
    exists i :: 0 <= i < |rows| && rows[i].id == id
  }

  function WinnerCriterion(c: Call): Criterion {
    if c.request.share.Some? then ByShare(c.request.share.value) else KeyOf(c)
  }

  /** The next round trip of a call: where it goes, and the row it inserts. */
  function RoundTrip(rows: seq<Row>, c: Call, newId: Id): (Phase, seq<Row>) {
    match c.phase
    case CheckingShare =>
      if c.request.share.None? then (CheckingKey, [])
      else
        (match FindOne(rows, ByShare(c.request.share.value))
         case Some(row) => (ResolveExisting(row, c.request), [])
         case None => (CheckingKey, []))
    case CheckingKey =>
      (match FindOne(rows, KeyOf(c))
       case Some(row) => (ResolveExisting(row, c.request), [])
       case None =>
         (match QuoteOf(c.request)
          case Err(e) => (QuoteRefused(e), [])
          case Ok(destAmount) => (Inserting(destAmount), [])))
    case Inserting(destAmount) =>
      if Taken(rows, c) then (LookingUp, [])
      else if IdTaken(rows, newId) then (InsertFailed(newId), [])
      else (Returned(newId), [Row(newId, c.request, c.key, destAmount)])
    case LookingUp =>
      (match FindOne(rows, WinnerCriterion(c))
       case Some(row) => (ResolveExisting(row, c.request), [])
       case None => (WinnerNotVisible, []))
    case _ => (c.phase, [])
  }

  function Do(s: State, step: Step): State {
    match step
    case Start(k, request, key) =>
      if k in s.calls then s else s.(calls := s.calls[k := Call(request, key, CheckingShare)])
    case Advance(k, newId) =>
      if k !in s.calls then s
      else
        var next := RoundTrip(s.rows, s.calls[k], newId);
        State(s.rows + next.1, s.calls[k := s.calls[k].(phase := next.0)])
  }

  function Run(steps: seq<Step>): State {
    if |steps| == 0 then INITIAL else Do(Run(steps[..|steps| - 1]), steps[|steps| - 1])
  }

  // ----------------------------------------------------------------- invariant

  ghost predicate Clash(a: Row, b: Row) {
    || a.id == b.id
    || (a.request.sender == b.request.sender && a.key == b.key)
    || (a.request.share.Some? && a.request.share == b.request.share)
  }

  ghost predicate RowsUnique(rows: seq<Row>) {
    forall i, j :: 0 <= i < j < |rows| ==> !Clash(rows[i], rows[j])
  }

  /** `row` stands in the way of the call: it holds the call's key or its share. */
  ghost predicate Blocks(row: Row, c: Call) {
    Matches(row, KeyOf(c)) || (c.request.share.Some? && row.request.share == c.request.share)
  }

  ghost predicate Answered(rows: seq<Row>, c: Call, id: Id) {
    exists row :: row in rows && row.id == id && row.request == c.request && Blocks(row, c)
  }

  ghost predicate Blocked(rows: seq<Row>, c: Call) {
    exists row :: row in rows && Blocks(row, c)
  }

  ghost predicate Refused(rows: seq<Row>, c: Call) {
    exists row :: row in rows && row.request != c.request && Blocks(row, c)
  }

  /** The one family in which the winner is not found: a share payment reusing another request's key. */
  ghost predicate KeyReused(rows: seq<Row>, c: Call) {
    c.request.share.Some? && exists row :: row in rows && row.request != c.request && Matches(row, KeyOf(c))
  }

  ghost predicate CallInv(rows: seq<Row>, c: Call) {
    match c.phase
    case Inserting(destAmount) => QuoteOf(c.request) == Ok(destAmount)
    case QuoteRefused(e) => QuoteOf(c.request) == Err(e)
    case LookingUp => Blocked(rows, c)
    case InsertFailed(id) => IdTaken(rows, id)
    case Returned(id) => Answered(rows, c, id)
    case Conflict => Refused(rows, c)
    case WinnerNotVisible => KeyReused(rows, c)
    case _ => true
  }

  ghost predicate RowsQuoted(rows: seq<Row>) {
    forall i :: 0 <= i < |rows| ==> QuoteOf(rows[i].request) == Ok(rows[i].destAmount)
  }

  ghost predicate Inv(s: State) {
    && RowsUnique(s.rows)
    && RowsQuoted(s.rows)
    && forall k :: k in s.calls ==> CallInv(s.rows, s.calls[k])
  }

  // --------------------------------------------------------------------- proof

  lemma {:induction false} FindOneFinds(rows: seq<Row>, c: Criterion)
    ensures FindOne(rows, c).Some? ==> FindOne(rows, c).value in rows && Matches(FindOne(rows, c).value, c)
    ensures FindOne(rows, c).None? <==> forall i :: 0 <= i < |rows| ==> !Matches(rows[i], c)
  {
    if |rows| > 0 && !Matches(rows[0], c) {
      FindOneFinds(rows[1..], c);
      assert forall i :: 0 < i < |rows| ==> rows[i] == rows[1..][i - 1];
    }
  }

  lemma CallInvGrows(rows: seq<Row>, added: seq<Row>, c: Call)
    requires CallInv(rows, c)
    ensures CallInv(rows + added, c)
  {
    hide Blocks, Matches;
    assert forall row :: row in rows ==> row in rows + added;
    assert forall i :: 0 <= i < |rows| ==> (rows + added)[i] == rows[i];
  }

  lemma FindBlocks(rows: seq<Row>, c: Call, key: Criterion)
    requires key == KeyOf(c) || (c.request.share.Some? && key == ByShare(c.request.share.value))
    ensures FindOne(rows, key).Some? ==>
      CallInv(rows, c.(phase := ResolveExisting(FindOne(rows, key).value, c.request)))
    ensures FindOne(rows, key).Some? ==> Blocked(rows, c)
  {
    hide FindOne;
    FindOneFinds(rows, key);
    if FindOne(rows, key).Some? {
      var row := FindOne(rows, key).value;
      var c' := c.(phase := ResolveExisting(row, c.request));
      assert row in rows && Blocks(row, c');
      assert row in rows && Blocks(row, c);
    }
  }

  /** A conflict whose winner is missing is a share payment that reuses another request's key. */
  lemma MissingWinner(rows: seq<Row>, c: Call)
    requires c.phase == LookingUp && CallInv(rows, c) && FindOne(rows, WinnerCriterion(c)).None?
    ensures CallInv(rows, c.(phase := WinnerNotVisible))
  {
    hide FindOne;
    FindOneFinds(rows, WinnerCriterion(c));
    var row :| row in rows && Blocks(row, c);
    var i :| 0 <= i < |rows| && rows[i] == row;
    assert !Matches(rows[i], WinnerCriterion(c));
    assert row in rows && row.request != c.request && Matches(row, KeyOf(c.(phase := WinnerNotVisible)));
  }

  lemma InsertedUnique(rows: seq<Row>, c: Call, newId: Id, destAmount: int)
    requires RowsUnique(rows) && !Taken(rows, c) && !IdTaken(rows, newId)
    ensures RowsUnique(rows + [Row(newId, c.request, c.key, destAmount)])
  {
    hide FindOne;
    FindOneFinds(rows, KeyOf(c));
    if c.request.share.Some? { FindOneFinds(rows, ByShare(c.request.share.value)); }
    var row := Row(newId, c.request, c.key, destAmount);
    forall i | 0 <= i < |rows| ensures !Clash(rows[i], row) {
      assert !Matches(rows[i], KeyOf(c));
      assert rows[i].id != newId;
    }
  }

  lemma RoundTripKeeps(rows: seq<Row>, c: Call, newId: Id)
    requires RowsUnique(rows) && RowsQuoted(rows) && CallInv(rows, c)
    ensures var next := RoundTrip(rows, c, newId);
      RowsUnique(rows + next.1) && RowsQuoted(rows + next.1) && CallInv(rows + next.1, c.(phase := next.0))
  {
    hide RowsUnique, FindOne, Blocked, Answered, Refused, KeyReused, QuoteOf;
    var next := RoundTrip(rows, c, newId);
    if next.1 == [] {
      assert rows + next.1 == rows;
    }
    match c.phase
    case CheckingShare => if c.request.share.Some? { FindBlocks(rows, c, ByShare(c.request.share.value)); }
    case CheckingKey => FindBlocks(rows, c, KeyOf(c));
    case Inserting(destAmount) =>
      FindBlocks(rows, c, KeyOf(c));
      if c.request.share.Some? { FindBlocks(rows, c, ByShare(c.request.share.value)); }
      if Taken(rows, c) {
        SameBlocked(rows, c, LookingUp);
      } else if !IdTaken(rows, newId) {
        InsertedUnique(rows, c, newId, destAmount);
        InsertedAnswers(rows, c, newId, destAmount);
      }
    case LookingUp =>
      FindBlocks(rows, c, WinnerCriterion(c));
      if FindOne(rows, WinnerCriterion(c)).None? { MissingWinner(rows, c); }
    case _ => assert c.(phase := next.0) == c;
  }

  lemma SameBlocked(rows: seq<Row>, c: Call, phase: Phase)
    requires Blocked(rows, c)
    ensures Blocked(rows, c.(phase := phase))
  {
    var row :| row in rows && Blocks(row, c);
    assert Blocks(row, c.(phase := phase));
  }

  lemma InsertedAnswers(rows: seq<Row>, c: Call, newId: Id, destAmount: int)
    ensures Answered(rows + [Row(newId, c.request, c.key, destAmount)], c.(phase := Returned(newId)), newId)
  {
    var row, c' := Row(newId, c.request, c.key, destAmount), c.(phase := Returned(newId));
    assert row in rows + [row] && Blocks(row, c');
  }

  lemma StepKeeps(s: State, step: Step)
    requires Inv(s)
    ensures Inv(Do(s, step))
  {
    hide RowsUnique, RowsQuoted, CallInv, RoundTrip;
    match step
    case Start(k, request, key) =>
      assert CallInv(s.rows, Call(request, key, CheckingShare)) by { FreshCall(s.rows, request, key); }
    case Advance(k, newId) =>
      if k in s.calls {
        RoundTripKeeps(s.rows, s.calls[k], newId);
        var added := RoundTrip(s.rows, s.calls[k], newId).1;
        forall j | j in s.calls ensures CallInv(s.rows + added, s.calls[j]) { CallInvGrows(s.rows, added, s.calls[j]); }
      }
  }

  lemma FreshCall(rows: seq<Row>, request: Request, key: string)
    ensures CallInv(rows, Call(request, key, CheckingShare))
  {
  }

  lemma {:induction false} RunKeeps(steps: seq<Step>)
    ensures Inv(Run(steps))
  {
    hide Inv, Do;
    if |steps| == 0 {
      assert Inv(INITIAL) by { InitialInv(); }
    } else {
      RunKeeps(steps[..|steps| - 1]);
      StepKeeps(Run(steps[..|steps| - 1]), steps[|steps| - 1]);
    }
  }

  lemma InitialInv()
    ensures Inv(INITIAL)
  {
  }

  // ------------------------------------------------------------------ theorems

  /**
   * What is stored: an amount in two supported currencies, and its value in the destination
   * currency to within half a minor unit, at the rate from the source currency to it.
   */
  lemma StoredAmounts(steps: seq<Step>, i: nat)
    requires i < |Run(steps).rows|
    ensures var row := Run(steps).rows[i];
      var q := row.request;
      && FxQuote.Supported(q.currency) && FxQuote.Supported(q.destCurrency) && q.amount > 0 && row.destAmount > 0
      && (var from, to := FxQuote.MicroUsd(q.currency).value, FxQuote.MicroUsd(q.destCurrency).value;
          -to < 2 * (row.destAmount * to - q.amount * from) <= to)
      && (q.currency == q.destCurrency ==> row.destAmount == q.amount)
      && FxQuote.Quote(q.amount, q.currency, q.destCurrency) == Ok(row.destAmount)
  {
    hide Run, FxQuote.Quote;
    RunKeeps(steps);
    var q := Run(steps).rows[i].request;
    FxQuote.QuoteIsNearest(q.amount, q.currency, q.destCurrency);
    if q.currency == q.destCurrency { FxQuote.QuoteSameCurrency(q.amount, q.currency); }
  }

  /** Which requests have no quote: a currency not supported, no amount, or less than half a unit. */
  lemma QuoteRefusedIff(request: Request)
    ensures QuoteOf(request).Err? <==>
      || !FxQuote.Supported(request.currency) || !FxQuote.Supported(request.destCurrency)
      || request.amount <= 0
      || 2 * request.amount * FxQuote.MicroUsd(request.currency).value
         < FxQuote.MicroUsd(request.destCurrency).value
  {
    hide FxQuote.Quote;
    FxQuote.QuoteRefusals(request.amount, request.currency, request.destCurrency);
    match QuoteOf(request)
    case Ok(_) =>
    case Err(UnsupportedCurrency) =>
    case Err(NonPositiveAmount) =>
    case Err(BelowOneMinorUnit) =>
  }

  /** The call's request under the same key, or for the same split share. */
  predicate SameIntent(a: Call, b: Call) {
    a.request == b.request && (a.key == b.key || a.request.share.Some?)
  }

  /**
   * After any interleaving: at most one row per (sender, key) and per split share; a returned id
   * names a stored row with the caller's own request and its quote; and calls that return for the same request
   * give the same id when they agree on the key or pay a share, whichever of them inserted the row.
   */
  lemma IdempotentCreation(steps: seq<Step>)
    ensures var s := Run(steps);
      && (forall i, j :: 0 <= i < j < |s.rows| ==>
            && (s.rows[i].request.sender != s.rows[j].request.sender || s.rows[i].key != s.rows[j].key)
            && (s.rows[i].request.share.Some? ==> s.rows[i].request.share != s.rows[j].request.share))
      && (forall k :: k in s.calls && s.calls[k].phase.Returned? ==>
            exists row :: row in s.rows && row.id == s.calls[k].phase.id && row.request == s.calls[k].request
                          && FxQuote.Quote(row.request.amount, row.request.currency, row.request.destCurrency)
                             == Ok(row.destAmount))
      && (forall a, b :: a in s.calls && b in s.calls && s.calls[a].phase.Returned? && s.calls[b].phase.Returned? ==>
            SameIntent(s.calls[a], s.calls[b]) ==> s.calls[a].phase.id == s.calls[b].phase.id)
  {
    hide Run;
    RunKeeps(steps);
    var s := Run(steps);
    forall a, b |
      && a in s.calls && b in s.calls && s.calls[a].phase.Returned? && s.calls[b].phase.Returned?
      && SameIntent(s.calls[a], s.calls[b])
      ensures s.calls[a].phase.id == s.calls[b].phase.id
    {
      SameRow(s.rows, s.calls[a], s.calls[b]);
    }
  }

  lemma SameRow(rows: seq<Row>, a: Call, b: Call)
    requires RowsUnique(rows) && a.phase.Returned? && b.phase.Returned?
    requires Answered(rows, a, a.phase.id) && Answered(rows, b, b.phase.id) && SameIntent(a, b)
    ensures a.phase.id == b.phase.id
  {
    var ra :| ra in rows && ra.id == a.phase.id && ra.request == a.request && Blocks(ra, a);
    var rb :| rb in rows && rb.id == b.phase.id && rb.request == b.request && Blocks(rb, b);
    var i :| 0 <= i < |rows| && rows[i] == ra;
    var j :| 0 <= j < |rows| && rows[j] == rb;
    assert Clash(ra, rb) && Clash(rb, ra);
  }

  /**
   * The refusals are deserved: a call answers 409 only if another request holds its key or share,
   * and the missing-winner error is only ever met by a share payment whose key another request holds.
   */
  lemma RefusalsDeserved(steps: seq<Step>, k: nat)
    requires k in Run(steps).calls
    ensures Run(steps).calls[k].phase == Conflict ==> Refused(Run(steps).rows, Run(steps).calls[k])
    ensures Run(steps).calls[k].phase == WinnerNotVisible ==> KeyReused(Run(steps).rows, Run(steps).calls[k])
  {
    hide Run, Refused, KeyReused;
    RunKeeps(steps);
  }

  /** The failing branch exactly: the winner is missing iff the call pays a share that no row holds. */
  lemma WinnerMissingIff(steps: seq<Step>, k: nat, newId: Id)
    requires k in Run(steps).calls && Run(steps).calls[k].phase == LookingUp
    ensures var rows, share := Run(steps).rows, Run(steps).calls[k].request.share;
      Do(Run(steps), Advance(k, newId)).calls[k].phase == WinnerNotVisible
      <==> share.Some? && forall i :: 0 <= i < |rows| ==> rows[i].request.share != share
  {
    hide Run, FindOne;
    RunKeeps(steps);
    var rows, c := Run(steps).rows, Run(steps).calls[k];
    FindOneFinds(rows, WinnerCriterion(c));
    if c.request.share.None? {
      var row :| row in rows && Blocks(row, c);
      var i :| 0 <= i < |rows| && rows[i] == row;
      assert Matches(rows[i], WinnerCriterion(c));
    } else {
      assert forall i :: 0 <= i < |rows| ==>
        (Matches(rows[i], WinnerCriterion(c)) <==> rows[i].request.share == c.request.share);
    }
  }

  /**
   * The whole family is reachable: any share payment can meet the error when any other request of
   * the same sender and key, not for that share, is inserted after the payment's two checks.
   */
  lemma MissingWinnerHappens(share: Request, other: Request, key: string)
    requires share.share.Some? && other.sender == share.sender && other.share != share.share
    requires QuoteOf(share).Ok? && QuoteOf(other).Ok?
    ensures exists steps :: 1 in Run(steps).calls && Run(steps).calls[1] == Call(share, key, WinnerNotVisible)
  {
    hide Run;
    assert Run([]) == INITIAL by { RunNothing(); }
    var s1 := ReadyToInsert([], INITIAL, 1, share, key);
    var t1 := [] + [Start(1, share, key), Advance(1, 0), Advance(1, 0)];
    var s2 := ReadyToInsert(t1, s1, 2, other, key);
    var t2 := t1 + [Start(2, other, key), Advance(2, 0), Advance(2, 0)];
    var t3 := t2 + [Advance(2, 9)];
    var t4 := t3 + [Advance(1, 8)];
    RunGrows(t2, Advance(2, 9));
    RunGrows(t3, Advance(1, 8));
    RunGrows(t4, Advance(1, 8));
    Overtaken(s2, share, other, key);
    assert Run(t4 + [Advance(1, 8)]).calls[1] == Call(share, key, WinnerNotVisible);
  }

  /** The last three round trips: the other request's insert, then this call's insert and lookup. */
  lemma Overtaken(s: State, share: Request, other: Request, key: string)
    requires share.share.Some? && other.sender == share.sender && other.share != share.share
    requires s.rows == [] && 1 in s.calls && 2 in s.calls
    requires s.calls[1].request == share && s.calls[1].key == key && s.calls[1].phase.Inserting?
    requires s.calls[2].request == other && s.calls[2].key == key && s.calls[2].phase.Inserting?
    ensures var s3 := Do(s, Advance(2, 9));
      var s5 := Do(Do(s3, Advance(1, 8)), Advance(1, 8));
      1 in s5.calls && s5.calls[1] == Call(share, key, WinnerNotVisible)
  {
    var rows := [Row(9, other, key, s.calls[2].phase.destAmount)];
    var c := s.calls[1];
    assert RoundTrip([], s.calls[2], 9) == (Returned(9), rows);
    assert [] + rows == rows && rows + [] == rows;
    assert FindOne(rows, KeyOf(c)) == Some(rows[0]);
    assert FindOne(rows, ByShare(share.share.value)) == None by { assert rows[1..] == []; }
    assert RoundTrip(rows, c, 8) == (LookingUp, []);
    assert RoundTrip(rows, c.(phase := LookingUp), 8) == (WinnerNotVisible, []);
  }

  lemma RunNothing()
    ensures Run([]) == INITIAL
  {
  }

  /** Against an empty table a new call passes both checks. */
  lemma ReadyToInsert(trace: seq<Step>, s: State, k: nat, request: Request, key: string) returns (s': State)
    requires Run(trace) == s && k !in s.calls && s.rows == [] && QuoteOf(request).Ok?
    ensures s' == State([], s.calls[k := Call(request, key, Inserting(QuoteOf(request).value))])
    ensures Run(trace + [Start(k, request, key), Advance(k, 0), Advance(k, 0)]) == s'
  {
    hide Run;
    var a, b := Start(k, request, key), Advance(k, 0);
    RunGrows(trace, a);
    RunGrows(trace + [a], b);
    RunGrows(trace + [a] + [b], b);
    assert trace + [a] + [b] + [b] == trace + [a, b, b];
    var c := Call(request, key, CheckingShare);
    assert RoundTrip([], c, 0) == (CheckingKey, []);
    assert RoundTrip([], c.(phase := CheckingKey), 0) == (Inserting(QuoteOf(request).value), []);
    s' := State([], s.calls[k := Call(request, key, Inserting(QuoteOf(request).value))]);
  }

  lemma {:induction false} RunGrows(trace: seq<Step>, step: Step)
    ensures Run(trace + [step]) == Do(Run(trace), step)
  {
    hide Do;
    assert (trace + [step])[..|trace|] == trace;
  }

  // ------------------------------------------------------------ calls on their own

  /** The trace of a call that runs through without any other call between its steps. */
  function Alone(k: nat, request: Request, key: string, newId: Id): seq<Step> {
    [Start(k, request, key), Advance(k, newId), Advance(k, newId), Advance(k, newId)]
  }

  function After(s: State, steps: seq<Step>): State {
    if |steps| == 0 then s else Do(After(s, steps[..|steps| - 1]), steps[|steps| - 1])
  }

  lemma AloneUnfolds(s: State, k: nat, request: Request, key: string, newId: Id)
    ensures var trip := Advance(k, newId);
      After(s, Alone(k, request, key, newId)) == Do(Do(Do(Do(s, Start(k, request, key)), trip), trip), trip)
  {
    hide Do;
    var t := Alone(k, request, key, newId);
    assert t[..3][..2] == t[..2] && t[..2][..1] == t[..1] && t[..1][..0] == [];
    assert After(s, t[..1]) == Do(s, t[0]);
    assert After(s, t[..2]) == Do(After(s, t[..1]), t[1]);
    assert After(s, t[..3]) == Do(After(s, t[..2]), t[2]);
  }

  /** A quotable request that nothing blocks is stored, under the drawn id, and that id is returned. */
  lemma FirstCallCreates(s: State, k: nat, request: Request, key: string, newId: Id)
    requires k !in s.calls && QuoteOf(request).Ok? && !IdTaken(s.rows, newId)
    requires !Blocked(s.rows, Call(request, key, CheckingShare))
    ensures var s' := After(s, Alone(k, request, key, newId));
      && s'.rows == s.rows + [Row(newId, request, key, QuoteOf(request).value)]
      && k in s'.calls && s'.calls[k] == Call(request, key, Returned(newId))
  {
    hide QuoteOf, FindOne, IdTaken, After;
    AloneUnfolds(s, k, request, key, newId);
    var c := Call(request, key, CheckingShare);
    NothingFound(s.rows, c, KeyOf(c));
    if request.share.Some? { NothingFound(s.rows, c, ByShare(request.share.value)); }
    var c1 := c.(phase := CheckingKey);
    var c2 := c.(phase := Inserting(QuoteOf(request).value));
    assert RoundTrip(s.rows, c, newId) == (CheckingKey, []);
    assert RoundTrip(s.rows, c1, newId) == (c2.phase, []);
    assert !Taken(s.rows, c2);
    assert RoundTrip(s.rows, c2, newId) == (Returned(newId), [Row(newId, request, key, QuoteOf(request).value)]);
    assert s.rows + [] == s.rows;
  }

  lemma NothingFound(rows: seq<Row>, c: Call, wanted: Criterion)
    requires !Blocked(rows, c)
    requires wanted == KeyOf(c) || (c.request.share.Some? && wanted == ByShare(c.request.share.value))
    ensures FindOne(rows, wanted) == None
  {
    hide FindOne;
    FindOneFinds(rows, wanted);
    FindBlocks(rows, c, wanted);
  }

  /** A repeated call finds the stored transfer and returns its id; nothing is inserted. */
  lemma RepeatReturns(s: State, k: nat, row: Row, key: string, newId: Id)
    requires RowsUnique(s.rows) && row in s.rows && k !in s.calls
    requires row.key == key || row.request.share.Some?
    ensures var s' := After(s, Alone(k, row.request, key, newId));
      s'.rows == s.rows && k in s'.calls && s'.calls[k] == Call(row.request, key, Returned(row.id))
  {
    hide QuoteOf, FindOne, After, Taken, IdTaken;
    AloneUnfolds(s, k, row.request, key, newId);
    var c := Call(row.request, key, CheckingShare);
    assert s.rows + [] == s.rows;
    if row.request.share.Some? {
      FoundExactly(s.rows, row, ByShare(row.request.share.value));
      assert RoundTrip(s.rows, c, newId) == (Returned(row.id), []);
    } else {
      FoundExactly(s.rows, row, KeyOf(c));
      assert RoundTrip(s.rows, c, newId) == (CheckingKey, []);
      assert RoundTrip(s.rows, c.(phase := CheckingKey), newId) == (Returned(row.id), []);
    }
  }

  lemma FoundExactly(rows: seq<Row>, row: Row, wanted: Criterion)
    requires RowsUnique(rows) && row in rows && Matches(row, wanted)
    ensures FindOne(rows, wanted) == Some(row)
  {
    hide FindOne;
    FindOneFinds(rows, wanted);
    var i :| 0 <= i < |rows| && rows[i] == row;
    assert FindOne(rows, wanted).Some?;
    var found := FindOne(rows, wanted).value;
    var j :| 0 <= j < |rows| && rows[j] == found;
    assert Clash(row, found) && Clash(found, row);
  }

  // -------------------------------------------------------- the idempotency key

  const MAX_IDEMPOTENCY_KEY_LENGTH := 200

  datatype KeyError = KeyRequired | KeyTooLong

  /** The characters that JavaScript's `trim` removes. */
  predicate IsSpace(c: char) {
    var n := c as int;
    || 9 <= n <= 13 || n == 32 || n == 0xA0 || n == 0x1680 || 0x2000 <= n <= 0x200A
    || n == 0x2028 || n == 0x2029 || n == 0x202F || n == 0x205F || n == 0x3000 || n == 0xFEFF
  }

  function TrimStart(s: string): string {
    if |s| > 0 && IsSpace(s[0]) then TrimStart(s[1..]) else s
  }

  function TrimEnd(s: string): string {
    if |s| > 0 && IsSpace(s[|s| - 1]) then TrimEnd(s[..|s| - 1]) else s
  }

  function NormalizeKey(header: Option<string>): Result<string, KeyError> {
    var key := if header.Some? then TrimEnd(TrimStart(header.value)) else "";
    if key == "" then Err(KeyRequired)
    else if |key| > MAX_IDEMPOTENCY_KEY_LENGTH then Err(KeyTooLong)
    else Ok(key)
  }

  predicate AllSpace(s: string) {
    forall i :: 0 <= i < |s| ==> IsSpace(s[i])
  }

  /** No space at either end. */
  predicate Tight(s: string) {
    |s| > 0 ==> !IsSpace(s[0]) && !IsSpace(s[|s| - 1])
  }

  lemma {:induction false} TrimStartOf(a: string, s: string)
    requires AllSpace(a) && (|s| > 0 ==> !IsSpace(s[0]))
    ensures TrimStart(a + s) == s
  {
    hide IsSpace;
    if |a| == 0 {
      assert a + s == s;
    } else {
      assert (a + s)[1..] == a[1..] + s;
      TrimStartOf(a[1..], s);
    }
  }

  lemma {:induction false} TrimEndOf(s: string, b: string)
    requires AllSpace(b) && (|s| > 0 ==> !IsSpace(s[|s| - 1]))
    ensures TrimEnd(s + b) == s
    decreases |b|
  {
    hide IsSpace;
    if |b| == 0 {
      assert s + b == s;
    } else {
      assert (s + b)[..|s + b| - 1] == s + b[..|b| - 1];
      TrimEndOf(s, b[..|b| - 1]);
    }
  }

  lemma {:induction false} TrimStartParts(s: string) returns (a: string)
    ensures AllSpace(a) && s == a + TrimStart(s) && (|TrimStart(s)| > 0 ==> !IsSpace(TrimStart(s)[0]))
  {
    hide IsSpace;
    a := "";
    if |s| > 0 && IsSpace(s[0]) {
      var rest := TrimStartParts(s[1..]);
      a := [s[0]] + rest;
      assert s == [s[0]] + s[1..];
    }
  }

  lemma {:induction false} TrimEndParts(s: string) returns (b: string)
    ensures AllSpace(b) && s == TrimEnd(s) + b && (|TrimEnd(s)| > 0 ==> !IsSpace(TrimEnd(s)[|TrimEnd(s)| - 1]))
    decreases |s|
  {
    hide IsSpace;
    b := "";
    if |s| > 0 && IsSpace(s[|s| - 1]) {
      var rest := TrimEndParts(s[..|s| - 1]);
      b := rest + [s[|s| - 1]];
      assert s == s[..|s| - 1] + [s[|s| - 1]];
    }
  }

  lemma SpacedOut(a: string, key: string, b: string)
    requires AllSpace(a) && AllSpace(b) && Tight(key) && key != ""
    ensures TrimEnd(TrimStart(a + key + b)) == key
  {
    hide IsSpace, TrimStart, TrimEnd;
    assert a + key + b == a + (key + b);
    TrimStartOf(a, key + b);
    TrimEndOf(key, b);
  }

  /**
   * Which headers give which key: exactly the key itself, 1 to 200 characters without a space at
   * either end, with any spaces around it. So no two spellings that differ otherwise collide.
   */
  lemma KeySpellings(header: string, key: string)
    ensures NormalizeKey(Some(header)) == Ok(key) <==>
      && 1 <= |key| <= MAX_IDEMPOTENCY_KEY_LENGTH && Tight(key)
      && exists a, b :: AllSpace(a) && AllSpace(b) && header == a + key + b
  {
    hide IsSpace, TrimStart, TrimEnd, AllSpace;
    if NormalizeKey(Some(header)) == Ok(key) {
      var a := TrimStartParts(header);
      var b := TrimEndParts(TrimStart(header));
      assert header == a + key + b;
      assert TrimStart(header)[0] == key[0];
    }
    if Tight(key) && key != "" {
      forall a, b | AllSpace(a) && AllSpace(b) && header == a + key + b ensures TrimEnd(TrimStart(header)) == key {
        SpacedOut(a, key, b);
      }
    }
  }

  // ---------------------------------------------------------------- the service

  /** What a round trip can lead to. */
  predicate Follows(before: Phase, after: Phase) {
    match before
    case CheckingShare => after == CheckingKey || after.Returned? || after == Conflict
    case CheckingKey => after.Inserting? || after.QuoteRefused? || after.Returned? || after == Conflict
    case Inserting(_) => after == LookingUp || after.InsertFailed? || after.Returned?
    case LookingUp => after == WinnerNotVisible || after.Returned? || after == Conflict
    case _ => after == before
  }

  lemma PhaseFollows(rows: seq<Row>, c: Call, newId: Id)
    ensures Follows(c.phase, RoundTrip(rows, c, newId).0)
  {
    hide FindOne, Taken, IdTaken;
  }

  /** The transfers table as the service meets it; `trace` is all that ever happened to it. */
  class TransfersService {
    var state: State
    ghost var trace: seq<Step>

    ghost predicate Valid()
      reads this
    {
      state == Run(trace)
    }

    constructor ()
      ensures Valid() && trace == []
    {
      state, trace := INITIAL, [];
      new;
      RunNothing();
    }

    /** Takes the steps of other calls, none of them this one's. */
    method Others(steps: seq<Step>, k: nat)
      requires Valid() && k in state.calls && forall i :: 0 <= i < |steps| ==> steps[i].call != k
      modifies this
      ensures Valid() && trace == old(trace) + steps
      ensures k in state.calls && state.calls[k] == old(state.calls[k])
    {
      hide Run, RoundTrip;
      var n := 0;
      assert trace == trace + steps[..0];
      while n < |steps|
        invariant n <= |steps| && Valid() && trace == old(trace) + steps[..n]
        invariant k in state.calls && state.calls[k] == old(state.calls[k])
      {
        RunGrows(trace, steps[n]);
        state, trace := Do(state, steps[n]), trace + [steps[n]];
        n := n + 1;
      }
      assert steps[..n] == steps;
    }

    /** One round trip of this call, after the steps that other calls take first. */
    method Trip(k: nat, newId: Id, before: seq<Step>) returns (phase: Phase)
      requires Valid() && k in state.calls && forall i :: 0 <= i < |before| ==> before[i].call != k
      modifies this
      ensures Valid() && old(trace) <= trace
      ensures Follows(old(state.calls[k].phase), phase)
      ensures k in state.calls && state.calls[k] == old(state.calls[k]).(phase := phase)
    {
      hide Run, RoundTrip, Follows;
      Others(before, k);
      RunGrows(trace, Advance(k, newId));
      PhaseFollows(state.rows, state.calls[k], newId);
      state, trace := Do(state, Advance(k, newId)), trace + [Advance(k, newId)];
      phase := state.calls[k].phase;
    }

    /**
     * The whole call, with `others(i)` happening before its `i`-th round trip. It ends in an answer;
     * a returned transfer is stored with exactly this request, and answers only the family the
     * request belongs to.
     */
    method CreateCanonical(k: nat, request: Request, key: string, newId: Id, others: nat -> seq<Step>)
      returns (r: Phase)
      requires Valid() && k !in state.calls
      requires forall i: nat, j :: 0 <= j < |others(i)| ==> others(i)[j].call != k
      modifies this
      ensures Valid() && old(trace) <= trace
      ensures k in state.calls && state.calls[k] == Call(request, key, r)
      ensures r.Returned? || r == Conflict || r == WinnerNotVisible || r.InsertFailed? || r.QuoteRefused?
      ensures r.Returned? ==> Answered(state.rows, Call(request, key, r), r.id)
      ensures r.QuoteRefused? ==>
        FxQuote.Quote(request.amount, request.currency, request.destCurrency) == Err(r.error)
      ensures r.InsertFailed? ==> IdTaken(state.rows, r.id)
      ensures r == Conflict ==> Refused(state.rows, Call(request, key, r))
      ensures r == WinnerNotVisible ==> KeyReused(state.rows, Call(request, key, r))
    {
      hide Run, Answered, Refused, KeyReused, RoundTrip, IdTaken, FxQuote.Quote, RowsUnique, RowsQuoted;
      RunGrows(trace, Start(k, request, key));
      state, trace := Do(state, Start(k, request, key)), trace + [Start(k, request, key)];
      r := Trip(k, newId, others(0));
      if r == CheckingKey {
        r := Trip(k, newId, others(1));
        if r.Inserting? {
          r := Trip(k, newId, others(2));
          if r == LookingUp {
            r := Trip(k, newId, others(3));
          }
        }
      }
      RunKeeps(trace);
    }

    /** `create`: a header without a usable key is refused before anything is read or written. */
    method Create(k: nat, request: Request, header: Option<string>, newId: Id, others: nat -> seq<Step>)
      returns (r: Result<Phase, KeyError>)
      requires Valid() && k !in state.calls
      requires forall i: nat, j :: 0 <= j < |others(i)| ==> others(i)[j].call != k
      modifies this
      ensures Valid() && old(trace) <= trace
      ensures r.Err? <==> NormalizeKey(header).Err?
      ensures r.Err? ==> r.error == NormalizeKey(header).error && state == old(state) && trace == old(trace)
      ensures r.Ok? ==> k in state.calls && state.calls[k] == Call(request, NormalizeKey(header).value, r.value)
      ensures r.Ok? && r.value.Returned? ==> Answered(state.rows, state.calls[k], r.value.id)
    {
      hide Run, NormalizeKey, Answered, Refused, KeyReused;
      var key := NormalizeKey(header);
      if key.Err? {
        return Err(key.error);
      }
      var phase := CreateCanonical(k, request, key.value, newId, others);
      return Ok(phase);
    }
  }
}
