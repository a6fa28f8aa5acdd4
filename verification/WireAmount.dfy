/**
 * Amounts on the wire. Payments sends `Number(amountMinor) / 100` as a binary64; the ledger takes
 * `Math.round(amount * 100)`. Each operation is only known to have a relative error of at most
 * 2^-53 (section 4.3.1 of IEEE 754-2019); JSON text carries a binary64 exactly.
 */
module WireAmount {
  import opened Base
  import F = FxQuote

  /** The largest amount that survives whatever the two roundings do: 2^51 - 1. */
  const MAX_EXACT := 0x7_FFFF_FFFF_FFFF

  const MAX_SAFE_INTEGER := 0x1F_FFFF_FFFF_FFFF

  /** `MAX_TRANSFER_AMOUNT` defaults to 10 000 major units. */
  const DEFAULT_LIMIT_MINOR := 10_000 * 100

  function Abs(x: real): real {
    if x < 0.0 then -x else x
  }

  /** `computed` is `exact` rounded with a relative error of at most 2^-53. */
  predicate Rounded(exact: real, computed: real) {
    Abs(computed - exact) * 9007199254740992.0 <= Abs(exact)
  }

  /** `Math.round`: the nearest integer, halves upward. */
  function MathRound(x: real): int {
    (x + 0.5).Floor
  }

  /** `sent` is what payments may put on the wire, `scaled` what the ledger may compute from it. */
  predicate OnWire(n: int, sent: real, scaled: real) {
    Rounded(n as real / 100.0, sent) && Rounded(sent * 100.0, scaled)
  }

  function AmountToMinorUnits(scaled: real): Result<int, LedgerError> {
    var rounded := MathRound(scaled);
    if -MAX_SAFE_INTEGER <= rounded <= MAX_SAFE_INTEGER then Ok(rounded) else Err(InvalidAmount)
  }

  /**
   * The amount of a transfer request: `difference` is the computed distance of `scaled` from its
   * nearest integer, `tolerance` the binary64 written `1e-8`.
   */
  function RequestAmount(amount: real, scaled: real, difference: real, tolerance: real): Option<int> {
    var rounded := MathRound(scaled);
    if amount <= 0.0 || rounded < -MAX_SAFE_INTEGER || rounded > MAX_SAFE_INTEGER || Abs(difference) > tolerance
    then None else Some(rounded)
  }

  /** The two roundings together move an amount by little more than n / 2^52. */
  lemma ScaledIsClose(n: int, sent: real, scaled: real)
    requires n >= 0 && OnWire(n, sent, scaled)
    ensures Abs(scaled - n as real) * 4503599627370495.0 <= n as real
  {
    var exact := n as real / 100.0;
    assert Abs(sent - exact) * 9007199254740992.0 <= exact;
    assert sent >= 0.0;
    assert Abs(scaled - sent * 100.0) * 9007199254740992.0 <= sent * 100.0;
    assert exact * 100.0 == n as real;
  }

  lemma RoundsTo(x: real, n: int)
    requires -0.5 <= x - n as real < 0.5
    ensures MathRound(x) == n
  {
  }

  /** The ledger reads back the amount that payments sent. */
  lemma WireRoundTrip(n: int, sent: real, scaled: real)
    requires 0 <= n <= MAX_EXACT && OnWire(n, sent, scaled)
    ensures AmountToMinorUnits(scaled) == Ok(n)
  {
    WireClose(n, sent, scaled);
    RoundsTo(scaled, n);
  }

  lemma WireClose(n: int, sent: real, scaled: real)
    requires 0 <= n <= MAX_EXACT && OnWire(n, sent, scaled)
    ensures -0.5 < scaled - n as real < 0.5
  {
    var exact := n as real / 100.0;
    assert n as real <= 2251799813685247.0;
    assert Abs(sent - exact) * 9007199254740992.0 <= exact;
    assert sent >= 0.0;
    assert Abs(scaled - sent * 100.0) * 9007199254740992.0 <= sent * 100.0;
    assert exact * 100.0 == n as real;
  }

  /** One more, and roundings within the standard's bound can already be off by one. */
  lemma OffByOne(n: int) returns (sent: real, scaled: real)
    requires n > MAX_EXACT
    ensures OnWire(n, sent, scaled) && MathRound(scaled) != n
  {
    var exact := n as real / 100.0;
    sent := exact + exact / 9007199254740992.0;
    scaled := sent * 100.0 + sent * 100.0 / 9007199254740992.0;
    assert n as real >= 2251799813685248.0;
    assert scaled >= n as real + 0.5;
    assert scaled + 0.5 >= (n + 1) as real;
  }

  /** Exactly the amounts up to 2^51 - 1 survive every pair of admissible roundings. */
  lemma ExactRange(n: nat)
    ensures (forall sent, scaled :: OnWire(n, sent, scaled) ==> AmountToMinorUnits(scaled) == Ok(n)) <==> n <= MAX_EXACT
  {
    hide OnWire, MathRound;
    if n <= MAX_EXACT {
      forall sent, scaled | OnWire(n, sent, scaled) ensures AmountToMinorUnits(scaled) == Ok(n) {
        WireRoundTrip(n, sent, scaled);
      }
    } else {
      var sent, scaled := OffByOne(n);
      assert OnWire(n, sent, scaled) && AmountToMinorUnits(scaled) != Ok(n);
    }
  }

  /** A request in whole minor units is accepted and read exactly, far past the default limit. */
  lemma RequestAmountExact(n: int, amount: real, scaled: real, difference: real, tolerance: real)
    requires 1 <= n <= 45 * DEFAULT_LIMIT_MINOR && OnWire(n, amount, scaled)
    requires Rounded(scaled - MathRound(scaled) as real, difference) && Rounded(0.00000001, tolerance)
    ensures RequestAmount(amount, scaled, difference, tolerance) == Some(n)
  {
    WireRoundTrip(n, amount, scaled);
    assert MathRound(scaled) == n;
    ScaledIsClose(n, amount, scaled);
    var exact := n as real / 100.0;
    assert Abs(amount - exact) * 9007199254740992.0 <= exact;
    assert n as real <= 45000000.0;
  }

  /** A quote of an amount within the limit is at most 45 times as large. */
  lemma QuoteWithinLimit(source: int, from: Currency, to: Currency)
    requires F.Quote(source, from, to).Ok? && source <= DEFAULT_LIMIT_MINOR
    ensures 0 < source && 0 < F.Quote(source, from, to).value <= 45 * DEFAULT_LIMIT_MINOR
  {
    F.QuoteIsNearest(source, from, to);
    F.Rates(from);
    F.Rates(to);
    var d, num, den := F.Quote(source, from, to).value, F.MicroUsd(from).value, F.MicroUsd(to).value;
    assert source * num <= DEFAULT_LIMIT_MINOR * 1_087_000 by { Products(source, DEFAULT_LIMIT_MINOR, num, 1_087_000); }
    if d > 45 * DEFAULT_LIMIT_MINOR {
      Products(45 * DEFAULT_LIMIT_MINOR + 1, d, 24_390, den);
      assert false;
    }
  }

  lemma Products(a: int, b: int, x: int, y: int)
    requires 0 <= a <= b && 0 <= x <= y
    ensures a * x <= b * y
  {
    assert a * x <= b * x <= b * y;
  }

  /** Every transfer the default policy admits crosses the wire exactly, both of its amounts. */
  lemma PolicyAmountsSurvive(source: int, from: Currency, to: Currency, sent: real, scaled: real, destSent: real,
    destScaled: real)
    requires F.Quote(source, from, to).Ok? && source <= DEFAULT_LIMIT_MINOR
    requires OnWire(source, sent, scaled) && OnWire(F.Quote(source, from, to).value, destSent, destScaled)
    ensures AmountToMinorUnits(scaled) == Ok(source)
    ensures AmountToMinorUnits(destScaled) == Ok(F.Quote(source, from, to).value)
  {
    hide F.Quote, OnWire, AmountToMinorUnits;
    QuoteWithinLimit(source, from, to);
    WireRoundTrip(source, sent, scaled);
    WireRoundTrip(F.Quote(source, from, to).value, destSent, destScaled);
  }
}
