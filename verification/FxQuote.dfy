/** Half-up currency conversion over integer minor units: fx-quote.ts. */
module FxQuote {
  import opened Base

  datatype FxError = UnsupportedCurrency | NonPositiveAmount | BelowOneMinorUnit

  /** The value of one major unit in micro-USD. */
  function MicroUsd(c: Currency): Option<int> {
    if c == "USD" then Some(1_000_000)
    else if c == "EUR" then Some(1_087_000)
    else if c == "UAH" then Some(24_390)
    else None
  }

  predicate Supported(c: Currency) {
    MicroUsd(c).Some?
  }

  /** The integer nearest to `source * num / den`, halves upward. */
  function HalfUp(source: int, num: int, den: int): int
    requires den > 0
  {
    (source * num + den / 2) / den
  }

  function Quote(source: int, from: Currency, to: Currency): Result<int, FxError> {
    if !Supported(from) || !Supported(to) then Err(UnsupportedCurrency)
    else if source <= 0 then Err(NonPositiveAmount)
    else
      Rates(from);
      Rates(to);
      var destination := HalfUp(source, MicroUsd(from).value, MicroUsd(to).value);
      if destination <= 0 then Err(BelowOneMinorUnit) else Ok(destination)
  }

  lemma Rates(c: Currency)
    requires Supported(c)
    ensures 24_390 <= MicroUsd(c).value <= 1_087_000
  {
  }

  lemma DivBounds(n: int, den: int)
    requires den > 0
    ensures den * (n / den) <= n < den * (n / den) + den
  {
  }

  lemma Gap(den: int, a: int, b: int)
    requires den > 0
    ensures a < b ==> den * a + den <= den * b
  {
    if a < b {
      assert den * (a + 1) <= den * b;
    }
  }

  lemma DivIs(n: int, den: int, q: int)
    requires den > 0 && den * q <= n < den * q + den
    ensures n / den == q
  {
    DivBounds(n, den);
    Gap(den, n / den, q);
    Gap(den, q, n / den);
  }

  /** The result is within half a unit of the exact rational. */
  lemma WithinHalf(source: int, num: int, den: int)
    requires den > 0
    ensures -den < 2 * (HalfUp(source, num, den) * den - source * num) <= den
  {
    DivBounds(source * num + den / 2, den);
    var q := HalfUp(source, num, den);
    assert den * q == q * den;
  }

  lemma Monotone(a: int, b: int, num: int, den: int)
    requires den > 0 && num >= 0 && a <= b
    ensures HalfUp(a, num, den) <= HalfUp(b, num, den)
  {
    assert a * num <= b * num;
    var x, y := a * num + den / 2, b * num + den / 2;
    DivBounds(x, den);
    DivBounds(y, den);
    Gap(den, y / den, x / den);
  }

  /** Converting within one currency changes nothing. */
  lemma Identity(source: int, num: int)
    requires num > 0
    ensures HalfUp(source, num, num) == source
  {
    assert num * source == source * num;
    DivIs(source * num + num / 2, num, source);
  }

  /** Into a strictly smaller unit and back: nothing is lost. */
  lemma RoundTrip(source: int, num: int, den: int)
    requires 0 < den < num
    ensures HalfUp(HalfUp(source, num, den), den, num) == source
  {
    WithinHalf(source, num, den);
    var d := HalfUp(source, num, den);
    assert num * source == source * num;
    DivIs(d * den + num / 2, num, source);
  }

  /** A quote is within half a minor unit of the exact rate, and positive. */
  lemma QuoteIsNearest(source: int, from: Currency, to: Currency)
    requires Quote(source, from, to).Ok?
    ensures Supported(from) && Supported(to) && source > 0 && Quote(source, from, to).value > 0
    ensures var error := Quote(source, from, to).value * MicroUsd(to).value - source * MicroUsd(from).value;
      -MicroUsd(to).value < 2 * error <= MicroUsd(to).value
  {
    Rates(from);
    Rates(to);
    WithinHalf(source, MicroUsd(from).value, MicroUsd(to).value);
  }

  /** A quote within one currency is the amount itself, and always succeeds. */
  lemma QuoteSameCurrency(source: int, c: Currency)
    requires Supported(c) && source > 0
    ensures Quote(source, c, c) == Ok(source)
  {
    Rates(c);
    Identity(source, MicroUsd(c).value);
  }

  /** Quoting into a cheaper currency and back returns the original amount. */
  lemma QuoteRoundTrip(source: int, from: Currency, to: Currency)
    requires Supported(from) && Supported(to) && source > 0
    requires MicroUsd(to).value < MicroUsd(from).value
    ensures Quote(source, from, to).Ok?
    ensures Quote(Quote(source, from, to).value, to, from) == Ok(source)
  {
    Rates(from);
    Rates(to);
    var num, den := MicroUsd(from).value, MicroUsd(to).value;
    RoundTrip(source, num, den);
    Monotone(1, source, num, den);
    AtLeastOne(num, den);
  }

  /** Which amounts have no quote, and why: the destination would round to nothing, at the last. */
  lemma QuoteRefusals(source: int, from: Currency, to: Currency)
    ensures Quote(source, from, to) == Err(UnsupportedCurrency) <==> !Supported(from) || !Supported(to)
    ensures Quote(source, from, to) == Err(NonPositiveAmount) <==> Supported(from) && Supported(to) && source <= 0
    ensures Quote(source, from, to) == Err(BelowOneMinorUnit) <==>
      && Supported(from) && Supported(to) && source > 0
      && 2 * source * MicroUsd(from).value < MicroUsd(to).value
  {
    if Supported(from) && Supported(to) && source > 0 {
      Rates(from);
      Rates(to);
      BelowOne(source, MicroUsd(from).value, MicroUsd(to).value);
    }
  }

  lemma BelowOne(source: int, num: int, den: int)
    requires source > 0 && num > 0 && den > 0
    ensures HalfUp(source, num, den) <= 0 <==> 2 * source * num < den
  {
    hide HalfUp;
    WithinHalf(source, num, den);
    Multiples(HalfUp(source, num, den), den);
    Twice(source, num);
  }

  lemma Multiples(d: int, den: int)
    requires den > 0
    ensures d <= 0 ==> d * den <= 0
    ensures d >= 1 ==> d * den >= den
  {
  }

  lemma Twice(a: int, b: int)
    ensures 2 * a * b == 2 * (a * b)
  {
  }

  lemma AtLeastOne(num: int, den: int)
    requires 0 < den < num
    ensures HalfUp(1, num, den) >= 1
  {
    DivBounds(num + den / 2, den);
  }

  /** Quoted there and back, the amount comes back. */
  predicate TripExact(source: int, from: Currency, to: Currency) {
    && Quote(source, from, to).Ok?
    && Quote(Quote(source, from, to).value, to, from) == Ok(source)
  }

  /** In the other direction each pair loses some amount: 21 kopiykas, for one, come back as 41. */
  lemma RoundTripFailsUpward(from: Currency, to: Currency) returns (source: int)
    requires Supported(from) && Supported(to) && MicroUsd(from).value < MicroUsd(to).value
    ensures source > 0 && !TripExact(source, from, to)
  {
    source := if from == "USD" then 6 else if to == "USD" then 21 else 23;
  }

  /** Every amount survives the round trip exactly when the middle currency's unit is worth no more. */
  lemma RoundTripExactIff(from: Currency, to: Currency)
    requires Supported(from) && Supported(to)
    ensures (forall source :: source > 0 ==> TripExact(source, from, to)) <==>
      MicroUsd(to).value <= MicroUsd(from).value
  {
    hide Quote;
    if MicroUsd(from).value < MicroUsd(to).value {
      var source := RoundTripFailsUpward(from, to);
    } else {
      forall source | source > 0 ensures TripExact(source, from, to) {
        if from == to {
          QuoteSameCurrency(source, from);
        } else {
          QuoteRoundTrip(source, from, to);
        }
      }
    }
  }
}
