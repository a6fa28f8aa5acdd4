/** Money as text: split-bills/domain/money.ts, and the ledger's signed form in ledger-transaction.ts. */
module MoneyText {
  import opened Base

  const MAX_SAFE_INTEGER := 0x1F_FFFF_FFFF_FFFF

  datatype MoneyError = NotExactDecimal | NotPositive | BeyondRange

  // --------------------------------------------------------- decimal numerals

  predicate IsDigit(c: char) {
    '0' <= c <= '9'
  }

  function DigitOf(d: int): char
    requires 0 <= d < 10
  {
    '0' + d as char
  }

  function DigitValue(c: char): int
    requires IsDigit(c)
  {
    c as int - '0' as int
  }

  predicate AllDigits(s: string) {
    forall i :: 0 <= i < |s| ==> IsDigit(s[i])
  }

  /** `BigInt.prototype.toString` of a natural number. */
  function Digits(n: nat): string {
    if n < 10 then [DigitOf(n)] else Digits(n / 10) + [DigitOf(n % 10)]
  }

  /** `BigInt` of a digit string. */
  function Value(s: string): nat
    requires AllDigits(s)
  {
    if |s| == 0 then 0 else Value(s[..|s| - 1]) * 10 + DigitValue(s[|s| - 1])
  }

  /** A numeral without leading zeros: the pattern `0|[1-9]\d*`. */
  predicate Canonical(s: string) {
    |s| >= 1 && AllDigits(s) && (|s| > 1 ==> s[0] != '0')
  }

  function SignedDigits(n: int): string {
    if n < 0 then "-" + Digits(-n) else Digits(n)
  }

  /** JavaScript's bigint division and remainder, which truncate toward zero. */
  function TruncDiv(n: int, d: int): int
    requires d > 0
  {
    if n < 0 then -(-n / d) else n / d
  }

  function TruncMod(n: int, d: int): int
    requires d > 0
  {
    n - TruncDiv(n, d) * d
  }

  function PadTwo(s: string): string {
    if |s| == 0 then "00" else if |s| == 1 then "0" + s else s
  }

  // ----------------------------------------------------------- payments: money

  predicate MatchesMoneyPattern(s: string) {
    && |s| >= 4
    && s[|s| - 3] == '.'
    && Canonical(s[..|s| - 3])
    && AllDigits(s[|s| - 2..])
  }

  function ParseMoneyToMinor(s: string): Result<int, MoneyError> {
    if !MatchesMoneyPattern(s) then Err(NotExactDecimal)
    else
      var minor := Value(s[..|s| - 3]) * 100 + Value(s[|s| - 2..]);
      if minor <= 0 then Err(NotPositive)
      else if minor > MAX_SAFE_INTEGER then Err(BeyondRange)
      else Ok(minor)
  }

  function FormatMoney(value: int): string {
    SignedDigits(TruncDiv(value, 100)) + "." + PadTwo(SignedDigits(TruncMod(value, 100)))
  }

  // ----------------------------------------------------------- ledger: amounts

  function FormatMinorUnits(n: int): string {
    var absolute: nat := if n < 0 then -n else n;
    (if n < 0 then "-" else "") + Digits(absolute / 100) + "." + PadTwo(Digits(absolute % 100))
  }

  function ParseMinorUnits(s: string): Result<int, LedgerError> {
    if |s| > 0 && AllDigits(s) then Ok(Value(s) as int)
    else if |s| > 1 && s[0] == '-' && AllDigits(s[1..]) then Ok(-(Value(s[1..]) as int))
    else Err(InvalidAmount)
  }

  // --------------------------------------------------------------------- proof

  lemma {:induction false} DigitsCanonical(n: nat)
    ensures Canonical(Digits(n)) && Value(Digits(n)) == n
    ensures n > 0 ==> Digits(n)[0] != '0'
  {
    if n < 10 {
      assert Digits(n)[..0] == [];
    } else {
      DigitsCanonical(n / 10);
      assert Digits(n)[..|Digits(n)| - 1] == Digits(n / 10);
    }
  }

  lemma {:induction false} ValueCanonical(s: string)
    requires Canonical(s)
    ensures Digits(Value(s)) == s
    ensures s[0] != '0' ==> Value(s) > 0
  {
    var front, last := s[..|s| - 1], s[|s| - 1];
    if |s| == 1 {
      assert front == [] && Value(front) == 0;
      assert s == [last];
    } else {
      ValueCanonical(front);
      assert s == front + [last];
      LastDigit(Value(front), DigitValue(last));
    }
  }

  lemma LastDigit(n: nat, d: int)
    requires 0 <= d < 10
    ensures (n * 10 + d) / 10 == n && (n * 10 + d) % 10 == d
  {
  }

  /** Two digits hold exactly the numbers below a hundred. */
  lemma PaddedValue(n: nat)
    requires n < 100
    ensures |PadTwo(Digits(n))| == 2 && AllDigits(PadTwo(Digits(n))) && Value(PadTwo(Digits(n))) == n
  {
    DigitsCanonical(n);
    if n < 10 {
      TwoDigits("0" + Digits(n));
    } else {
      assert Digits(n / 10) == [DigitOf(n / 10)];
    }
  }

  lemma TwoDigits(s: string)
    requires |s| == 2 && AllDigits(s)
    ensures Value(s) == DigitValue(s[0]) * 10 + DigitValue(s[1])
  {
    assert s[..1][..0] == [] && s[..1] == [s[0]];
    assert Value(s[..1]) == DigitValue(s[0]);
  }

  lemma PaddedText(s: string)
    requires |s| == 2 && AllDigits(s)
    ensures Value(s) < 100 && PadTwo(Digits(Value(s))) == s
  {
    hide Value;
    TwoDigits(s);
    var a, b := DigitValue(s[0]), DigitValue(s[1]);
    if a == 0 {
      assert "0" + [DigitOf(b)] == s;
    } else {
      LastDigit(a, b);
      assert Digits(a) == [DigitOf(a)];
      assert [DigitOf(a)] + [DigitOf(b)] == s;
    }
  }

  /** A text of the shape the pattern accepts, taken apart. */
  lemma Parts(whole: string, fraction: string)
    requires Canonical(whole) && |fraction| == 2 && AllDigits(fraction)
    ensures var s := whole + "." + fraction;
      MatchesMoneyPattern(s) && s[..|s| - 3] == whole && s[|s| - 2..] == fraction
  {
    var s := whole + "." + fraction;
    assert s[..|s| - 3] == whole && s[|s| - 2..] == fraction;
  }

  lemma HundredParts(w: nat, f: nat)
    requires f < 100
    ensures (w * 100 + f) / 100 == w && (w * 100 + f) % 100 == f
  {
  }

  /** Printing and parsing back: exact on every supported amount. */
  lemma ParseOfFormat(n: int)
    requires 1 <= n <= MAX_SAFE_INTEGER
    ensures ParseMoneyToMinor(FormatMoney(n)) == Ok(n)
  {
    hide Digits, PadTwo;
    DigitsCanonical(n / 100);
    PaddedValue(n % 100);
    Parts(Digits(n / 100), PadTwo(Digits(n % 100)));
  }

  /** Parsing and printing back: exact on every accepted text, so each amount has one spelling. */
  lemma FormatOfParse(s: string)
    requires ParseMoneyToMinor(s).Ok?
    ensures FormatMoney(ParseMoneyToMinor(s).value) == s
    ensures 1 <= ParseMoneyToMinor(s).value <= MAX_SAFE_INTEGER
  {
    hide Digits, PadTwo, Value;
    var whole, fraction := s[..|s| - 3], s[|s| - 2..];
    ValueCanonical(whole);
    PaddedText(fraction);
    HundredParts(Value(whole), Value(fraction));
    assert s == whole + "." + fraction;
  }

  /** Every accepted text is the print of one supported amount, and nothing else is accepted. */
  lemma AcceptedTexts(s: string)
    ensures ParseMoneyToMinor(s).Ok? <==> exists n :: 1 <= n <= MAX_SAFE_INTEGER && FormatMoney(n) == s
  {
    hide FormatMoney, ParseMoneyToMinor;
    if ParseMoneyToMinor(s).Ok? {
      FormatOfParse(s);
    }
    forall n | 1 <= n <= MAX_SAFE_INTEGER && FormatMoney(n) == s ensures ParseMoneyToMinor(s).Ok? {
      ParseOfFormat(n);
    }
  }

  /** What is left when the sign is taken off. */
  function Unsigned(n: nat): string {
    Digits(n / 100) + "." + PadTwo(Digits(n % 100))
  }

  lemma UnsignedInjective(a: nat, b: nat)
    requires Unsigned(a) == Unsigned(b)
    ensures a == b
  {
    hide Digits, PadTwo;
    DigitsCanonical(a / 100);
    DigitsCanonical(b / 100);
    PaddedValue(a % 100);
    PaddedValue(b % 100);
    Parts(Digits(a / 100), PadTwo(Digits(a % 100)));
    Parts(Digits(b / 100), PadTwo(Digits(b % 100)));
    assert Digits(a / 100) == Digits(b / 100);
  }

  /** The ledger's signed format tells all integers apart. */
  lemma FormatMinorUnitsInjective(a: int, b: int)
    requires FormatMinorUnits(a) == FormatMinorUnits(b)
    ensures a == b
  {
    hide Digits, PadTwo;
    FormatHead(a);
    FormatHead(b);
    var x: nat, y: nat := if a < 0 then -a else a, if b < 0 then -b else b;
    assert (a < 0) == (b < 0);
    if a < 0 {
      assert FormatMinorUnits(a)[1..] == Unsigned(x);
      assert FormatMinorUnits(b)[1..] == Unsigned(y);
    } else {
      assert "" + Unsigned(x) == Unsigned(x) && "" + Unsigned(y) == Unsigned(y);
    }
    UnsignedInjective(x, y);
  }

  /** Only a negative amount starts with the sign. */
  lemma FormatHead(n: int)
    ensures |FormatMinorUnits(n)| > 0 && (FormatMinorUnits(n)[0] == '-' <==> n < 0)
    ensures FormatMinorUnits(n) == (if n < 0 then "-" else "") + Unsigned(if n < 0 then -n else n)
  {
    hide Digits, PadTwo;
    var absolute: nat := if n < 0 then -n else n;
    DigitsCanonical(absolute / 100);
    var d := Digits(absolute / 100);
    assert IsDigit(d[0]);
    assert (if n < 0 then "-" else "") + Unsigned(absolute) == FormatMinorUnits(n);
  }

  /** Stored posting amounts come back exactly. */
  lemma ParseOfSigned(n: int)
    ensures ParseMinorUnits(SignedDigits(n)) == Ok(n)
  {
    hide Digits;
    DigitsCanonical(if n < 0 then -n else n);
    if n < 0 {
      assert SignedDigits(n)[1..] == Digits(-n);
      assert !IsDigit(SignedDigits(n)[0]);
    }
  }
}
