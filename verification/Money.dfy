/**
 Money in integer micros and the decimal arithmetic of currency conversion.

 Decimals are a coefficient and a number of decimal places. Division keeps sixteen places and
 rounds half away from zero; multiplication is exact; the integer part truncates toward zero and
 is then narrowed to 64 bits.
 */
module Money {
  import opened Results
  import opened Tables

  datatype Decimal = Decimal(coef: int, scale: nat)

  const MICROS := 1_000_000
  const DIVISION_PLACES: nat := 16
  const UNIT := 1_0000_0000_0000_0000          // ten to the sixteenth
  const INT64_MAX := 0x7FFF_FFFF_FFFF_FFFF
  const TWO64 := 0x1_0000_0000_0000_0000

  function Pow10(n: nat): (r: nat)
    ensures r > 0
  {
    if n == 0 then 1 else 10 * Pow10(n - 1)
  }

  function Abs(n: int): nat {
    if n < 0 then -n else n
  }

  /** Quotient rounded half away from zero, for a positive divisor. */
  function RoundDiv(n: int, d: int): int
    requires d > 0
  {
    var q := Abs(n) / d;
    var r := Abs(n) % d;
    var rounded := if 2 * r >= d then q + 1 else q;
    if n < 0 then -rounded else rounded
  }

  function Mul(x: Decimal, y: Decimal): Decimal {
    Decimal(x.coef * y.coef, x.scale + y.scale)
  }

  function Div(x: Decimal, y: Decimal): Decimal
    requires y.coef > 0
  {
    Decimal(RoundDiv(x.coef * Pow10(DIVISION_PLACES + y.scale), y.coef * Pow10(x.scale)), DIVISION_PLACES)
  }

  function Truncate(x: Decimal): int {
    var q := Abs(x.coef) / Pow10(x.scale);
    if x.coef < 0 then -q else q
  }

  /** The low 64 bits of an integer, read as two's complement. */
  function ToInt64(n: int): (r: int)
    ensures -INT64_MAX - 1 <= r <= INT64_MAX
    ensures 0 <= n <= INT64_MAX ==> r == n
    ensures INT64_MAX < n < TWO64 ==> r < 0
  {
    var m := n % TWO64;
    if m > INT64_MAX then m - TWO64 else m
  }

  function ToDecimal(amount: int): Decimal {
    Div(Decimal(amount, 0), Decimal(MICROS, 0))
  }

  function FromDecimal(d: Decimal): int {
    ToInt64(Truncate(Mul(d, Decimal(MICROS, 0))))
  }

  function Convert(amount: int, rate: Decimal): int {
    FromDecimal(Mul(ToDecimal(amount), rate))
  }

  /** Units of a currency per US dollar. */
  function BaseRate(c: Currency): (r: Result<Decimal>)
    ensures r.Ok? ==> r.value.coef > 0
  {
    match c
    case USD => Ok(Decimal(1, 0))
    case EUR => Ok(Decimal(92, 2))
    case GBP => Ok(Decimal(79, 2))
    case Unsupported(_) => Err(UnsupportedCurrency)
  }

  function ExchangeRate(source: Currency, target: Currency): Result<Decimal> {
    if source == target then Ok(Decimal(1, 0))
    else
      var s :- BaseRate(source);
      var t :- BaseRate(target);
      Ok(Div(t, s))
  }

  // ---- Convert is the floor of amount times rate ----

  lemma Pow10Values()
    ensures Pow10(2) == 100
    ensures Pow10(16) == UNIT
    ensures Pow10(18) == 100 * UNIT
  {
    assert Pow10(4) == 10_000;
    assert Pow10(8) == 1_0000_0000;
    assert Pow10(12) == 1_0000_0000_0000;
    assert Pow10(16) == UNIT;
  }

  lemma {:induction false} Pow10Add(m: nat, n: nat)
    ensures Pow10(m + n) == Pow10(m) * Pow10(n)
  {
    if m > 0 {
      Pow10Add(m - 1, n);
    }
  }

  lemma CancelFactor(n: nat, d: nat, k: nat)
    requires d > 0 && k > 0
    ensures k * d > 0
    ensures (k * n) / (k * d) == n / d
  {
    var q, r := n / d, n % d;
    assert n == q * d + r;
    assert k * n == q * (k * d) + k * r by { assert k * (q * d) == q * (k * d); }
    QuotientUnique(k * n, k * d, q, k * r);
  }

  lemma QuotientUnique(n: int, d: int, q: int, r: int)
    requires d > 0 && n == q * d + r && 0 <= r < d
    ensures n / d == q
  {
    var gap := q - n / d;
    assert gap * d == n % d - r;
    Bracket(gap, d);
  }

  lemma Bracket(gap: int, d: int)
    requires d > 0 && -d < gap * d < d
    ensures gap == 0
  {
  }

  /** A whole number of micros is a decimal without rounding. */
  lemma ToDecimalExact(amount: nat)
    ensures ToDecimal(amount) == Decimal(amount * 1_0000_000_000, 16)
  {
    Pow10Values();
    assert Pow10(0) == 1;
  }

  /** For a non-negative amount and rate the conversion is the exact floor, narrowed to 64 bits. */
  lemma ConvertIsFloor(amount: nat, rate: Decimal)
    requires rate.coef >= 0
    ensures Convert(amount, rate) == ToInt64(amount * rate.coef / Pow10(rate.scale))
  {
    ToDecimalExact(amount);
    var n := amount * rate.coef;
    var product := Mul(Mul(ToDecimal(amount), rate), Decimal(MICROS, 0));
    calc {
      product.coef;
      (amount * 1_0000_000_000) * rate.coef * MICROS;
      UNIT * n;
    }
    assert product.scale == 16 + rate.scale;
    Pow10Add(16, rate.scale);
    Pow10Values();
    CancelFactor(n, Pow10(rate.scale), UNIT);
  }


  // ---- splitting and monotonicity ----

  /** The conversion before it is narrowed to 64 bits. */
  function Quote(amount: nat, rate: Decimal): int {
    amount * rate.coef / Pow10(rate.scale)
  }

  lemma ConvertIsQuote(amount: nat, rate: Decimal)
    requires rate.coef >= 0
    ensures Quote(amount, rate) >= 0
    ensures Quote(amount, rate) <= INT64_MAX ==> Convert(amount, rate) == Quote(amount, rate)
  {
    ConvertIsFloor(amount, rate);
    FloorNonNegative(amount, rate.coef, Pow10(rate.scale));
  }

  lemma FloorNonNegative(n: nat, k: nat, d: nat)
    requires d > 0
    ensures n * k / d >= 0
  {
    ScaleBoth(0, n, k);
    QuotientNonNegative(n * k, d);
  }

  lemma QuotientNonNegative(n: int, d: int)
    requires n >= 0 && d > 0
    ensures n / d >= 0
  {
  }

  lemma QuoteMonotone(x: nat, y: nat, rate: Decimal)
    requires rate.coef >= 0 && x <= y
    ensures Quote(x, rate) <= Quote(y, rate)
  {
    QuoteSum(x, y - x, rate);
    FloorNonNegative(y - x, rate.coef, Pow10(rate.scale));
  }

  function SumOf(parts: seq<nat>): nat {
    if parts == [] then 0 else parts[0] + SumOf(parts[1..])
  }

  function SumConverted(parts: seq<nat>, rate: Decimal): int {
    if parts == [] then 0 else Convert(parts[0], rate) + SumConverted(parts[1..], rate)
  }

  lemma DivSum(x: nat, y: nat, d: nat)
    requires d > 0
    ensures x / d + y / d <= (x + y) / d <= x / d + y / d + 1
  {
    var q, r := x / d + y / d, x % d + y % d;
    assert x + y == q * d + r by {
      assert x == x / d * d + x % d;
      assert y == y / d * d + y % d;
    }
    if r < d {
      QuotientUnique(x + y, d, q, r);
    } else {
      assert x + y == (q + 1) * d + (r - d);
      QuotientUnique(x + y, d, q + 1, r - d);
    }
  }

  lemma QuoteSum(x: nat, y: nat, rate: Decimal)
    requires rate.coef >= 0
    ensures Quote(x, rate) + Quote(y, rate) <= Quote(x + y, rate) <= Quote(x, rate) + Quote(y, rate) + 1
  {
    assert (x + y) * rate.coef == x * rate.coef + y * rate.coef;
    DivSum(x * rate.coef, y * rate.coef, Pow10(rate.scale));
  }

  function SumQuoted(parts: seq<nat>, rate: Decimal): int {
    if parts == [] then 0 else Quote(parts[0], rate) + SumQuoted(parts[1..], rate)
  }

  /** Before narrowing, for any non-negative rate and any amounts: converting a sum in n parts never
      pays more than converting it at once, and less by at most n - 1 micros. */
  lemma {:induction false} SplitQuote(parts: seq<nat>, rate: Decimal)
    requires rate.coef >= 0 && parts != []
    ensures SumQuoted(parts, rate) <= Quote(SumOf(parts), rate) <= SumQuoted(parts, rate) + |parts| - 1
  {
    QuoteSum(parts[0], SumOf(parts[1..]), rate);
    if |parts| > 1 {
      SplitQuote(parts[1..], rate);
    } else {
      assert parts[1..] == [];
    }
  }

  /** When the whole fits in 64 bits every part does, and the bound holds of what Convert returns. */
  lemma SplitConversion(parts: seq<nat>, rate: Decimal)
    requires rate.coef >= 0 && parts != []
    requires Quote(SumOf(parts), rate) <= INT64_MAX
    ensures SumConverted(parts, rate) <= Convert(SumOf(parts), rate) <= SumConverted(parts, rate) + |parts| - 1
  {
    SplitQuote(parts, rate);
    ConvertIsQuote(SumOf(parts), rate);
    PartsFit(parts, rate);
  }

  lemma {:induction false} PartsFit(parts: seq<nat>, rate: Decimal)
    requires rate.coef >= 0 && Quote(SumOf(parts), rate) <= INT64_MAX
    ensures SumConverted(parts, rate) == SumQuoted(parts, rate)
  {
    if parts != [] {
      var head, rest := parts[0], SumOf(parts[1..]);
      QuoteSum(head, rest, rate);
      ConvertIsQuote(head, rate);
      ConvertIsQuote(rest, rate);
      PartsFit(parts[1..], rate);
    }
  }

  /** How often narrowing takes a quote around the 64-bit range. */
  function Turns(quote: int): int {
    (quote + INT64_MAX + 1) / TWO64
  }

  lemma NarrowedBy(quote: nat)
    ensures ToInt64(quote) == quote - TWO64 * Turns(quote)
  {
    var q, m := quote / TWO64, quote % TWO64;
    assert quote == TWO64 * q + m;
    if m <= INT64_MAX {
      QuotientUnique(quote + INT64_MAX + 1, TWO64, q, m + INT64_MAX + 1);
    } else {
      QuotientUnique(quote + INT64_MAX + 1, TWO64, q + 1, m - INT64_MAX - 1);
    }
  }

  /** A larger amount converts to no less if and only if its quote is ahead by at least the turns that
      narrowing takes off it; below twice the range that is: the larger quote fits, or neither does. */
  lemma ConvertMonotoneIff(x: nat, y: nat, rate: Decimal)
    requires rate.coef >= 0 && x <= y
    ensures var (qx, qy) := (Quote(x, rate), Quote(y, rate));
            && (Convert(x, rate) <= Convert(y, rate) <==> TWO64 * (Turns(qy) - Turns(qx)) <= qy - qx)
            && (qy < TWO64 ==>
                  (Convert(x, rate) <= Convert(y, rate) <==> qy <= INT64_MAX || qx > INT64_MAX))
  {
    ConvertIsFloor(x, rate);
    ConvertIsFloor(y, rate);
    ConvertIsQuote(x, rate);
    QuoteMonotone(x, y, rate);
    NarrowedBy(Quote(x, rate));
    NarrowedBy(Quote(y, rate));
  }

  // ---- the six cross rates ----

  predicate Pair(source: Currency, target: Currency) {
    Supported(source) && Supported(target) && source != target
  }

  /** The cross rates in units of ten to the minus sixteenth. */
  function CrossRate(source: Currency, target: Currency): nat {
    match (source, target)
    case (USD, EUR) => 9200000000000000
    case (USD, GBP) => 7900000000000000
    case (EUR, USD) => 10869565217391304
    case (EUR, GBP) => 8586956521739130
    case (GBP, USD) => 12658227848101266
    case (GBP, EUR) => 11645569620253165
    case _ => 0
  }

  /** A quotient of decimals, with the powers of ten it multiplies by made explicit. */
  lemma DivValue(x: Decimal, y: Decimal, up: nat, down: nat)
    requires y.coef > 0 && down > 0
    requires up == Pow10(16 + y.scale) && down == Pow10(x.scale)
    ensures Div(x, y) == Decimal(RoundDiv(x.coef * up, y.coef * down), 16)
  {
  }

  lemma CrossRates(source: Currency, target: Currency)
    requires Pair(source, target)
    ensures ExchangeRate(source, target) == Ok(Decimal(CrossRate(source, target), 16))
  {
    Pow10Values();
    assert Pow10(0) == 1;
    var s, t := BaseRate(source).value, BaseRate(target).value;
    var up := if source == USD then UNIT else 100 * UNIT;
    var down := if target == USD then 1 else 100;
    DivValue(t, s, up, down);
    CrossQuotient(source, target);
  }

  lemma CrossQuotient(source: Currency, target: Currency)
    requires Pair(source, target)
    ensures RoundDiv(BaseRate(target).value.coef * (if source == USD then UNIT else 100 * UNIT),
                     BaseRate(source).value.coef * (if target == USD then 1 else 100)) == CrossRate(source, target)
  {
  }

  lemma ConvertAtCrossRate(amount: nat, source: Currency, target: Currency)
    requires Pair(source, target)
    ensures ExchangeRate(source, target).Ok?
    ensures Convert(amount, ExchangeRate(source, target).value) == ToInt64(amount * CrossRate(source, target) / UNIT)
  {
    CrossRates(source, target);
    Pow10Values();
    ConvertIsFloor(amount, Decimal(CrossRate(source, target), 16));
  }

  /** Any amount up to 7 * 10^18 converts exactly. A 64-bit amount whose conversion does not fit
      comes back negative, which the positive-amount CHECK on entries rejects. */
  lemma ConvertFitsOrIsRejected(amount: nat, source: Currency, target: Currency)
    requires Pair(source, target)
    requires amount <= INT64_MAX
    ensures ExchangeRate(source, target).Ok?
    ensures var exact := amount * CrossRate(source, target) / UNIT;
            var got := Convert(amount, ExchangeRate(source, target).value);
            (amount <= 7_000_000_000_000_000_000 ==> got == exact) && (got == exact || got < 0)
  {
    ConvertAtCrossRate(amount, source, target);
    var exact := amount * CrossRate(source, target) / UNIT;
    assert CrossRate(source, target) <= 12658227848101266;
    assert amount * CrossRate(source, target) <= amount * 12658227848101266;
  }

  // ---- round trips ----

  /** There-and-back at rates r1 and r2 (per UNIT): no gain while the rounding surplus of the two
      rates stays below one micro, at most two micros lost while the shortfall leaves room. */
  lemma RoundTripBounds(amount: nat, r1: nat, r2: nat)
    ensures var back := amount * r1 / UNIT * r2 / UNIT;
            && (amount * (r1 * r2 - UNIT * UNIT) < UNIT * UNIT ==> back <= amount)
            && (amount * (UNIT * UNIT - r1 * r2) + UNIT * r2 <= 2 * UNIT * UNIT ==> amount - 2 <= back)
  {
    var there := amount * r1 / UNIT;
    var back := there * r2 / UNIT;
    assert there * UNIT <= amount * r1 < (there + 1) * UNIT;
    assert back * UNIT <= there * r2 < (back + 1) * UNIT;
    assert (there * UNIT) * r2 == UNIT * (there * r2);
    assert amount * r1 * r2 == amount * (r1 * r2);
    ScaleBoth(there * UNIT, amount * r1, r2);
    ScaleBoth(amount * r1 , (there + 1) * UNIT, r2);
    assert ((there + 1) * UNIT) * r2 == UNIT * (there * r2) + UNIT * r2;
    assert amount * (r1 * r2 - UNIT * UNIT) == amount * (r1 * r2) - UNIT * UNIT * amount;
    assert amount * (UNIT * UNIT - r1 * r2) == UNIT * UNIT * amount - amount * (r1 * r2);
  }

  lemma ScaleBoth(x: nat, y: nat, k: nat)
    requires x <= y
    ensures x * k <= y * k
  {
  }

  /** What a client holds after exchanging an amount and exchanging the proceeds back. */
  function RoundTrip(amount: nat, source: Currency, target: Currency): int
    requires ExchangeRate(source, target).Ok? && ExchangeRate(target, source).Ok?
  {
    Convert(Convert(amount, ExchangeRate(source, target).value), ExchangeRate(target, source).value)
  }

  /** A 64-bit amount whose first conversion fits in 64 bits; the others the exchange refuses. */
  predicate Tradable(amount: nat, source: Currency, target: Currency) {
    amount <= INT64_MAX && amount * CrossRate(source, target) / UNIT <= INT64_MAX
  }

  /** There and back without narrowing. */
  function ExactTrip(amount: nat, source: Currency, target: Currency): int {
    amount * CrossRate(source, target) / UNIT * CrossRate(target, source) / UNIT
  }

  lemma RoundTripClosedForm(amount: nat, source: Currency, target: Currency)
    requires Pair(source, target) && Tradable(amount, source, target)
    ensures ExchangeRate(source, target).Ok? && ExchangeRate(target, source).Ok?
    ensures RoundTrip(amount, source, target) == ToInt64(ExactTrip(amount, source, target))
    ensures 0 <= ExactTrip(amount, source, target) < TWO64
  {
    ConvertAtCrossRate(amount, source, target);
    var r1, r2 := CrossRate(source, target), CrossRate(target, source);
    FloorNonNegative(amount, r1, UNIT);
    var there := amount * r1 / UNIT;
    ConvertAtCrossRate(there, target, source);
    FloorNonNegative(there, r2, UNIT);
    assert r1 * r2 <= 2 * UNIT * UNIT;
    TripDoubles(amount, r1, r2);
  }

  lemma TripDoubles(amount: nat, r1: nat, r2: nat)
    requires r1 * r2 <= 2 * UNIT * UNIT
    ensures amount * r1 / UNIT * r2 / UNIT <= 2 * amount
  {
    var there := amount * r1 / UNIT;
    var back := there * r2 / UNIT;
    ScaleBoth(there * UNIT, amount * r1, r2);
    assert there * UNIT * r2 == UNIT * (there * r2);
    assert back * UNIT * UNIT <= amount * r1 * r2;
    assert amount * r1 * r2 == (r1 * r2) * amount;
    ScaleBoth(r1 * r2, 2 * UNIT * UNIT, amount);
  }

  /** The pairs whose two rounded rates multiply to more than one: the only ones that can gain. */
  predicate SurplusPair(source: Currency, target: Currency) {
    (source == USD && target == GBP) || (source == GBP && target == USD)
  }

  /** Four of the six pairs never return more than was put in; dollars and pounds do not below
      71 428 571 428 571 429 micros. Up to 28 * 10^15 micros no pair loses more than two micros. */
  lemma RoundTripTheorem(amount: nat, source: Currency, target: Currency)
    requires Pair(source, target) && Tradable(amount, source, target)
    ensures ExchangeRate(source, target).Ok? && ExchangeRate(target, source).Ok?
    ensures !SurplusPair(source, target) || amount < 71_428_571_428_571_429 ==>
              RoundTrip(amount, source, target) <= amount
    ensures amount <= 28_000_000_000_000_000 ==> RoundTrip(amount, source, target) >= amount - 2
  {
    RoundTripClosedForm(amount, source, target);
    RoundTripBounds(amount, CrossRate(source, target), CrossRate(target, source));
  }

  lemma GainAlgebra(amount: nat, r1: nat, r2: nat)
    ensures amount * r1 / UNIT * r2 / UNIT > amount <==>
            amount * (r1 * r2 - UNIT * UNIT) >= UNIT * UNIT + (amount * r1) % UNIT * r2
  {
    var there, lost := amount * r1 / UNIT, amount * r1 % UNIT;
    var n := there * r2;
    assert UNIT * n + lost * r2 == amount * (r1 * r2) by {
      assert (UNIT * there + lost) * r2 == UNIT * n + lost * r2;
      assert amount * r1 * r2 == amount * (r1 * r2);
    }
    assert amount * (r1 * r2 - UNIT * UNIT) == amount * (r1 * r2) - UNIT * UNIT * amount;
    assert n / UNIT > amount <==> n >= (amount + 1) * UNIT;
  }

  /** A round trip gains exactly when the rates' surplus on the amount outweighs one micro plus
      what the first truncation threw away, and the result still fits in 64 bits. */
  lemma RoundTripGainsIff(amount: nat, source: Currency, target: Currency)
    requires Pair(source, target) && Tradable(amount, source, target)
    ensures ExchangeRate(source, target).Ok? && ExchangeRate(target, source).Ok?
    ensures var r1, r2 := CrossRate(source, target), CrossRate(target, source);
            RoundTrip(amount, source, target) > amount <==>
            && ExactTrip(amount, source, target) <= INT64_MAX
            && amount * (r1 * r2 - UNIT * UNIT) >= UNIT * UNIT + (amount * r1) % UNIT * r2
  {
    RoundTripClosedForm(amount, source, target);
    GainAlgebra(amount, CrossRate(source, target), CrossRate(target, source));
  }

  /** One hundred billion pounds to dollars and back returns one micro more than was put in. */
  lemma RoundTripCanGain()
    ensures ExchangeRate(GBP, USD).Ok? && ExchangeRate(USD, GBP).Ok?
    ensures RoundTrip(100_000_000_000_000_000, GBP, USD) == 100_000_000_000_000_001
  {
    RoundTripClosedForm(100_000_000_000_000_000, GBP, USD);
  }
}
