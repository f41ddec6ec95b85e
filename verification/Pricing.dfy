/**
 Pricing token usage in nano-USD (src/pricing/costEstimation.ts), and repricing stored summaries
 (src/storage/runLedger.ts).  Rates are exact; `Math.round` rounds halves up.
 */
module Pricing {
  import opened Prelude
  import opened TokenAccounting

  const NANO_USD_PER_USD := 1_000_000_000.0

  /** USD per million tokens; a rate may be unpublished. */
  datatype Rates = Rates(
    input: Option<real>, cachedInput: Option<real>, cacheCreation: Option<real>, output: Option<real>)

  function Round(x: real): int {
    (x + 0.5).Floor
  }

  /** Rounding moves a value by at most a half. */
  lemma RoundIsNear(x: real)
    ensures Round(x) as real - 0.5 <= x < Round(x) as real + 0.5
  {
    var f := (x + 0.5).Floor;
    assert f as real <= x + 0.5 < f as real + 1.0;
  }

  lemma RoundOfWhole(k: int)
    ensures Round(k as real) == k
  {
    RoundIsNear(k as real);
  }

  /** The unrounded price of one component. */
  function ExactComponent(tokens: int, rate: Option<real>): real {
    if tokens == 0 || rate.None? then 0.0 else tokens as real * rate.value * NANO_USD_PER_USD / 1_000_000.0
  }

  /** `priceComponent`. */
  function PriceComponent(tokens: int, rate: Option<real>): int {
    if tokens == 0 || rate.None? then 0 else Round(tokens as real * rate.value * NANO_USD_PER_USD / 1_000_000.0)
  }

  function BilledOutput(a: Amounts): int {
    if a.output.Some? then MaxInt(0, a.output.value)
    else if a.total.Some? && a.input.Some? then MaxInt(0, a.total.value - a.input.value)
    else 0
  }

  function UncachedInput(a: Amounts): int {
    MaxInt(0, OrZero(a.input) - OrZero(a.cacheRead) - OrZero(a.cacheCreation))
  }

  /** `estimateTokensForModel`, once a pricing row is matched. */
  function Price(a: Amounts, r: Rates): int {
    PriceComponent(UncachedInput(a), r.input) + PriceComponent(OrZero(a.cacheRead), r.cachedInput)
    + PriceComponent(OrZero(a.cacheCreation), r.cacheCreation) + PriceComponent(BilledOutput(a), r.output)
  }

  function Exact(a: Amounts, r: Rates): real {
    ExactComponent(UncachedInput(a), r.input) + ExactComponent(OrZero(a.cacheRead), r.cachedInput)
    + ExactComponent(OrZero(a.cacheCreation), r.cacheCreation) + ExactComponent(BilledOutput(a), r.output)
  }

  predicate Near(x: real, y: real, bound: real) {
    -bound <= x - y <= bound
  }

  lemma ComponentWithinHalf(tokens: int, rate: Option<real>)
    ensures Near(PriceComponent(tokens, rate) as real, ExactComponent(tokens, rate), 0.5)
  {
    RoundIsNear(ExactComponent(tokens, rate));
  }

  /** A price is within two nano-USD of the unrounded value. */
  lemma PriceWithinTwo(a: Amounts, r: Rates)
    ensures Near(Price(a, r) as real, Exact(a, r), 2.0)
  {
    ComponentWithinHalf(UncachedInput(a), r.input);
    ComponentWithinHalf(OrZero(a.cacheRead), r.cachedInput);
    ComponentWithinHalf(OrZero(a.cacheCreation), r.cacheCreation);
    ComponentWithinHalf(BilledOutput(a), r.output);
  }

  // ---- a model's summed tokens against its units --------------------------------------------------------

  /** Output is reported or the totals are derived from it, and cached tokens are part of the input. */
  predicate Plain(a: Amounts) {
    && (if a.output.Some? then 0 <= a.output.value else IsFinal(a))
    && 0 <= OrZero(a.cacheRead) && 0 <= OrZero(a.cacheCreation)
    && OrZero(a.cacheRead) + OrZero(a.cacheCreation) <= OrZero(a.input)
  }

  function PricesOf<K>(units: seq<Row<K>>, r: Rates): int {
    if units == [] then 0 else PricesOf(units[..|units| - 1], r) + Price(units[|units| - 1].amounts, r)
  }

  function ExactOf<K>(units: seq<Row<K>>, r: Rates): real {
    if units == [] then 0.0 else ExactOf(units[..|units| - 1], r) + Exact(units[|units| - 1].amounts, r)
  }

  lemma ComponentAdds(m: int, n: int, rate: Option<real>)
    ensures ExactComponent(m + n, rate) == ExactComponent(m, rate) + ExactComponent(n, rate)
  {
    if rate.Some? {
      var c := rate.value * NANO_USD_PER_USD / 1_000_000.0;
      assert ExactComponent(m, rate) == m as real * c && ExactComponent(n, rate) == n as real * c;
      assert (m + n) as real * c == m as real * c + n as real * c;
    }
  }

  /** Sums of plain units have the sums of their parts. */
  lemma PartsAdd(a: Amounts, b: Amounts)
    requires Plain(a) && Plain(b)
    ensures Plain(Plus(a, b))
    ensures UncachedInput(Plus(a, b)) == UncachedInput(a) + UncachedInput(b)
    ensures OrZero(Plus(a, b).cacheRead) == OrZero(a.cacheRead) + OrZero(b.cacheRead)
    ensures OrZero(Plus(a, b).cacheCreation) == OrZero(a.cacheCreation) + OrZero(b.cacheCreation)
    ensures BilledOutput(Plus(a, b)) == BilledOutput(a) + BilledOutput(b)
  {
  }

  lemma ExactAdds(a: Amounts, b: Amounts, r: Rates)
    requires Plain(a) && Plain(b)
    ensures Exact(Plus(a, b), r) == Exact(a, r) + Exact(b, r)
  {
    PartsAdd(a, b);
    ComponentAdds(UncachedInput(a), UncachedInput(b), r.input);
    ComponentAdds(OrZero(a.cacheRead), OrZero(b.cacheRead), r.cachedInput);
    ComponentAdds(OrZero(a.cacheCreation), OrZero(b.cacheCreation), r.cacheCreation);
    ComponentAdds(BilledOutput(a), BilledOutput(b), r.output);
  }

  ghost predicate AllPlain<K>(units: seq<Row<K>>) {
    forall i :: 0 <= i < |units| ==> Plain(units[i].amounts)
  }

  lemma {:induction false} UnitsAddExactly<K>(units: seq<Row<K>>, r: Rates)
    requires AllPlain(units)
    ensures Exact(Sum(units), r) == ExactOf(units, r)
    ensures Plain(Sum(units))
  {
    if units != [] {
      var n := |units| - 1;
      UnitsAddExactly(units[..n], r);
      PartsAdd(Sum(units[..n]), units[n].amounts);
      ExactAdds(Sum(units[..n]), units[n].amounts, r);
    }
  }

  lemma {:induction false} PricesNearExact<K>(units: seq<Row<K>>, r: Rates)
    ensures Near(PricesOf(units, r) as real, ExactOf(units, r), 2.0 * |units| as real)
  {
    if units != [] {
      var n := |units| - 1;
      PricesNearExact(units[..n], r);
      PriceWithinTwo(units[n].amounts, r);
    }
  }

  /** Pricing a model's summed tokens differs from summing its n unit prices by at most 2(n + 1) nano-USD. */
  lemma BatchNearUnits<K>(units: seq<Row<K>>, r: Rates)
    requires AllPlain(units)
    ensures Near(Price(Sum(units), r) as real, PricesOf(units, r) as real, 2.0 * (|units| + 1) as real)
  {
    UnitsAddExactly(units, r);
    PricesNearExact(units, r);
    PriceWithinTwo(Sum(units), r);
    assert (|units| + 1) as real == |units| as real + 1.0;
  }

  /** The rate is a whole number of nano-USD for each token. */
  predicate Whole(rate: Option<real>) {
    rate.Some? ==> (rate.value * 1_000.0).Floor as real == rate.value * 1_000.0
  }

  predicate WholeRates(r: Rates) {
    Whole(r.input) && Whole(r.cachedInput) && Whole(r.cacheCreation) && Whole(r.output)
  }

  lemma WholeComponent(tokens: int, rate: Option<real>)
    requires Whole(rate)
    ensures PriceComponent(tokens, rate) as real == ExactComponent(tokens, rate)
  {
    if tokens != 0 && rate.Some? {
      var k := (rate.value * 1_000.0).Floor;
      ScaledProduct(tokens as real, rate.value);
      assert ExactComponent(tokens, rate) == tokens as real * k as real;
      assert tokens as real * k as real == (tokens * k) as real;
      RoundOfWhole(tokens * k);
    }
  }

  lemma ScaledProduct(t: real, rate: real)
    ensures t * rate * NANO_USD_PER_USD / 1_000_000.0 == t * (rate * 1_000.0)
  {
  }

  lemma WholePrice(a: Amounts, r: Rates)
    requires WholeRates(r)
    ensures Price(a, r) as real == Exact(a, r)
  {
    WholeComponent(UncachedInput(a), r.input);
    WholeComponent(OrZero(a.cacheRead), r.cachedInput);
    WholeComponent(OrZero(a.cacheCreation), r.cacheCreation);
    WholeComponent(BilledOutput(a), r.output);
  }

  lemma {:induction false} WholePrices<K>(units: seq<Row<K>>, r: Rates)
    requires WholeRates(r)
    ensures PricesOf(units, r) as real == ExactOf(units, r)
  {
    if units != [] {
      WholePrices(units[..|units| - 1], r);
      WholePrice(units[|units| - 1].amounts, r);
    }
  }

  /** With whole nano-USD rates per token the two agree exactly. */
  lemma BatchEqualsUnitsAtWholeRates<K>(units: seq<Row<K>>, r: Rates)
    requires AllPlain(units) && WholeRates(r)
    ensures Price(Sum(units), r) == PricesOf(units, r)
  {
    UnitsAddExactly(units, r);
    WholePrices(units, r);
    WholePrice(Sum(units), r);
  }

  /** Two units of one key. */
  function Pair(a: Amounts, b: Amounts): seq<Row<Id>> {
    [Row(0, a), Row(0, b)]
  }

  lemma PairAdds(a: Amounts, b: Amounts, r: Rates)
    ensures Sum(Pair(a, b)) == Plus(a, b) && PricesOf(Pair(a, b), r) == Price(a, r) + Price(b, r)
  {
    var one: seq<Row<Id>> := [Row(0, a)];
    assert Pair(a, b)[..1] == one && one[..0] == [];
    PlusLaws(a, a, a);
    assert Sum(one) == a && PricesOf(one, r) == Price(a, r);
  }

  /** Without the cached-within-input condition no bound of this kind holds. */
  lemma CachedBeyondInputBreaks(n: nat)
    ensures
      var r := Rates(Some(1.0), Some(1.0), Some(1.0), Some(1.0));
      var units := Pair(NOTHING.(output := Some(0), cacheRead := Some(n)), NOTHING.(output := Some(0), input := Some(n)));
      PricesOf(units, r) - Price(Sum(units), r) == 1_000 * n
  {
    var r := Rates(Some(1.0), Some(1.0), Some(1.0), Some(1.0));
    var cached, plain := NOTHING.(output := Some(0), cacheRead := Some(n)), NOTHING.(output := Some(0), input := Some(n));
    PairAdds(cached, plain, r);
    RoundOfWhole(1_000 * n);
    assert ExactComponent(n, r.input) == (1_000 * n) as real;
    assert Price(cached, r) == 1_000 * n && Price(plain, r) == 1_000 * n;
  }

  /** Nor does one when a unit reports totals from which its unreported output would have to be guessed. */
  lemma OutputGuessedBreaks(n: nat)
    ensures
      var r := Rates(Some(1.0), Some(1.0), Some(1.0), Some(1.0));
      var units := Pair(NOTHING.(input := Some(0), total := Some(n)), NOTHING.(output := Some(0)));
      PricesOf(units, r) - Price(Sum(units), r) == 1_000 * n
  {
    var r := Rates(Some(1.0), Some(1.0), Some(1.0), Some(1.0));
    var guessed, plain := NOTHING.(input := Some(0), total := Some(n)), NOTHING.(output := Some(0));
    PairAdds(guessed, plain, r);
    RoundOfWhole(1_000 * n);
    assert ExactComponent(n, r.output) == (1_000 * n) as real;
    assert Price(guessed, r) == 1_000 * n;
  }

  /** Nor when two rows price the units and one of them the sum. */
  lemma TwoRowsBreak(n: nat)
    ensures
      var low, high := Rates(Some(0.0), None, None, None), Rates(Some(1.0), None, None, None);
      var unit := NOTHING.(output := Some(0), input := Some(n));
      Price(Plus(unit, unit), high) - (Price(unit, low) + Price(unit, high)) == 1_000 * n
  {
    RoundOfWhole(1_000 * n);
    RoundOfWhole(2_000 * n);
    RoundOfWhole(0);
    assert ExactComponent(n, Some(1.0)) == (1_000 * n) as real;
    assert ExactComponent(2 * n, Some(1.0)) == (2_000 * n) as real;
    assert ExactComponent(n, Some(0.0)) == 0 as real;
  }
}
