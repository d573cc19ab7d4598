/** Pricing observed tokens under one frozen tariff: the Python estimate and aggregation
    (src/doppel_agent/billing_tariff.py, src/doppel_agent/reporting/provider_cost.py) against the
    TypeScript checks of a currency row and of its parts (frontend/src/providerCost.ts). */
module Pricing {
  import opened Basics
  import opened Decimals

  const MAX_SAFE: nat := 9_007_199_254_740_991
  const LIMIT: nat := 5000

  /** A frozen tariff's rates in canonical spelling, by billing basis. */
  datatype Rates =
    | Inclusive(input: string, output: string)
    | Partition(cached: string, uncached: string, output: string)

  /** The rates as whole hundred-millionths. */
  datatype Coefficients =
    | InclusiveCoefficients(input: nat, output: nat)
    | PartitionCoefficients(cached: nat, uncached: nat, output: nat)

  predicate Frozen(rate: string) {
    PyRate(rate) == Some(rate)
  }

  predicate FrozenRates(rates: Rates) {
    Frozen(rates.output) &&
    match rates
    case Inclusive(input, _) => Frozen(input)
    case Partition(cached, uncached, _) => Frozen(cached) && Frozen(uncached)
  }

  /** `_coefficient` on every rate. */
  function PyCoefficients(rates: Rates): Coefficients
    requires FrozenRates(rates)
  {
    match rates
    case Inclusive(input, output) => InclusiveCoefficients(PyCoefficient(input), PyCoefficient(output))
    case Partition(cached, uncached, output) =>
      PartitionCoefficients(PyCoefficient(cached), PyCoefficient(uncached), PyCoefficient(output))
  }

  /** The TypeScript `rate` on every rate; `None` when one is refused. */
  function TsCoefficients(rates: Rates): Option<Coefficients> {
    var output := TsRate(rates.output);
    match rates
    case Inclusive(input, _) =>
      var i := TsRate(input);
      if i.Some? && output.Some? then Some(InclusiveCoefficients(i.value, output.value)) else None
    case Partition(cached, uncached, _) =>
      var c, u := TsRate(cached), TsRate(uncached);
      if c.Some? && u.Some? && output.Some? then Some(PartitionCoefficients(c.value, u.value, output.value)) else None
  }

  /** Both sides read every frozen rate as the same number. */
  lemma SidesAgreeOnRates(rates: Rates)
    requires FrozenRates(rates)
    ensures TsCoefficients(rates) == Some(PyCoefficients(rates)) && Small(PyCoefficients(rates))
  {
    FrozenCoefficient(rates.output);
    match rates
    case Inclusive(input, _) => FrozenCoefficient(input);
    case Partition(cached, uncached, _) =>
      FrozenCoefficient(cached);
      FrozenCoefficient(uncached);
  }

  /** 10^17: no coefficient reaches it. */
  const RATE_BOUND: nat := 100_000_000_000_000_000

  predicate Small(c: Coefficients) {
    c.output < RATE_BOUND &&
    match c
    case InclusiveCoefficients(input, _) => input < RATE_BOUND
    case PartitionCoefficients(cached, uncached, _) => cached < RATE_BOUND && uncached < RATE_BOUND
  }

  lemma FrozenCoefficient(rate: string)
    requires Frozen(rate)
    ensures TsRate(rate) == Some(PyCoefficient(rate)) && PyCoefficient(rate) < RATE_BOUND
  {
    CanonicalRateKept(rate);
    CoefficientBound(rate);
    RatePowers();
  }

  lemma RatePowers()
    ensures Shift(Pow10(9), 8) == RATE_BOUND
  {
    var top := Pow10(9);
    assert Pow10(4) == 10_000;
    assert top == 100_000 * Pow10(4);
    assert Shift(top, 3) == 1000 * top;
    ShiftFive(top, 3);
  }

  /** One priced unit: its kind, its usage pair and, under the cache basis, its cache partition. */
  datatype Unit = Unit(request: bool, input: nat, output: nat, hit: nat, miss: nat)

  predicate Observed(u: Unit, c: Coefficients) {
    u.input + u.output <= MAX_SAFE && (c.PartitionCoefficients? ==> u.hit + u.miss == u.input)
  }

  ghost predicate AllObserved(units: seq<Unit>, c: Coefficients) {
    forall i | 0 <= i < |units| :: Observed(units[i], c)
  }

  // ----- the Python side -----

  datatype Totals = Totals(known: nat, request: nat, input: nat, output: nat, hit: nat, miss: nat)

  function Nothing(): Totals {
    Totals(0, 0, 0, 0, 0, 0)
  }

  function Plus(a: Totals, b: Totals): Totals {
    Totals(a.known + b.known, a.request + b.request, a.input + b.input, a.output + b.output, a.hit + b.hit, a.miss + b.miss)
  }

  function One(u: Unit): Totals {
    Totals(1, if u.request then 1 else 0, u.input, u.output, u.hit, u.miss)
  }

  function Sum(units: seq<Unit>): Totals {
    if units == [] then Nothing() else Plus(Sum(units[..|units| - 1]), One(units[|units| - 1]))
  }

  /** The numerator of estimate_observation, for one unit or for a sum of units. */
  function PriceOf(c: Coefficients, t: Totals): int {
    match c
    case InclusiveCoefficients(input, output) => t.input * input + t.output * output
    case PartitionCoefficients(cached, uncached, output) => t.hit * cached + t.miss * uncached + t.output * output
  }

  datatype Row = Row(amount: string, known: nat, request: nat, logical: nat, input: string, output: string,
                     cached: Option<string>, uncached: Option<string>)

  /** The exported row of accumulated counters. */
  function RowOf(c: Coefficients, scaled: nat, t: Totals): Row
    requires t.request <= t.known
  {
    Row(PyAmount(scaled), t.known, t.request, t.known - t.request, Print(t.input), Print(t.output),
        if c.PartitionCoefficients? then Some(Print(t.hit)) else None,
        if c.PartitionCoefficients? then Some(Print(t.miss)) else None)
  }

  lemma {:induction false} SumBounds(units: seq<Unit>, c: Coefficients)
    requires AllObserved(units, c)
    ensures var t := Sum(units);
            && t.known == |units| && t.request <= t.known && t.input + t.output <= |units| * MAX_SAFE
            && (c.PartitionCoefficients? ==> t.hit + t.miss == t.input)
  {
    if units != [] { SumBounds(units[..|units| - 1], c); }
  }

  lemma Distribute(a: nat, b: nat, rate: nat)
    ensures (a + b) * rate == a * rate + b * rate
  {
  }

  /** Pricing is linear: a sum of totals costs the sum of their prices. */
  lemma PriceIsLinear(c: Coefficients, a: Totals, b: Totals)
    ensures PriceOf(c, Plus(a, b)) == PriceOf(c, a) + PriceOf(c, b)
  {
    Distribute(a.output, b.output, c.output);
    match c
    case InclusiveCoefficients(input, _) => Distribute(a.input, b.input, input);
    case PartitionCoefficients(cached, uncached, _) =>
      Distribute(a.hit, b.hit, cached);
      Distribute(a.miss, b.miss, uncached);
  }

  lemma Times(a: nat, b: nat, rate: nat, bound: nat)
    requires rate <= bound && a <= b
    ensures 0 <= a * rate <= b * bound
  {
    assert a * rate <= b * rate <= b * bound;
  }

  /** Within the limits of a report no price reaches the width of the amount grammar. */
  lemma PriceFits(c: Coefficients, t: Totals, n: nat)
    requires Small(c) && n <= LIMIT && t.input + t.output <= n * MAX_SAFE
    requires c.PartitionCoefficients? ==> t.hit + t.miss == t.input
    ensures 0 <= PriceOf(c, t) < TOO_WIDE
  {
    var most := LIMIT * MAX_SAFE;
    assert t.input + t.output <= most;
    Times(t.output, most, c.output, RATE_BOUND);
    match c {
      case InclusiveCoefficients(input, _) => Times(t.input, most, input, RATE_BOUND);
      case PartitionCoefficients(cached, uncached, _) =>
        Times(t.hit, most, cached, RATE_BOUND);
        Times(t.miss, most, uncached, RATE_BOUND);
    }
    assert 3 * (most * RATE_BOUND) < TOO_WIDE;
  }

  /** What one unit adds to the scaled sum: its estimate printed and read again. */
  lemma EstimateReads(c: Coefficients, u: Unit)
    requires Small(c) && Observed(u, c)
    ensures PriceOf(c, One(u)) >= 0 && PyScaled(PyAmount(PriceOf(c, One(u)))) == Some(PriceOf(c, One(u)))
  {
    PriceFits(c, One(u), 1);
    AmountReadsPrint(PriceOf(c, One(u)));
  }

  /** _subtotal: each unit's estimate is printed, read again and added up; what comes out is the price
      of the summed tokens. */
  method Subtotal(units: seq<Unit>, c: Coefficients) returns (row: Row)
    requires Small(c) && |units| <= LIMIT && AllObserved(units, c)
    ensures Sum(units).request <= Sum(units).known && PriceOf(c, Sum(units)) >= 0
    ensures row == RowOf(c, PriceOf(c, Sum(units)), Sum(units))
  {
    var scaled, t := 0, Nothing();
    for i := 0 to |units|
      invariant t == Sum(units[..i])
      invariant 0 <= scaled == PriceOf(c, t)
    {
      var u := units[i];
      SumNext(units, i);
      EstimateReads(c, u);
      PriceIsLinear(c, t, One(u));
      scaled := scaled + PyScaled(PyAmount(PriceOf(c, One(u)))).value;
      t := Plus(t, One(u));
    }
    assert units[..|units|] == units;
    SumBounds(units, c);
    row := RowOf(c, scaled, t);
  }

  lemma SumSnoc(units: seq<Unit>, init: seq<Unit>, last: Unit)
    requires units == init + [last]
    ensures Sum(units) == Plus(Sum(init), One(last))
  {
    assert units[..|units| - 1] == init;
  }

  lemma SumNext(units: seq<Unit>, i: nat)
    requires i < |units|
    ensures Sum(units[..i + 1]) == Plus(Sum(units[..i]), One(units[i]))
  {
    SumSnoc(units[..i + 1], units[..i], units[i]);
  }

  // ----- the TypeScript side -----

  /** tokens: (?:0|[1-9][0-9]{0,19}) */
  function TsTokens(s: string): Option<nat> {
    if Lean(s) && |s| <= 20 then Some(Value(s)) else None
  }

  /** The four token texts of a row, read. */
  function TokensOf(row: Row): Option<Totals> {
    var input, output := TsTokens(row.input), TsTokens(row.output);
    var hit := if row.cached.Some? then TsTokens(row.cached.value) else Some(0);
    var miss := if row.uncached.Some? then TsTokens(row.uncached.value) else Some(0);
    if input.Some? && output.Some? && hit.Some? && miss.Some? then
      Some(Totals(row.known, row.request, input.value, output.value, hit.value, miss.value))
    else None
  }

  /** currency, apart from comparing the currency name and the tariff hash. */
  predicate Accepts(row: Row, c: Coefficients) {
    && 1 <= row.known <= LIMIT && row.request <= LIMIT && row.logical <= LIMIT && row.request + row.logical == row.known
    && TokensOf(row).Some?
    && var t := TokensOf(row).value;
    && t.input + t.output <= row.known * MAX_SAFE
    && (if c.PartitionCoefficients? then row.cached.Some? && row.uncached.Some? && t.hit + t.miss == t.input
        else row.cached.None? && row.uncached.None?)
    && TsAmount(row.amount).Some? && TsAmount(row.amount).value == PriceOf(c, t)
  }

  lemma TokensReadPrint(n: nat)
    ensures TsTokens(Print(n)) == if n < Pow10(20) then Some(n) else None
  {
    PrintIsLean(n);
    PrintLength(n, 20);
    ValueOfPrint(n);
  }

  lemma TokenPower()
    ensures LIMIT * MAX_SAFE < Pow10(20)
  {
    assert Pow10(5) == 100_000;
    assert Pow10(10) == 100_000 * Pow10(5);
    assert Pow10(15) == 100_000 * Pow10(10);
    assert Pow10(20) == 100_000 * Pow10(15);
  }

  /** The token columns a row shows: the cache columns under the cache basis only. */
  function Columns(c: Coefficients, t: Totals): Totals {
    if c.PartitionCoefficients? then t else t.(hit := 0, miss := 0)
  }

  lemma RowReads(row: Row, c: Coefficients, scaled: nat, t: Totals, n: nat)
    requires n <= LIMIT && t.request <= t.known && t.input + t.output <= n * MAX_SAFE && row == RowOf(c, scaled, t)
    requires c.PartitionCoefficients? ==> t.hit + t.miss == t.input
    ensures TokensOf(row) == Some(Columns(c, t))
  {
    TokenPower();
    assert t.input + t.output <= LIMIT * MAX_SAFE;
    TokensReadPrint(t.input);
    TokensReadPrint(t.output);
    TokensReadPrint(t.hit);
    TokensReadPrint(t.miss);
  }

  lemma RowAccepted(row: Row, c: Coefficients, t: Totals, price: nat)
    requires 1 <= t.known <= LIMIT && t.request <= t.known && t.input + t.output <= t.known * MAX_SAFE
    requires row == RowOf(c, price, t) && TokensOf(row) == Some(Columns(c, t))
    requires c.PartitionCoefficients? ==> t.hit + t.miss == t.input
    requires TsAmount(row.amount) == Some(price) && price == PriceOf(c, Columns(c, t))
    ensures Accepts(row, c)
  {
  }

  lemma ColumnsPrice(c: Coefficients, t: Totals)
    ensures PriceOf(c, Columns(c, t)) == PriceOf(c, t)
  {
  }

  /** Every row aggregated from up to 5000 observed units is accepted: the token and amount grammars
      are wide enough, and the amount is the price of the summed tokens. */
  lemma AggregateIsAccepted(units: seq<Unit>, c: Coefficients, t: Totals, price: int)
    requires Small(c) && 1 <= |units| <= LIMIT && AllObserved(units, c) && t == Sum(units) && price == PriceOf(c, t)
    ensures t.request <= t.known && price >= 0
    ensures Accepts(RowOf(c, price, t), c) && TokensOf(RowOf(c, price, t)) == Some(Columns(c, t))
  {
    SumBounds(units, c);
    PriceFits(c, t, |units|);
    var row := RowOf(c, price, t);
    RowReads(row, c, price, t, |units|);
    AmountReadsPrint(price);
    ColumnsPrice(c, t);
    RowAccepted(row, c, t, price);
  }

  // ----- the parts of a row -----

  function TokenSum(rows: seq<Row>): Option<Totals> {
    if rows == [] then Some(Nothing())
    else
      var before, last := TokenSum(rows[..|rows| - 1]), TokensOf(rows[|rows| - 1]);
      if before.Some? && last.Some? then Some(Plus(before.value, last.value)) else None
  }

  function AmountSum(rows: seq<Row>): Option<nat> {
    if rows == [] then Some(0)
    else
      var before, last := AmountSum(rows[..|rows| - 1]), TsAmount(rows[|rows| - 1].amount);
      if before.Some? && last.Some? then Some(before.value + last.value) else None
  }

  /** The counting and token checks of conserved; a column that is null in the target is null in every part. */
  predicate ColumnsConserved(target: Row, parts: seq<Row>) {
    && TokenSum(parts).Some? && TokenSum(parts) == TokensOf(target)
    && (target.cached.None? ==> forall i | 0 <= i < |parts| :: parts[i].cached.None?)
    && (target.uncached.None? ==> forall i | 0 <= i < |parts| :: parts[i].uncached.None?)
  }

  lemma {:induction false} PartsPrice(parts: seq<Row>, c: Coefficients)
    requires forall i | 0 <= i < |parts| :: Accepts(parts[i], c)
    ensures TokenSum(parts).Some? && AmountSum(parts).Some? && AmountSum(parts).value == PriceOf(c, TokenSum(parts).value)
  {
    if parts != [] {
      var init, last := parts[..|parts| - 1], parts[|parts| - 1];
      PartsPrice(init, c);
      PriceIsLinear(c, TokenSum(init).value, TokensOf(last).value);
    }
  }

  /** Once the target and every part are accepted under one tariff, conserved token columns imply the
      amount equation: no accepted rows can conserve tokens and not money. */
  lemma AmountFollowsFromColumns(target: Row, parts: seq<Row>, c: Coefficients)
    requires Accepts(target, c) && ColumnsConserved(target, parts) && forall i | 0 <= i < |parts| :: Accepts(parts[i], c)
    ensures AmountSum(parts) == TsAmount(target.amount)
  {
    PartsPrice(parts, c);
  }

  function Flatten(groups: seq<seq<Unit>>): seq<Unit> {
    if groups == [] then [] else Flatten(groups[..|groups| - 1]) + groups[|groups| - 1]
  }

  lemma {:induction false} SumConcat(a: seq<Unit>, b: seq<Unit>, all: seq<Unit>)
    requires all == a + b
    ensures Sum(all) == Plus(Sum(a), Sum(b))
    decreases |b|
  {
    if b == [] {
      assert all == a;
      PlusAssociates(Sum(a), Nothing(), Nothing());
    } else {
      var init, last := b[..|b| - 1], b[|b| - 1];
      SumConcat(a, init, a + init);
      assert all == (a + init) + [last] && b == init + [last];
      SumSnoc(all, a + init, last);
      SumSnoc(b, init, last);
      PlusAssociates(Sum(a), Sum(init), One(last));
    }
  }

  lemma PlusAssociates(a: Totals, b: Totals, c: Totals)
    ensures Plus(Plus(a, b), c) == Plus(a, Plus(b, c)) && Plus(a, Nothing()) == a
  {
  }

  lemma PlusColumns(c: Coefficients, a: Totals, b: Totals)
    ensures Columns(c, Plus(a, b)) == Plus(Columns(c, a), Columns(c, b))
  {
  }

  /** The row of a group of units. */
  function RowFor(c: Coefficients, units: seq<Unit>): Row {
    var t := Sum(units);
    if t.request <= t.known && PriceOf(c, t) >= 0 then RowOf(c, PriceOf(c, t), t) else RowOf(c, 0, Nothing())
  }

  function RowsFor(c: Coefficients, groups: seq<seq<Unit>>): seq<Row> {
    if groups == [] then [] else RowsFor(c, groups[..|groups| - 1]) + [RowFor(c, groups[|groups| - 1])]
  }

  ghost predicate Groups(groups: seq<seq<Unit>>, c: Coefficients) {
    forall i | 0 <= i < |groups| :: groups[i] != [] && AllObserved(groups[i], c)
  }

  lemma GroupReads(c: Coefficients, units: seq<Unit>, row: Row)
    requires Small(c) && 1 <= |units| <= LIMIT && AllObserved(units, c) && row == RowFor(c, units)
    ensures Accepts(row, c) && TokensOf(row) == Some(Columns(c, Sum(units)))
  {
    AggregateIsAccepted(units, c, Sum(units), PriceOf(c, Sum(units)));
  }

  lemma {:induction false} GroupsRead(c: Coefficients, groups: seq<seq<Unit>>, rows: seq<Row>)
    requires Small(c) && Groups(groups, c) && |Flatten(groups)| <= LIMIT && rows == RowsFor(c, groups)
    ensures |rows| == |groups| && forall i | 0 <= i < |groups| :: Accepts(rows[i], c)
    ensures AllObserved(Flatten(groups), c)
  {
    if groups != [] {
      var init, last := groups[..|groups| - 1], groups[|groups| - 1];
      GroupsRead(c, init, rows[..|rows| - 1]);
      GroupReads(c, last, RowFor(c, last));
    }
  }

  lemma {:induction false} GroupTokens(c: Coefficients, groups: seq<seq<Unit>>)
    requires Small(c) && Groups(groups, c) && |Flatten(groups)| <= LIMIT
    ensures TokenSum(RowsFor(c, groups)) == Some(Columns(c, Sum(Flatten(groups))))
  {
    if groups != [] {
      GroupTokens(c, groups[..|groups| - 1]);
      GroupTokensNext(c, groups[|groups| - 1], Flatten(groups[..|groups| - 1]), RowsFor(c, groups[..|groups| - 1]));
    }
  }

  lemma GroupTokensNext(c: Coefficients, group: seq<Unit>, before: seq<Unit>, rows: seq<Row>)
    requires Small(c) && 1 <= |group| <= LIMIT && AllObserved(group, c) && TokenSum(rows) == Some(Columns(c, Sum(before)))
    ensures TokenSum(rows + [RowFor(c, group)]) == Some(Columns(c, Sum(before + group)))
  {
    var row := RowFor(c, group);
    GroupReads(c, group, row);
    SumConcat(before, group, before + group);
    PlusColumns(c, Sum(before), Sum(group));
    TokenSnoc(rows + [row], rows, row);
  }

  lemma TokenSnoc(rows: seq<Row>, init: seq<Row>, last: Row)
    requires rows == init + [last] && TokenSum(init).Some? && TokensOf(last).Some?
    ensures TokenSum(rows) == Some(Plus(TokenSum(init).value, TokensOf(last).value))
  {
    assert rows[..|rows| - 1] == init;
  }

  /** Honest aggregation passes: however up to 5000 units are grouped, the row of all of them and the
      rows of the groups are accepted, conserve every column, and so conserve the amount. */
  lemma GroupsAreConserved(c: Coefficients, groups: seq<seq<Unit>>)
    requires Small(c) && Groups(groups, c) && 1 <= |Flatten(groups)| <= LIMIT
    ensures var target, parts := RowFor(c, Flatten(groups)), RowsFor(c, groups);
            && Accepts(target, c) && (forall i | 0 <= i < |parts| :: Accepts(parts[i], c))
            && ColumnsConserved(target, parts) && AmountSum(parts) == TsAmount(target.amount)
  {
    var target, parts := RowFor(c, Flatten(groups)), RowsFor(c, groups);
    GroupsRead(c, groups, parts);
    GroupTokens(c, groups);
    GroupReads(c, Flatten(groups), target);
    SameBasis(target, parts, c);
    AmountFollowsFromColumns(target, parts, c);
  }

  lemma SameBasis(target: Row, parts: seq<Row>, c: Coefficients)
    requires Accepts(target, c) && forall i | 0 <= i < |parts| :: Accepts(parts[i], c)
    ensures forall i | 0 <= i < |parts| :: (target.cached.None? ==> parts[i].cached.None?) && (target.uncached.None? ==> parts[i].uncached.None?)
  {
  }

  /** From the frozen rates to both sides: rows that Python aggregates under the coefficients it reads
      are accepted and conserved under the coefficients that TypeScript reads. */
  lemma FrozenRatesAreConserved(rates: Rates, groups: seq<seq<Unit>>)
    requires FrozenRates(rates) && Groups(groups, PyCoefficients(rates)) && 1 <= |Flatten(groups)| <= LIMIT
    ensures var py, ts := PyCoefficients(rates), TsCoefficients(rates);
            var target, parts := RowFor(py, Flatten(groups)), RowsFor(py, groups);
            && ts.Some? && Accepts(target, ts.value) && (forall i | 0 <= i < |parts| :: Accepts(parts[i], ts.value))
            && ColumnsConserved(target, parts) && AmountSum(parts) == TsAmount(target.amount)
  {
    SidesAgreeOnRates(rates);
    GroupsAreConserved(PyCoefficients(rates), groups);
  }

  // ----- what is counted, priced and checked, in plain terms -----

  /** A column of the units, added up. */
  function Column(units: seq<Unit>, value: Unit -> int): int {
    if units == [] then 0 else Column(units[..|units| - 1], value) + value(units[|units| - 1])
  }

  /** The counters of an aggregate are columns of its units. */
  lemma {:induction false} TotalsAreColumns(units: seq<Unit>)
    ensures Sum(units).known == |units|
    ensures Sum(units).request == Column(units, (u: Unit) => if u.request then 1 else 0)
    ensures Sum(units).input == Column(units, (u: Unit) => u.input) && Sum(units).output == Column(units, (u: Unit) => u.output)
    ensures Sum(units).hit == Column(units, (u: Unit) => u.hit) && Sum(units).miss == Column(units, (u: Unit) => u.miss)
  {
    if units != [] { TotalsAreColumns(units[..|units| - 1]); }
  }

  /** The price of an aggregate is the sum of what its units cost: input and output at their rates, and
      under the cache basis the input split into its cached and uncached part. */
  lemma {:induction false} PriceIsOfUnits(units: seq<Unit>, c: Coefficients)
    ensures c.InclusiveCoefficients? ==>
              PriceOf(c, Sum(units)) == Column(units, (u: Unit) => u.input * c.input + u.output * c.output)
    ensures c.PartitionCoefficients? ==>
              PriceOf(c, Sum(units)) == Column(units, (u: Unit) => u.hit * c.cached + u.miss * c.uncached + u.output * c.output)
  {
    if units != [] {
      var init, last := units[..|units| - 1], units[|units| - 1];
      PriceIsOfUnits(init, c);
      assert units == init + [last];
      SumSnoc(units, init, last);
      PriceIsLinear(c, Sum(init), One(last));
    }
  }

  /** The client's check of one row: 1 to 5000 known units of the two kinds, readable token columns whose
      sum such units can have, the cache columns exactly under the cache basis and adding up to the
      input, and an amount that is the price of the columns. */
  lemma AcceptsMeans(row: Row, c: Coefficients)
    ensures Accepts(row, c) <==>
            && 1 <= row.known <= 5000 && row.known == row.request + row.logical
            && TsTokens(row.input).Some? && TsTokens(row.output).Some? && TsAmount(row.amount).Some?
            && var input, output, amount := TsTokens(row.input).value, TsTokens(row.output).value, TsAmount(row.amount).value;
            && input + output <= row.known * 9_007_199_254_740_991
            && match c
               case InclusiveCoefficients(rate, out) =>
                 row.cached == None && row.uncached == None && amount == input * rate + output * out
               case PartitionCoefficients(cached, uncached, out) =>
                 && row.cached.Some? && row.uncached.Some? && TsTokens(row.cached.value).Some? && TsTokens(row.uncached.value).Some?
                 && var hit, miss := TsTokens(row.cached.value).value, TsTokens(row.uncached.value).value;
                 hit + miss == input && amount == hit * cached + miss * uncached + output * out
  {
  }

  /** A column of rows, added up; a missing column counts nothing. */
  function RowColumn(rows: seq<Row>, value: Row -> int): int {
    if rows == [] then 0 else RowColumn(rows[..|rows| - 1], value) + value(rows[|rows| - 1])
  }

  function Tokens(text: string): int {
    if TsTokens(text).Some? then TsTokens(text).value else 0
  }

  lemma {:induction false} TokenSumIsColumns(parts: seq<Row>)
    requires TokenSum(parts).Some?
    ensures var t := TokenSum(parts).value;
            && t.known == RowColumn(parts, (r: Row) => r.known) && t.request == RowColumn(parts, (r: Row) => r.request)
            && t.input == RowColumn(parts, (r: Row) => Tokens(r.input)) && t.output == RowColumn(parts, (r: Row) => Tokens(r.output))
            && t.hit == RowColumn(parts, (r: Row) => if r.cached.None? then 0 else Tokens(r.cached.value))
            && t.miss == RowColumn(parts, (r: Row) => if r.uncached.None? then 0 else Tokens(r.uncached.value))
  {
    if parts != [] { TokenSumIsColumns(parts[..|parts| - 1]); }
  }

  /** Conserved columns: every count and every token column of the target is the sum of its parts', and
      a column that is missing in the target is missing in every part. */
  lemma ConservedAddsUp(target: Row, parts: seq<Row>)
    requires ColumnsConserved(target, parts)
    ensures target.known == RowColumn(parts, (r: Row) => r.known) && target.request == RowColumn(parts, (r: Row) => r.request)
    ensures Tokens(target.input) == RowColumn(parts, (r: Row) => Tokens(r.input))
    ensures Tokens(target.output) == RowColumn(parts, (r: Row) => Tokens(r.output))
    ensures forall i | 0 <= i < |parts| :: (target.cached == None ==> parts[i].cached == None) && (target.uncached == None ==> parts[i].uncached == None)
    ensures target.cached.Some? ==>
              Tokens(target.cached.value) == RowColumn(parts, (r: Row) => if r.cached.None? then 0 else Tokens(r.cached.value))
    ensures target.uncached.Some? ==>
              Tokens(target.uncached.value) == RowColumn(parts, (r: Row) => if r.uncached.None? then 0 else Tokens(r.uncached.value))
  {
    TokenSumIsColumns(parts);
  }
}
