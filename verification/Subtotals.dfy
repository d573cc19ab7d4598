/** Token subtotals with an overflow flag: how the server sums receipts
    (src/doppel_agent/reporting/provider_usage.py, _subtotal) and how the client checks totals, parts
    and sampled rows (frontend/src/providerReport.ts, subtotal, compareParts, compareObserved). */
module Subtotals {
  import opened Basics

  const MAX: nat := 9_007_199_254_740_991

  datatype Pair = Pair(input: nat, output: nat)

  datatype Kind = Request | LogicalCall | Callback

  /** A receipt: its kind, its usage when known, and the scope it was recorded under. */
  datatype Receipt = Receipt(kind: Kind, usage: Option<Pair>, scope: nat)

  datatype Subtotal = Subtotal(known: nat, unknown: nat, request: nat, logical: nat,
                               input: Option<nat>, output: Option<nat>, total: Option<nat>, overflow: bool)

  // ----- honest summation -----

  /** Exact counters, before the flag hides the unsafe ones. */
  datatype Tally = Tally(known: nat, unknown: nat, request: nat, logical: nat, input: nat, output: nat)

  function Zero(): Tally {
    Tally(0, 0, 0, 0, 0, 0)
  }

  function Plus(a: Tally, b: Tally): Tally {
    Tally(a.known + b.known, a.unknown + b.unknown, a.request + b.request, a.logical + b.logical,
          a.input + b.input, a.output + b.output)
  }

  function One(r: Receipt): Tally {
    var pair := if r.usage.Some? then r.usage.value else Pair(0, 0);
    Tally(if r.usage.Some? then 1 else 0, if r.usage.Some? then 0 else 1, if r.kind.Request? then 1 else 0,
          if r.kind.LogicalCall? then 1 else 0, pair.input, pair.output)
  }

  function Count(rows: seq<Receipt>): Tally {
    if rows == [] then Zero() else Plus(One(rows[0]), Count(rows[1..]))
  }

  /** Usage pairs are validated before they are recorded: each total is a safe integer. */
  ghost predicate SafePairs(rows: seq<Receipt>) {
    forall i | 0 <= i < |rows| :: rows[i].usage.Some? ==> rows[i].usage.value.input + rows[i].usage.value.output <= MAX
  }

  /** What is reported of exact counters. */
  function Reported(t: Tally): Subtotal {
    var overflow := t.input + t.output > MAX;
    var shown := t.known > 0 && !overflow;
    Subtotal(t.known, t.unknown, t.request, t.logical, if shown then Some(t.input) else None,
             if shown then Some(t.output) else None, if shown then Some(t.input + t.output) else None, overflow)
  }

  lemma CountCons(rows: seq<Receipt>, first: Receipt, rest: seq<Receipt>)
    requires rows == [first] + rest
    ensures Count(rows) == Plus(One(first), Count(rest))
  {
    assert rows[1..] == rest;
  }

  lemma PlusAssociates(a: Tally, b: Tally, c: Tally)
    ensures Plus(Plus(a, b), c) == Plus(a, Plus(b, c))
  {
  }

  lemma CountNext(t: Tally, rows: seq<Receipt>, i: nat)
    requires i < |rows|
    ensures Plus(t, Count(rows[i..])) == Plus(Plus(t, One(rows[i])), Count(rows[i + 1..]))
  {
    CountCons(rows[i..], rows[i], rows[i + 1..]);
    PlusAssociates(t, One(rows[i]), Count(rows[i + 1..]));
  }

  lemma PlusZero(a: Tally)
    ensures Plus(a, Zero()) == a && Plus(Zero(), a) == a
  {
  }

  lemma CountEmpty(rows: seq<Receipt>)
    requires rows == []
    ensures Count(rows) == Zero()
  {
  }

  /** The server's sums over the units of one scope. */
  method SumReceipts(rows: seq<Receipt>) returns (subtotal: Subtotal)
    ensures subtotal == Reported(Count(rows))
  {
    var t := Zero();
    assert rows[0..] == rows;
    PlusZero(Count(rows));
    for i := 0 to |rows|
      invariant Plus(t, Count(rows[i..])) == Count(rows)
    {
      CountNext(t, rows, i);
      t := AddReceipt(t, rows[i]);
    }
    CountEmpty(rows[|rows|..]);
    PlusZero(t);
    subtotal := Reported(t);
  }

  method AddReceipt(t: Tally, r: Receipt) returns (sum: Tally)
    ensures sum == Plus(t, One(r))
  {
    sum := t;
    if r.usage.Some? {
      var pair := r.usage.value;
      sum := sum.(known := t.known + 1, input := t.input + pair.input, output := t.output + pair.output);
    } else {
      sum := sum.(unknown := t.unknown + 1);
    }
    match r.kind {
      case Request => sum := sum.(request := t.request + 1);
      case LogicalCall => sum := sum.(logical := t.logical + 1);
      case Callback =>
    }
  }

  // ----- the client's checks -----

  predicate Safe(n: Option<nat>) {
    n.Some? && n.value <= MAX
  }

  /** subtotal */
  predicate Acceptable(row: Subtotal, max: nat) {
    && row.known <= max && row.unknown <= max && row.request <= max && row.logical <= max
    && if row.known == 0 then row.input.None? && row.output.None? && row.total.None? && !row.overflow
       else if row.overflow then row.known >= 2 && row.input.None? && row.output.None? && row.total.None?
       else Safe(row.input) && Safe(row.output) && Safe(row.total) && row.input.value + row.output.value == row.total.value
  }

  function OrZero(n: Option<nat>): nat {
    if n.Some? then n.value else 0
  }

  /** The reduces over the parts. */
  function PartSum(parts: seq<Subtotal>): Tally {
    if parts == [] then Zero()
    else
      var p := parts[0];
      Plus(Tally(p.known, p.unknown, p.request, p.logical, OrZero(p.input), OrZero(p.output)), PartSum(parts[1..]))
  }

  ghost predicate AnyOverflow(parts: seq<Subtotal>) {
    exists i | 0 <= i < |parts| :: parts[i].overflow
  }

  ghost predicate UnitsMatch(parts: seq<Subtotal>) {
    forall i | 0 <= i < |parts| :: parts[i].known + parts[i].unknown == parts[i].request + parts[i].logical
  }

  /** compareParts */
  ghost predicate CompareParts(total: Subtotal, parts: seq<Subtotal>) {
    var sum := PartSum(parts);
    && UnitsMatch(parts)
    && sum.known == total.known && sum.unknown == total.unknown && sum.request == total.request && sum.logical == total.logical
    && if AnyOverflow(parts) then total.overflow
       else
         && total.overflow == (sum.input + sum.output > MAX)
         && (total.known > 0 && !total.overflow ==>
               total.input == Some(sum.input) && total.output == Some(sum.output) && total.total == Some(sum.input + sum.output))
  }

  /** compareObserved: the sampled rows against a subtotal they were drawn from. */
  predicate CompareObserved(total: Subtotal, rows: seq<Receipt>, complete: bool, compatibility: bool) {
    Observed(total, Count(rows), complete, compatibility)
  }

  predicate Observed(total: Subtotal, seen: Tally, complete: bool, compatibility: bool) {
    && seen.known <= total.known && seen.unknown <= total.unknown
    && seen.request <= total.request && seen.logical <= total.logical
    && (complete ==> seen.known == total.known && (compatibility ==> seen.unknown == total.unknown))
    && if seen.known == total.known then
         && total.overflow == (seen.input + seen.output > MAX)
         && (seen.known > 0 && !total.overflow ==> total.input == Some(seen.input) && total.output == Some(seen.output))
       else total.known > 0 && !total.overflow ==> seen.input <= OrZero(total.input) && seen.output <= OrZero(total.output)
  }

  // ----- honest parts of honest totals -----

  function Scoped(rows: seq<Receipt>, k: nat): seq<Receipt> {
    if rows == [] then []
    else if rows[0].scope == k then [rows[0]] + Scoped(rows[1..], k)
    else Scoped(rows[1..], k)
  }

  /** The exact counters of the scopes below n: the root, each child, the other children. */
  function Tallies(rows: seq<Receipt>, n: nat): seq<Tally> {
    if n == 0 then [] else Tallies(rows, n - 1) + [Count(Scoped(rows, n - 1))]
  }

  function Total(tallies: seq<Tally>): Tally {
    if tallies == [] then Zero() else Plus(Total(tallies[..|tallies| - 1]), tallies[|tallies| - 1])
  }

  function ReportedAll(tallies: seq<Tally>): seq<Subtotal> {
    if tallies == [] then [] else ReportedAll(tallies[..|tallies| - 1]) + [Reported(tallies[|tallies| - 1])]
  }

  function BelowScope(r: Receipt, n: nat): Tally {
    if r.scope < n then One(r) else Zero()
  }

  /** The counters of one scope, without listing its receipts. */
  function ScopeCount(rows: seq<Receipt>, k: nat): Tally {
    if rows == [] then Zero()
    else if rows[0].scope == k then Plus(One(rows[0]), ScopeCount(rows[1..], k))
    else ScopeCount(rows[1..], k)
  }

  lemma {:induction false} CountOfScoped(rows: seq<Receipt>, k: nat)
    ensures Count(Scoped(rows, k)) == ScopeCount(rows, k)
  {
    if rows != [] {
      CountOfScoped(rows[1..], k);
      if rows[0].scope == k { CountCons(Scoped(rows, k), rows[0], Scoped(rows[1..], k)); }
    }
  }

  /** The total of the scopes below n. */
  function ScopeTotal(rows: seq<Receipt>, n: nat): Tally {
    if n == 0 then Zero() else Plus(ScopeTotal(rows, n - 1), ScopeCount(rows, n - 1))
  }

  lemma {:induction false} TotalIsScopeTotal(rows: seq<Receipt>, n: nat)
    ensures Total(Tallies(rows, n)) == ScopeTotal(rows, n)
  {
    if n > 0 {
      TotalIsScopeTotal(rows, n - 1);
      CountOfScoped(rows, n - 1);
      TotalSnoc(Tallies(rows, n), Tallies(rows, n - 1), Count(Scoped(rows, n - 1)));
    }
  }

  lemma TotalSnoc(tallies: seq<Tally>, init: seq<Tally>, last: Tally)
    requires tallies == init + [last]
    ensures Total(tallies) == Plus(Total(init), last)
  {
    assert tallies[..|tallies| - 1] == init;
  }

  lemma {:induction false} FirstOfScopes(rows: seq<Receipt>, n: nat)
    requires rows != []
    ensures ScopeTotal(rows, n) == Plus(BelowScope(rows[0], n), ScopeTotal(rows[1..], n))
    decreases n
  {
    if n == 0 {
      PlusZero(Zero());
    } else {
      FirstOfScopes(rows, n - 1);
      ScopeStep(rows[0], n, ScopeTotal(rows, n - 1), ScopeTotal(rows[1..], n - 1), ScopeCount(rows, n - 1), ScopeCount(rows[1..], n - 1));
    }
  }

  lemma ScopeStep(r: Receipt, n: nat, whole: Tally, rest: Tally, here: Tally, later: Tally)
    requires n > 0 && whole == Plus(BelowScope(r, n - 1), rest)
    requires here == if r.scope == n - 1 then Plus(One(r), later) else later
    ensures Plus(whole, here) == Plus(BelowScope(r, n), Plus(rest, later))
  {
    PlusZero(rest);
    PlusZero(Plus(rest, later));
    PlusAssociates(BelowScope(r, n - 1), rest, later);
    PlusSwaps(rest, One(r), later);
  }

  lemma PlusSwaps(a: Tally, b: Tally, c: Tally)
    ensures Plus(a, Plus(b, c)) == Plus(b, Plus(a, c))
  {
  }

  lemma {:induction false} NothingInScopes(n: nat)
    ensures ScopeTotal([], n) == Zero()
  {
    if n > 0 { NothingInScopes(n - 1); }
  }

  lemma {:induction false} ScopesAddUp(rows: seq<Receipt>, n: nat)
    requires forall i | 0 <= i < |rows| :: rows[i].scope < n
    ensures ScopeTotal(rows, n) == Count(rows)
  {
    if rows == [] {
      NothingInScopes(n);
    } else {
      ScopesAddUp(rows[1..], n);
      FirstOfScopes(rows, n);
    }
  }

  /** The scopes partition the receipts. */
  lemma ScopesPartition(rows: seq<Receipt>, n: nat)
    requires forall i | 0 <= i < |rows| :: rows[i].scope < n
    ensures Total(Tallies(rows, n)) == Count(rows)
  {
    TotalIsScopeTotal(rows, n);
    ScopesAddUp(rows, n);
  }

  /** What holds of the exact counters of any list of receipts. */
  predicate Plausible(t: Tally) {
    && (t.known == 0 ==> t.input == 0 && t.output == 0) && (t.known <= 1 ==> t.input + t.output <= MAX)
  }

  ghost predicate Selected(rows: seq<Receipt>) {
    forall i | 0 <= i < |rows| :: !rows[i].kind.Callback?
  }

  lemma {:induction false} CountSizes(rows: seq<Receipt>)
    ensures Count(rows).known + Count(rows).unknown == |rows|
    ensures Count(rows).request + Count(rows).logical <= |rows|
    ensures Selected(rows) ==> Count(rows).request + Count(rows).logical == |rows|
  {
    if rows != [] {
      CountSizes(rows[1..]);
      CountCons(rows, rows[0], rows[1..]);
    }
  }

  lemma {:induction false} CountPlausible(rows: seq<Receipt>)
    requires SafePairs(rows)
    ensures Plausible(Count(rows))
  {
    if rows != [] {
      CountPlausible(rows[1..]);
      CountCons(rows, rows[0], rows[1..]);
    }
  }

  lemma {:induction false} ScopedKeeps(rows: seq<Receipt>, k: nat)
    ensures |Scoped(rows, k)| <= |rows| && (SafePairs(rows) ==> SafePairs(Scoped(rows, k)))
    ensures Selected(rows) ==> Selected(Scoped(rows, k))
  {
    if rows != [] { ScopedKeeps(rows[1..], k); }
  }

  lemma HonestIsAcceptable(t: Tally, max: nat)
    requires Plausible(t) && t.known <= max && t.unknown <= max && t.request <= max && t.logical <= max
    ensures Acceptable(Reported(t), max)
  {
  }

  ghost predicate AllPlausible(tallies: seq<Tally>) {
    forall i | 0 <= i < |tallies| :: Plausible(tallies[i]) && tallies[i].known + tallies[i].unknown == tallies[i].request + tallies[i].logical
  }

  lemma {:induction false} TalliesPlausible(rows: seq<Receipt>, n: nat)
    requires SafePairs(rows) && Selected(rows)
    ensures AllPlausible(Tallies(rows, n)) && |Tallies(rows, n)| == n
    ensures forall i | 0 <= i < n :: Acceptable(Reported(Tallies(rows, n)[i]), |rows|)
  {
    if n > 0 {
      TalliesPlausible(rows, n - 1);
      ScopedKeeps(rows, n - 1);
      CountPlausible(Scoped(rows, n - 1));
      CountSizes(Scoped(rows, n - 1));
      HonestIsAcceptable(Count(Scoped(rows, n - 1)), |rows|);
    }
  }

  lemma {:induction false} ReportedAllAt(tallies: seq<Tally>)
    ensures |ReportedAll(tallies)| == |tallies| && forall i | 0 <= i < |tallies| :: ReportedAll(tallies)[i] == Reported(tallies[i])
  {
    if tallies != [] { ReportedAllAt(tallies[..|tallies| - 1]); }
  }

  function Shown(p: Subtotal): Tally {
    Tally(p.known, p.unknown, p.request, p.logical, OrZero(p.input), OrZero(p.output))
  }

  lemma {:induction false} PartSumSnoc(parts: seq<Subtotal>, last: Subtotal)
    ensures PartSum(parts + [last]) == Plus(PartSum(parts), Shown(last))
  {
    if parts == [] {
      assert parts + [last] == [last] && [last][1..] == [];
    } else {
      assert (parts + [last])[1..] == parts[1..] + [last];
      PartSumSnoc(parts[1..], last);
    }
  }

  /** Summing honest parts: the counts are always exact, the tokens too unless a part overflowed,
      and then the exact sum is unsafe as well. */
  lemma {:induction false} HonestPartSum(tallies: seq<Tally>)
    requires AllPlausible(tallies)
    ensures var sum, exact, parts := PartSum(ReportedAll(tallies)), Total(tallies), ReportedAll(tallies);
            && sum.known == exact.known && sum.unknown == exact.unknown && sum.request == exact.request && sum.logical == exact.logical
            && (if AnyOverflow(parts) then exact.input + exact.output > MAX else sum == exact)
            && UnitsMatch(parts)
  {
    if tallies != [] {
      var init, last := tallies[..|tallies| - 1], tallies[|tallies| - 1];
      HonestPartSum(init);
      var before := ReportedAll(init);
      PartSumSnoc(before, Reported(last));
      var parts := before + [Reported(last)];
      assert forall i | 0 <= i < |before| :: parts[i] == before[i];
      assert parts[|before|] == Reported(last);
      if AnyOverflow(before) {
        var i :| 0 <= i < |before| && before[i].overflow;
        assert parts[i].overflow;
      }
    }
  }

  // ----- main results -----

  lemma PartsOfTotalPass(exact: Tally, parts: seq<Subtotal>)
    requires Plausible(exact) && UnitsMatch(parts)
    requires var sum := PartSum(parts);
             && sum.known == exact.known && sum.unknown == exact.unknown && sum.request == exact.request && sum.logical == exact.logical
             && (if AnyOverflow(parts) then exact.input + exact.output > MAX else sum == exact)
    ensures CompareParts(Reported(exact), parts)
    ensures forall total: Subtotal, max: nat :: Acceptable(total, max) && CompareParts(total, parts) ==> total == Reported(exact)
  {
  }

  lemma PartsAcceptable(rows: seq<Receipt>, n: nat, max: nat)
    requires SafePairs(rows) && Selected(rows) && |rows| <= max
    ensures var parts := ReportedAll(Tallies(rows, n)); |parts| == n && forall i | 0 <= i < n :: Acceptable(parts[i], max)
  {
    TalliesPlausible(rows, n);
    ReportedAllAt(Tallies(rows, n));
  }

  /** Honest summation always passes: the total of any receipts, and its parts over any scopes. */
  lemma HonestReportsPass(rows: seq<Receipt>, n: nat, max: nat)
    requires SafePairs(rows) && Selected(rows) && |rows| <= max && forall i | 0 <= i < |rows| :: rows[i].scope < n
    ensures var total, parts := Reported(Count(rows)), ReportedAll(Tallies(rows, n));
            && Acceptable(total, max) && |parts| == n && (forall i | 0 <= i < n :: Acceptable(parts[i], max))
            && CompareParts(total, parts)
  {
    PartsAcceptable(rows, n, max);
    HonestTotal(rows, n);
    CountPlausible(rows);
    CountSizes(rows);
    HonestIsAcceptable(Count(rows), max);
  }

  lemma HonestTotal(rows: seq<Receipt>, n: nat)
    requires SafePairs(rows) && Selected(rows) && forall i | 0 <= i < |rows| :: rows[i].scope < n
    ensures var parts := ReportedAll(Tallies(rows, n));
            && CompareParts(Reported(Count(rows)), parts)
            && forall total: Subtotal, max: nat :: Acceptable(total, max) && CompareParts(total, parts) ==> total == Reported(Count(rows))
  {
    ScopesPartition(rows, n);
    TalliesPlausible(rows, n);
    HonestPartSum(Tallies(rows, n));
    CountPlausible(rows);
    PartsOfTotalPass(Count(rows), ReportedAll(Tallies(rows, n)));
  }

  /** Against honest parts exactly one total is accepted, the honest one: no count, token or flag of
      it can be misstated. */
  lemma OnlyTheHonestTotalPasses(rows: seq<Receipt>, n: nat, max: nat, total: Subtotal)
    requires SafePairs(rows) && Selected(rows) && |rows| <= max && forall i | 0 <= i < |rows| :: rows[i].scope < n
    ensures Acceptable(total, max) && CompareParts(total, ReportedAll(Tallies(rows, n))) <==> total == Reported(Count(rows))
  {
    HonestReportsPass(rows, n, max);
    HonestTotal(rows, n);
  }

  /** Whatever the parts: an accepted total without the overflow flag has no overflowed part and is
      the exact, safe sum of its parts. */
  lemma AcceptedWithoutOverflowIsExact(total: Subtotal, parts: seq<Subtotal>, max: nat)
    requires Acceptable(total, max) && CompareParts(total, parts) && !total.overflow
    ensures !AnyOverflow(parts)
    ensures var sum := PartSum(parts);
            && sum.input + sum.output <= MAX
            && (total.known > 0 ==> total.input == Some(sum.input) && total.output == Some(sum.output) && total.total == Some(sum.input + sum.output))
            && (total.known == 0 ==> sum.known == 0 && total.input.None? && total.output.None? && total.total.None?)
  {
  }

  /** A sample: some of the rows, in order. */
  predicate Sample(some: seq<Receipt>, rows: seq<Receipt>)
    decreases |rows|
  {
    if some == [] then true
    else rows != [] && ((some[0] == rows[0] && Sample(some[1..], rows[1..])) || Sample(some, rows[1..]))
  }

  /** The rows left out of a sample count for something, and for no tokens when none of them is known. */
  lemma {:induction false} SampleRest(some: seq<Receipt>, rows: seq<Receipt>) returns (rest: Tally)
    requires Sample(some, rows)
    ensures Count(rows) == Plus(Count(some), rest) && (rest.known == 0 ==> rest.input == 0 && rest.output == 0)
    decreases |rows|
  {
    if some == [] {
      rest := Count(rows);
      NoKnownNoTokens(rows);
      PlusZero(rest);
    } else if some[0] == rows[0] && Sample(some[1..], rows[1..]) {
      rest := SampleRest(some[1..], rows[1..]);
      CountCons(rows, rows[0], rows[1..]);
      CountCons(some, some[0], some[1..]);
      PlusAssociates(One(some[0]), Count(some[1..]), rest);
    } else {
      var tail := SampleRest(some, rows[1..]);
      CountCons(rows, rows[0], rows[1..]);
      rest := Plus(One(rows[0]), tail);
      PlusSwaps(One(rows[0]), Count(some), tail);
    }
  }

  lemma {:induction false} NoKnownNoTokens(rows: seq<Receipt>)
    ensures Count(rows).known == 0 ==> Count(rows).input == 0 && Count(rows).output == 0
  {
    if rows != [] {
      NoKnownNoTokens(rows[1..]);
      CountCons(rows, rows[0], rows[1..]);
    }
  }

  lemma TalliesPass(all: Tally, some: Tally, rest: Tally)
    requires all == Plus(some, rest) && (rest.known == 0 ==> rest.input == 0 && rest.output == 0)
    ensures Observed(Reported(all), some, false, false)
    ensures Observed(Reported(all), some, true, false) <==> some.known == all.known
    ensures Observed(Reported(all), some, true, true) <==> some.known == all.known && some.unknown == all.unknown
  {
  }

  /** Any sample of honestly summed receipts passes against their subtotal.  Called complete, it
      passes exactly if no known receipt is missing (units without a receipt in hand may be), and
      called complete for the compatibility rows, exactly if no unknown one is missing either. */
  lemma SamplesPass(rows: seq<Receipt>, some: seq<Receipt>)
    requires Sample(some, rows)
    ensures CompareObserved(Reported(Count(rows)), some, false, false)
    ensures CompareObserved(Reported(Count(rows)), some, true, false) <==> Count(some).known == Count(rows).known
    ensures CompareObserved(Reported(Count(rows)), some, true, true) <==>
            Count(some).known == Count(rows).known && Count(some).unknown == Count(rows).unknown
  {
    var rest := SampleRest(some, rows);
    TalliesPass(Count(rows), Count(some), rest);
  }

  lemma {:induction false} ScopedSample(some: seq<Receipt>, rows: seq<Receipt>, k: nat)
    requires Sample(some, rows)
    ensures Sample(Scoped(some, k), Scoped(rows, k))
    decreases |rows|
  {
    if some == [] {
    } else if some[0] == rows[0] && Sample(some[1..], rows[1..]) {
      ScopedSample(some[1..], rows[1..], k);
      if rows[0].scope == k { SampleBoth(rows[0], Scoped(some[1..], k), Scoped(rows[1..], k)); }
    } else {
      ScopedSample(some, rows[1..], k);
      if rows[0].scope == k { SampleLonger(rows[0], Scoped(some, k), Scoped(rows[1..], k)); }
    }
  }

  lemma SampleBoth(r: Receipt, some: seq<Receipt>, rows: seq<Receipt>)
    requires Sample(some, rows)
    ensures Sample([r] + some, [r] + rows)
  {
    assert ([r] + some)[1..] == some && ([r] + rows)[1..] == rows;
  }

  lemma SampleLonger(r: Receipt, some: seq<Receipt>, rows: seq<Receipt>)
    requires Sample(some, rows)
    ensures Sample(some, [r] + rows)
  {
    assert ([r] + rows)[1..] == rows;
  }

  /** The client filters one sample by scope: each part of it passes against that scope's subtotal. */
  lemma ScopedSamplesPass(rows: seq<Receipt>, some: seq<Receipt>, k: nat)
    requires Sample(some, rows)
    ensures CompareObserved(Reported(Count(Scoped(rows, k))), Scoped(some, k), false, false)
  {
    ScopedSample(some, rows, k);
    SamplesPass(Scoped(rows, k), Scoped(some, k));
  }

  /** An acceptable subtotal that passes against a complete list shows exactly that list's tokens and flag. */
  lemma CompleteListIsExact(rows: seq<Receipt>, total: Subtotal, max: nat)
    requires Acceptable(total, max) && CompareObserved(total, rows, true, false)
    ensures var honest := Reported(Count(rows));
            && total.known == honest.known && total.overflow == honest.overflow
            && total.input == honest.input && total.output == honest.output && total.total == honest.total
  {
  }

  // ----- what is counted and what is checked, in plain terms -----

  /** A column of the receipts, added up from the first row to the last. */
  function Column(rows: seq<Receipt>, value: Receipt -> nat): nat {
    if rows == [] then 0 else Column(rows[..|rows| - 1], value) + value(rows[|rows| - 1])
  }

  lemma {:induction false} CountSnoc(rows: seq<Receipt>, last: Receipt)
    ensures Count(rows + [last]) == Plus(Count(rows), One(last))
  {
    if rows == [] {
      CountCons([] + [last], last, []);
      PlusZero(One(last));
    } else {
      assert (rows + [last])[1..] == rows[1..] + [last];
      CountSnoc(rows[1..], last);
      PlusAssociates(One(rows[0]), Count(rows[1..]), One(last));
    }
  }

  /** The server's counters are columns: of receipts with and without usage, of requests and of logical
      calls, and of the tokens of those with usage. */
  lemma {:induction false} CountersAreColumns(rows: seq<Receipt>)
    ensures Count(rows).known == Column(rows, (r: Receipt) => if r.usage.None? then 0 else 1)
    ensures Count(rows).unknown == Column(rows, (r: Receipt) => if r.usage.None? then 1 else 0)
    ensures Count(rows).request == Column(rows, (r: Receipt) => if r.kind == Request then 1 else 0)
    ensures Count(rows).logical == Column(rows, (r: Receipt) => if r.kind == LogicalCall then 1 else 0)
    ensures Count(rows).input == Column(rows, (r: Receipt) => if r.usage.None? then 0 else r.usage.value.input)
    ensures Count(rows).output == Column(rows, (r: Receipt) => if r.usage.None? then 0 else r.usage.value.output)
  {
    if rows != [] {
      var init, last := rows[..|rows| - 1], rows[|rows| - 1];
      CountersAreColumns(init);
      CountSnoc(init, last);
      assert rows == init + [last];
    }
  }

  /** What is reported of the counters: the tokens and their sum exactly if some usage is known and the
      sum is a safe integer, and the flag exactly if it is not. */
  lemma ReportTells(t: Tally)
    ensures var s := Reported(t);
            && s.known == t.known && s.unknown == t.unknown && s.request == t.request && s.logical == t.logical
            && (s.overflow <==> t.input + t.output > 9_007_199_254_740_991)
            && (if t.known > 0 && !s.overflow then s.input == Some(t.input) && s.output == Some(t.output) && s.total == Some(t.input + t.output)
                else s.input.None? && s.output.None? && s.total.None?)
  {
  }

  /** The client's check of one subtotal: counts within the report, tokens exactly where they belong,
      safe, and adding up; a flag needs at least two known units. */
  lemma AcceptableMeans(row: Subtotal, max: nat)
    ensures Acceptable(row, max) <==>
            && row.known <= max && row.unknown <= max && row.request <= max && row.logical <= max
            && (row.overflow ==> row.known >= 2)
            && (if row.known > 0 && !row.overflow then
                  && row.input.Some? && row.output.Some? && row.total.Some?
                  && row.input.value <= 9_007_199_254_740_991 && row.output.value <= 9_007_199_254_740_991
                  && row.total.value <= 9_007_199_254_740_991 && row.total.value == row.input.value + row.output.value
                else row.input.None? && row.output.None? && row.total.None?)
  {
  }

  /** The client's check of sampled rows: no count above the subtotal's; a complete list misses no known
      unit, and for compatibility rows no unknown one; with all known units in hand the flag and the
      tokens are theirs, and otherwise their tokens fit into the shown ones. */
  lemma ObservedMeans(total: Subtotal, rows: seq<Receipt>, complete: bool, compatibility: bool)
    ensures var seen := Count(rows);
            var all := seen.known == total.known;
            CompareObserved(total, rows, complete, compatibility) <==>
            && seen.known <= total.known && seen.unknown <= total.unknown && seen.request <= total.request && seen.logical <= total.logical
            && (complete ==> all) && (complete && compatibility ==> seen.unknown == total.unknown)
            && (all ==> (total.overflow <==> seen.input + seen.output > 9_007_199_254_740_991))
            && (all && seen.known > 0 && !total.overflow ==> total.input == Some(seen.input) && total.output == Some(seen.output))
            && (!all && total.known > 0 && !total.overflow ==>
                  && seen.input <= (if total.input.None? then 0 else total.input.value)
                  && seen.output <= (if total.output.None? then 0 else total.output.value))
  {
  }
}
