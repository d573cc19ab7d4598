/** Exact decimal texts: the Python printer and rate canonicalizer (src/doppel_agent/billing_tariff.py)
    and the TypeScript readers of rates and amounts (frontend/src/providerCost.ts). */
module Decimals {
  import opened Basics

  // ----- digits -----

  function Pow10(k: nat): (p: nat)
    ensures p >= 1
  {
    if k == 0 then 1 else 10 * Pow10(k - 1)
  }

  predicate IsDigit(c: char) {
    '0' <= c <= '9'
  }

  predicate AllDigits(s: string) {
    forall i | 0 <= i < |s| :: IsDigit(s[i])
  }

  function DigitOf(n: nat): (c: char)
    requires n < 10
    ensures IsDigit(c) && c as int - '0' as int == n
  {
    ('0' as int + n) as char
  }

  /** The number a digit text stands for. */
  function Value(s: string): nat
    requires AllDigits(s)
  {
    if s == [] then 0 else 10 * Value(s[..|s| - 1]) + (s[|s| - 1] as int - '0' as int)
  }

  /** The shortest digit text of a number. */
  function Print(n: nat): (s: string)
    ensures AllDigits(s) && |s| >= 1
  {
    if n < 10 then [DigitOf(n)] else Print(n / 10) + [DigitOf(n % 10)]
  }

  function Zeros(k: nat): (s: string)
    ensures AllDigits(s) && |s| == k
  {
    if k == 0 then [] else "0" + Zeros(k - 1)
  }

  function StripZeros(s: string): string {
    if s != [] && s[|s| - 1] == '0' then StripZeros(s[..|s| - 1]) else s
  }

  function PadLeft(s: string, width: nat): string {
    if |s| >= width then s else Zeros(width - |s|) + s
  }

  function PadRight(s: string, width: nat): (padded: string)
    ensures AllDigits(s) ==> AllDigits(padded)
  {
    if |s| >= width then s else s + Zeros(width - |s|)
  }

  lemma ValueOfPrint(n: nat)
    ensures Value(Print(n)) == n
  {
    if n >= 10 {
      ValueOfPrint(n / 10);
      assert Print(n)[..|Print(n)| - 1] == Print(n / 10);
    }
  }

  lemma {:induction false} ValueBound(s: string)
    requires AllDigits(s)
    ensures Value(s) < Pow10(|s|)
  {
    if s != [] { ValueBound(s[..|s| - 1]); }
  }

  /** Digit texts of one length that stand for the same number are the same. */
  lemma {:induction false} DigitsUnique(s: string, t: string)
    requires AllDigits(s) && AllDigits(t) && |s| == |t| && Value(s) == Value(t)
    ensures s == t
  {
    if s != [] {
      var a, b := s[..|s| - 1], t[..|t| - 1];
      var x, y := s[|s| - 1] as int - '0' as int, t[|t| - 1] as int - '0' as int;
      assert 10 * Value(a) + x == 10 * Value(b) + y && 0 <= x < 10 && 0 <= y < 10;
      DigitsUnique(a, b);
      assert s == a + [s[|s| - 1]] && t == b + [t[|t| - 1]];
    }
  }

  lemma {:induction false} PrintLength(n: nat, k: nat)
    requires k >= 1
    ensures |Print(n)| <= k <==> n < Pow10(k)
    decreases k
  {
    assert Pow10(k) == 10 * Pow10(k - 1);
    if n < 10 {
    } else if k == 1 {
      assert Pow10(0) == 1;
    } else {
      PrintLength(n / 10, k - 1);
    }
  }

  /** No leading zero, unless it is the only digit. */
  predicate Lean(s: string) {
    s != [] && AllDigits(s) && (s[0] == '0' ==> |s| == 1)
  }

  lemma {:induction false} LeanBound(s: string)
    requires Lean(s) && |s| >= 2
    ensures Value(s) >= Pow10(|s| - 1)
  {
    var init := s[..|s| - 1];
    if |init| == 1 {
      assert init[..0] == [] && Value(init) == init[0] as int - '0' as int >= 1;
      assert Pow10(1) == 10 * Pow10(0);
    } else {
      assert init[0] == s[0];
      LeanBound(init);
    }
  }

  lemma {:induction false} PrintIsLean(n: nat)
    ensures Lean(Print(n)) && (n >= 1 ==> Print(n)[0] != '0')
  {
    if n >= 10 { PrintIsLean(n / 10); }
  }

  lemma PrintOfValue(s: string)
    requires Lean(s)
    ensures Print(Value(s)) == s
  {
    var n := Value(s);
    ValueBound(s);
    PrintLength(n, |s|);
    if |s| >= 2 {
      LeanBound(s);
      PrintLength(n, |s| - 1);
    }
    ValueOfPrint(n);
    DigitsUnique(Print(n), s);
  }

  lemma {:induction false} ValueConcat(s: string, t: string)
    requires AllDigits(s) && AllDigits(t)
    ensures AllDigits(s + t) && Value(s + t) == Value(s) * Pow10(|t|) + Value(t)
  {
    if t == [] {
      assert s + t == s;
    } else {
      var init := t[..|t| - 1];
      assert (s + t)[..|s + t| - 1] == s + init;
      ValueConcat(s, init);
      assert Value(s + t) == 10 * (Value(s) * Pow10(|init|) + Value(init)) + (t[|t| - 1] as int - '0' as int);
      TimesTen(Value(s), Pow10(|init|));
    }
  }

  lemma TimesTen(a: nat, p: nat)
    ensures 10 * (a * p) == a * (10 * p)
  {
  }

  lemma {:induction false} ValueOfZeros(k: nat)
    ensures Value(Zeros(k)) == 0
  {
    if k > 0 {
      ValueOfZeros(k - 1);
      ValueConcat("0", Zeros(k - 1));
      assert "0"[..0] == [] && Value("0") == 0;
    }
  }

  // ----- decimal texts -----

  /** The text before and after the first point, as partition(".") and split(".") give it. */
  function Point(s: string): (string, Option<string>) {
    if s == [] then ([], None)
    else if s[0] == '.' then ([], Some(s[1..]))
    else
      var (whole, fraction) := Point(s[1..]);
      ([s[0]] + whole, fraction)
  }

  /** (?:0|[1-9][0-9]{0,W-1})(?:\.[0-9]{1,F})? */
  predicate Grammar(s: string, maxWhole: nat, maxFraction: nat) {
    var (whole, fraction) := Point(s);
    && Lean(whole) && |whole| <= maxWhole
    && (fraction.Some? ==> AllDigits(fraction.value) && 1 <= |fraction.value| <= maxFraction)
  }

  predicate Canonical(s: string) {
    '.' in s ==> s[|s| - 1] != '0'
  }

  /** Digits before and after the point, if there is one. */
  predicate Readable(s: string) {
    var (whole, fraction) := Point(s);
    AllDigits(whole) && (fraction.Some? ==> AllDigits(fraction.value))
  }

  /** n * 10^k */
  function Shift(n: nat, k: nat): nat {
    if k == 0 then n else 10 * Shift(n, k - 1)
  }

  /** The whole number that digits before and after the point stand for at a fixed number of places. */
  function NumberOf(whole: string, fraction: string, places: nat): nat
    requires AllDigits(whole) && AllDigits(fraction)
  {
    Shift(Value(whole), places) + Value(PadRight(fraction, places))
  }

  function Scaled(s: string, places: nat): nat
    requires Readable(s)
  {
    var (whole, fraction) := Point(s);
    NumberOf(whole, if fraction.Some? then fraction.value else [], places)
  }

  /** The printer on a quotient and a remainder. */
  function RenderParts(whole: nat, rest: nat, places: nat): string {
    if rest == 0 then Print(whole) else StripZeros(Print(whole) + "." + PadLeft(Print(rest), places))
  }

  /** n without its last k digits, and those digits. */
  function Cut(n: nat, k: nat): nat {
    if k == 0 then n else Cut(n / 10, k - 1)
  }

  function Rest(n: nat, k: nat): nat {
    if k == 0 then 0 else 10 * Rest(n / 10, k - 1) + n % 10
  }

  /** The printer, for any number of places. */
  function Render(n: nat, places: nat): string {
    RenderParts(Cut(n, places), Rest(n, places), places)
  }

  const RATE_PLACES: nat := 8
  const AMOUNT_PLACES: nat := 14

  /** RATE_SCALE * UNIT_TOKENS */
  const DENOMINATOR: nat := 100_000_000 * 1_000_000

  /** Python `_amount`. */
  function PyAmount(numerator: nat): string {
    RenderParts(numerator / DENOMINATOR, numerator % DENOMINATOR, AMOUNT_PLACES)
  }

  /** TypeScript `amount`. */
  function TsAmount(s: string): Option<nat> {
    if Grammar(s, 30, AMOUNT_PLACES) && Canonical(s) then Some(Scaled(s, AMOUNT_PLACES)) else None
  }

  /** Python `_scaled`, which also reads trailing zeros. */
  function PyScaled(s: string): Option<nat> {
    if Grammar(s, 30, AMOUNT_PLACES) then Some(Scaled(s, AMOUNT_PLACES)) else None
  }

  /** rstrip("0").rstrip(".") */
  function Canonized(s: string): string {
    if '.' in s then
      var stripped := StripZeros(s);
      if stripped != [] && stripped[|stripped| - 1] == '.' then stripped[..|stripped| - 1] else stripped
    else s
  }

  /** Python `_rate`. */
  function PyRate(s: string): Option<string> {
    if Grammar(s, 9, RATE_PLACES) then Some(Canonized(s)) else None
  }

  /** Python `_coefficient`, called on accepted rates only. */
  function PyCoefficient(s: string): nat
    requires Grammar(s, 9, RATE_PLACES)
  {
    Scaled(s, RATE_PLACES)
  }

  /** TypeScript `rate`. */
  function TsRate(s: string): Option<nat> {
    if Grammar(s, 9, RATE_PLACES) && Canonical(s) then Some(Scaled(s, RATE_PLACES)) else None
  }

  lemma {:induction false} PointParts(s: string)
    ensures var (whole, fraction) := Point(s);
            && |whole| <= |s| && '.' !in whole
            && s == (if fraction.Some? then whole + "." + fraction.value else whole)
  {
    if s != [] && s[0] != '.' {
      PointParts(s[1..]);
      assert s == [s[0]] + s[1..];
    }
  }

  lemma {:induction false} PointOf(whole: string, fraction: string)
    requires '.' !in whole
    ensures Point(whole) == (whole, None) && Point(whole + "." + fraction) == (whole, Some(fraction))
  {
    if whole == [] {
      assert (whole + "." + fraction)[1..] == fraction;
    } else {
      assert (whole + "." + fraction)[1..] == whole[1..] + "." + fraction;
      assert '.' !in whole[1..] && whole == [whole[0]] + whole[1..];
      PointOf(whole[1..], fraction);
    }
  }

  // ----- stripping and padding -----

  lemma {:induction false} StripConcat(a: string, x: string)
    requires StripZeros(x) != []
    ensures StripZeros(a + x) == a + StripZeros(x)
  {
    if x[|x| - 1] == '0' {
      assert (a + x)[..|a + x| - 1] == a + x[..|x| - 1];
      StripConcat(a, x[..|x| - 1]);
    }
  }

  lemma {:induction false} StripKeeps(x: string)
    ensures |StripZeros(x)| <= |x| && StripZeros(x) == x[..|StripZeros(x)|]
    ensures StripZeros(x) != [] ==> StripZeros(x)[|StripZeros(x)| - 1] != '0'
    ensures forall i | |StripZeros(x)| <= i < |x| :: x[i] == '0'
  {
    if x != [] && x[|x| - 1] == '0' {
      StripKeeps(x[..|x| - 1]);
    }
  }

  lemma {:induction false} ZerosAre(s: string)
    requires forall i | 0 <= i < |s| :: s[i] == '0'
    ensures s == Zeros(|s|)
  {
    if s != [] {
      ZerosAre(s[1..]);
      assert s == "0" + s[1..];
    }
  }

  lemma StripThenPad(x: string)
    ensures PadRight(StripZeros(x), |x|) == x
  {
    StripKeeps(x);
    var k := |StripZeros(x)|;
    ZerosAre(x[k..]);
    assert x == x[..k] + x[k..];
  }

  lemma {:induction false} ZerosEnd(k: nat)
    ensures Zeros(k) + "0" == Zeros(k + 1)
  {
    if k > 0 {
      ZerosEnd(k - 1);
      assert "0" + Zeros(k - 1) + "0" == "0" + (Zeros(k - 1) + "0");
    }
  }

  lemma {:induction false} StripOfPad(f: string, k: nat)
    requires f == [] || f[|f| - 1] != '0'
    ensures StripZeros(f + Zeros(k)) == f
  {
    if k == 0 {
      assert f + [] == f;
    } else {
      ZerosEnd(k - 1);
      assert f + Zeros(k) == f + Zeros(k - 1) + "0";
      assert (f + Zeros(k))[..|f| + k - 1] == f + Zeros(k - 1);
      StripOfPad(f, k - 1);
    }
  }

  lemma PaddedLeft(n: nat, width: nat)
    requires width >= 1 && n < Pow10(width)
    ensures var s := PadLeft(Print(n), width); AllDigits(s) && |s| == width && Value(s) == n
  {
    PrintLength(n, width);
    ValueOfPrint(n);
    var k := width - |Print(n)|;
    ValueOfZeros(k);
    ValueConcat(Zeros(k), Print(n));
    assert |Print(n)| == width ==> Zeros(0) + Print(n) == Print(n);
  }

  // ----- the printer and the readers are inverse -----

  lemma {:induction false} StripNonEmpty(x: string)
    requires AllDigits(x) && Value(x) >= 1
    ensures StripZeros(x) != []
  {
    if x[|x| - 1] == '0' { StripNonEmpty(x[..|x| - 1]); }
  }

  /** Stripping a padded number: digits that end in no zero, and pad back to the same text. */
  lemma StripDigits(x: string, f: string)
    requires AllDigits(x) && Value(x) >= 1 && f == StripZeros(x)
    ensures AllDigits(f) && 1 <= |f| <= |x| && f[|f| - 1] != '0' && PadRight(f, |x|) == x
  {
    StripNonEmpty(x);
    StripKeeps(x);
    StripThenPad(x);
  }

  lemma FractionText(n: nat, places: nat, x: string, f: string)
    requires places >= 1 && 1 <= n < Pow10(places) && x == PadLeft(Print(n), places) && f == StripZeros(x)
    ensures AllDigits(f) && 1 <= |f| <= places && f[|f| - 1] != '0' && PadRight(f, places) == x && Value(x) == n
  {
    PaddedLeft(n, places);
    StripDigits(x, f);
  }

  lemma Padded(f: string, places: nat)
    requires |f| <= places
    ensures PadRight(f, places) == f + Zeros(places - |f|)
  {
    assert f + Zeros(0) == f;
  }

  /** What is printed: digits, and a point and more digits when there is a rest. */
  lemma PrintedPoint(q: nat, r: nat, places: nat) returns (fraction: Option<string>)
    requires places >= 1 && r < Pow10(places)
    ensures Point(RenderParts(q, r, places)) == (Print(q), fraction)
    ensures fraction.Some? ==> AllDigits(fraction.value) && 1 <= |fraction.value| <= places
    ensures fraction.Some? ==> fraction.value[|fraction.value| - 1] != '0'
    ensures Value(PadRight(if fraction.Some? then fraction.value else [], places)) == r
  {
    assert '.' !in Print(q);
    if r == 0 {
      fraction := None;
      PointOf(Print(q), []);
      ValueOfZeros(places);
      Padded([], places);
      assert [] + Zeros(places) == Zeros(places);
    } else {
      var x := PadLeft(Print(r), places);
      var f := StripZeros(x);
      fraction := Some(f);
      FractionText(r, places, x, f);
      PointOfStripped(Print(q), x, f);
    }
  }

  lemma PointOfStripped(whole: string, x: string, f: string)
    requires '.' !in whole && f == StripZeros(x) && f != []
    ensures StripZeros(whole + "." + x) == whole + "." + f && Point(whole + "." + f) == (whole, Some(f))
  {
    StripConcat(whole + ".", x);
    PointOf(whole, f);
  }

  /** What the reader makes of a text whose two parts are known. */
  lemma ScaledAt(s: string, whole: string, fraction: Option<string>, places: nat, r: nat)
    requires Point(s) == (whole, fraction) && AllDigits(whole) && (fraction.Some? ==> AllDigits(fraction.value))
    requires r == Value(PadRight(if fraction.Some? then fraction.value else [], places))
    ensures Readable(s) && Scaled(s, places) == Shift(Value(whole), places) + r
  {
  }

  lemma ReadBackParts(q: nat, r: nat, maxWhole: nat, places: nat, s: string)
    requires maxWhole >= 1 && places >= 1 && r < Pow10(places) && s == RenderParts(q, r, places)
    ensures Canonical(s) && Readable(s) && Scaled(s, places) == Shift(q, places) + r
    ensures Grammar(s, maxWhole, places) <==> q < Pow10(maxWhole)
  {
    var fraction := PrintedPoint(q, r, places);
    ValueOfPrint(q);
    ScaledAt(s, Print(q), fraction, places, r);
    CanonicalParts(s);
    GrammarAt(s, Print(q), fraction, maxWhole, places);
    PrintIsLean(q);
    PrintLength(q, maxWhole);
  }

  lemma GrammarAt(s: string, whole: string, fraction: Option<string>, maxWhole: nat, places: nat)
    requires Point(s) == (whole, fraction)
    requires fraction.Some? ==> AllDigits(fraction.value) && 1 <= |fraction.value| <= places
    ensures Grammar(s, maxWhole, places) <==> Lean(whole) && |whole| <= maxWhole
  {
  }

  lemma {:induction false} CutRest(n: nat, k: nat)
    ensures n == Shift(Cut(n, k), k) + Rest(n, k) && Rest(n, k) < Pow10(k)
  {
    if k > 0 { CutRest(n / 10, k - 1); }
  }

  lemma {:induction false} ShiftOrder(a: nat, b: nat, k: nat, r: nat)
    requires r < Pow10(k)
    ensures a < b <==> Shift(a, k) + r < Shift(b, k)
  {
    if k > 0 { ShiftOrder(a, b, k - 1, r / 10); }
  }

  /** What is printed can be read, and reading it gives the number back; it fits exactly the grammar
      whose widths allow for it. */
  lemma ReadBack(n: nat, maxWhole: nat, places: nat)
    requires maxWhole >= 1 && places >= 1
    ensures var s := Render(n, places);
            && Canonical(s) && Readable(s) && Scaled(s, places) == n
            && (Grammar(s, maxWhole, places) <==> n < Shift(Pow10(maxWhole), places))
  {
    CutRest(n, places);
    ReadBackParts(Cut(n, places), Rest(n, places), maxWhole, places, Render(n, places));
    ShiftOrder(Cut(n, places), Pow10(maxWhole), places, Rest(n, places));
  }

  lemma CanonicalParts(s: string)
    ensures var (whole, fraction) := Point(s);
            fraction.None? || (fraction.value != [] && fraction.value[|fraction.value| - 1] != '0') ==> Canonical(s)
  {
    PointParts(s);
  }

  lemma PadStrip(f: string, places: nat, text: string)
    requires |f| <= places && (f == [] || f[|f| - 1] != '0') && text == PadRight(f, places)
    ensures |text| == places && text[..|f|] == f && StripZeros(text) == f
  {
    Padded(f, places);
    StripOfPad(f, places - |f|);
  }

  lemma ReprintDigits(text: string, n: nat, i: nat)
    requires AllDigits(text) && i < |text| && text[i] != '0' && n == Value(text)
    ensures 1 <= n < Pow10(|text|) && PadLeft(Print(n), |text|) == text
  {
    ValueBound(text);
    NotZero(text, i);
    PaddedLeft(n, |text|);
    DigitsUnique(PadLeft(Print(n), |text|), text);
  }

  lemma PrintBackParts(s: string, whole: string, f: string, places: nat, q: nat, r: nat)
    requires places >= 1 && Lean(whole) && AllDigits(f) && |f| <= places && (f != [] ==> f[|f| - 1] != '0')
    requires s == (if f == [] then whole else whole + "." + f) && q == Value(whole) && r == Value(PadRight(f, places))
    ensures r < Pow10(places) && RenderParts(q, r, places) == s
  {
    PrintOfValue(whole);
    var text := PadRight(f, places);
    PadStrip(f, places, text);
    ValueBound(text);
    if f == [] {
      ValueOfZeros(places);
      Padded([], places);
      assert [] + Zeros(places) == Zeros(places);
    } else {
      assert text[|f| - 1] == text[..|f|][|f| - 1];
      ReprintDigits(text, r, |f| - 1);
      StripConcat(whole + ".", text);
    }
  }

  /** Printing what was read gives the text back. */
  lemma PrintBack(s: string, maxWhole: nat, places: nat)
    requires places >= 1 && Grammar(s, maxWhole, places) && Canonical(s)
    ensures Render(Scaled(s, places), places) == s
  {
    var (whole, fraction) := Point(s);
    PointParts(s);
    var f := if fraction.Some? then fraction.value else [];
    assert f != [] ==> s[|s| - 1] == f[|f| - 1];
    var r := Value(PadRight(f, places));
    ScaledAt(s, whole, fraction, places, r);
    PrintBackParts(s, whole, f, places, Value(whole), r);
    RenderAs(Scaled(s, places), Value(whole), r, places, s);
  }

  lemma RenderAs(n: nat, q: nat, r: nat, places: nat, s: string)
    requires n == Shift(q, places) + r && r < Pow10(places) && RenderParts(q, r, places) == s
    ensures Render(n, places) == s
  {
    CutOfShift(q, r, places, n);
  }

  lemma {:induction false} CutOfShift(q: nat, r: nat, k: nat, n: nat)
    requires r < Pow10(k) && n == Shift(q, k) + r
    ensures Cut(n, k) == q && Rest(n, k) == r
  {
    if k > 0 {
      assert n / 10 == Shift(q, k - 1) + r / 10;
      CutOfShift(q, r / 10, k - 1, n / 10);
    }
  }

  lemma {:induction false} NotZero(s: string, i: nat)
    requires AllDigits(s) && i < |s| && s[i] != '0'
    ensures Value(s) >= 1
  {
    if i < |s| - 1 { NotZero(s[..|s| - 1], i); }
  }

  // ----- amounts -----

  /** 10^44, the first number of hundred-trillionths that is too wide to read. */
  const TOO_WIDE: nat := 100_000_000_000_000_000_000_000_000_000_000_000_000_000_000

  lemma Powers()
    ensures Pow10(14) == DENOMINATOR && Shift(Pow10(30), 14) == TOO_WIDE
  {
    assert Pow10(5) == 100_000;
    assert Pow10(10) == 100_000 * Pow10(5);
    assert Pow10(14) == 10_000 * Pow10(10);
    assert Pow10(20) == 1_000_000 * Pow10(14);
    assert Pow10(25) == 100_000 * Pow10(20);
    assert Pow10(30) == 100_000 * Pow10(25);
    ShiftFive(Pow10(30), 10);
    ShiftFive(Pow10(30), 5);
    var top := Pow10(30);
    assert Shift(top, 4) == 10_000 * top;
    ShiftFive(top, 9);
    ShiftFive(top, 4);
    assert Shift(top, 14) == 10_0000 * Shift(top, 9) == 10_0000 * (10_0000 * Shift(top, 4));
  }

  lemma ShiftFive(n: nat, k: nat)
    ensures Shift(n, k + 5) == 100_000 * Shift(n, k)
  {
    assert Shift(n, k + 5) == 10 * Shift(n, k + 4);
    assert Shift(n, k + 4) == 10 * Shift(n, k + 3);
    assert Shift(n, k + 3) == 10 * Shift(n, k + 2);
    assert Shift(n, k + 2) == 10 * Shift(n, k + 1);
  }

  lemma {:induction false} CutIsDivision(n: nat, k: nat)
    ensures Cut(n, k) == n / Pow10(k) && Rest(n, k) == n % Pow10(k)
  {
    if k > 0 {
      CutIsDivision(n / 10, k - 1);
      DivideTwice(n, Pow10(k - 1));
    }
  }

  lemma DivideTwice(n: nat, p: nat)
    requires p >= 1
    ensures n / 10 / p == n / (10 * p) && n % (10 * p) == 10 * (n / 10 % p) + n % 10
  {
    var m, d := n / 10, n % 10;
    var q, r := m / p, m % p;
    assert m == q * p + r;
    assert n == q * (10 * p) + (10 * r + d) by { assert q * (10 * p) == 10 * (q * p); }
    assert 0 <= 10 * r + d < 10 * p;
    UniqueDivision(n, 10 * p, q, 10 * r + d);
  }

  lemma UniqueDivision(n: nat, p: nat, q: nat, r: nat)
    requires p >= 1 && n == q * p + r && r < p
    ensures n / p == q && n % p == r
  {
    var e := n / p - q;
    assert n == (n / p) * p + n % p;
    assert e * p == r - n % p by { assert (n / p) * p - q * p == e * p; }
    Multiples(e, p);
  }

  lemma Multiples(e: int, p: int)
    requires p >= 1
    ensures (e >= 1 ==> e * p >= p) && (e <= -1 ==> e * p <= 0 - p)
  {
  }

  lemma PyAmountRenders(n: nat)
    ensures PyAmount(n) == Render(n, AMOUNT_PLACES)
  {
    Powers();
    CutIsDivision(n, AMOUNT_PLACES);
  }

  /** The TypeScript reader undoes the Python printer on every number below 10^44, and refuses what
      is printed for any other. */
  lemma AmountReadsPrint(n: nat)
    ensures TsAmount(PyAmount(n)) == if n < TOO_WIDE then Some(n) else None
    ensures PyScaled(PyAmount(n)) == if n < TOO_WIDE then Some(n) else None
  {
    Powers();
    PyAmountRenders(n);
    ReadBack(n, 30, AMOUNT_PLACES);
  }

  /** Every accepted amount text is the one the Python printer gives for its number: there is only
      one accepted text per number, and every number below 10^44 has one. */
  lemma AmountPrintsRead(s: string)
    requires TsAmount(s).Some?
    ensures PyAmount(TsAmount(s).value) == s && TsAmount(s).value < TOO_WIDE
  {
    PyAmountRenders(TsAmount(s).value);
    PrintBack(s, 30, AMOUNT_PLACES);
    AmountReadsPrint(TsAmount(s).value);
  }

  // ----- rates -----

  lemma {:induction false} PadMore(f: string, k: nat, places: nat)
    requires |f| + k <= places
    ensures PadRight(f + Zeros(k), places) == PadRight(f, places)
  {
    var some, more := Zeros(k), Zeros(places - |f| - k);
    Padded(f, places);
    Padded(f + some, places);
    ZerosConcat(k, places - |f| - k);
    Regroup(f, some, more);
  }

  lemma Regroup(a: string, b: string, c: string)
    ensures (a + b) + c == a + (b + c)
  {
  }

  lemma {:induction false} ZerosConcat(j: nat, k: nat)
    ensures Zeros(j) + Zeros(k) == Zeros(j + k)
  {
    if j == 0 {
      assert [] + Zeros(k) == Zeros(k);
    } else {
      ZerosConcat(j - 1, k);
      assert "0" + Zeros(j - 1) + Zeros(k) == "0" + (Zeros(j - 1) + Zeros(k));
    }
  }

  /** The canonical spelling drops the fraction's trailing zeros, and the point with an empty fraction. */
  lemma CanonizedParts(s: string, whole: string, fraction: string)
    requires s == whole + "." + fraction && '.' !in whole && whole != [] && AllDigits(fraction)
    ensures var f := StripZeros(fraction); Canonized(s) == if f == [] then whole else whole + "." + f
  {
    var f := StripZeros(fraction);
    assert s[|whole|] == '.';
    if f == [] {
      StripKeeps(fraction);
      ZerosAre(fraction);
      StripOfPad(whole + ".", |fraction|);
      assert (whole + ".")[..|whole|] == whole;
    } else {
      StripConcat(whole + ".", fraction);
      StripKeeps(fraction);
      var stripped := StripZeros(s);
      assert stripped == whole + "." + f && stripped[|stripped| - 1] == f[|f| - 1];
    }
  }

  /** The canonical spelling of a rate is a rate, is canonical, and stands for the same number. */
  lemma CanonizedRate(s: string)
    requires Grammar(s, 9, RATE_PLACES)
    ensures var t := Canonized(s); Grammar(t, 9, RATE_PLACES) && Canonical(t) && Scaled(t, RATE_PLACES) == Scaled(s, RATE_PLACES)
  {
    var (whole, fraction) := Point(s);
    PointParts(s);
    if fraction.Some? {
      assert s[|whole|] == '.';
      var f := StripZeros(fraction.value);
      StripKeeps(fraction.value);
      CanonizedParts(s, whole, fraction.value);
      PointOf(whole, f);
      StripThenPad(fraction.value);
      Padded(f, |fraction.value|);
      PadMore(f, |fraction.value| - |f|, RATE_PLACES);
      CanonicalParts(Canonized(s));
    }
  }

  /** The canonical rate keeps the coefficient, is read by the TypeScript grammar as that coefficient,
      and is its own canonical form. */
  lemma CanonicalRateKept(s: string)
    requires PyRate(s).Some?
    ensures var t := PyRate(s).value;
            && TsRate(t) == Some(PyCoefficient(s)) && Grammar(t, 9, RATE_PLACES) && PyCoefficient(t) == PyCoefficient(s)
            && PyRate(t) == Some(t)
  {
    var t := Canonized(s);
    CanonizedRate(s);
    CanonizedRate(t);
    PrintBack(t, 9, RATE_PLACES);
    PrintBack(Canonized(t), 9, RATE_PLACES);
  }

  /** Two rates are spelled the same after canonicalization exactly when they are the same number. */
  lemma SameRateIff(s: string, t: string)
    requires PyRate(s).Some? && PyRate(t).Some?
    ensures PyRate(s) == PyRate(t) <==> PyCoefficient(s) == PyCoefficient(t)
  {
    CanonizedRate(s);
    CanonizedRate(t);
    PrintBack(Canonized(s), 9, RATE_PLACES);
    PrintBack(Canonized(t), 9, RATE_PLACES);
  }

  /** A coefficient is below 10^17, so the reader's widths hold every rate. */
  lemma CoefficientBound(s: string)
    requires Grammar(s, 9, RATE_PLACES)
    ensures PyCoefficient(s) < Shift(Pow10(9), RATE_PLACES)
  {
    var (whole, fraction) := Point(s);
    ValueBound(whole);
    PowerOrder(|whole|, 9);
    var f := if fraction.Some? then fraction.value else [];
    ValueBound(PadRight(f, RATE_PLACES));
    ShiftOrder(Value(whole), Pow10(9), RATE_PLACES, Value(PadRight(f, RATE_PLACES)));
  }

  lemma {:induction false} PowerOrder(j: nat, k: nat)
    requires j <= k
    ensures Pow10(j) <= Pow10(k)
    decreases k
  {
    if j < k { PowerOrder(j, k - 1); }
  }

  /** Every coefficient below 10^17 has a text, which both sides read as that coefficient and which is
      its own canonical form. */
  lemma CoefficientHasText(n: nat)
    requires n < Shift(Pow10(9), RATE_PLACES)
    ensures var t := Render(n, RATE_PLACES); PyRate(t) == Some(t) && PyCoefficient(t) == n && TsRate(t) == Some(n)
  {
    var t := Render(n, RATE_PLACES);
    ReadBack(n, 9, RATE_PLACES);
    CanonizedRate(t);
    PrintBack(Canonized(t), 9, RATE_PLACES);
  }

  /** The TypeScript side reads exactly the canonical texts: those that the Python side leaves as they are. */
  lemma CanonicalRatesAreRead(s: string)
    ensures TsRate(s).Some? <==> PyRate(s) == Some(s)
    ensures TsRate(s).Some? ==> TsRate(s) == Some(PyCoefficient(s))
  {
    if TsRate(s).Some? {
      CanonizedRate(s);
      PrintBack(s, 9, RATE_PLACES);
      PrintBack(Canonized(s), 9, RATE_PLACES);
    } else if PyRate(s) == Some(s) {
      CanonicalRateKept(s);
    }
  }
}
