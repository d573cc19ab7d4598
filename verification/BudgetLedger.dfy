/** The shared request ledger of the bounded canary (bench/cny_budget.py).

    Every public method is one `BEGIN IMMEDIATE` transaction, so each one is a single atomic
    step here.  Amounts are whole micro-CNY; `CostIsExact` shows that the decimal arithmetic
    of the source never rounds, so nothing is lost by that choice. */
module BudgetLedger {
  import opened Basics

  type RunKey = string

  const MAX_INPUT_TOKENS := 1_048_576
  const MAX_TOKENS := 4096
  const INPUT_PRICE := 2
  const OUTPUT_PRICE := 8
  const TOTAL := 10_000_000
  const RESERVE := 2_129_920

  datatype AttemptState = Pending | Settled(charged: int, prompt: int, completion: int)
  datatype Attempt = Attempt(runKey: RunKey, reserved: int, state: AttemptState)
  datatype Claim = Active | Complete
  datatype Ledger = Ledger(attempts: seq<Attempt>, claims: map<RunKey, Claim>)

  datatype Stop =
    | BudgetUnsettled
    | BudgetExhausted
    | BudgetOrphanedRun
    | UsageBoundViolation
    | NotPending
    | NotActive

  datatype Account = Unknown | Known(cost: int, prompt: int, completion: int)
  datatype Summary = Summary(charged: int, held: int, available: int, requestCount: nat, blockedUnknown: bool)

  // ----- cost -----

  function Cost(prompt: int, completion: int): int {
    INPUT_PRICE * prompt + OUTPUT_PRICE * completion
  }

  /** Decimal.quantize(Decimal("0.000001")) under the default rounding mode, half to even. */
  function RoundHalfEven(x: real): int {
    var low := x.Floor;
    var rest := x - low as real;
    if rest < 0.5 || (rest == 0.5 && low % 2 == 0) then low else low + 1
  }

  function DecimalCost(prompt: int, completion: int): real {
    var yuan := (prompt as real * INPUT_PRICE as real + completion as real * OUTPUT_PRICE as real) / 1_000_000.0;
    RoundHalfEven(yuan * 1_000_000.0) as real / 1_000_000.0
  }

  /** The quantize step never rounds: the decimal cost is exactly a whole number of micro-CNY. */
  lemma CostIsExact(prompt: int, completion: int)
    ensures DecimalCost(prompt, completion) == Cost(prompt, completion) as real / 1_000_000.0
  {
    var micro := prompt as real * INPUT_PRICE as real + completion as real * OUTPUT_PRICE as real;
    assert micro == Cost(prompt, completion) as real;
    assert micro / 1_000_000.0 * 1_000_000.0 == micro;
    assert (Cost(prompt, completion) as real).Floor == Cost(prompt, completion);
  }

  predicate WithinBounds(prompt: int, completion: int) {
    0 <= prompt <= MAX_INPUT_TOKENS && 0 <= completion <= MAX_TOKENS
  }

  // ----- the transactions, as functions of the stored rows -----

  predicate AllSettled(attempts: seq<Attempt>) {
    forall a | a in attempts :: a.state.Settled?
  }

  predicate AnyActive(l: Ledger) {
    exists k | k in l.claims :: l.claims[k] == Active
  }

  predicate HasAttempt(l: Ledger, key: RunKey) {
    exists a | a in l.attempts :: a.runKey == key
  }

  function Charged(attempts: seq<Attempt>): int {
    if attempts == [] then 0
    else Charged(attempts[..|attempts| - 1]) + ChargedBy(attempts[|attempts| - 1])
  }

  function ChargedBy(a: Attempt): int {
    if a.state.Settled? then a.state.charged else 0
  }

  function Held(attempts: seq<Attempt>): int {
    if attempts == [] then 0
    else Held(attempts[..|attempts| - 1]) + HeldBy(attempts[|attempts| - 1])
  }

  function HeldBy(a: Attempt): int {
    if a.state.Pending? then a.reserved else 0
  }

  function Reserved(l: Ledger, key: RunKey): Result<Ledger, Stop> {
    if !AllSettled(l.attempts) then Err(BudgetUnsettled)
    else if Charged(l.attempts) + RESERVE > TOTAL then Err(BudgetExhausted)
    else Ok(l.(attempts := l.attempts + [Attempt(key, RESERVE, Pending)]))
  }

  function SettledAs(l: Ledger, id: nat, prompt: int, completion: int): Result<Ledger, Stop> {
    if !WithinBounds(prompt, completion) then Err(UsageBoundViolation)
    else if id >= |l.attempts| || !l.attempts[id].state.Pending? then Err(NotPending)
    else Ok(l.(attempts := l.attempts[id := l.attempts[id].(state := Settled(Cost(prompt, completion), prompt, completion))]))
  }

  function Claimed(l: Ledger, key: RunKey): Result<Ledger, Stop> {
    if HasAttempt(l, key) || key in l.claims then Err(BudgetOrphanedRun)
    else if AnyActive(l) || !AllSettled(l.attempts) then Err(BudgetUnsettled)
    else Ok(l.(claims := l.claims[key := Active]))
  }

  function Finished(l: Ledger, key: RunKey): Result<Ledger, Stop> {
    if key in l.claims && l.claims[key] == Active then Ok(l.(claims := l.claims[key := Complete]))
    else Err(NotActive)
  }

  function Rows(attempts: seq<Attempt>, key: RunKey): seq<Attempt> {
    if attempts == [] then []
    else
      var last := attempts[|attempts| - 1];
      Rows(attempts[..|attempts| - 1], key) + (if last.runKey == key then [last] else [])
  }

  function Prompts(rows: seq<Attempt>): int {
    if rows == [] then 0
    else
      var last := rows[|rows| - 1];
      Prompts(rows[..|rows| - 1]) + (if last.state.Settled? then last.state.prompt else 0)
  }

  function Completions(rows: seq<Attempt>): int {
    if rows == [] then 0
    else
      var last := rows[|rows| - 1];
      Completions(rows[..|rows| - 1]) + (if last.state.Settled? then last.state.completion else 0)
  }

  function AccountOf(l: Ledger, key: RunKey): Account {
    var rows := Rows(l.attempts, key);
    if !AllSettled(rows) then Unknown else Known(Charged(rows), Prompts(rows), Completions(rows))
  }

  function SummaryOf(l: Ledger): Summary {
    var charged := Charged(l.attempts);
    var held := Held(l.attempts);
    Summary(charged, held, TOTAL - charged - held, |l.attempts|, !AllSettled(l.attempts) || AnyActive(l))
  }

  lemma SettledAppend(rows: seq<Attempt>, a: Attempt)
    ensures AllSettled(rows + [a]) <==> AllSettled(rows) && a.state.Settled?
  {
    assert a in rows + [a];
    assert forall b | b in rows :: b in rows + [a];
  }

  /** One more row in the scan of `RunAccount`. */
  lemma AccountNext(attempts: seq<Attempt>, i: nat, key: RunKey)
    requires i < |attempts|
    ensures var rows, next := Rows(attempts[..i], key), Rows(attempts[..i + 1], key);
            if attempts[i].runKey != key then next == rows
            else
              && (AllSettled(next) <==> AllSettled(rows) && attempts[i].state.Settled?)
              && (attempts[i].state.Settled? ==>
                    && Charged(next) == Charged(rows) + attempts[i].state.charged
                    && Prompts(next) == Prompts(rows) + attempts[i].state.prompt
                    && Completions(next) == Completions(rows) + attempts[i].state.completion)
  {
    var rows := Rows(attempts[..i], key);
    assert attempts[..i + 1][..i] == attempts[..i];
    if attempts[i].runKey == key {
      assert (rows + [attempts[i]])[..|rows|] == rows;
      SettledAppend(rows, attempts[i]);
    }
  }

  // ----- the ledger object -----

  class CnyBudgetLedger {
    var attempts: seq<Attempt>
    var claims: map<RunKey, Claim>

    ghost function View(): Ledger
      reads this
    {
      Ledger(attempts, claims)
    }

    constructor ()
      ensures View() == Ledger([], map[])
    {
      attempts, claims := [], map[];
    }

    method Reserve(key: RunKey) returns (r: Result<nat, Stop>)
      modifies this`attempts
      ensures match Reserved(old(View()), key)
              case Ok(after) => View() == after && r == Ok(|old(attempts)|)
              case Err(e) => View() == old(View()) && r == Err(e)
    {
      if !AllSettled(attempts) {
        return Err(BudgetUnsettled);
      }
      var spent := Charged(attempts);
      if spent + Cost(MAX_INPUT_TOKENS, MAX_TOKENS) > TOTAL {
        return Err(BudgetExhausted);
      }
      r := Ok(|attempts|);
      attempts := attempts + [Attempt(key, Cost(MAX_INPUT_TOKENS, MAX_TOKENS), Pending)];
    }

    method Settle(id: nat, prompt: int, completion: int) returns (r: Result<int, Stop>)
      modifies this`attempts
      ensures match SettledAs(old(View()), id, prompt, completion)
              case Ok(after) => View() == after && r == Ok(Cost(prompt, completion))
              case Err(e) => View() == old(View()) && r == Err(e)
    {
      if !(0 <= prompt <= MAX_INPUT_TOKENS && 0 <= completion <= MAX_TOKENS) {
        return Err(UsageBoundViolation);
      }
      var amount := Cost(prompt, completion);
      if id >= |attempts| || attempts[id].state.Settled? {
        return Err(NotPending);
      }
      attempts := attempts[id := attempts[id].(state := Settled(amount, prompt, completion))];
      r := Ok(amount);
    }

    method ClaimRun(key: RunKey) returns (r: Result<(), Stop>)
      modifies this`claims
      ensures match Claimed(old(View()), key)
              case Ok(after) => View() == after && r == Ok(())
              case Err(e) => View() == old(View()) && r == Err(e)
    {
      if (exists a | a in attempts :: a.runKey == key) || key in claims {
        return Err(BudgetOrphanedRun);
      }
      if (exists k | k in claims :: claims[k] == Active) || !AllSettled(attempts) {
        return Err(BudgetUnsettled);
      }
      claims := claims[key := Active];
      r := Ok(());
    }

    method FinishRun(key: RunKey) returns (r: Result<(), Stop>)
      modifies this`claims
      ensures match Finished(old(View()), key)
              case Ok(after) => View() == after && r == Ok(())
              case Err(e) => View() == old(View()) && r == Err(e)
    {
      if key !in claims || claims[key] != Active {
        return Err(NotActive);
      }
      claims := claims[key := Complete];
      r := Ok(());
    }

    /** Adds up one run's rows; the loop is the row scan behind the three sums of the source. */
    method RunAccount(key: RunKey) returns (account: Account)
      ensures account == AccountOf(View(), key)
    {
      var cost, prompt, completion, known := 0, 0, 0, true;
      var i := 0;
      while i < |attempts|
        invariant 0 <= i <= |attempts|
        invariant known == AllSettled(Rows(attempts[..i], key))
        invariant known ==> cost == Charged(Rows(attempts[..i], key))
        invariant known ==> prompt == Prompts(Rows(attempts[..i], key))
        invariant known ==> completion == Completions(Rows(attempts[..i], key))
      {
        AccountNext(attempts, i, key);
        if attempts[i].runKey == key {
          match attempts[i].state {
            case Pending => known := false;
            case Settled(c, p, q) => cost, prompt, completion := cost + c, prompt + p, completion + q;
          }
        }
        i := i + 1;
      }
      assert attempts[..i] == attempts;
      account := if known then Known(cost, prompt, completion) else Unknown;
    }

    method Summarize() returns (s: Summary)
      ensures s == SummaryOf(View())
    {
      var charged, held := Charged(attempts), Held(attempts);
      s := Summary(charged, held, TOTAL - charged - held, |attempts|,
                   !AllSettled(attempts) || exists k | k in claims :: claims[k] == Active);
    }
  }

  // ----- safety over every history of transactions -----

  datatype Transaction =
    | DoReserve(key: RunKey)
    | DoSettle(id: nat, prompt: int, completion: int)
    | DoClaim(key: RunKey)
    | DoFinish(key: RunKey)

  function Commit(l: Ledger, t: Transaction): Ledger {
    var outcome :=
      match t
      case DoReserve(key) => Reserved(l, key)
      case DoSettle(id, prompt, completion) => SettledAs(l, id, prompt, completion)
      case DoClaim(key) => Claimed(l, key)
      case DoFinish(key) => Finished(l, key);
    if outcome.Ok? then outcome.value else l
  }

  function History(ts: seq<Transaction>): Ledger {
    if ts == [] then Ledger([], map[]) else Commit(History(ts[..|ts| - 1]), ts[|ts| - 1])
  }

  ghost predicate ExactRow(a: Attempt) {
    && a.reserved == RESERVE
    && (a.state.Settled? ==>
          && WithinBounds(a.state.prompt, a.state.completion)
          && a.state.charged == Cost(a.state.prompt, a.state.completion))
  }

  /** Only the newest attempt can be unsettled, every charge is the exact cost of bounded usage,
      and charges plus held reservations fit the total. */
  ghost predicate Safe(l: Ledger) {
    && (forall i | 0 <= i < |l.attempts| - 1 :: l.attempts[i].state.Settled?)
    && (forall i | 0 <= i < |l.attempts| :: ExactRow(l.attempts[i]))
    && 0 <= Charged(l.attempts)
    && 0 <= Held(l.attempts)
    && Charged(l.attempts) + Held(l.attempts) <= TOTAL
  }

  lemma {:induction false} NothingHeld(attempts: seq<Attempt>)
    requires AllSettled(attempts)
    ensures Held(attempts) == 0
  {
    if attempts != [] {
      assert attempts[|attempts| - 1] in attempts;
      forall a | a in attempts[..|attempts| - 1] ensures a.state.Settled? { assert a in attempts; }
      NothingHeld(attempts[..|attempts| - 1]);
    }
  }

  lemma CommitKeepsSafe(l: Ledger, t: Transaction)
    requires Safe(l)
    ensures Safe(Commit(l, t))
  {
    match t {
      case DoReserve(key) =>
        if Reserved(l, key).Ok? {
          var a := Attempt(key, RESERVE, Pending);
          assert (l.attempts + [a])[..|l.attempts|] == l.attempts;
          NothingHeld(l.attempts);
          assert forall i | 0 <= i < |l.attempts| :: l.attempts[i] in l.attempts;
        }
      case DoSettle(id, prompt, completion) =>
        var r := SettledAs(l, id, prompt, completion);
        if r.Ok? {
          var n := |l.attempts| - 1;
          assert id == n;
          assert r.value.attempts[..n] == l.attempts[..n];
          assert AllSettled(l.attempts[..n]);
          NothingHeld(l.attempts[..n]);
          assert 0 <= Cost(prompt, completion) <= RESERVE;
        }
      case DoClaim(_) =>
      case DoFinish(_) =>
    }
  }

  /** In every reachable ledger at most one attempt is unsettled and the charged plus held amount
      is at most 10 CNY, so the published available amount is never negative. */
  lemma {:induction false} LedgerSafety(ts: seq<Transaction>)
    ensures Safe(History(ts))
    ensures 0 <= SummaryOf(History(ts)).available <= TOTAL
    ensures forall i, j | 0 <= i < |History(ts).attempts| && 0 <= j < |History(ts).attempts| ::
              History(ts).attempts[i].state.Pending? && History(ts).attempts[j].state.Pending? ==> i == j
  {
    if ts != [] {
      LedgerSafety(ts[..|ts| - 1]);
      CommitKeepsSafe(History(ts[..|ts| - 1]), ts[|ts| - 1]);
    }
  }

  /** A reservation is refused for money exactly when its worst case could break the total: with a
      settled ledger one more worst-case attempt fits if and only if it is granted. */
  lemma RefusedOnlyWhenWorstCaseDoesNotFit(l: Ledger, key: RunKey)
    requires AllSettled(l.attempts)
    ensures Reserved(l, key).Err? <==>
            Charged(l.attempts + [Attempt(key, RESERVE, Settled(Cost(MAX_INPUT_TOKENS, MAX_TOKENS), MAX_INPUT_TOKENS, MAX_TOKENS))]) > TOTAL
  {
    var worst := Attempt(key, RESERVE, Settled(Cost(MAX_INPUT_TOKENS, MAX_TOKENS), MAX_INPUT_TOKENS, MAX_TOKENS));
    assert (l.attempts + [worst])[..|l.attempts|] == l.attempts;
  }

  lemma {:induction false} ChargedUpdate(attempts: seq<Attempt>, id: nat, a: Attempt)
    requires id < |attempts|
    ensures Charged(attempts[id := a]) == Charged(attempts) - ChargedBy(attempts[id]) + ChargedBy(a)
    ensures Held(attempts[id := a]) == Held(attempts) - HeldBy(attempts[id]) + HeldBy(a)
  {
    var last := |attempts| - 1;
    if id == last {
      assert attempts[id := a][..last] == attempts[..last];
    } else {
      assert attempts[id := a][..last] == attempts[..last][id := a];
      ChargedUpdate(attempts[..last], id, a);
    }
  }

  lemma {:induction false} HeldIsPending(attempts: seq<Attempt>)
    requires forall i | 0 <= i < |attempts| - 1 :: attempts[i].state.Settled?
    requires forall i | 0 <= i < |attempts| :: ExactRow(attempts[i])
    ensures Held(attempts) == if AllSettled(attempts) then 0 else 2_129_920
  {
    if AllSettled(attempts) {
      NothingHeld(attempts);
    } else {
      var init := attempts[..|attempts| - 1];
      assert AllSettled(init);
      NothingHeld(init);
      SettledAppend(init, attempts[|attempts| - 1]);
      assert attempts == init + [attempts[|attempts| - 1]];
    }
  }

  /** Which transaction is refused with what, exactly, in the order the checks are made. */
  lemma RefusedExactly(l: Ledger, key: RunKey, id: nat, prompt: int, completion: int)
    ensures var unsettled := exists a :: a in l.attempts && a.state.Pending?;
            var active := exists k :: k in l.claims && l.claims[k] == Active;
            var known := key in l.claims || exists a :: a in l.attempts && a.runKey == key;
            var bounded := 0 <= prompt <= 1_048_576 && 0 <= completion <= 4096;
            && (Reserved(l, key) == Err(BudgetUnsettled) <==> unsettled)
            && (Reserved(l, key) == Err(BudgetExhausted) <==> !unsettled && Charged(l.attempts) + 2_129_920 > 10_000_000)
            && (Reserved(l, key).Ok? <==> !unsettled && Charged(l.attempts) + 2_129_920 <= 10_000_000)
            && (SettledAs(l, id, prompt, completion) == Err(UsageBoundViolation) <==> !bounded)
            && (SettledAs(l, id, prompt, completion) == Err(NotPending) <==>
                  bounded && !(id < |l.attempts| && l.attempts[id].state.Pending?))
            && (Claimed(l, key) == Err(BudgetOrphanedRun) <==> known)
            && (Claimed(l, key) == Err(BudgetUnsettled) <==> !known && (active || unsettled))
            && (Claimed(l, key).Ok? <==> !known && !active && !unsettled)
            && (Finished(l, key) == Err(NotActive) <==> !(key in l.claims && l.claims[key] == Active))
            && (Finished(l, key).Err? ==> Finished(l, key) == Err(NotActive))
  {
  }

  /** What the summary of a ledger shows, over every history: the three amounts add up to 10 CNY, one
      worst case is held while a request is unsettled and nothing otherwise, and it says blocked exactly
      if a run with a key of its own could not be claimed. */
  lemma SummaryTells(ts: seq<Transaction>, other: RunKey)
    requires !HasAttempt(History(ts), other) && other !in History(ts).claims
    ensures var l := History(ts);
            var s := SummaryOf(l);
            && s.charged + s.held + s.available == 10_000_000
            && s.held == (if exists a :: a in l.attempts && a.state.Pending? then 2_129_920 else 0)
            && s.requestCount == |l.attempts|
            && (s.blockedUnknown <==> Claimed(l, other).Err?)
  {
    LedgerSafety(ts);
    HeldIsPending(History(ts).attempts);
  }

  /** What each transaction adds to the charged amount of the summary: a settlement its exact cost,
      anything else nothing; it starts at nothing. */
  lemma ChargedAddsUp(ts: seq<Transaction>, t: Transaction)
    ensures SummaryOf(History([])).charged == 0
    ensures var before, after := History(ts), Commit(History(ts), t);
            SummaryOf(after).charged - SummaryOf(before).charged ==
            if after.attempts != before.attempts && t.DoSettle? then 2 * t.prompt + 8 * t.completion else 0
  {
    LedgerSafety(ts);
    var l := History(ts);
    match t {
      case DoReserve(key) =>
        if Reserved(l, key).Ok? { assert (l.attempts + [Attempt(key, RESERVE, Pending)])[..|l.attempts|] == l.attempts; }
      case DoSettle(id, prompt, completion) =>
        if SettledAs(l, id, prompt, completion).Ok? {
          ChargedUpdate(l.attempts, id, l.attempts[id].(state := Settled(Cost(prompt, completion), prompt, completion)));
          assert Commit(l, t).attempts[id] != l.attempts[id];
        }
      case _ =>
    }
  }
}
