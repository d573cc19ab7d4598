/** The `execute_runs` loop itself, on the ledger and store objects.  It starts in any state that
    runners can have reached together, and every step it takes is an own step of one new worker of
    that system, so the theorems over all reachable states hold for the loop. */
module ExecuteRuns {
  import opened Basics
  import opened BudgetLedger
  import opened RunMatrix
  import opened RunMatrixSafety

  /** What one runner does: the provider turns it asks for with their outcomes, then how it ends. */
  datatype RunnerPlan = RunnerPlan(turns: seq<(bool, Reply)>, ending: Ending)

  /** What the turns of a plan use, in micro-CNY and tokens. */
  datatype Use = Use(cost: int, input: int, output: int)

  function Used(turns: seq<(bool, Reply)>): Use {
    if turns == [] then Use(0, 0, 0)
    else
      var u, reply := Used(turns[..|turns| - 1]), turns[|turns| - 1].1;
      if reply.Usage? then Use(u.cost + 2 * reply.prompt + 8 * reply.completion, u.input + reply.prompt, u.output + reply.completion)
      else u
  }

  /** Every turn sends the frozen request, fits its worst case of 2 129 920 micro-CNY under 10 CNY, and
      is answered with usage inside both bounds. */
  predicate Affordable(charged: int, turns: seq<(bool, Reply)>) {
    turns == [] ||
    var (drift, reply) := turns[|turns| - 1];
    && Affordable(charged, turns[..|turns| - 1])
    && !drift && charged + Used(turns[..|turns| - 1]).cost + 2_129_920 <= 10_000_000
    && reply.Usage? && 0 <= reply.prompt <= 1_048_576 && 0 <= reply.completion <= 4096
  }

  /** An ending after which the batch goes on, if its turns were affordable. */
  predicate EndsWell(ending: Ending) {
    ending.Returned? && (ending.other.Some? ==> ending.other.value != RequestDrift && !ending.other.value.Refused?)
  }

  /** What a run is recorded as when its turns were affordable and its ending lets the batch go on. */
  function Earned(key: RunKey, plan: RunnerPlan): Record
    requires plan.ending.Returned?
  {
    var u := Used(plan.turns);
    Record(key, plan.ending.completed,
           if plan.ending.other.Some? then plan.ending.other else if plan.ending.completed then None else Some(RuntimeFailed),
           Some((u.input, u.output)), Some(u.cost))
  }

  predicate Own(e: Event, n: nat) {
    e == Go(n) || (e.Send? && e.w == n) || (e.Answer? && e.w == n) || (e.Finish? && e.w == n)
  }

  /** `trace` continues `root` with own steps of worker `n`. */
  ghost predicate Continues(root: seq<Event>, trace: seq<Event>, n: nat) {
    root <= trace && forall i | |root| <= i < |trace| :: Own(trace[i], n)
  }

  /** The objects show the state after `trace`, and worker `n` of it is this loop. */
  ghost predicate Tracks(trace: seq<Event>, n: nat, budget: CnyBudgetLedger, store: ResultStore,
                         runs: seq<RunKey>, results: seq<Record>, pc: Pc)
    reads budget, store
  {
    var s := Exec(EMPTY, trace);
    && s.ledger == budget.View()
    && s.store == store.runs
    && n < |s.workers| && s.workers[n] == Worker(store.dir, runs, results, pc)
  }

  lemma Next(root: seq<Event>, trace: seq<Event>, n: nat, e: Event)
    requires Continues(root, trace, n) && Own(e, n)
    ensures Continues(root, trace + [e], n)
    ensures Exec(EMPTY, trace + [e]) == Apply(Exec(EMPTY, trace), e)
  {
    ExecSnoc(EMPTY, trace, e);
  }

  lemma AccountStep(s: Sys, n: nat, w: Worker, seen: Observation)
    requires n < |s.workers| && s.workers[n] == w && w.pc == AtAccount(seen) && HasKey(w)
    ensures Apply(s, Go(n)) == Put(s, n, w.(pc := AtSave(RecordOf(Key(w), seen, AccountOf(s.ledger, Key(w))))))
  {
  }

  lemma SaveStep(s: Sys, n: nat, w: Worker, value: Record)
    requires n < |s.workers| && s.workers[n] == w && w.pc == AtSave(value) && HasKey(w)
    requires value.key == Key(w) && (w.dir, Key(w)) !in s.store
    ensures Apply(s, Go(n)) == Put(s, n, w.(pc := AtFinish(value))).(store := s.store[(w.dir, Key(w)) := value])
  {
  }

  lemma FinishStep(s: Sys, n: nat, w: Worker, value: Record)
    requires n < |s.workers| && s.workers[n] == w && w.pc == AtFinish(value) && HasKey(w)
    ensures Apply(s, Go(n)) ==
            match Finished(s.ledger, Key(w))
            case Err(_) => Put(s, n, w.(pc := Stopped))
            case Ok(after) =>
              Put(s, n, w.(results := w.results + [value], pc := if StopsBatch(value) then Stopped else AtLoad))
                 .(ledger := after)
  {
  }

  /** The wrapper counts exactly `u`, which the settled ledger holds on top of `charged`. */
  ghost predicate Counts(l: Ledger, w: Wrapper, charged: int, u: Use) {
    w == Wrapper(u.cost, u.input, u.output, true, None) && AllSettled(l.attempts) && Charged(l.attempts) == charged + u.cost
  }

  /** The wrapper refuses every further turn, in a way that stops the batch. */
  predicate Stuck(w: Wrapper) {
    w.failure.Some? && (w.failure.value == RequestDrift || w.failure.value.Refused? || !w.usageComplete)
  }

  /** The wrapper and the ledger after some turns: all settled and counted, or stopped for good. */
  ghost predicate Driven(l: Ledger, w: Wrapper, charged: int, turns: seq<(bool, Reply)>) {
    if Affordable(charged, turns) then Counts(l, w, charged, Used(turns)) else Stuck(w)
  }

  /** The ledger and wrapper that NextTurn leaves. */
  function Turned(l: Ledger, w: Wrapper, key: RunKey, drift: bool, reply: Reply): (Ledger, Wrapper) {
    var begun := BeginTurn(l, w, key, drift);
    if begun.call.Some? then EndTurn(begun.ledger, begun.wrapper, begun.call.value, reply) else (begun.ledger, begun.wrapper)
  }

  lemma UsedSnoc(charged: int, turns: seq<(bool, Reply)>, drift: bool, reply: Reply)
    ensures var u, after := Used(turns), Used(turns + [(drift, reply)]);
            after == if reply.Usage? then Use(u.cost + 2 * reply.prompt + 8 * reply.completion, u.input + reply.prompt, u.output + reply.completion) else u
    ensures Affordable(charged, turns + [(drift, reply)]) <==>
            && Affordable(charged, turns) && !drift && charged + Used(turns).cost + 2_129_920 <= 10_000_000
            && reply.Usage? && 0 <= reply.prompt <= 1_048_576 && 0 <= reply.completion <= 4096
  {
    assert (turns + [(drift, reply)])[..|turns|] == turns;
  }

  lemma SettledTurn(l: Ledger, w: Wrapper, key: RunKey, prompt: int, completion: int)
    requires w.failure.None? && Reserved(l, key).Ok? && WithinBounds(prompt, completion)
    ensures var (after, next) := Turned(l, w, key, false, Usage(prompt, completion));
            && after.attempts == l.attempts + [Attempt(key, RESERVE, Settled(Cost(prompt, completion), prompt, completion))]
            && next == w.(cost := w.cost + Cost(prompt, completion), input := w.input + prompt, output := w.output + completion)
  {
    var a := Attempt(key, RESERVE, Pending);
    var b := Attempt(key, RESERVE, Settled(Cost(prompt, completion), prompt, completion));
    assert (l.attempts + [a])[|l.attempts| := b] == l.attempts + [b];
  }

  lemma OneMoreSettled(rows: seq<Attempt>, b: Attempt, more: seq<Attempt>)
    requires AllSettled(rows) && b.state.Settled? && more == rows + [b]
    ensures AllSettled(more) && Charged(more) == Charged(rows) + b.state.charged
  {
    SettledAppend(rows, b);
    SumsAppend(rows, b);
  }

  lemma MayReserve(l: Ledger, key: RunKey, charged: int)
    requires AllSettled(l.attempts) && Charged(l.attempts) == charged
    ensures Reserved(l, key).Ok? <==> charged + RESERVE <= TOTAL
  {
  }

  lemma CountsMore(l: Ledger, w: Wrapper, charged: int, u: Use, b: Attempt, after: Ledger, next: Wrapper)
    requires Counts(l, w, charged, u) && b.state.Settled? && after.attempts == l.attempts + [b]
    requires next == w.(cost := w.cost + b.state.charged, input := w.input + b.state.prompt, output := w.output + b.state.completion)
    ensures Counts(after, next, charged, Use(u.cost + b.state.charged, u.input + b.state.prompt, u.output + b.state.completion))
  {
    OneMoreSettled(l.attempts, b, after.attempts);
  }

  lemma GoodTurn(l: Ledger, w: Wrapper, key: RunKey, charged: int, u: Use, prompt: int, completion: int, after: Ledger, next: Wrapper)
    requires Counts(l, w, charged, u) && charged + u.cost + RESERVE <= TOTAL && WithinBounds(prompt, completion)
    requires (after, next) == Turned(l, w, key, false, Usage(prompt, completion))
    ensures Counts(after, next, charged, Use(u.cost + Cost(prompt, completion), u.input + prompt, u.output + completion))
  {
    MayReserve(l, key, charged + u.cost);
    SettledTurn(l, w, key, prompt, completion);
    CountsMore(l, w, charged, u, Attempt(key, RESERVE, Settled(Cost(prompt, completion), prompt, completion)), after, next);
  }

  lemma BadTurn(l: Ledger, w: Wrapper, key: RunKey, charged: int, u: Use, drift: bool, reply: Reply)
    requires Counts(l, w, charged, u)
    requires !(!drift && charged + u.cost + RESERVE <= TOTAL && reply.Usage? && WithinBounds(reply.prompt, reply.completion))
    ensures Stuck(Turned(l, w, key, drift, reply).1)
  {
    var begun := BeginTurn(l, w, key, drift);
    if begun.call.Some? {
      assert begun.ledger.attempts[|l.attempts|] == Attempt(key, RESERVE, Pending);
    }
  }

  lemma TurnDrives(l: Ledger, w: Wrapper, key: RunKey, charged: int, turns: seq<(bool, Reply)>, drift: bool, reply: Reply)
    requires Driven(l, w, charged, turns)
    ensures var (after, next) := Turned(l, w, key, drift, reply); Driven(after, next, charged, turns + [(drift, reply)])
  {
    UsedSnoc(charged, turns, drift, reply);
    if Affordable(charged, turns + [(drift, reply)]) {
      var (after, next) := Turned(l, w, key, drift, reply);
      GoodTurn(l, w, key, charged, Used(turns), reply.prompt, reply.completion, after, next);
    } else if Affordable(charged, turns) {
      BadTurn(l, w, key, charged, Used(turns), drift, reply);
    }
  }

  /** One provider turn. */
  method DriveTurn(provider: UsageProvider, store: ResultStore, drift: bool, reply: Reply, runs: seq<RunKey>,
                   results: seq<Record>, ghost n: nat, ghost root: seq<Event>, ghost before: seq<Event>)
    returns (ghost trace: seq<Event>)
    requires |results| < |runs| && provider.runKey == runs[|results|] && Continues(root, before, n)
    requires Tracks(before, n, provider.budget, store, runs, results, Running(provider.View(), Idle))
    modifies provider, provider.budget`attempts
    ensures Continues(root, trace, n)
    ensures Tracks(trace, n, provider.budget, store, runs, results, Running(provider.View(), Idle))
    ensures (provider.budget.View(), provider.View()) ==
            Turned(old(provider.budget.View()), old(provider.View()), provider.runKey, drift, reply)
  {
    ghost var was, w := Exec(EMPTY, before), Worker(store.dir, runs, results, Running(provider.View(), Idle));
    var sent := provider.NextTurn(drift, reply);
    Next(root, before, n, Send(n, drift));
    trace := before + [Send(n, drift)];
    SentTurn(was, n, w, drift);
    if sent.Some? {
      Next(root, trace, n, Answer(n, reply));
      trace := trace + [Answer(n, reply)];
    }
  }

  lemma SentTurn(s: Sys, n: nat, w: Worker, drift: bool)
    requires n < |s.workers| && s.workers[n] == w && w.pc.Running? && w.pc.call.Idle? && HasKey(w)
    ensures var begun, t := BeginTurn(s.ledger, w.pc.wrapper, Key(w), drift), Apply(s, Send(n, drift));
            && t.ledger == begun.ledger && t.store == s.store && |t.workers| == |s.workers|
            && t.workers[n] == w.(pc := Running(begun.wrapper, if begun.call.Some? then InFlight(begun.call.value) else Idle))
  {
  }

  /** One runner: every provider turn, in order, through the wrapper. */
  method DriveRunner(provider: UsageProvider, store: ResultStore, plan: RunnerPlan, runs: seq<RunKey>, results: seq<Record>,
                     ghost n: nat, ghost root: seq<Event>, ghost before: seq<Event>)
    returns (ghost trace: seq<Event>)
    requires |results| < |runs| && provider.runKey == runs[|results|] && Continues(root, before, n)
    requires Tracks(before, n, provider.budget, store, runs, results, Running(provider.View(), Idle))
    modifies provider, provider.budget`attempts
    requires provider.View() == FRESH && AllSettled(provider.budget.attempts)
    ensures Continues(root, trace, n)
    ensures Tracks(trace, n, provider.budget, store, runs, results, Running(provider.View(), Idle))
    ensures Driven(provider.budget.View(), provider.View(), old(Charged(provider.budget.attempts)), plan.turns)
    ensures provider.budget.claims == old(provider.budget.claims)
  {
    trace := before;
    for i := 0 to |plan.turns|
      invariant Continues(root, trace, n)
      invariant Tracks(trace, n, provider.budget, store, runs, results, Running(provider.View(), Idle))
      invariant Driven(provider.budget.View(), provider.View(), old(Charged(provider.budget.attempts)), plan.turns[..i])
    {
      var (drift, reply) := plan.turns[i];
      TurnDrives(provider.budget.View(), provider.View(), provider.runKey, old(Charged(provider.budget.attempts)), plan.turns[..i], drift, reply);
      trace := DriveTurn(provider, store, drift, reply, runs, results, n, root, trace);
      assert plan.turns[..i + 1] == plan.turns[..i] + [(drift, reply)];
    }
    assert plan.turns[..|plan.turns|] == plan.turns;
  }

  /** Publish one record. */
  method Publish(runs: seq<RunKey>, results: seq<Record>, store: ResultStore, budget: CnyBudgetLedger, value: Record,
                 ghost n: nat, ghost root: seq<Event>, ghost before: seq<Event>)
    returns (ghost trace: seq<Event>)
    requires |results| < |runs| && (store.dir, runs[|results|]) !in store.runs && value.key == runs[|results|]
    requires Continues(root, before, n) && Tracks(before, n, budget, store, runs, results, AtSave(value))
    modifies store`runs
    ensures Continues(root, trace, n) && Tracks(trace, n, budget, store, runs, results, AtFinish(value))
    ensures store.runs == old(store.runs)[(store.dir, value.key) := value]
  {
    SaveStep(Exec(EMPTY, before), n, Worker(store.dir, runs, results, AtSave(value)), value);
    Next(root, before, n, Go(n));
    trace := before + [Go(n)];
    var saved := store.Save(value.key, value);
  }

  /** The holder of a published record may complete its claim. */
  lemma FinishIsGranted(trace: seq<Event>, n: nat, w: Worker, value: Record)
    requires n < |Exec(EMPTY, trace).workers| && Exec(EMPTY, trace).workers[n] == w && w.pc == AtFinish(value) && HasKey(w)
    ensures var l := Exec(EMPTY, trace).ledger; Finished(l, Key(w)) == Ok(l.(claims := l.claims[Key(w) := Claim.Complete]))
  {
    ReachableInv(trace);
    assert HolderOk(Exec(EMPTY, trace), w);
  }

  /** Complete the claim of a published record; what still stops the batch is an exception. */
  method Complete(runs: seq<RunKey>, results: seq<Record>, store: ResultStore, budget: CnyBudgetLedger, value: Record,
                  ghost n: nat, ghost root: seq<Event>, ghost before: seq<Event>)
    returns (going: bool, ghost trace: seq<Event>)
    requires |results| < |runs| && value.key == runs[|results|]
    requires Continues(root, before, n) && Tracks(before, n, budget, store, runs, results, AtFinish(value))
    modifies budget
    ensures Continues(root, trace, n)
    ensures budget.View() == old(budget.View()).(claims := old(budget.claims)[value.key := Claim.Complete])
    ensures going <==> !StopsBatch(value)
    ensures going ==> Tracks(trace, n, budget, store, runs, results + [value], AtLoad)
    ensures !going ==> Tracks(trace, n, budget, store, runs, results + [value], Stopped)
  {
    ghost var w := Worker(store.dir, runs, results, AtFinish(value));
    FinishIsGranted(before, n, w, value);
    FinishStep(Exec(EMPTY, before), n, w, value);
    Next(root, before, n, Go(n));
    trace := before + [Go(n)];
    var finished := budget.FinishRun(value.key);
    going := finished.Ok? && !StopsBatch(value);
  }

  /** After the runner: compare with the account, publish, then complete the claim. */
  method RecordRun(runs: seq<RunKey>, results: seq<Record>, store: ResultStore, budget: CnyBudgetLedger, seen: Observation,
                   ghost n: nat, ghost root: seq<Event>, ghost before: seq<Event>)
    returns (record: Option<Record>, ghost trace: seq<Event>)
    requires |results| < |runs| && (store.dir, runs[|results|]) !in store.runs
    requires Continues(root, before, n) && Tracks(before, n, budget, store, runs, results, AtAccount(seen))
    modifies store`runs, budget
    ensures Continues(root, trace, n)
    ensures var value := RecordOf(runs[|results|], seen, AccountOf(old(budget.View()), runs[|results|]));
            && store.runs == old(store.runs)[(store.dir, runs[|results|]) := value]
            && record == (if StopsBatch(value) then None else Some(value))
    ensures budget.View() == old(budget.View()).(claims := old(budget.claims)[runs[|results|] := Claim.Complete])
    ensures record.Some? ==> Tracks(trace, n, budget, store, runs, results + [record.value], AtLoad)
    ensures record.None? ==> exists rs :: Tracks(trace, n, budget, store, runs, rs, Stopped)
  {
    var key := runs[|results|];
    var account := budget.RunAccount(key);
    var value := RecordOf(key, seen, account);
    AccountStep(Exec(EMPTY, before), n, Worker(store.dir, runs, results, AtAccount(seen)), seen);
    Next(root, before, n, Go(n));
    trace := Publish(runs, results, store, budget, value, n, root, before + [Go(n)]);
    var going;
    going, trace := Complete(runs, results, store, budget, value, n, root, trace);
    record := if going then Some(value) else None;
  }

  /** What a run is recorded as: the plan's own verdict and usage if every turn was affordable and the
      ending lets the batch go on; and a record that stops the batch otherwise. */
  lemma RecordedRight(key: RunKey, plan: RunnerPlan, charged: int, l: Ledger, w: Wrapper)
    requires Driven(l, w, charged, plan.turns)
    requires w.usageComplete && AllSettled(l.attempts) ==> AccountOf(l, key) == Known(w.cost, w.input, w.output)
    ensures var r := RecordOf(key, Observe(w, plan.ending), AccountOf(l, key));
            && (StopsBatch(r) <==> !(Affordable(charged, plan.turns) && EndsWell(plan.ending)))
            && (!StopsBatch(r) ==> r == Earned(key, plan))
  {
    var account := AccountOf(l, key);
    assert Affordable(charged, plan.turns) ==> account == Known(w.cost, w.input, w.output);
  }

  /** No unsettled request, no open claim, and nothing known of the key. */
  ghost predicate Claimable(l: Ledger, key: RunKey) {
    key !in l.claims && AllSettled(l.attempts) && forall k | k in l.claims :: l.claims[k] == Claim.Complete
  }

  lemma ClaimIffClaimable(trace: seq<Event>, key: RunKey)
    ensures var l := Exec(EMPTY, trace).ledger; Claimed(l, key).Ok? <==> Claimable(l, key)
    ensures var l := Exec(EMPTY, trace).ledger; Claimed(l, key).Ok? ==> Claimed(l, key).value == l.(claims := l.claims[key := Active])
  {
    ReachableInv(trace);
  }

  lemma UsageIsAccount(trace: seq<Event>, n: nat, w: Worker)
    requires n < |Exec(EMPTY, trace).workers| && Exec(EMPTY, trace).workers[n] == w && w.pc.Running? && w.pc.call.Idle? && HasKey(w)
    ensures var l := Exec(EMPTY, trace).ledger;
            w.pc.wrapper.usageComplete && AllSettled(l.attempts) ==>
              AccountOf(l, Key(w)) == Known(w.pc.wrapper.cost, w.pc.wrapper.input, w.pc.wrapper.output)
  {
    if w.pc.wrapper.usageComplete { CompleteUsageEqualsAccount(trace, n); }
  }

  /** A claimed key: drive the runner, then record it. */
  method RunClaimed(runs: seq<RunKey>, results: seq<Record>, store: ResultStore, budget: CnyBudgetLedger, plan: RunnerPlan,
                    ghost n: nat, ghost root: seq<Event>, ghost before: seq<Event>)
    returns (record: Option<Record>, ghost trace: seq<Event>)
    requires |results| < |runs| && (store.dir, runs[|results|]) !in store.runs && AllSettled(budget.attempts)
    requires Continues(root, before, n) && Tracks(before, n, budget, store, runs, results, Running(FRESH, Idle))
    modifies store`runs, budget
    ensures Continues(root, trace, n)
    ensures record.Some? ==> Tracks(trace, n, budget, store, runs, results + [record.value], AtLoad)
    ensures record.None? ==> exists rs :: Tracks(trace, n, budget, store, runs, rs, Stopped)
    ensures record.Some? ==> store.runs == old(store.runs)[(store.dir, runs[|results|]) := record.value]
    ensures record.Some? <==> Affordable(old(Charged(budget.attempts)), plan.turns) && EndsWell(plan.ending)
    ensures record.Some? ==>
              && record.value == Earned(runs[|results|], plan) && budget.claims == old(budget.claims)[runs[|results|] := Claim.Complete]
              && AllSettled(budget.attempts) && Charged(budget.attempts) == old(Charged(budget.attempts)) + Used(plan.turns).cost
  {
    var key := runs[|results|];
    var provider := new UsageProvider(budget, key);
    ghost var charged := Charged(budget.attempts);
    trace := DriveRunner(provider, store, plan, runs, results, n, root, before);
    ghost var w := provider.View();
    UsageIsAccount(trace, n, Worker(store.dir, runs, results, Running(w, Idle)));
    RecordedRight(key, plan, charged, budget.View(), w);
    var seen := Observe(Wrapper(provider.cost, provider.input, provider.output, provider.usageComplete, provider.failure), plan.ending);
    Next(root, trace, n, Finish(n, plan.ending));
    trace := trace + [Finish(n, plan.ending)];
    record, trace := RecordRun(runs, results, store, budget, seen, n, root, trace);
  }

  /** One key without a stored result.  It earns a record, and the batch goes on, exactly if the key is
      claimable, every turn is affordable and the runner ends well. */
  method RunOne(runs: seq<RunKey>, results: seq<Record>, store: ResultStore, budget: CnyBudgetLedger, plan: RunnerPlan,
                ghost n: nat, ghost root: seq<Event>, ghost before: seq<Event>)
    returns (record: Option<Record>, ghost trace: seq<Event>)
    requires |results| < |runs| && (store.dir, runs[|results|]) !in store.runs
    requires Continues(root, before, n) && Tracks(before, n, budget, store, runs, results, AtClaim)
    modifies store`runs, budget
    ensures Continues(root, trace, n)
    ensures record.Some? ==> Tracks(trace, n, budget, store, runs, results + [record.value], AtLoad)
    ensures record.None? ==> exists rs :: Tracks(trace, n, budget, store, runs, rs, Stopped)
    ensures record.Some? ==> store.runs == old(store.runs)[(store.dir, runs[|results|]) := record.value]
    ensures record.Some? <==>
              old(Claimable(budget.View(), runs[|results|])) && Affordable(old(Charged(budget.attempts)), plan.turns) && EndsWell(plan.ending)
    ensures record.Some? ==>
              && record.value == Earned(runs[|results|], plan) && budget.claims == old(budget.claims)[runs[|results|] := Claim.Complete]
              && AllSettled(budget.attempts) && Charged(budget.attempts) == old(Charged(budget.attempts)) + Used(plan.turns).cost
  {
    var key := runs[|results|];
    ClaimIffClaimable(before, key);
    var claimed := budget.ClaimRun(key);
    Next(root, before, n, Go(n));
    trace := before + [Go(n)];
    if claimed.Err? {
      assert Tracks(trace, n, budget, store, runs, results, Stopped);
      return None, trace;
    }
    record, trace := RunClaimed(runs, results, store, budget, plan, n, root, trace);
  }

  // ----- what a batch leaves behind -----

  /** The results are the stored ones of their keys, each with a known cost. */
  ghost predicate Recorded(stored: map<(Dir, RunKey), Record>, dir: Dir, runs: seq<RunKey>, results: seq<Record>) {
    && |results| <= |runs|
    && forall i | 0 <= i < |results| ::
         (dir, runs[i]) in stored && stored[(dir, runs[i])] == results[i] && results[i].cost.Some?
  }

  ghost predicate AllHeld(stored: map<(Dir, RunKey), Record>, dir: Dir, runs: seq<RunKey>) {
    forall k | k in runs :: (dir, k) in stored
  }

  /** In a reachable state a stored record is accepted exactly if its cost is known. */
  lemma AcceptedIffCostKnown(trace: seq<Event>, dir: Dir, key: RunKey)
    requires (dir, key) in Exec(EMPTY, trace).store
    ensures var s := Exec(EMPTY, trace);
            var r := s.store[(dir, key)];
            r.key == key && (Accepted(r, AccountOf(s.ledger, key)) <==> r.cost.Some?)
  {
    ReachableInv(trace);
    assert StoredOk(Exec(EMPTY, trace), (dir, key));
  }

  // ----- when a batch returns -----

  /** What decides how a batch goes on: whether everything is settled and completed, what is charged,
      which keys are claimed, and which are stored in this directory, with and without a known cost. */
  datatype Books = Books(quiet: bool, charged: int, claimed: set<RunKey>, held: set<RunKey>, priced: set<RunKey>)

  ghost function BooksOf(l: Ledger, store: map<(Dir, RunKey), Record>, dir: Dir): Books {
    Books(AllSettled(l.attempts) && forall k | k in l.claims :: l.claims[k] == Claim.Complete,
          Charged(l.attempts), l.claims.Keys,
          set p | p in store && p.0 == dir :: p.1,
          set p | p in store && p.0 == dir && store[p].cost.Some? :: p.1)
  }

  /** One key: a stored result is enough if its cost is known; a fresh one has to be unclaimed, with
      everything else settled, and its plan has to be affordable and end well. */
  function AfterKey(b: Books, key: RunKey, plan: RunnerPlan): Option<Books> {
    if key in b.held then if key in b.priced then Some(b) else None
    else if b.quiet && key !in b.claimed && Affordable(b.charged, plan.turns) && EndsWell(plan.ending) then
      Some(Books(true, b.charged + Used(plan.turns).cost, b.claimed + {key}, b.held + {key}, b.priced + {key}))
    else None
  }

  function AfterKeys(b: Books, runs: seq<RunKey>, runner: RunKey -> RunnerPlan): Option<Books> {
    if runs == [] then Some(b)
    else
      var before := AfterKeys(b, runs[..|runs| - 1], runner);
      if before.None? then None else AfterKey(before.value, runs[|runs| - 1], runner(runs[|runs| - 1]))
  }

  lemma {:induction false} StoppedStays(b: Books, runs: seq<RunKey>, i: nat, runner: RunKey -> RunnerPlan)
    requires i <= |runs| && AfterKeys(b, runs[..i], runner).None?
    ensures AfterKeys(b, runs, runner).None?
    decreases |runs|
  {
    if i < |runs| {
      assert runs[..|runs| - 1][..i] == runs[..i];
      StoppedStays(b, runs[..|runs| - 1], i, runner);
    } else {
      assert runs[..i] == runs;
    }
  }

  lemma NextKey(b: Books, runs: seq<RunKey>, i: nat, runner: RunKey -> RunnerPlan, now: Books)
    requires i < |runs| && AfterKeys(b, runs[..i], runner) == Some(now)
    ensures AfterKeys(b, runs[..i + 1], runner) == AfterKey(now, runs[i], runner(runs[i]))
  {
    assert runs[..i + 1][..i] == runs[..i];
  }

  lemma HeldIff(l: Ledger, store: map<(Dir, RunKey), Record>, dir: Dir, key: RunKey)
    ensures var b := BooksOf(l, store, dir);
            && (key in b.held <==> (dir, key) in store)
            && (key in b.priced <==> (dir, key) in store && store[(dir, key)].cost.Some?)
  {
    if (dir, key) in store { assert (dir, key).1 == key; }
  }

  lemma BooksAfterRun(l: Ledger, store: map<(Dir, RunKey), Record>, dir: Dir, key: RunKey, r: Record, after: Ledger, plan: RunnerPlan)
    requires Claimable(l, key) && (dir, key) !in store && r.cost.Some? && AllSettled(after.attempts)
    requires after.claims == l.claims[key := Claim.Complete] && Charged(after.attempts) == Charged(l.attempts) + Used(plan.turns).cost
    requires Affordable(Charged(l.attempts), plan.turns) && EndsWell(plan.ending)
    ensures AfterKey(BooksOf(l, store, dir), key, plan) == Some(BooksOf(after, store[(dir, key) := r], dir))
  {
    var b, c := BooksOf(l, store, dir), BooksOf(after, store[(dir, key) := r], dir);
    HeldIff(l, store, dir, key);
    assert c.claimed == b.claimed + {key};
    SameHeld(store, dir, key, r, b.held, c.held);
    SamePriced(store, dir, key, r, b.priced, c.priced);
  }

  lemma SameHeld(store: map<(Dir, RunKey), Record>, dir: Dir, key: RunKey, r: Record, held: set<RunKey>, after: set<RunKey>)
    requires held == (set p | p in store && p.0 == dir :: p.1)
    requires after == (set p | p in store[(dir, key) := r] && p.0 == dir :: p.1)
    ensures after == held + {key}
  {
    assert (dir, key) in store[(dir, key) := r];
    forall k | k in held ensures k in after {
      var p :| p in store && p.0 == dir && p.1 == k;
      assert p in store[(dir, key) := r];
    }
  }

  lemma SamePriced(store: map<(Dir, RunKey), Record>, dir: Dir, key: RunKey, r: Record, priced: set<RunKey>, after: set<RunKey>)
    requires (dir, key) !in store && r.cost.Some?
    requires priced == (set p | p in store && p.0 == dir && store[p].cost.Some? :: p.1)
    requires after == (set p | p in store[(dir, key) := r] && p.0 == dir && store[(dir, key) := r][p].cost.Some? :: p.1)
    ensures after == priced + {key}
  {
    assert (dir, key) in store[(dir, key) := r];
    forall k | k in priced ensures k in after {
      var p :| p in store && p.0 == dir && store[p].cost.Some? && p.1 == k;
      assert p in store[(dir, key) := r];
    }
  }

  /** No stored result was lost or replaced. */
  ghost predicate Grew(was: map<(Dir, RunKey), Record>, now: map<(Dir, RunKey), Record>) {
    forall p | p in was :: p in now && now[p] == was[p]
  }

  lemma RecordedNext(was: map<(Dir, RunKey), Record>, now: map<(Dir, RunKey), Record>, dir: Dir, runs: seq<RunKey>,
                     results: seq<Record>, r: Record)
    requires |results| < |runs| && Recorded(was, dir, runs, results) && Grew(was, now)
    requires (dir, runs[|results|]) in now && now[(dir, runs[|results|])] == r && r.cost.Some?
    ensures Recorded(now, dir, runs, results + [r])
  {
  }

  /** One key whose result is stored: replayed if the ledger agrees. */
  method ReplayOne(runs: seq<RunKey>, results: seq<Record>, store: ResultStore, budget: CnyBudgetLedger,
                   ghost n: nat, ghost root: seq<Event>, ghost before: seq<Event>)
    returns (record: Option<Record>, ghost trace: seq<Event>)
    requires |results| < |runs| && (store.dir, runs[|results|]) in store.runs
    requires Continues(root, before, n) && Tracks(before, n, budget, store, runs, results, AtLoad)
    ensures Continues(root, trace, n)
    ensures var previous := store.runs[(store.dir, runs[|results|])];
            record == if previous.cost.Some? then Some(previous) else None
    ensures record.Some? ==> Tracks(trace, n, budget, store, runs, results + [record.value], AtLoad)
    ensures record.None? ==> exists rs :: Tracks(trace, n, budget, store, runs, rs, Stopped)
  {
    var previous := store.runs[(store.dir, runs[|results|])];
    AcceptedIffCostKnown(before, store.dir, runs[|results|]);
    Next(root, before, n, Go(n));
    trace := before + [Go(n)];
    assert Tracks(trace, n, budget, store, runs, results + [previous], AtCompare(previous));
    var account := budget.RunAccount(previous.key);
    Next(root, trace, n, Go(n));
    trace := trace + [Go(n)];
    if Accepted(previous, account) {
      record := Some(previous);
    } else {
      record := None;
      assert Tracks(trace, n, budget, store, runs, results + [previous], Stopped);
    }
  }

  /** One key of the batch: replay its stored result, or claim and run it. */
  method LoadOrRun(runs: seq<RunKey>, results: seq<Record>, store: ResultStore, budget: CnyBudgetLedger, plan: RunnerPlan,
                   ghost n: nat, ghost root: seq<Event>, ghost before: seq<Event>)
    returns (record: Option<Record>, ghost trace: seq<Event>)
    requires |results| < |runs| && Continues(root, before, n) && Tracks(before, n, budget, store, runs, results, AtLoad)
    requires Recorded(store.runs, store.dir, runs, results)
    modifies store`runs, budget
    ensures Continues(root, trace, n)
    ensures record.Some? ==> Tracks(trace, n, budget, store, runs, results + [record.value], AtLoad)
    ensures record.Some? ==> Recorded(store.runs, store.dir, runs, results + [record.value])
    ensures record.None? ==> exists rs :: Tracks(trace, n, budget, store, runs, rs, Stopped)
    ensures (store.dir, runs[|results|]) in old(store.runs) ==> budget.View() == old(budget.View()) && store.runs == old(store.runs)
    ensures var next := AfterKey(old(BooksOf(budget.View(), store.runs, store.dir)), runs[|results|], plan);
            if record.None? then next.None? else next == Some(BooksOf(budget.View(), store.runs, store.dir))
    ensures record.Some? ==>
              && store.runs == old(store.runs)[(store.dir, runs[|results|]) := record.value]
              && ((store.dir, runs[|results|]) !in old(store.runs) ==> plan.ending.Returned? && record.value == Earned(runs[|results|], plan))
  {
    ghost var key, l, stored := runs[|results|], budget.View(), store.runs;
    HeldIff(l, stored, store.dir, key);
    if (store.dir, runs[|results|]) in store.runs {
      record, trace := ReplayOne(runs, results, store, budget, n, root, before);
    } else {
      Next(root, before, n, Go(n));
      record, trace := RunOne(runs, results, store, budget, plan, n, root, before + [Go(n)]);
      if record.Some? { BooksAfterRun(l, stored, store.dir, key, record.value, budget.View(), plan); }
    }
    if record.Some? {
      RecordedNext(old(store.runs), store.runs, store.dir, runs, results, record.value);
    }
  }

  /** What every reachable state keeps, read off for the objects the batch leaves behind. */
  lemma EndIsSafe(trace: seq<Event>)
    ensures var s := Exec(EMPTY, trace);
            && (forall i, j | 0 <= i < j < |s.started| :: s.started[i] != s.started[j])
            && (forall k | k in s.ledger.claims && s.ledger.claims[k] == Claim.Complete :: exists d :: (d, k) in s.store)
  {
    RunnerStartsAtMostOnce(trace);
    ReachableInv(trace);
  }

  lemma ResultsAreAccepted(trace: seq<Event>, dir: Dir, runs: seq<RunKey>, results: seq<Record>)
    requires |results| == |runs| && Recorded(Exec(EMPTY, trace).store, dir, runs, results)
    ensures forall i | 0 <= i < |runs| ::
              results[i].key == runs[i] && Accepted(results[i], AccountOf(Exec(EMPTY, trace).ledger, runs[i]))
  {
    forall i | 0 <= i < |runs|
      ensures results[i].key == runs[i] && Accepted(results[i], AccountOf(Exec(EMPTY, trace).ledger, runs[i]))
    {
      AcceptedIffCostKnown(trace, dir, runs[i]);
    }
  }

  predicate FromPlan(before: map<(Dir, RunKey), Record>, dir: Dir, key: RunKey, plan: RunnerPlan, r: Record) {
    if (dir, key) in before then r == before[(dir, key)] else plan.ending.Returned? && r == Earned(key, plan)
  }

  /** Every result is the one stored before the batch, or what the plan of its key earned. */
  ghost predicate FromPlans(before: map<(Dir, RunKey), Record>, dir: Dir, runs: seq<RunKey>, runner: RunKey -> RunnerPlan, results: seq<Record>) {
    |results| <= |runs| && forall i | 0 <= i < |results| :: FromPlan(before, dir, runs[i], runner(runs[i]), results[i])
  }

  ghost predicate StoredFrom(before: map<(Dir, RunKey), Record>, now: map<(Dir, RunKey), Record>, dir: Dir, runner: RunKey -> RunnerPlan) {
    Grew(before, now) && forall k | (dir, k) in now :: FromPlan(before, dir, k, runner(k), now[(dir, k)])
  }

  /** What the first `|results|` keys have come to, from the ledger and store before the batch. */
  ghost predicate Progress(before: Ledger, l: Ledger, was: map<(Dir, RunKey), Record>, now: map<(Dir, RunKey), Record>, dir: Dir,
                           runs: seq<RunKey>, runner: RunKey -> RunnerPlan, results: seq<Record>)
  {
    && Recorded(now, dir, runs, results)
    && AfterKeys(BooksOf(before, was, dir), runs[..|results|], runner) == Some(BooksOf(l, now, dir))
    && FromPlans(was, dir, runs, runner, results) && StoredFrom(was, now, dir, runner)
    && (AllHeld(was, dir, runs) ==> l == before && now == was)
  }

  lemma FromPlansNext(was: map<(Dir, RunKey), Record>, now: map<(Dir, RunKey), Record>, next: map<(Dir, RunKey), Record>, dir: Dir,
                      runs: seq<RunKey>, runner: RunKey -> RunnerPlan, results: seq<Record>, r: Record)
    requires |results| < |runs| && FromPlans(was, dir, runs, runner, results) && StoredFrom(was, now, dir, runner)
    requires next == now[(dir, runs[|results|]) := r]
    requires if (dir, runs[|results|]) in now then r == now[(dir, runs[|results|])]
             else runner(runs[|results|]).ending.Returned? && r == Earned(runs[|results|], runner(runs[|results|]))
    ensures FromPlans(was, dir, runs, runner, results + [r]) && StoredFrom(was, next, dir, runner)
  {
    var key := runs[|results|];
    assert FromPlan(was, dir, key, runner(key), r);
    forall k | (dir, k) in next ensures FromPlan(was, dir, k, runner(k), next[(dir, k)]) {
      if k != key { assert (dir, k) in now; }
    }
  }

  lemma ProgressNext(before: Ledger, l: Ledger, after: Ledger, was: map<(Dir, RunKey), Record>, now: map<(Dir, RunKey), Record>,
                     next: map<(Dir, RunKey), Record>, dir: Dir, runs: seq<RunKey>, runner: RunKey -> RunnerPlan,
                     results: seq<Record>, r: Record)
    requires |results| < |runs| && Progress(before, l, was, now, dir, runs, runner, results)
    requires Recorded(next, dir, runs, results + [r])
    requires AfterKey(BooksOf(l, now, dir), runs[|results|], runner(runs[|results|])) == Some(BooksOf(after, next, dir))
    requires next == now[(dir, runs[|results|]) := r]
    requires (dir, runs[|results|]) in now ==> after == l && next == now
    requires (dir, runs[|results|]) !in now ==>
               runner(runs[|results|]).ending.Returned? && r == Earned(runs[|results|], runner(runs[|results|]))
    ensures Progress(before, after, was, next, dir, runs, runner, results + [r])
  {
    NextKey(BooksOf(before, was, dir), runs, |results|, runner, BooksOf(l, now, dir));
    FromPlansNext(was, now, next, dir, runs, runner, results, r);
    assert AllHeld(was, dir, runs) ==> runs[|results|] in runs;
  }

  lemma ProgressStarts(l: Ledger, stored: map<(Dir, RunKey), Record>, dir: Dir, runs: seq<RunKey>, runner: RunKey -> RunnerPlan)
    ensures Progress(l, l, stored, stored, dir, runs, runner, [])
  {
  }

  /** The batch stops at a key that ends it: a stored one has no known cost then. */
  lemma StopsHere(before: Ledger, l: Ledger, after: Ledger, was: map<(Dir, RunKey), Record>, now: map<(Dir, RunKey), Record>,
                  next: map<(Dir, RunKey), Record>, dir: Dir, runs: seq<RunKey>, runner: RunKey -> RunnerPlan, results: seq<Record>)
    requires |results| < |runs| && Progress(before, l, was, now, dir, runs, runner, results)
    requires AfterKey(BooksOf(l, now, dir), runs[|results|], runner(runs[|results|])).None?
    requires (dir, runs[|results|]) in now ==> after == l && next == now
    ensures AfterKeys(BooksOf(before, was, dir), runs, runner).None?
    ensures AllHeld(was, dir, runs) ==> after == before && next == was && exists k :: k in runs && next[(dir, k)].cost.None?
  {
    var key := runs[|results|];
    NextKey(BooksOf(before, was, dir), runs, |results|, runner, BooksOf(l, now, dir));
    StoppedStays(BooksOf(before, was, dir), runs, |results| + 1, runner);
    HeldIff(l, now, dir, key);
    if AllHeld(was, dir, runs) { assert key in runs && (dir, key) in now && now[(dir, key)].cost.None?; }
  }

  lemma ProgressEnds(before: Ledger, l: Ledger, was: map<(Dir, RunKey), Record>, now: map<(Dir, RunKey), Record>, dir: Dir,
                     runs: seq<RunKey>, runner: RunKey -> RunnerPlan, results: seq<Record>)
    requires Progress(before, l, was, now, dir, runs, runner, results) && |results| == |runs|
    ensures AfterKeys(BooksOf(before, was, dir), runs, runner) == Some(BooksOf(l, now, dir))
    ensures AllHeld(was, dir, runs) ==> forall k | k in runs :: now[(dir, k)].cost.Some?
  {
    assert runs[..|results|] == runs;
  }

  /** execute_runs in budget mode, on any ledger and store that earlier and concurrent runners can have
      left behind. `Some` is a normal return, `None` an exception.  Either way no key was ever started
      twice and every completed claim is published; a normal return is one stored result per key, in
      order, each accepted by the final ledger: the one that was stored, or what the key's plan earned.
      It returns normally exactly if every key in turn is stored with a known cost, or is unclaimed while
      everything is settled and completed, with a plan that is affordable and ends well.  A batch that
      is fully stored changes nothing. */
  method ExecuteRuns(runs: seq<RunKey>, store: ResultStore, budget: CnyBudgetLedger, runner: RunKey -> RunnerPlan,
                     ghost before: seq<Event>)
    returns (outcome: Option<seq<Record>>, ghost trace: seq<Event>)
    requires Exec(EMPTY, before).ledger == budget.View() && Exec(EMPTY, before).store == store.runs
    modifies store`runs, budget
    ensures var n := |Exec(EMPTY, before).workers|;
            && Continues(before + [Spawn(store.dir, runs)], trace, n)
            && (outcome.Some? ==> Tracks(trace, n, budget, store, runs, outcome.value, Done))
            && (outcome.None? ==> exists rs :: Tracks(trace, n, budget, store, runs, rs, Stopped))
    ensures forall i, j | 0 <= i < j < |Exec(EMPTY, trace).started| :: Exec(EMPTY, trace).started[i] != Exec(EMPTY, trace).started[j]
    ensures forall k | k in budget.claims && budget.claims[k] == Claim.Complete :: exists d :: (d, k) in store.runs
    ensures outcome.Some? ==>
              && |outcome.value| == |runs| && Recorded(store.runs, store.dir, runs, outcome.value)
              && forall i | 0 <= i < |runs| ::
                   outcome.value[i].key == runs[i] && Accepted(outcome.value[i], AccountOf(budget.View(), runs[i]))
    ensures var end := AfterKeys(old(BooksOf(budget.View(), store.runs, store.dir)), runs, runner);
            if outcome.None? then end.None? else end == Some(BooksOf(budget.View(), store.runs, store.dir))
    ensures outcome.Some? ==> FromPlans(old(store.runs), store.dir, runs, runner, outcome.value)
    ensures AllHeld(old(store.runs), store.dir, runs) ==>
              && budget.View() == old(budget.View()) && store.runs == old(store.runs)
              && (outcome.Some? <==> forall k | k in runs :: store.runs[(store.dir, k)].cost.Some?)
  {
    var results: seq<Record> := [];
    ghost var n := |Exec(EMPTY, before).workers|;
    ghost var root := before + [Spawn(store.dir, runs)];
    ghost var l, stored := budget.View(), store.runs;
    ExecSnoc(EMPTY, before, Spawn(store.dir, runs));
    ProgressStarts(l, stored, store.dir, runs, runner);
    outcome, trace := None, root;
    for i := 0 to |runs|
      invariant |results| == i
      invariant Continues(root, trace, n)
      invariant Tracks(trace, n, budget, store, runs, results, AtLoad)
      invariant Progress(l, budget.View(), stored, store.runs, store.dir, runs, runner, results)
    {
      ghost var m, now := budget.View(), store.runs;
      var record: Option<Record>;
      record, trace := LoadOrRun(runs, results, store, budget, runner(runs[i]), n, root, trace);
      EndIsSafe(trace);
      if record.None? {
        StopsHere(l, m, budget.View(), stored, now, store.runs, store.dir, runs, runner, results);
        return;
      }
      ProgressNext(l, m, budget.View(), stored, now, store.runs, store.dir, runs, runner, results, record.value);
      results := results + [record.value];
    }
    Next(root, trace, n, Go(n));
    trace := trace + [Go(n)];
    outcome := Some(results);
    EndIsSafe(trace);
    ResultsAreAccepted(trace, store.dir, runs, results);
    ProgressEnds(l, budget.View(), stored, store.runs, store.dir, runs, runner, results);
  }
}
