/** The budgeted matrix runner (bench/live_runtime_matrix.py) over the shared ledger.

    Any number of processes run `execute_runs` against one ledger and their output directories.
    `Apply` is one atomic step of one process: a ledger transaction, a file read, a create-only
    publication, a provider reply, or a crash.  A disabled event changes nothing, so a sequence of
    events is an arbitrary interleaving.  `ExecuteRuns` is the loop of the source; it is proved to
    perform only such steps. */
module RunMatrix {
  import opened Basics
  import opened BudgetLedger

  type Dir = nat

  datatype Failure =
    | RequestDrift
    | Refused(stop: Stop)
    | Transport
    | UsageUnavailable
    | CostUnavailable
    | RuntimeFailed
    | Other

  // ----- _UsageProvider -----

  datatype Wrapper = Wrapper(cost: int, input: int, output: int, usageComplete: bool, failure: Option<Failure>)
  datatype Reply = TransportError | NoUsage | Usage(prompt: int, completion: int)
  datatype Begun = Begun(ledger: Ledger, wrapper: Wrapper, call: Option<nat>)

  const FRESH := Wrapper(0, 0, 0, true, None)

  /** next_turn up to the moment the request leaves: the stop checks and the committed reservation. */
  function BeginTurn(l: Ledger, w: Wrapper, key: RunKey, drift: bool): Begun {
    if w.failure.Some? then Begun(l, w, None)
    else if drift then Begun(l, w.(failure := Some(RequestDrift)), None)
    else
      match Reserved(l, key)
      case Ok(after) => Begun(after, w, Some(|l.attempts|))
      case Err(stop) =>
        Begun(l, w.(failure := Some(Refused(stop)), usageComplete := w.usageComplete && stop == BudgetExhausted), None)
  }

  /** next_turn after the provider answered or failed: settle and account the usage, or stop. */
  function EndTurn(l: Ledger, w: Wrapper, id: nat, reply: Reply): (Ledger, Wrapper) {
    match reply
    case TransportError => (l, w.(usageComplete := false, failure := Some(Transport)))
    case NoUsage => (l, w.(usageComplete := false, failure := Some(UsageUnavailable)))
    case Usage(prompt, completion) =>
      if prompt < 0 || completion < 0 then
        (l, w.(usageComplete := false, failure := Some(UsageUnavailable)))
      else
        match SettledAs(l, id, prompt, completion)
        case Ok(after) =>
          (after, w.(cost := w.cost + Cost(prompt, completion), input := w.input + prompt, output := w.output + completion))
        case Err(NotPending) => (l, w)
        case Err(stop) => (l, w.(usageComplete := false, failure := Some(Refused(stop))))
  }

  class UsageProvider {
    const budget: CnyBudgetLedger
    const runKey: RunKey
    var cost: int
    var input: int
    var output: int
    var usageComplete: bool
    var failure: Option<Failure>

    ghost function View(): Wrapper
      reads this
    {
      Wrapper(cost, input, output, usageComplete, failure)
    }

    constructor (budget: CnyBudgetLedger, runKey: RunKey)
      ensures this.budget == budget && this.runKey == runKey && View() == FRESH
    {
      this.budget, this.runKey := budget, runKey;
      cost, input, output, usageComplete, failure := 0, 0, 0, true, None;
    }

    method NextTurn(drift: bool, reply: Reply) returns (sent: Option<nat>)
      modifies this, budget`attempts
      ensures var begun := BeginTurn(old(budget.View()), old(View()), runKey, drift);
              && sent == begun.call
              && (budget.View(), View()) ==
                 (if begun.call.Some? then EndTurn(begun.ledger, begun.wrapper, begun.call.value, reply)
                  else (begun.ledger, begun.wrapper))
    {
      sent := None;
      if failure.Some? {
        return;
      }
      if drift {
        failure := Some(RequestDrift);
        return;
      }
      var reserved := budget.Reserve(runKey);
      if reserved.Err? {
        failure := Some(Refused(reserved.error));
        if reserved.error != BudgetExhausted {
          usageComplete := false;
        }
        return;
      }
      sent := Some(reserved.value);
      match reply {
        case TransportError =>
          usageComplete, failure := false, Some(Transport);
        case NoUsage =>
          usageComplete, failure := false, Some(UsageUnavailable);
        case Usage(prompt, completion) =>
          if prompt < 0 || completion < 0 {
            usageComplete, failure := false, Some(UsageUnavailable);
          } else {
            var settled := budget.Settle(reserved.value, prompt, completion);
            if settled.Ok? {
              cost, input, output := cost + settled.value, input + prompt, output + completion;
            } else if settled.error != NotPending {
              usageComplete, failure := false, Some(Refused(settled.error));
            }
          }
      }
    }
  }

  // ----- one recorded run -----

  /** How the runner ended: normally (with its own verdict) or by an exception of its own. */
  datatype Ending = Returned(completed: bool, other: Option<Failure>) | Raised(cause: Failure)
  datatype Observation = Observation(completed: bool, failure: Option<Failure>, tokens: Option<(int, int)>)
  datatype Record = Record(key: RunKey, completed: bool, failure: Option<Failure>, tokens: Option<(int, int)>, cost: Option<int>)

  function Observe(w: Wrapper, ending: Ending): Observation {
    match ending
    case Raised(cause) => Observation(false, Some(cause), None)
    case Returned(completed, other) =>
      var failure := if w.failure.Some? then w.failure else other;
      var ok := completed && w.failure.None?;
      Observation(ok, if !ok && failure.None? then Some(RuntimeFailed) else failure,
                  if w.usageComplete then Some((w.input, w.output)) else None)
  }

  function RecordOf(key: RunKey, seen: Observation, account: Account): Record {
    match seen.tokens
    case None =>
      Record(key, seen.completed, if seen.completed then Some(UsageUnavailable) else seen.failure, None, None)
    case Some(tokens) =>
      var (cost, counted) := match account
                             case Unknown => (None, (0, 0))
                             case Known(c, p, q) => (Some(c), (p, q));
      if counted != tokens then Record(key, seen.completed, Some(CostUnavailable), Some(tokens), None)
      else Record(key, seen.completed, seen.failure, Some(tokens), cost)
  }

  predicate Accepted(previous: Record, account: Account) {
    && account.Known?
    && previous.cost == Some(account.cost)
    && previous.tokens == Some((account.prompt, account.completion))
  }

  predicate StopsBatch(r: Record) {
    || r.cost.None?
    || r.failure == Some(RequestDrift)
    || (r.failure.Some? && r.failure.value.Refused?)
  }

  class ResultStore {
    var runs: map<(Dir, RunKey), Record>
    const dir: Dir

    constructor (dir: Dir, runs: map<(Dir, RunKey), Record>)
      ensures this.dir == dir && this.runs == runs
    {
      this.dir, this.runs := dir, runs;
    }

    /** Create-only publication: an existing result is never replaced. */
    method Save(key: RunKey, value: Record) returns (saved: bool)
      modifies this`runs
      ensures saved <==> value.key == key && (dir, key) !in old(runs)
      ensures runs == if saved then old(runs)[(dir, key) := value] else old(runs)
    {
      saved := value.key == key && (dir, key) !in runs;
      if saved {
        runs := runs[(dir, key) := value];
      }
    }
  }

  // ----- the processes -----

  datatype Call = Idle | InFlight(id: nat)
  datatype Pc =
    | AtLoad
    | AtCompare(previous: Record)
    | AtClaim
    | Running(wrapper: Wrapper, call: Call)
    | AtAccount(seen: Observation)
    | AtSave(record: Record)
    | AtFinish(record: Record)
    | Done
    | Stopped
    | Crashed

  datatype Worker = Worker(dir: Dir, runs: seq<RunKey>, results: seq<Record>, pc: Pc)
  datatype Sys = Sys(ledger: Ledger, store: map<(Dir, RunKey), Record>, workers: seq<Worker>,
                     started: seq<RunKey>, calls: seq<RunKey>)

  datatype Event =
    | Spawn(dir: Dir, runs: seq<RunKey>)
    | Go(w: nat)
    | Send(w: nat, drift: bool)
    | Answer(w: nat, reply: Reply)
    | SettleFault(w: nat)
    | Finish(w: nat, ending: Ending)
    | Crash(w: nat)

  const EMPTY := Sys(Ledger([], map[]), map[], [], [], [])

  predicate Holding(w: Worker) {
    w.pc.Running? || w.pc.AtAccount? || w.pc.AtSave? || w.pc.AtFinish?
  }

  predicate HasKey(w: Worker) {
    |w.results| < |w.runs|
  }

  function Key(w: Worker): RunKey
    requires HasKey(w)
  {
    w.runs[|w.results|]
  }

  function Put(s: Sys, i: nat, w: Worker): Sys
    requires i < |s.workers|
  {
    s.(workers := s.workers[i := w])
  }

  /** The part of `execute_runs` that needs no outside answer. */
  function Advance(s: Sys, i: nat): Sys
    requires i < |s.workers|
  {
    var w := s.workers[i];
    match w.pc
    case AtLoad =>
      if !HasKey(w) then Put(s, i, w.(pc := Done))
      else if (w.dir, Key(w)) in s.store then
        var previous := s.store[(w.dir, Key(w))];
        Put(s, i, w.(results := w.results + [previous], pc := AtCompare(previous)))
      else Put(s, i, w.(pc := AtClaim))
    case AtCompare(previous) =>
      Put(s, i, w.(pc := if Accepted(previous, AccountOf(s.ledger, previous.key)) then AtLoad else Stopped))
    case AtClaim =>
      if !HasKey(w) then s
      else (match Claimed(s.ledger, Key(w))
            case Ok(after) => Put(s, i, w.(pc := Running(FRESH, Idle))).(ledger := after, started := s.started + [Key(w)])
            case Err(_) => Put(s, i, w.(pc := Stopped)))
    case AtAccount(seen) =>
      if !HasKey(w) then s
      else Put(s, i, w.(pc := AtSave(RecordOf(Key(w), seen, AccountOf(s.ledger, Key(w))))))
    case AtSave(record) =>
      if !HasKey(w) then s
      else if record.key != Key(w) || (w.dir, Key(w)) in s.store then Put(s, i, w.(pc := Stopped))
      else Put(s, i, w.(pc := AtFinish(record))).(store := s.store[(w.dir, Key(w)) := record])
    case AtFinish(record) =>
      if !HasKey(w) then s
      else (match Finished(s.ledger, Key(w))
            case Ok(after) =>
              Put(s, i, w.(results := w.results + [record], pc := if StopsBatch(record) then Stopped else AtLoad))
                 .(ledger := after)
            case Err(_) => Put(s, i, w.(pc := Stopped)))
    case _ => s
  }

  function SendStep(s: Sys, i: nat, drift: bool): Sys
    requires i < |s.workers|
  {
    var w := s.workers[i];
    if !(w.pc.Running? && w.pc.call.Idle? && HasKey(w)) then s
    else
      var begun := BeginTurn(s.ledger, w.pc.wrapper, Key(w), drift);
      Put(s, i, w.(pc := Running(begun.wrapper, if begun.call.Some? then InFlight(begun.call.value) else Idle)))
         .(ledger := begun.ledger, calls := s.calls + if begun.call.Some? then [Key(w)] else [])
  }

  function Apply(s: Sys, e: Event): Sys {
    match e
    case Spawn(dir, runs) => s.(workers := s.workers + [Worker(dir, runs, [], AtLoad)])
    case Go(i) => if i < |s.workers| then Advance(s, i) else s
    case Send(i, drift) => if i < |s.workers| then SendStep(s, i, drift) else s
    case Answer(i, reply) =>
      if i < |s.workers| && s.workers[i].pc.Running? && s.workers[i].pc.call.InFlight? then
        var (after, wrapper) := EndTurn(s.ledger, s.workers[i].pc.wrapper, s.workers[i].pc.call.id, reply);
        Put(s, i, s.workers[i].(pc := Running(wrapper, Idle))).(ledger := after)
      else s
    case SettleFault(i) =>
      // The settle transaction itself fails (for example a lock timeout): the exception leaves
      // next_turn without touching the wrapper, and the attempt stays pending.
      if i < |s.workers| && s.workers[i].pc.Running? && s.workers[i].pc.call.InFlight? then
        Put(s, i, s.workers[i].(pc := Running(s.workers[i].pc.wrapper, Idle)))
      else s
    case Finish(i, ending) =>
      if i < |s.workers| && s.workers[i].pc.Running? && s.workers[i].pc.call.Idle? then
        Put(s, i, s.workers[i].(pc := AtAccount(Observe(s.workers[i].pc.wrapper, ending))))
      else s
    case Crash(i) =>
      if i < |s.workers| && !s.workers[i].pc.Done? then Put(s, i, s.workers[i].(pc := Crashed)) else s
  }

  function Exec(s: Sys, es: seq<Event>): Sys {
    if es == [] then s else Apply(Exec(s, es[..|es| - 1]), es[|es| - 1])
  }

  // ----- the invariant -----

  ghost predicate Counted(rows: seq<Attempt>, w: Wrapper) {
    Charged(rows) == w.cost && Prompts(rows) == w.input && Completions(rows) == w.output
  }

  ghost predicate SoundRecord(l: Ledger, r: Record) {
    r.cost.Some? ==> r.tokens.Some? && AccountOf(l, r.key) == Known(r.cost.value, r.tokens.value.0, r.tokens.value.1)
  }

  ghost predicate HolderOk(s: Sys, w: Worker)
    requires Holding(w)
  {
    && HasKey(w)
    && Key(w) in s.ledger.claims && s.ledger.claims[Key(w)] == Active
    && (forall a | a in s.ledger.attempts :: a.state.Pending? ==> a.runKey == Key(w))
    && (match w.pc
        case Running(wrapper, Idle) =>
          && (!wrapper.usageComplete ==> wrapper.failure.Some?)
          && (wrapper.usageComplete && AllSettled(s.ledger.attempts) ==> Counted(Rows(s.ledger.attempts, Key(w)), wrapper))
        case Running(wrapper, InFlight(id)) =>
          && wrapper.usageComplete
          && id == |s.ledger.attempts| - 1
          && s.ledger.attempts[id] == Attempt(Key(w), RESERVE, Pending)
          && Counted(Rows(s.ledger.attempts[..id], Key(w)), wrapper)
        case AtAccount(seen) =>
          seen.tokens.Some? && AllSettled(s.ledger.attempts) ==>
            && Prompts(Rows(s.ledger.attempts, Key(w))) == seen.tokens.value.0
            && Completions(Rows(s.ledger.attempts, Key(w))) == seen.tokens.value.1
        case AtSave(r) => r.key == Key(w) && SoundRecord(s.ledger, r)
        case AtFinish(r) => (w.dir, Key(w)) in s.store && s.store[(w.dir, Key(w))] == r
        case _ => true)
  }

  /** A run key whose result is not yet published by its holder. */
  predicate Unpublished(w: Worker) {
    w.pc.Running? || w.pc.AtAccount? || w.pc.AtSave?
  }

  ghost predicate LedgerInv(s: Sys) {
    && Safe(s.ledger)
    && (forall a | a in s.ledger.attempts :: a.runKey in s.ledger.claims)
    && |s.calls| == |s.ledger.attempts|
    && (forall i | 0 <= i < |s.calls| :: s.calls[i] == s.ledger.attempts[i].runKey)
  }

  ghost predicate StartsInv(s: Sys) {
    && (forall i, j | 0 <= i < j < |s.started| :: s.started[i] != s.started[j])
    && (forall k | k in s.started :: k in s.ledger.claims)
  }

  ghost predicate HoldersInv(s: Sys) {
    && (forall i, j | 0 <= i < j < |s.workers| :: !(Holding(s.workers[i]) && Holding(s.workers[j])))
    && (forall i | 0 <= i < |s.workers| && Holding(s.workers[i]) :: HolderOk(s, s.workers[i]))
  }

  ghost predicate StoredOk(s: Sys, p: (Dir, RunKey))
    requires p in s.store
  {
    && p.1 in s.ledger.claims && s.store[p].key == p.1 && SoundRecord(s.ledger, s.store[p])
    && forall i | 0 <= i < |s.workers| && Unpublished(s.workers[i]) && HasKey(s.workers[i]) :: Key(s.workers[i]) != p.1
  }

  ghost predicate StoreInv(s: Sys) {
    && (forall k | k in s.ledger.claims && s.ledger.claims[k] == Complete :: exists d :: (d, k) in s.store)
    && (forall p | p in s.store :: StoredOk(s, p))
  }

  ghost predicate Inv(s: Sys) {
    LedgerInv(s) && StartsInv(s) && HoldersInv(s) && StoreInv(s)
  }
}
