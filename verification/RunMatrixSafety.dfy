/** What every interleaving of budgeted runners keeps, and what a resume does. */
module RunMatrixSafety {
  import opened Basics
  import opened BudgetLedger
  import opened RunMatrix

  // ----- rows of one run key -----

  lemma RowsAppend(attempts: seq<Attempt>, a: Attempt, key: RunKey)
    ensures Rows(attempts + [a], key) == if a.runKey == key then Rows(attempts, key) + [a] else Rows(attempts, key)
  {
    assert (attempts + [a])[..|attempts|] == attempts;
  }

  lemma SumsAppend(rows: seq<Attempt>, a: Attempt)
    requires a.state.Settled?
    ensures Charged(rows + [a]) == Charged(rows) + a.state.charged
    ensures Prompts(rows + [a]) == Prompts(rows) + a.state.prompt
    ensures Completions(rows + [a]) == Completions(rows) + a.state.completion
  {
    assert (rows + [a])[..|rows|] == rows;
  }

  lemma {:induction false} RowsFromAttempts(attempts: seq<Attempt>, key: RunKey)
    ensures forall a :: a in Rows(attempts, key) <==> a in attempts && a.runKey == key
  {
    if attempts != [] {
      var rest := attempts[..|attempts| - 1];
      RowsFromAttempts(rest, key);
      assert attempts == rest + [attempts[|attempts| - 1]];
    }
  }

  lemma {:induction false} NoRows(attempts: seq<Attempt>, key: RunKey)
    requires forall a | a in attempts :: a.runKey != key
    ensures Rows(attempts, key) == []
  {
    if attempts != [] {
      assert attempts[|attempts| - 1] in attempts;
      NoRows(attempts[..|attempts| - 1], key);
    }
  }

  /** Changing only the newest row leaves every other run's account alone. */
  lemma OthersUnchanged(l: Ledger, prefix: seq<Attempt>, a: Attempt, b: Attempt, key: RunKey)
    requires a.runKey == b.runKey != key
    ensures Rows(prefix + [a], key) == Rows(prefix + [b], key) == Rows(prefix, key)
  {
    RowsAppend(prefix, a, key);
    RowsAppend(prefix, b, key);
  }

  // ----- preservation, one event at a time -----

  lemma SpawnKeeps(s: Sys, dir: Dir, runs: seq<RunKey>)
    requires Inv(s)
    ensures Inv(Apply(s, Spawn(dir, runs)))
  {
    var after := Apply(s, Spawn(dir, runs));
    assert forall i | 0 <= i < |s.workers| && Holding(s.workers[i]) :: HolderOk(after, after.workers[i]);
    forall p | p in after.store ensures StoredOk(after, p) { assert StoredOk(s, p); }
  }

  /** A step that touches neither ledger nor store and gives no new hold. */
  lemma LocalKeeps(s: Sys, i: nat, w: Worker)
    requires Inv(s) && i < |s.workers|
    requires Holding(w) ==> Holding(s.workers[i]) && HolderOk(s, w)
    requires Unpublished(w) && HasKey(w) ==>
               Unpublished(s.workers[i]) && HasKey(s.workers[i]) && Key(w) == Key(s.workers[i])
    ensures Inv(Put(s, i, w))
  {
    var after := Put(s, i, w);
    assert HoldersInv(after) by {
      forall j | 0 <= j < |after.workers| && Holding(after.workers[j]) ensures HolderOk(after, after.workers[j]) {
        if j != i { assert HolderOk(s, s.workers[j]); } else { assert HolderOk(s, w); }
      }
    }
    assert StoreInv(after) by {
      forall p | p in after.store ensures StoredOk(after, p) { assert StoredOk(s, p); }
    }
  }

  lemma ClaimedHolders(s: Sys, i: nat)
    requires Inv(s) && i < |s.workers| && s.workers[i].pc.AtClaim?
    requires HasKey(s.workers[i]) && Claimed(s.ledger, Key(s.workers[i])).Ok?
    ensures HoldersInv(Advance(s, i))
  {
    NoRows(s.ledger.attempts, Key(s.workers[i]));
    assert forall j | 0 <= j < |s.workers| && Holding(s.workers[j]) :: HolderOk(s, s.workers[j]);
  }

  lemma ClaimedStore(s: Sys, i: nat)
    requires Inv(s) && i < |s.workers| && s.workers[i].pc.AtClaim?
    requires HasKey(s.workers[i]) && Claimed(s.ledger, Key(s.workers[i])).Ok?
    ensures StoreInv(Advance(s, i)) && StartsInv(Advance(s, i)) && LedgerInv(Advance(s, i))
  {
    var after := Advance(s, i);
    forall p | p in after.store ensures StoredOk(after, p) { assert StoredOk(s, p); }
  }

  lemma ClaimKeeps(s: Sys, i: nat)
    requires Inv(s) && i < |s.workers| && s.workers[i].pc.AtClaim?
    ensures Inv(Advance(s, i))
  {
    var w := s.workers[i];
    if HasKey(w) {
      if Claimed(s.ledger, Key(w)).Ok? {
        ClaimedHolders(s, i);
        ClaimedStore(s, i);
      } else {
        LocalKeeps(s, i, w.(pc := Stopped));
      }
    }
  }

  lemma SaveKeeps(s: Sys, i: nat)
    requires Inv(s) && i < |s.workers| && s.workers[i].pc.AtSave?
    ensures Inv(Advance(s, i))
  {
    var w := s.workers[i];
    assert HolderOk(s, w);
    var key := Key(w);
    var after := Advance(s, i);
    if (w.dir, key) in s.store {
      LocalKeeps(s, i, w.(pc := Stopped));
    } else {
      assert StoreInv(after) by {
        forall k | k in after.ledger.claims && after.ledger.claims[k] == Complete ensures exists d :: (d, k) in after.store {
          var d :| (d, k) in s.store;
          assert (d, k) in after.store;
        }
        forall p | p in after.store ensures StoredOk(after, p) {
          if p != (w.dir, key) { assert StoredOk(s, p); }
        }
      }
      assert HoldersInv(after);
    }
  }

  lemma FinishedStore(s: Sys, after: Sys, key: RunKey, d: Dir)
    requires StoreInv(s) && (d, key) in s.store && after.store == s.store && |after.workers| == |s.workers|
    requires after.ledger == s.ledger.(claims := s.ledger.claims[key := Complete])
    requires forall j | 0 <= j < |after.workers| :: !Holding(after.workers[j])
    ensures StoreInv(after)
  {
    forall k | k in after.ledger.claims && after.ledger.claims[k] == Complete ensures exists d :: (d, k) in after.store {
      if k == key {
        assert (d, key) in after.store;
      } else {
        var d :| (d, k) in s.store;
        assert (d, k) in after.store;
      }
    }
    forall p | p in after.store ensures StoredOk(after, p) { assert StoredOk(s, p); }
  }

  lemma FinishKeeps(s: Sys, i: nat)
    requires Inv(s) && i < |s.workers| && s.workers[i].pc.AtFinish?
    ensures Inv(Advance(s, i))
  {
    var w := s.workers[i];
    assert HolderOk(s, w);
    var key := Key(w);
    var after := Advance(s, i);
    assert after.ledger.claims == s.ledger.claims[key := Complete];
    assert forall j | 0 <= j < |after.workers| :: !Holding(after.workers[j]);
    FinishedStore(s, after, key, w.dir);
  }

  /** Loading and comparing a stored result are local. */
  lemma ReadingKeeps(s: Sys, i: nat)
    requires Inv(s) && i < |s.workers| && (s.workers[i].pc.AtLoad? || s.workers[i].pc.AtCompare?)
    ensures Inv(Advance(s, i))
  {
    LocalKeeps(s, i, Advance(s, i).workers[i]);
  }

  lemma AccountKeeps(s: Sys, i: nat)
    requires Inv(s) && i < |s.workers| && s.workers[i].pc.AtAccount?
    ensures Inv(Advance(s, i))
  {
    assert HolderOk(s, s.workers[i]);
    RowsFromAttempts(s.ledger.attempts, Key(s.workers[i]));
    LocalKeeps(s, i, Advance(s, i).workers[i]);
  }

  lemma GoKeeps(s: Sys, i: nat)
    requires Inv(s) && i < |s.workers|
    ensures Inv(Advance(s, i))
  {
    match s.workers[i].pc {
      case AtLoad => ReadingKeeps(s, i);
      case AtCompare(_) => ReadingKeeps(s, i);
      case AtClaim => ClaimKeeps(s, i);
      case AtAccount(_) => AccountKeeps(s, i);
      case AtSave(_) => SaveKeeps(s, i);
      case AtFinish(_) => FinishKeeps(s, i);
      case _ =>
    }
  }

  /** The holder of run `Key(w)` replaces or appends the newest row, which is its own. */
  lemma LedgerStepKeeps(s: Sys, i: nat, w: Worker, prefix: seq<Attempt>, a: Attempt, calls: seq<RunKey>)
    requires Inv(s) && i < |s.workers| && s.workers[i].pc.Running?
    requires w.dir == s.workers[i].dir && w.runs == s.workers[i].runs && w.results == s.workers[i].results && w.pc.Running?
    requires HasKey(w) && a.runKey == Key(w)
    requires s.ledger.attempts == prefix || exists b :: s.ledger.attempts == prefix + [b] && b.runKey == a.runKey
    requires var after := Put(s, i, w).(ledger := s.ledger.(attempts := prefix + [a]), calls := calls);
             LedgerInv(after) && HolderOk(after, w)
    ensures Inv(Put(s, i, w).(ledger := s.ledger.(attempts := prefix + [a]), calls := calls))
  {
    var after := Put(s, i, w).(ledger := s.ledger.(attempts := prefix + [a]), calls := calls);
    assert forall j | 0 <= j < |after.workers| && j != i :: !Holding(after.workers[j]);
    forall p | p in after.store ensures StoredOk(after, p) {
      assert StoredOk(s, p);
      RowsAppend(prefix, a, p.1);
      if s.ledger.attempts != prefix {
        var b :| s.ledger.attempts == prefix + [b] && b.runKey == a.runKey;
        OthersUnchanged(s.ledger, prefix, a, b, p.1);
      }
    }
  }

  lemma ReservedHolder(s: Sys, w: Worker, after: Sys, next: Worker)
    requires w.pc.Running? && HolderOk(s, w) && w.pc.call.Idle? && w.pc.wrapper.usageComplete && AllSettled(s.ledger.attempts)
    requires after.ledger == s.ledger.(attempts := s.ledger.attempts + [Attempt(Key(w), RESERVE, Pending)])
    requires next == w.(pc := Running(w.pc.wrapper, InFlight(|s.ledger.attempts|)))
    ensures HolderOk(after, next)
  {
    assert after.ledger.attempts[..|s.ledger.attempts|] == s.ledger.attempts;
  }

  lemma SendReserves(s: Sys, i: nat, w: Worker, drift: bool)
    requires i < |s.workers| && s.workers[i] == w && w.pc.Running? && w.pc.call.Idle? && HasKey(w)
    requires BeginTurn(s.ledger, w.pc.wrapper, Key(w), drift).call.Some?
    ensures SendStep(s, i, drift) ==
            Put(s, i, w.(pc := Running(w.pc.wrapper, InFlight(|s.ledger.attempts|))))
              .(ledger := s.ledger.(attempts := s.ledger.attempts + [Attempt(Key(w), RESERVE, Pending)]), calls := s.calls + [Key(w)])
    ensures w.pc.wrapper.failure.None? && Reserved(s.ledger, Key(w)).Ok? && AllSettled(s.ledger.attempts)
  {
  }

  lemma ReservedLedger(s: Sys, key: RunKey, after: Sys)
    requires LedgerInv(s) && key in s.ledger.claims && Reserved(s.ledger, key).Ok?
    requires after.ledger == s.ledger.(attempts := s.ledger.attempts + [Attempt(key, RESERVE, Pending)])
    requires after.calls == s.calls + [key]
    ensures LedgerInv(after)
  {
    CommitKeepsSafe(s.ledger, DoReserve(key));
  }

  lemma ReservedKeeps(s: Sys, i: nat, w: Worker, drift: bool)
    requires Inv(s) && i < |s.workers| && s.workers[i] == w && w.pc.Running? && w.pc.call.Idle? && HasKey(w)
    requires BeginTurn(s.ledger, w.pc.wrapper, Key(w), drift).call.Some?
    ensures Inv(SendStep(s, i, drift))
  {
    assert HolderOk(s, w);
    var after := SendStep(s, i, drift);
    SendReserves(s, i, w, drift);
    ReservedLedger(s, Key(w), after);
    ReservedHolder(s, w, after, after.workers[i]);
    LedgerStepKeeps(s, i, after.workers[i], s.ledger.attempts, Attempt(Key(w), RESERVE, Pending), after.calls);
  }

  lemma SendKeeps(s: Sys, i: nat, drift: bool)
    requires Inv(s) && i < |s.workers|
    ensures Inv(SendStep(s, i, drift))
  {
    var w := s.workers[i];
    if w.pc.Running? && w.pc.call.Idle? && HasKey(w) {
      if BeginTurn(s.ledger, w.pc.wrapper, Key(w), drift).call.Some? {
        ReservedKeeps(s, i, w, drift);
      } else {
        assert HolderOk(s, w);
        var after := SendStep(s, i, drift);
        assert after == Put(s, i, after.workers[i]);
        LocalKeeps(s, i, after.workers[i]);
      }
    }
  }

  lemma SettledLedger(s: Sys, after: Sys, prefix: seq<Attempt>, a: Attempt, b: Attempt)
    requires LedgerInv(s) && Safe(after.ledger) && s.ledger.attempts == prefix + [a] && after.ledger.attempts == prefix + [b]
    requires a.runKey == b.runKey && after.ledger.claims == s.ledger.claims && after.calls == s.calls
    ensures LedgerInv(after)
  {
    forall x | x in after.ledger.attempts ensures x.runKey in after.ledger.claims {
      if x == b { assert a in s.ledger.attempts; } else { assert x in s.ledger.attempts; }
    }
  }

  /** The wrapper after a settled call. */
  function Counting(w: Wrapper, prompt: int, completion: int): Wrapper {
    w.(cost := w.cost + Cost(prompt, completion), input := w.input + prompt, output := w.output + completion)
  }

  lemma AnswerSettles(s: Sys, i: nat, w: Worker, prompt: int, completion: int, prefix: seq<Attempt>, b: Attempt)
    requires i < |s.workers| && s.workers[i] == w && w.pc.Running? && w.pc.call.InFlight? && HasKey(w)
    requires WithinBounds(prompt, completion) && w.pc.call.id == |s.ledger.attempts| - 1
    requires s.ledger.attempts == prefix + [Attempt(Key(w), RESERVE, Pending)]
    requires b == Attempt(Key(w), RESERVE, Settled(Cost(prompt, completion), prompt, completion))
    ensures Apply(s, Answer(i, Usage(prompt, completion))) ==
            Put(s, i, w.(pc := Running(Counting(w.pc.wrapper, prompt, completion), Idle)))
              .(ledger := s.ledger.(attempts := prefix + [b]))
  {
    assert s.ledger.attempts[w.pc.call.id := b] == prefix + [b];
    assert SettledAs(s.ledger, w.pc.call.id, prompt, completion) == Ok(s.ledger.(attempts := prefix + [b]));
  }

  lemma SettledCounts(prefix: seq<Attempt>, b: Attempt, key: RunKey, w: Wrapper, prompt: int, completion: int)
    requires b == Attempt(key, RESERVE, Settled(Cost(prompt, completion), prompt, completion))
    requires Counted(Rows(prefix, key), w)
    ensures Counted(Rows(prefix + [b], key), Counting(w, prompt, completion))
  {
    RowsAppend(prefix, b, key);
    SumsAppend(Rows(prefix, key), b);
  }

  lemma SettledRows(l: Ledger, prefix: seq<Attempt>, a: Attempt, b: Attempt)
    requires Safe(l) && l.attempts == prefix + [a] && b.state.Settled?
    ensures AllSettled(prefix + [b])
  {
    assert forall i | 0 <= i < |prefix| :: l.attempts[i] == prefix[i];
  }

  lemma SettledHolder(s: Sys, w: Worker, after: Sys, next: Worker)
    requires w.pc.Running? && HolderOk(s, w) && next.pc.Running? && next.pc.call.Idle?
    requires next == w.(pc := next.pc) && next.pc.wrapper.usageComplete && after.ledger.claims == s.ledger.claims
    requires AllSettled(after.ledger.attempts) && Counted(Rows(after.ledger.attempts, Key(w)), next.pc.wrapper)
    ensures HolderOk(after, next)
  {
  }

  lemma SettleKeeps(s: Sys, i: nat, prompt: int, completion: int)
    requires Inv(s) && i < |s.workers| && s.workers[i].pc.Running? && s.workers[i].pc.call.InFlight?
    requires WithinBounds(prompt, completion)
    ensures Inv(Apply(s, Answer(i, Usage(prompt, completion))))
  {
    var w := s.workers[i];
    assert HolderOk(s, w);
    var prefix, a := s.ledger.attempts[..w.pc.call.id], s.ledger.attempts[w.pc.call.id];
    var b := Attempt(Key(w), RESERVE, Settled(Cost(prompt, completion), prompt, completion));
    var after := Apply(s, Answer(i, Usage(prompt, completion)));
    assert s.ledger.attempts == prefix + [a];
    AnswerSettles(s, i, w, prompt, completion, prefix, b);
    CommitKeepsSafe(s.ledger, DoSettle(w.pc.call.id, prompt, completion));
    assert Commit(s.ledger, DoSettle(w.pc.call.id, prompt, completion)) == after.ledger;
    SettledRows(s.ledger, prefix, a, b);
    SettledCounts(prefix, b, Key(w), w.pc.wrapper, prompt, completion);
    SettledHolder(s, w, after, after.workers[i]);
    SettledLedger(s, after, prefix, a, b);
    LedgerStepKeeps(s, i, after.workers[i], prefix, b, after.calls);
  }

  lemma AnswerKeeps(s: Sys, i: nat, reply: Reply)
    requires Inv(s)
    ensures Inv(Apply(s, Answer(i, reply)))
  {
    if i < |s.workers| && s.workers[i].pc.Running? && s.workers[i].pc.call.InFlight? {
      var w := s.workers[i];
      assert HolderOk(s, w);
      if reply.Usage? && WithinBounds(reply.prompt, reply.completion) {
        SettleKeeps(s, i, reply.prompt, reply.completion);
      } else {
        var after := Apply(s, Answer(i, reply));
        assert after == Put(s, i, after.workers[i]);
        LocalKeeps(s, i, after.workers[i]);
      }
    }
  }

  lemma StepKeeps(s: Sys, e: Event)
    requires Inv(s)
    ensures Inv(Apply(s, e))
  {
    match e {
      case Spawn(dir, runs) => SpawnKeeps(s, dir, runs);
      case Go(i) => if i < |s.workers| { GoKeeps(s, i); }
      case Send(i, drift) => if i < |s.workers| { SendKeeps(s, i, drift); }
      case Answer(i, reply) => AnswerKeeps(s, i, reply);
      case SettleFault(i) =>
        if i < |s.workers| && s.workers[i].pc.Running? && s.workers[i].pc.call.InFlight? {
          assert HolderOk(s, s.workers[i]);
          assert s.ledger.attempts[s.workers[i].pc.call.id] in s.ledger.attempts;
          LocalKeeps(s, i, s.workers[i].(pc := Running(s.workers[i].pc.wrapper, Idle)));
        }
      case Finish(i, ending) =>
        if i < |s.workers| && s.workers[i].pc.Running? && s.workers[i].pc.call.Idle? {
          assert HolderOk(s, s.workers[i]);
          LocalKeeps(s, i, s.workers[i].(pc := AtAccount(Observe(s.workers[i].pc.wrapper, ending))));
        }
      case Crash(i) =>
        if i < |s.workers| && !s.workers[i].pc.Done? { LocalKeeps(s, i, s.workers[i].(pc := Crashed)); }
    }
  }

  lemma {:induction false} ReachableInv(es: seq<Event>)
    ensures Inv(Exec(EMPTY, es))
  {
    if es != [] {
      ReachableInv(es[..|es| - 1]);
      StepKeeps(Exec(EMPTY, es[..|es| - 1]), es[|es| - 1]);
    }
  }

  // ----- main results -----

  lemma ExecSnoc(s: Sys, es: seq<Event>, e: Event)
    ensures Exec(s, es + [e]) == Apply(Exec(s, es), e)
  {
    assert (es + [e])[..|es|] == es;
  }

  /** Over any number of processes, any interleaving and a crash at any point, the runner is started
      at most once per run key and only under a claim, and every provider request sits behind its
      own committed reservation for the same run. */
  lemma {:induction false} RunnerStartsAtMostOnce(es: seq<Event>)
    ensures var s := Exec(EMPTY, es);
            && (forall i, j | 0 <= i < j < |s.started| :: s.started[i] != s.started[j])
            && (forall k | k in s.started :: k in s.ledger.claims)
            && |s.calls| == |s.ledger.attempts|
            && (forall i | 0 <= i < |s.calls| :: s.calls[i] == s.ledger.attempts[i].runKey)
  {
    ReachableInv(es);
  }

  /** A claim marked complete always has its result already published. */
  lemma CompleteClaimIsPublished(es: seq<Event>, key: RunKey)
    requires var s := Exec(EMPTY, es);
             key in s.ledger.claims && s.ledger.claims[key] == Complete
    ensures var s := Exec(EMPTY, es);
            exists d :: (d, key) in s.store && s.store[(d, key)].key == key
  {
    ReachableInv(es);
    var s := Exec(EMPTY, es);
    var d :| (d, key) in s.store;
    assert StoredOk(s, (d, key));
  }

  lemma HolderSettledIffLedgerSettled(s: Sys, w: Worker)
    requires Holding(w) && HolderOk(s, w)
    ensures AllSettled(Rows(s.ledger.attempts, Key(w))) <==> AllSettled(s.ledger.attempts)
  {
    RowsFromAttempts(s.ledger.attempts, Key(w));
  }

  /** Between provider calls, a wrapper whose usage is complete agrees with the ledger account of its
      run key in cost and in both token totals, exactly unless a settlement was lost. */
  lemma CompleteUsageEqualsAccount(es: seq<Event>, i: nat)
    requires var s := Exec(EMPTY, es);
             i < |s.workers| && s.workers[i].pc.Running? && s.workers[i].pc.call.Idle? && s.workers[i].pc.wrapper.usageComplete
    ensures var s := Exec(EMPTY, es);
            var w := s.workers[i].pc.wrapper;
            HasKey(s.workers[i]) &&
            (AccountOf(s.ledger, Key(s.workers[i])) == Known(w.cost, w.input, w.output) <==> AllSettled(s.ledger.attempts))
  {
    ReachableInv(es);
    var s := Exec(EMPTY, es);
    assert HolderOk(s, s.workers[i]);
    HolderSettledIffLedgerSettled(s, s.workers[i]);
  }

  /** A single worker for one key, as the witness below moves it. */
  function Lone(dir: Dir, key: RunKey, l: Ledger, pc: Pc, started: seq<RunKey>, calls: seq<RunKey>): Sys {
    Sys(l, map[], [Worker(dir, [key], [], pc)], started, calls)
  }

  lemma LoneClaims(dir: Dir, key: RunKey)
    ensures Exec(EMPTY, [Spawn(dir, [key])]) == Lone(dir, key, Ledger([], map[]), AtLoad, [], [])
    ensures Exec(EMPTY, [Spawn(dir, [key]), Go(0)]) == Lone(dir, key, Ledger([], map[]), AtClaim, [], [])
    ensures Exec(EMPTY, [Spawn(dir, [key]), Go(0), Go(0)]) ==
            Lone(dir, key, Ledger([], map[key := Active]), Running(FRESH, Idle), [key], [])
  {
    ExecSnoc(EMPTY, [], Spawn(dir, [key]));
    assert [] + [Spawn(dir, [key])] == [Spawn(dir, [key])];
    ExecSnoc(EMPTY, [Spawn(dir, [key])], Go(0));
    assert [Spawn(dir, [key])] + [Go(0)] == [Spawn(dir, [key]), Go(0)];
    ExecSnoc(EMPTY, [Spawn(dir, [key]), Go(0)], Go(0));
    assert [Spawn(dir, [key]), Go(0)] + [Go(0)] == [Spawn(dir, [key]), Go(0), Go(0)];
  }

  lemma LoneLoses(dir: Dir, key: RunKey, s: Sys, claims: map<RunKey, Claim>)
    requires s == Lone(dir, key, Ledger([], claims), Running(FRESH, Idle), [key], [])
    ensures Apply(s, Send(0, false)) ==
            Lone(dir, key, Ledger([Attempt(key, RESERVE, Pending)], claims), Running(FRESH, InFlight(0)), [key], [key])
    ensures Apply(Apply(s, Send(0, false)), SettleFault(0)) ==
            Lone(dir, key, Ledger([Attempt(key, RESERVE, Pending)], claims), Running(FRESH, Idle), [key], [key])
  {
    assert s.ledger.attempts + [Attempt(key, RESERVE, Pending)] == [Attempt(key, RESERVE, Pending)];
    assert Reserved(s.ledger, key) == Ok(Ledger([Attempt(key, RESERVE, Pending)], claims));
  }

  /** The failing half is real, for every run: one request whose settlement is lost leaves a wrapper
      that still calls its usage complete beside an account that is unknown. */
  lemma LostSettlementLeavesAccountUnknown(dir: Dir, key: RunKey)
    ensures var s := Exec(EMPTY, [Spawn(dir, [key]), Go(0), Go(0), Send(0, false), SettleFault(0)]);
            && s.workers == [Worker(dir, [key], [], Running(FRESH, Idle))] && FRESH.usageComplete
            && s.ledger.attempts == [Attempt(key, RESERVE, Pending)]
            && AccountOf(s.ledger, key) == Unknown
  {
    var es, send, fault := [Spawn(dir, [key]), Go(0), Go(0)], Send(0, false), SettleFault(0);
    LoneClaims(dir, key);
    LoneLoses(dir, key, Exec(EMPTY, es), map[key := Active]);
    ExecSnoc(EMPTY, es, send);
    ExecSnoc(EMPTY, es + [send], fault);
    assert es + [send] + [fault] == [Spawn(dir, [key]), Go(0), Go(0), send, fault];
    PendingMeansUnknown(Ledger([Attempt(key, RESERVE, Pending)], map[key := Active]), key, Attempt(key, RESERVE, Pending));
  }

  lemma PendingMeansUnknown(l: Ledger, key: RunKey, a: Attempt)
    requires a in l.attempts && a.runKey == key && a.state.Pending?
    ensures AccountOf(l, key) == Unknown
  {
    RowsFromAttempts(l.attempts, key);
    assert a in Rows(l.attempts, key);
  }

  /** The comparison after a run never rejects known usage against a settled ledger: the record then
      carries the account's cost and keeps the runner's own verdict.  Publishing it and completing
      the claim are never refused either. */
  lemma RecordedRunIsAccepted(es: seq<Event>, i: nat)
    requires i < |Exec(EMPTY, es).workers|
    ensures var s := Exec(EMPTY, es);
            var w := s.workers[i];
            match w.pc
            case AtAccount(seen) =>
              HasKey(w) && (seen.tokens.Some? ==>
                var r := RecordOf(Key(w), seen, AccountOf(s.ledger, Key(w)));
                && (r.cost.Some? <==> AllSettled(s.ledger.attempts))
                && (r.cost.Some? ==> r.failure == seen.failure && Accepted(r, AccountOf(s.ledger, Key(w)))))
            case AtSave(r) => HasKey(w) && r.key == Key(w) && (w.dir, Key(w)) !in s.store
            case AtFinish(r) => HasKey(w) && Finished(s.ledger, Key(w)).Ok?
            case _ => true
  {
    ReachableInv(es);
    var s := Exec(EMPTY, es);
    var w := s.workers[i];
    if Holding(w) {
      assert HolderOk(s, w);
      HolderSettledIffLedgerSettled(s, w);
      assert forall p | p in s.store :: StoredOk(s, p);
    }
  }

  /** A process at its claim gets it, and starts its runner, exactly if no request is unsettled, no claim
      is open and its key was never claimed; completed claims of other keys do not stand in the way. */
  lemma ClaimIsGrantedIff(es: seq<Event>, i: nat)
    requires var s := Exec(EMPTY, es); i < |s.workers| && s.workers[i].pc.AtClaim? && HasKey(s.workers[i])
    ensures var s, t := Exec(EMPTY, es), Apply(Exec(EMPTY, es), Go(i));
            var key := Key(s.workers[i]);
            if && (forall a | a in s.ledger.attempts :: !a.state.Pending?)
               && (forall k | k in s.ledger.claims :: s.ledger.claims[k] == Complete)
               && key !in s.ledger.claims
            then
              && t.workers[i] == s.workers[i].(pc := Running(Wrapper(0, 0, 0, true, None), Idle))
              && t.ledger == Ledger(s.ledger.attempts, s.ledger.claims[key := Active]) && t.started == s.started + [key]
            else t.workers[i] == s.workers[i].(pc := Stopped) && t.ledger == s.ledger && t.started == s.started
  {
    ReachableInv(es);
  }

  /** A turn up to its request: it is refused after any failure, on drift, while a request is unsettled
      and when the worst case does not fit; only the last of these leaves the usage complete. */
  lemma TurnBegins(l: Ledger, w: Wrapper, key: RunKey, drift: bool)
    ensures var unsettled := exists a :: a in l.attempts && a.state.Pending?;
            BeginTurn(l, w, key, drift) ==
            if w.failure.Some? then Begun(l, w, None)
            else if drift then Begun(l, w.(failure := Some(RequestDrift)), None)
            else if unsettled then Begun(l, w.(failure := Some(Refused(BudgetUnsettled)), usageComplete := false), None)
            else if Charged(l.attempts) + 2_129_920 > 10_000_000 then Begun(l, w.(failure := Some(Refused(BudgetExhausted))), None)
            else Begun(l.(attempts := l.attempts + [Attempt(key, 2_129_920, Pending)]), w, Some(|l.attempts|))
  {
  }

  /** A turn after its request: bounded usage settles the attempt at its cost and is added up; anything
      else leaves it pending, the usage incomplete, and the wrapper stopped with what went wrong. */
  lemma TurnEnds(l: Ledger, w: Wrapper, id: nat, reply: Reply)
    requires id < |l.attempts| && l.attempts[id].state.Pending?
    ensures var (after, next) := EndTurn(l, w, id, reply);
            if reply.Usage? && 0 <= reply.prompt <= 1_048_576 && 0 <= reply.completion <= 4096 then
              var cost := 2 * reply.prompt + 8 * reply.completion;
              && after == l.(attempts := l.attempts[id := Attempt(l.attempts[id].runKey, l.attempts[id].reserved, Settled(cost, reply.prompt, reply.completion))])
              && next == w.(cost := w.cost + cost, input := w.input + reply.prompt, output := w.output + reply.completion)
            else
              && after == l
              && next == w.(usageComplete := false,
                            failure := Some(match reply
                                            case TransportError => Transport
                                            case NoUsage => UsageUnavailable
                                            case Usage(p, q) => if p < 0 || q < 0 then UsageUnavailable else Refused(UsageBoundViolation)))
  {
  }

  /** A stored result is accepted on cost and both token totals, all known and all equal; a recorded one
      stops the batch without a cost, on drift, and on any refusal of the ledger. */
  lemma ComparisonIsFull(r: Record, account: Account)
    ensures Accepted(r, account) <==>
            match account
            case Unknown => false
            case Known(cost, prompt, completion) => r.cost == Some(cost) && r.tokens == Some((prompt, completion))
    ensures StopsBatch(r) <==> r.cost == None || (r.failure.Some? && (r.failure.value == RequestDrift || r.failure.value.Refused?))
  {
  }

  /** What a record says of the run it was made for, field by field. */
  lemma RecordTells(key: RunKey, w: Wrapper, ending: Ending, account: Account)
    ensures var r := RecordOf(key, Observe(w, ending), account);
            var counted := if account.Known? then (account.prompt, account.completion) else (0, 0);
            && r.key == key
            && (r.completed <==> ending.Returned? && ending.completed && w.failure.None?)
            && r.tokens == (if ending.Returned? && w.usageComplete then Some((w.input, w.output)) else None)
            && r.cost == (if r.tokens == Some(counted) && account.Known? then Some(account.cost) else None)
            && r.failure == (if r.tokens.None? && r.completed then Some(UsageUnavailable)
                             else if r.tokens.Some? && r.tokens.value != counted then Some(CostUnavailable)
                             else if ending.Raised? then Some(ending.cause)
                             else if w.failure.Some? then w.failure
                             else if ending.other.Some? || ending.completed then ending.other
                             else Some(RuntimeFailed))
  {
  }

  /** An attempt left pending (its process crashed, or its settlement was refused or lost). */
  predicate Orphaned(s: Sys) {
    && !AllSettled(s.ledger.attempts)
    && forall i | 0 <= i < |s.workers| :: !(s.workers[i].pc.Running? && s.workers[i].pc.call.InFlight?)
  }

  ghost predicate SameLedgerAndStarts(s: Sys, t: Sys) {
    && t.ledger.attempts == s.ledger.attempts && t.ledger.claims.Keys == s.ledger.claims.Keys
    && t.started == s.started && t.calls == s.calls
  }

  lemma OrphanGo(s: Sys, i: nat)
    requires Orphaned(s) && i < |s.workers|
    ensures Orphaned(Advance(s, i)) && SameLedgerAndStarts(s, Advance(s, i))
  {
    assert !AllSettled(s.ledger.attempts);
  }

  lemma OrphanSend(s: Sys, i: nat, drift: bool)
    requires Orphaned(s) && i < |s.workers|
    ensures Orphaned(SendStep(s, i, drift)) && SameLedgerAndStarts(s, SendStep(s, i, drift))
  {
  }

  lemma OrphanStep(s: Sys, e: Event)
    requires Orphaned(s)
    ensures Orphaned(Apply(s, e)) && SameLedgerAndStarts(s, Apply(s, e))
  {
    match e {
      case Go(i) => if i < |s.workers| { OrphanGo(s, i); }
      case Send(i, drift) => if i < |s.workers| { OrphanSend(s, i, drift); }
      case _ =>
    }
  }

  /** An orphaned attempt blocks every later claim and every later reservation, whatever happens. */
  lemma {:induction false} OrphanBlocksForever(s: Sys, es: seq<Event>)
    requires Orphaned(s)
    ensures Orphaned(Exec(s, es)) && SameLedgerAndStarts(s, Exec(s, es))
  {
    if es != [] {
      OrphanBlocksForever(s, es[..|es| - 1]);
      OrphanStep(Exec(s, es[..|es| - 1]), es[|es| - 1]);
    }
  }

  // ----- resume -----

  lemma StoreIsCreateOnly(s: Sys, e: Event, p: (Dir, RunKey))
    requires p in s.store
    ensures p in Apply(s, e).store && Apply(s, e).store[p] == s.store[p]
  {
  }

  function StoredResults(s: Sys, dir: Dir, runs: seq<RunKey>): seq<Record>
    requires forall k | k in runs :: (dir, k) in s.store
  {
    seq(|runs|, i requires 0 <= i < |runs| => s.store[(dir, runs[i])])
  }

  /** Where a resuming worker `n` can be: it only reads, and has replayed a prefix of the stored results. */
  ghost predicate Replaying(s: Sys, n: nat, dir: Dir, runs: seq<RunKey>, stored: seq<Record>) {
    && n < |s.workers|
    && var w := s.workers[n];
    && w.dir == dir && w.runs == runs && |w.results| <= |stored| && w.results == stored[..|w.results|]
    && (match w.pc
        case AtLoad => forall r | r in w.results :: r.cost.Some?
        case AtCompare(previous) =>
          |w.results| > 0 && previous == w.results[|w.results| - 1]
          && forall r | r in w.results[..|w.results| - 1] :: r.cost.Some?
        case Done => w.results == stored && forall r | r in stored :: r.cost.Some?
        case Stopped => exists r :: r in stored && r.cost.None?
        case Crashed => true
        case _ => false)
  }

  ghost predicate AllStored(s: Sys, dir: Dir, runs: seq<RunKey>, stored: seq<Record>) {
    |stored| == |runs| && forall i | 0 <= i < |runs| :: (dir, runs[i]) in s.store && s.store[(dir, runs[i])] == stored[i]
  }

  /** Steps a resuming worker still has to take; every own step uses one up. */
  function Remaining(w: Worker): int {
    match w.pc
    case AtLoad => 2 * (|w.runs| - |w.results|) + 1
    case AtCompare(_) => 2 * (|w.runs| - |w.results|) + 2
    case _ => 0
  }

  lemma ReplayLoad(s: Sys, n: nat, dir: Dir, runs: seq<RunKey>, stored: seq<Record>)
    requires AllStored(s, dir, runs, stored) && Replaying(s, n, dir, runs, stored) && s.workers[n].pc.AtLoad?
    ensures Replaying(Advance(s, n), n, dir, runs, stored)
    ensures Remaining(Advance(s, n).workers[n]) < Remaining(s.workers[n])
  {
    var w := s.workers[n];
    if HasKey(w) {
      assert stored[..|w.results| + 1] == w.results + [stored[|w.results|]];
    } else {
      assert stored[..|w.results|] == stored;
    }
  }

  lemma ReplayCompare(s: Sys, n: nat, dir: Dir, runs: seq<RunKey>, stored: seq<Record>)
    requires Inv(s) && AllStored(s, dir, runs, stored) && Replaying(s, n, dir, runs, stored) && s.workers[n].pc.AtCompare?
    ensures Replaying(Advance(s, n), n, dir, runs, stored)
    ensures Remaining(Advance(s, n).workers[n]) < Remaining(s.workers[n])
  {
    var w := s.workers[n];
    var k := |w.results| - 1;
    assert w.results == w.results[..k] + [w.pc.previous];
    assert StoredOk(s, (dir, runs[k]));
    assert w.pc.previous in stored;
  }

  lemma ReplayGo(s: Sys, n: nat, dir: Dir, runs: seq<RunKey>, stored: seq<Record>)
    requires Inv(s) && AllStored(s, dir, runs, stored) && Replaying(s, n, dir, runs, stored)
    ensures Replaying(Advance(s, n), n, dir, runs, stored)
    ensures Remaining(s.workers[n]) > 0 ==> Remaining(Advance(s, n).workers[n]) < Remaining(s.workers[n])
  {
    match s.workers[n].pc {
      case AtLoad => ReplayLoad(s, n, dir, runs, stored);
      case AtCompare(_) => ReplayCompare(s, n, dir, runs, stored);
      case _ =>
    }
  }

  lemma OthersLeaveReaderAlone(s: Sys, e: Event, n: nat)
    requires n < |s.workers| && !Holding(s.workers[n]) && e != Go(n)
    ensures n < |Apply(s, e).workers|
    ensures Apply(s, e).workers[n] == s.workers[n] || Apply(s, e).workers[n] == s.workers[n].(pc := Crashed)
  {
  }

  lemma ReplayStep(s: Sys, e: Event, n: nat, dir: Dir, runs: seq<RunKey>, stored: seq<Record>)
    requires Inv(s) && AllStored(s, dir, runs, stored) && Replaying(s, n, dir, runs, stored)
    ensures AllStored(Apply(s, e), dir, runs, stored) && Replaying(Apply(s, e), n, dir, runs, stored)
  {
    forall i | 0 <= i < |runs|
      ensures (dir, runs[i]) in Apply(s, e).store && Apply(s, e).store[(dir, runs[i])] == stored[i]
    {
      StoreIsCreateOnly(s, e, (dir, runs[i]));
    }
    if e == Go(n) {
      ReplayGo(s, n, dir, runs, stored);
    } else {
      OthersLeaveReaderAlone(s, e, n);
    }
  }

  /** A resume over a batch whose results are all stored never claims, starts a runner or calls the
      provider: in every state it has replayed a prefix of the stored results.  What it comes to is
      `ResumeReturnsStoredResults`. */
  lemma {:induction false} ResumeReplaysStoredResults(before: seq<Event>, dir: Dir, runs: seq<RunKey>, es: seq<Event>)
    requires forall k | k in runs :: (dir, k) in Exec(EMPTY, before).store
    ensures var s := Exec(EMPTY, before);
            var t := Exec(Apply(s, Spawn(dir, runs)), es);
            var stored := StoredResults(s, dir, runs);
            && Inv(t) && AllStored(t, dir, runs, stored)
            && Replaying(t, |s.workers|, dir, runs, stored)
            && (t.workers[|s.workers|].pc.Done? ==>
                  t.workers[|s.workers|].results == stored && forall r | r in stored :: r.cost.Some?)
            && (t.workers[|s.workers|].pc.Stopped? ==> exists r :: r in stored && r.cost.None?)
  {
    var s := Exec(EMPTY, before);
    ReachableInv(before);
    StepKeeps(s, Spawn(dir, runs));
    if es != [] {
      ResumeReplaysStoredResults(before, dir, runs, es[..|es| - 1]);
      var t := Exec(Apply(s, Spawn(dir, runs)), es[..|es| - 1]);
      StepKeeps(t, es[|es| - 1]);
      ReplayStep(t, es[|es| - 1], |s.workers|, dir, runs, StoredResults(s, dir, runs));
    }
  }

  /** How many of the events are own steps of worker `n`. */
  function OwnGos(es: seq<Event>, n: nat): nat {
    if es == [] then 0 else OwnGos(es[..|es| - 1], n) + if es[|es| - 1] == Go(n) then 1 else 0
  }

  lemma ReaderProgress(s: Sys, e: Event, n: nat, dir: Dir, runs: seq<RunKey>, stored: seq<Record>)
    requires Inv(s) && AllStored(s, dir, runs, stored) && Replaying(s, n, dir, runs, stored) && e != Crash(n)
    ensures n < |Apply(s, e).workers|
    ensures !s.workers[n].pc.Crashed? ==> !Apply(s, e).workers[n].pc.Crashed?
    ensures Remaining(Apply(s, e).workers[n]) <= Remaining(s.workers[n])
    ensures e == Go(n) && Remaining(s.workers[n]) > 0 ==> Remaining(Apply(s, e).workers[n]) < Remaining(s.workers[n])
  {
    if e == Go(n) {
      ReplayGo(s, n, dir, runs, stored);
    } else {
      OthersLeaveReaderAlone(s, e, n);
    }
  }

  lemma {:induction false} ResumeUsesUpSteps(before: seq<Event>, dir: Dir, runs: seq<RunKey>, es: seq<Event>)
    requires forall k | k in runs :: (dir, k) in Exec(EMPTY, before).store
    requires Crash(|Exec(EMPTY, before).workers|) !in es
    ensures var n := |Exec(EMPTY, before).workers|;
            var t := Exec(Apply(Exec(EMPTY, before), Spawn(dir, runs)), es);
            && n < |t.workers| && !t.workers[n].pc.Crashed?
            && (Remaining(t.workers[n]) <= 0 || Remaining(t.workers[n]) + OwnGos(es, n) <= 2 * |runs| + 1)
  {
    var s := Exec(EMPTY, before);
    if es != [] {
      var rest := es[..|es| - 1];
      ResumeUsesUpSteps(before, dir, runs, rest);
      ResumeReplaysStoredResults(before, dir, runs, rest);
      var t := Exec(Apply(s, Spawn(dir, runs)), rest);
      ReaderProgress(t, es[|es| - 1], |s.workers|, dir, runs, StoredResults(s, dir, runs));
    }
  }

  /** A resume whose results are all stored comes to its end after at most `2 * |runs| + 1` own
      steps, however the other processes move in between: it returns exactly the stored results if
      all of them have a known cost, and stops otherwise. */
  lemma ResumeReturnsStoredResults(before: seq<Event>, dir: Dir, runs: seq<RunKey>, es: seq<Event>)
    requires forall k | k in runs :: (dir, k) in Exec(EMPTY, before).store
    requires Crash(|Exec(EMPTY, before).workers|) !in es
    requires OwnGos(es, |Exec(EMPTY, before).workers|) > 2 * |runs|
    ensures var s := Exec(EMPTY, before);
            var t := Exec(Apply(s, Spawn(dir, runs)), es);
            var stored := StoredResults(s, dir, runs);
            && |s.workers| < |t.workers|
            && var w := t.workers[|s.workers|];
            && w.pc == (if forall r | r in stored :: r.cost.Some? then Done else Stopped)
            && (w.pc.Done? ==> w.results == stored)
  {
    ResumeUsesUpSteps(before, dir, runs, es);
    ResumeReplaysStoredResults(before, dir, runs, es);
  }
}
