/** The plan check of a work order (frontend/src/workOrders.ts, validatePlan).

    The flat field checks of a task are one verdict per task here; the dependency graph is exact. */
module PlanOrder {
  import opened Basics

  type TaskId = string

  /** `fieldsOk`: id pattern, title, prompt, access, mode and profile all pass their own checks. */
  datatype Task = Task(id: TaskId, dependencies: seq<TaskId>, fieldsOk: bool, promptBytes: nat)
  datatype Plan = Plan(titleOk: bool, tasks: seq<Task>)
  datatype Verdict = Accepted | BadTitle | BadTaskCount | DuplicateIds | BadFields | BadDependencies | TooLarge | Cycle

  const MAX_TASKS := 64
  const MAX_BYTES := 512 * 1024

  function Ids(tasks: seq<Task>): set<TaskId> {
    set i | 0 <= i < |tasks| :: tasks[i].id
  }

  ghost predicate UniqueIds(tasks: seq<Task>) {
    forall i, j | 0 <= i < j < |tasks| :: tasks[i].id != tasks[j].id
  }

  ghost predicate GoodDependencies(t: Task, ids: set<TaskId>) {
    && (forall i, j | 0 <= i < j < |t.dependencies| :: t.dependencies[i] != t.dependencies[j])
    && (forall d | d in t.dependencies :: d != t.id && d in ids)
  }

  function TotalBytes(tasks: seq<Task>): nat {
    if tasks == [] then 0 else TotalBytes(tasks[..|tasks| - 1]) + tasks[|tasks| - 1].promptBytes
  }

  /** Prompt sizes add up over any division of the tasks. */
  lemma {:induction false} SizesAddUp(some: seq<Task>, more: seq<Task>)
    ensures TotalBytes(some + more) == TotalBytes(some) + TotalBytes(more)
    ensures forall t: Task :: TotalBytes([t]) == t.promptBytes
    decreases |more|
  {
    if more == [] {
      assert some + more == some;
    } else {
      SizesAddUp(some, more[..|more| - 1]);
      assert (some + more)[..|some + more| - 1] == some + more[..|more| - 1];
    }
    assert forall t: Task :: [t][..0] == [];
  }

  /** Everything that is required of a plan apart from the absence of cycles. */
  ghost predicate WellFormed(p: Plan) {
    && p.titleOk
    && 0 < |p.tasks| <= MAX_TASKS
    && UniqueIds(p.tasks)
    && (forall i | 0 <= i < |p.tasks| :: p.tasks[i].fieldsOk && GoodDependencies(p.tasks[i], Ids(p.tasks)))
    && TotalBytes(p.tasks) <= MAX_BYTES
  }

  /** `order` lists every task id once, each after all of its dependencies. */
  ghost predicate IsOrder(tasks: seq<Task>, order: seq<TaskId>) {
    Ordered(tasks, order) && forall i | 0 <= i < |tasks| :: tasks[i].id in order
  }

  ghost predicate Ordered(tasks: seq<Task>, order: seq<TaskId>) {
    && (forall k, l | 0 <= k < l < |order| :: order[k] != order[l])
    && (forall k | 0 <= k < |order| :: order[k] in Ids(tasks))
    && (forall i, k | 0 <= i < |tasks| && 0 <= k < |order| && order[k] == tasks[i].id ::
          forall d | d in tasks[i].dependencies :: d in order[..k])
  }

  ghost predicate Sortable(tasks: seq<Task>) {
    exists order :: IsOrder(tasks, order)
  }

  predicate Ready(t: Task, complete: set<TaskId>) {
    t.id !in complete && forall d | d in t.dependencies :: d in complete
  }

  /** If nothing is ready although something is missing, no order exists: the first missing element
      of an order would be ready. */
  lemma StuckMeansNoOrder(tasks: seq<Task>, complete: set<TaskId>, order: seq<TaskId>)
    requires forall i | 0 <= i < |tasks| :: !Ready(tasks[i], complete)
    requires !(Ids(tasks) <= complete)
    ensures !IsOrder(tasks, order)
  {
    if IsOrder(tasks, order) {
      var missing :| missing in Ids(tasks) && missing !in complete;
      var i :| 0 <= i < |tasks| && tasks[i].id == missing;
      var k :| 0 <= k < |order| && order[k] == missing;
      FirstMissingIsReady(tasks, complete, order, k);
    }
  }

  lemma {:induction false} FirstMissingIsReady(tasks: seq<Task>, complete: set<TaskId>, order: seq<TaskId>, k: nat)
    requires Ordered(tasks, order) && k < |order| && order[k] !in complete
    ensures exists i | 0 <= i < |tasks| :: Ready(tasks[i], complete)
  {
    var i :| 0 <= i < |tasks| && tasks[i].id == order[k];
    if !Ready(tasks[i], complete) {
      var d :| d in tasks[i].dependencies && d !in complete;
      var j :| 0 <= j < k && order[j] == d;
      FirstMissingIsReady(tasks, complete, order, j);
    }
  }

  /** One round of the elimination: every task that is ready becomes complete. */
  method Eliminate(tasks: seq<Task>, complete: set<TaskId>, ghost order: seq<TaskId>)
    returns (after: set<TaskId>, progressed: bool, ghost longer: seq<TaskId>)
    requires UniqueIds(tasks) && Ordered(tasks, order) && (forall x :: x in complete <==> x in order)
    ensures Ordered(tasks, longer) && (forall x :: x in after <==> x in longer)
    ensures progressed <==> exists i | 0 <= i < |tasks| :: Ready(tasks[i], complete)
    ensures if progressed then complete < after <= Ids(tasks) else after == complete
  {
    after, progressed, longer := complete, false, order;
    assert forall x | x in complete :: x in Ids(tasks);
    for n := 0 to |tasks|
      invariant Ordered(tasks, longer) && (forall x :: x in after <==> x in longer)
      invariant complete <= after <= Ids(tasks)
      invariant forall i | n <= i < |tasks| :: tasks[i].id in after ==> tasks[i].id in complete
      invariant progressed <==> exists i | 0 <= i < n :: Ready(tasks[i], complete)
      invariant if progressed then complete < after else after == complete
    {
      if Ready(tasks[n], complete) {
        Append(tasks, longer, n);
        longer := longer + [tasks[n].id];
        after := after + {tasks[n].id};
        progressed := true;
      }
    }
  }

  lemma Append(tasks: seq<Task>, order: seq<TaskId>, n: nat)
    requires UniqueIds(tasks) && Ordered(tasks, order) && n < |tasks|
    requires tasks[n].id !in order && forall d | d in tasks[n].dependencies :: d in order
    ensures Ordered(tasks, order + [tasks[n].id])
  {
    var longer := order + [tasks[n].id];
    assert longer[..|order|] == order;
    assert tasks[n].id in Ids(tasks);
    forall i, k | 0 <= i < |tasks| && 0 <= k < |longer| && longer[k] == tasks[i].id
      ensures forall d | d in tasks[i].dependencies :: d in longer[..k]
    {
      if k < |order| {
        assert longer[..k] == order[..k];
      } else {
        assert i == n;
      }
    }
  }

  method HasDuplicates(xs: seq<TaskId>) returns (found: bool)
    ensures found <==> exists i, j :: 0 <= i < j < |xs| && xs[i] == xs[j]
  {
    var seen: set<TaskId> := {};
    for n := 0 to |xs|
      invariant forall x :: x in seen <==> x in xs[..n]
      invariant forall i, j | 0 <= i < j < n :: xs[i] != xs[j]
    {
      if xs[n] in seen {
        return true;
      }
      seen := seen + {xs[n]};
    }
    found := false;
  }

  /** The elimination loop: it always ends, and it reports a cycle exactly when no order exists. */
  method HasCycle(tasks: seq<Task>) returns (cycle: bool)
    requires UniqueIds(tasks)
    ensures cycle <==> !Sortable(tasks)
  {
    var ids := Ids(tasks);
    var complete: set<TaskId> := {};
    ghost var order: seq<TaskId> := [];
    while !(ids <= complete)
      invariant complete <= ids
      invariant Ordered(tasks, order) && (forall x :: x in complete <==> x in order)
      decreases ids - complete
    {
      var after, progressed;
      after, progressed, order := Eliminate(tasks, complete, order);
      if !progressed {
        forall o ensures !IsOrder(tasks, o) {
          StuckMeansNoOrder(tasks, complete, o);
        }
        return true;
      }
      assert ids - after < ids - complete by {
        var x :| x in after && x !in complete;
        assert x in ids - complete && x !in ids - after;
      }
      complete := after;
    }
    assert IsOrder(tasks, order);
    cycle := false;
  }

  ghost predicate GoodTask(p: Plan, i: nat)
    requires i < |p.tasks|
  {
    p.tasks[i].fieldsOk && GoodDependencies(p.tasks[i], Ids(p.tasks))
  }

  /** Task `n` is the first one with something wrong. */
  ghost predicate FirstBad(p: Plan, n: nat) {
    n < |p.tasks| && !GoodTask(p, n) && forall i | 0 <= i < n :: GoodTask(p, i)
  }

  /** A title, 1 to 64 tasks, and no id twice. */
  ghost predicate Listed(p: Plan) {
    p.titleOk && 1 <= |p.tasks| <= 64 && forall i, j | 0 <= i < |p.tasks| && 0 <= j < |p.tasks| && i != j :: p.tasks[i].id != p.tasks[j].id
  }

  lemma BadStops(p: Plan, n: nat)
    requires n < |p.tasks| && !GoodTask(p, n) && forall i | 0 <= i < n :: GoodTask(p, i)
    ensures FirstBad(p, n) && !WellFormed(p) && forall m: nat :: FirstBad(p, m) ==> m == n
  {
  }

  lemma NamedTwice(p: Plan, names: seq<TaskId>)
    requires |names| == |p.tasks| && forall i | 0 <= i < |names| :: names[i] == p.tasks[i].id
    ensures (exists i, j :: 0 <= i < j < |names| && names[i] == names[j]) <==> !UniqueIds(p.tasks)
    ensures p.titleOk && 1 <= |p.tasks| <= 64 ==> (Listed(p) <==> UniqueIds(p.tasks))
  {
    if exists i, j :: 0 <= i < j < |names| && names[i] == names[j] {
      var i, j :| 0 <= i < j < |names| && names[i] == names[j];
      assert p.tasks[i].id == p.tasks[j].id;
    }
    if !UniqueIds(p.tasks) {
      var i, j :| 0 <= i < j < |p.tasks| && p.tasks[i].id == p.tasks[j].id;
      assert names[i] == names[j];
    }
  }

  /** A plan is accepted if and only if it is well formed and has an order; a cycle is reported if
      and only if it is well formed and has none.  Every other verdict names the first thing wrong, in
      the order title, number, ids, tasks one by one, size. */
  method ValidatePlan(p: Plan) returns (verdict: Verdict)
    ensures verdict.Accepted? <==> WellFormed(p) && Sortable(p.tasks)
    ensures verdict.Cycle? <==> WellFormed(p) && !Sortable(p.tasks)
    ensures verdict.BadTitle? <==> !p.titleOk
    ensures verdict.BadTaskCount? <==> p.titleOk && !(1 <= |p.tasks| <= 64)
    ensures verdict.DuplicateIds? <==> p.titleOk && 1 <= |p.tasks| <= 64 && !Listed(p)
    ensures verdict.BadFields? <==> Listed(p) && exists n: nat :: FirstBad(p, n) && !p.tasks[n].fieldsOk
    ensures verdict.BadDependencies? <==> Listed(p) && exists n: nat :: FirstBad(p, n) && p.tasks[n].fieldsOk
    ensures verdict.TooLarge? <==> Listed(p) && (forall i | 0 <= i < |p.tasks| :: GoodTask(p, i)) && TotalBytes(p.tasks) > 524_288
  {
    if !p.titleOk {
      return BadTitle;
    }
    if |p.tasks| == 0 || |p.tasks| > MAX_TASKS {
      return BadTaskCount;
    }
    var names := seq(|p.tasks|, i requires 0 <= i < |p.tasks| => p.tasks[i].id);
    var duplicated := HasDuplicates(names);
    NamedTwice(p, names);
    if duplicated {
      return DuplicateIds;
    }
    var bad, bytes, first := CheckTasks(p);
    if bad.Some? {
      BadStops(p, first);
      assert !GoodTask(p, first);
      return bad.value;
    }
    AllGoodMeans(p);
    if bytes > MAX_BYTES {
      return TooLarge;
    }
    var cycle := HasCycle(p.tasks);
    verdict := if cycle then Cycle else Accepted;
  }

  /** The scan over the tasks: the first one with something wrong, or the size of all prompts. */
  method CheckTasks(p: Plan) returns (bad: Option<Verdict>, bytes: nat, ghost first: nat)
    ensures bad.Some? ==> FirstBad(p, first) && bad.value == if p.tasks[first].fieldsOk then BadDependencies else BadFields
    ensures bad.None? ==> bytes == TotalBytes(p.tasks) && forall i | 0 <= i < |p.tasks| :: GoodTask(p, i)
  {
    var ids := Ids(p.tasks);
    bytes, first := 0, 0;
    for n := 0 to |p.tasks|
      invariant bytes == TotalBytes(p.tasks[..n])
      invariant forall i | 0 <= i < n :: GoodTask(p, i)
    {
      var t := p.tasks[n];
      first := n;
      if !t.fieldsOk {
        return Some(BadFields), bytes, n;
      }
      assert p.tasks[..n + 1][..n] == p.tasks[..n];
      bytes := bytes + t.promptBytes;
      var repeated := HasDuplicates(t.dependencies);
      if repeated || exists d | d in t.dependencies :: d == t.id || d !in ids {
        return Some(BadDependencies), bytes, n;
      }
    }
    assert p.tasks[..|p.tasks|] == p.tasks;
    bad := None;
  }

  lemma AllGoodMeans(p: Plan)
    requires forall i | 0 <= i < |p.tasks| :: GoodTask(p, i)
    ensures forall n: nat :: !FirstBad(p, n)
    ensures Listed(p) ==> (WellFormed(p) <==> TotalBytes(p.tasks) <= 524_288)
  {
    forall i | 0 <= i < |p.tasks| ensures p.tasks[i].fieldsOk && GoodDependencies(p.tasks[i], Ids(p.tasks)) {
      assert GoodTask(p, i);
    }
  }
}
