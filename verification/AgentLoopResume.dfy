/** Interrupting and resuming the agent loop changes nothing, and what the step budget guarantees. */
module AgentLoopResume {
  import opened Basics
  import opened AgentLoop

  // ----- interrupt/resume equivalence -----

  lemma {:induction false} BatchResumes<W>(env: Env<W>, log: Log<W>, step: int, messages: seq<Message>, calls: seq<Call>, k: nat)
    ensures match RunCalls(env, log, step, messages, calls, Some(k))
            case BatchStopped(c, l) =>
              && c.step == step && c.pending != []
              && RunCalls(env, l, step, c.messages, c.pending, None) == RunCalls(env, log, step, messages, calls, None)
            case BatchDone(m, l, rest) =>
              rest.Some? && RunCalls(env, log, step, messages, calls, None) == BatchDone(m, l, None)
            case BatchFailed(l) => RunCalls(env, log, step, messages, calls, None) == BatchFailed(l)
    decreases |calls|
  {
    if calls != [] && k > 0 {
      var (world, result) := env.exec(log.world, calls[0]);
      if !result.Fatal? {
        BatchResumes(env, Log(world, log.acts + [Ran(step, calls[0])]), step, messages + [ToolMessage(calls[0], result)], calls[1..], k - 1);
      }
    }
  }

  /** One interruption: the run either never reaches it and is the uninterrupted run, or it stops
      with a continuation from which the uninterrupted run goes on exactly as it would have. */
  lemma {:induction false} SegmentResumes<W>(env: Env<W>, max: Option<int>, horizon: nat, log: Log<W>, step: int,
                                             messages: seq<Message>, pending: seq<Call>, k: nat)
    requires 1 <= step && (max.Some? ==> step <= max.value && (pending != [] ==> step < max.value))
    ensures var whole := Loop(env, max, horizon, log, step, messages, pending, None);
            match Loop(env, max, horizon, log, step, messages, pending, Some(k))
            case Interrupted(c, left, l) =>
              && 1 <= c.step && (max.Some? ==> c.step < max.value) && c.pending != []
              && Loop(env, max, left, l, c.step, c.messages, c.pending, None) == whole
            case other => other == whole
    decreases horizon, |pending|
  {
    if pending != [] {
      BatchResumes(env, log, step, messages, pending, k);
      match RunCalls(env, log, step, messages, pending, Some(k)) {
        case BatchDone(m, l, rest) => SegmentResumes(env, max, horizon, l, step + 1, m, [], rest.value);
        case _ =>
      }
    } else if horizon > 0 {
      match Ask(env, max, log, step, messages) {
        case Calls(m, calls, l) => SegmentResumes(env, max, horizon - 1, l, step, m, calls, k);
        case Ends(_) =>
      }
    }
  }

  /** A run cut into segments: segment i is interrupted before its plan[i]-th tool call and the next
      one resumes its continuation; after the plan the last segment runs on without interruption. */
  function Chain<W>(env: Env<W>, max: Option<int>, first: Outcome<W>, plan: seq<nat>): Outcome<W>
    decreases |plan|
  {
    if !first.Interrupted? then first
    else if plan == [] then Resume(env, max, first.left, first.log, first.continuation, None)
    else Chain(env, max, Resume(env, max, first.left, first.log, first.continuation, Some(plan[0])), plan[1..])
  }

  lemma {:induction false} ChainFromContinuation<W>(env: Env<W>, max: Option<int>, left: nat, log: Log<W>, c: Continuation,
                                                    first: nat, plan: seq<nat>)
    requires 1 <= c.step && (max.Some? ==> c.step < max.value) && c.pending != []
    ensures Chain(env, max, Resume(env, max, left, log, c, Some(first)), plan) ==
            Loop(env, max, left, log, c.step, c.messages, c.pending, None)
    decreases |plan|
  {
    SegmentResumes(env, max, left, log, c.step, c.messages, c.pending, first);
    match Loop(env, max, left, log, c.step, c.messages, c.pending, Some(first)) {
      case Interrupted(d, rest, l) =>
        if plan != [] { ChainFromContinuation(env, max, rest, l, d, plan[0], plan[1..]); }
      case _ =>
    }
  }

  /** For every deterministic provider, compaction and tool behaviour and every plan of
      interruptions (also repeated ones before the same call), the interrupted and resumed run ends
      exactly like the uninterrupted one: same answer or failure, same messages, same provider
      inputs and tool executions in the same order, same environment state.  No resume is refused. */
  lemma InterruptionsChangeNothing<W>(env: Env<W>, max: Option<int>, horizon: nat, world: W, prompt: string,
                                      history: seq<Message>, first: nat, plan: seq<nat>)
    requires max.Some? ==> max.value >= 1
    ensures Chain(env, max, Start(env, max, horizon, Log(world, []), prompt, history, Some(first)), plan) ==
            Start(env, max, horizon, Log(world, []), prompt, history, None)
  {
    if PlainHistory(history) {
      var log := Log(world, []);
      SegmentResumes(env, max, horizon, log, 1, Opening(prompt, history), [], first);
      match Loop(env, max, horizon, log, 1, Opening(prompt, history), [], Some(first)) {
        case Interrupted(c, left, l) =>
          if plan != [] { ChainFromContinuation(env, max, left, l, c, plan[0], plan[1..]); }
        case _ =>
      }
    }
  }

  // ----- the step budget -----

  function CountAsked(acts: seq<Act>): nat {
    if acts == [] then 0
    else CountAsked(acts[..|acts| - 1]) + if acts[|acts| - 1].Asked? then 1 else 0
  }

  lemma CountSnoc(acts: seq<Act>, a: Act)
    ensures CountAsked(acts + [a]) == CountAsked(acts) + if a.Asked? then 1 else 0
  {
    assert (acts + [a])[..|acts|] == acts;
  }

  /** Every call so far is at a step of the budget; exactly the one at the last step is without
      tool schemas, and no tool ran at that step. */
  ghost predicate WithinBudget(acts: seq<Act>, max: int) {
    forall a | a in acts ::
      match a
      case Asked(step, _, schemas) => 1 <= step <= max && (schemas <==> step < max)
      case Ran(step, _) => 1 <= step < max
  }

  /** The synthesis call at the last step, once made, is the last act. */
  ghost predicate SynthesisIsLast(acts: seq<Act>, max: int) {
    forall i | 0 <= i < |acts| - 1 :: acts[i].step < max
  }

  /** Before the last step: everything so far is within the budget and below its last step. */
  ghost predicate Below(acts: seq<Act>, max: int, asked: int) {
    WithinBudget(acts, max) && (forall a | a in acts :: a.step < max) && CountAsked(acts) <= asked
  }

  ghost predicate EndsWithin<W>(outcome: Outcome<W>, max: int) {
    && !outcome.InvalidInput?
    && WithinBudget(outcome.log.acts, max) && SynthesisIsLast(outcome.log.acts, max)
    && CountAsked(outcome.log.acts) <= max
    && (outcome.Interrupted? ==>
          1 <= outcome.continuation.step < max && Below(outcome.log.acts, max, outcome.continuation.step))
  }

  lemma BelowEndsWithin<W>(outcome: Outcome<W>, max: int, asked: int)
    requires !outcome.InvalidInput? && Below(outcome.log.acts, max, asked) && asked <= max
    requires outcome.Interrupted? ==> 1 <= outcome.continuation.step < max && asked <= outcome.continuation.step
    ensures EndsWithin(outcome, max)
  {
    var acts := outcome.log.acts;
    assert forall i | 0 <= i < |acts| :: acts[i] in acts;
  }

  lemma {:induction false} BatchWithinBudget<W>(env: Env<W>, log: Log<W>, step: int, messages: seq<Message>, calls: seq<Call>,
                                                k: Option<nat>, max: int)
    requires 1 <= step < max && Below(log.acts, max, step)
    ensures var batch := RunCalls(env, log, step, messages, calls, k);
            Below(batch.log.acts, max, step) && (batch.BatchStopped? ==> batch.continuation.step == step)
    decreases |calls|
  {
    if calls != [] && k != Some(0) {
      var (world, result) := env.exec(log.world, calls[0]);
      CountSnoc(log.acts, Ran(step, calls[0]));
      if !result.Fatal? {
        BatchWithinBudget(env, Log(world, log.acts + [Ran(step, calls[0])]), step, messages + [ToolMessage(calls[0], result)],
                          calls[1..], Less(k), max);
      }
    }
  }

  lemma AskWithinBudget<W>(env: Env<W>, max: int, log: Log<W>, step: int, messages: seq<Message>)
    requires 1 <= step <= max && Below(log.acts, max, step - 1)
    ensures match Ask(env, Some(max), log, step, messages)
            case Calls(_, calls, l) => calls != [] && step < max && Below(l.acts, max, step)
            case Ends(outcome) => !outcome.Interrupted? && EndsWithin(outcome, max)
  {
    if env.compact(messages).Some? {
      var compacted := env.compact(messages).value;
      var final := max == step;
      var asked := Asked(step, if final then compacted + [Plain(SystemRole, FINAL_TURN_PROMPT)] else compacted, !final);
      CountSnoc(log.acts, asked);
      assert WithinBudget(log.acts + [asked], max);
      assert forall i | 0 <= i < |log.acts| :: log.acts[i] in log.acts;
    } else {
      BelowEndsWithin(Failed(log), max, step - 1);
    }
  }

  lemma {:induction false} LoopWithinBudget<W>(env: Env<W>, max: int, horizon: nat, log: Log<W>, step: int,
                                               messages: seq<Message>, pending: seq<Call>, k: Option<nat>)
    requires 1 <= step <= max && (pending != [] ==> step < max)
    requires Below(log.acts, max, if pending == [] then step - 1 else step)
    ensures EndsWithin(Loop(env, Some(max), horizon, log, step, messages, pending, k), max)
    decreases horizon, |pending|, 1
  {
    if pending != [] {
      PendingWithinBudget(env, max, horizon, log, step, messages, pending, k);
    } else if horizon == 0 {
      BelowEndsWithin(BeyondHorizon(log), max, step - 1);
    } else {
      AskedWithinBudget(env, max, horizon, log, step, messages, k);
    }
  }

  /** The turn that is asked for, and what follows from it. */
  lemma {:induction false} AskedWithinBudget<W>(env: Env<W>, max: int, horizon: nat, log: Log<W>, step: int,
                                                messages: seq<Message>, k: Option<nat>)
    requires horizon > 0 && 1 <= step <= max && Below(log.acts, max, step - 1)
    ensures EndsWithin(Loop(env, Some(max), horizon, log, step, messages, [], k), max)
    decreases horizon, 0, 0
  {
    var asking := Ask(env, Some(max), log, step, messages);
    AskWithinBudget(env, max, log, step, messages);
    AfterAsk(env, Some(max), horizon, log, step, messages, k, asking);
    if asking.Calls? {
      CallsWithinBudget(env, max, horizon - 1, asking.log, step, asking.messages, asking.calls, k);
    }
  }

  /** The calls of a turn that was asked for. */
  lemma {:induction false} CallsWithinBudget<W>(env: Env<W>, max: int, left: nat, log: Log<W>, step: int,
                                                messages: seq<Message>, calls: seq<Call>, k: Option<nat>)
    requires 1 <= step < max && calls != [] && Below(log.acts, max, step)
    ensures EndsWithin(Loop(env, Some(max), left, log, step, messages, calls, k), max)
    decreases left, |calls|, 2
  {
    LoopWithinBudget(env, max, left, log, step, messages, calls, k);
  }

  lemma AfterAsk<W>(env: Env<W>, max: Option<int>, horizon: nat, log: Log<W>, step: int, messages: seq<Message>,
                    k: Option<nat>, asking: Asking<W>)
    requires horizon > 0 && asking == Ask(env, max, log, step, messages)
    ensures Loop(env, max, horizon, log, step, messages, [], k) ==
            match asking
            case Ends(outcome) => outcome
            case Calls(m, calls, l) => Loop(env, max, horizon - 1, l, step, m, calls, k)
  {
  }

  lemma {:induction false} PendingWithinBudget<W>(env: Env<W>, max: int, horizon: nat, log: Log<W>, step: int,
                                                  messages: seq<Message>, pending: seq<Call>, k: Option<nat>)
    requires 1 <= step < max && pending != [] && Below(log.acts, max, step)
    ensures EndsWithin(Loop(env, Some(max), horizon, log, step, messages, pending, k), max)
    decreases horizon, |pending|, 0
  {
    var batch := RunCalls(env, log, step, messages, pending, k);
    BatchWithinBudget(env, log, step, messages, pending, k, max);
    AfterBatch(env, Some(max), horizon, log, step, messages, pending, k, batch);
    if batch.BatchDone? {
      TurnWithinBudget(env, max, horizon, step, batch.log, batch.messages, batch.interruptAt);
    } else {
      StoppedWithinBudget(max, horizon, step, batch);
    }
  }

  /** The turn after a completed batch. */
  lemma {:induction false} TurnWithinBudget<W>(env: Env<W>, max: int, horizon: nat, step: int, log: Log<W>,
                                               messages: seq<Message>, k: Option<nat>)
    requires 1 <= step < max && Below(log.acts, max, step)
    ensures EndsWithin(Loop(env, Some(max), horizon, log, step + 1, messages, [], k), max)
    decreases horizon, 0, 2
  {
    LoopWithinBudget(env, max, horizon, log, step + 1, messages, [], k);
  }

  lemma StoppedWithinBudget<W>(max: int, horizon: nat, step: int, batch: Batch<W>)
    requires 1 <= step < max && !batch.BatchDone? && Below(batch.log.acts, max, step)
    requires batch.BatchStopped? ==> batch.continuation.step == step
    ensures batch.BatchStopped? ==> EndsWithin(Interrupted(batch.continuation, horizon, batch.log), max)
    ensures !batch.BatchStopped? ==> EndsWithin(Failed(batch.log), max)
  {
    if batch.BatchStopped? {
      BelowEndsWithin(Interrupted(batch.continuation, horizon, batch.log), max, step);
    } else {
      BelowEndsWithin(Failed(batch.log), max, step);
    }
  }

  lemma AfterBatch<W>(env: Env<W>, max: Option<int>, horizon: nat, log: Log<W>, step: int, messages: seq<Message>,
                      pending: seq<Call>, k: Option<nat>, batch: Batch<W>)
    requires pending != [] && batch == RunCalls(env, log, step, messages, pending, k)
    ensures Loop(env, max, horizon, log, step, messages, pending, k) ==
            if batch.BatchDone? then Loop(env, max, horizon, batch.log, step + 1, batch.messages, [], batch.interruptAt)
            else if batch.BatchStopped? then Interrupted(batch.continuation, horizon, batch.log)
            else Failed(batch.log)
  {
  }

  lemma {:induction false} ChainWithinBudget<W>(env: Env<W>, max: int, first: Outcome<W>, plan: seq<nat>)
    requires max >= 1 && EndsWithin(first, max)
    requires first.Interrupted? ==> first.continuation.pending != []
    ensures var outcome := Chain(env, Some(max), first, plan);
            !outcome.Interrupted? && EndsWithin(outcome, max)
    decreases |plan|
  {
    if first.Interrupted? {
      var c := first.continuation;
      if plan == [] {
        LoopWithinBudget(env, max, first.left, first.log, c.step, c.messages, c.pending, None);
        NeverInterruptsUnasked(env, Some(max), first.left, first.log, c.step, c.messages, c.pending);
      } else {
        LoopWithinBudget(env, max, first.left, first.log, c.step, c.messages, c.pending, Some(plan[0]));
        SegmentResumes(env, Some(max), first.left, first.log, c.step, c.messages, c.pending, plan[0]);
        ChainWithinBudget(env, max, Resume(env, Some(max), first.left, first.log, c, Some(plan[0])), plan[1..]);
      }
    }
  }

  lemma {:induction false} BatchNeverStopsUnasked<W>(env: Env<W>, log: Log<W>, step: int, messages: seq<Message>, calls: seq<Call>)
    ensures var batch := RunCalls(env, log, step, messages, calls, None);
            !batch.BatchStopped? && (batch.BatchDone? ==> batch.interruptAt.None?)
    decreases |calls|
  {
    if calls != [] {
      var (world, result) := env.exec(log.world, calls[0]);
      if !result.Fatal? {
        BatchNeverStopsUnasked(env, Log(world, log.acts + [Ran(step, calls[0])]), step, messages + [ToolMessage(calls[0], result)], calls[1..]);
      }
    }
  }

  lemma {:induction false} NeverInterruptsUnasked<W>(env: Env<W>, max: Option<int>, horizon: nat, log: Log<W>, step: int,
                                                     messages: seq<Message>, pending: seq<Call>)
    ensures !Loop(env, max, horizon, log, step, messages, pending, None).Interrupted?
    decreases horizon, |pending|
  {
    if pending != [] {
      BatchNeverStopsUnasked(env, log, step, messages, pending);
      match RunCalls(env, log, step, messages, pending, None) {
        case BatchDone(m, l, _) => NeverInterruptsUnasked(env, max, horizon, l, step + 1, m, []);
        case _ =>
      }
    } else if horizon > 0 {
      match Ask(env, max, log, step, messages) {
        case Calls(m, calls, l) => NeverInterruptsUnasked(env, max, horizon - 1, l, step, m, calls);
        case Ends(_) =>
      }
    }
  }

  /** Over a whole chain of interruptions and resumes with a budget of `max` steps, the provider is
      called at most `max` times, only the call at step `max` is without tool schemas, no tool runs
      at or after it, and every continuation created on the way has a step below `max`. */
  lemma StepBudgetHolds<W>(env: Env<W>, max: int, horizon: nat, world: W, prompt: string, history: seq<Message>,
                           first: nat, plan: seq<nat>)
    requires max >= 1 && PlainHistory(history)
    ensures SoundChain(env, Some(max), Start(env, Some(max), horizon, Log(world, []), prompt, history, Some(first)), plan)
    ensures var segment := Start(env, Some(max), horizon, Log(world, []), prompt, history, Some(first));
            var outcome := Chain(env, Some(max), segment, plan);
            && !outcome.InvalidInput? && !outcome.Interrupted?
            && WithinBudget(outcome.log.acts, max) && SynthesisIsLast(outcome.log.acts, max)
            && CountAsked(outcome.log.acts) <= max
  {
    ContinuationsAreSound(env, Some(max), horizon, world, prompt, history, first, plan);
    LoopWithinBudget(env, max, horizon, Log(world, []), 1, Opening(prompt, history), [], Some(first));
    SegmentResumes(env, Some(max), horizon, Log(world, []), 1, Opening(prompt, history), [], first);
    ChainWithinBudget(env, max, Start(env, Some(max), horizon, Log(world, []), prompt, history, Some(first)), plan);
  }

  /** The next turn after the pending calls is asked at the next step, whatever the budget is. */
  lemma AsksNext<W>(env: Env<W>, max: int, horizon: nat, log: Log<W>, step: int, messages: seq<Message>)
    requires horizon > 0 && env.compact(messages).Some? && step != max
    ensures var outcome := Loop(env, Some(max), horizon, log, step, messages, [], None);
            !outcome.InvalidInput? && Asked(step, env.compact(messages).value, true) in outcome.log.acts
  {
    var first := Asked(step, env.compact(messages).value, true);
    match Ask(env, Some(max), log, step, messages) {
      case Calls(m, calls, l) => ActsOnlyGrow(env, Some(max), horizon - 1, l, step, m, calls, first);
      case Ends(_) =>
    }
  }

  /** `run` accepts a continuation whose step equals the budget.  Whenever its pending calls complete
      and the next turn is asked, the step bound holds if and only if the continuation is below it:
      at the bound, the next provider call is at step max + 1 and offers tools again. */
  lemma StaleContinuationOverruns<W>(env: Env<W>, max: int, horizon: nat, log: Log<W>, c: Continuation)
    requires max >= 1 && horizon > 0 && Resumable(Some(max), c)
    requires log.acts == []
    requires var batch := RunCalls(env, log, c.step, c.messages, c.pending, None);
             batch.BatchDone? && env.compact(batch.messages).Some?
    ensures var outcome := Resume(env, Some(max), horizon, log, c, None);
            && !outcome.InvalidInput?
            && ((forall a | a in outcome.log.acts :: a.step <= max) <==> c.step < max)
            && (c.step == max ==>
                  Asked(max + 1, env.compact(RunCalls(env, log, c.step, c.messages, c.pending, None).messages).value, true)
                  in outcome.log.acts)
  {
    if c.step < max {
      LoopWithinBudget(env, max, horizon, log, c.step, c.messages, c.pending, None);
    } else {
      var batch := RunCalls(env, log, c.step, c.messages, c.pending, None);
      BatchNeverStopsUnasked(env, log, c.step, c.messages, c.pending);
      AfterBatch(env, Some(max), horizon, log, c.step, c.messages, c.pending, None, batch);
      AsksNext(env, max, horizon, batch.log, max + 1, batch.messages);
    }
  }

  function OneCall(): Call {
    Call("id", "tool", "")
  }

  /** A provider that asks for one call whenever it is offered tools. */
  function Eager(): Env<bool> {
    Env((w, _, schemas) => (w, Some(Turn("", if schemas then [OneCall()] else []))), (w, _) => (w, Output("")), m => Some(m))
  }

  /** A run of two steps is interrupted in its first; resumed with the budget lowered to one, it asks
      the provider a second time, with tools. */
  lemma LoweredBudgetOverruns(prompt: string, world: bool)
    ensures var opening := Opening(prompt, []);
            var c := Continuation(1, opening + [Message(AssistantRole, "", None, [OneCall()])], [OneCall()]);
            && Start(Eager(), Some(2), 1, Log(world, []), prompt, [], Some(0)) ==
               Interrupted(c, 0, Log(world, [Asked(1, opening, true)]))
            && Resumable(Some(1), c)
            && var outcome := Resume(Eager(), Some(1), 1, Log(world, []), c, None);
            && !outcome.InvalidInput?
            && Asked(2, c.messages + [ToolMessage(OneCall(), Output(""))], true) in outcome.log.acts
  {
    var opening := Opening(prompt, []);
    var messages := opening + [Message(AssistantRole, "", None, [OneCall()])];
    var c := Continuation(1, messages, [OneCall()]);
    assert [] + [Asked(1, opening, true)] == [Asked(1, opening, true)];
    assert Ask(Eager(), Some(2), Log(world, []), 1, opening) ==
           Calls(messages, [OneCall()], Log(world, [Asked(1, opening, true)]));
    OneCallRuns(world, messages);
    StaleContinuationOverruns(Eager(), 1, 1, Log(world, []), c);
  }

  lemma OneCallRuns(world: bool, messages: seq<Message>)
    ensures RunCalls(Eager(), Log(world, []), 1, messages, [OneCall()], None) ==
            BatchDone(messages + [ToolMessage(OneCall(), Output(""))], Log(world, [Ran(1, OneCall())]), None)
  {
    var after := Log(world, [Ran(1, OneCall())]);
    assert [] + [Ran(1, OneCall())] == [Ran(1, OneCall())];
    assert [OneCall()][1..] == [];
    assert RunCalls(Eager(), after, 1, messages + [ToolMessage(OneCall(), Output(""))], [], None) ==
           BatchDone(messages + [ToolMessage(OneCall(), Output(""))], after, None);
  }

  lemma {:induction false} BatchActsOnlyGrow<W>(env: Env<W>, log: Log<W>, step: int, messages: seq<Message>, calls: seq<Call>,
                                                k: Option<nat>, a: Act)
    requires a in log.acts
    ensures a in RunCalls(env, log, step, messages, calls, k).log.acts
    decreases |calls|
  {
    if calls != [] && k != Some(0) {
      var (world, result) := env.exec(log.world, calls[0]);
      if !result.Fatal? {
        BatchActsOnlyGrow(env, Log(world, log.acts + [Ran(step, calls[0])]), step, messages + [ToolMessage(calls[0], result)],
                          calls[1..], Less(k), a);
      }
    }
  }

  lemma {:induction false} ActsOnlyGrow<W>(env: Env<W>, max: Option<int>, horizon: nat, log: Log<W>, step: int,
                                           messages: seq<Message>, pending: seq<Call>, a: Act)
    requires a in log.acts
    ensures var outcome := Loop(env, max, horizon, log, step, messages, pending, None);
            !outcome.InvalidInput? && a in outcome.log.acts
    decreases horizon, |pending|
  {
    if pending != [] {
      BatchActsOnlyGrow(env, log, step, messages, pending, None, a);
      BatchNeverStopsUnasked(env, log, step, messages, pending);
      match RunCalls(env, log, step, messages, pending, None) {
        case BatchDone(m, l, _) => ActsOnlyGrow(env, max, horizon, l, step + 1, m, [], a);
        case _ =>
      }
    } else if horizon > 0 {
      match Ask(env, max, log, step, messages) {
        case Calls(m, calls, l) => ActsOnlyGrow(env, max, horizon - 1, l, step, m, calls, a);
        case Ends(_) =>
      }
    }
  }

  // ----- tool messages answer their calls -----

  /** The newest assistant message issued `answered + pending`, and the tool messages after it answer
      `answered` position by position. */
  ghost predicate Aligned(messages: seq<Message>, pending: seq<Call>) {
    exists at | 0 <= at < |messages| :: AlignedAt(messages, pending, at)
  }

  ghost predicate AlignedAt(messages: seq<Message>, pending: seq<Call>, at: nat)
    requires at < |messages|
  {
    var calls := messages[at].toolCalls;
    var answered := |messages| - at - 1;
    && messages[at].role == AssistantRole
    && |calls| == answered + |pending|
    && pending == calls[answered..]
    && forall j | at < j < |messages| :: messages[j].role == ToolRole && messages[j].toolCallId == Some(calls[j - at - 1].id)
  }

  lemma {:induction false} BatchStaysAligned<W>(env: Env<W>, log: Log<W>, step: int, messages: seq<Message>, calls: seq<Call>, k: Option<nat>)
    requires Aligned(messages, calls)
    ensures match RunCalls(env, log, step, messages, calls, k)
            case BatchStopped(c, _) => Aligned(c.messages, c.pending)
            case BatchDone(m, _, _) => Aligned(m, [])
            case BatchFailed(_) => true
    decreases |calls|
  {
    if calls != [] && k != Some(0) {
      var (world, result) := env.exec(log.world, calls[0]);
      if !result.Fatal? {
        var at :| 0 <= at < |messages| && AlignedAt(messages, calls, at);
        var longer := messages + [ToolMessage(calls[0], result)];
        var issued, answered := messages[at].toolCalls, |messages| - at - 1;
        assert calls[0] == issued[answered];
        assert AlignedAt(longer, calls[1..], at);
        BatchStaysAligned(env, Log(world, log.acts + [Ran(step, calls[0])]), step, longer, calls[1..], Less(k));
      }
    }
  }

  lemma AskIsAligned<W>(env: Env<W>, max: Option<int>, log: Log<W>, step: int, messages: seq<Message>)
    ensures match Ask(env, max, log, step, messages)
            case Calls(m, calls, _) => Aligned(m, calls)
            case Ends(outcome) => !outcome.Interrupted?
  {
    match Ask(env, max, log, step, messages) {
      case Calls(m, calls, _) => assert AlignedAt(m, calls, |m| - 1);
      case Ends(_) =>
    }
  }

  /** Every continuation the loop creates pairs each tool message with the call at its position in
      the newest assistant message, and its pending calls are exactly the unanswered rest. */
  lemma {:induction false} ContinuationsAreAligned<W>(env: Env<W>, max: Option<int>, horizon: nat, log: Log<W>, step: int,
                                                      messages: seq<Message>, pending: seq<Call>, k: Option<nat>)
    requires pending != [] ==> Aligned(messages, pending)
    ensures var outcome := Loop(env, max, horizon, log, step, messages, pending, k);
            outcome.Interrupted? ==> Aligned(outcome.continuation.messages, outcome.continuation.pending)
    decreases horizon, |pending|
  {
    if pending != [] {
      BatchStaysAligned(env, log, step, messages, pending, k);
      match RunCalls(env, log, step, messages, pending, k) {
        case BatchDone(m, l, rest) => ContinuationsAreAligned(env, max, horizon, l, step + 1, m, [], rest);
        case _ =>
      }
    } else if horizon > 0 {
      AskIsAligned(env, max, log, step, messages);
      match Ask(env, max, log, step, messages) {
        case Calls(m, calls, l) =>
          ContinuationsAreAligned(env, max, horizon - 1, l, step, m, calls, k);
        case Ends(_) =>
      }
    }
  }

  /** Every continuation that a chain of segments hands on: its step is at least one and below the
      budget, something is pending, and its tool messages are aligned with their calls. */
  ghost predicate SoundChain<W>(env: Env<W>, max: Option<int>, first: Outcome<W>, plan: seq<nat>)
    decreases |plan|
  {
    first.Interrupted? ==>
      var c := first.continuation;
      && 1 <= c.step && (max.Some? ==> c.step < max.value)
      && c.pending != [] && Aligned(c.messages, c.pending)
      && (plan != [] ==> SoundChain(env, max, Resume(env, max, first.left, first.log, c, Some(plan[0])), plan[1..]))
  }

  lemma {:induction false} SegmentIsSound<W>(env: Env<W>, max: Option<int>, left: nat, log: Log<W>, step: int,
                                             messages: seq<Message>, pending: seq<Call>, first: nat, plan: seq<nat>)
    requires 1 <= step && (max.Some? ==> step <= max.value && (pending != [] ==> step < max.value))
    requires pending != [] ==> Aligned(messages, pending)
    ensures SoundChain(env, max, Loop(env, max, left, log, step, messages, pending, Some(first)), plan)
    decreases |plan|
  {
    SegmentResumes(env, max, left, log, step, messages, pending, first);
    ContinuationsAreAligned(env, max, left, log, step, messages, pending, Some(first));
    match Loop(env, max, left, log, step, messages, pending, Some(first)) {
      case Interrupted(c, rest, l) =>
        if plan != [] { SegmentIsSound(env, max, rest, l, c.step, c.messages, c.pending, plan[0], plan[1..]); }
      case _ =>
    }
  }

  /** In every chain of interruptions and resumes of a run, with or without a budget, all
      continuations are sound. */
  lemma ContinuationsAreSound<W>(env: Env<W>, max: Option<int>, horizon: nat, world: W, prompt: string,
                                 history: seq<Message>, first: nat, plan: seq<nat>)
    requires max.Some? ==> max.value >= 1
    ensures SoundChain(env, max, Start(env, max, horizon, Log(world, []), prompt, history, Some(first)), plan)
  {
    if PlainHistory(history) {
      SegmentIsSound(env, max, horizon, Log(world, []), 1, Opening(prompt, history), [], first, plan);
    }
  }
}
