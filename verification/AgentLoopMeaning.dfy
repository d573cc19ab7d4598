/** What the agent loop computes, said by a machine that takes one act at a time: the transcript each
    act leaves, the texts in it, what the provider was asked, and where an answer comes from. */
module AgentLoopMeaning {
  import opened Basics
  import opened AgentLoop
  import opened AgentLoopResume

  /** Between two acts: the environment, the transcript, the calls still to run and the step number. */
  datatype Point<W> = Point(world: W, messages: seq<Message>, pending: seq<Call>, step: int)

  /** The text a tool message carries. */
  function Told(result: ToolResult): string
    requires !result.Fatal?
  {
    match result
    case Output(text) => text
    case Raised(kind, detail) => "Tool error (" + kind + "): " + detail
  }

  /** The transcript after a model turn: its calls are recorded only while tools are offered. */
  function Recorded(kept: seq<Message>, turn: Option<Turn>, schemas: bool): seq<Message> {
    if turn.None? || turn.value.toolCalls == [] || !schemas then kept
    else kept + [Message(AssistantRole, turn.value.content, None, turn.value.toolCalls)]
  }

  /** The calls a model turn leaves to run. */
  function Issued(turn: Option<Turn>, schemas: bool): seq<Call> {
    if turn.None? || !schemas then [] else turn.value.toolCalls
  }

  /** Whether `a` is what may happen next at `p`, and what it leads to.  The provider sees the
      compacted transcript, with the closing prompt and without tools exactly at the last step; a tool
      call is the first of those still to run, and its text is appended under its id. */
  function Taken<W>(env: Env<W>, max: Option<int>, p: Point<W>, a: Act): Option<Point<W>> {
    match a
    case Asked(step, input, schemas) =>
      if p.pending != [] || step != p.step || env.compact(p.messages).None? || schemas != (max != Some(step)) then None
      else
        var kept := env.compact(p.messages).value;
        if input != (if schemas then kept else kept + [Message(SystemRole, FINAL_TURN_PROMPT, None, [])]) then None
        else
          var (world, turn) := env.next(p.world, input, schemas);
          Some(Point(world, Recorded(kept, turn, schemas), Issued(turn, schemas), step))
    case Ran(step, call) =>
      if p.pending == [] || call != p.pending[0] || step != p.step then None
      else
        var (world, result) := env.exec(p.world, call);
        if result.Fatal? then Some(Point(world, p.messages, p.pending, step))
        else
          Some(Point(world, p.messages + [Message(ToolRole, Told(result), Some(call.id), [])], p.pending[1..],
                     if |p.pending| == 1 then step + 1 else step))
  }

  /** The whole list of acts, one after another. */
  function Replayed<W>(env: Env<W>, max: Option<int>, p: Point<W>, acts: seq<Act>): Option<Point<W>> {
    if acts == [] then Some(p)
    else
      var before := Replayed(env, max, p, acts[..|acts| - 1]);
      if before.None? then None else Taken(env, max, before.value, acts[|acts| - 1])
  }

  lemma ReplayedSnoc<W>(env: Env<W>, max: Option<int>, p: Point<W>, acts: seq<Act>, a: Act)
    ensures Replayed(env, max, p, acts + [a]) ==
            var before := Replayed(env, max, p, acts); if before.None? then None else Taken(env, max, before.value, a)
  {
    assert (acts + [a])[..|acts|] == acts;
  }

  function Runs(acts: seq<Act>): nat {
    if acts == [] then 0 else Runs(acts[..|acts| - 1]) + if acts[|acts| - 1].Ran? then 1 else 0
  }

  lemma RunsSnoc(acts: seq<Act>, a: Act)
    ensures Runs(acts + [a]) == Runs(acts) + if a.Ran? then 1 else 0
  {
    assert (acts + [a])[..|acts|] == acts;
  }

  /** `log` is what the machine has done since `start`, and it stands at this step, transcript and calls. */
  ghost predicate At<W>(env: Env<W>, max: Option<int>, start: Point<W>, log: Log<W>, step: int, messages: seq<Message>, pending: seq<Call>) {
    Replayed(env, max, start, log.acts) == Some(Point(log.world, messages, pending, step))
  }

  /** Where the machine stood before the last act. */
  function Before<W>(env: Env<W>, max: Option<int>, start: Point<W>, acts: seq<Act>): Option<Point<W>> {
    if acts == [] then None else Replayed(env, max, start, acts[..|acts| - 1])
  }

  lemma OneAct<W>(env: Env<W>, max: Option<int>, start: Point<W>, log: Log<W>, p: Point<W>, a: Act, q: Point<W>, after: Log<W>)
    requires Replayed(env, max, start, log.acts) == Some(p) && Taken(env, max, p, a) == Some(q)
    requires after == Log(q.world, log.acts + [a])
    ensures Replayed(env, max, start, after.acts) == Some(q)
    ensures Before(env, max, start, after.acts) == Some(p) && after.acts[|after.acts| - 1] == a
    ensures Runs(after.acts) == Runs(log.acts) + if a.Ran? then 1 else 0
  {
    assert after.acts[..|after.acts| - 1] == log.acts;
  }

  // ----- the tool half -----

  /** The last act was a tool call with a fatal error. */
  ghost predicate DiedRunning<W>(env: Env<W>, max: Option<int>, start: Point<W>, log: Log<W>) {
    var p := Before(env, max, start, log.acts);
    p.Some? && match log.acts[|log.acts| - 1]
               case Asked(_, _, _) => false
               case Ran(_, call) => env.exec(p.value.world, call) == (log.world, Fatal)
  }

  /** What a batch comes to; `ran` calls have run in it. */
  ghost predicate BatchAt<W>(env: Env<W>, max: Option<int>, start: Point<W>, batch: Batch<W>, step: int, k: Option<nat>, ran: int) {
    match batch
    case BatchDone(m, l, rest) =>
      At(env, max, start, l, step + 1, m, []) && (if k.Some? then rest.Some? && rest.value == k.value - ran else rest.None?)
    case BatchStopped(c, l) =>
      At(env, max, start, l, c.step, c.messages, c.pending) && c.pending != [] && k.Some? && k.value == ran
    case BatchFailed(l) => DiedRunning(env, max, start, l) && (k.Some? ==> ran <= k.value)
  }

  lemma {:induction false} BatchIsActs<W>(env: Env<W>, max: Option<int>, start: Point<W>, log: Log<W>, step: int,
                                          messages: seq<Message>, calls: seq<Call>, k: Option<nat>)
    requires calls != [] && At(env, max, start, log, step, messages, calls)
    ensures var batch := RunCalls(env, log, step, messages, calls, k);
            && BatchAt(env, max, start, batch, step, k, Runs(batch.log.acts) - Runs(log.acts))
            && |batch.log.acts| - |log.acts| == Runs(batch.log.acts) - Runs(log.acts)
    decreases |calls|
  {
    if k != Some(0) {
      var (world, result) := env.exec(log.world, calls[0]);
      var a := Ran(step, calls[0]);
      var after, p := Log(world, log.acts + [a]), Point(log.world, messages, calls, step);
      var q := Taken(env, max, p, a).value;
      OneAct(env, max, start, log, p, a, q, after);
      if result.Fatal? {
        assert DiedRunning(env, max, start, after);
      } else {
        var longer := messages + [ToolMessage(calls[0], result)];
        assert q.messages == longer;
        if |calls| > 1 {
          BatchIsActs(env, max, start, after, step, longer, calls[1..], Less(k));
        } else {
          assert calls[1..] == [];
        }
      }
    }
  }

  // ----- the whole loop -----

  /** The last act asked the provider, and this is what came back. */
  ghost predicate LastTurn<W>(env: Env<W>, max: Option<int>, start: Point<W>, log: Log<W>, turn: Option<Turn>) {
    var p := Before(env, max, start, log.acts);
    p.Some? && match log.acts[|log.acts| - 1]
               case Asked(_, input, schemas) => env.next(p.value.world, input, schemas) == (log.world, turn)
               case Ran(_, _) => false
  }

  /** The last act was the turn reserved for the answer, and it asked for tools all the same. */
  ghost predicate Overspent<W>(env: Env<W>, max: Option<int>, start: Point<W>, log: Log<W>) {
    var p := Before(env, max, start, log.acts);
    p.Some? && match log.acts[|log.acts| - 1]
               case Asked(step, input, schemas) =>
                 var (world, turn) := env.next(p.value.world, input, schemas);
                 max == Some(step) && !schemas && turn.Some? && turn.value.toolCalls != [] && world == log.world
               case Ran(_, _) => false
  }

  /** What an outcome says about the acts of its log: an answer is the content of the last turn, which
      asked for nothing; the final transcript is the machine's; a continuation is where the machine
      stands, after as many of the tool calls it `ran` as the interruption allowed.  `turns` counts the
      turns asked for: the horizon is all that can end a run early. */
  ghost predicate Explained<W>(env: Env<W>, max: Option<int>, start: Point<W>, outcome: Outcome<W>, k: Option<nat>, horizon: nat,
                               ran: int, turns: int)
  {
    (k.Some? ==> ran <= k.value) && turns <= horizon &&
    match outcome
    case Answered(answer, messages, l) =>
      && LastTurn(env, max, start, l, Some(Turn(answer, [])))
      && var q := Replayed(env, max, start, l.acts); q.Some? && q.value.messages == messages
    case MaxStepsExceeded(l) => Overspent(env, max, start, l)
    case Failed(l) =>
      || DiedRunning(env, max, start, l)
      || LastTurn(env, max, start, l, None)
      || (var q := Replayed(env, max, start, l.acts);
          q.Some? && q.value.pending == [] && q.value.world == l.world && env.compact(q.value.messages).None?)
    case Interrupted(c, left, l) =>
      At(env, max, start, l, c.step, c.messages, c.pending) && c.pending != [] && k.Some? && k.value == ran && left == horizon - turns
    case BeyondHorizon(l) =>
      var q := Replayed(env, max, start, l.acts);
      q.Some? && q.value.pending == [] && q.value.world == l.world && turns == horizon
    case InvalidInput => false
  }

  lemma AskIsAct<W>(env: Env<W>, max: Option<int>, start: Point<W>, log: Log<W>, step: int, messages: seq<Message>)
    requires At(env, max, start, log, step, messages, [])
    ensures match Ask(env, max, log, step, messages)
            case Ends(outcome) =>
              && !outcome.Interrupted? && !outcome.BeyondHorizon? && Explained(env, max, start, outcome, None, 1, 0, 1)
              && Runs(outcome.log.acts) == Runs(log.acts) && |outcome.log.acts| <= |log.acts| + 1
            case Calls(m, calls, l) =>
              && calls != [] && At(env, max, start, l, step, m, calls)
              && Runs(l.acts) == Runs(log.acts) && |l.acts| == |log.acts| + 1
  {
    if env.compact(messages).Some? {
      var kept := env.compact(messages).value;
      var schemas := max != Some(step);
      var input := if schemas then kept else kept + [Message(SystemRole, FINAL_TURN_PROMPT, None, [])];
      var (world, turn) := env.next(log.world, input, schemas);
      var a := Asked(step, input, schemas);
      var p, after := Point(log.world, messages, [], step), Log(world, log.acts + [a]);
      OneAct(env, max, start, log, p, a, Taken(env, max, p, a).value, after);
      if turn.Some? && turn.value.toolCalls == [] {
        assert turn == Some(Turn(turn.value.content, []));
        assert LastTurn(env, max, start, after, Some(Turn(turn.value.content, [])));
      }
    }
  }

  /** The turns asked for between two logs. */
  function Turns(before: seq<Act>, after: seq<Act>): int {
    (|after| - Runs(after)) - (|before| - Runs(before))
  }

  /** Every outcome of the loop is explained by the acts in its log. */
  lemma {:induction false} LoopIsActs<W>(env: Env<W>, max: Option<int>, start: Point<W>, horizon: nat, log: Log<W>, step: int,
                                         messages: seq<Message>, pending: seq<Call>, k: Option<nat>)
    requires At(env, max, start, log, step, messages, pending)
    ensures var outcome := Loop(env, max, horizon, log, step, messages, pending, k);
            && !outcome.InvalidInput?
            && Explained(env, max, start, outcome, k, horizon, Runs(outcome.log.acts) - Runs(log.acts), Turns(log.acts, outcome.log.acts))
    decreases horizon, |pending|, 1
  {
    if pending != [] {
      PendingIsActs(env, max, start, horizon, log, step, messages, pending, k);
    } else if horizon > 0 {
      AskedIsActs(env, max, start, horizon, log, step, messages, k);
    }
  }

  /** One turn more is asked for, and counted. */
  lemma OneTurnMore<W>(env: Env<W>, max: Option<int>, start: Point<W>, outcome: Outcome<W>, k: Option<nat>, horizon: nat, ran: int, turns: int)
    requires Explained(env, max, start, outcome, k, horizon, ran, turns)
    ensures Explained(env, max, start, outcome, k, horizon + 1, ran, turns + 1)
  {
  }

  /** A turn that ends the run ends it within any horizon, whatever interruption was asked for. */
  lemma EndedTurn<W>(env: Env<W>, max: Option<int>, start: Point<W>, outcome: Outcome<W>, k: Option<nat>, horizon: nat, turns: int)
    requires Explained(env, max, start, outcome, None, 1, 0, 1) && !outcome.Interrupted? && !outcome.BeyondHorizon? && turns <= horizon
    ensures Explained(env, max, start, outcome, k, horizon, 0, turns)
  {
  }

  lemma {:induction false} AskedIsActs<W>(env: Env<W>, max: Option<int>, start: Point<W>, horizon: nat, log: Log<W>, step: int,
                                          messages: seq<Message>, k: Option<nat>)
    requires horizon > 0 && At(env, max, start, log, step, messages, [])
    ensures var outcome := Loop(env, max, horizon, log, step, messages, [], k);
            && !outcome.InvalidInput?
            && Explained(env, max, start, outcome, k, horizon, Runs(outcome.log.acts) - Runs(log.acts), Turns(log.acts, outcome.log.acts))
    decreases horizon, 0, 0
  {
    var asking := Ask(env, max, log, step, messages);
    AskIsAct(env, max, start, log, step, messages);
    AfterAsk(env, max, horizon, log, step, messages, k, asking);
    if asking.Calls? {
      CallsAreActs(env, max, start, horizon, log, asking.log, step, asking.messages, asking.calls, k);
    } else {
      EndedTurn(env, max, start, asking.outcome, k, horizon, Turns(log.acts, asking.outcome.log.acts));
    }
  }

  /** The calls of a turn, one turn after `log`. */
  lemma {:induction false} CallsAreActs<W>(env: Env<W>, max: Option<int>, start: Point<W>, horizon: nat, log: Log<W>, l: Log<W>,
                                           step: int, m: seq<Message>, calls: seq<Call>, k: Option<nat>)
    requires horizon > 0 && calls != [] && At(env, max, start, l, step, m, calls)
    requires Runs(l.acts) == Runs(log.acts) && |l.acts| == |log.acts| + 1
    ensures var outcome := Loop(env, max, horizon - 1, l, step, m, calls, k);
            && !outcome.InvalidInput?
            && Explained(env, max, start, outcome, k, horizon, Runs(outcome.log.acts) - Runs(log.acts), Turns(log.acts, outcome.log.acts))
    decreases horizon - 1, |calls|, 1
  {
    var outcome := Loop(env, max, horizon - 1, l, step, m, calls, k);
    PendingIsActs(env, max, start, horizon - 1, l, step, m, calls, k);
    OneTurnMore(env, max, start, outcome, k, horizon - 1, Runs(outcome.log.acts) - Runs(l.acts), Turns(l.acts, outcome.log.acts));
  }

  /** A batch, and the turns after it. */
  lemma {:induction false} PendingIsActs<W>(env: Env<W>, max: Option<int>, start: Point<W>, horizon: nat, log: Log<W>, step: int,
                                            messages: seq<Message>, pending: seq<Call>, k: Option<nat>)
    requires pending != [] && At(env, max, start, log, step, messages, pending)
    ensures var outcome := Loop(env, max, horizon, log, step, messages, pending, k);
            && !outcome.InvalidInput?
            && Explained(env, max, start, outcome, k, horizon, Runs(outcome.log.acts) - Runs(log.acts), Turns(log.acts, outcome.log.acts))
    decreases horizon, |pending|, 0
  {
    var batch := RunCalls(env, log, step, messages, pending, k);
    BatchIsActs(env, max, start, log, step, messages, pending, k);
    AfterBatch(env, max, horizon, log, step, messages, pending, k, batch);
    if batch.BatchDone? {
      var outcome := Loop(env, max, horizon, batch.log, step + 1, batch.messages, [], batch.interruptAt);
      LoopIsActs(env, max, start, horizon, batch.log, step + 1, batch.messages, [], batch.interruptAt);
      SomeRanBefore(env, max, start, outcome, k, batch.interruptAt, horizon, Runs(batch.log.acts) - Runs(log.acts),
                    Runs(outcome.log.acts) - Runs(batch.log.acts), Turns(batch.log.acts, outcome.log.acts));
    }
  }

  /** Calls that ran before count against the interruption. */
  lemma SomeRanBefore<W>(env: Env<W>, max: Option<int>, start: Point<W>, outcome: Outcome<W>, k: Option<nat>, rest: Option<nat>,
                         horizon: nat, before: int, ran: int, turns: int)
    requires Explained(env, max, start, outcome, rest, horizon, ran, turns)
    requires if k.Some? then rest.Some? && rest.value == k.value - before else rest.None?
    ensures Explained(env, max, start, outcome, k, horizon, before + ran, turns)
  {
  }

  // ----- main results -----

  /** A new run: whatever it ends with is what the machine does from the system prompt, the history
      and the user's prompt, in this order; it is refused exactly for a history that is not plain. */
  lemma RunIsExplained<W>(env: Env<W>, max: Option<int>, horizon: nat, world: W, prompt: string, history: seq<Message>, k: Option<nat>)
    ensures var outcome := Start(env, max, horizon, Log(world, []), prompt, history, k);
            var first := [Message(SystemRole, SYSTEM_PROMPT, None, [])] + history + [Message(UserRole, prompt, None, [])];
            if exists m :: m in history && !(m.role in {UserRole, AssistantRole} && m.toolCalls == [] && m.toolCallId.None?)
            then outcome.InvalidInput?
            else
              && !outcome.InvalidInput?
              && Explained(env, max, Point(world, first, [], 1), outcome, k, horizon, Runs(outcome.log.acts), Turns([], outcome.log.acts))
  {
    if PlainHistory(history) {
      LoopIsActs(env, max, Point(world, Opening(prompt, history), [], 1), horizon, Log(world, []), 1, Opening(prompt, history), [], k);
    }
  }

  /** A resumed run goes on from the continuation's transcript, calls and step; it is refused exactly
      for a step below one or above the budget, or with nothing pending. */
  lemma ResumeIsExplained<W>(env: Env<W>, max: Option<int>, horizon: nat, world: W, c: Continuation, k: Option<nat>)
    ensures var outcome := Resume(env, max, horizon, Log(world, []), c, k);
            if c.step < 1 || (max.Some? && c.step > max.value) || c.pending == [] then outcome.InvalidInput?
            else
              && !outcome.InvalidInput?
              && Explained(env, max, Point(world, c.messages, c.pending, c.step), outcome, k, horizon, Runs(outcome.log.acts), Turns([], outcome.log.acts))
  {
    if Resumable(max, c) {
      LoopIsActs(env, max, Point(world, c.messages, c.pending, c.step), horizon, Log(world, []), c.step, c.messages, c.pending, k);
    }
  }

  /** The text an answered run returns is the content the provider gave for the last thing it was
      asked, in a turn without tool calls. */
  lemma AnswerIsLastTurn<W>(env: Env<W>, max: Option<int>, horizon: nat, world: W, prompt: string, history: seq<Message>,
                            k: Option<nat>) returns (before: Point<W>)
    requires Start(env, max, horizon, Log(world, []), prompt, history, k).Answered?
    ensures var outcome := Start(env, max, horizon, Log(world, []), prompt, history, k);
            && outcome.log.acts != [] && outcome.log.acts[|outcome.log.acts| - 1].Asked?
            && var asked := outcome.log.acts[|outcome.log.acts| - 1];
            env.next(before.world, asked.input, asked.schemas) == (outcome.log.world, Some(Turn(outcome.answer, [])))
  {
    RunIsExplained(env, max, horizon, world, prompt, history, k);
    var first := [Message(SystemRole, SYSTEM_PROMPT, None, [])] + history + [Message(UserRole, prompt, None, [])];
    before := Before(env, max, Point(world, first, [], 1), Start(env, max, horizon, Log(world, []), prompt, history, k).log.acts).value;
  }
}
