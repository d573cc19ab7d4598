/** The model/tool loop with a pending-call continuation (src/doppel_agent/loop.py).

    The provider, the tools and the compaction policy are arbitrary deterministic functions over a
    hidden environment state of type W.  An interruption happens at a tool call, before that call
    takes effect; `interruptAt` says how many tool calls run first.  `horizon` bounds the number of
    model turns that are observed, because a loop without a step budget need not end. */
module AgentLoop {
  import opened Basics

  datatype Role = SystemRole | UserRole | AssistantRole | ToolRole
  datatype Call = Call(id: string, name: string, arguments: string)
  datatype Message = Message(role: Role, content: string, toolCallId: Option<string>, toolCalls: seq<Call>)
  datatype Turn = Turn(content: string, toolCalls: seq<Call>)

  /** `Raised` is one of the caught exception kinds; `Fatal` leaves the loop. */
  datatype ToolResult = Output(text: string) | Raised(kind: string, detail: string) | Fatal

  datatype Env<!W> = Env(
    next: (W, seq<Message>, bool) -> (W, Option<Turn>),
    exec: (W, Call) -> (W, ToolResult),
    compact: seq<Message> -> Option<seq<Message>>)

  datatype Act = Asked(step: int, input: seq<Message>, schemas: bool) | Ran(step: int, call: Call)
  datatype Log<W> = Log(world: W, acts: seq<Act>)
  datatype Continuation = Continuation(step: int, messages: seq<Message>, pending: seq<Call>)

  datatype Outcome<W> =
    | Answered(answer: string, messages: seq<Message>, log: Log<W>)
    | MaxStepsExceeded(log: Log<W>)
    | Failed(log: Log<W>)
    | Interrupted(continuation: Continuation, left: nat, log: Log<W>)
    | BeyondHorizon(log: Log<W>)
    | InvalidInput

  const FINAL_TURN_PROMPT := "final turn"
  const SYSTEM_PROMPT := "system prompt"

  function Plain(role: Role, content: string): Message {
    Message(role, content, None, [])
  }

  function ToolMessage(call: Call, result: ToolResult): Message
    requires !result.Fatal?
  {
    var text := match result
                case Output(t) => t
                case Raised(kind, detail) => "Tool error (" + kind + "): " + detail;
    Message(ToolRole, text, Some(call.id), [])
  }

  function Less(k: Option<nat>): Option<nat>
    requires k != Some(0)
  {
    if k.Some? then Some(k.value - 1) else None
  }

  // ----- specification -----

  datatype Batch<W> =
    | BatchDone(messages: seq<Message>, log: Log<W>, interruptAt: Option<nat>)
    | BatchStopped(continuation: Continuation, log: Log<W>)
    | BatchFailed(log: Log<W>)

  /** The inner loop: run the calls of one step, in order. */
  function RunCalls<W>(env: Env<W>, log: Log<W>, step: int, messages: seq<Message>, calls: seq<Call>, k: Option<nat>): Batch<W>
    decreases |calls|
  {
    if calls == [] then BatchDone(messages, log, k)
    else if k == Some(0) then BatchStopped(Continuation(step, messages, calls), log)
    else
      var (world, result) := env.exec(log.world, calls[0]);
      var after := Log(world, log.acts + [Ran(step, calls[0])]);
      if result.Fatal? then BatchFailed(after)
      else RunCalls(env, after, step, messages + [ToolMessage(calls[0], result)], calls[1..], Less(k))
  }

  /** What one model turn leads to: a final outcome or the calls to run next. */
  datatype Asking<W> = Ends(outcome: Outcome<W>) | Calls(messages: seq<Message>, calls: seq<Call>, log: Log<W>)

  function Ask<W>(env: Env<W>, max: Option<int>, log: Log<W>, step: int, messages: seq<Message>): Asking<W> {
    match env.compact(messages)
    case None => Ends(Failed(log))
    case Some(compacted) =>
      var final := max == Some(step);
      var input := if final then compacted + [Plain(SystemRole, FINAL_TURN_PROMPT)] else compacted;
      var (world, turn) := env.next(log.world, input, !final);
      var after := Log(world, log.acts + [Asked(step, input, !final)]);
      match turn
      case None => Ends(Failed(after))
      case Some(t) =>
        if t.toolCalls == [] then Ends(Answered(t.content, compacted, after))
        else if final then Ends(MaxStepsExceeded(after))
        else Calls(compacted + [Message(AssistantRole, t.content, None, t.toolCalls)], t.toolCalls, after)
  }

  function Loop<W>(env: Env<W>, max: Option<int>, horizon: nat, log: Log<W>, step: int, messages: seq<Message>,
                   pending: seq<Call>, k: Option<nat>): Outcome<W>
    decreases horizon, |pending|
  {
    if pending != [] then
      match RunCalls(env, log, step, messages, pending, k)
      case BatchDone(m, l, rest) => Loop(env, max, horizon, l, step + 1, m, [], rest)
      case BatchStopped(c, l) => Interrupted(c, horizon, l)
      case BatchFailed(l) => Failed(l)
    else if horizon == 0 then BeyondHorizon(log)
    else
      match Ask(env, max, log, step, messages)
      case Ends(outcome) => outcome
      case Calls(m, calls, l) => Loop(env, max, horizon - 1, l, step, m, calls, k)
  }

  predicate PlainHistory(history: seq<Message>) {
    forall m | m in history :: (m.role == UserRole || m.role == AssistantRole) && m.toolCalls == [] && m.toolCallId.None?
  }

  predicate Resumable(max: Option<int>, c: Continuation) {
    1 <= c.step && (max.Some? ==> c.step <= max.value) && c.pending != []
  }

  function Opening(prompt: string, history: seq<Message>): seq<Message> {
    [Plain(SystemRole, SYSTEM_PROMPT)] + history + [Plain(UserRole, prompt)]
  }

  function Start<W>(env: Env<W>, max: Option<int>, horizon: nat, log: Log<W>, prompt: string, history: seq<Message>,
                    k: Option<nat>): Outcome<W>
  {
    if !PlainHistory(history) then InvalidInput
    else Loop(env, max, horizon, log, 1, Opening(prompt, history), [], k)
  }

  function Resume<W>(env: Env<W>, max: Option<int>, horizon: nat, log: Log<W>, c: Continuation, k: Option<nat>): Outcome<W> {
    if !Resumable(max, c) then InvalidInput
    else Loop(env, max, horizon, log, c.step, c.messages, c.pending, k)
  }

  // ----- AgentLoop.run -----

  class AgentLoop<W> {
    const env: Env<W>
    const maxSteps: Option<int>
    var world: W
    var acts: seq<Act>

    constructor (env: Env<W>, maxSteps: Option<int>, world: W)
      requires maxSteps.Some? ==> maxSteps.value >= 1
      ensures this.env == env && this.maxSteps == maxSteps && this.world == world && this.acts == []
    {
      this.env, this.maxSteps, this.world := env, maxSteps, world;
      this.acts := [];
    }

    ghost function Done(): Log<W>
      reads this
    {
      Log(world, acts)
    }

    /** The tool half of one iteration. */
    method RunBatch(step: int, start: seq<Message>, calls: seq<Call>, interruptAt: Option<nat>) returns (batch: Batch<W>)
      modifies this
      ensures batch == RunCalls(env, old(Done()), step, start, calls, interruptAt)
      ensures batch.log == Done()
    {
      var messages, k, index := start, interruptAt, 0;
      while index < |calls|
        invariant 0 <= index <= |calls|
        invariant RunCalls(env, old(Done()), step, start, calls, interruptAt) ==
                  RunCalls(env, Done(), step, messages, calls[index..], k)
      {
        var call := calls[index];
        if k == Some(0) {
          return BatchStopped(Continuation(step, messages, calls[index..]), Log(world, acts));
        }
        k := Less(k);
        var (after, result) := env.exec(world, call);
        world := after;
        acts := acts + [Ran(step, call)];
        assert calls[index..][1..] == calls[index + 1..];
        if result.Fatal? {
          return BatchFailed(Log(world, acts));
        }
        messages := messages + [ToolMessage(call, result)];
        index := index + 1;
      }
      batch := BatchDone(messages, Log(world, acts), k);
    }

    /** The model half of one iteration. */
    method AskModel(step: int, messages: seq<Message>) returns (asking: Asking<W>)
      modifies this
      ensures asking == Ask(env, maxSteps, old(Done()), step, messages)
      ensures match asking case Ends(outcome) => !outcome.InvalidInput? && outcome.log == Done() case Calls(_, _, log) => log == Done()
    {
      var compacted := env.compact(messages);
      if compacted.None? {
        return Ends(Failed(Log(world, acts)));
      }
      var final := maxSteps == Some(step);
      var input := if final then compacted.value + [Plain(SystemRole, FINAL_TURN_PROMPT)] else compacted.value;
      var (after, turn) := env.next(world, input, !final);
      world := after;
      acts := acts + [Asked(step, input, !final)];
      if turn.None? {
        return Ends(Failed(Log(world, acts)));
      }
      var calls := turn.value.toolCalls;
      if calls == [] {
        return Ends(Answered(turn.value.content, compacted.value, Log(world, acts)));
      }
      if final {
        return Ends(MaxStepsExceeded(Log(world, acts)));
      }
      asking := Calls(compacted.value + [Message(AssistantRole, turn.value.content, None, calls)], calls, Log(world, acts));
    }

    /** `step` counts up without a bound of its own; only `horizon` limits what is observed. */
    method Run(prompt: string, history: seq<Message>, continuation: Option<Continuation>, interruptAt: Option<nat>, horizon: nat)
      returns (outcome: Outcome<W>)
      modifies this
      ensures !PlainHistory(history) ==> outcome.InvalidInput?
      ensures PlainHistory(history) && continuation.None? ==>
                outcome == Start(env, maxSteps, horizon, old(Done()), prompt, history, interruptAt)
      ensures PlainHistory(history) && continuation.Some? ==>
                outcome == Resume(env, maxSteps, horizon, old(Done()), continuation.value, interruptAt)
      ensures if outcome.InvalidInput? then Done() == old(Done()) else outcome.log == Done()
    {
      if !PlainHistory(history) {
        return InvalidInput;
      }
      var messages, step, pending := Opening(prompt, history), 1, [];
      if continuation.Some? {
        if !Resumable(maxSteps, continuation.value) {
          return InvalidInput;
        }
        messages, step, pending := continuation.value.messages, continuation.value.step, continuation.value.pending;
      }
      ghost var whole := Loop(env, maxSteps, horizon, Done(), step, messages, pending, interruptAt);
      var left, k := horizon, interruptAt;
      while true
        invariant whole == Loop(env, maxSteps, left, Done(), step, messages, pending, k)
        decreases left, |pending|
      {
        var calls := pending;
        if pending == [] {
          if left == 0 {
            return BeyondHorizon(Log(world, acts));
          }
          left := left - 1;
          var asking := AskModel(step, messages);
          if asking.Ends? {
            return asking.outcome;
          }
          messages, calls := asking.messages, asking.calls;
        }
        pending := [];
        var batch := RunBatch(step, messages, calls, k);
        match batch {
          case BatchStopped(c, _) => return Interrupted(c, left, Log(world, acts));
          case BatchFailed(_) => return Failed(Log(world, acts));
          case BatchDone(m, _, rest) => messages, k := m, rest;
        }
        step := step + 1;
      }
    }
  }
}
