/** Run submission over a lossy network (frontend/src/runSubmission.ts).

    Each controller method below is the code between two awaits.  A send that failed for the client
    may still reach the server later; the server admits at most one run per idempotency key. */
module Submission {
  import opened Basics

  type Key = nat

  datatype Request = Request(body: string, idempotencyKey: Option<Key>)
  datatype Intent = Intent(body: string, context: Option<string>, key: Key)

  /** What a call can end with at the client. `Accepted` is a reply with an actual run id and status. */
  datatype Reply = Accepted(run: nat) | Malformed | Http(status: int) | NetworkError

  datatype Phase = Idle | Preparing(body: string) | Sending(recovering: bool)
  datatype Client = Client(phase: Phase, pending: Option<Intent>, uncertain: bool)
  datatype Verdict = Nothing | Rejected | Sent(intent: Intent)

  predicate Refusal(status: int) {
    status == 400 || status == 404 || status == 409 || status == 422
  }

  // ----- the controller's steps, as functions -----

  function Submitted(c: Client, request: Request, prepare: bool, key: Key): (Client, Verdict) {
    if !c.phase.Idle? then (c, Nothing)
    else if c.pending.Some? then (c, Rejected)
    else if prepare then (c.(phase := Preparing(request.body)), Nothing)
    else
      var intent := Intent(request.body, None, key);
      (c.(phase := Sending(false), pending := Some(intent)), Sent(intent))
  }

  function PreparedWith(c: Client, context: Option<string>, key: Key): (Client, Verdict) {
    if !c.phase.Preparing? then (c, Nothing)
    else if context.None? then (c.(phase := Idle), Rejected)
    else
      var intent := Intent(c.phase.body, context, key);
      (c.(phase := Sending(false), pending := Some(intent)), Sent(intent))
  }

  function Retried(c: Client): (Client, Verdict) {
    if !c.phase.Idle? || c.pending.None? || !c.uncertain then (c, Nothing)
    else (c.(phase := Sending(true)), Sent(c.pending.value))
  }

  /** `valid` is the verdict of the caller's `validate` on an accepted reply. */
  function Received(c: Client, reply: Reply, valid: bool): Client {
    if !c.phase.Sending? then c
    else if reply.Accepted? && valid then Client(Idle, None, false)
    else
      var refused := !c.phase.recovering && reply.Http? && Refusal(reply.status);
      Client(Idle, if refused then None else c.pending, !refused)
  }

  predicate MayClose(c: Client) {
    c.phase.Idle? && !c.uncertain
  }

  class RunSubmissionController {
    var phase: Phase
    var pending: Option<Intent>
    var uncertain: bool

    ghost function View(): Client
      reads this
    {
      Client(phase, pending, uncertain)
    }

    constructor ()
      ensures View() == Client(Idle, None, false)
    {
      phase, pending, uncertain := Idle, None, false;
    }

    /** submit, up to the await of `prepare` or of the first send. */
    method Submit(request: Request, prepare: bool, freshKey: Key) returns (verdict: Verdict)
      modifies this
      ensures (View(), verdict) == Submitted(old(View()), request, prepare, freshKey)
    {
      if phase != Idle {
        return Nothing;
      }
      if pending.Some? {
        return Rejected;
      }
      if prepare {
        phase := Preparing(request.body);
        return Nothing;
      }
      verdict := Dispatch(Intent(request.body, None, freshKey));
    }

    /** submit, after `prepare` returned a context or threw. */
    method Prepared(context: Option<string>, freshKey: Key) returns (verdict: Verdict)
      modifies this
      ensures (View(), verdict) == PreparedWith(old(View()), context, freshKey)
    {
      if !phase.Preparing? {
        return Nothing;
      }
      if context.None? {
        phase := Idle;
        return Rejected;
      }
      verdict := Dispatch(Intent(phase.body, context, freshKey));
    }

    method Dispatch(intent: Intent) returns (verdict: Verdict)
      modifies this
      ensures View() == Client(Sending(false), Some(intent), old(uncertain)) && verdict == Sent(intent)
    {
      pending := Some(intent);
      phase := Sending(false);
      verdict := Sent(intent);
    }

    method Retry() returns (verdict: Verdict)
      modifies this
      ensures (View(), verdict) == Retried(old(View()))
    {
      if phase != Idle || pending.None? || !uncertain {
        return Nothing;
      }
      phase := Sending(true);
      verdict := Sent(pending.value);
    }

    /** dispatch, after its send ended. */
    method Receive(reply: Reply, valid: bool)
      modifies this
      ensures View() == Received(old(View()), reply, valid)
    {
      if !phase.Sending? {
        return;
      }
      if reply.Accepted? && valid {
        pending, uncertain := None, false;
      } else {
        var refused := !phase.recovering && reply.Http? && Refusal(reply.status);
        uncertain := !refused;
        if refused {
          pending := None;
        }
      }
      phase := Idle;
    }

    method PrepareClose() returns (mayClose: bool)
      ensures mayClose <==> MayClose(View())
    {
      mayClose := phase == Idle && !uncertain;
    }
  }

  // ----- client, network and server together -----

  /** The server's answer to the i-th send; an admission can also be lost behind a server error. */
  datatype Decision = Admit | AdmitThenFail | Refuse(status: int)

  datatype Sys = Sys(client: Client, nextKey: Key, sends: seq<Intent>, handled: map<nat, Reply>,
                     admitted: map<Key, Intent>, acknowledged: set<Key>, resent: set<Key>)

  datatype Event =
    | DoSubmit(request: Request, prepare: bool)
    | DoPrepared(context: Option<string>)
    | DoRetry
    | Serve(send: nat, decision: Decision)
    | Deliver(valid: bool)
    | Lose

  const START := Sys(Client(Idle, None, false), 0, [], map[], map[], {}, {})

  function Emit(s: Sys, step: (Client, Verdict), minted: bool): Sys {
    var (client, verdict) := step;
    match verdict
    case Sent(intent) =>
      s.(client := client, sends := s.sends + [intent],
         nextKey := if minted then s.nextKey + 1 else s.nextKey,
         resent := if minted then s.resent else s.resent + {intent.key})
    case _ => s.(client := client)
  }

  function Answer(s: Sys, intent: Intent, decision: Decision): Reply {
    if intent.key in s.admitted then
      if s.admitted[intent.key] == intent then Accepted(intent.key) else Http(409)
    else
      match decision
      case Admit => Accepted(intent.key)
      case AdmitThenFail => Http(500)
      case Refuse(status) => Http(status)
  }

  function Settle(s: Sys, reply: Reply, valid: bool): Sys {
    if !s.client.phase.Sending? || s.client.pending.None? then s
    else
      var after := Received(s.client, reply, valid);
      var key := s.client.pending.value.key;
      s.(client := after,
         acknowledged := if reply.Accepted? && valid then s.acknowledged + {key} else s.acknowledged)
  }

  function Apply(s: Sys, e: Event): Sys {
    match e
    case DoSubmit(request, prepare) => Emit(s, Submitted(s.client, request, prepare, s.nextKey), true)
    case DoPrepared(context) => Emit(s, PreparedWith(s.client, context, s.nextKey), true)
    case DoRetry => Emit(s, Retried(s.client), false)
    case Serve(i, decision) =>
      if i >= |s.sends| || i in s.handled then s
      else
        var intent := s.sends[i];
        s.(handled := s.handled[i := Answer(s, intent, decision)],
           admitted := if intent.key !in s.admitted && !decision.Refuse? then s.admitted[intent.key := intent] else s.admitted)
    case Deliver(valid) =>
      // The reply of the current call, the newest send, reaches the client.
      if |s.sends| > 0 && |s.sends| - 1 in s.handled then Settle(s, s.handled[|s.sends| - 1], valid) else s
    case Lose => Settle(s, NetworkError, false)
  }

  function Exec(es: seq<Event>): Sys {
    if es == [] then START else Apply(Exec(es[..|es| - 1]), es[|es| - 1])
  }

  // ----- invariant -----

  ghost predicate SendsOk(s: Sys) {
    && (forall i | 0 <= i < |s.sends| :: s.sends[i].key < s.nextKey)
    && (forall i, j | 0 <= i < j < |s.sends| && s.sends[i].key == s.sends[j].key ::
          s.sends[i] == s.sends[j] && s.sends[i].key in s.resent)
    && (forall i | i in s.handled :: i < |s.sends|)
    && (forall k | k in s.resent :: k < s.nextKey)
    && (forall k | k in s.admitted :: s.admitted[k] in s.sends && s.admitted[k].key == k)
  }

  /** Every key other than the pending one is acknowledged, or its only send was handled and refused. */
  ghost predicate Resolved(s: Sys, key: Key) {
    || key in s.acknowledged
    || (key !in s.admitted && forall i | 0 <= i < |s.sends| && s.sends[i].key == key :: i in s.handled)
  }

  ghost predicate ClientOk(s: Sys) {
    && (s.client.phase.Preparing? ==> s.client.pending.None?)
    && (s.client.pending.Some? <==> s.client.phase.Sending? || s.client.uncertain)
    && (s.client.pending.Some? ==> |s.sends| > 0 && s.client.pending.value == s.sends[|s.sends| - 1])
    && (s.client.phase == Sending(false) ==>
          !s.client.uncertain && s.client.pending.Some? && s.client.pending.value.key !in s.resent)
    && (forall i | 0 <= i < |s.sends| ::
          (s.client.pending.Some? && s.sends[i].key == s.client.pending.value.key) || Resolved(s, s.sends[i].key))
  }

  /** A handled send that was neither accepted nor admitted got the server's refusal. */
  ghost predicate HandledOk(s: Sys) {
    forall i | i in s.handled && i < |s.sends| ::
      match s.handled[i]
      case Accepted(run) => s.sends[i].key in s.admitted && run == s.sends[i].key
      case Http(status) => Refusal(status) ==> s.sends[i].key !in s.admitted || s.sends[i].key in s.resent
      case _ => true
  }

  ghost predicate Inv(s: Sys) {
    SendsOk(s) && ClientOk(s) && HandledOk(s)
  }

  ghost predicate FreshSend(s: Sys, step: (Client, Verdict)) {
    && step.1.Sent? && step.0 == Client(Sending(false), Some(step.1.intent), false)
    && s.client.pending.None? && step.1.intent.key == s.nextKey
  }

  ghost predicate RepeatedSend(s: Sys, step: (Client, Verdict)) {
    && step.1.Sent? && step.0 == Client(Sending(true), Some(step.1.intent), true)
    && s.client.pending == Some(step.1.intent)
  }

  lemma EmitSends(s: Sys, step: (Client, Verdict), minted: bool)
    requires SendsOk(s) && ClientOk(s) && if minted then FreshSend(s, step) else RepeatedSend(s, step)
    ensures SendsOk(Emit(s, step, minted))
  {
    var after := Emit(s, step, minted);
    forall k | k in after.admitted ensures after.admitted[k] in after.sends { assert s.admitted[k] in s.sends; }
    var n := |s.sends|;
    forall i, j | 0 <= i < j < n + 1 && after.sends[i].key == after.sends[j].key
      ensures after.sends[i] == after.sends[j] && after.sends[i].key in after.resent
    {
      if j == n && i < n - 1 { assert s.sends[i].key == s.sends[n - 1].key; }
    }
  }

  lemma EmitClient(s: Sys, step: (Client, Verdict), minted: bool)
    requires SendsOk(s) && ClientOk(s) && if minted then FreshSend(s, step) else RepeatedSend(s, step)
    ensures ClientOk(Emit(s, step, minted))
  {
    var after := Emit(s, step, minted);
    forall i | 0 <= i < |s.sends| && s.sends[i].key != step.1.intent.key ensures Resolved(after, s.sends[i].key) {
      assert Resolved(s, s.sends[i].key);
    }
  }

  lemma EmitKeeps(s: Sys, step: (Client, Verdict), minted: bool)
    requires Inv(s)
    requires step.1.Sent? ==> if minted then FreshSend(s, step) else RepeatedSend(s, step)
    requires !step.1.Sent? ==> ClientOk(s.(client := step.0))
    ensures Inv(Emit(s, step, minted))
  {
    if step.1.Sent? {
      EmitSends(s, step, minted);
      EmitClient(s, step, minted);
    }
  }

  lemma ServeClient(s: Sys, i: nat, decision: Decision)
    requires ClientOk(s) && i < |s.sends| && i !in s.handled
    ensures ClientOk(Apply(s, Serve(i, decision)))
  {
    var after := Apply(s, Serve(i, decision));
    forall j | 0 <= j < |s.sends| && Resolved(s, s.sends[j].key) ensures Resolved(after, s.sends[j].key) {
    }
  }

  lemma ServeHandled(s: Sys, i: nat, decision: Decision)
    requires SendsOk(s) && HandledOk(s) && i < |s.sends| && i !in s.handled
    ensures HandledOk(Apply(s, Serve(i, decision)))
  {
    var intent := s.sends[i];
    if intent.key in s.admitted {
      var j :| 0 <= j < |s.sends| && s.sends[j] == s.admitted[intent.key];
      assert s.admitted[intent.key] == intent;
    }
    var after := Apply(s, Serve(i, decision));
    forall j | j in after.handled && j != i && after.handled[j].Http? && Refusal(after.handled[j].status)
      ensures after.sends[j].key !in after.admitted || after.sends[j].key in after.resent
    {
      assert j in s.handled;
    }
  }

  lemma ServeKeeps(s: Sys, i: nat, decision: Decision)
    requires Inv(s) && i < |s.sends| && i !in s.handled
    ensures Inv(Apply(s, Serve(i, decision)))
  {
    ServeClient(s, i, decision);
    ServeHandled(s, i, decision);
  }

  /** What the pending request's key comes to when its reply clears it. */
  lemma SettleResolves(s: Sys, reply: Reply, valid: bool)
    requires Inv(s) && s.client.phase.Sending? && s.client.pending.Some?
    requires reply == NetworkError || (|s.sends| - 1 in s.handled && s.handled[|s.sends| - 1] == reply)
    ensures var after := Settle(s, reply, valid);
            after.client.pending.None? ==> Resolved(after, s.client.pending.value.key)
  {
    var key, after := s.client.pending.value.key, Settle(s, reply, valid);
    if after.client.pending.None? && !(reply.Accepted? && valid) {
      assert s.sends[|s.sends| - 1].key == key && key !in s.resent;
      assert forall i | 0 <= i < |s.sends| - 1 :: s.sends[i].key != key;
    }
  }

  lemma SettleClient(s: Sys, reply: Reply, valid: bool)
    requires ClientOk(s) && s.client.phase.Sending? && s.client.pending.Some?
    requires var after := Settle(s, reply, valid);
             after.client.pending.None? ==> Resolved(after, s.client.pending.value.key)
    ensures ClientOk(Settle(s, reply, valid))
  {
    var key, after := s.client.pending.value.key, Settle(s, reply, valid);
    forall i | 0 <= i < |s.sends| && s.sends[i].key != key ensures Resolved(after, s.sends[i].key) {
      assert Resolved(s, s.sends[i].key);
    }
  }

  lemma SettleKeeps(s: Sys, reply: Reply, valid: bool)
    requires Inv(s)
    requires reply == NetworkError || (|s.sends| > 0 && |s.sends| - 1 in s.handled && s.handled[|s.sends| - 1] == reply)
    ensures Inv(Settle(s, reply, valid))
  {
    if s.client.phase.Sending? && s.client.pending.Some? {
      SettleResolves(s, reply, valid);
      SettleClient(s, reply, valid);
    }
  }

  lemma StepKeeps(s: Sys, e: Event)
    requires Inv(s)
    ensures Inv(Apply(s, e))
  {
    match e {
      case DoSubmit(request, prepare) => EmitKeeps(s, Submitted(s.client, request, prepare, s.nextKey), true);
      case DoPrepared(context) => EmitKeeps(s, PreparedWith(s.client, context, s.nextKey), true);
      case DoRetry => EmitKeeps(s, Retried(s.client), false);
      case Serve(i, decision) => if i < |s.sends| && i !in s.handled { ServeKeeps(s, i, decision); }
      case Deliver(valid) =>
        if |s.sends| > 0 && |s.sends| - 1 in s.handled { SettleKeeps(s, s.handled[|s.sends| - 1], valid); }
      case Lose => SettleKeeps(s, NetworkError, false);
    }
  }

  lemma {:induction false} ReachableInv(es: seq<Event>)
    ensures Inv(Exec(es))
  {
    if es != [] {
      ReachableInv(es[..|es| - 1]);
      StepKeeps(Exec(es[..|es| - 1]), es[|es| - 1]);
    }
  }

  // ----- main results -----

  /** The client never forgets an admitted run: whenever it holds no request, every run the server
      admitted for it has been acknowledged with a validated reply, and no send still under way in
      the network can be admitted any more. */
  lemma NeverForgetsAnAdmittedRun(es: seq<Event>)
    requires Exec(es).client.pending.None?
    ensures var s := Exec(es);
            && (forall k | k in s.admitted :: k in s.acknowledged)
            && (forall i | 0 <= i < |s.sends| && i !in s.handled :: s.sends[i].key in s.acknowledged)
  {
    ReachableInv(es);
    var s := Exec(es);
    forall k | k in s.admitted ensures k in s.acknowledged {
      var i :| 0 <= i < |s.sends| && s.sends[i] == s.admitted[k];
      assert Resolved(s, s.sends[i].key);
    }
    forall i | 0 <= i < |s.sends| && i !in s.handled ensures s.sends[i].key in s.acknowledged {
      assert Resolved(s, s.sends[i].key);
    }
  }

  /** All sends under one key are one and the same body, so one submit admits at most one run, and
      the admitted body is the one that was sent. */
  lemma OneSubmitAdmitsAtMostOneRun(es: seq<Event>)
    ensures var s := Exec(es);
            && (forall i, j | 0 <= i < j < |s.sends| && s.sends[i].key == s.sends[j].key :: s.sends[i] == s.sends[j])
            && (forall k | k in s.admitted :: k < s.nextKey && s.admitted[k].key == k && s.admitted[k] in s.sends)
  {
    ReachableInv(es);
  }

  lemma SendRepeats(s: Sys, e: Event)
    requires Inv(s) && |Apply(s, e).sends| > |s.sends|
    ensures Apply(s, e).sends[..|s.sends|] == s.sends && |Apply(s, e).sends| == |s.sends| + 1
    ensures var sent := Apply(s, e).sends[|s.sends|];
            if s.client.pending.Some? then |s.sends| > 0 && sent == s.sends[|s.sends| - 1] == s.client.pending.value
            else sent.key == s.nextKey
  {
    match e
    case DoSubmit(_, _) =>
    case DoPrepared(_) =>
    case DoRetry =>
    case Serve(_, _) =>
    case Deliver(_) =>
    case Lose =>
  }

  /** Any step that sends either repeats the newest request unchanged while it is unresolved, or is
      the first send of a new key at a moment when every earlier run is acknowledged. */
  lemma SendsRepeatUntilResolved(es: seq<Event>, e: Event)
    requires |Apply(Exec(es), e).sends| > |Exec(es).sends|
    ensures var s := Exec(es);
            var after := Apply(s, e);
            && after.sends[..|s.sends|] == s.sends && |after.sends| == |s.sends| + 1
            && var sent := after.sends[|s.sends|];
            if s.client.pending.Some? then |s.sends| > 0 && sent == s.sends[|s.sends| - 1] == s.client.pending.value
            else
              && sent.key == s.nextKey && (forall i | 0 <= i < |s.sends| :: s.sends[i].key != sent.key)
              && forall k | k in s.admitted :: k in s.acknowledged
  {
    ReachableInv(es);
    SendRepeats(Exec(es), e);
    if Exec(es).client.pending.None? { NeverForgetsAnAdmittedRun(es); }
  }

  /** A request leaves the client's memory in one way only besides a validated acknowledgement: the
      4xx refusal of its very first send. */
  lemma ForgottenOnlyWhenAnswered(es: seq<Event>, e: Event)
    requires Exec(es).client.pending.Some? && Apply(Exec(es), e).client.pending.None?
    ensures var s := Exec(es);
            var key := s.client.pending.value.key;
            && e.Deliver? && |s.sends| > 0 && |s.sends| - 1 in s.handled
            && var reply := s.handled[|s.sends| - 1];
            || (reply.Accepted? && e.valid)
            || (reply.Http? && Refusal(reply.status) && key !in s.admitted
                && forall i | 0 <= i < |s.sends| - 1 :: s.sends[i].key != key)
  {
    ReachableInv(es);
  }

  ghost predicate PendingUnacknowledged(s: Sys) {
    && (forall k | k in s.acknowledged :: k < s.nextKey)
    && (s.client.pending.Some? ==> s.client.pending.value.key < s.nextKey && s.client.pending.value.key !in s.acknowledged)
  }

  lemma PendingSent(s: Sys, e: Event)
    requires ClientOk(s) && PendingUnacknowledged(s) && (e.DoSubmit? || e.DoPrepared? || e.DoRetry?)
    ensures PendingUnacknowledged(Apply(s, e))
  {
  }

  lemma PendingSettled(s: Sys, reply: Reply, valid: bool)
    requires PendingUnacknowledged(s)
    ensures PendingUnacknowledged(Settle(s, reply, valid))
  {
  }

  lemma {:induction false} PendingIsUnacknowledged(es: seq<Event>)
    ensures PendingUnacknowledged(Exec(es))
  {
    if es != [] {
      var s := Exec(es[..|es| - 1]);
      PendingIsUnacknowledged(es[..|es| - 1]);
      ReachableInv(es[..|es| - 1]);
      match es[|es| - 1] {
        case Serve(_, _) =>
        case Deliver(valid) =>
          if |s.sends| > 0 && |s.sends| - 1 in s.handled { PendingSettled(s, s.handled[|s.sends| - 1], valid); }
        case Lose => PendingSettled(s, NetworkError, false);
        case other => PendingSent(s, other);
      }
    }
  }

  /** prepareClose lets the page close exactly when nothing is being prepared and no request is
      unanswered.  Then every admitted run is acknowledged, also against what the network still
      carries; and it refuses, apart from a preparation, only over a request that no reply has
      acknowledged. */
  lemma ClosingLosesNothing(es: seq<Event>)
    ensures var s := Exec(es);
            && (MayClose(s.client) <==> !s.client.phase.Preparing? && s.client.pending.None?)
            && (MayClose(s.client) ==>
                  && (forall k | k in s.admitted :: k in s.acknowledged)
                  && (forall i | 0 <= i < |s.sends| && i !in s.handled :: s.sends[i].key in s.acknowledged))
            && (s.client.pending.Some? ==> s.client.pending.value in s.sends && s.client.pending.value.key !in s.acknowledged)
  {
    ReachableInv(es);
    PendingIsUnacknowledged(es);
    if Exec(es).client.pending.None? {
      NeverForgetsAnAdmittedRun(es);
    }
  }

  // ----- what is sent, and what a submit achieves -----

  lemma PreparingStep(s: Sys, e: Event)
    requires Apply(s, e).client.phase.Preparing?
    ensures if s.client.phase.Preparing? then !e.DoPrepared? && Apply(s, e).client.phase == s.client.phase
            else e.DoSubmit? && e.prepare && Apply(s, e).client.phase.body == e.request.body
  {
  }

  /** A preparation belongs to the submit that asked for it: no other outcome of a preparation came
      after it. */
  lemma {:induction false} PreparationWasSubmitted(es: seq<Event>) returns (j: nat)
    requires Exec(es).client.phase.Preparing?
    ensures j < |es| && es[j].DoSubmit? && es[j].prepare && es[j].request.body == Exec(es).client.phase.body
    ensures forall i | j < i < |es| :: !es[i].DoPrepared?
  {
    if es == [] {
      assert false;
    } else {
      var init, e := es[..|es| - 1], es[|es| - 1];
      PreparingStep(Exec(init), e);
      if Exec(init).client.phase.Preparing? {
        j := PreparationWasSubmitted(init);
      } else {
        j := |es| - 1;
      }
    }
  }

  /** What a step sends, said by what the user submitted: a submit without preparation sends its own
      body at once and nothing else with it; a prepared context goes out with the body of the submit it
      was prepared for; a retry repeats the pending request.  No other step sends. */
  lemma SendsSaySubmits(es: seq<Event>, e: Event)
    requires |Apply(Exec(es), e).sends| > |Exec(es).sends|
    ensures var s, sent := Exec(es), Apply(Exec(es), e).sends[|Exec(es).sends|];
            match e
            case DoSubmit(request, prepare) => !prepare && sent == Intent(request.body, None, s.nextKey)
            case DoPrepared(context) =>
              && context.Some? && sent.context == context && sent.key == s.nextKey
              && exists j | 0 <= j < |es| ::
                   && es[j].DoSubmit? && es[j].prepare && es[j].request.body == sent.body
                   && forall i | j < i < |es| :: !es[i].DoPrepared?
            case DoRetry => s.client.pending == Some(sent)
            case _ => false
  {
    ReachableInv(es);
    if e.DoPrepared? { var j := PreparationWasSubmitted(es); }
  }

  /** What an act of the user does at once. */
  lemma ActsDo(es: seq<Event>, request: Request, prepare: bool, context: Option<string>)
    ensures var s := Exec(es);
            var t, verdict := Apply(s, DoSubmit(request, prepare)), Submitted(s.client, request, prepare, s.nextKey).1;
            && (verdict.Rejected? <==> s.client.phase.Idle? && s.client.pending.Some?)
            && (if !s.client.phase.Idle? || s.client.pending.Some? then t == s
                else if prepare then t == s.(client := Client(Preparing(request.body), None, s.client.uncertain))
                else
                  var intent := Intent(request.body, None, s.nextKey);
                  t == s.(client := Client(Sending(false), Some(intent), s.client.uncertain), sends := s.sends + [intent], nextKey := s.nextKey + 1))
    ensures var s := Exec(es);
            var t, verdict := Apply(s, DoPrepared(context)), PreparedWith(s.client, context, s.nextKey).1;
            && (verdict.Rejected? <==> s.client.phase.Preparing? && context.None?)
            && (if !s.client.phase.Preparing? then t == s
                else if context.None? then t == s.(client := s.client.(phase := Idle))
                else
                  var intent := Intent(s.client.phase.body, context, s.nextKey);
                  t == s.(client := Client(Sending(false), Some(intent), s.client.uncertain), sends := s.sends + [intent], nextKey := s.nextKey + 1))
    ensures var s, t := Exec(es), Apply(Exec(es), DoRetry);
            if s.client.phase.Idle? && s.client.pending.Some? then
              t == s.(client := Client(Sending(true), s.client.pending, true), sends := s.sends + [s.client.pending.value],
                      resent := s.resent + {s.client.pending.value.key})
            else t == s
  {
    ReachableInv(es);
  }

  /** How a call ends at the client: an actual run id with a valid reply frees it; a refusal of the
      first send with one of the four statuses frees it too; anything else leaves the request pending. */
  lemma RepliesDo(c: Client, reply: Reply, valid: bool)
    requires c.phase.Sending? && c.pending.Some?
    ensures var d := Received(c, reply, valid);
            && d.phase.Idle?
            && (if (reply.Accepted? && valid)
                   || (c.phase == Sending(false) && reply.Http? && (reply.status == 400 || reply.status == 404 || reply.status == 409 || reply.status == 422))
                then d.pending.None? && !d.uncertain
                else d.pending == c.pending && d.uncertain)
  {
  }

  /** A submit from a free client whose first send is admitted and answered: the run is admitted with
      the submitted body, acknowledged, and the client is free again. */
  lemma SubmitIsAdmitted(es: seq<Event>, request: Request)
    requires MayClose(Exec(es).client)
    ensures var s := Exec(es);
            var t := Apply(Apply(Apply(s, DoSubmit(request, false)), Serve(|s.sends|, Admit)), Deliver(true));
            && t.client == Client(Idle, None, false)
            && t.admitted == s.admitted[s.nextKey := Intent(request.body, None, s.nextKey)] && t.acknowledged == s.acknowledged + {s.nextKey}
  {
    ReachableInv(es);
    ActsDo(es, request, false, None);
    var s := Exec(es);
    AnsweredSend(Apply(s, DoSubmit(request, false)), Intent(request.body, None, s.nextKey), s.admitted);
  }

  /** The same through a preparation, with the prepared context. */
  lemma PreparedSubmitIsAdmitted(es: seq<Event>, request: Request, context: string)
    requires MayClose(Exec(es).client)
    ensures var s := Exec(es);
            var sent := Apply(Apply(s, DoSubmit(request, true)), DoPrepared(Some(context)));
            var t := Apply(Apply(sent, Serve(|s.sends|, Admit)), Deliver(true));
            && t.client == Client(Idle, None, false)
            && t.admitted == s.admitted[s.nextKey := Intent(request.body, Some(context), s.nextKey)]
            && t.acknowledged == s.acknowledged + {s.nextKey}
  {
    ReachableInv(es);
    ActsDo(es, request, true, None);
    var s := Exec(es);
    ExecSnoc(es, DoSubmit(request, true));
    ActsDo(es + [DoSubmit(request, true)], request, true, Some(context));
    var sent := Apply(Apply(s, DoSubmit(request, true)), DoPrepared(Some(context)));
    AnsweredSend(sent, Intent(request.body, Some(context), s.nextKey), s.admitted);
  }

  lemma ExecSnoc(es: seq<Event>, e: Event)
    ensures Exec(es + [e]) == Apply(Exec(es), e)
  {
    assert (es + [e])[..|es|] == es;
  }

  lemma AnsweredSend(s: Sys, intent: Intent, admitted: map<Key, Intent>)
    requires s.client.phase.Sending? && s.client.pending == Some(intent) && s.admitted == admitted
    requires |s.sends| > 0 && s.sends[|s.sends| - 1] == intent && |s.sends| - 1 !in s.handled
    requires intent.key in admitted ==> admitted[intent.key] == intent
    ensures var t := Apply(Apply(s, Serve(|s.sends| - 1, Admit)), Deliver(true));
            && t.client == Client(Idle, None, false)
            && t.admitted == admitted[intent.key := intent] && t.acknowledged == s.acknowledged + {intent.key}
  {
    var served := Apply(s, Serve(|s.sends| - 1, Admit));
    assert served.handled[|s.sends| - 1] == Accepted(intent.key);
    if intent.key in admitted { assert admitted[intent.key := intent] == admitted; }
  }

  /** A request whose outcome is unknown recovers by one retry that gets through: whether or not it had
      been admitted before, it is admitted once, acknowledged, and the client is free. */
  lemma RetryRecovers(es: seq<Event>)
    requires Exec(es).client.phase.Idle? && Exec(es).client.pending.Some?
    ensures var s := Exec(es);
            var intent := s.client.pending.value;
            var t := Apply(Apply(Apply(s, DoRetry), Serve(|s.sends|, Admit)), Deliver(true));
            && t.client == Client(Idle, None, false)
            && t.admitted == s.admitted[intent.key := intent] && t.acknowledged == s.acknowledged + {intent.key}
  {
    ReachableInv(es);
    ActsDo(es, Request("", None), false, None);
    var s := Exec(es);
    PendingIsAdmitted(s);
    AnsweredSend(Apply(s, DoRetry), s.client.pending.value, s.admitted);
  }

  /** What is admitted under the key of the pending request is that request. */
  lemma PendingIsAdmitted(s: Sys)
    requires SendsOk(s) && ClientOk(s) && s.client.pending.Some?
    ensures var intent := s.client.pending.value; intent.key in s.admitted ==> s.admitted[intent.key] == intent
    ensures |s.sends| !in s.handled
  {
    var intent := s.client.pending.value;
    if intent.key in s.admitted {
      var i :| 0 <= i < |s.sends| && s.sends[i] == s.admitted[intent.key];
      assert s.sends[i].key == s.sends[|s.sends| - 1].key;
    }
  }
}
