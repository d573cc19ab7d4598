/** The verification controller together with a server and a network: what can still happen after
    lost, late and reordered replies, cancels, reconciles, reads, activation, close and reselection.

    The only assumption about the server is that a review, once stored, is kept and never becomes
    pending again (src/doppel_agent/persistence/verification_reviews.py). */
module VerificationSafety {
  import opened Basics
  import opened VerificationReview

  datatype Act =
    | Activate(on: bool)
    | SelectRun(run: string)
    | SelectSource(source: Option<Source>)
    | Discard(confirmed: bool)
    | Prepare(names: Option<seq<string>>, granted: bool, id: Id)
    | Arm(confirmed: bool, now: int)
    | Decide(approve: bool, id: Id, planId: string, confirmed: bool, granted: bool, now: int)
    | RetryPrepare(confirmed: bool)
    | Recover
    | ReadExisting(id: Id, source: Option<Source>, seen: Option<Status>)
    | LoadHistory
    | Steer(kind: ControlKind, confirmed: bool)
    | AcknowledgeExit(confirmed: bool)
    | PrepareClose
    | ClosePrepared
    | FinishClose
    | Dispose

  function Acted(c: Client, act: Act): Client {
    match act
    case Activate(on) => Activated(c, on)
    case SelectRun(run) => RunSelected(c, run)
    case SelectSource(source) => SourceSelected(c, source)
    case Discard(confirmed) => Discarded(c, confirmed)
    case Prepare(names, granted, id) => Prepared(c, names, granted, id)
    case Arm(confirmed, now) => Armed(c, confirmed, now)
    case Decide(approve, id, planId, confirmed, granted, now) => Decided(c, approve, id, planId, confirmed, granted, now)
    case RetryPrepare(confirmed) => RetriedPrepare(c, confirmed)
    case Recover => Recovered(c)
    case ReadExisting(id, source, seen) => ExistingRead(c, id, source, seen)
    case LoadHistory => HistoryStarted(c)
    case Steer(kind, confirmed) => ControlStarted(c, kind, confirmed)
    case AcknowledgeExit(confirmed) => ExitAcknowledged(c, confirmed)
    case PrepareClose => CloseStarted(c)
    case ClosePrepared => CloseWaited(c).0
    case FinishClose => CloseFinished(c)
    case Dispose => Disposed(c)
  }

  /** `approves` lists the review ids of the approve requests sent, in order. */
  datatype Sys = Sys(client: Client, server: map<Id, Review>, flightAnswer: Option<Review>, readAnswer: Option<Review>,
                     controlAnswer: Option<Review>, approves: seq<Id>)

  /** The server may store or change a review at any time, also because a request believed lost
      arrived; each call is answered from what is stored when it is served; a reply may be lost. */
  datatype Event =
    | User(act: Act)
    | Store(id: Id, review: Review)
    | ServeFlight
    | ServeRead
    | ServeControl
    | EndFlight(lost: bool, now: int)
    | EndRead(lost: bool)
    | EndControl(lost: bool)

  const START := Sys(NEW, map[], None, None, None, [])

  predicate Sends(before: Client, after: Client) {
    before.flight.None? && after.flight.Some? && Approving(Some(after.flight.value.intent))
  }

  function Lookup(server: map<Id, Review>, id: Id): Option<Review> {
    if id in server then Some(server[id]) else None
  }

  predicate Storable(server: map<Id, Review>, id: Id, review: Review) {
    review.id == id && (id in server && server[id].status != Pending ==> review.status != Pending)
  }

  function Apply(s: Sys, e: Event): Sys {
    match e
    case User(act) =>
      var after := Acted(s.client, act);
      s.(client := after, approves := if Sends(s.client, after) then s.approves + [after.flight.value.intent.id] else s.approves)
    case Store(id, review) => if Storable(s.server, id, review) then s.(server := s.server[id := review]) else s
    case ServeFlight => if s.client.flight.None? then s else s.(flightAnswer := Lookup(s.server, s.client.flight.value.intent.id))
    case ServeRead =>
      if s.client.reading.None? || s.client.reading.value.ReadHistory? then s
      else s.(readAnswer := Lookup(s.server, s.client.reading.value.id))
    case ServeControl => if s.client.control.None? then s else s.(controlAnswer := Lookup(s.server, s.client.control.value.id))
    case EndFlight(lost, now) =>
      s.(client := FlightEnded(s.client, if lost then None else s.flightAnswer, now), flightAnswer := None)
    case EndRead(lost) => s.(client := ReadEnded(s.client, if lost then None else s.readAnswer), readAnswer := None)
    case EndControl(lost) => s.(client := ControlEnded(s.client, if lost then None else s.controlAnswer), controlAnswer := None)
  }

  function Exec(es: seq<Event>): Sys {
    if es == [] then START else Apply(Exec(es[..|es| - 1]), es[|es| - 1])
  }

  // ----- invariant -----

  /** Evidence the client holds or may still be handed is not ahead of the server. */
  ghost predicate Backed(server: map<Id, Review>, v: Option<Review>) {
    v.Some? ==> v.value.id in server && (v.value.status != Pending ==> server[v.value.id].status != Pending)
  }

  ghost predicate Truthful(s: Sys) {
    && (forall id | id in s.server :: s.server[id].id == id)
    && Backed(s.server, s.client.review) && Backed(s.server, s.flightAnswer)
    && Backed(s.server, s.readAnswer) && Backed(s.server, s.controlAnswer)
  }

  predicate Live(c: Client) {
    c.reading.Some? && c.reading.value.epoch == c.epoch
  }

  predicate About(v: Option<Review>, i: Intent) {
    v.Some? && v.value.id == i.id && v.value.source == i.source && PlanOf(i) == Some(v.value.plan.id)
  }

  /** Which requests can be in flight together, and about which review. */
  ghost predicate Calls(c: Client) {
    && (c.flight.Some? ==> c.intent == Some(c.flight.value.intent))
    && (c.intent.Some? && c.intent.value.DecideIntent? && (c.flight.Some? || c.uncertain) ==> About(c.review, c.intent.value))
    && (c.control.Some? ==> c.review.Some? && c.review.value.id == c.control.value.id)
    && (c.control.Some? && c.flight.Some? ==> c.flight.value.intent.DecideIntent?)
    && (c.reading.Some? ==> c.reading.value.epoch <= c.epoch)
    && (c.control.Some? ==> !Live(c))
    && (c.reading.Some? && c.reading.value.ReadReview? && c.intent.Some? && (c.flight.Some? || c.uncertain) ==>
          c.reading.value.recovering == c.intent && c.reading.value.id == c.intent.value.id)
  }

  /** A current read cannot bring back a pending state of a review already seen past it. */
  ghost predicate Forward(s: Sys) {
    && (s.client.flight.None? ==> s.flightAnswer.None?)
    && (s.client.reading.None? ==> s.readAnswer.None?)
    && (Live(s.client) && s.client.review.Some? && s.client.review.value.status != Pending ==> !Pins(s.readAnswer, s.client.review.value.id))
  }

  predicate Pins(v: Option<Review>, id: Id) {
    v.Some? && v.value.id == id && v.value.status == Pending
  }

  predicate Shows(c: Client, id: Id) {
    c.review.Some? && c.review.value.id == id
  }

  /** An approve of `id` is on its way, or its outcome is unknown and it is the pinned intent. */
  ghost predicate Undecided(c: Client, id: Id) {
    && Shows(c, id) && Approving(c.intent) && c.intent.value.id == id
    && (c.flight.Some? || c.uncertain)
  }

  /** The server is past pending, and nothing can show the client a pending `id` again. */
  ghost predicate Spent(s: Sys, id: Id) {
    && id in s.server && s.server[id].status != Pending
    && !Pins(s.client.review, id) && !Pins(s.flightAnswer, id) && (Live(s.client) ==> !Pins(s.readAnswer, id))
  }

  ghost predicate Consumed(s: Sys, id: Id) {
    s.client.disposed || Undecided(s.client, id) || Spent(s, id)
  }

  ghost predicate Inv(s: Sys) {
    && Truthful(s) && Calls(s.client) && Forward(s)
    && (forall id | id in s.approves :: Consumed(s, id))
    && (forall i, j | 0 <= i < j < |s.approves| :: s.approves[i] != s.approves[j])
  }

  // ----- the kinds of user step -----

  predicate Quiet(c: Client, d: Client) {
    && d.review == c.review && d.intent == c.intent && d.uncertain == c.uncertain
    && d.flight == c.flight && d.control == c.control && d.reading == c.reading && d.epoch >= c.epoch
    && (c.disposed ==> d.disposed)
  }

  predicate Clears(c: Client, d: Client) {
    && !c.disposed && c.flight.None? && c.reading.None? && c.control.None? && !c.uncertain && d.review.None? && d.intent.None? && !d.uncertain
    && d.flight.None? && d.control.None? && d.reading.None?
  }

  predicate Dispatches(c: Client, d: Client) {
    && CanAct(c) && d.flight.Some? && d.intent == Some(d.flight.value.intent) && d.review == c.review
    && d.uncertain == c.uncertain && d.control.None? && d.reading.None?
    && match d.flight.value.intent
       case PrepareIntent(_, _, _) => !Approving(c.intent) || !c.uncertain
       case DecideIntent(id, _, _, _) => !c.uncertain && Pins(c.review, id) && About(c.review, d.flight.value.intent)
  }

  predicate Reads(c: Client, d: Client) {
    && CanRead(c) && d.review == c.review && d.intent == c.intent && d.uncertain == c.uncertain
    && d.flight == c.flight && d.control.None? && d.epoch == c.epoch + 1
    && d.reading.Some? && d.reading.value.epoch == d.epoch
    && (d.reading.value.ReadReview? && c.intent.Some? && (c.flight.Some? || c.uncertain) ==>
          d.reading.value.recovering == c.intent && d.reading.value.id == c.intent.value.id)
  }

  predicate Steers(c: Client, d: Client) {
    && d.review == c.review && d.intent == c.intent && d.uncertain == c.uncertain
    && d.flight == c.flight && d.control.Some? && d.reading == c.reading && d.epoch == c.epoch + 1
    && !c.disposed && c.review.Some? && d.control.value.id == c.review.value.id && (c.flight.None? || Approving(c.intent))
  }

  predicate UserStep(c: Client, d: Client) {
    Quiet(c, d) || Clears(c, d) || Dispatches(c, d) || Reads(c, d) || Steers(c, d)
  }

  lemma SelectionSteps(c: Client, act: Act)
    requires act.SelectRun? || act.SelectSource? || act.Discard?
    ensures UserStep(c, Acted(c, act))
  {
    var d := Acted(c, act);
    assert d == c || Clears(c, d);
  }

  lemma ReadBegins(c: Client, id: Id, source: Option<Source>, planId: Option<string>, recovering: Option<Intent>, seen: Option<Status>)
    requires c.intent.Some? && (c.flight.Some? || c.uncertain) ==> recovering == c.intent && id == c.intent.value.id
    ensures UserStep(c, ReadStarted(c, id, source, planId, recovering, seen))
  {
    var d := ReadStarted(c, id, source, planId, recovering, seen);
    assert d == c || Reads(c, d);
  }

  lemma RecoveringSteps(c: Client)
    ensures UserStep(c, Recovered(c))
  {
    if CanRecover(c) {
      if c.intent.Some? {
        ReadBegins(c, c.intent.value.id, Some(c.intent.value.source), PlanOf(c.intent.value), c.intent, None);
      } else {
        ReadBegins(c, c.review.value.id, Some(c.review.value.source), Some(c.review.value.plan.id), None, None);
      }
    }
  }

  lemma HistorySteps(c: Client)
    ensures UserStep(c, HistoryStarted(c))
  {
    var d := HistoryStarted(c);
    assert d == c || Reads(c, d);
  }

  lemma DispatchingSteps(c: Client, act: Act)
    requires act.Prepare? || act.Decide? || act.RetryPrepare?
    ensures UserStep(c, Acted(c, act))
  {
    var d := Acted(c, act);
    assert d == c || Dispatches(c, d);
  }

  lemma SteeringSteps(c: Client, act: Act)
    requires act.Steer?
    ensures UserStep(c, Acted(c, act))
  {
    var d := Acted(c, act);
    assert d == c || Steers(c, d);
  }

  lemma ArmingSteps(c: Client, act: Act)
    requires act.Arm? || act.AcknowledgeExit?
    ensures UserStep(c, Acted(c, act))
  {
    assert Quiet(c, Acted(c, act));
  }

  lemma QuietSteps(c: Client, act: Act)
    requires act.Activate? || act.PrepareClose? || act.Dispose?
    ensures UserStep(c, Acted(c, act))
  {
    match act {
      case Activate(on) => assert Quiet(c, Activated(c, on));
      case PrepareClose => assert Quiet(c, CloseStarted(c));
      case Dispose => assert Quiet(c, Disposed(c));
      case _ =>
    }
  }

  lemma ClosingSteps(c: Client, act: Act)
    requires act.ClosePrepared? || act.FinishClose?
    ensures UserStep(c, Acted(c, act))
  {
    assert Quiet(c, Acted(c, act));
  }

  lemma Classified(c: Client, act: Act)
    ensures UserStep(c, Acted(c, act))
  {
    match act {
      case SelectRun(_) => SelectionSteps(c, act);
      case SelectSource(_) => SelectionSteps(c, act);
      case Discard(_) => SelectionSteps(c, act);
      case Prepare(_, _, _) => DispatchingSteps(c, act);
      case Decide(_, _, _, _, _, _) => DispatchingSteps(c, act);
      case RetryPrepare(_) => DispatchingSteps(c, act);
      case Recover => RecoveringSteps(c);
      case ReadExisting(id, source, seen) => if CanAct(c) && !SelectionLocked(c) { ReadBegins(c, id, source, None, None, seen); }
      case LoadHistory => HistorySteps(c);
      case Steer(_, _) => SteeringSteps(c, act);
      case Arm(_, _) => ArmingSteps(c, act);
      case AcknowledgeExit(_) => ArmingSteps(c, act);
      case ClosePrepared => ClosingSteps(c, act);
      case FinishClose => ClosingSteps(c, act);
      case _ => QuietSteps(c, act);
    }
  }

  lemma StepKeepsCalls(c: Client, d: Client)
    requires Calls(c) && UserStep(c, d)
    ensures Calls(d)
  {
  }

  function Moved(s: Sys, d: Client): Sys {
    s.(client := d, approves := if Sends(s.client, d) then s.approves + [d.flight.value.intent.id] else s.approves)
  }

  lemma StepKeepsForward(s: Sys, d: Client)
    requires Calls(s.client) && Forward(s) && UserStep(s.client, d)
    ensures Forward(Moved(s, d))
  {
  }

  lemma StepKeepsConsumed(s: Sys, d: Client, id: Id)
    requires Calls(s.client) && Forward(s) && UserStep(s.client, d) && Consumed(s, id)
    ensures Consumed(Moved(s, d), id)
  {
  }

  // ----- replies -----

  lemma Resumes(c: Client, d: Client)
    requires d == MaybeResume(c)
    ensures d.review == c.review && d.intent == c.intent && d.uncertain == c.uncertain && d.epoch == c.epoch
    ensures d.flight == c.flight && d.control == c.control && d.reading == c.reading && d.disposed == c.disposed
  {
  }

  lemma Settles(c: Client, d: Client)
    requires d == Settled(c)
    ensures d.review == c.review && d.epoch == c.epoch && d.flight == c.flight && d.control == c.control && d.reading == c.reading
    ensures d.disposed == c.disposed
    ensures d.intent == c.intent || (d.intent.None? && d.flight.None? && !d.uncertain)
    ensures d.uncertain != c.uncertain ==> !d.uncertain && KnownTerminal(c)
  {
  }

  lemma ControlTakes(c: Client, reply: Review, d: Client)
    requires d == ControlTaken(c, reply)
    ensures d.control == c.control && d.reading == c.reading && d.flight == c.flight && d.epoch == c.epoch && d.review == Some(reply) && d.disposed == c.disposed
    ensures d.intent == c.intent || (d.intent.None? && d.flight.None? && !d.uncertain)
    ensures d.uncertain != c.uncertain ==> !d.uncertain && KnownTerminal(d)
  {
    Settles(Accepted(c, reply).(controlUncertain := Unknown(reply)), d);
  }

  lemma ControlExamines(c: Client, k: Control, reply: Option<Review>, d: Client)
    requires d == ControlExamined(c, k, reply)
    ensures d.control == c.control && d.reading == c.reading && d.flight == c.flight && d.epoch >= c.epoch && d.disposed == c.disposed
    ensures if Steered(c.run, c.review, k, reply) then d.review == reply && d.epoch > c.epoch else d.review == c.review
    ensures d.intent == c.intent || (d.intent.None? && d.flight.None? && !d.uncertain)
    ensures d.uncertain != c.uncertain ==> !d.uncertain && Steered(c.run, c.review, k, reply) && KnownTerminal(d)
  {
    if Steered(c.run, c.review, k, reply) {
      ControlTakes(Fenced(c), reply.value, d);
    }
  }

  predicate ControlStep(c: Client, d: Client, reply: Option<Review>) {
    && c.control.Some? && d.control.None? && d.reading == c.reading && d.flight == c.flight && d.epoch >= c.epoch && d.disposed == c.disposed
    && (if !c.disposed && Steered(c.run, c.review, c.control.value, reply) then d.review == reply && d.epoch > c.epoch
        else d.review == c.review)
    && (d.intent == c.intent || (d.intent.None? && d.flight.None? && !d.uncertain))
    && (d.uncertain != c.uncertain ==>
          !d.uncertain && !c.disposed && Steered(c.run, c.review, c.control.value, reply) && KnownTerminal(d))
  }

  lemma ControlEnds(c: Client, reply: Option<Review>)
    requires c.control.Some?
    ensures ControlStep(c, ControlEnded(c, reply), reply)
  {
    var d := ControlEnded(c, reply);
    if !c.disposed {
      var landed := c.(control := None);
      var x := ControlExamined(landed, c.control.value, reply);
      ControlExamines(landed, c.control.value, reply, x);
      Resumes(x, d);
    }
  }

  lemma Examines(c: Client, call: Call, reply: Option<Review>, now: int, d: Client)
    requires d == Examined(c, call, reply, now)
    ensures d.control == c.control && d.reading == c.reading && d.flight == c.flight && d.epoch >= c.epoch && d.disposed == c.disposed
    ensures if Answered(c.run, c.review, call.intent, reply) then d.review == reply && d.epoch > c.epoch && !d.uncertain
            else d.review == c.review && d.uncertain == !KnownTerminal(c)
    ensures d.intent == c.intent || (d.intent.None? && !d.uncertain)
  {
    if Answered(c.run, c.review, call.intent, reply) {
      assert d == Acknowledged(Accepted(Fenced(c), reply.value), call.first, reply.value, now);
    }
  }

  predicate FlightStep(c: Client, d: Client, reply: Option<Review>) {
    && c.flight.Some? && d.flight.None? && d.control == c.control && d.reading == c.reading && d.epoch >= c.epoch && d.disposed == c.disposed
    && (if !c.disposed && Answered(c.run, c.review, c.flight.value.intent, reply) then d.review == reply && d.epoch > c.epoch
        else d.review == c.review && (c.disposed || d.uncertain == !KnownTerminal(c)))
    && (d.intent == c.intent || (d.intent.None? && !d.uncertain))
  }

  lemma FlightEnds(c: Client, reply: Option<Review>, now: int)
    requires c.flight.Some?
    ensures FlightStep(c, FlightEnded(c, reply, now), reply)
  {
    var d := FlightEnded(c, reply, now);
    var landed := c.(flight := None);
    var x := if c.disposed then landed else Examined(landed, c.flight.value, reply, now);
    if !c.disposed { Examines(landed, c.flight.value, reply, now, x); }
    var y := x.(intent := if KnownTerminal(x) && !x.uncertain then None else x.intent);
    Resumes(y, d);
  }

  lemma ReadTakes(c: Client, recovering: Option<Intent>, reply: Review, d: Client)
    requires d == ReadTaken(c, recovering, reply)
    ensures d.control == c.control && d.reading == c.reading && d.flight == c.flight && d.epoch == c.epoch && d.review == Some(reply) && d.disposed == c.disposed
    ensures d.intent == c.intent || (d.intent.None? && d.flight.None? && !d.uncertain)
    ensures d.uncertain != c.uncertain ==> !d.uncertain && (KnownTerminal(d) || (recovering.Some? && recovering.value.PrepareIntent?))
  {
    var x := ReadNoted(c, recovering, reply);
    Settles(x, d);
  }

  predicate ReadStep(c: Client, d: Client, reply: Option<Review>) {
    && c.reading.Some? && d.reading.None? && d.control == c.control && d.flight == c.flight && d.epoch == c.epoch && d.disposed == c.disposed
    && d.review == (if Fits(c, c.reading.value, reply) then reply else c.review)
    && (d.intent == c.intent || (d.intent.None? && d.flight.None? && !d.uncertain))
    && (d.uncertain != c.uncertain ==>
          && !d.uncertain && Fits(c, c.reading.value, reply)
          && (KnownTerminal(d) || (c.reading.value.recovering.Some? && c.reading.value.recovering.value.PrepareIntent?)))
  }

  lemma ReadEnds(c: Client, reply: Option<Review>)
    requires c.reading.Some?
    ensures ReadStep(c, ReadEnded(c, reply), reply)
  {
    var d := ReadEnded(c, reply);
    var landed := c.(reading := None);
    var call := c.reading.value;
    if Fits(c, call, reply) {
      var x := ReadTaken(landed, call.recovering, reply.value);
      ReadTakes(landed, call.recovering, reply.value, x);
      Resumes(x, d);
    } else {
      Resumes(landed, d);
    }
  }

  lemma ReplyKeepsCalls(c: Client, d: Client, reply: Option<Review>)
    requires Calls(c) && (FlightStep(c, d, reply) || ReadStep(c, d, reply) || ControlStep(c, d, reply))
    ensures Calls(d)
  {
  }

  // ----- every event keeps the invariant -----

  lemma MovedKeeps(s: Sys, d: Client)
    requires Inv(s) && UserStep(s.client, d)
    ensures Inv(Moved(s, d))
  {
    StepKeepsCalls(s.client, d);
    StepKeepsForward(s, d);
    var after := Moved(s, d);
    forall id | id in s.approves ensures Consumed(after, id) { StepKeepsConsumed(s, d, id); }
    if Sends(s.client, d) {
      SendIsNew(s, d);
    }
  }

  lemma UserKeeps(s: Sys, act: Act)
    requires Inv(s)
    ensures Inv(Apply(s, User(act)))
  {
    Classified(s.client, act);
    MovedKeeps(s, Acted(s.client, act));
  }

  /** An approve is sent only for a review not yet approved: a consumed one is locked or not shown pending. */
  lemma SendIsNew(s: Sys, d: Client)
    requires Inv(s) && UserStep(s.client, d) && Sends(s.client, d)
    ensures d.flight.value.intent.id !in s.approves && Undecided(d, d.flight.value.intent.id)
    ensures Pins(s.client.review, d.flight.value.intent.id)
  {
    assert Dispatches(s.client, d);
    var id := d.flight.value.intent.id;
    assert id in s.approves ==> Consumed(s, id);
  }

  lemma StoreKeeps(s: Sys, id: Id, review: Review)
    requires Inv(s)
    ensures Inv(Apply(s, Store(id, review)))
  {
    var after := Apply(s, Store(id, review));
    forall approved | approved in s.approves ensures Consumed(after, approved) { assert Consumed(s, approved); }
  }

  lemma ServeKeeps(s: Sys, e: Event)
    requires Inv(s) && (e.ServeFlight? || e.ServeRead? || e.ServeControl?)
    ensures Inv(Apply(s, e))
  {
    var after := Apply(s, e);
    forall id | id in s.approves ensures Consumed(after, id) { assert Consumed(s, id); }
  }

  lemma FlightStepKeeps(s: Sys, d: Client, reply: Option<Review>)
    requires Inv(s) && FlightStep(s.client, d, reply) && (reply.None? || reply == s.flightAnswer)
    ensures Inv(s.(client := d, flightAnswer := None))
  {
    ReplyKeepsCalls(s.client, d, reply);
    var after := s.(client := d, flightAnswer := None);
    forall id | id in s.approves ensures Consumed(after, id) { assert Consumed(s, id); }
  }

  lemma ReadStepKeeps(s: Sys, d: Client, reply: Option<Review>)
    requires Inv(s) && ReadStep(s.client, d, reply) && (reply.None? || reply == s.readAnswer)
    ensures Inv(s.(client := d, readAnswer := None))
  {
    ReplyKeepsCalls(s.client, d, reply);
    var after := s.(client := d, readAnswer := None);
    forall id | id in s.approves ensures Consumed(after, id) { assert Consumed(s, id); }
  }

  lemma ControlStepKeeps(s: Sys, d: Client, reply: Option<Review>)
    requires Inv(s) && ControlStep(s.client, d, reply) && (reply.None? || reply == s.controlAnswer)
    ensures Inv(s.(client := d, controlAnswer := None))
  {
    ReplyKeepsCalls(s.client, d, reply);
    var after := s.(client := d, controlAnswer := None);
    forall id | id in s.approves ensures Consumed(after, id) { assert Consumed(s, id); }
  }

  lemma EventKeeps(s: Sys, e: Event)
    requires Inv(s)
    ensures Inv(Apply(s, e))
  {
    match e {
      case User(act) => UserKeeps(s, act);
      case Store(id, review) => StoreKeeps(s, id, review);
      case EndFlight(lost, now) =>
        if s.client.flight.Some? {
          var reply := if lost then None else s.flightAnswer;
          FlightEnds(s.client, reply, now);
          FlightStepKeeps(s, FlightEnded(s.client, reply, now), reply);
        }
      case EndRead(lost) =>
        if s.client.reading.Some? {
          var reply := if lost then None else s.readAnswer;
          ReadEnds(s.client, reply);
          ReadStepKeeps(s, ReadEnded(s.client, reply), reply);
        }
      case EndControl(lost) =>
        if s.client.control.Some? {
          var reply := if lost then None else s.controlAnswer;
          ControlEnds(s.client, reply);
          ControlStepKeeps(s, ControlEnded(s.client, reply), reply);
        } else {
          ControlIdle(s);
        }
      case _ => ServeKeeps(s, e);
    }
  }

  lemma ControlIdle(s: Sys)
    requires Inv(s)
    ensures Inv(s.(controlAnswer := None))
  {
    var after := s.(controlAnswer := None);
    forall id | id in s.approves ensures Consumed(after, id) { assert Consumed(s, id); }
  }

  lemma {:induction false} ReachableInv(es: seq<Event>)
    ensures Inv(Exec(es))
  {
    if es != [] {
      ReachableInv(es[..|es| - 1]);
      EventKeeps(Exec(es[..|es| - 1]), es[|es| - 1]);
    }
  }

  // ----- main results -----

  /** Over every sequence of events, at most one approve request is sent per review id. */
  lemma OneApprovePerReview(es: seq<Event>)
    ensures var sent := Exec(es).approves; forall i, j | 0 <= i < j < |sent| :: sent[i] != sent[j]
  {
    ReachableInv(es);
  }

  /** The outcome of a sent decision is unknown and no request of it is in flight. */
  predicate Lost(c: Client) {
    !c.disposed && c.flight.None? && c.uncertain && c.intent.Some? && c.intent.value.DecideIntent?
  }

  /** While a decision is lost, nothing but recovery is possible: a new decision, a new or repeated
      prepare, another run or source, and discarding all leave the controller as it is. */
  lemma LostDecisionLocks(s: Sys, act: Act)
    requires Lost(s.client)
    requires act.Decide? || act.Prepare? || act.RetryPrepare? || act.SelectRun? || act.SelectSource? || act.Discard? || act.ReadExisting?
    ensures Apply(s, User(act)) == s
  {
    var c := s.client;
    match act {
      case SelectRun(run) => assert RunSelected(c, run) == c;
      case SelectSource(source) => assert SourceSelected(c, source) == c;
      case _ =>
    }
  }

  lemma LostDecisionSteps(s: Sys, act: Act)
    requires Lost(s.client) && act != Dispose
    ensures Lost(Acted(s.client, act)) && Acted(s.client, act).intent == s.client.intent
  {
    Classified(s.client, act);
  }

  /** Terminal evidence, backed by the server, of the review, source and plan of `i`. */
  ghost predicate Proves(s: Sys, proof: Option<Review>, i: Intent) {
    && About(proof, i) && Terminal(proof.value.status) && !Unknown(proof.value)
    && i.id in s.server && s.server[i.id].status != Pending
  }

  lemma ReadProves(s: Sys, d: Client, reply: Option<Review>)
    requires Inv(s) && Lost(s.client) && ReadStep(s.client, d, reply) && (reply.None? || reply == s.readAnswer)
    ensures (Lost(d) && d.intent == s.client.intent) || (reply.Some? && Proves(s, reply, s.client.intent.value))
  {
  }

  lemma ControlProves(s: Sys, d: Client, reply: Option<Review>)
    requires Inv(s) && Lost(s.client) && ControlStep(s.client, d, reply) && (reply.None? || reply == s.controlAnswer)
    ensures (Lost(d) && d.intent == s.client.intent) || (reply.Some? && Proves(s, reply, s.client.intent.value))
  {
  }

  /** A lost decision stays the pinned intent until a reply shows a known terminal state of the very
      same review, source and plan, and the server is past pending then. */
  lemma LostDecisionEndsOnlyByProof(es: seq<Event>, e: Event)
    requires Lost(Exec(es).client)
    ensures
      || (Lost(Apply(Exec(es), e).client) && Apply(Exec(es), e).client.intent == Exec(es).client.intent)
      || e == User(Dispose)
      || (e == EndRead(false) && Proves(Exec(es), Exec(es).readAnswer, Exec(es).client.intent.value))
      || (e == EndControl(false) && Proves(Exec(es), Exec(es).controlAnswer, Exec(es).client.intent.value))
  {
    ReachableInv(es);
    var s := Exec(es);
    match e {
      case User(act) => if act != Dispose { LostDecisionSteps(s, act); }
      case EndRead(lost) =>
        if s.client.reading.Some? {
          var reply := if lost then None else s.readAnswer;
          ReadEnds(s.client, reply);
          ReadProves(s, ReadEnded(s.client, reply), reply);
        }
      case EndControl(lost) =>
        if s.client.control.Some? {
          var reply := if lost then None else s.controlAnswer;
          ControlEnds(s.client, reply);
          ControlProves(s, ControlEnded(s.client, reply), reply);
        }
      case _ =>
    }
  }
}
