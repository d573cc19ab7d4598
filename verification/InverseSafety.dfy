/** The inverse controller together with a server and a network.  As in VerificationSafety, the only
    assumption about the server is that a stored review is kept and never becomes pending again
    (src/doppel_agent/persistence/inverse_reviews.py). */
module InverseSafety {
  import opened Basics
  import opened InverseReview

  datatype Act =
    | Activate(on: bool)
    | SelectSource(source: Option<Source>)
    | Discard(confirmed: bool)
    | PrepareReview(granted: bool, id: Id)
    | Arm(confirmed: bool, now: int)
    | Decide(approve: bool, id: Id, patch: string, confirmed: bool, granted: bool, now: int)
    | RetryPrepare(confirmed: bool)
    | StartReconcile(confirmed: bool)
    | Recover
    | ReadExisting(id: Id)
    | AcknowledgeExit(confirmed: bool)
    | PrepareClose
    | ClosePrepared
    | FinishClose
    | Dispose

  function Acted(c: Client, act: Act): Client {
    match act
    case Activate(on) => Activated(c, on)
    case SelectSource(source) => SourceSelected(c, source)
    case Discard(confirmed) => Discarded(c, confirmed)
    case PrepareReview(granted, id) => Prepared(c, granted, id)
    case Arm(confirmed, now) => Armed(c, confirmed, now)
    case Decide(approve, id, patch, confirmed, granted, now) => Decided(c, approve, id, patch, confirmed, granted, now)
    case RetryPrepare(confirmed) => RetriedPrepare(c, confirmed)
    case StartReconcile(confirmed) => Reconciled(c, confirmed)
    case Recover => Recovered(c)
    case ReadExisting(id) => ExistingRead(c, id)
    case AcknowledgeExit(confirmed) => ExitAcknowledged(c, confirmed)
    case PrepareClose => CloseStarted(c)
    case ClosePrepared => CloseWaited(c).0
    case FinishClose => CloseFinished(c)
    case Dispose => Disposed(c)
  }

  /** `approves` lists the review ids of the approve requests sent, in order. */
  datatype Sys = Sys(client: Client, server: map<Id, Review>, flightAnswer: Option<Review>, readAnswer: Option<Review>,
                     approves: seq<Id>)

  datatype Event =
    | User(act: Act)
    | Store(id: Id, review: Review)
    | ServeFlight
    | ServeRead
    | EndFlight(lost: bool, now: int)
    | EndRead(lost: bool)

  const START := Sys(NEW, map[], None, None, [])

  predicate Sends(before: Client, after: Client) {
    before.flight.None? && after.flight.Some? && after.flight.value.intent.kind == Approve
  }

  function Moved(s: Sys, d: Client): Sys {
    s.(client := d, approves := if Sends(s.client, d) then s.approves + [d.flight.value.intent.id] else s.approves)
  }

  function Lookup(server: map<Id, Review>, id: Id): Option<Review> {
    if id in server then Some(server[id]) else None
  }

  predicate Storable(server: map<Id, Review>, id: Id, review: Review) {
    review.id == id && (id in server && server[id].status != Pending ==> review.status != Pending)
  }

  function Apply(s: Sys, e: Event): Sys {
    match e
    case User(act) => Moved(s, Acted(s.client, act))
    case Store(id, review) => if Storable(s.server, id, review) then s.(server := s.server[id := review]) else s
    case ServeFlight => if s.client.flight.None? then s else s.(flightAnswer := Lookup(s.server, s.client.flight.value.intent.id))
    case ServeRead => if s.client.reading.None? then s else s.(readAnswer := Lookup(s.server, s.client.reading.value.id))
    case EndFlight(lost, now) =>
      s.(client := FlightEnded(s.client, if lost then None else s.flightAnswer, now), flightAnswer := None)
    case EndRead(lost) => s.(client := ReadEnded(s.client, if lost then None else s.readAnswer), readAnswer := None)
  }

  function Exec(es: seq<Event>): Sys {
    if es == [] then START else Apply(Exec(es[..|es| - 1]), es[|es| - 1])
  }

  // ----- invariant -----

  ghost predicate Backed(server: map<Id, Review>, v: Option<Review>) {
    v.Some? ==> v.value.id in server && (v.value.status != Pending ==> server[v.value.id].status != Pending)
  }

  ghost predicate Truthful(s: Sys) {
    && (forall id | id in s.server :: s.server[id].id == id)
    && Backed(s.server, s.client.review) && Backed(s.server, s.flightAnswer) && Backed(s.server, s.readAnswer)
    && (s.client.flight.None? ==> s.flightAnswer.None?) && (s.client.reading.None? ==> s.readAnswer.None?)
  }

  predicate Pins(v: Option<Review>, id: Id) {
    v.Some? && v.value.id == id && v.value.status == Pending
  }

  predicate About(v: Option<Review>, i: Intent) {
    v.Some? && v.value.id == i.id && v.value.source == i.source && i.patch == Some(v.value.patch)
  }

  predicate Decides(i: Intent) {
    i.kind == Approve || i.kind == Reject
  }

  /** The decision whose outcome the controller still owes, if any: the one in flight, the one a
      running reconcile will give back, or the pinned one of an uncertain outcome. */
  function Owed(c: Client): Option<Intent> {
    if c.flight.Some? then
      if Decides(c.flight.value.intent) then Some(c.flight.value.intent)
      else if c.flight.value.original.Some? && Decides(c.flight.value.original.value) && c.uncertain then c.flight.value.original
      else None
    else if c.uncertain && c.intent.Some? && Decides(c.intent.value) then c.intent
    else None
  }

  ghost predicate Calls(c: Client) {
    && !(c.flight.Some? && c.reading.Some?)
    && (c.flight.Some? ==> c.intent == Some(c.flight.value.intent))
    && (c.flight.Some? && c.flight.value.original.Some? ==> c.flight.value.intent.kind == Reconcile)
    && (c.flight.Some? && c.flight.value.intent.kind == Reconcile ==> About(c.review, c.flight.value.intent) && UnknownShown(c))
    && (Owed(c).Some? ==> About(c.review, Owed(c).value))
    && (c.reading.Some? && c.uncertain ==> c.reading.value.recovering == c.intent)
    && (c.reading.Some? && c.uncertain && c.intent.Some? ==> c.reading.value.id == c.intent.value.id)
    && (c.uncertain && c.flight.None? ==> c.intent.Some?)
    && (c.intent.Some? && c.flight.None? && !c.disposed ==> c.uncertain)
    && (c.flight.Some? && c.flight.value.original.Some? ==> c.uncertain)
  }

  /** The server is past pending, and nothing can show the client a pending `id` again. */
  ghost predicate Spent(s: Sys, id: Id) {
    && id in s.server && s.server[id].status != Pending
    && !Pins(s.client.review, id) && !Pins(s.flightAnswer, id) && !Pins(s.readAnswer, id)
  }

  ghost predicate Consumed(s: Sys, id: Id) {
    s.client.disposed || (Owed(s.client).Some? && Owed(s.client).value.kind == Approve && Owed(s.client).value.id == id) || Spent(s, id)
  }

  ghost predicate Inv(s: Sys) {
    && Truthful(s) && Calls(s.client)
    && (forall id | id in s.approves :: Consumed(s, id))
    && (forall i, j | 0 <= i < j < |s.approves| :: s.approves[i] != s.approves[j])
  }

  // ----- the kinds of user step -----

  predicate Quiet(c: Client, d: Client) {
    && d.review == c.review && d.intent == c.intent && d.uncertain == c.uncertain
    && d.flight == c.flight && d.reading == c.reading && (c.disposed ==> d.disposed)
  }

  predicate Clears(c: Client, d: Client) {
    && !c.disposed && c.flight.None? && c.reading.None? && !c.uncertain
    && d.review.None? && d.intent.None? && !d.uncertain && d.flight.None? && d.reading.None?
  }

  predicate Dispatches(c: Client, d: Client) {
    && CanAct(c) && d.flight.Some? && d.intent == Some(d.flight.value.intent) && d.review == c.review
    && d.uncertain == c.uncertain && d.reading.None? && d.disposed == c.disposed
    && var call := d.flight.value;
       match call.intent.kind
       case Prepare => call.original.None? && (c.uncertain ==> c.intent == Some(call.intent))
       case Reconcile => call.original == c.intent && About(c.review, call.intent) && UnknownShown(c)
       case _ => !c.uncertain && call.original.None? && Pins(c.review, call.intent.id) && About(c.review, call.intent)
  }

  predicate Reads(c: Client, d: Client) {
    && CanAct(c) && d.review == c.review && d.intent == c.intent && d.uncertain == c.uncertain
    && d.flight.None? && d.reading.Some? && d.disposed == c.disposed
    && (c.uncertain && c.intent.Some? ==> d.reading.value.recovering == c.intent && d.reading.value.id == c.intent.value.id)
  }

  predicate UserStep(c: Client, d: Client) {
    Quiet(c, d) || Clears(c, d) || Dispatches(c, d) || Reads(c, d)
  }

  lemma DispatchingSteps(c: Client, act: Act)
    requires Calls(c) && (act.PrepareReview? || act.Decide? || act.RetryPrepare? || act.StartReconcile?)
    ensures UserStep(c, Acted(c, act))
  {
    var d := Acted(c, act);
    assert d == c || Dispatches(c, d);
  }

  lemma ReadingSteps(c: Client, act: Act)
    requires Calls(c) && (act.Recover? || act.ReadExisting?)
    ensures UserStep(c, Acted(c, act))
  {
    var d := Acted(c, act);
    assert d == c || Reads(c, d);
  }

  lemma Classified(c: Client, act: Act)
    requires Calls(c)
    ensures UserStep(c, Acted(c, act))
  {
    if act.PrepareReview? || act.Decide? || act.RetryPrepare? || act.StartReconcile? {
      DispatchingSteps(c, act);
    } else if act.Recover? || act.ReadExisting? {
      ReadingSteps(c, act);
    } else {
      var d := Acted(c, act);
      assert Clears(c, d) || Quiet(c, d);
    }
  }

  lemma StepKeepsCalls(c: Client, d: Client)
    requires Calls(c) && UserStep(c, d)
    ensures Calls(d)
  {
  }

  lemma MovedKeeps(s: Sys, d: Client)
    requires Inv(s) && UserStep(s.client, d)
    ensures Inv(Moved(s, d))
  {
    StepKeepsCalls(s.client, d);
    var after := Moved(s, d);
    forall id | id in s.approves ensures Consumed(after, id) { assert Consumed(s, id); }
    if Sends(s.client, d) { assert d.flight.value.intent.id in s.approves ==> Consumed(s, d.flight.value.intent.id); }
  }

  // ----- replies -----

  predicate FlightStep(c: Client, d: Client, reply: Option<Review>) {
    && c.flight.Some? && d.flight.None? && d.reading == c.reading && d.disposed == c.disposed
    && (if c.disposed then true
        else
          var taken := Answered(c.review, c.flight.value.intent, reply);
          var restored := UnknownShown(d) && c.flight.value.original.Some?;
          && d.review == (if taken then reply else c.review)
          && d.uncertain == (!taken || restored)
          && d.intent == (if restored then c.flight.value.original else if taken then None else c.intent))
    && (c.disposed ==> d.review == c.review && d.intent == c.intent && d.uncertain == c.uncertain)
  }

  lemma FlightEnds(c: Client, reply: Option<Review>, now: int)
    requires c.flight.Some?
    ensures FlightStep(c, FlightEnded(c, reply, now), reply)
  {
    var call, landed := c.flight.value, c.(flight := None);
    var x := if c.disposed then landed else Examined(landed, call, reply, now);
    assert FlightEnded(c, reply, now) == Restored(MaybeResume(x), call.original);
  }

  predicate ReadStep(c: Client, d: Client, reply: Option<Review>) {
    && c.reading.Some? && d.reading.None? && d.flight == c.flight && d.disposed == c.disposed
    && (if Fits(c, c.reading.value, reply) then
          var r := c.reading.value.recovering;
          var settles := r.Some? && (r.value.kind == Prepare || Terminal(reply.value.status));
          && d.review == reply
          && d.intent == (if settles then None else c.intent) && d.uncertain == (c.uncertain && !settles)
        else d.review == c.review && d.intent == c.intent && d.uncertain == c.uncertain)
  }

  lemma ReadEnds(c: Client, reply: Option<Review>)
    requires c.reading.Some?
    ensures ReadStep(c, ReadEnded(c, reply), reply)
  {
  }

  lemma FlightKeepsCalls(c: Client, d: Client, reply: Option<Review>)
    requires Calls(c) && FlightStep(c, d, reply)
    ensures Calls(d)
  {
  }

  lemma FlightStepKeeps(s: Sys, d: Client, reply: Option<Review>)
    requires Inv(s) && FlightStep(s.client, d, reply) && (reply.None? || reply == s.flightAnswer)
    ensures Inv(s.(client := d, flightAnswer := None))
  {
    FlightKeepsCalls(s.client, d, reply);
    var after := s.(client := d, flightAnswer := None);
    forall id | id in s.approves ensures Consumed(after, id) { assert Consumed(s, id); }
  }

  lemma ReadStepKeeps(s: Sys, d: Client, reply: Option<Review>)
    requires Inv(s) && ReadStep(s.client, d, reply) && (reply.None? || reply == s.readAnswer)
    ensures Inv(s.(client := d, readAnswer := None))
  {
    var after := s.(client := d, readAnswer := None);
    forall id | id in s.approves ensures Consumed(after, id) { assert Consumed(s, id); }
  }

  lemma ServerKeeps(s: Sys, e: Event)
    requires Inv(s) && (e.Store? || e.ServeFlight? || e.ServeRead?)
    ensures Inv(Apply(s, e))
  {
    var after := Apply(s, e);
    forall id | id in s.approves ensures Consumed(after, id) { assert Consumed(s, id); }
  }

  lemma EventKeeps(s: Sys, e: Event)
    requires Inv(s)
    ensures Inv(Apply(s, e))
  {
    match e {
      case User(act) =>
        Classified(s.client, act);
        MovedKeeps(s, Acted(s.client, act));
      case EndFlight(lost, now) =>
        if s.client.flight.Some? {
          var reply := if lost then None else s.flightAnswer;
          FlightEnds(s.client, reply, now);
          FlightStepKeeps(s, FlightEnded(s.client, reply, now), reply);
        }
      case EndRead(lost) =>
        if s.client.reading.Some? {
          var reply := if lost then None else s.readAnswer;
          ReadEnds(s.client, reply);
          ReadStepKeeps(s, ReadEnded(s.client, reply), reply);
        }
      case _ => ServerKeeps(s, e);
    }
  }

  lemma {:induction false} ReachableInv(es: seq<Event>)
    ensures Inv(Exec(es))
  {
    if es != [] {
      ReachableInv(es[..|es| - 1]);
      EventKeeps(Exec(es[..|es| - 1]), es[|es| - 1]);
    }
  }

  // ----- main results -----

  /** Over every sequence of events, at most one approve request is sent per review id. */
  lemma OneApprovePerReview(es: seq<Event>)
    ensures var sent := Exec(es).approves; forall i, j | 0 <= i < j < |sent| :: sent[i] != sent[j]
  {
    ReachableInv(es);
  }

  /** The outcome of a sent decision is unknown: nothing of it is in flight, or only a reconcile is. */
  predicate Lost(c: Client) {
    !c.disposed && c.uncertain && Owed(c).Some? && (c.flight.Some? ==> c.flight.value.intent.kind == Reconcile)
  }

  lemma LostDecisionLocks(s: Sys, act: Act)
    requires Lost(s.client)
    requires act.Decide? || act.PrepareReview? || act.RetryPrepare? || act.SelectSource? || act.Discard? || act.ReadExisting?
    ensures Apply(s, User(act)) == s
  {
    match act {
      case SelectSource(source) => assert SourceSelected(s.client, source) == s.client;
      case _ =>
    }
  }

  /** Terminal evidence, backed by the server, of the review, source and patch of `i`. */
  ghost predicate Proves(s: Sys, proof: Option<Review>, i: Intent) {
    && About(proof, i) && Terminal(proof.value.status)
    && i.id in s.server && s.server[i.id].status != Pending
  }

  lemma FlightProves(s: Sys, d: Client, reply: Option<Review>)
    requires Inv(s) && Lost(s.client) && FlightStep(s.client, d, reply) && (reply.None? || reply == s.flightAnswer)
    ensures (Lost(d) && Owed(d) == Owed(s.client)) || Proves(s, reply, Owed(s.client).value)
  {
  }

  lemma ReadProves(s: Sys, d: Client, reply: Option<Review>)
    requires Inv(s) && Lost(s.client) && ReadStep(s.client, d, reply) && (reply.None? || reply == s.readAnswer)
    ensures (Lost(d) && Owed(d) == Owed(s.client)) || Proves(s, reply, Owed(s.client).value)
  {
  }

  lemma LostDecisionSteps(s: Sys, act: Act)
    requires Lost(s.client) && Calls(s.client) && act != Dispose
    ensures Lost(Acted(s.client, act)) && Owed(Acted(s.client, act)) == Owed(s.client)
  {
    Classified(s.client, act);
  }

  /** A lost decision stays the one decision owed, also across lost and unsettled reconciles, until a
      reply shows a terminal state of the very same review, source and patch. */
  lemma LostDecisionEndsOnlyByProof(es: seq<Event>, e: Event)
    requires Lost(Exec(es).client)
    ensures var s, after := Exec(es), Apply(Exec(es), e);
            var owed := Owed(s.client);
            || (Lost(after.client) && Owed(after.client) == owed)
            || e == User(Dispose)
            || (e.EndFlight? && !e.lost && Proves(s, s.flightAnswer, owed.value))
            || (e == EndRead(false) && Proves(s, s.readAnswer, owed.value))
  {
    ReachableInv(es);
    var s := Exec(es);
    match e {
      case User(act) => if act != Dispose { LostDecisionSteps(s, act); }
      case EndFlight(lost, now) =>
        if s.client.flight.Some? {
          var reply := if lost then None else s.flightAnswer;
          FlightEnds(s.client, reply, now);
          FlightProves(s, FlightEnded(s.client, reply, now), reply);
        }
      case EndRead(lost) =>
        if s.client.reading.Some? {
          var reply := if lost then None else s.readAnswer;
          ReadEnds(s.client, reply);
          ReadProves(s, ReadEnded(s.client, reply), reply);
        }
      case _ =>
    }
  }
}
