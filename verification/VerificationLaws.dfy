/** What each act of the user and each reply does to the verification controller, said field by field:
    what is sent, what is shown, and exactly when. */
module VerificationLaws {
  import opened Basics
  import opened VerificationReview
  import opened VerificationSafety

  // ----- what the evidence is -----

  /** A review that may be shown for `run`. */
  predicate WellFormed(v: Review, run: string) {
    && v.source.run == run && v.created < v.expires && (v.pendingExpired ==> v.status == Pending)
    && (v.status in {Pending, Completed, Rejected, Expired} ==> !v.unknownCommand)
  }

  /** `v` may follow what is shown: the same review keeps its identity, does not become pending again,
      and keeps a final status. */
  predicate Follows(shown: Option<Review>, v: Review) {
    shown.Some? && shown.value.id == v.id ==>
      && v.source == shown.value.source && v.plan == shown.value.plan
      && v.created == shown.value.created && v.expires == shown.value.expires
      && (v.status == Pending ==> shown.value.status == Pending)
      && (shown.value.status in {Completed, Failed, Cancelled, Rejected, Expired} ==> v.status == shown.value.status)
  }

  /** Commands may still be running, or ended without a known result. */
  predicate Doubtful(v: Review) {
    v.status in {Running, Indeterminate} || v.unknownCommand
  }

  predicate Final(v: Review) {
    v.status in {Completed, Failed, Cancelled, Rejected, Expired} && !v.unknownCommand
  }

  predicate Open(v: Review, now: int) {
    v.status == Pending && !v.pendingExpired && now < v.expires
  }

  predicate NothingRuns(c: Client) {
    !c.disposed && c.active && !c.closing && c.flight.None? && c.control.None? && c.reading.None?
  }

  predicate NothingDoubtful(c: Client) {
    !c.uncertain && !c.controlUncertain && (c.review.Some? ==> !Doubtful(c.review.value))
  }

  /** The signature that arms an approval of `v`. */
  predicate Signs(a: Option<Signature>, v: Review) {
    a == Some(Signature(v.source, v.id, v.created, v.expires, v.plan))
  }

  /** Everything but the named parts is as it was. */
  predicate KeepsShown(c: Client, d: Client) {
    d.active == c.active && d.disposed == c.disposed && d.run == c.run && d.source == c.source && d.review == c.review
  }

  // ----- what the user sends -----

  /** A request is on its way: the pinned intent, sent as it is, with the approval disarmed. */
  predicate Leaves(c: Client, d: Client, intent: Intent, first: bool) {
    && d == c.(flight := Some(Call(intent, first)), intent := Some(intent), anchor := None, acknowledged := false, epoch := c.epoch + 1)
  }

  /** A decision that may be sent: the shown review, still open, under the shown plan, confirmed; and
      for an approval also granted and armed for exactly what is shown. */
  predicate Decidable(c: Client, approve: bool, id: Id, planId: string, confirmed: bool, granted: bool, now: int) {
    && NothingRuns(c) && NothingDoubtful(c) && confirmed && c.review.Some?
    && var v := c.review.value;
    && Open(v, now) && v.id == id && v.plan.id == planId && (approve ==> granted && Signs(c.anchor, v))
  }

  /** A decision request leaves exactly for a decidable decision of the user, and says just that: the
      same verdict, on the review and the plan that were shown. */
  lemma DecisionLeavesIff(c: Client, approve: bool, id: Id, planId: string, confirmed: bool, granted: bool, now: int)
    ensures var d := Acted(c, Decide(approve, id, planId, confirmed, granted, now));
            if Decidable(c, approve, id, planId, confirmed, granted, now)
            then Leaves(c, d, DecideIntent(c.review.value.id, c.review.value.source, c.review.value.plan.id, approve), false)
            else d == c
  {
  }

  /** A prepare leaves exactly for a granted one with a chosen source and nothing shown; it is pinned
      under the fresh id. */
  lemma PrepareLeavesIff(c: Client, names: Option<seq<string>>, granted: bool, id: Id)
    ensures var d := Acted(c, Prepare(names, granted, id));
            if NothingRuns(c) && NothingDoubtful(c) && c.review.None? && granted && c.source.Some?
            then Leaves(c, d, PrepareIntent(id, c.source.value, names), true)
            else d == c
  {
  }

  /** A lost prepare is repeated on confirmation only, and unchanged. */
  lemma RetryLeavesIff(c: Client, confirmed: bool)
    ensures var d := Acted(c, RetryPrepare(confirmed));
            if NothingRuns(c) && confirmed && c.uncertain && !c.controlUncertain && c.intent.Some? && c.intent.value.PrepareIntent?
            then Leaves(c, d, c.intent.value, false)
            else d == c
  {
  }

  /** Nothing but deciding sends a decision. */
  lemma OnlyDecidingDecides(c: Client, act: Act)
    requires c.flight.None? && Acted(c, act).flight.Some? && Acted(c, act).flight.value.intent.DecideIntent?
    ensures act.Decide?
  {
    match act {
      case Decide(_, _, _, _, _, _) =>
      case Prepare(names, granted, id) => PrepareLeavesIff(c, names, granted, id);
      case RetryPrepare(confirmed) => RetryLeavesIff(c, confirmed);
      case _ => OthersSendNothing(c, act);
    }
  }

  /** No other act sends a request. */
  lemma OthersSendNothing(c: Client, act: Act)
    requires !act.Decide? && !act.Prepare? && !act.RetryPrepare?
    ensures Acted(c, act).flight == c.flight
  {
    match act {
      case Recover => RecoverReads(c);
      case ReadExisting(id, source, seen) => OtherReads(c, id, source, seen);
      case LoadHistory => OtherReads(c, "", None, None);
      case Steer(kind, confirmed) => SteerLeavesIff(c, kind, confirmed);
      case ClosePrepared => ClosingEnds(c);
      case FinishClose => ClosingEnds(c);
      case AcknowledgeExit(confirmed) => ExitIsAcknowledged(c, confirmed);
      case Arm(confirmed, now) => ArmingSigns(c, confirmed, now);
      case SelectRun(_) => SelectionEmpties(c, act);
      case SelectSource(_) => SelectionEmpties(c, act);
      case Discard(_) => SelectionEmpties(c, act);
      case _ => LeavingFences(c, act);
    }
  }

  /** Arming an approval needs a confirmation and an open review, and signs exactly what is shown. */
  lemma ArmingSigns(c: Client, confirmed: bool, now: int)
    ensures var d := Acted(c, Arm(confirmed, now));
            if NothingRuns(c) && NothingDoubtful(c) && confirmed && c.review.Some? && Open(c.review.value, now)
            then Signs(d.anchor, c.review.value) && d == c.(anchor := d.anchor)
            else d == c
  {
  }

  /** A review may be read: nothing else is read or controlled meanwhile. */
  predicate Readable(c: Client) {
    !c.disposed && c.active && !c.closing && c.reading.None? && c.control.None?
  }

  lemma ReadStartsAs(c: Client, id: Id, source: Option<Source>, planId: Option<string>, recovering: Option<Intent>, seen: Option<Status>)
    ensures ReadStarted(c, id, source, planId, recovering, seen) ==
            if Readable(c)
            then c.(reading := Some(ReadReview(id, source, planId, recovering, seen, c.epoch + 1)), anchor := None, epoch := c.epoch + 1)
            else c
  {
  }

  /** What recovering asks for: the pinned intent's review, with the plan it decided on, or without an
      intent the shown review. */
  function Wanted(c: Client): Option<Read> {
    match c.intent
    case Some(PrepareIntent(id, source, names)) =>
      if c.flight.Some? then None else Some(ReadReview(id, Some(source), None, c.intent, None, c.epoch + 1))
    case Some(DecideIntent(id, source, planId, approve)) => Some(ReadReview(id, Some(source), Some(planId), c.intent, None, c.epoch + 1))
    case None =>
      if c.review.None? then None
      else Some(ReadReview(c.review.value.id, Some(c.review.value.source), Some(c.review.value.plan.id), None, None, c.epoch + 1))
  }

  lemma RecoverReads(c: Client)
    ensures Acted(c, Recover) ==
            if Readable(c) && Wanted(c).Some? then c.(reading := Wanted(c), anchor := None, epoch := c.epoch + 1) else c
  {
    if c.intent.Some? {
      ReadStartsAs(c, c.intent.value.id, Some(c.intent.value.source), PlanOf(c.intent.value), c.intent, None);
    } else if c.review.Some? {
      ReadStartsAs(c, c.review.value.id, Some(c.review.value.source), Some(c.review.value.plan.id), None, None);
    }
  }

  lemma OtherReads(c: Client, id: Id, source: Option<Source>, seen: Option<Status>)
    ensures var free := NothingRuns(c) && NothingDoubtful(c);
            && Acted(c, ReadExisting(id, source, seen)) ==
               (if free then c.(reading := Some(ReadReview(id, source, None, None, seen, c.epoch + 1)), anchor := None, epoch := c.epoch + 1) else c)
            && Acted(c, LoadHistory) ==
               (if free then c.(reading := Some(ReadHistory(c.epoch + 1)), anchor := None, epoch := c.epoch + 1) else c)
  {
  }

  /** A cancel or reconcile leaves for the shown review, at most sixteen times.  A cancel may cross an
      approval in flight, or a closing that is waiting; a reconcile needs a doubtful status and nothing
      else running. */
  predicate Steerable(c: Client, kind: ControlKind) {
    && !c.disposed && c.active && c.control.None? && c.review.Some? && c.controls < 16
    && match kind
       case Cancel =>
         && (!c.closing || c.resume) && !c.controlUncertain
         && (if c.flight.Some? then c.intent.Some? && c.intent.value.DecideIntent? && c.intent.value.approve
             else c.review.value.status in {Pending, Running, Indeterminate})
       case Reconcile => !c.closing && c.flight.None? && c.reading.None? && c.review.value.status in {Running, Indeterminate}
  }

  lemma SteerLeavesIff(c: Client, kind: ControlKind, confirmed: bool)
    ensures var d := Acted(c, Steer(kind, confirmed));
            if confirmed && Steerable(c, kind) then
              && c.review.Some? && var v := c.review.value;
              d == c.(control := Some(Control(kind, v.id, v.source, v.plan.id)), controls := c.controls + 1,
                      acknowledged := false, anchor := None, epoch := c.epoch + 1)
            else d == c
  {
  }

  // ----- choosing what is shown -----

  predicate Emptied(c: Client, d: Client) {
    && d.review.None? && d.intent.None? && d.controls == 0 && !d.uncertain && !d.controlUncertain && d.anchor.None? && !d.acknowledged
    && d.epoch == c.epoch + 1 && d.active == c.active && d.closing == c.closing && d.disposed == c.disposed && d.resume == c.resume
    && d.flight == c.flight && d.control == c.control && d.reading == c.reading
  }

  /** Another run, another source or discarding empties what is shown, and only when nothing runs and
      nothing is doubtful; otherwise the act is ignored. */
  lemma SelectionEmpties(c: Client, act: Act)
    requires act.SelectRun? || act.SelectSource? || act.Discard?
    ensures var d := Acted(c, act);
            var free := !c.disposed && !c.closing && c.flight.None? && c.control.None? && c.reading.None? && NothingDoubtful(c);
            match act
            case SelectRun(run) => if free && run != c.run then Emptied(c, d) && d.run == run && d.source.None? else d == c
            case SelectSource(source) =>
              if free && source.None? then Emptied(c, d) && d.run == c.run && d.source.None?
              else if free && source.value.run == c.run && source != c.source then Emptied(c, d) && d.run == c.run && d.source == source
              else d == c
            case Discard(confirmed) =>
              if free && c.active && confirmed then Emptied(c, d) && d.run == c.run && d.source == c.source else d == c
            case _ => true
  {
  }

  // ----- leaving and closing -----

  /** Leaving, closing and disposing fence every reply of a read and disarm the approval; they change
      nothing of what is known or sent. */
  lemma LeavingFences(c: Client, act: Act)
    requires act.Activate? || act.PrepareClose? || act.Dispose?
    ensures var d := Acted(c, act);
            match act
            case Activate(on) =>
              if c.disposed then d == c else if on then d == c.(active := true)
              else d == c.(active := false, anchor := None, epoch := c.epoch + 1)
            case PrepareClose => d == c.(closing := true, resume := false, anchor := None, epoch := c.epoch + 1)
            case _ => d == c.(disposed := true, active := false, closing := true, anchor := None, epoch := c.epoch + 1)
  {
  }

  /** Acknowledging an unknown exit is possible only while there is one and nothing runs. */
  lemma ExitIsAcknowledged(c: Client, confirmed: bool)
    ensures var d := Acted(c, AcknowledgeExit(confirmed));
            if NothingRuns(c) && confirmed && !NothingDoubtful(c) then d == c.(acknowledged := true, anchor := None) else d == c
  {
  }

  /** Closing succeeds exactly when nothing runs and nothing is doubtful, or the doubt was acknowledged.
      A closing that was asked to resume ends as soon as nothing runs. */
  lemma ClosingEnds(c: Client)
    ensures var idle := c.flight.None? && c.control.None? && c.reading.None?;
            var (d, ready) := CloseWaited(c);
            && (ready <==> idle && (NothingDoubtful(c) || c.acknowledged))
            && d == (if ready && c.resume && !c.disposed then c.(closing := false, resume := false) else c)
            && CloseFinished(c) == (if idle && !c.disposed then c.(closing := false, resume := false) else c.(resume := true))
  {
  }

  // ----- what replies do -----

  /** Ending a request may end a closing that waits to resume; nothing else of the lifecycle moves. */
  predicate Lands(c: Client, d: Client, alone: bool) {
    && d.active == c.active && d.disposed == c.disposed && d.run == c.run && d.source == c.source
    && (if c.resume && !c.disposed && alone then !d.closing && !d.resume else d.closing == c.closing && d.resume == c.resume)
  }

  /** The reply that a sent intent may be answered with. */
  predicate AnswersIntent(c: Client, i: Intent, v: Review) {
    && v.id == i.id && v.source == i.source && WellFormed(v, c.run) && Follows(c.review, v)
    && match i
       case PrepareIntent(_, _, names) => names.Some? ==> v.plan.commands == names.value
       case DecideIntent(_, _, planId, approve) =>
         v.plan.id == planId && if approve then v.status in {Completed, Failed, Cancelled, Indeterminate} else v.status == Rejected
  }

  lemma AnsweredMeans(c: Client, i: Intent, reply: Option<Review>)
    ensures Answered(c.run, c.review, i, reply) <==> reply.Some? && AnswersIntent(c, i, reply.value)
  {
  }

  lemma ExaminedTakes(c: Client, call: Call, v: Review, now: int)
    requires c.flight.None? && !c.disposed && AnswersIntent(c, call.intent, v)
    ensures var arms := call.first && !c.closing && c.active && !c.controlUncertain && Open(v, now);
            Examined(c, call, Some(v), now) ==
            c.(review := Some(v), uncertain := false, acknowledged := false, epoch := c.epoch + 1,
               anchor := if arms then Some(Signature(v.source, v.id, v.created, v.expires, v.plan)) else None,
               intent := if Doubtful(v) then c.intent else None)
  {
    AnsweredMeans(c, call.intent, Some(v));
  }

  lemma UnacknowledgedAs(c: Client)
    ensures Unacknowledged(c) == c.(anchor := None, uncertain := !(c.review.Some? && Final(c.review.value)))
  {
  }

  lemma ExaminedLeaves(c: Client, call: Call, reply: Option<Review>, now: int) returns (epoch: nat)
    requires c.flight.None? && !c.disposed && !(reply.Some? && AnswersIntent(c, call.intent, reply.value))
    ensures Examined(c, call, reply, now) == Unacknowledged(c.(epoch := epoch)) && c.epoch <= epoch <= c.epoch + 1
  {
    AnsweredMeans(c, call.intent, reply);
    epoch := if reply.Some? && Acknowledges(call.intent, reply.value) then c.epoch + 1 else c.epoch;
  }

  /** What ends a request after its reply was examined. */
  lemma FlightLandsAs(x: Client)
    ensures var d := FlightLanded(x);
            && d == x.(intent := d.intent, closing := d.closing, resume := d.resume)
            && d.intent == (if x.review.Some? && Final(x.review.value) && !x.uncertain then None else x.intent)
            && Lands(x, d, x.flight.None? && x.control.None? && x.reading.None?)
  {
  }

  lemma FlightEndsIn(c: Client, reply: Option<Review>, now: int)
    requires c.flight.Some? && !c.disposed
    ensures FlightEnded(c, reply, now) == FlightLanded(Examined(c.(flight := None), c.flight.value, reply, now))
  {
  }

  /** A reply that answers the request is shown, and the outcome is known unless it is doubtful itself;
      a first prepare that comes back open arms the approval of what it shows. */
  lemma AnswerIsTaken(c: Client, v: Review, now: int)
    requires c.flight.Some? && !c.disposed && AnswersIntent(c, c.flight.value.intent, v)
    ensures var d, first := FlightEnded(c, Some(v), now), c.flight.value.first;
            && d == c.(flight := None, review := Some(v), uncertain := false, acknowledged := false, epoch := c.epoch + 1,
                       intent := if Doubtful(v) then c.intent else None, anchor := d.anchor, closing := d.closing, resume := d.resume)
            && (if first && !c.closing && c.active && !c.controlUncertain && Open(v, now) then Signs(d.anchor, v) else d.anchor.None?)
            && Lands(c, d, c.control.None? && c.reading.None?)
  {
    var landed, call := c.(flight := None), c.flight.value;
    FlightEndsIn(c, Some(v), now);
    ExaminedTakes(landed, call, v, now);
    FlightLandsAs(Examined(landed, call, Some(v), now));
  }

  /** Any other reply, or none, leaves what is shown, and the outcome unknown unless that is final. */
  lemma OtherAnswerIsUnknown(c: Client, reply: Option<Review>, now: int)
    requires c.flight.Some? && !c.disposed && !(reply.Some? && AnswersIntent(c, c.flight.value.intent, reply.value))
    ensures var d, final := FlightEnded(c, reply, now), c.review.Some? && Final(c.review.value);
            && d == c.(flight := None, anchor := None, uncertain := !final, intent := if final then None else c.intent,
                       epoch := d.epoch, closing := d.closing, resume := d.resume)
            && c.epoch <= d.epoch <= c.epoch + 1 && Lands(c, d, c.control.None? && c.reading.None?)
  {
    FlightEndsIn(c, reply, now);
    var epoch := ExaminedLeaves(c.(flight := None), c.flight.value, reply, now);
    UnknownLands(c, epoch, Examined(c.(flight := None), c.flight.value, reply, now));
  }

  lemma UnknownLands(c: Client, epoch: nat, x: Client)
    requires x == Unacknowledged(c.(flight := None, epoch := epoch))
    ensures var d, final := FlightLanded(x), c.review.Some? && Final(c.review.value);
            && d == c.(flight := None, anchor := None, uncertain := !final, intent := if final then None else c.intent,
                       epoch := epoch, closing := d.closing, resume := d.resume)
            && Lands(c, d, c.control.None? && c.reading.None?)
  {
    UnacknowledgedAs(c.(flight := None, epoch := epoch));
    FlightLandsAs(x);
  }

  /** After disposal a reply only ends its call. */
  lemma DisposedIgnores(c: Client, reply: Option<Review>)
    requires c.disposed
    ensures c.control.Some? ==> ControlEnded(c, reply) == c.(control := None)
    ensures c.reading.Some? ==> ReadEnded(c, reply) == c.(reading := None)
  {
  }

  lemma DisposedIgnoresAnswer(c: Client, reply: Option<Review>, now: int)
    requires c.disposed && c.flight.Some?
    ensures var d := FlightEnded(c, reply, now); d == c.(flight := None, intent := d.intent)
  {
  }

  /** The reply that a read takes over: current, of the review that was asked for, and not behind what
      was shown or listed of it. */
  predicate AnswersRead(c: Client, r: Read, v: Review) {
    && r.ReadReview? && r.epoch == c.epoch && !c.disposed && !c.closing
    && v.id == r.id && (r.source.Some? ==> v.source == r.source.value) && (r.planId.Some? ==> v.plan.id == r.planId.value)
    && WellFormed(v, c.run) && Follows(c.review, v)
    && (r.recovering.Some? && r.recovering.value.PrepareIntent? && r.recovering.value.names.Some? ==>
          v.plan.commands == r.recovering.value.names.value)
    && (r.seen.Some? ==>
          && (v.status == Pending ==> r.seen.value == Pending)
          && (r.seen.value in {Completed, Failed, Cancelled, Rejected, Expired} ==> v.status == r.seen.value))
  }

  lemma FitsMeans(c: Client, reply: Option<Review>)
    requires c.reading.Some?
    ensures Fits(c, c.reading.value, reply) <==> reply.Some? && AnswersRead(c, c.reading.value, reply.value)
  {
  }

  lemma ReadTakesAs(c: Client, recovering: Option<Intent>, v: Review)
    ensures var found := recovering.Some? && recovering.value.PrepareIntent?;
            ReadTaken(c, recovering, v) ==
            c.(review := Some(v), anchor := None, acknowledged := false, uncertain := c.uncertain && !Final(v) && !found,
               controlUncertain := c.controlUncertain && !Final(v),
               intent := if (Final(v) || found) && c.flight.None? then None else c.intent)
  {
  }

  lemma ResumesAs(x: Client)
    ensures var d := MaybeResume(x);
            && d == x.(closing := d.closing, resume := d.resume) && Lands(x, d, x.flight.None? && x.control.None? && x.reading.None?)
  {
  }

  /** A reply that a read takes over is shown; it settles what was unknown if it is final, or if it finds
      the review of a lost prepare. */
  lemma ReadIsTaken(c: Client, v: Review)
    requires c.reading.Some? && AnswersRead(c, c.reading.value, v)
    ensures var d, r := ReadEnded(c, Some(v)), c.reading.value;
            var found := r.recovering.Some? && r.recovering.value.PrepareIntent?;
            && d == c.(reading := None, review := Some(v), anchor := None, acknowledged := false,
                       uncertain := c.uncertain && !Final(v) && !found, controlUncertain := c.controlUncertain && !Final(v),
                       intent := if (Final(v) || found) && c.flight.None? then None else c.intent, closing := d.closing, resume := d.resume)
            && Lands(c, d, c.flight.None? && c.control.None?)
  {
    FitsMeans(c, Some(v));
    var landed, r := c.(reading := None), c.reading.value;
    ReadTakesAs(landed, r.recovering, v);
    ResumesAs(ReadTaken(landed, r.recovering, v));
  }

  /** Any other reply, or none, only ends the read. */
  lemma OtherReadOnlyEnds(c: Client, reply: Option<Review>)
    requires c.reading.Some? && !(reply.Some? && AnswersRead(c, c.reading.value, reply.value))
    ensures var d := ReadEnded(c, reply);
            d == c.(reading := None, closing := d.closing, resume := d.resume) && Lands(c, d, c.flight.None? && c.control.None?)
  {
    FitsMeans(c, reply);
    ResumesAs(c.(reading := None));
  }

  /** The reply that a cancel or reconcile takes over: the very review it was sent for, past running. */
  predicate AnswersControl(c: Client, k: Control, v: Review) {
    && v.id == k.id && v.source == k.source && v.plan.id == k.planId && v.status != Pending && v.status != Running
    && WellFormed(v, c.run) && Follows(c.review, v)
  }

  lemma SteeredMeans(c: Client, k: Control, reply: Option<Review>)
    ensures Steered(c.run, c.review, k, reply) <==> reply.Some? && AnswersControl(c, k, reply.value)
  {
  }

  lemma ControlTakesAs(c: Client, v: Review)
    ensures ControlTaken(c, v) ==
            c.(review := Some(v), anchor := None, acknowledged := false, uncertain := c.uncertain && !Final(v),
               controlUncertain := Doubtful(v), intent := if Final(v) && c.flight.None? then None else c.intent)
  {
  }

  /** A reply that answers a cancel or reconcile is shown, and settles everything if it is final. */
  lemma ControlIsTaken(c: Client, v: Review)
    requires c.control.Some? && !c.disposed && AnswersControl(c, c.control.value, v)
    ensures var d := ControlEnded(c, Some(v));
            && d == c.(control := None, review := Some(v), anchor := None, acknowledged := false, epoch := c.epoch + 1,
                       uncertain := c.uncertain && !Final(v), controlUncertain := Doubtful(v),
                       intent := if Final(v) && c.flight.None? then None else c.intent, closing := d.closing, resume := d.resume)
            && Lands(c, d, c.flight.None? && c.reading.None?)
  {
    var landed, k := c.(control := None), c.control.value;
    SteeredMeans(landed, k, Some(v));
    var x := ControlTaken(landed.(epoch := c.epoch + 1), v);
    ControlTakesAs(landed.(epoch := c.epoch + 1), v);
    assert ControlExamined(landed, k, Some(v)) == x;
    ResumesAs(x);
  }

  /** Any other reply, or none, leaves what is shown and the control's own outcome unknown. */
  lemma OtherControlIsUnknown(c: Client, reply: Option<Review>)
    requires c.control.Some? && !c.disposed && !(reply.Some? && AnswersControl(c, c.control.value, reply.value))
    ensures var d := ControlEnded(c, reply);
            && d == c.(control := None, controlUncertain := true, epoch := d.epoch, closing := d.closing, resume := d.resume)
            && c.epoch <= d.epoch <= c.epoch + 1 && Lands(c, d, c.flight.None? && c.reading.None?)
  {
    var landed, k := c.(control := None), c.control.value;
    SteeredMeans(landed, k, reply);
    var x := ControlExamined(landed, k, reply);
    assert x == landed.(controlUncertain := true, epoch := x.epoch) && c.epoch <= x.epoch <= c.epoch + 1;
    ResumesAs(x);
  }

  // ----- over every run -----

  /** An armed approval is armed for exactly what is shown. */
  ghost predicate ArmedForShown(c: Client) {
    c.anchor.Some? ==> c.review.Some? && Signs(c.anchor, c.review.value)
  }

  lemma SendWasDecided(c: Client, act: Act)
    requires Sends(c, Acted(c, act))
    ensures act.Decide? && act.approve && Acted(c, act).flight.value.intent.id == act.id
    ensures Decidable(c, true, act.id, act.planId, act.confirmed, act.granted, act.now)
  {
    OnlyDecidingDecides(c, act);
    DecisionLeavesIff(c, act.approve, act.id, act.planId, act.confirmed, act.granted, act.now);
  }

  lemma ApprovesGrow(s: Sys, e: Event)
    ensures var t := Apply(s, e);
            t.approves == s.approves + if e.User? && Sends(s.client, Acted(s.client, e.act)) then [Acted(s.client, e.act).flight.value.intent.id] else []
  {
  }

  /** Every approve request in the network was decided by the user: at that moment the review was shown,
      open, under the given plan, armed, confirmed and granted. */
  lemma {:induction false} ApprovesWereDecided(es: seq<Event>, k: nat) returns (j: nat)
    requires k < |Exec(es).approves|
    ensures j < |es| && es[j].User? && es[j].act.Decide? && es[j].act.approve && es[j].act.id == Exec(es).approves[k]
    ensures var act, c := es[j].act, Exec(es[..j]).client; Decidable(c, true, act.id, act.planId, act.confirmed, act.granted, act.now)
  {
    if es == [] {
      assert false;
    } else {
      var init, e := es[..|es| - 1], es[|es| - 1];
      var s := Exec(init);
      ApprovesGrow(s, e);
      if k < |s.approves| {
        j := ApprovesWereDecided(init, k);
        assert init[..j] == es[..j] && init[j] == es[j];
      } else {
        j := |es| - 1;
        SendWasDecided(s.client, e.act);
      }
    }
  }
}
