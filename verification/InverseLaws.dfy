/** What each act of the user and each reply does to the inverse review controller, said field by
    field: what is sent, what is shown, and exactly when. */
module InverseLaws {
  import opened Basics
  import opened InverseReview
  import opened InverseSafety

  /** `v` may follow what is shown: the same review keeps its identity, does not become pending again,
      and keeps a final status. */
  predicate Follows(shown: Option<Review>, v: Review) {
    shown.Some? && shown.value.id == v.id ==>
      && v.source == shown.value.source && v.patch == shown.value.patch && v.diff == shown.value.diff
      && v.created == shown.value.created && v.expires == shown.value.expires
      && (v.status == Pending ==> shown.value.status == Pending)
      && (shown.value.status in {Applied, Failed, Rejected, Expired} ==> v.status == shown.value.status)
  }

  predicate Open(v: Review, now: int) {
    v.status == Pending && !v.pendingExpired && now < v.expires
  }

  /** The patch may still be applied, or was with no known result. */
  predicate Doubtful(c: Client) {
    c.review.Some? && c.review.value.status in {Applying, Indeterminate}
  }

  predicate NothingRuns(c: Client) {
    !c.disposed && c.active && !c.closing && c.flight.None? && c.reading.None?
  }

  predicate Signs(a: Option<Signature>, v: Review) {
    a == Some(Signature(v.source, v.id, v.patch, v.created, v.expires, v.diff))
  }

  // ----- what the user sends -----

  /** A decision that may be sent: the shown review, still open, with the shown patch, confirmed; and
      for an approval also granted and armed for exactly what is shown. */
  predicate Decidable(c: Client, approve: bool, id: Id, patch: string, confirmed: bool, granted: bool, now: int) {
    && NothingRuns(c) && !c.uncertain && confirmed && c.review.Some?
    && var v := c.review.value;
    && Open(v, now) && v.id == id && v.patch == patch && (approve ==> granted && Signs(c.anchor, v))
  }

  /** A decision request leaves exactly for a decidable decision of the user, and says just that: the
      same verdict, on the review and the patch that were shown. */
  lemma DecisionLeavesIff(c: Client, approve: bool, id: Id, patch: string, confirmed: bool, granted: bool, now: int)
    ensures var d := Acted(c, Decide(approve, id, patch, confirmed, granted, now));
            if Decidable(c, approve, id, patch, confirmed, granted, now) then
              var v := c.review.value;
              var i := Intent(if approve then Kind.Approve else Kind.Reject, v.source, v.id, Some(v.patch));
              d == c.(flight := Some(Call(i, false, None)), intent := Some(i), anchor := None, acknowledged := false)
            else d == c
  {
  }

  /** A prepare leaves exactly for a granted one with a chosen source and nothing shown, under the
      fresh id. */
  lemma PrepareLeavesIff(c: Client, granted: bool, id: Id)
    ensures var d := Acted(c, PrepareReview(granted, id));
            if NothingRuns(c) && !c.uncertain && c.review.None? && granted && c.source.Some? then
              var i := Intent(Kind.Prepare, c.source.value, id, None);
              d == c.(flight := Some(Call(i, true, None)), intent := Some(i), anchor := None, acknowledged := false)
            else d == c
  {
  }

  /** A lost prepare is repeated on confirmation only, and unchanged. */
  lemma RetryLeavesIff(c: Client, confirmed: bool)
    ensures var d := Acted(c, RetryPrepare(confirmed));
            if NothingRuns(c) && confirmed && c.uncertain && c.intent.Some? && c.intent.value.kind == Kind.Prepare
            then d == c.(flight := Some(Call(c.intent.value, false, None)), acknowledged := false)
            else d == c
  {
  }

  /** A reconcile leaves for the shown doubtful review, and remembers the intent it found. */
  lemma ReconcileLeavesIff(c: Client, confirmed: bool)
    ensures var d := Acted(c, StartReconcile(confirmed));
            if NothingRuns(c) && confirmed && Doubtful(c) then
              var v := c.review.value;
              var i := Intent(Kind.Reconcile, v.source, v.id, Some(v.patch));
              d == c.(flight := Some(Call(i, false, c.intent)), intent := Some(i), acknowledged := false)
            else d == c
  {
  }

  /** Arming an approval needs a confirmation and an open review, and signs exactly what is shown. */
  lemma ArmingSigns(c: Client, confirmed: bool, now: int)
    ensures var d := Acted(c, Arm(confirmed, now));
            if NothingRuns(c) && !c.uncertain && confirmed && c.review.Some? && Open(c.review.value, now)
            then Signs(d.anchor, c.review.value) && d == c.(anchor := d.anchor)
            else d == c
  {
  }

  /** Recovering asks for the pinned intent's review, or without one for the shown one; another review
      is read only with nothing pinned, shown doubtful, or under way. */
  lemma ReadsAskFor(c: Client, id: Id)
    ensures var fenced := c.(anchor := None, epoch := c.epoch + 1);
            && Acted(c, Recover) ==
               (if NothingRuns(c) && c.intent.Some? then
                  var i := c.intent.value; fenced.(reading := Some(Read(i.id, i.source, i.patch, Some(i), c.epoch + 1)))
                else if NothingRuns(c) && c.review.Some? then
                  var v := c.review.value; fenced.(reading := Some(Read(v.id, v.source, Some(v.patch), None, c.epoch + 1)))
                else c)
            && Acted(c, ReadExisting(id)) ==
               (if NothingRuns(c) && !c.uncertain && !Doubtful(c) && c.intent.None? && c.source.Some?
                then fenced.(reading := Some(Read(id, c.source.value, None, None, c.epoch + 1)))
                else c)
  {
  }

  lemma OthersSendNothing(c: Client, act: Act)
    requires !act.Decide? && !act.PrepareReview? && !act.RetryPrepare? && !act.StartReconcile?
    ensures Acted(c, act).flight == c.flight
  {
  }

  // ----- choosing, leaving and closing -----

  /** Another source or discarding empties what is shown, and only when nothing runs and nothing is
      doubtful; otherwise the act is ignored. */
  lemma SelectionEmpties(c: Client, source: Option<Source>, confirmed: bool)
    ensures var free := !c.disposed && !c.closing && c.flight.None? && c.reading.None? && !c.uncertain && !Doubtful(c);
            var empty := c.(review := None, intent := None, anchor := None, acknowledged := false);
            && Acted(c, SelectSource(source)) ==
               (if free && (source.None? || source != c.source) then empty.(source := source, epoch := c.epoch + 1) else c)
            && Acted(c, Discard(confirmed)) == (if free && c.active && confirmed then empty else c)
  {
  }

  lemma LeavingFences(c: Client, on: bool, confirmed: bool)
    ensures Acted(c, Activate(on)) ==
            (if c.disposed then c else if on then c.(active := true) else c.(active := false, anchor := None, epoch := c.epoch + 1))
    ensures Acted(c, PrepareClose) == c.(closing := true, resume := false, anchor := None, epoch := c.epoch + 1)
    ensures Acted(c, Dispose) == c.(disposed := true, active := false, closing := true, anchor := None, epoch := c.epoch + 1)
    ensures Acted(c, AcknowledgeExit(confirmed)) ==
            (if NothingRuns(c) && confirmed && (c.uncertain || Doubtful(c)) then c.(acknowledged := true, anchor := None) else c)
  {
  }

  /** Closing succeeds exactly when nothing runs and nothing is doubtful, or the doubt was acknowledged.
      A closing that was asked to resume ends as soon as nothing runs. */
  lemma ClosingEnds(c: Client)
    ensures var idle := c.flight.None? && c.reading.None?;
            var (d, ready) := CloseWaited(c);
            && (ready <==> idle && ((!c.uncertain && !Doubtful(c)) || c.acknowledged))
            && d == (if ready && c.resume && !c.disposed then c.(closing := false, resume := false) else c)
            && CloseFinished(c) == (if idle && !c.disposed then c.(closing := false, resume := false) else c.(resume := true))
  {
  }

  // ----- what replies do -----

  /** Ending a request may end a closing that waits to resume; nothing else of the lifecycle moves. */
  predicate Lands(c: Client, d: Client) {
    if c.resume && !c.disposed then !d.closing && !d.resume else d.closing == c.closing && d.resume == c.resume
  }

  /** The reply that a sent intent may be answered with. */
  predicate AnswersIntent(c: Client, i: Intent, v: Review) {
    && v.id == i.id && v.source == i.source && (i.patch.Some? ==> v.patch == i.patch.value) && v.created < v.expires
    && Follows(c.review, v)
    && match i.kind
       case Prepare => true
       case Reconcile => true
       case Approve => v.status in {Applied, Failed, Indeterminate}
       case Reject => v.status == Rejected
  }

  /** A reply that answers the request is shown and its outcome is known; a first prepare that comes
      back open arms the approval of what it shows; a reconcile that still shows a doubtful review gives
      the intent it found back, unknown as before. */
  lemma AnswerIsTaken(c: Client, v: Review, now: int)
    requires c.flight.Some? && c.reading.None? && !c.disposed && AnswersIntent(c, c.flight.value.intent, v)
    ensures var d, call := FlightEnded(c, Some(v), now), c.flight.value;
            var restored := v.status in {Applying, Indeterminate} && call.original.Some?;
            && d == c.(flight := None, review := Some(v), uncertain := restored, intent := if restored then call.original else None,
                       anchor := d.anchor, closing := d.closing, resume := d.resume)
            && (if call.first && !c.closing && c.active && Open(v, now) then Signs(d.anchor, v) else d.anchor.None?)
            && Lands(c, d)
  {
  }

  /** Any other reply, or none, leaves what is shown, and the outcome unknown. */
  lemma OtherAnswerIsUnknown(c: Client, reply: Option<Review>, now: int)
    requires c.flight.Some? && c.reading.None? && !c.disposed
    requires !(reply.Some? && AnswersIntent(c, c.flight.value.intent, reply.value))
    ensures var d, original := FlightEnded(c, reply, now), c.flight.value.original;
            && d == c.(flight := None, uncertain := true, anchor := None,
                       intent := if Doubtful(c) && original.Some? then original else c.intent, closing := d.closing, resume := d.resume)
            && Lands(c, d)
  {
  }

  /** The reply that a read takes over: current, of the review that was asked for, and not behind it. */
  predicate AnswersRead(c: Client, r: Read, v: Review) {
    && r.epoch == c.epoch && !c.disposed && !c.closing
    && v.id == r.id && v.source == r.source && (r.patch.Some? ==> v.patch == r.patch.value) && v.created < v.expires
    && Follows(c.review, v)
  }

  /** The reply to a read: taken over, it is shown; it settles a recovered intent if that was a prepare,
      or if it is final.  Anything else only ends the read. */
  lemma ReadEndsAs(c: Client, reply: Option<Review>)
    requires c.reading.Some? && c.flight.None?
    ensures var d, r := ReadEnded(c, reply), c.reading.value;
            && Lands(c, d)
            && d == if reply.Some? && AnswersRead(c, r, reply.value) then
                      var settles := r.recovering.Some? && (r.recovering.value.kind == Kind.Prepare
                                                            || reply.value.status in {Applied, Failed, Rejected, Expired});
                      c.(reading := None, review := reply, anchor := None, acknowledged := false,
                         intent := if settles then None else c.intent, uncertain := c.uncertain && !settles,
                         closing := d.closing, resume := d.resume)
                    else c.(reading := None, closing := d.closing, resume := d.resume)
  {
  }

  /** After disposal a reply only ends its call. */
  lemma DisposedIgnores(c: Client, reply: Option<Review>, now: int)
    requires c.disposed
    ensures c.flight.Some? ==> FlightEnded(c, reply, now) == c.(flight := None)
    ensures c.reading.Some? ==> ReadEnded(c, reply) == c.(reading := None)
  {
  }

  // ----- over every run -----

  lemma SendWasDecided(c: Client, act: Act)
    requires Sends(c, Acted(c, act))
    ensures act.Decide? && act.approve && Acted(c, act).flight.value.intent.id == act.id
    ensures Decidable(c, true, act.id, act.patch, act.confirmed, act.granted, act.now)
  {
    match act {
      case Decide(approve, id, patch, confirmed, granted, now) => DecisionLeavesIff(c, approve, id, patch, confirmed, granted, now);
      case PrepareReview(granted, id) => PrepareLeavesIff(c, granted, id);
      case RetryPrepare(confirmed) => RetryLeavesIff(c, confirmed);
      case StartReconcile(confirmed) => ReconcileLeavesIff(c, confirmed);
      case _ => OthersSendNothing(c, act);
    }
  }

  lemma ApprovesGrow(s: Sys, e: Event)
    ensures var t := Apply(s, e);
            t.approves == s.approves + if e.User? && Sends(s.client, Acted(s.client, e.act)) then [Acted(s.client, e.act).flight.value.intent.id] else []
  {
  }

  /** Every approve request in the network was decided by the user: at that moment the review was shown,
      open, with the given patch, armed, confirmed and granted. */
  lemma {:induction false} ApprovesWereDecided(es: seq<Event>, k: nat) returns (j: nat)
    requires k < |Exec(es).approves|
    ensures j < |es| && es[j].User? && es[j].act.Decide? && es[j].act.approve && es[j].act.id == Exec(es).approves[k]
    ensures var act, c := es[j].act, Exec(es[..j]).client; Decidable(c, true, act.id, act.patch, act.confirmed, act.granted, act.now)
  {
    if es == [] {
      assert false;
    } else {
      var init, e := es[..|es| - 1], es[|es| - 1];
      var s := Exec(init);
      ApprovesGrow(s, e);
      if k < |s.approves| {
        j := ApprovesWereDecided(init, k);
        assert init[..j] == es[..j] && init[j] == es[j];
      } else {
        j := |es| - 1;
        SendWasDecided(s.client, e.act);
      }
    }
  }
}
