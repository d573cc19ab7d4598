/** The verification review controller (frontend/src/verificationReview.ts): prepare, approve or
    reject, read, cancel and reconcile over a network that loses and delays replies.

    Each function is the code between two awaits; `VerificationReviewController` is the object that
    runs it.  A reading call is fenced when the epoch it captured is no longer current. */
module VerificationReview {
  import opened Basics

  type Id = string

  datatype Status = Pending | Running | Completed | Failed | Cancelled | Rejected | Expired | Indeterminate
  datatype Source = Source(run: string, call: string, patch: string)
  datatype Plan = Plan(id: string, commands: seq<string>)
  datatype Review = Review(id: Id, source: Source, plan: Plan, created: int, expires: int, status: Status,
                           unknownCommand: bool, pendingExpired: bool)

  /** What never changes during a review's life. */
  datatype Signature = Signature(source: Source, id: Id, created: int, expires: int, plan: Plan)

  datatype Intent =
    | PrepareIntent(id: Id, source: Source, names: Option<seq<string>>)
    | DecideIntent(id: Id, source: Source, planId: string, approve: bool)

  datatype Call = Call(intent: Intent, first: bool)
  datatype ControlKind = Cancel | Reconcile
  datatype Control = Control(kind: ControlKind, id: Id, source: Source, planId: string)
  datatype Read =
    | ReadReview(id: Id, source: Option<Source>, planId: Option<string>, recovering: Option<Intent>, seen: Option<Status>, epoch: nat)
    | ReadHistory(epoch: nat)

  datatype Client = Client(
    active: bool, closing: bool, disposed: bool, resume: bool, run: string, source: Option<Source>,
    review: Option<Review>, intent: Option<Intent>, controls: nat, uncertain: bool, controlUncertain: bool,
    anchor: Option<Signature>, acknowledged: bool, epoch: nat,
    flight: Option<Call>, control: Option<Control>, reading: Option<Read>)

  const NEW := Client(false, false, false, false, "", None, None, None, 0, false, false, None, false, 0, None, None, None)

  // ----- evidence -----

  predicate Terminal(s: Status) {
    s == Completed || s == Failed || s == Cancelled || s == Rejected || s == Expired
  }

  predicate Unknown(v: Review) {
    v.status == Running || v.status == Indeterminate || v.unknownCommand
  }

  function SignatureOf(v: Review): Signature {
    Signature(v.source, v.id, v.created, v.expires, v.plan)
  }

  predicate Valid(v: Review, run: string, id: Id, source: Option<Source>, planId: Option<string>) {
    && v.id == id && v.source.run == run && v.created < v.expires && (v.pendingExpired ==> v.status == Pending)
    && (source.Some? ==> v.source == source.value)
    && (planId.Some? ==> v.plan.id == planId.value)
    && (v.status == Pending || v.status == Completed || v.status == Rejected || v.status == Expired ==> !v.unknownCommand)
  }

  predicate IsPending(v: Review, now: int) {
    v.status == Pending && !v.pendingExpired && v.expires > now
  }

  predicate KnownTerminal(c: Client) {
    c.review.Some? && Terminal(c.review.value.status) && !Unknown(c.review.value)
  }

  // ----- guards -----

  predicate OutcomeUnknown(c: Client) {
    c.uncertain || c.controlUncertain || (c.review.Some? && Unknown(c.review.value))
  }

  predicate SelectionLocked(c: Client) {
    c.flight.Some? || c.control.Some? || c.reading.Some? || c.closing || OutcomeUnknown(c)
  }

  predicate CanRead(c: Client) {
    !c.disposed && c.active && !c.closing && c.reading.None? && c.control.None?
  }

  predicate CanAct(c: Client) {
    CanRead(c) && c.flight.None?
  }

  predicate Approving(i: Option<Intent>) {
    i.Some? && i.value.DecideIntent? && i.value.approve
  }

  predicate CanCancel(c: Client) {
    && !c.disposed && c.active && (!c.closing || c.resume) && c.control.None? && !c.controlUncertain
    && c.controls < 16 && c.review.Some?
    && ((Approving(c.intent) && c.flight.Some?)
        || (c.flight.None? && c.review.value.status in {Pending, Running, Indeterminate}))
  }

  predicate CanReconcile(c: Client) {
    CanAct(c) && c.review.Some? && c.review.value.status in {Running, Indeterminate} && c.controls < 16
  }

  predicate CanRecover(c: Client) {
    && CanRead(c) && (c.review.Some? || c.intent.Some?)
    && (c.flight.None? || c.intent.None? || !c.intent.value.PrepareIntent?)
  }

  // ----- steps -----

  function Fenced(c: Client): Client {
    c.(epoch := c.epoch + 1)
  }

  function Disarmed(c: Client): Client {
    c.(anchor := None)
  }

  function MaybeResume(c: Client): Client {
    var now := c.resume && !c.disposed && Landed(c);
    c.(closing := c.closing && !now, resume := c.resume && !now)
  }

  function Cleared(c: Client): Client {
    Disarmed(Fenced(c)).(review := None, intent := None, controls := 0, uncertain := false, controlUncertain := false, acknowledged := false)
  }

  function Activated(c: Client, active: bool): Client {
    if c.disposed then c else if active then c.(active := true) else Disarmed(Fenced(c)).(active := false)
  }

  function RunSelected(c: Client, run: string): Client {
    if c.disposed || SelectionLocked(c) || run == c.run then c else Cleared(c).(run := run, source := None)
  }

  function SourceSelected(c: Client, source: Option<Source>): Client {
    if c.disposed || SelectionLocked(c) || (source.Some? && source.value.run != c.run) then c
    else if source.Some? && source == c.source then c
    else Cleared(c).(source := source)
  }

  function Discarded(c: Client, confirmed: bool): Client {
    if CanAct(c) && !SelectionLocked(c) && confirmed then Cleared(c) else c
  }

  /** Take over a reply, unless it contradicts what is already known of the same review. */
  predicate Contradicts(previous: Option<Review>, reply: Review) {
    previous.Some? && previous.value.id == reply.id &&
    (|| SignatureOf(previous.value) != SignatureOf(reply)
     || (previous.value.status != Pending && reply.status == Pending)
     || (Terminal(previous.value.status) && previous.value.status != reply.status))
  }

  predicate Acceptable(run: string, previous: Option<Review>, reply: Review, id: Id, source: Option<Source>, planId: Option<string>) {
    Valid(reply, run, id, source, planId) && !Contradicts(previous, reply)
  }

  function Accepted(c: Client, reply: Review): Client {
    c.(review := Some(reply), acknowledged := false, anchor := None)
  }

  function Settled(c: Client): Client {
    var known := KnownTerminal(c);
    c.(uncertain := c.uncertain && !known, controlUncertain := c.controlUncertain && !known,
       intent := if known && c.flight.None? then None else c.intent)
  }

  function Dispatched(c: Client, intent: Intent, first: bool): Client {
    Disarmed(Fenced(c)).(intent := Some(intent), acknowledged := false, flight := Some(Call(intent, first)))
  }

  function Prepared(c: Client, names: Option<seq<string>>, granted: bool, freshId: Id): Client {
    if !CanAct(c) || OutcomeUnknown(c) || c.review.Some? || !granted || c.source.None? then c
    else Dispatched(c, PrepareIntent(freshId, c.source.value, names), true)
  }

  function Armed(c: Client, confirmed: bool, now: int): Client {
    if CanAct(c) && confirmed && !OutcomeUnknown(c) && c.review.Some? && IsPending(c.review.value, now) then
      c.(anchor := Some(SignatureOf(c.review.value)))
    else c
  }

  function Decided(c: Client, approve: bool, id: Id, planId: string, confirmed: bool, granted: bool, now: int): Client {
    if || !CanAct(c) || OutcomeUnknown(c) || !confirmed || c.review.None? || !IsPending(c.review.value, now)
       || c.review.value.id != id || c.review.value.plan.id != planId
       || (approve && (c.anchor != Some(SignatureOf(c.review.value)) || !granted))
    then c
    else Dispatched(c, DecideIntent(id, c.review.value.source, planId, approve), false)
  }

  predicate PreparedNames(i: Intent, reply: Review) {
    i.PrepareIntent? && i.names.Some? ==> reply.plan.commands == i.names.value
  }

  /** The acknowledgement a dispatched intent may be answered with. */
  predicate Acknowledges(i: Intent, reply: Review) {
    && PreparedNames(i, reply)
    && (i.DecideIntent? && i.approve ==> reply.status in {Completed, Failed, Cancelled, Indeterminate})
    && (i.DecideIntent? && !i.approve ==> reply.status == Rejected)
  }

  function PlanOf(i: Intent): Option<string> {
    if i.DecideIntent? then Some(i.planId) else None
  }

  function FlightLanded(c: Client): Client {
    MaybeResume(c.(intent := if KnownTerminal(c) && !c.uncertain then None else c.intent))
  }

  /** A valid acknowledgement was taken over: the certain part of dispatch. */
  function Acknowledged(c: Client, first: bool, reply: Review, now: int): Client {
    var arms := first && !c.closing && c.active && !c.controlUncertain && !(c.review.Some? && Unknown(c.review.value)) && IsPending(reply, now);
    c.(uncertain := false, anchor := if arms then Some(SignatureOf(reply)) else c.anchor,
       intent := if Unknown(reply) then c.intent else None)
  }

  function Unacknowledged(c: Client): Client {
    Disarmed(c).(uncertain := !KnownTerminal(c))
  }

  /** Whether a dispatch reply is taken over. */
  predicate Answered(run: string, previous: Option<Review>, i: Intent, reply: Option<Review>) {
    && reply.Some? && Acknowledges(i, reply.value)
    && Acceptable(run, previous, reply.value, i.id, Some(i.source), PlanOf(i))
  }

  /** The try and catch of dispatch; `None` is a lost or refused request. */
  function Examined(c: Client, call: Call, reply: Option<Review>, now: int): Client {
    var fences := reply.Some? && Acknowledges(call.intent, reply.value);
    var d := if fences then Fenced(c) else c;
    if Answered(c.run, c.review, call.intent, reply) then Acknowledged(Accepted(d, reply.value), call.first, reply.value, now)
    else Unacknowledged(d)
  }

  function FlightEnded(c: Client, reply: Option<Review>, now: int): Client {
    if c.flight.None? then c
    else
      var landed := c.(flight := None);
      FlightLanded(if c.disposed then landed else Examined(landed, c.flight.value, reply, now))
  }

  function RetriedPrepare(c: Client, confirmed: bool): Client {
    if !CanAct(c) || !confirmed || !c.uncertain || c.controlUncertain || c.intent.None? || !c.intent.value.PrepareIntent? then c
    else Dispatched(c, c.intent.value, false)
  }

  function ReadStarted(c: Client, id: Id, source: Option<Source>, planId: Option<string>, recovering: Option<Intent>, seen: Option<Status>): Client {
    if !CanRead(c) then c
    else Disarmed(Fenced(c)).(reading := Some(ReadReview(id, source, planId, recovering, seen, c.epoch + 1)))
  }

  function Recovered(c: Client): Client {
    if !CanRecover(c) then c
    else if c.intent.Some? then ReadStarted(c, c.intent.value.id, Some(c.intent.value.source), PlanOf(c.intent.value), c.intent, None)
    else
      var v := c.review.value;
      ReadStarted(c, v.id, Some(v.source), Some(v.plan.id), None, None)
  }

  /** readExisting and readHistory; the history supplies what was `seen` of the review. */
  function ExistingRead(c: Client, id: Id, source: Option<Source>, seen: Option<Status>): Client {
    if !CanAct(c) || SelectionLocked(c) then c else ReadStarted(c, id, source, None, None, seen)
  }

  function HistoryStarted(c: Client): Client {
    if !CanAct(c) || SelectionLocked(c) then c else Disarmed(Fenced(c)).(reading := Some(ReadHistory(c.epoch + 1)))
  }

  predicate ContradictsSeen(seen: Option<Status>, reply: Status) {
    seen.Some? && ((seen.value != Pending && reply == Pending) || (Terminal(seen.value) && reply != seen.value))
  }

  /** Whether a read's reply may be taken over when it arrives. */
  predicate Fits(c: Client, call: Read, reply: Option<Review>) {
    && call.epoch == c.epoch && !c.disposed && !c.closing && reply.Some? && call.ReadReview?
    && (call.recovering.Some? ==> PreparedNames(call.recovering.value, reply.value))
    && !ContradictsSeen(call.seen, reply.value.status)
    && Acceptable(c.run, c.review, reply.value, call.id, call.source, call.planId)
  }

  function ReadNoted(c: Client, recovering: Option<Intent>, reply: Review): Client {
    var prepared := recovering.Some? && recovering.value.PrepareIntent?;
    Accepted(c, reply).(uncertain := c.uncertain && !prepared,
                        intent := if prepared && c.flight.None? then None else c.intent)
  }

  function ReadTaken(c: Client, recovering: Option<Intent>, reply: Review): Client {
    Settled(ReadNoted(c, recovering, reply))
  }

  function ReadEnded(c: Client, reply: Option<Review>): Client {
    if c.reading.None? then c
    else
      var call, landed := c.reading.value, c.(reading := None);
      MaybeResume(if Fits(c, call, reply) then ReadTaken(landed, call.recovering, reply.value) else landed)
  }

  function ControlStarted(c: Client, kind: ControlKind, confirmed: bool): Client {
    if !confirmed || (kind.Cancel? && !CanCancel(c)) || (kind.Reconcile? && !CanReconcile(c)) then c
    else
      var v := c.review.value;
      Disarmed(Fenced(c)).(control := Some(Control(kind, v.id, v.source, v.plan.id)), controls := c.controls + 1, acknowledged := false)
  }

  /** Whether a control reply is taken over: a settled state of the same review. */
  predicate Steered(run: string, previous: Option<Review>, k: Control, reply: Option<Review>) {
    && reply.Some? && reply.value.status != Pending && reply.value.status != Running
    && Acceptable(run, previous, reply.value, k.id, Some(k.source), Some(k.planId))
  }

  function ControlTaken(c: Client, reply: Review): Client {
    Settled(Accepted(c, reply).(controlUncertain := Unknown(reply)))
  }

  function ControlExamined(c: Client, k: Control, reply: Option<Review>): Client {
    var fences := reply.Some? && reply.value.status != Pending && reply.value.status != Running;
    var d := if fences then Fenced(c) else c;
    if Steered(c.run, c.review, k, reply) then ControlTaken(d, reply.value) else d.(controlUncertain := true)
  }

  function ControlEnded(c: Client, reply: Option<Review>): Client {
    if c.control.None? then c
    else
      var landed := c.(control := None);
      if c.disposed then landed else MaybeResume(ControlExamined(landed, c.control.value, reply))
  }

  function ExitAcknowledged(c: Client, confirmed: bool): Client {
    if CanAct(c) && confirmed && OutcomeUnknown(c) then c.(acknowledged := true, anchor := None) else c
  }

  function CloseStarted(c: Client): Client {
    Disarmed(Fenced(c)).(closing := true, resume := false)
  }

  predicate Landed(c: Client) {
    c.flight.None? && c.control.None? && c.reading.None?
  }

  /** The end of prepareClose: it fails while an outcome is unknown and not acknowledged. */
  function CloseWaited(c: Client): (Client, bool) {
    if !Landed(c) || (OutcomeUnknown(c) && !c.acknowledged) then (c, false) else (MaybeResume(c), true)
  }

  function CloseFinished(c: Client): Client {
    MaybeResume(c.(resume := true))
  }

  function Disposed(c: Client): Client {
    Disarmed(Fenced(c)).(disposed := true, active := false, closing := true)
  }

  // ----- the controller -----

  /** The reactive state the panels show. */
  datatype Shown = Shown(
    active: bool, closing: bool, run: string, source: Option<Source>, review: Option<Review>, intent: Option<Intent>,
    controls: nat, uncertain: bool, controlUncertain: bool, acknowledged: bool)

  class VerificationReviewController {
    var state: Shown
    var disposed: bool
    var resume: bool
    var anchor: Option<Signature>
    var epoch: nat
    var flight: Option<Call>
    var control: Option<Control>
    var reading: Option<Read>

    function View(): Client
      reads this
    {
      Client(state.active, state.closing, disposed, resume, state.run, state.source, state.review, state.intent,
             state.controls, state.uncertain, state.controlUncertain, anchor, state.acknowledged, epoch,
             flight, control, reading)
    }

    constructor ()
      ensures View() == NEW
    {
      state := Shown(false, false, "", None, None, None, 0, false, false, false);
      disposed, resume, anchor, epoch := false, false, None, 0;
      flight, control, reading := None, None, None;
    }

    method TryResume()
      modifies this
      ensures View() == MaybeResume(old(View()))
    {
      if resume && !disposed && flight.None? && control.None? && reading.None? {
        resume := false;
        state := state.(closing := false);
      }
    }

    method ClearSelection()
      modifies this
      ensures View() == Cleared(old(View()))
    {
      epoch, anchor := epoch + 1, None;
      state := state.(review := None, intent := None, controls := 0);
      state := state.(uncertain := false, controlUncertain := false, acknowledged := false);
    }

    method Activate(on: bool)
      modifies this
      ensures View() == Activated(old(View()), on)
    {
      if disposed {
        return;
      }
      state := state.(active := on);
      if !on {
        anchor, epoch := None, epoch + 1;
      }
    }

    method SelectRun(newRun: string) returns (selected: bool)
      modifies this
      ensures View() == RunSelected(old(View()), newRun)
      ensures selected <==> !old(disposed) && !old(SelectionLocked(View()))
    {
      if disposed || SelectionLocked(View()) {
        return false;
      }
      if newRun != state.run {
        ClearSelection();
        state := state.(run := newRun, source := None);
      }
      selected := true;
    }

    method SelectSource(chosen: Option<Source>) returns (selected: bool)
      modifies this
      ensures View() == SourceSelected(old(View()), chosen)
    {
      if disposed || SelectionLocked(View()) || (chosen.Some? && chosen.value.run != state.run) {
        return false;
      }
      if chosen.None? || chosen != state.source {
        ClearSelection();
        state := state.(source := chosen);
      }
      selected := true;
    }

    method DiscardPreview(confirmed: bool)
      modifies this
      ensures View() == Discarded(old(View()), confirmed)
    {
      if CanAct(View()) && !SelectionLocked(View()) && confirmed {
        ClearSelection();
      }
    }

    method Accept(reply: Review, wanted: Option<Source>, id: Id, planId: Option<string>) returns (ok: bool)
      modifies this
      ensures ok <==> Acceptable(old(state.run), old(state.review), reply, id, wanted, planId)
      ensures View() == if ok then Accepted(old(View()), reply) else old(View())
    {
      ok := Acceptable(state.run, state.review, reply, id, wanted, planId);
      if ok {
        anchor := None;
        state := state.(review := Some(reply), acknowledged := false);
      }
    }

    method SettleProof()
      modifies this
      ensures View() == Settled(old(View()))
    {
      if KnownTerminal(View()) {
        state := state.(uncertain := false, controlUncertain := false);
        if flight.None? {
          state := state.(intent := None);
        }
      }
    }

    method Dispatch(request: Intent, first: bool)
      modifies this
      ensures View() == Dispatched(old(View()), request, first)
    {
      epoch, anchor := epoch + 1, None;
      state := state.(intent := Some(request), acknowledged := false);
      flight := Some(Call(request, first));
    }

    method Prepare(names: Option<seq<string>>, granted: bool, freshId: Id)
      modifies this
      ensures View() == Prepared(old(View()), names, granted, freshId)
    {
      if !CanAct(View()) || OutcomeUnknown(View()) || state.review.Some? || !granted || state.source.None? {
        return;
      }
      Dispatch(PrepareIntent(freshId, state.source.value, names), true);
    }

    method ArmStored(confirmed: bool, now: int)
      modifies this
      ensures View() == Armed(old(View()), confirmed, now)
    {
      if CanAct(View()) && confirmed && !OutcomeUnknown(View()) && state.review.Some? && IsPending(state.review.value, now) {
        anchor := Some(SignatureOf(state.review.value));
      }
    }

    method Decide(approve: bool, id: Id, planId: string, confirmed: bool, granted: bool, now: int)
      modifies this
      ensures View() == Decided(old(View()), approve, id, planId, confirmed, granted, now)
    {
      if !CanAct(View()) || OutcomeUnknown(View()) || !confirmed || state.review.None? || !IsPending(state.review.value, now)
         || state.review.value.id != id || state.review.value.plan.id != planId {
        return;
      }
      if approve && (anchor != Some(SignatureOf(state.review.value)) || !granted) {
        return;
      }
      Dispatch(DecideIntent(id, state.review.value.source, planId, approve), false);
    }

    method TakeAcknowledgement(first: bool, reply: Review, now: int)
      modifies this
      ensures View() == Acknowledged(old(View()), first, reply, now)
    {
      state := state.(uncertain := false);
      if first && !state.closing && state.active && !OutcomeUnknown(View()) && IsPending(reply, now) {
        anchor := Some(SignatureOf(reply));
      }
      if !Unknown(reply) {
        state := state.(intent := None);
      }
    }

    method MarkUncertain()
      modifies this
      ensures View() == Unacknowledged(old(View()))
    {
      state, anchor := state.(uncertain := !KnownTerminal(View())), None;
    }

    method ExamineReply(call: Call, reply: Option<Review>, now: int)
      modifies this
      ensures View() == Examined(old(View()), call, reply, now)
    {
      if reply.None? || !Acknowledges(call.intent, reply.value) {
        MarkUncertain();
        return;
      }
      epoch := epoch + 1;
      var ok := Accept(reply.value, Some(call.intent.source), call.intent.id, PlanOf(call.intent));
      if ok {
        TakeAcknowledgement(call.first, reply.value, now);
      } else {
        MarkUncertain();
      }
    }

    method LandFlight()
      modifies this
      ensures View() == FlightLanded(old(View()))
    {
      if KnownTerminal(View()) && !state.uncertain {
        state := state.(intent := None);
      }
      TryResume();
    }

    /** dispatch, after its request ended. */
    method FinishDispatch(reply: Option<Review>, now: int)
      modifies this
      ensures View() == FlightEnded(old(View()), reply, now)
    {
      if flight.None? {
        return;
      }
      var call := flight.value;
      flight := None;
      if !disposed {
        ExamineReply(call, reply, now);
      }
      LandFlight();
    }

    method RetryPrepare(confirmed: bool)
      modifies this
      ensures View() == RetriedPrepare(old(View()), confirmed)
    {
      if CanAct(View()) && confirmed && state.uncertain && !state.controlUncertain && state.intent.Some? && state.intent.value.PrepareIntent? {
        Dispatch(state.intent.value, false);
      }
    }

    method Read(id: Id, wanted: Option<Source>, planId: Option<string>, recovering: Option<Intent>, seen: Option<Status>)
      modifies this
      ensures View() == ReadStarted(old(View()), id, wanted, planId, recovering, seen)
    {
      if !CanRead(View()) {
        return;
      }
      anchor, epoch := None, epoch + 1;
      reading := Some(ReadReview(id, wanted, planId, recovering, seen, epoch));
    }

    method Recover()
      modifies this
      ensures View() == Recovered(old(View()))
    {
      if !CanRead(View()) || (flight.Some? && state.intent.Some? && state.intent.value.PrepareIntent?) {
        return;
      }
      if state.intent.Some? {
        Read(state.intent.value.id, Some(state.intent.value.source), PlanOf(state.intent.value), state.intent, None);
      } else if state.review.Some? {
        Read(state.review.value.id, Some(state.review.value.source), Some(state.review.value.plan.id), None, None);
      }
    }

    method ReadExisting(id: Id, wanted: Option<Source>, seen: Option<Status>)
      modifies this
      ensures View() == ExistingRead(old(View()), id, wanted, seen)
    {
      if CanAct(View()) && !SelectionLocked(View()) {
        Read(id, wanted, None, None, seen);
      }
    }

    method LoadHistory()
      modifies this
      ensures View() == HistoryStarted(old(View()))
    {
      if CanAct(View()) && !SelectionLocked(View()) {
        anchor, epoch := None, epoch + 1;
        reading := Some(ReadHistory(epoch));
      }
    }

    method NoteRead(recovering: Option<Intent>, reply: Review)
      modifies this
      ensures View() == ReadNoted(old(View()), recovering, reply)
    {
      state, anchor := state.(review := Some(reply), acknowledged := false), None;
      if recovering.Some? && recovering.value.PrepareIntent? {
        state := state.(uncertain := false, intent := if flight.None? then None else state.intent);
      }
    }

    /** read and history, after the request ended. */
    method FinishRead(reply: Option<Review>)
      modifies this
      ensures View() == ReadEnded(old(View()), reply)
    {
      if reading.None? {
        return;
      }
      var call := reading.value;
      reading := None;
      if Fits(View(), call, reply) {
        NoteRead(call.recovering, reply.value);
        SettleProof();
      }
      TryResume();
    }

    /** cancel and reconcile. */
    method StartControl(kind: ControlKind, confirmed: bool)
      modifies this
      ensures View() == ControlStarted(old(View()), kind, confirmed)
    {
      if !confirmed || (kind.Cancel? && !CanCancel(View())) || (kind.Reconcile? && !CanReconcile(View())) {
        return;
      }
      epoch, anchor := epoch + 1, None;
      control := Some(Control(kind, state.review.value.id, state.review.value.source, state.review.value.plan.id));
      state := state.(controls := state.controls + 1, acknowledged := false);
    }

    method ExamineControl(call: Control, reply: Option<Review>)
      modifies this
      ensures View() == ControlExamined(old(View()), call, reply)
    {
      if reply.None? || reply.value.status == Pending || reply.value.status == Running {
        state := state.(controlUncertain := true);
        return;
      }
      epoch := epoch + 1;
      var ok := Accept(reply.value, Some(call.source), call.id, Some(call.planId));
      if !ok {
        state := state.(controlUncertain := true);
        return;
      }
      state := state.(controlUncertain := Unknown(reply.value));
      SettleProof();
    }

    method FinishControl(reply: Option<Review>)
      modifies this
      ensures View() == ControlEnded(old(View()), reply)
    {
      if control.None? {
        return;
      }
      var call := control.value;
      control := None;
      if !disposed {
        ExamineControl(call, reply);
        TryResume();
      }
    }

    method AcknowledgeExit(confirmed: bool)
      modifies this
      ensures View() == ExitAcknowledged(old(View()), confirmed)
    {
      if CanAct(View()) && confirmed && OutcomeUnknown(View()) {
        anchor := None;
        state := state.(acknowledged := true);
      }
    }

    method PrepareClose()
      modifies this
      ensures View() == CloseStarted(old(View()))
    {
      resume := false;
      state := state.(closing := true);
      anchor, epoch := None, epoch + 1;
    }

    /** prepareClose, after every request in flight has landed. */
    method ClosePrepared() returns (mayClose: bool)
      modifies this
      ensures (View(), mayClose) == CloseWaited(old(View()))
    {
      if flight.Some? || control.Some? || reading.Some? || (OutcomeUnknown(View()) && !state.acknowledged) {
        return false;
      }
      TryResume();
      mayClose := true;
    }

    method FinishClose()
      modifies this
      ensures View() == CloseFinished(old(View()))
    {
      resume := true;
      TryResume();
    }

    method Dispose()
      modifies this
      ensures View() == Disposed(old(View()))
    {
      disposed := true;
      state := state.(active := false, closing := true);
      anchor, epoch := None, epoch + 1;
    }
  }
}
