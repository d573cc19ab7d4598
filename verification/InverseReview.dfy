/** The inverse patch review controller (frontend/src/inverseReview.ts): one request or read at a
    time, a pinned intent, and a metadata-only reconcile that must not replace a lost decision.

    Each function is the code between two awaits; `InverseReviewController` is the object that runs it. */
module InverseReview {
  import opened Basics

  type Id = string

  datatype Status = Pending | Applying | Applied | Failed | Rejected | Expired | Indeterminate
  datatype Source = Source(run: string, call: string, patch: string)
  datatype Review = Review(id: Id, source: Source, patch: string, created: int, expires: int, diff: string,
                           status: Status, pendingExpired: bool)

  /** What never changes during a review's life. */
  datatype Signature = Signature(source: Source, id: Id, patch: string, created: int, expires: int, diff: string)

  datatype Kind = Prepare | Approve | Reject | Reconcile
  datatype Intent = Intent(kind: Kind, source: Source, id: Id, patch: Option<string>)

  /** `original` is the intent a reconcile found and gives back while the outcome stays unknown. */
  datatype Call = Call(intent: Intent, first: bool, original: Option<Intent>)
  datatype Read = Read(id: Id, source: Source, patch: Option<string>, recovering: Option<Intent>, epoch: nat)

  datatype Client = Client(
    active: bool, closing: bool, disposed: bool, resume: bool, source: Option<Source>, review: Option<Review>,
    intent: Option<Intent>, uncertain: bool, anchor: Option<Signature>, acknowledged: bool, epoch: nat,
    flight: Option<Call>, reading: Option<Read>)

  const NEW := Client(false, false, false, false, None, None, None, false, None, false, 0, None, None)

  // ----- evidence -----

  predicate Unknown(s: Status) {
    s == Applying || s == Indeterminate
  }

  predicate Terminal(s: Status) {
    s == Applied || s == Failed || s == Rejected || s == Expired
  }

  function SignatureOf(v: Review): Signature {
    Signature(v.source, v.id, v.patch, v.created, v.expires, v.diff)
  }

  predicate Valid(v: Review, source: Source, id: Id, patch: Option<string>) {
    && v.id == id && v.source == source && (patch.Some? ==> v.patch == patch.value) && v.created < v.expires
  }

  predicate Contradicts(previous: Option<Review>, reply: Review) {
    previous.Some? && previous.value.id == reply.id &&
    (|| SignatureOf(previous.value) != SignatureOf(reply)
     || (previous.value.status != Pending && reply.status == Pending)
     || (Terminal(previous.value.status) && previous.value.status != reply.status))
  }

  predicate IsPending(v: Review, now: int) {
    v.status == Pending && !v.pendingExpired && v.expires > now
  }

  predicate UnknownShown(c: Client) {
    c.review.Some? && Unknown(c.review.value.status)
  }

  predicate SelectionLocked(c: Client) {
    c.flight.Some? || c.reading.Some? || c.closing || c.uncertain || UnknownShown(c)
  }

  predicate CanAct(c: Client) {
    !c.disposed && c.active && !c.closing && c.flight.None? && c.reading.None?
  }

  // ----- steps -----

  function MaybeResume(c: Client): Client {
    var now := c.resume && !c.disposed && c.flight.None? && c.reading.None?;
    c.(closing := c.closing && !now, resume := c.resume && !now)
  }

  function Activated(c: Client, active: bool): Client {
    if c.disposed then c
    else if active then c.(active := true)
    else c.(active := false, anchor := None, epoch := c.epoch + 1)
  }

  function SourceSelected(c: Client, source: Option<Source>): Client {
    if c.disposed || SelectionLocked(c) || (source.Some? && source == c.source) then c
    else c.(epoch := c.epoch + 1, anchor := None, source := source, review := None, intent := None, acknowledged := false)
  }

  function Discarded(c: Client, confirmed: bool): Client {
    if !CanAct(c) || SelectionLocked(c) || !confirmed then c
    else c.(anchor := None, review := None, intent := None, acknowledged := false)
  }

  function Armed(c: Client, confirmed: bool, now: int): Client {
    if !CanAct(c) || !confirmed || c.uncertain || c.review.None? || !IsPending(c.review.value, now) then c
    else c.(anchor := Some(SignatureOf(c.review.value)))
  }

  function Dispatched(c: Client, call: Call): Client {
    c.(intent := Some(call.intent), acknowledged := false, flight := Some(call))
  }

  function Prepared(c: Client, granted: bool, freshId: Id): Client {
    if !CanAct(c) || c.uncertain || c.review.Some? || !granted || c.source.None? then c
    else Dispatched(c.(anchor := None), Call(Intent(Prepare, c.source.value, freshId, None), true, None))
  }

  predicate MayDecide(c: Client, approve: bool, id: Id, patch: string, confirmed: bool, granted: bool, now: int) {
    && CanAct(c) && !c.uncertain && confirmed && c.review.Some? && IsPending(c.review.value, now)
    && c.review.value.id == id && c.review.value.patch == patch
    && (approve ==> granted && c.anchor == Some(SignatureOf(c.review.value)))
  }

  function Decided(c: Client, approve: bool, id: Id, patch: string, confirmed: bool, granted: bool, now: int): Client {
    if !MayDecide(c, approve, id, patch, confirmed, granted, now) then c
    else
      var kind := if approve then Approve else Reject;
      Dispatched(c.(anchor := None), Call(Intent(kind, c.review.value.source, id, Some(patch)), false, None))
  }

  function RetriedPrepare(c: Client, confirmed: bool): Client {
    if !CanAct(c) || !confirmed || !c.uncertain || c.intent.None? || c.intent.value.kind != Prepare then c
    else Dispatched(c, Call(c.intent.value, false, None))
  }

  function Reconciled(c: Client, confirmed: bool): Client {
    if !CanAct(c) || !confirmed || !UnknownShown(c) then c
    else
      var v := c.review.value;
      Dispatched(c, Call(Intent(Reconcile, v.source, v.id, Some(v.patch)), false, c.intent))
  }

  /** Whether a dispatch reply is taken over. */
  predicate Answered(previous: Option<Review>, i: Intent, reply: Option<Review>) {
    && reply.Some? && Valid(reply.value, i.source, i.id, i.patch)
    && (i.kind == Approve ==> reply.value.status in {Applied, Failed, Indeterminate})
    && (i.kind == Reject ==> reply.value.status == Rejected)
    && !Contradicts(previous, reply.value)
  }

  /** The try and catch of dispatch; `None` is a lost or refused request. */
  function Examined(c: Client, call: Call, reply: Option<Review>, now: int): Client {
    if Answered(c.review, call.intent, reply) then
      var arms := call.first && !c.closing && c.active && IsPending(reply.value, now);
      c.(review := reply, intent := None, uncertain := false, anchor := if arms then Some(SignatureOf(reply.value)) else None)
    else c.(uncertain := true, anchor := None)
  }

  /** The end of reconcile: a still unknown outcome keeps the intent it had before. */
  function Restored(c: Client, original: Option<Intent>): Client {
    var restores := !c.disposed && UnknownShown(c) && original.Some?;
    c.(intent := if restores then original else c.intent, uncertain := c.uncertain || restores)
  }

  function FlightEnded(c: Client, reply: Option<Review>, now: int): Client {
    if c.flight.None? then c
    else
      var call, landed := c.flight.value, c.(flight := None);
      Restored(MaybeResume(if c.disposed then landed else Examined(landed, call, reply, now)), call.original)
  }

  function ReadStarted(c: Client, id: Id, source: Source, patch: Option<string>, recovering: Option<Intent>): Client {
    if !CanAct(c) then c
    else c.(anchor := None, epoch := c.epoch + 1, reading := Some(Read(id, source, patch, recovering, c.epoch + 1)))
  }

  function Recovered(c: Client): Client {
    if c.intent.Some? then ReadStarted(c, c.intent.value.id, c.intent.value.source, c.intent.value.patch, c.intent)
    else if c.review.Some? then ReadStarted(c, c.review.value.id, c.review.value.source, Some(c.review.value.patch), None)
    else c
  }

  function ExistingRead(c: Client, id: Id): Client {
    if SelectionLocked(c) || c.intent.Some? || c.source.None? then c else ReadStarted(c, id, c.source.value, None, None)
  }

  /** Whether a read's reply is taken over when it arrives. */
  predicate Fits(c: Client, call: Read, reply: Option<Review>) {
    && call.epoch == c.epoch && !c.disposed && !c.closing && reply.Some?
    && Valid(reply.value, call.source, call.id, call.patch) && !Contradicts(c.review, reply.value)
  }

  function ReadTaken(c: Client, recovering: Option<Intent>, reply: Review): Client {
    var settles := recovering.Some? && (recovering.value.kind == Prepare || Terminal(reply.status));
    c.(review := Some(reply), anchor := None, acknowledged := false,
       intent := if settles then None else c.intent, uncertain := c.uncertain && !settles)
  }

  function ReadEnded(c: Client, reply: Option<Review>): Client {
    if c.reading.None? then c
    else
      var call, landed := c.reading.value, c.(reading := None);
      MaybeResume(if Fits(c, call, reply) then ReadTaken(landed, call.recovering, reply.value) else landed)
  }

  function ExitAcknowledged(c: Client, confirmed: bool): Client {
    if !CanAct(c) || !confirmed || !(c.uncertain || UnknownShown(c)) then c else c.(acknowledged := true, anchor := None)
  }

  function CloseStarted(c: Client): Client {
    c.(closing := true, resume := false, anchor := None, epoch := c.epoch + 1)
  }

  /** The end of prepareClose: it fails while an outcome is unknown and not acknowledged. */
  function CloseWaited(c: Client): (Client, bool) {
    if c.flight.Some? || c.reading.Some? || ((c.uncertain || UnknownShown(c)) && !c.acknowledged) then (c, false)
    else (MaybeResume(c), true)
  }

  function CloseFinished(c: Client): Client {
    MaybeResume(c.(resume := true))
  }

  function Disposed(c: Client): Client {
    c.(disposed := true, active := false, closing := true, anchor := None, epoch := c.epoch + 1)
  }

  // ----- the controller -----

  /** The reactive state the panels show. */
  datatype Shown = Shown(active: bool, closing: bool, source: Option<Source>, review: Option<Review>,
                         intent: Option<Intent>, uncertain: bool, acknowledged: bool)

  class InverseReviewController {
    var state: Shown
    var disposed: bool
    var resume: bool
    var anchor: Option<Signature>
    var epoch: nat
    var flight: Option<Call>
    var reading: Option<Read>

    function View(): Client
      reads this
    {
      Client(state.active, state.closing, disposed, resume, state.source, state.review, state.intent, state.uncertain,
             anchor, state.acknowledged, epoch, flight, reading)
    }

    constructor ()
      ensures View() == NEW
    {
      state := Shown(false, false, None, None, None, false, false);
      disposed, resume, anchor, epoch, flight, reading := false, false, None, 0, None, None;
    }

    method TryResume()
      modifies this
      ensures View() == MaybeResume(old(View()))
    {
      if resume && !disposed && flight.None? && reading.None? {
        state, resume := state.(closing := false), false;
      }
    }

    method Activate(on: bool)
      modifies this
      ensures View() == Activated(old(View()), on)
    {
      if disposed {
        return;
      }
      state := state.(active := on);
      if !on {
        anchor, epoch := None, epoch + 1;
      }
    }

    method SelectSource(chosen: Option<Source>) returns (selected: bool)
      modifies this
      ensures View() == SourceSelected(old(View()), chosen)
      ensures selected <==> !old(disposed) && !SelectionLocked(old(View()))
    {
      if disposed || SelectionLocked(View()) {
        return false;
      }
      if chosen.None? || chosen != state.source {
        epoch, anchor := epoch + 1, None;
        state := state.(source := chosen, review := None, intent := None, acknowledged := false);
      }
      selected := true;
    }

    method DiscardPreview(confirmed: bool)
      modifies this
      ensures View() == Discarded(old(View()), confirmed)
    {
      if CanAct(View()) && !SelectionLocked(View()) && confirmed {
        anchor := None;
        state := state.(review := None, intent := None, acknowledged := false);
      }
    }

    method ArmStored(confirmed: bool, now: int)
      modifies this
      ensures View() == Armed(old(View()), confirmed, now)
    {
      if CanAct(View()) && confirmed && !state.uncertain && state.review.Some? && IsPending(state.review.value, now) {
        anchor := Some(SignatureOf(state.review.value));
      }
    }

    method Dispatch(call: Call)
      modifies this
      ensures View() == Dispatched(old(View()), call)
    {
      state := state.(intent := Some(call.intent), acknowledged := false);
      flight := Some(call);
    }

    method PrepareReview(granted: bool, freshId: Id)
      modifies this
      ensures View() == Prepared(old(View()), granted, freshId)
    {
      if !CanAct(View()) || state.uncertain || state.review.Some? || !granted || state.source.None? {
        return;
      }
      anchor := None;
      Dispatch(Call(Intent(Prepare, state.source.value, freshId, None), true, None));
    }

    method Decide(approve: bool, id: Id, patch: string, confirmed: bool, granted: bool, now: int)
      modifies this
      ensures View() == Decided(old(View()), approve, id, patch, confirmed, granted, now)
    {
      if !MayDecide(View(), approve, id, patch, confirmed, granted, now) {
        return;
      }
      anchor := None;
      Dispatch(Call(Intent(if approve then Approve else Reject, state.review.value.source, id, Some(patch)), false, None));
    }

    method RetryPrepare(confirmed: bool)
      modifies this
      ensures View() == RetriedPrepare(old(View()), confirmed)
    {
      if CanAct(View()) && confirmed && state.uncertain && state.intent.Some? && state.intent.value.kind == Prepare {
        Dispatch(Call(state.intent.value, false, None));
      }
    }

    method StartReconcile(confirmed: bool)
      modifies this
      ensures View() == Reconciled(old(View()), confirmed)
    {
      if CanAct(View()) && confirmed && UnknownShown(View()) {
        var v := state.review.value;
        Dispatch(Call(Intent(Reconcile, v.source, v.id, Some(v.patch)), false, state.intent));
      }
    }

    method ExamineReply(call: Call, reply: Option<Review>, now: int)
      modifies this
      ensures View() == Examined(old(View()), call, reply, now)
    {
      if Answered(state.review, call.intent, reply) {
        anchor := None;
        state := state.(review := reply, intent := None, uncertain := false);
        if call.first && !state.closing && state.active && IsPending(reply.value, now) {
          anchor := Some(SignatureOf(reply.value));
        }
      } else {
        state, anchor := state.(uncertain := true), None;
      }
    }

    method Restore(original: Option<Intent>)
      modifies this
      ensures View() == Restored(old(View()), original)
    {
      if !disposed && UnknownShown(View()) && original.Some? {
        state := state.(intent := original, uncertain := true);
      }
    }

    /** dispatch, after its request ended, and the rest of reconcile. */
    method FinishDispatch(reply: Option<Review>, now: int)
      modifies this
      ensures View() == FlightEnded(old(View()), reply, now)
    {
      if flight.None? {
        return;
      }
      var call := flight.value;
      flight := None;
      if !disposed {
        ExamineReply(call, reply, now);
      }
      TryResume();
      Restore(call.original);
    }

    method StartRead(id: Id, source: Source, patch: Option<string>, recovering: Option<Intent>)
      modifies this
      ensures View() == ReadStarted(old(View()), id, source, patch, recovering)
    {
      if CanAct(View()) {
        anchor, epoch := None, epoch + 1;
        reading := Some(Read(id, source, patch, recovering, epoch));
      }
    }

    method Recover()
      modifies this
      ensures View() == Recovered(old(View()))
    {
      if state.intent.Some? {
        StartRead(state.intent.value.id, state.intent.value.source, state.intent.value.patch, state.intent);
      } else if state.review.Some? {
        StartRead(state.review.value.id, state.review.value.source, Some(state.review.value.patch), None);
      }
    }

    method ReadExisting(id: Id)
      modifies this
      ensures View() == ExistingRead(old(View()), id)
    {
      if !SelectionLocked(View()) && state.intent.None? && state.source.Some? {
        StartRead(id, state.source.value, None, None);
      }
    }

    /** read, after its request ended. */
    method FinishRead(reply: Option<Review>)
      modifies this
      ensures View() == ReadEnded(old(View()), reply)
    {
      if reading.None? {
        return;
      }
      var call := reading.value;
      reading := None;
      if Fits(View(), call, reply) {
        anchor := None;
        state := state.(review := reply, acknowledged := false);
        if call.recovering.Some? && (call.recovering.value.kind == Prepare || Terminal(reply.value.status)) {
          state := state.(intent := None, uncertain := false);
        }
      }
      TryResume();
    }

    method AcknowledgeExit(confirmed: bool)
      modifies this
      ensures View() == ExitAcknowledged(old(View()), confirmed)
    {
      if CanAct(View()) && confirmed && (state.uncertain || UnknownShown(View())) {
        state, anchor := state.(acknowledged := true), None;
      }
    }

    method PrepareClose()
      modifies this
      ensures View() == CloseStarted(old(View()))
    {
      state, resume := state.(closing := true), false;
      anchor, epoch := None, epoch + 1;
    }

    /** prepareClose, after every request in flight has landed. */
    method ClosePrepared() returns (mayClose: bool)
      modifies this
      ensures (View(), mayClose) == CloseWaited(old(View()))
    {
      if flight.Some? || reading.Some? || ((state.uncertain || UnknownShown(View())) && !state.acknowledged) {
        return false;
      }
      TryResume();
      mayClose := true;
    }

    method FinishClose()
      modifies this
      ensures View() == CloseFinished(old(View()))
    {
      resume := true;
      TryResume();
    }

    method Dispose()
      modifies this
      ensures View() == Disposed(old(View()))
    {
      state, disposed := state.(active := false, closing := true), true;
      anchor, epoch := None, epoch + 1;
    }
  }
}
