/** Save and activation intents of the work-order controller (frontend/src/workOrders.ts).

    A lost reply leaves the intent "unknown": it may only be repeated unchanged, confirmed by a
    matching record, or given up by explicitly adopting a conflicting server version.  The methods
    are the code between two awaits; the records they receive are arbitrary. */
module WorkOrderIntents {
  import opened Basics

  type OrderId = string
  type Plan = string        // a normalised plan
  type Descriptor = string  // a context descriptor
  type Key = nat

  datatype Binding = Binding(revision: nat, boundRevision: nat, descriptor: Descriptor, capture: string)
  datatype Settings = Settings(profile: Option<string>, effort: string, deadline: int, permissions: string, context: Option<Descriptor>)
  datatype Order = Order(id: OrderId, revision: nat, draft: bool, plan: Plan, bindings: seq<Binding>,
                         execution: Option<Settings>, frozenProfile: bool)

  datatype Intent =
    | SaveIntent(plan: Plan, target: Option<OrderId>, revision: nat, key: Key, rebind: bool, context: Option<Descriptor>,
                 carried: Option<Binding>, prepared: bool, sent: bool)
    | ActivationIntent(id: OrderId, revision: nat, settings: Settings, prepared: bool, sent: bool)

  datatype Request =
    | Create(newPlan: Plan, key: Key)
    | Revise(id: OrderId, revision: nat, plan: Plan, context: Option<Descriptor>)
    | Activate(id: OrderId, revision: nat, settings: Settings)

  function RequestOf(i: Intent): Request {
    match i
    case SaveIntent(plan, Some(id), revision, _, _, context, _, _, _) => Revise(id, revision, plan, context)
    case SaveIntent(plan, None, _, key, _, _, _, _, _) => Create(plan, key)
    case ActivationIntent(id, revision, settings, _, _) => Activate(id, revision, settings)
  }

  // ----- matching a record against an intent -----

  function BindingAt(bindings: seq<Binding>, revision: nat): Option<Binding> {
    if bindings == [] then None
    else if bindings[0].revision == revision then Some(bindings[0])
    else BindingAt(bindings[1..], revision)
  }

  /** Everything of a binding except the plan revision it is listed under. */
  function BindingKey(b: Option<Binding>): Option<(nat, Descriptor, string)> {
    if b.None? then None else Some((b.value.boundRevision, b.value.descriptor, b.value.capture))
  }

  function ContextOf(record: Order): Option<Descriptor> {
    if record.execution.Some? then record.execution.value.context else None
  }

  predicate Target(i: Intent, id: OrderId) {
    match i
    case SaveIntent(_, target, _, _, _, _, _, _, _) => target.None? || target.value == id
    case ActivationIntent(wanted, _, _, _, _) => wanted == id
  }

  predicate Matches(record: Order, i: Intent) {
    i.prepared && i.sent && Target(i, record.id) &&
    match i
    case SaveIntent(plan, target, revision, _, rebind, context, carried, _, _) =>
      && record.plan == plan
      && (if target.None? then record.revision >= 1
          else
            var actual := BindingAt(record.bindings, record.revision);
            && record.revision == revision + 1
            && (if rebind then
                  && actual.Some? && actual.value.boundRevision == revision + 1
                  && Some(actual.value.descriptor) == context && ContextOf(record) == context
                else
                  && BindingKey(actual) == BindingKey(carried)
                  && ContextOf(record) == (if carried.Some? then Some(carried.value.descriptor) else None)))
    case ActivationIntent(_, revision, expected, _, _) =>
      && record.revision == revision && !record.draft && record.execution.Some?
      && var actual := record.execution.value;
      && actual.effort == expected.effort && actual.deadline == expected.deadline
      && (expected.profile.Some? ==> actual.profile == expected.profile)
      && actual.profile.Some? && record.frozenProfile
      && actual.permissions == expected.permissions && actual.context == expected.context
      && var binding := BindingAt(record.bindings, revision);
      if expected.context.Some? then
        binding.Some? && binding.value.boundRevision == revision && Some(binding.value.descriptor) == expected.context
      else binding.None?
  }

  predicate IsConflict(record: Order, i: Intent) {
    && (match i
        case SaveIntent(_, target, _, _, _, _, _, _, _) => target == Some(record.id)
        case ActivationIntent(id, _, _, _, _) => id == record.id)
    && !Matches(record, i)
    && (record.revision > i.revision || (i.ActivationIntent? && !record.draft))
  }

  // ----- controller state and steps -----

  datatype Flight = Idle | Preparing(recovering: bool) | Sending(recovering: bool) | Controlling | Listing
  datatype Load = Opening(id: OrderId, epoch: nat) | Reload(intent: Intent, epoch: nat) | Adoption(intent: Intent, epoch: nat)
  datatype Reading = Reading(id: OrderId, epoch: nat)

  datatype Client = Client(
    selected: Option<Order>, draft: Plan, base: nat, dirty: bool, rebind: bool,
    uncertain: bool, conflict: bool, closing: bool, disposed: bool, loading: bool, epoch: nat,
    flight: Flight, intent: Option<Intent>, loads: set<Load>, refresh: Option<Reading>)

  datatype Error = Http(status: int) | Other

  predicate HasEdits(c: Client) { c.dirty || c.rebind }

  predicate Free(c: Client) {
    c.flight.Idle? && !c.closing && !c.disposed && !c.loading
  }

  function Accepted(c: Client, record: Order): Client {
    Client(Some(record), record.plan, record.revision, false, false, false, false,
           c.closing, c.disposed, c.loading, c.epoch, c.flight, None, c.loads, c.refresh)
  }

  /** mutate up to its first await: a prepared intent is sent at once. */
  function Launched(c: Client): (Client, Option<Request>)
    requires c.intent.Some?
  {
    var i := c.intent.value;
    var d := c.(epoch := c.epoch + 1);
    if i.prepared then (d.(flight := Sending(c.uncertain), intent := Some(i.(sent := true))), Some(RequestOf(i)))
    else (d.(flight := Preparing(c.uncertain)), None)
  }

  /** save, with the outcome of `validatePlan` on the draft. */
  function Saved(c: Client, valid: bool, freshKey: Key): (Client, Option<Request>) {
    if !Free(c) || (c.intent.Some? && c.intent.value.ActivationIntent?) then (c, None)
    else if c.intent.Some? then Launched(c)
    else if !valid || (c.selected.Some? && c.base != c.selected.value.revision) then (c, None)
    else
      var i := SaveIntent(c.draft, if c.selected.Some? then Some(c.selected.value.id) else None, c.base, freshKey, c.rebind, None,
                          if c.selected.Some? then BindingAt(c.selected.value.bindings, c.base) else None, !c.rebind, false);
      Launched(c.(intent := Some(i)))
  }

  function Activated(c: Client, settings: Settings, includeContext: bool): (Client, Option<Request>) {
    if c.selected.None? || !Free(c) || HasEdits(c) || c.uncertain || !c.selected.value.draft || c.intent.Some? then (c, None)
    else
      var i := ActivationIntent(c.selected.value.id, c.selected.value.revision, settings.(context := None), !includeContext, false);
      Launched(c.(intent := Some(i)))
  }

  function RetriedPending(c: Client, valid: bool, freshKey: Key): (Client, Option<Request>) {
    if !c.uncertain || c.intent.None? then (c, None)
    else if c.intent.value.ActivationIntent? then (if Free(c) then Launched(c) else (c, None))
    else Saved(c, valid, freshKey)
  }

  function Failed(c: Client, e: Error): Client
    requires c.intent.Some? && (c.flight.Preparing? || c.flight.Sending?)
  {
    if c.disposed then c.(flight := Idle)
    else
      var refused := !c.flight.recovering && e.Http? && e.status in {400, 404, 409, 422};
      var uncertain := c.intent.value.sent && !refused;
      c.(flight := Idle, uncertain := uncertain,
         intent := if uncertain then c.intent else None, conflict := uncertain && c.conflict)
  }

  function WithContext(i: Intent, context: Descriptor): Intent {
    match i
    case SaveIntent(_, _, _, _, _, _, _, _, _) => i.(context := Some(context), prepared := true)
    case ActivationIntent(_, _, settings, _, _) => i.(settings := settings.(context := Some(context)), prepared := true)
  }

  /** The awaited `prepareContext` returned a descriptor, or threw (`None`). */
  function ContextReady(c: Client, context: Option<Descriptor>): (Client, Option<Request>) {
    if !c.flight.Preparing? || c.intent.None? then (c, None)
    else if context.None? then (Failed(c, Other), None)
    else
      var i := WithContext(c.intent.value, context.value);
      if c.disposed || (c.closing && !i.sent) then (Failed(c.(intent := Some(i)), Other), None)
      else (c.(flight := Sending(c.flight.recovering), intent := Some(i.(sent := true))), Some(RequestOf(i)))
  }

  /** The awaited request returned a record or an error. */
  function Replied(c: Client, reply: Result<Order, Error>): Client {
    if !c.flight.Sending? || c.intent.None? then c
    else
      match reply
      case Err(e) => Failed(c, e)
      case Ok(record) =>
        if c.disposed then c.(flight := Idle)
        else if !Matches(record, c.intent.value) then Failed(c, Other)
        else Accepted(c, record).(flight := Listing)
  }

  function RefreshStarted(c: Client): Client {
    if !Free(c) || c.refresh.Some? || c.selected.None? then c else c.(refresh := Some(Reading(c.selected.value.id, c.epoch)))
  }

  /** A current refresh's record meets the intent and the edits. */
  function RefreshResolved(c: Client, record: Order): Client {
    if c.intent.Some? && Matches(record, c.intent.value) then Accepted(c, record)
    else if HasEdits(c) || c.uncertain then
      c.(selected := Some(record), conflict := if c.intent.Some? then IsConflict(record, c.intent.value) else c.conflict)
    else Accepted(c, record)
  }

  /** The refresh ended with a record, or failed (`None`). */
  function Refreshed(c: Client, reply: Option<Order>): Client {
    if c.refresh.None? then c
    else if reply.None? then c.(refresh := None)
    else
      var d, record := c.(refresh := None), reply.value;
      var Reading(id, epoch) := c.refresh.value;
      if c.disposed || epoch != c.epoch || c.selected.None? || c.selected.value.id != id || record.id != id then d
      else RefreshResolved(d, record)
  }

  function OpenStarted(c: Client, id: OrderId): Client {
    if c.disposed || HasEdits(c) || !c.flight.Idle? || c.closing || c.uncertain then c
    else c.(epoch := c.epoch + 1, loading := true, loads := c.loads + {Opening(id, c.epoch + 1)})
  }

  predicate Identified(i: Intent) {
    i.ActivationIntent? || i.target.Some?
  }

  function ReloadStarted(c: Client): Client {
    if c.intent.None? || !Identified(c.intent.value) || !Free(c) then c
    else c.(loading := true, loads := c.loads + {Reload(c.intent.value, c.epoch)})
  }

  function AdoptionStarted(c: Client, confirmed: bool): Client {
    if !confirmed || !c.uncertain || !c.conflict || c.intent.None? || !Identified(c.intent.value) || !Free(c) then c
    else c.(loading := true, loads := c.loads + {Adoption(c.intent.value, c.epoch)})
  }

  /** A current load's record meets the intent it was started for. */
  function LoadResolved(c: Client, load: Load, record: Order): Client {
    match load
    case Opening(id, _) => if record.id == id then Accepted(c, record) else c
    case Reload(intent, _) =>
      if c.intent != Some(intent) || !Target(intent, record.id) then c
      else if Matches(record, intent) then Accepted(c, record)
      else c.(selected := Some(record), conflict := IsConflict(record, intent))
    case Adoption(intent, _) =>
      if c.intent != Some(intent) || !IsConflict(record, intent) then c else Accepted(c, record)
  }

  /** An outstanding load ended with a record, or failed (`None`). */
  function Loaded(c: Client, load: Load, record: Option<Order>): Client {
    if load !in c.loads then c
    else
      var d := c.(loads := c.loads - {load}, loading := c.loading && load.epoch != c.epoch);
      if record.None? || c.disposed || load.epoch != c.epoch then d else LoadResolved(d, load, record.value)
  }

  function Edited(c: Client, plan: Plan): Client {
    if !Free(c) || c.uncertain then c
    else c.(draft := plan, dirty := c.selected.None? || plan != c.selected.value.plan)
  }

  /** `eligible`: the order is neither terminal nor without an unstarted task. */
  function Rebound(c: Client, rebind: bool, eligible: bool): Client {
    if !Free(c) || c.uncertain then c
    else if !rebind then c.(rebind := false)
    else if c.selected.None? || c.selected.value.draft || !eligible then c
    else c.(rebind := true)
  }

  function Fresh(c: Client): Client {
    if c.disposed || c.loading || HasEdits(c) || !c.flight.Idle? || c.uncertain || c.closing then c
    else c.(epoch := c.epoch + 1, selected := None, draft := "", base := 0)
  }

  function Discarded(c: Client): Client {
    if !Free(c) || c.uncertain then c
    else if c.selected.Some? then Accepted(c, c.selected.value)
    else c.(draft := "", dirty := false)
  }

  /** control and retry: a mutation without an intent of its own. */
  function ControlStarted(c: Client): Client {
    if c.selected.None? || HasEdits(c) || c.uncertain || !Free(c) then c else c.(epoch := c.epoch + 1, flight := Controlling)
  }

  function Controlled(c: Client, record: Option<Order>): Client {
    if !c.flight.Controlling? then c
    else if record.None? || c.disposed then c.(flight := Idle)
    else Accepted(c, record.value).(flight := Listing)
  }

  // ----- the controller object -----

  class WorkOrderController {
    var selected: Option<Order>
    var draft: Plan
    var base: nat
    var dirty: bool
    var rebind: bool
    var uncertain: bool
    var conflict: bool
    var closing: bool
    var disposed: bool
    var loading: bool
    var epoch: nat
    var flight: Flight
    var intent: Option<Intent>
    var loads: set<Load>
    var refresh: Option<Reading>

    ghost function View(): Client
      reads this
    {
      Client(selected, draft, base, dirty, rebind, uncertain, conflict, closing, disposed, loading, epoch, flight, intent, loads, refresh)
    }

    constructor ()
      ensures View() == NEW
    {
      selected, draft, base, dirty, rebind := None, "", 0, false, false;
      uncertain, conflict, closing, disposed, loading, epoch := false, false, false, false, false, 0;
      flight, intent, loads, refresh := Idle, None, {}, None;
    }

    /** The fields of accept, one by one; `Accept` states the whole state. */
    method TakeOver(record: Order)
      modifies `selected, `draft, `base, `dirty, `rebind, `uncertain, `conflict, `intent
      ensures selected == Some(record) && draft == record.plan && base == record.revision && intent == None
      ensures !dirty && !rebind && !uncertain && !conflict
    {
      selected, draft, base := Some(record), record.plan, record.revision;
      dirty, rebind := false, false;
      uncertain, conflict, intent := false, false, None;
    }

    method Accept(record: Order)
      modifies `selected, `draft, `base, `dirty, `rebind, `uncertain, `conflict, `intent
      ensures View() == Accepted(old(View()), record)
    {
      TakeOver(record);
    }

    /** mutate with an intent, up to its first await. */
    method Launch() returns (send: Option<Request>)
      requires intent.Some?
      modifies this
      ensures (View(), send) == Launched(old(View()))
    {
      epoch := epoch + 1;
      if intent.value.prepared {
        send := Some(RequestOf(intent.value));
        intent := Some(intent.value.(sent := true));
        flight := Sending(uncertain);
      } else {
        send := None;
        flight := Preparing(uncertain);
      }
    }

    method Save(valid: bool, freshKey: Key) returns (send: Option<Request>)
      modifies this
      ensures (View(), send) == Saved(old(View()), valid, freshKey)
    {
      if flight != Idle || closing || loading || disposed || (intent.Some? && intent.value.ActivationIntent?) {
        return None;
      }
      if intent == None {
        if !valid || (selected.Some? && base != selected.value.revision) {
          return None;
        }
        intent := Some(SaveIntent(draft, if selected.Some? then Some(selected.value.id) else None, base, freshKey, rebind, None,
                                  if selected.Some? then BindingAt(selected.value.bindings, base) else None, !rebind, false));
      }
      send := Launch();
    }

    method Activate(settings: Settings, includeContext: bool) returns (send: Option<Request>)
      modifies this
      ensures (View(), send) == Activated(old(View()), settings, includeContext)
    {
      if selected == None || flight != Idle || loading || closing || disposed || dirty || rebind || uncertain
         || !selected.value.draft || intent.Some? {
        return None;
      }
      intent := Some(ActivationIntent(selected.value.id, selected.value.revision, settings.(context := None), !includeContext, false));
      send := Launch();
    }

    method RetryPending(valid: bool, freshKey: Key) returns (send: Option<Request>)
      modifies this
      ensures (View(), send) == RetriedPending(old(View()), valid, freshKey)
    {
      if !uncertain || intent == None {
        return None;
      }
      if intent.value.SaveIntent? {
        send := Save(valid, freshKey);
      } else if flight == Idle && !closing && !disposed && !loading {
        send := Launch();
      } else {
        send := None;
      }
    }

    method Fail(e: Error)
      requires intent.Some? && (flight.Preparing? || flight.Sending?)
      modifies `flight, `uncertain, `intent, `conflict
      ensures View() == Failed(old(View()), e)
    {
      if !disposed {
        var refused := !flight.recovering && e.Http? && e.status in {400, 404, 409, 422};
        uncertain := intent.value.sent && !refused;
        if !uncertain {
          intent, conflict := None, false;
        }
      }
      flight := Idle;
    }

    method OnContext(context: Option<Descriptor>) returns (send: Option<Request>)
      modifies this
      ensures (View(), send) == ContextReady(old(View()), context)
    {
      send := None;
      if !flight.Preparing? || intent == None {
        return;
      }
      if context == None {
        Fail(Other);
        return;
      }
      intent := Some(WithContext(intent.value, context.value));
      if disposed || (closing && !intent.value.sent) {
        Fail(Other);
        return;
      }
      send := Some(RequestOf(intent.value));
      intent := Some(intent.value.(sent := true));
      flight := Sending(flight.recovering);
    }

    method OnReply(reply: Result<Order, Error>)
      modifies this
      ensures View() == Replied(old(View()), reply)
    {
      if !flight.Sending? || intent == None {
        return;
      }
      if reply.Err? {
        Fail(reply.error);
      } else if disposed {
        flight := Idle;
      } else if !Matches(reply.value, intent.value) {
        Fail(Other);
      } else {
        Accept(reply.value);
        flight := Listing;
      }
    }

    /** The part of a refresh that meets the intent and the edits. */
    method TakeRefreshed(record: Order)
      modifies this
      ensures View() == RefreshResolved(old(View()), record)
    {
      if intent.Some? && Matches(record, intent.value) {
        Accept(record);
      } else if dirty || rebind || uncertain {
        selected := Some(record);
        if intent.Some? {
          conflict := IsConflict(record, intent.value);
        }
      } else {
        Accept(record);
      }
    }

    method OnRefreshed(reply: Option<Order>)
      modifies this
      ensures View() == Refreshed(old(View()), reply)
    {
      if refresh == None {
        return;
      }
      var reading := refresh.value;
      refresh := None;
      if reply == None || disposed || reading.epoch != epoch || selected == None || selected.value.id != reading.id
         || reply.value.id != reading.id {
        return;
      }
      TakeRefreshed(reply.value);
    }

    /** The part of a load that meets the intent it was started for. */
    method TakeLoaded(load: Load, record: Order)
      modifies this
      ensures View() == LoadResolved(old(View()), load, record)
    {
      match load {
        case Opening(id, _) =>
          if record.id == id { Accept(record); }
        case Reload(wanted, _) =>
          if intent == Some(wanted) && Target(wanted, record.id) {
            if Matches(record, wanted) {
              Accept(record);
            } else {
              selected, conflict := Some(record), IsConflict(record, wanted);
            }
          }
        case Adoption(wanted, _) =>
          if intent == Some(wanted) && IsConflict(record, wanted) { Accept(record); }
      }
    }

    method OnLoaded(load: Load, record: Option<Order>)
      modifies this
      ensures View() == Loaded(old(View()), load, record)
    {
      if load !in loads {
        return;
      }
      loads := loads - {load};
      var current := load.epoch == epoch;
      if current {
        loading := false;
      }
      if record == None || disposed || !current {
        return;
      }
      TakeLoaded(load, record.value);
    }

    method StartRefresh()
      modifies this
      ensures View() == RefreshStarted(old(View()))
    {
      if flight == Idle && !closing && !disposed && !loading && refresh == None && selected.Some? {
        refresh := Some(Reading(selected.value.id, epoch));
      }
    }

    method Select(id: OrderId)
      modifies this
      ensures View() == OpenStarted(old(View()), id)
    {
      if !disposed && !dirty && !rebind && flight == Idle && !closing && !uncertain {
        epoch := epoch + 1;
        loading, loads := true, loads + {Opening(id, epoch)};
      }
    }

    method ReloadAfterUncertain()
      modifies this
      ensures View() == ReloadStarted(old(View()))
    {
      if intent.Some? && Identified(intent.value) && flight == Idle && !closing && !disposed && !loading {
        loading, loads := true, loads + {Reload(intent.value, epoch)};
      }
    }

    method AdoptServerVersion(confirmed: bool)
      modifies this
      ensures View() == AdoptionStarted(old(View()), confirmed)
    {
      if confirmed && uncertain && conflict && intent.Some? && Identified(intent.value)
         && flight == Idle && !closing && !disposed && !loading {
        loading, loads := true, loads + {Adoption(intent.value, epoch)};
      }
    }

    method Update(plan: Plan)
      modifies this
      ensures View() == Edited(old(View()), plan)
    {
      if flight == Idle && !closing && !disposed && !loading && !uncertain {
        draft, dirty := plan, selected == None || plan != selected.value.plan;
      }
    }

    method Discard()
      modifies this
      ensures View() == Discarded(old(View()))
    {
      if flight == Idle && !closing && !disposed && !loading && !uncertain {
        if selected.Some? {
          Accept(selected.value);
        } else {
          draft, dirty := "", false;
        }
      }
    }
  }

  const NEW := Client(None, "", 0, false, false, false, false, false, false, false, 0, Idle, None, {}, None)

  // ----- client and server together -----

  datatype Sent = Sent(request: Request, serial: nat)
  datatype Server = Server(orders: map<OrderId, Order>, created: map<Key, OrderId>)
  datatype Sys = Sys(client: Client, nextKey: Key, serial: nat, sends: seq<Sent>, server: Server, effects: seq<nat>)

  datatype Event =
    | DoSave(valid: bool)
    | DoActivate(settings: Settings, includeContext: bool)
    | DoRetry(valid: bool)
    | DoContext(context: Option<Descriptor>)
    | DoReply(reply: Result<Order, Error>)
    | ListDone
    | DoRefresh
    | DoRefreshed(answer: Option<Order>)
    | DoOpen(id: OrderId)
    | DoReload
    | DoAdopt(confirmed: bool)
    | DoLoaded(load: Load, record: Option<Order>)
    | DoEdit(plan: Plan)
    | DoRebind(rebind: bool, eligible: bool)
    | DoFresh
    | DoDiscard
    | DoControl
    | DoControlled(result: Option<Order>)
    | SetClosing(closing: bool)
    | Dispose
    | Serve(send: nat, refuse: bool, freshId: OrderId)
    | Foreign(changed: Order)

  /** A client step; `serial` counts the intents that were ever created. */
  function Stepped(s: Sys, step: (Client, Option<Request>)): Sys {
    var serial := if s.client.intent.None? && step.0.intent.Some? then s.serial + 1 else s.serial;
    s.(client := step.0, serial := serial, nextKey := s.nextKey + 1,
       sends := s.sends + if step.1.Some? then [Sent(step.1.value, serial)] else [])
  }

  /** The effect of a request on the compare-and-set, key-idempotent server, if it has one. */
  function Effect(server: Server, r: Request, freshId: OrderId): Option<Server> {
    match r
    case Create(plan, key) =>
      if key in server.created || freshId in server.orders then None
      else Some(Server(server.orders[freshId := Order(freshId, 1, true, plan, [], None, false)], server.created[key := freshId]))
    case Revise(id, revision, plan, _) =>
      if id !in server.orders || server.orders[id].revision != revision then None
      else Some(server.(orders := server.orders[id := server.orders[id].(revision := revision + 1, plan := plan)]))
    case Activate(id, revision, settings) =>
      if id !in server.orders || server.orders[id].revision != revision || !server.orders[id].draft then None
      else Some(server.(orders := server.orders[id := server.orders[id].(draft := false, execution := Some(settings))]))
  }

  function ClientStep(c: Client, key: Key, e: Event): (Client, Option<Request>) {
    match e
    case DoSave(valid) => Saved(c, valid, key)
    case DoActivate(settings, includeContext) => Activated(c, settings, includeContext)
    case DoRetry(valid) => RetriedPending(c, valid, key)
    case DoContext(context) => ContextReady(c, context)
    case DoReply(reply) => (Replied(c, reply), None)
    case ListDone => (if c.flight.Listing? then c.(flight := Idle) else c, None)
    case DoRefresh => (RefreshStarted(c), None)
    case DoRefreshed(record) => (Refreshed(c, record), None)
    case DoOpen(id) => (OpenStarted(c, id), None)
    case DoReload => (ReloadStarted(c), None)
    case DoAdopt(confirmed) => (AdoptionStarted(c, confirmed), None)
    case DoLoaded(load, record) => (Loaded(c, load, record), None)
    case DoEdit(plan) => (Edited(c, plan), None)
    case DoRebind(rebind, eligible) => (Rebound(c, rebind, eligible), None)
    case DoFresh => (Fresh(c), None)
    case DoDiscard => (Discarded(c), None)
    case DoControl => (ControlStarted(c), None)
    case DoControlled(record) => (Controlled(c, record), None)
    case SetClosing(closing) => (c.(closing := closing), None)
    case Dispose => (c.(disposed := true, epoch := c.epoch + 1), None)
    case _ => (c, None)
  }

  function Apply(s: Sys, e: Event): Sys {
    match e
    case Serve(i, refuse, freshId) =>
      // The network may deliver any request ever sent, also late or twice.
      if i < |s.sends| && !refuse && Effect(s.server, s.sends[i].request, freshId).Some? then
        s.(server := Effect(s.server, s.sends[i].request, freshId).value, effects := s.effects + [i])
      else s
    case Foreign(changed) =>
      // Anyone else's change: revisions never go back and an activated order never becomes a draft again.
      if changed.id in s.server.orders
         && (changed.revision < s.server.orders[changed.id].revision || (changed.draft && !s.server.orders[changed.id].draft))
      then s
      else s.(server := s.server.(orders := s.server.orders[changed.id := changed]))
    case _ => Stepped(s, ClientStep(s.client, s.nextKey, e))
  }

  const START := Sys(NEW, 0, 0, [], Server(map[], map[]), [])

  function Exec(es: seq<Event>): Sys {
    if es == [] then START else Apply(Exec(es[..|es| - 1]), es[|es| - 1])
  }

  // ----- invariants -----

  ghost predicate ClientOk(c: Client) {
    c.disposed ||
    (&& (c.uncertain ==> c.intent.Some? && c.intent.value.prepared && c.intent.value.sent)
     && (match c.flight
         case Idle => c.intent.Some? ==> c.uncertain
         case Preparing(recovering) => !recovering && !c.uncertain && c.intent.Some? && !c.intent.value.prepared && !c.intent.value.sent
         case Sending(recovering) => recovering == c.uncertain && c.intent.Some? && c.intent.value.prepared && c.intent.value.sent
         case _ => c.intent.None?)
     && (forall l | l in c.loads :: l.epoch <= c.epoch)
     && (c.refresh.Some? ==> c.refresh.value.epoch <= c.epoch)
     && (c.intent.Some? ==> forall l | l in c.loads && l.Opening? :: l.epoch < c.epoch)
     && (!c.flight.Idle? && !c.flight.Listing? ==>
           && (forall l | l in c.loads :: l.epoch < c.epoch)
           && (c.refresh.Some? ==> c.refresh.value.epoch < c.epoch)))
  }

  ghost predicate SendsOk(c: Client, serial: nat, sends: seq<Sent>) {
    && (forall i | 0 <= i < |sends| :: sends[i].serial <= serial)
    && (forall i, j | 0 <= i < j < |sends| && sends[i].serial == sends[j].serial :: sends[i].request == sends[j].request)
    && (c.intent.Some? && !c.disposed ==>
          forall i | 0 <= i < |sends| && sends[i].serial == serial ::
            c.intent.value.sent && sends[i].request == RequestOf(c.intent.value))
    && (c.intent.Some? && c.intent.value.sent && !c.disposed ==> |sends| > 0 && sends[|sends| - 1].serial == serial)
  }

  /** A request that already took effect can never take effect again. */
  ghost predicate Spent(server: Server, r: Request) {
    match r
    case Create(_, key) => key in server.created
    case Revise(id, revision, _, _) => id in server.orders && revision < server.orders[id].revision
    case Activate(id, _, _) => id in server.orders && !server.orders[id].draft
  }

  ghost predicate EffectsOk(s: Sys) {
    && (forall k | 0 <= k < |s.effects| :: s.effects[k] < |s.sends| && Spent(s.server, s.sends[s.effects[k]].request))
    && (forall k, l | 0 <= k < l < |s.effects| :: s.sends[s.effects[k]].serial != s.sends[s.effects[l]].serial)
  }

  ghost predicate Inv(s: Sys) {
    ClientOk(s.client) && SendsOk(s.client, s.serial, s.sends) && EffectsOk(s)
  }

  // ----- preservation -----

  /** What a client step may do to the intent and which request it may send. */
  ghost predicate IntentStep(c: Client, d: Client, send: Option<Request>) {
    && (c.disposed ==> d.disposed && send.None?)
    && (!c.disposed && !d.disposed ==>
          && (c.intent.Some? && d.intent.Some? && c.intent.value.sent ==>
                d.intent.value.sent && RequestOf(d.intent.value) == RequestOf(c.intent.value))
          && (send.Some? ==> d.intent.Some? && d.intent.value.sent && send.value == RequestOf(d.intent.value))
          && (d.intent.Some? && d.intent.value.sent && send.None? ==> c.intent.Some? && c.intent.value.sent))
    && (!c.disposed && d.disposed ==> send.None?)
  }

  ghost predicate LegalStep(c: Client, d: Client, send: Option<Request>) {
    ClientOk(d) && IntentStep(c, d, send)
  }

  lemma LaunchIsLegal(c: Client)
    requires ClientOk(c) && Free(c) && c.intent.Some? && c.uncertain
    ensures LegalStep(c, Launched(c).0, Launched(c).1)
  {
  }

  lemma SaveIsLegal(c: Client, valid: bool, key: Key)
    requires ClientOk(c)
    ensures LegalStep(c, Saved(c, valid, key).0, Saved(c, valid, key).1)
  {
  }

  lemma ActivateIsLegal(c: Client, settings: Settings, includeContext: bool)
    requires ClientOk(c)
    ensures LegalStep(c, Activated(c, settings, includeContext).0, Activated(c, settings, includeContext).1)
  {
  }

  lemma FailIsLegal(c: Client, e: Error)
    requires ClientOk(c) && c.flight.Sending? && c.intent.Some?
    ensures LegalStep(c, Failed(c, e), None)
  {
  }

  lemma ReplyIsLegal(c: Client, reply: Result<Order, Error>)
    requires ClientOk(c)
    ensures LegalStep(c, Replied(c, reply), None)
  {
    if !c.flight.Sending? || c.intent.None? {
      KeepingIsLegal(c, c);
    } else if reply.Err? {
      FailIsLegal(c, reply.error);
    } else if !c.disposed {
      if Matches(reply.value, c.intent.value) {
        AcceptIsLegal(c, c.(flight := Listing, intent := None, uncertain := false), reply.value);
      } else {
        FailIsLegal(c, Other);
      }
    }
  }

  lemma ContextIsLegal(c: Client, context: Option<Descriptor>)
    requires ClientOk(c)
    ensures LegalStep(c, ContextReady(c, context).0, ContextReady(c, context).1)
  {
  }

  /** Taking over a record while nothing is in flight. */
  lemma AcceptIsLegal(c: Client, d: Client, record: Order)
    requires ClientOk(c) && ClientOk(d) && !c.disposed && !d.disposed && (d.flight.Idle? || d.flight.Listing?)
    ensures LegalStep(c, Accepted(d, record), None)
  {
  }

  /** Remembering a record, or nothing, without touching the intent. */
  lemma KeepingIsLegal(c: Client, d: Client)
    requires ClientOk(c) && ClientOk(d) && d.disposed == c.disposed && d.intent == c.intent && d.uncertain == c.uncertain
    ensures LegalStep(c, d, None)
  {
  }

  lemma RefreshIsLegal(c: Client, reply: Option<Order>)
    requires ClientOk(c)
    ensures LegalStep(c, Refreshed(c, reply), None)
  {
    var d := c.(refresh := None);
    if c.refresh.Some? && Refreshed(c, reply) != d && Refreshed(c, reply) == Accepted(d, reply.value) {
      AcceptIsLegal(c, d, reply.value);
    } else {
      KeepingIsLegal(c, Refreshed(c, reply));
    }
  }

  lemma LoadIsLegal(c: Client, load: Load, record: Option<Order>)
    requires ClientOk(c)
    ensures LegalStep(c, Loaded(c, load, record), None)
  {
    if load in c.loads {
      var d := c.(loads := c.loads - {load}, loading := c.loading && load.epoch != c.epoch);
      assert ClientOk(d);
      var e := Loaded(c, load, record);
      if record.Some? && !c.disposed && load.epoch == c.epoch && e == Accepted(d, record.value) {
        AcceptIsLegal(c, d, record.value);
      } else {
        KeepingIsLegal(c, e);
      }
    }
  }

  lemma OpenIsLegal(c: Client, id: OrderId)
    requires ClientOk(c)
    ensures LegalStep(c, OpenStarted(c, id), None)
  {
    KeepingIsLegal(c, OpenStarted(c, id));
  }

  lemma ReloadIsLegal(c: Client)
    requires ClientOk(c)
    ensures LegalStep(c, ReloadStarted(c), None)
  {
    KeepingIsLegal(c, ReloadStarted(c));
  }

  lemma AdoptionIsLegal(c: Client, confirmed: bool)
    requires ClientOk(c)
    ensures LegalStep(c, AdoptionStarted(c, confirmed), None)
  {
    KeepingIsLegal(c, AdoptionStarted(c, confirmed));
  }

  lemma StartsAreLegal(c: Client)
    requires ClientOk(c)
    ensures LegalStep(c, ControlStarted(c), None) && LegalStep(c, RefreshStarted(c), None)
  {
    KeepingIsLegal(c, ControlStarted(c));
    KeepingIsLegal(c, RefreshStarted(c));
  }

  lemma EditsAreLegal(c: Client, plan: Plan, rebind: bool, eligible: bool)
    requires ClientOk(c)
    ensures LegalStep(c, Edited(c, plan), None) && LegalStep(c, Rebound(c, rebind, eligible), None)
  {
    KeepingIsLegal(c, Edited(c, plan));
    KeepingIsLegal(c, Rebound(c, rebind, eligible));
  }

  lemma DiscardIsLegal(c: Client)
    requires ClientOk(c)
    ensures LegalStep(c, Discarded(c), None)
  {
    if Free(c) && !c.uncertain && c.selected.Some? {
      AcceptIsLegal(c, c, c.selected.value);
    } else {
      KeepingIsLegal(c, Discarded(c));
    }
  }

  lemma ControlIsLegal(c: Client, record: Option<Order>)
    requires ClientOk(c)
    ensures LegalStep(c, Controlled(c, record), None)
  {
    if c.flight.Controlling? && record.Some? && !c.disposed {
      AcceptIsLegal(c, c.(flight := Listing), record.value);
    } else {
      KeepingIsLegal(c, Controlled(c, record));
    }
  }

  predicate Sender(e: Event) {
    e.DoSave? || e.DoActivate? || e.DoRetry? || e.DoContext?
  }

  predicate Answered(e: Event) {
    e.DoReply? || e.DoRefreshed? || e.DoLoaded? || e.DoControlled?
  }

  lemma SenderIsLegal(c: Client, key: Key, e: Event)
    requires ClientOk(c) && Sender(e)
    ensures LegalStep(c, ClientStep(c, key, e).0, ClientStep(c, key, e).1)
  {
    match e {
      case DoSave(valid) => SaveIsLegal(c, valid, key);
      case DoActivate(settings, includeContext) => ActivateIsLegal(c, settings, includeContext);
      case DoRetry(valid) =>
        SaveIsLegal(c, valid, key);
        if Free(c) && c.uncertain { LaunchIsLegal(c); }
      case DoContext(context) => ContextIsLegal(c, context);
    }
  }

  lemma AnswerIsLegal(c: Client, key: Key, e: Event)
    requires ClientOk(c) && Answered(e)
    ensures LegalStep(c, ClientStep(c, key, e).0, ClientStep(c, key, e).1)
  {
    match e {
      case DoReply(reply) => ReplyIsLegal(c, reply);
      case DoRefreshed(reply) => RefreshIsLegal(c, reply);
      case DoLoaded(load, record) => LoadIsLegal(c, load, record);
      case DoControlled(record) => ControlIsLegal(c, record);
    }
  }

  predicate Starter(e: Event) {
    e.DoOpen? || e.DoFresh? || e.DoAdopt? || e.DoReload? || e.DoRefresh? || e.DoControl?
  }

  lemma StarterIsLegal(c: Client, key: Key, e: Event)
    requires ClientOk(c) && Starter(e)
    ensures LegalStep(c, ClientStep(c, key, e).0, ClientStep(c, key, e).1)
  {
    match e {
      case DoOpen(id) => OpenIsLegal(c, id);
      case DoFresh => KeepingIsLegal(c, Fresh(c));
      case DoAdopt(confirmed) => AdoptionIsLegal(c, confirmed);
      case DoReload => ReloadIsLegal(c);
      case DoRefresh => StartsAreLegal(c);
      case DoControl => StartsAreLegal(c);
    }
  }

  lemma UiStepIsLegal(c: Client, key: Key, e: Event)
    requires ClientOk(c) && !Sender(e) && !Answered(e) && !Starter(e)
    ensures LegalStep(c, ClientStep(c, key, e).0, ClientStep(c, key, e).1)
  {
    match e {
      case DoDiscard => DiscardIsLegal(c);
      case DoEdit(plan) => EditsAreLegal(c, plan, false, false);
      case DoRebind(rebind, eligible) => EditsAreLegal(c, "", rebind, eligible);
      case SetClosing(closing) => KeepingIsLegal(c, c.(closing := closing));
      case ListDone => KeepingIsLegal(c, if c.flight.Listing? then c.(flight := Idle) else c);
      case Dispose =>
      case _ => KeepingIsLegal(c, c);
    }
  }

  lemma ClientStepIsLegal(c: Client, key: Key, e: Event)
    requires ClientOk(c)
    ensures LegalStep(c, ClientStep(c, key, e).0, ClientStep(c, key, e).1)
  {
    if Sender(e) {
      SenderIsLegal(c, key, e);
    } else if Answered(e) {
      AnswerIsLegal(c, key, e);
    } else if Starter(e) {
      StarterIsLegal(c, key, e);
    } else {
      UiStepIsLegal(c, key, e);
    }
  }

  lemma QuietStepKeepsSends(c: Client, d: Client, before: nat, after: nat, sends: seq<Sent>)
    requires SendsOk(c, before, sends) && IntentStep(c, d, None)
    requires after == if c.intent.None? && d.intent.Some? then before + 1 else before
    ensures SendsOk(d, after, sends)
  {
  }

  lemma SendStepKeepsSends(c: Client, d: Client, before: nat, after: nat, sends: seq<Sent>, request: Request)
    requires SendsOk(c, before, sends) && IntentStep(c, d, Some(request))
    requires after == if c.intent.None? && d.intent.Some? then before + 1 else before
    ensures SendsOk(d, after, sends + [Sent(request, after)])
  {
    var longer := sends + [Sent(request, after)];
    assert forall i | 0 <= i < |sends| :: longer[i] == sends[i];
  }

  lemma LegalStepKeepsSends(s: Sys, step: (Client, Option<Request>))
    requires SendsOk(s.client, s.serial, s.sends) && IntentStep(s.client, step.0, step.1)
    ensures var t := Stepped(s, step); SendsOk(t.client, t.serial, t.sends) && s.sends <= t.sends
  {
    var t := Stepped(s, step);
    match step.1 {
      case Some(request) => SendStepKeepsSends(s.client, step.0, s.serial, t.serial, s.sends, request);
      case None => QuietStepKeepsSends(s.client, step.0, s.serial, t.serial, s.sends);
    }
  }

  lemma SpentStays(before: Server, after: Server, r: Request)
    requires Spent(before, r)
    requires before.created.Keys <= after.created.Keys
    requires forall id | id in before.orders ::
               && id in after.orders && before.orders[id].revision <= after.orders[id].revision
               && (after.orders[id].draft ==> before.orders[id].draft)
    ensures Spent(after, r)
  {
  }

  lemma EffectSpends(server: Server, r: Request, freshId: OrderId)
    requires Effect(server, r, freshId).Some?
    ensures !Spent(server, r) && Spent(Effect(server, r, freshId).value, r)
    ensures forall q :: Spent(server, q) ==> Spent(Effect(server, r, freshId).value, q)
  {
    var after := Effect(server, r, freshId).value;
    forall q | Spent(server, q) ensures Spent(after, q) {
      SpentStays(server, after, q);
    }
  }

  lemma ServeKeeps(s: Sys, i: nat, refuse: bool, freshId: OrderId)
    requires EffectsOk(s) && SendsOk(s.client, s.serial, s.sends)
    ensures EffectsOk(Apply(s, Serve(i, refuse, freshId)))
  {
    if i < |s.sends| && !refuse && Effect(s.server, s.sends[i].request, freshId).Some? {
      EffectSpends(s.server, s.sends[i].request, freshId);
      forall k | 0 <= k < |s.effects| ensures s.sends[s.effects[k]].serial != s.sends[i].serial {
        assert s.sends[s.effects[k]].request != s.sends[i].request;
      }
    }
  }

  lemma ForeignKeeps(s: Sys, changed: Order)
    requires EffectsOk(s)
    ensures EffectsOk(Apply(s, Foreign(changed)))
  {
    var t := Apply(s, Foreign(changed));
    forall k | 0 <= k < |s.effects| ensures Spent(t.server, s.sends[s.effects[k]].request) {
      SpentStays(s.server, t.server, s.sends[s.effects[k]].request);
    }
  }

  lemma LegalStepKeeps(s: Sys, step: (Client, Option<Request>))
    requires Inv(s) && LegalStep(s.client, step.0, step.1)
    ensures Inv(Stepped(s, step))
  {
    LegalStepKeepsSends(s, step);
  }

  lemma StepKeeps(s: Sys, e: Event)
    requires Inv(s)
    ensures Inv(Apply(s, e))
  {
    if e.Serve? {
      ServeKeeps(s, e.send, e.refuse, e.freshId);
    } else if e.Foreign? {
      ForeignKeeps(s, e.changed);
    } else {
      ClientStepIsLegal(s.client, s.nextKey, e);
      LegalStepKeeps(s, ClientStep(s.client, s.nextKey, e));
    }
  }

  lemma {:induction false} ReachableInv(es: seq<Event>)
    ensures Inv(Exec(es))
  {
    if es != [] {
      ReachableInv(es[..|es| - 1]);
      StepKeeps(Exec(es[..|es| - 1]), es[|es| - 1]);
    }
  }

  // ----- main results -----

  /** Every resend of one intent is the same request: same order, revision, plan or settings, context
      and key. */
  lemma ResendsAreIdentical(es: seq<Event>, i: nat, j: nat)
    requires i < |Exec(es).sends| && j < |Exec(es).sends| && Exec(es).sends[i].serial == Exec(es).sends[j].serial
    ensures Exec(es).sends[i].request == Exec(es).sends[j].request
  {
    ReachableInv(es);
  }

  /** While an intent is unknown, the only thing that can be sent is that same request again. */
  lemma UnknownAllowsOnlyItsOwnResend(es: seq<Event>, e: Event)
    requires var s := Exec(es); s.client.uncertain && !s.client.disposed
    requires |Apply(Exec(es), e).sends| > |Exec(es).sends|
    ensures var s, t := Exec(es), Apply(Exec(es), e);
            |s.sends| > 0 && t.sends == s.sends + [s.sends[|s.sends| - 1]] && t.serial == s.serial
  {
    ReachableInv(es);
    ReachableInv(es + [e]);
    assert (es + [e])[..|es|] == es;
    ClientStepIsLegal(Exec(es).client, Exec(es).nextKey, e);
  }

  /** What settles an unknown intent: a record that matches it, or an explicitly confirmed adoption of
      a record that conflicts with it. */
  predicate Evidence(c: Client, e: Event) {
    c.intent.Some? &&
    match e
    case DoReply(reply) => reply.Ok? && Matches(reply.value, c.intent.value)
    case DoRefreshed(record) => record.Some? && Matches(record.value, c.intent.value)
    case DoLoaded(Reload(_, _), record) => record.Some? && Matches(record.value, c.intent.value)
    case DoLoaded(Adoption(intent, _), record) =>
      c.intent == Some(intent) && record.Some? && IsConflict(record.value, intent)
    case _ => false
  }

  lemma StepEndsUnknown(c: Client, key: Key, e: Event)
    requires ClientOk(c) && c.uncertain && !c.disposed && !ClientStep(c, key, e).0.uncertain
    ensures Evidence(c, e)
  {
    if Sender(e) {
      SendersKeepUnknown(c, key, e);
    } else if !Answered(e) {
      UiKeepsUnknown(c, key, e);
    } else {
      match e {
        case DoLoaded(load, record) => LoadEndsUnknown(c, load, record);
        case DoReply(reply) => ReplyEndsUnknown(c, reply);
        case DoRefreshed(reply) => RefreshEndsUnknown(c, reply);
        case DoControlled(_) =>
      }
    }
  }

  lemma ClientMoves(s: Sys, e: Event)
    ensures Apply(s, e).client == ClientStep(s.client, s.nextKey, e).0
  {
  }

  /** The unknown state ends by evidence only. */
  lemma UnknownEndsOnlyByEvidence(es: seq<Event>, e: Event)
    requires Exec(es).client.uncertain && !Exec(es).client.disposed && !Apply(Exec(es), e).client.uncertain
    ensures Evidence(Exec(es).client, e)
  {
    var s := Exec(es);
    ReachableInv(es);
    ClientMoves(s, e);
    StepEndsUnknown(s.client, s.nextKey, e);
  }

  lemma ReplyEndsUnknown(c: Client, reply: Result<Order, Error>)
    requires ClientOk(c) && c.uncertain && !c.disposed && !Replied(c, reply).uncertain
    ensures c.intent.Some? && reply.Ok? && Matches(reply.value, c.intent.value)
  {
  }

  lemma RefreshEndsUnknown(c: Client, reply: Option<Order>)
    requires ClientOk(c) && c.uncertain && !c.disposed && !Refreshed(c, reply).uncertain
    ensures c.intent.Some? && reply.Some? && Matches(reply.value, c.intent.value)
  {
  }

  lemma LoadEndsUnknown(c: Client, load: Load, record: Option<Order>)
    requires ClientOk(c) && c.uncertain && !c.disposed && !Loaded(c, load, record).uncertain
    ensures c.intent.Some? && record.Some? &&
            match load
            case Opening(_, _) => false
            case Reload(_, _) => Matches(record.value, c.intent.value)
            case Adoption(intent, _) => c.intent == Some(intent) && IsConflict(record.value, intent)
  {
  }

  lemma SendersKeepUnknown(c: Client, key: Key, e: Event)
    requires ClientOk(c) && c.uncertain && !c.disposed && Sender(e)
    ensures ClientStep(c, key, e).0.uncertain
  {
  }

  lemma UiKeepsUnknown(c: Client, key: Key, e: Event)
    requires ClientOk(c) && c.uncertain && !c.disposed && !Sender(e) && !Answered(e)
    ensures ClientStep(c, key, e).0.uncertain
  {
  }

  // ----- what counts as evidence -----

  /** The binding a revision is listed with is the first listed one. */
  lemma {:induction false} BindingAtFinds(bindings: seq<Binding>, revision: nat, i: nat)
    requires i <= |bindings| && (forall j | 0 <= j < i :: bindings[j].revision != revision)
    requires i < |bindings| ==> bindings[i].revision == revision
    ensures BindingAt(bindings, revision) == if i < |bindings| then Some(bindings[i]) else None
    decreases i
  {
    if i > 0 { BindingAtFinds(bindings[1..], revision, i - 1); }
  }

  /** What `b` is bound to: its base revision, its descriptor and its capture. */
  predicate SameBinding(a: Option<Binding>, b: Option<Binding>) {
    (a.Some? <==> b.Some?) &&
    (a.Some? ==> a.value.boundRevision == b.value.boundRevision && a.value.descriptor == b.value.descriptor && a.value.capture == b.value.capture)
  }

  /** The record is the outcome of a save: the saved plan, as a new order or as the very next revision
      of the target.  A rebinding save shows its own context, bound at that revision; any other save
      shows the binding and the context it carried along. */
  predicate ShowsSave(record: Order, i: Intent)
    requires i.SaveIntent?
  {
    var bound := BindingAt(record.bindings, record.revision);
    var context := if record.execution.Some? then record.execution.value.context else None;
    && record.plan == i.plan
    && (i.target.None? ==> record.revision >= 1)
    && (i.target.Some? ==>
          && record.id == i.target.value && record.revision == i.revision + 1
          && (if i.rebind then
                && bound.Some? && bound.value.boundRevision == i.revision + 1
                && i.context == Some(bound.value.descriptor) == context
              else
                && SameBinding(bound, i.carried)
                && context == (if i.carried.Some? then Some(i.carried.value.descriptor) else None)))
  }

  /** The record is the outcome of an activation: the order left its draft at that revision, with the
      settings asked for, a frozen profile, and the context bound at that revision or no binding. */
  predicate ShowsActivation(record: Order, i: Intent)
    requires i.ActivationIntent?
  {
    var bound := BindingAt(record.bindings, i.revision);
    && record.id == i.id && record.revision == i.revision && !record.draft && record.frozenProfile && record.execution.Some?
    && var actual := record.execution.value;
    && actual.profile.Some? && (i.settings.profile == None || i.settings.profile == actual.profile)
    && actual.effort == i.settings.effort && actual.deadline == i.settings.deadline
    && actual.permissions == i.settings.permissions && actual.context == i.settings.context
    && (i.settings.context.None? ==> bound.None?)
    && (i.settings.context.Some? ==>
          bound.Some? && bound.value.boundRevision == i.revision && bound.value.descriptor == i.settings.context.value)
  }

  predicate Shows(record: Order, i: Intent) {
    if i.SaveIntent? then ShowsSave(record, i) else ShowsActivation(record, i)
  }

  lemma MatchIsShown(record: Order, i: Intent)
    requires i.prepared && i.sent
    ensures Matches(record, i) <==> Shows(record, i)
  {
  }

  /** The client after taking over a record: it shows the record, edits its plan from its revision, and
      has no intent and no edits left. */
  predicate TookOver(c: Client, record: Order) {
    && c.selected == Some(record) && c.draft == record.plan && c.base == record.revision
    && !c.dirty && !c.rebind && !c.uncertain && !c.conflict && c.intent.None?
  }

  /** The client after a confirmed adoption of a record that shows something else. */
  predicate Adopted(i: Intent, e: Event, record: Order) {
    && e.DoLoaded? && e.load.Adoption? && e.load.intent == i
    && (if i.SaveIntent? then i.target == Some(record.id) else i.id == record.id)
    && (record.revision > i.revision || (i.ActivationIntent? && !record.draft))
  }

  predicate EndsShown(c: Client, e: Event, after: Client) {
    && c.intent.Some? && after.selected.Some? && TookOver(after, after.selected.value)
    && (Shows(after.selected.value, c.intent.value) || Adopted(c.intent.value, e, after.selected.value))
  }

  lemma ReplyEndsShown(c: Client, e: Event)
    requires ClientOk(c) && c.uncertain && !c.disposed && e.DoReply? && !Replied(c, e.reply).uncertain
    ensures EndsShown(c, e, Replied(c, e.reply))
  {
    ReplyEndsUnknown(c, e.reply);
    MatchIsShown(e.reply.value, c.intent.value);
  }

  lemma RefreshEndsShown(c: Client, e: Event)
    requires ClientOk(c) && c.uncertain && !c.disposed && e.DoRefreshed? && !Refreshed(c, e.answer).uncertain
    ensures EndsShown(c, e, Refreshed(c, e.answer))
  {
    RefreshEndsUnknown(c, e.answer);
    MatchIsShown(e.answer.value, c.intent.value);
    assert Refreshed(c, e.answer) == Accepted(c.(refresh := None), e.answer.value);
  }

  lemma LoadEndsShown(c: Client, e: Event)
    requires ClientOk(c) && c.uncertain && !c.disposed && e.DoLoaded? && !Loaded(c, e.load, e.record).uncertain
    ensures EndsShown(c, e, Loaded(c, e.load, e.record))
  {
    LoadEndsUnknown(c, e.load, e.record);
    MatchIsShown(e.record.value, c.intent.value);
  }

  lemma StepEndsShown(c: Client, key: Key, e: Event)
    requires ClientOk(c) && c.uncertain && !c.disposed && !ClientStep(c, key, e).0.uncertain
    ensures EndsShown(c, e, ClientStep(c, key, e).0)
  {
    StepEndsUnknown(c, key, e);
    match e {
      case DoReply(_) => ReplyEndsShown(c, e);
      case DoRefreshed(_) => RefreshEndsShown(c, e);
      case DoLoaded(_, _) => LoadEndsShown(c, e);
      case _ =>
    }
  }

  /** An unknown intent ends in one of two ways.  Either the client takes over a record that shows the
      outcome of exactly that save or activation; or it takes over, after a confirmed adoption, a
      record of the same order that shows something else and is past the intent's revision, or is
      activated. */
  lemma UnknownEndsShown(es: seq<Event>, e: Event)
    requires Exec(es).client.uncertain && !Exec(es).client.disposed && !Apply(Exec(es), e).client.uncertain
    ensures EndsShown(Exec(es).client, e, Apply(Exec(es), e).client)
  {
    var s := Exec(es);
    ReachableInv(es);
    ClientMoves(s, e);
    StepEndsShown(s.client, s.nextKey, e);
  }

  /** A reply that shows the outcome of the sent intent is taken over at once, known or unknown. */
  lemma ShownReplyEnds(es: seq<Event>, record: Order)
    requires var c := Exec(es).client; c.flight.Sending? && c.intent.Some? && !c.disposed && Shows(record, c.intent.value)
    ensures var after := Apply(Exec(es), DoReply(Ok(record))).client; TookOver(after, record) && after.flight.Listing?
  {
    ReachableInv(es);
    MatchIsShown(record, Exec(es).client.intent.value);
  }

  /** So is a current refresh that shows it, while the intent is unknown ... */
  lemma RefreshTakesOver(c: Client, record: Order)
    requires ClientOk(c) && c.uncertain && !c.disposed && c.selected.Some? && record.id == c.selected.value.id
    requires c.refresh == Some(Reading(record.id, c.epoch)) && c.intent.Some? && Shows(record, c.intent.value)
    ensures TookOver(Refreshed(c, Some(record)), record)
  {
    MatchIsShown(record, c.intent.value);
    assert Refreshed(c, Some(record)) == Accepted(c.(refresh := None), record);
  }

  /** ... and a reload that was started for it. */
  lemma ReloadTakesOver(c: Client, record: Order, load: Load)
    requires ClientOk(c) && c.uncertain && !c.disposed && c.intent.Some? && Shows(record, c.intent.value)
    requires load == Reload(c.intent.value, c.epoch) && load in c.loads
    ensures TookOver(Loaded(c, load, Some(record)), record)
  {
    MatchIsShown(record, c.intent.value);
  }

  // ----- what an intent pins -----

  /** A save starts exactly from an idle, known client without a pinned intent, with a valid draft based
      on the shown revision.  It pins the edited plan, the shown order and its revision, the fresh key
      and the binding carried along; a save that needs no context is sent at once. */
  lemma SavePins(c: Client, valid: bool, key: Key)
    requires c.intent.None?
    ensures var (d, send) := Saved(c, valid, key);
            if && c.flight.Idle? && !c.closing && !c.disposed && !c.loading && valid
               && (c.selected.Some? ==> c.base == c.selected.value.revision)
            then
              && d.intent.Some? && d.intent.value.SaveIntent?
              && var i := d.intent.value;
              && i.plan == c.draft && i.key == key && i.rebind == c.rebind && i.prepared == !c.rebind && i.context.None?
              && i.revision == c.base && i.target == (if c.selected.Some? then Some(c.selected.value.id) else None)
              && i.carried == (if c.selected.Some? then BindingAt(c.selected.value.bindings, c.base) else None)
              && d.epoch == c.epoch + 1
              && (if c.rebind then send.None? && d.flight.Preparing? && !i.sent
                  else
                    && d.flight.Sending? && i.sent
                    && send == Some(if c.selected.None? then Create(c.draft, key)
                                    else Revise(c.selected.value.id, c.base, c.draft, None)))
            else d == c && send.None?
  {
  }

  /** An activation starts exactly for a shown draft without edits, from an idle, known client.  It pins
      the shown order and revision and the given settings; the context is filled in later, if wanted. */
  lemma ActivationPins(c: Client, settings: Settings, includeContext: bool)
    ensures var (d, send) := Activated(c, settings, includeContext);
            if && c.selected.Some? && c.selected.value.draft && c.flight.Idle? && !c.closing && !c.disposed && !c.loading
               && !c.dirty && !c.rebind && !c.uncertain && c.intent.None?
            then
              && d.intent.Some? && d.intent.value.ActivationIntent?
              && var i := d.intent.value;
              && i.id == c.selected.value.id && i.revision == c.selected.value.revision
              && i.settings == Settings(settings.profile, settings.effort, settings.deadline, settings.permissions, None)
              && i.prepared == !includeContext && d.epoch == c.epoch + 1
              && (if includeContext then send.None? && d.flight.Preparing? && !i.sent
                  else d.flight.Sending? && i.sent && send == Some(Activate(i.id, i.revision, i.settings)))
            else d == c && send.None?
  {
  }

  /** A prepared context changes nothing of the pinned intent but the context, and then it is sent as
      what it is; a failed one, or one that comes after closing or disposal, sends nothing. */
  lemma ContextCompletes(c: Client, context: Option<Descriptor>)
    requires ClientOk(c) && c.flight.Preparing? && c.intent.Some?
    ensures var (d, send) := ContextReady(c, context);
            if context.Some? && !c.closing && !c.disposed then
              && d.flight.Sending? && d.intent.Some? && d.intent.value.sent && d.intent.value.prepared
              && match c.intent.value
                 case SaveIntent(plan, target, revision, key, rebind, _, carried, _, _) =>
                   && d.intent.value == SaveIntent(plan, target, revision, key, rebind, context, carried, true, true)
                   && send == Some(if target.None? then Create(plan, key) else Revise(target.value, revision, plan, context))
                 case ActivationIntent(id, revision, settings, _, _) =>
                   && d.intent.value.ActivationIntent? && d.intent.value.id == id && d.intent.value.revision == revision
                   && d.intent.value.settings == Settings(settings.profile, settings.effort, settings.deadline, settings.permissions, context)
                   && send == Some(Activate(id, revision, d.intent.value.settings))
            else send.None? && d.flight.Idle? && (!c.disposed ==> d.intent.None? && !d.uncertain)
  {
  }

  /** How a failed request ends: a refusal of a first send forgets the intent; any other failure keeps
      it, unknown, to be repeated or settled by evidence. */
  lemma FailureKeepsOrForgets(c: Client, e: Error)
    requires ClientOk(c) && c.flight.Sending? && c.intent.Some? && !c.disposed
    ensures var d := Replied(c, Err(e));
            && d.flight.Idle? && d.selected == c.selected && d.draft == c.draft
            && (if !c.uncertain && e.Http? && (e.status == 400 || e.status == 404 || e.status == 409 || e.status == 422)
                then d.intent.None? && !d.uncertain && !d.conflict
                else d.intent == c.intent && d.uncertain && d.conflict == c.conflict)
  {
  }

  /** A record that does not show the outcome is a failure of the same kind, and is not taken over. */
  lemma OtherReplyIsUnknown(es: seq<Event>, record: Order)
    requires var c := Exec(es).client; c.flight.Sending? && c.intent.Some? && !c.disposed && !Shows(record, c.intent.value)
    ensures var c, d := Exec(es).client, Apply(Exec(es), DoReply(Ok(record))).client;
            d.flight.Idle? && d.uncertain && d.intent == c.intent && d.selected == c.selected && d.draft == c.draft
  {
    ReachableInv(es);
    MatchIsShown(record, Exec(es).client.intent.value);
  }

  lemma RetryLaunches(c: Client, valid: bool, key: Key)
    requires ClientOk(c) && c.uncertain && c.flight.Idle? && !c.closing && !c.disposed && !c.loading
    ensures RetriedPending(c, valid, key) == (c.(epoch := c.epoch + 1, flight := Sending(true)), Some(RequestOf(c.intent.value)))
  {
  }

  /** An unknown intent can be repeated from an idle client, unless it is closing or loading. */
  lemma RetryResends(es: seq<Event>, valid: bool)
    requires var c := Exec(es).client; c.uncertain && c.flight.Idle? && !c.closing && !c.disposed && !c.loading
    ensures var s, t := Exec(es), Apply(Exec(es), DoRetry(valid));
            && |s.sends| > 0 && t.sends == s.sends + [s.sends[|s.sends| - 1]]
            && t.client == s.client.(epoch := s.client.epoch + 1, flight := Sending(true))
  {
    var s := Exec(es);
    ReachableInv(es);
    RetryLaunches(s.client, valid, s.nextKey);
    assert Apply(s, DoRetry(valid)) == Stepped(s, RetriedPending(s.client, valid, s.nextKey));
    assert s.sends[|s.sends| - 1] == Sent(RequestOf(s.client.intent.value), s.serial);
  }

  /** One intent changes the compare-and-set server at most once, however often and however late its
      requests are delivered and whatever other clients do. */
  lemma OneIntentOneEffect(es: seq<Event>, k: nat, l: nat)
    requires k < l < |Exec(es).effects|
    ensures var s := Exec(es);
            s.effects[k] < |s.sends| && s.effects[l] < |s.sends| && s.sends[s.effects[k]].serial != s.sends[s.effects[l]].serial
  {
    ReachableInv(es);
  }
}
