/** What the remaining acts and replies of the work-order controller do, field by field, and exactly
    when: opening, reloading, adopting, editing, rebinding, starting afresh, discarding, controlling. */
module WorkOrderLaws {
  import opened Basics
  import opened WorkOrderIntents

  /** Nothing is in flight or loading, and the controller is not going away. */
  predicate Ready(c: Client) {
    c.flight.Idle? && !c.closing && !c.disposed && !c.loading
  }

  /** The order an intent is about, if it has one already. */
  predicate HasOrder(i: Intent) {
    i.ActivationIntent? || i.target != None
  }

  /** Opening another order needs no edits and nothing unknown or in flight; it fences earlier loads. */
  lemma OpenLoads(c: Client, id: OrderId)
    ensures OpenStarted(c, id) ==
            if !c.disposed && !c.dirty && !c.rebind && c.flight.Idle? && !c.closing && !c.uncertain
            then c.(epoch := c.epoch + 1, loading := true, loads := c.loads + {Opening(id, c.epoch + 1)})
            else c
  {
  }

  /** Reading the order of an unknown intent, and a confirmed adoption of a known conflict. */
  lemma RecoveryLoads(c: Client, confirmed: bool)
    ensures ReloadStarted(c) ==
            (if Ready(c) && c.intent.Some? && HasOrder(c.intent.value)
             then c.(loading := true, loads := c.loads + {Reload(c.intent.value, c.epoch)}) else c)
    ensures AdoptionStarted(c, confirmed) ==
            (if Ready(c) && confirmed && c.uncertain && c.conflict && c.intent.Some? && HasOrder(c.intent.value)
             then c.(loading := true, loads := c.loads + {Adoption(c.intent.value, c.epoch)}) else c)
  {
  }

  /** A refresh reads the shown order, one at a time. */
  lemma RefreshReads(c: Client)
    ensures RefreshStarted(c) ==
            if Ready(c) && c.refresh.None? && c.selected.Some? then c.(refresh := Some(Reading(c.selected.value.id, c.epoch))) else c
  {
  }

  /** Editing and rebinding change the draft and its marks only, from a ready client without anything
      unknown; a draft that equals the shown plan is not dirty. */
  lemma EditsMark(c: Client, plan: Plan, rebind: bool, eligible: bool)
    ensures Edited(c, plan) ==
            (if Ready(c) && !c.uncertain
             then c.(draft := plan, dirty := !(c.selected.Some? && c.selected.value.plan == plan)) else c)
    ensures Rebound(c, rebind, eligible) ==
            (if !Ready(c) || c.uncertain then c
             else if !rebind then c.(rebind := false)
             else if c.selected.Some? && !c.selected.value.draft && eligible then c.(rebind := true)
             else c)
  {
  }

  /** A fresh draft forgets the shown order; discarding goes back to it, or empties the draft. */
  lemma StartsOver(c: Client)
    ensures Fresh(c) ==
            (if !c.disposed && !c.loading && !c.dirty && !c.rebind && c.flight.Idle? && !c.uncertain && !c.closing
             then c.(epoch := c.epoch + 1, selected := None, draft := "", base := 0) else c)
    ensures var d := Discarded(c);
            if !Ready(c) || c.uncertain then d == c
            else if c.selected.None? then d == c.(draft := "", dirty := false)
            else TookOver(d, c.selected.value) && SameLife(c, d) && d.flight.Idle? && d.loads == c.loads && d.refresh == c.refresh
  {
  }

  /** Nothing of the lifecycle moved. */
  predicate SameLife(c: Client, d: Client) {
    d.closing == c.closing && d.disposed == c.disposed && d.loading == c.loading && d.epoch == c.epoch
  }

  /** Control and retry of an order: one mutation without an intent, whose record is taken over. */
  lemma ControlsTakeOver(c: Client, record: Option<Order>)
    ensures ControlStarted(c) ==
            (if Ready(c) && c.selected.Some? && !c.dirty && !c.rebind && !c.uncertain
             then c.(epoch := c.epoch + 1, flight := Controlling) else c)
    ensures var d := Controlled(c, record);
            if !c.flight.Controlling? then d == c
            else if record.None? || c.disposed then d == c.(flight := Idle)
            else TookOver(d, record.value) && SameLife(c, d) && d.flight.Listing? && d.loads == c.loads && d.refresh == c.refresh
  {
  }

  /** A record of a refresh or a load that is not current, or not of the order asked for, only ends it. */
  predicate OnlyEnds(c: Client, d: Client, ended: Client) {
    d == ended && d.selected == c.selected && d.intent == c.intent && d.draft == c.draft && d.uncertain == c.uncertain
  }

  /** The record meets an intent that it does not show, or edits: it is shown beside them, with the
      conflict it makes, and nothing is taken over. */
  predicate ShownBeside(ended: Client, d: Client, record: Order, conflict: bool) {
    d == ended.(selected := Some(record), conflict := conflict)
  }

  /** A conflict: the same order, past the intent's revision or activated, and not showing the outcome. */
  predicate Conflicts(record: Order, i: Intent) {
    && (if i.SaveIntent? then i.target == Some(record.id) else i.id == record.id)
    && !(i.prepared && i.sent && Shows(record, i))
    && (record.revision > i.revision || (i.ActivationIntent? && !record.draft))
  }

  lemma ConflictMeans(record: Order, i: Intent)
    ensures IsConflict(record, i) <==> Conflicts(record, i)
    ensures Matches(record, i) <==> i.prepared && i.sent && Shows(record, i)
  {
  }

  /** The end of a refresh. */
  lemma RefreshEndsAs(c: Client, reply: Option<Order>)
    requires c.refresh.Some?
    ensures var d, ended := Refreshed(c, reply), c.(refresh := None);
            var id := c.refresh.value.id;
            if !(reply.Some? && !c.disposed && c.refresh.value.epoch == c.epoch && c.selected.Some?
                 && c.selected.value.id == id == reply.value.id)
            then OnlyEnds(c, d, ended)
            else if (c.intent.Some? && c.intent.value.prepared && c.intent.value.sent && Shows(reply.value, c.intent.value))
                    || (!c.dirty && !c.rebind && !c.uncertain)
            then TookOver(d, reply.value) && SameLife(c, d) && d.flight == c.flight && d.loads == c.loads && d.refresh.None?
            else ShownBeside(ended, d, reply.value, if c.intent.Some? then Conflicts(reply.value, c.intent.value) else c.conflict)
  {
    if reply.Some? && c.intent.Some? { ConflictMeans(reply.value, c.intent.value); }
    RefreshResolves(c.(refresh := None), reply);
  }

  lemma RefreshResolves(c: Client, reply: Option<Order>)
    ensures reply.Some? ==>
              var d := RefreshResolved(c, reply.value);
              if (c.intent.Some? && Matches(reply.value, c.intent.value)) || (!c.dirty && !c.rebind && !c.uncertain)
              then d == Accepted(c, reply.value)
              else ShownBeside(c, d, reply.value, if c.intent.Some? then IsConflict(reply.value, c.intent.value) else c.conflict)
  {
  }

  /** The end of a load: an opened order is taken over, a reload is if it shows the intent's outcome and
      shown beside it otherwise, an adoption is if it is a conflict. */
  lemma LoadEndsAs(c: Client, load: Load, record: Option<Order>)
    requires load in c.loads
    ensures var d, ended := Loaded(c, load, record), c.(loads := c.loads - {load}, loading := c.loading && load.epoch != c.epoch);
            if record.None? || c.disposed || load.epoch != c.epoch then OnlyEnds(c, d, ended)
            else match load
              case Opening(id, _) => if record.value.id == id then d == Accepted(ended, record.value) else OnlyEnds(c, d, ended)
              case Reload(i, _) =>
                if c.intent != Some(i) || !(i.SaveIntent? ==> i.target == None || i.target == Some(record.value.id))
                   || !(i.ActivationIntent? ==> i.id == record.value.id)
                then OnlyEnds(c, d, ended)
                else if i.prepared && i.sent && Shows(record.value, i) then d == Accepted(ended, record.value)
                else ShownBeside(ended, d, record.value, Conflicts(record.value, i))
              case Adoption(i, _) =>
                if c.intent == Some(i) && Conflicts(record.value, i) then d == Accepted(ended, record.value) else OnlyEnds(c, d, ended)
  {
    if record.Some? && !load.Opening? { ConflictMeans(record.value, load.intent); }
  }

  /** Taking over a record replaces everything about the order and nothing about the lifecycle. */
  lemma AcceptTakesOver(c: Client, record: Order)
    ensures var d := Accepted(c, record);
            TookOver(d, record) && SameLife(c, d) && d.flight == c.flight && d.loads == c.loads && d.refresh == c.refresh
  {
  }

  /** What a repeated intent sends, and when. */
  lemma RetryDoes(c: Client, valid: bool, key: Key)
    requires ClientOk(c) && !c.disposed
    ensures var (d, send) := RetriedPending(c, valid, key);
            if c.uncertain && Ready(c) then
              send == Some(RequestOf(c.intent.value)) && d == c.(epoch := c.epoch + 1, flight := Sending(true))
            else d == c && send.None?
  {
  }
}
