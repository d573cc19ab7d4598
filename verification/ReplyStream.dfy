/** The conversation's live reply (frontend/src/replyStream.ts): history replays, live replays and a
    stream feed one list of rows per run, across restarts and conversation switches. */
module ReplyStream {
  import opened Basics
  import opened EventLog
  import opened ReplyRows

  type Entry = Item<Body>

  const MAX_SAFE: nat := 0x1F_FFFF_FFFF_FFFF
  const PAGE: nat := 500

  /** What a replay asks for: the page of a run after a number.  A history replay goes on with the
      remaining ids, a live replay with the stream. */
  datatype Ask =
    | History(run: string, rest: seq<string>, epoch: nat, before: nat)
    | Live(run: string, epoch: nat, before: nat)

  datatype Stream = Stream(id: nat, run: string, epoch: nat, after: nat)

  /** What is shown, per run, and how far each run's log has been received. */
  datatype Shown = Shown(cursors: map<string, nat>, activities: map<string, seq<Row>>)

  datatype Client = Client(shown: Shown, conversation: string, owner: Option<(string, string)>, epoch: nat, conversationEpoch: nat,
                           histories: set<string>, loading: set<string>, stream: Option<nat>, streams: nat, aborted: set<nat>,
                           refreshing: bool, disposed: bool)

  const NEW := Client(Shown(map[], map[]), "", None, 0, 0, {}, {}, None, 0, {}, false, false)

  function Cursor(v: Shown, run: string): nat {
    if run in v.cursors then v.cursors[run] else 0
  }

  function Activity(v: Shown, run: string): seq<Row> {
    if run in v.activities then v.activities[run] else []
  }

  // ----- receiving -----

  function Received(v: Shown, item: Entry, run: string): Shown {
    if item.run != run || item.number > MAX_SAFE || item.number <= Cursor(v, run) then v
    else Shown(v.cursors[run := item.number], v.activities[run := Changed(Activity(v, run), item.body)])
  }

  function ReceivedAll(v: Shown, items: seq<Entry>, run: string): Shown
    decreases |items|
  {
    if items == [] then v else ReceivedAll(Received(v, items[0], run), items[1..], run)
  }

  /** Whether replay asks for another page after this one. */
  predicate GoesOn(v: Shown, ask: Ask, items: seq<Entry>) {
    |items| >= PAGE && Cursor(v, ask.run) > ask.before
  }

  // ----- following, restoring, connecting -----

  predicate Valid(c: Client, ask: Ask) {
    !c.disposed && ask.epoch == if ask.History? then c.conversationEpoch else c.epoch
  }

  function Stopped(c: Client): Client {
    c.(epoch := c.epoch + 1, aborted := if c.stream.Some? then c.aborted + {c.stream.value} else c.aborted,
       stream := None, refreshing := false)
  }

  /** The restore loop from its next id on: skip what is loaded or loading, mark and ask the first other. */
  function Restoring(c: Client, ids: seq<string>): (Client, Option<Ask>) {
    if ids == [] then (c, None)
    else if ids[0] in c.histories || ids[0] in c.loading then Restoring(c, ids[1..])
    else (c.(loading := c.loading + {ids[0]}), Some(History(ids[0], ids[1..], c.conversationEpoch, Cursor(c.shown, ids[0]))))
  }

  function Switched(c: Client, conversation: string): Client {
    if conversation == c.conversation then c
    else Stopped(c).(conversationEpoch := c.conversationEpoch + 1, conversation := conversation,
                     shown := Shown(map[], map[]), histories := {}, loading := {})
  }

  function Owned(c: Client, owner: Option<(string, string)>): Client {
    if owner == c.owner then c else Stopped(c).(owner := owner)
  }

  /** follow, up to the first requests of the restore loop and of connect. */
  function Followed(c: Client, conversation: string, run: string, ids: seq<string>, due: bool): (Client, Option<Ask>, Option<Ask>) {
    if c.disposed then (c, None, None)
    else
      var owner := if run == "" then None else Some((conversation, run));
      var (d, history) := Restoring(Owned(Switched(c, conversation), owner), Others(ids, run));
      if owner.Some? && d.stream.None? && !d.refreshing && due then
        (d.(refreshing := true), history, Some(Live(run, d.epoch, Cursor(d.shown, run))))
      else (d, history, None)
  }

  function Others(ids: seq<string>, run: string): seq<string> {
    if ids == [] then [] else if ids[0] == run then Others(ids[1..], run) else [ids[0]] + Others(ids[1..], run)
  }

  /** connect failed or its stream ended. */
  function ConnectEnded(c: Client, epoch: nat): Client {
    if c.disposed || epoch != c.epoch then c else c.(refreshing := false, stream := None)
  }

  datatype Next = Stop | Again(ask: Ask) | Open(stream: Stream)

  /** A replay's page arrived; `None` is a failed request. */
  function PageEnded(c: Client, ask: Ask, page: Option<seq<Entry>>): (Client, Next) {
    if !Valid(c, ask) then (c, Stop)
    else if page.None? then if ask.History? then Unloaded(c, ask, false) else (ConnectEnded(c, ask.epoch), Stop)
    else
      var d := c.(shown := ReceivedAll(c.shown, page.value, ask.run));
      if GoesOn(d.shown, ask, page.value) then (d, Again(ask.(before := Cursor(d.shown, ask.run))))
      else if ask.History? then Unloaded(d, ask, true)
      else
        var (e, stream) := StreamOpened(d, ask.run);
        (e, Open(stream))
  }

  function StreamOpened(c: Client, run: string): (Client, Stream) {
    (c.(stream := Some(c.streams), streams := c.streams + 1), Stream(c.streams, run, c.epoch, Cursor(c.shown, run)))
  }

  /** The end of one id of the restore loop. */
  function Unloaded(c: Client, ask: Ask, complete: bool): (Client, Next)
    requires ask.History?
  {
    var d := c.(histories := if complete then c.histories + {ask.run} else c.histories, loading := c.loading - {ask.run});
    var (e, next) := Restoring(d, ask.rest);
    (e, if next.Some? then Again(next.value) else Stop)
  }

  predicate Listens(c: Client, stream: Stream) {
    !c.disposed && stream.epoch == c.epoch && stream.id !in c.aborted
  }

  function Streamed(c: Client, stream: Stream, item: Entry): Client {
    if Listens(c, stream) then c.(shown := Received(c.shown, item, stream.run)) else c
  }

  function Disposed(c: Client): Client {
    Stopped(c).(disposed := true, conversationEpoch := c.conversationEpoch + 1)
  }

  // ----- the object -----

  class NativeReplyStream {
    var cursors: map<string, nat>
    var activities: map<string, seq<Row>>
    var conversation: string
    var owner: Option<(string, string)>
    var epoch: nat
    var conversationEpoch: nat
    var histories: set<string>
    var loading: set<string>
    var stream: Option<nat>
    var streams: nat
    var aborted: set<nat>
    var refreshing: bool
    var disposed: bool

    ghost function View(): Client
      reads this
    {
      Client(Shown(cursors, activities), conversation, owner, epoch, conversationEpoch, histories, loading,
             stream, streams, aborted, refreshing, disposed)
    }

    constructor ()
      ensures View() == NEW
    {
      cursors, activities, conversation, owner := map[], map[], "", None;
      epoch, conversationEpoch, histories, loading := 0, 0, {}, {};
      stream, streams, aborted, refreshing, disposed := None, 0, {}, false, false;
    }

    method Receive(item: Entry, run: string)
      modifies this`cursors, this`activities
      ensures Shown(cursors, activities) == Received(old(Shown(cursors, activities)), item, run)
    {
      if item.run != run || item.number > MAX_SAFE || item.number <= (if run in cursors then cursors[run] else 0) {
        return;
      }
      cursors := cursors[run := item.number];
      var rows := if run in activities then activities[run] else [];
      var changed := ChangeRow(rows, item.body);
      activities := activities[run := changed];
    }

    method ReceiveAll(items: seq<Entry>, run: string)
      modifies this`cursors, this`activities
      ensures Shown(cursors, activities) == ReceivedAll(old(Shown(cursors, activities)), items, run)
    {
      var i := 0;
      while i < |items|
        invariant i <= |items|
        invariant ReceivedAll(Shown(cursors, activities), items[i..], run) == ReceivedAll(old(Shown(cursors, activities)), items, run)
      {
        assert items[i..][0] == items[i] && items[i..][1..] == items[i + 1..];
        Receive(items[i], run);
        i := i + 1;
      }
      assert items[i..] == [];
    }

    method Halt()
      modifies this`epoch, this`aborted, this`stream, this`refreshing
      ensures View() == Stopped(old(View()))
    {
      epoch := epoch + 1;
      if stream.Some? {
        aborted := aborted + {stream.value};
      }
      stream, refreshing := None, false;
    }

    /** restore, from one id to the next request. */
    method Restore(ids: seq<string>) returns (ask: Option<Ask>)
      modifies this`loading
      ensures (View(), ask) == Restoring(old(View()), ids)
    {
      var i := 0;
      while i < |ids| && (ids[i] in histories || ids[i] in loading)
        invariant i <= |ids|
        invariant Restoring(View(), ids) == Restoring(View(), ids[i..])
      {
        assert ids[i..][1..] == ids[i + 1..];
        i := i + 1;
      }
      if i == |ids| {
        assert ids[i..] == [];
        return None;
      }
      assert ids[i..][1..] == ids[i + 1..];
      ask := Some(History(ids[i], ids[i + 1..], conversationEpoch, if ids[i] in cursors then cursors[ids[i]] else 0));
      loading := loading + {ids[i]};
    }

    method Switch(chosen: string)
      modifies this
      ensures View() == Switched(old(View()), chosen)
    {
      if chosen != conversation {
        Halt();
        conversationEpoch, conversation := conversationEpoch + 1, chosen;
        cursors, histories, loading, activities := map[], {}, {}, map[];
      }
    }

    method SetOwner(chosen: Option<(string, string)>)
      modifies this
      ensures View() == Owned(old(View()), chosen)
    {
      if chosen != owner {
        Halt();
        owner := chosen;
      }
    }

    method Follow(chosen: string, run: string, ids: seq<string>, due: bool) returns (history: Option<Ask>, live: Option<Ask>)
      modifies this
      ensures (View(), history, live) == Followed(old(View()), chosen, run, ids, due)
    {
      history, live := None, None;
      if disposed {
        return;
      }
      Switch(chosen);
      SetOwner(if run == "" then None else Some((chosen, run)));
      history := Restore(Others(ids, run));
      if run != "" && stream.None? && !refreshing && due {
        refreshing := true;
        live := Some(Live(run, epoch, if run in cursors then cursors[run] else 0));
      }
    }

    /** The end of one id of restore, up to the next request. */
    method Unload(ask: Ask, complete: bool) returns (next: Next)
      requires ask.History?
      modifies this
      ensures (View(), next) == Unloaded(old(View()), ask, complete)
    {
      if complete {
        histories := histories + {ask.run};
      }
      loading := loading - {ask.run};
      var more := Restore(ask.rest);
      next := if more.Some? then Again(more.value) else Stop;
    }

    method EndConnect(since: nat)
      modifies this`refreshing, this`stream
      ensures View() == ConnectEnded(old(View()), since)
    {
      if !disposed && since == epoch {
        refreshing, stream := false, None;
      }
    }

    method OpenStream(run: string) returns (opening: Stream)
      modifies this`stream, this`streams
      ensures (View(), opening) == StreamOpened(old(View()), run)
    {
      opening := Stream(streams, run, epoch, if run in cursors then cursors[run] else 0);
      stream, streams := Some(streams), streams + 1;
    }

    /** replay, after a page arrived or failed, up to what is asked or opened next. */
    method FinishPage(ask: Ask, page: Option<seq<Entry>>) returns (next: Next)
      modifies this
      ensures (View(), next) == PageEnded(old(View()), ask, page)
    {
      if disposed || ask.epoch != (if ask.History? then conversationEpoch else epoch) {
        return Stop;
      }
      if page.None? {
        if ask.History? {
          next := Unload(ask, false);
        } else {
          EndConnect(ask.epoch);
          next := Stop;
        }
        return;
      }
      ReceiveAll(page.value, ask.run);
      if |page.value| >= PAGE && (if ask.run in cursors then cursors[ask.run] else 0) > ask.before {
        next := Again(ask.(before := cursors[ask.run]));
      } else if ask.History? {
        next := Unload(ask, true);
      } else {
        var opening := OpenStream(ask.run);
        next := Open(opening);
      }
    }

    /** The stream's callback. */
    method Hear(source: Stream, item: Entry)
      modifies this
      ensures View() == Streamed(old(View()), source, item)
    {
      if !disposed && source.epoch == epoch && source.id !in aborted {
        Receive(item, source.run);
      }
    }

    method Dispose()
      modifies this
      ensures View() == Disposed(old(View()))
    {
      disposed, conversationEpoch := true, conversationEpoch + 1;
      Halt();
    }
  }

  // ----- the reply stream, the log and the network together -----

  datatype Pending = Pending(ask: Ask, page: Option<seq<Entry>>)
  datatype Feed = Feed(stream: Stream, cursor: nat)
  datatype Sys = Sys(client: Client, log: seq<Entry>, asks: seq<Pending>, feeds: seq<Feed>)

  datatype Event =
    | Append(entry: Entry)
    | Follow(conversation: string, run: string, ids: seq<string>, due: bool)
    | Serve(ask: nat, page: seq<Entry>)
    | End(ask: nat, failed: bool)
    | Deliver(feed: nat, item: Entry)
    | Close(feed: nat)
    | Dispose

  const START := Sys(NEW, [], [], [])

  function Added(asks: seq<Pending>, ask: Option<Ask>): seq<Pending> {
    if ask.Some? then asks + [Pending(ask.value, None)] else asks
  }

  /** A page of any size after the asked number; rows of other runs may be mixed in. */
  predicate Page(log: seq<Entry>, ask: Ask, page: seq<Entry>) {
    EventLog.Own(page, ask.run) <= After(EventLog.Own(log, ask.run), ask.before)
  }

  predicate IsNext(log: seq<Entry>, feed: Feed, item: Entry) {
    var later := After(EventLog.Own(log, feed.stream.run), feed.cursor);
    later != [] && item == later[0]
  }

  function Proceeded(s: Sys, step: (Client, Next)): Sys {
    match step.1
    case Stop => s.(client := step.0)
    case Again(ask) => s.(client := step.0, asks := s.asks + [Pending(ask, None)])
    case Open(stream) => s.(client := step.0, feeds := s.feeds + [Feed(stream, stream.after)])
  }

  function Apply(s: Sys, e: Event): Sys {
    match e
    case Append(entry) => if LastSeq(s.log) < entry.number <= MAX_SAFE then s.(log := s.log + [entry]) else s
    case Follow(conversation, run, ids, due) =>
      var (d, history, live) := Followed(s.client, conversation, run, ids, due);
      s.(client := d, asks := Added(Added(s.asks, history), live))
    case Serve(i, page) =>
      if i < |s.asks| && s.asks[i].page.None? && Page(s.log, s.asks[i].ask, page) then
        s.(asks := s.asks[i := s.asks[i].(page := Some(page))])
      else s
    case End(i, failed) =>
      if i < |s.asks| then
        var rest := s.(asks := s.asks[..i] + s.asks[i + 1..]);
        Proceeded(rest, PageEnded(s.client, s.asks[i].ask, if failed then None else s.asks[i].page))
      else s
    case Deliver(i, item) =>
      if i >= |s.feeds| then s
      else if IsNext(s.log, s.feeds[i], item) then
        s.(client := Streamed(s.client, s.feeds[i].stream, item), feeds := s.feeds[i := s.feeds[i].(cursor := item.number)])
      else if item.run != s.feeds[i].stream.run then s.(client := Streamed(s.client, s.feeds[i].stream, item))
      else s
    case Close(i) =>
      if i < |s.feeds| then
        s.(client := ConnectEnded(s.client, s.feeds[i].stream.epoch), feeds := s.feeds[..i] + s.feeds[i + 1..])
      else s
    case Dispose => s.(client := Disposed(s.client))
  }

  function Exec(es: seq<Event>): Sys {
    if es == [] then START else Apply(Exec(es[..|es| - 1]), es[|es| - 1])
  }

  // ----- invariant -----

  /** Every run's list is the one built from its log up to the run's cursor. */
  ghost predicate Faithful(v: Shown, log: seq<Entry>) {
    forall run: string :: Activity(v, run) == Rows(UpTo(EventLog.Own(log, run), Cursor(v, run))) && Cursor(v, run) <= LastSeq(log)
  }

  ghost predicate LogOk(log: seq<Entry>) {
    Ascending(log) && forall i | 0 <= i < |log| :: log[i].number <= MAX_SAFE
  }

  ghost predicate AskOk(c: Client, log: seq<Entry>, p: Pending) {
    && p.ask.epoch <= (if p.ask.History? then c.conversationEpoch else c.epoch)
    && (p.page.Some? ==> Page(log, p.ask, p.page.value))
    && (Valid(c, p.ask) ==> p.ask.before <= Cursor(c.shown, p.ask.run))
  }

  ghost predicate FeedOk(c: Client, f: Feed) {
    f.stream.epoch <= c.epoch && (Listens(c, f.stream) ==> f.cursor <= Cursor(c.shown, f.stream.run))
  }

  ghost predicate Inv(s: Sys) {
    && LogOk(s.log) && Faithful(s.client.shown, s.log)
    && (forall i | 0 <= i < |s.asks| :: AskOk(s.client, s.log, s.asks[i]))
    && (forall i | 0 <= i < |s.feeds| :: FeedOk(s.client, s.feeds[i]))
  }

  // ----- receiving keeps the lists faithful -----

  /** The list has been taken further, or left alone. */
  ghost predicate Further(v: Shown, w: Shown, log: seq<Entry>) {
    Faithful(w, log) && forall run: string :: Cursor(v, run) <= Cursor(w, run)
  }

  lemma OwnIn(log: seq<Entry>, run: string, k: nat)
    requires LogOk(log) && k < |EventLog.Own(log, run)|
    ensures var item := EventLog.Own(log, run)[k]; item.run == run && item.number <= MAX_SAFE && item.number <= LastSeq(log)
  {
    var item := EventLog.Own(log, run)[k];
    assert item in EventLog.Own(log, run);
    var i :| 0 <= i < |log| && log[i] == item;
    assert i < |log| - 1 ==> log[i].number < log[|log| - 1].number;
  }

  lemma UpToBefore(own: seq<Entry>, cursor: nat, k: nat)
    requires Ascending(own) && k < |own| && own[k].number > cursor
    requires forall i | 0 <= i < k :: own[i].number <= cursor
    ensures UpTo(own, cursor) == own[..k]
  {
    SplitAt(own, cursor, k);
  }

  lemma UpToThrough(own: seq<Entry>, k: nat)
    requires Ascending(own) && k < |own|
    ensures UpTo(own, own[k].number) == own[..k + 1]
  {
    SplitAt(own, own[k].number, k + 1);
  }

  lemma UpToAt(own: seq<Entry>, cursor: nat, k: nat, shorter: seq<Entry>, longer: seq<Entry>)
    requires Ascending(own) && k < |own| && own[k].number > cursor
    requires forall i | 0 <= i < k :: own[i].number <= cursor
    requires shorter == UpTo(own, cursor) && longer == UpTo(own, own[k].number)
    ensures longer == shorter + [own[k]]
  {
    UpToBefore(own, cursor, k);
    UpToThrough(own, k);
  }

  lemma RowsNext(items: seq<Entry>, item: Entry)
    ensures Rows(items + [item]) == Changed(Rows(items), item.body)
  {
    assert (items + [item])[..|items|] == items;
  }

  lemma TakeNext(v: Shown, log: seq<Entry>, run: string, item: Entry)
    requires Faithful(v, log) && Cursor(v, run) < item.number <= LastSeq(log)
    requires UpTo(EventLog.Own(log, run), item.number) == UpTo(EventLog.Own(log, run), Cursor(v, run)) + [item]
    ensures Further(v, Shown(v.cursors[run := item.number], v.activities[run := Changed(Activity(v, run), item.body)]), log)
  {
    var w := Shown(v.cursors[run := item.number], v.activities[run := Changed(Activity(v, run), item.body)]);
    RowsNext(UpTo(EventLog.Own(log, run), Cursor(v, run)), item);
    forall r: string ensures Activity(w, r) == Rows(UpTo(EventLog.Own(log, r), Cursor(w, r))) && Cursor(w, r) <= LastSeq(log) {
      assert Activity(v, r) == Rows(UpTo(EventLog.Own(log, r), Cursor(v, r)));
    }
  }

  lemma ReceiveNext(v: Shown, log: seq<Entry>, run: string, seen: nat, item: Entry)
    requires LogOk(log) && Faithful(v, log) && seen <= Cursor(v, run)
    requires var later := After(EventLog.Own(log, run), seen); later != [] && item == later[0]
    ensures Further(v, Received(v, item, run), log) && item.number <= Cursor(Received(v, item, run), run)
  {
    var own := EventLog.Own(log, run);
    OwnAscending(log, run);
    var k := AfterIsSuffix(own, seen);
    assert item == own[k];
    OwnIn(log, run, k);
    if item.number > Cursor(v, run) {
      UpToAt(own, Cursor(v, run), k, UpTo(own, Cursor(v, run)), UpTo(own, item.number));
      TakeNext(v, log, run, item);
    }
  }

  /** A page of any size that starts inside what has been received, other runs' rows mixed in. */
  lemma {:induction false} ReceivePage(v: Shown, log: seq<Entry>, run: string, seen: nat, page: seq<Entry>)
    requires LogOk(log) && Faithful(v, log) && seen <= Cursor(v, run)
    requires EventLog.Own(page, run) <= After(EventLog.Own(log, run), seen)
    ensures Further(v, ReceivedAll(v, page, run), log)
    ensures forall item | item in EventLog.Own(page, run) :: item.number <= Cursor(ReceivedAll(v, page, run), run)
    decreases |page|
  {
    if page != [] {
      var w := Received(v, page[0], run);
      if page[0].run == run {
        var later := After(EventLog.Own(log, run), seen);
        assert EventLog.Own(page, run)[0] == page[0];
        assert page[0] == later[0];
        ReceiveNext(v, log, run, seen, page[0]);
        AfterFirst(log, run, seen);
        assert EventLog.Own(page[1..], run) == EventLog.Own(page, run)[1..] <= later[1..];
        ReceivePage(w, log, run, page[0].number, page[1..]);
      } else {
        ReceivePage(v, log, run, seen, page[1..]);
      }
    }
  }

  lemma AfterFirst(log: seq<Entry>, run: string, seen: nat)
    requires LogOk(log) && After(EventLog.Own(log, run), seen) != []
    ensures var later := After(EventLog.Own(log, run), seen); After(EventLog.Own(log, run), later[0].number) == later[1..]
  {
    var own := EventLog.Own(log, run);
    OwnAscending(log, run);
    var k := AfterIsSuffix(own, seen);
    SplitAt(own, own[k].number, k + 1);
  }

  // ----- every event keeps the invariant -----

  ghost predicate Forwards(c: Client, d: Client, log: seq<Entry>) {
    && Further(c.shown, d.shown, log) && c.epoch <= d.epoch && c.conversationEpoch <= d.conversationEpoch
    && c.aborted <= d.aborted && (c.disposed ==> d.disposed)
  }

  lemma ForwardsKeeps(s: Sys, d: Client)
    requires Inv(s) && Forwards(s.client, d, s.log)
    ensures Inv(s.(client := d))
  {
    forall i | 0 <= i < |s.asks| ensures AskOk(d, s.log, s.asks[i]) { assert AskOk(s.client, s.log, s.asks[i]); }
    forall i | 0 <= i < |s.feeds| ensures FeedOk(d, s.feeds[i]) { assert FeedOk(s.client, s.feeds[i]); }
  }

  lemma SwitchKeeps(s: Sys, d: Client)
    requires Inv(s) && d.shown == Shown(map[], map[]) && d.epoch > s.client.epoch && d.conversationEpoch > s.client.conversationEpoch
    ensures Inv(s.(client := d))
  {
    forall run: string ensures Activity(d.shown, run) == Rows(UpTo(EventLog.Own(s.log, run), Cursor(d.shown, run))) {
      OwnAscending(s.log, run);
      SplitAt(EventLog.Own(s.log, run), 0, 0);
    }
    forall i | 0 <= i < |s.asks| ensures AskOk(d, s.log, s.asks[i]) { assert AskOk(s.client, s.log, s.asks[i]); }
    forall i | 0 <= i < |s.feeds| ensures FeedOk(d, s.feeds[i]) { assert FeedOk(s.client, s.feeds[i]); }
  }

  /** A request made now asks from where its run has been received to. */
  predicate Made(c: Client, ask: Ask) {
    ask.epoch == (if ask.History? then c.conversationEpoch else c.epoch) && ask.before == Cursor(c.shown, ask.run)
  }

  lemma AddKeeps(s: Sys, ask: Option<Ask>)
    requires Inv(s) && (ask.Some? ==> Made(s.client, ask.value))
    ensures Inv(s.(asks := Added(s.asks, ask)))
  {
  }

  lemma {:induction false} RestoringMakes(c: Client, ids: seq<string>)
    ensures var (d, ask) := Restoring(c, ids);
            && d == c.(loading := d.loading) && (ask.Some? ==> ask.value.History? && Made(d, ask.value))
    decreases |ids|
  {
    if ids != [] && (ids[0] in c.histories || ids[0] in c.loading) {
      RestoringMakes(c, ids[1..]);
    }
  }

  lemma RestoreKeeps(s: Sys, c: Client, ids: seq<string>)
    requires Inv(s.(client := c))
    ensures var (d, history) := Restoring(c, ids); Inv(s.(client := d, asks := Added(s.asks, history)))
  {
    RestoringMakes(c, ids);
    var (d, history) := Restoring(c, ids);
    ForwardsKeeps(s.(client := c), d);
    AddKeeps(s.(client := d), history);
  }

  lemma SelectKeeps(s: Sys, conversation: string, owner: Option<(string, string)>)
    requires Inv(s)
    ensures Inv(s.(client := Owned(Switched(s.client, conversation), owner)))
  {
    var b := Switched(s.client, conversation);
    if conversation != s.client.conversation { SwitchKeeps(s, b); }
    ForwardsKeeps(s.(client := b), Owned(b, owner));
  }

  lemma FollowKeeps(s: Sys, conversation: string, run: string, ids: seq<string>, due: bool)
    requires Inv(s)
    ensures Inv(Apply(s, Follow(conversation, run, ids, due)))
  {
    if !s.client.disposed {
      var c := Owned(Switched(s.client, conversation), if run == "" then None else Some((conversation, run)));
      SelectKeeps(s, conversation, if run == "" then None else Some((conversation, run)));
      RestoreKeeps(s, c, Others(ids, run));
      var (d, history) := Restoring(c, Others(ids, run));
      var after, f := s.(client := d, asks := Added(s.asks, history)), Followed(s.client, conversation, run, ids, due);
      ForwardsKeeps(after, f.0);
      AddKeeps(after.(client := f.0), f.2);
    }
  }

  /** What replay does next is made from the state it leaves. */
  predicate Follows(d: Client, next: Next) {
    match next
    case Stop => true
    case Again(ask) => Made(d, ask)
    case Open(stream) => stream.epoch == d.epoch && stream.after == Cursor(d.shown, stream.run)
  }

  lemma ProceedKeeps(s: Sys, step: (Client, Next))
    requires Inv(s) && Forwards(s.client, step.0, s.log) && Follows(step.0, step.1)
    ensures Inv(Proceeded(s, step))
  {
    ForwardsKeeps(s, step.0);
  }

  lemma UnloadForwards(c: Client, ask: Ask, complete: bool, log: seq<Entry>)
    requires ask.History? && Faithful(c.shown, log)
    ensures var step := Unloaded(c, ask, complete); Forwards(c, step.0, log) && step.0.shown == c.shown && Follows(step.0, step.1)
  {
    var d := c.(histories := if complete then c.histories + {ask.run} else c.histories, loading := c.loading - {ask.run});
    RestoringMakes(d, ask.rest);
  }

  lemma FullPageForwards(c: Client, log: seq<Entry>, ask: Ask, page: seq<Entry>)
    requires LogOk(log) && Faithful(c.shown, log) && Valid(c, ask) && Page(log, ask, page) && ask.before <= Cursor(c.shown, ask.run)
    ensures var step := PageEnded(c, ask, Some(page)); Forwards(c, step.0, log) && Follows(step.0, step.1)
  {
    ReceivePage(c.shown, log, ask.run, ask.before, page);
    var d := c.(shown := ReceivedAll(c.shown, page, ask.run));
    assert Forwards(c, d, log);
    if ask.History? { UnloadForwards(d, ask, true, log); }
  }

  lemma PageForwards(c: Client, log: seq<Entry>, p: Pending, failed: bool)
    requires LogOk(log) && Faithful(c.shown, log) && AskOk(c, log, p)
    ensures var step := PageEnded(c, p.ask, if failed then None else p.page);
            Forwards(c, step.0, log) && Follows(step.0, step.1)
  {
    if Valid(c, p.ask) {
      if !failed && p.page.Some? {
        FullPageForwards(c, log, p.ask, p.page.value);
      } else if p.ask.History? {
        UnloadForwards(c, p.ask, false, log);
      }
    }
  }

  lemma WithoutAskKeeps(s: Sys, i: nat)
    requires Inv(s) && i < |s.asks|
    ensures Inv(s.(asks := s.asks[..i] + s.asks[i + 1..]))
  {
  }

  lemma EndKeeps(s: Sys, i: nat, failed: bool)
    requires Inv(s) && i < |s.asks|
    ensures Inv(Apply(s, End(i, failed)))
  {
    var rest := s.(asks := s.asks[..i] + s.asks[i + 1..]);
    var step := PageEnded(s.client, s.asks[i].ask, if failed then None else s.asks[i].page);
    WithoutAskKeeps(s, i);
    PageForwards(s.client, s.log, s.asks[i], failed);
    ProceedKeeps(rest, step);
  }

  lemma CursorKeeps(s: Sys, i: nat, cursor: nat)
    requires Inv(s) && i < |s.feeds| && FeedOk(s.client, s.feeds[i].(cursor := cursor))
    ensures Inv(s.(feeds := s.feeds[i := s.feeds[i].(cursor := cursor)]))
  {
  }

  /** A row the server sends next takes what is shown further, or is not listened to. */
  lemma ItemForwards(c: Client, log: seq<Entry>, f: Feed, item: Entry)
    requires LogOk(log) && Faithful(c.shown, log) && FeedOk(c, f) && IsNext(log, f, item)
    ensures var d := Streamed(c, f.stream, item); Forwards(c, d, log) && FeedOk(d, f.(cursor := item.number))
  {
    if Listens(c, f.stream) { ReceiveNext(c.shown, log, f.stream.run, f.cursor, item); }
  }

  lemma DeliverNext(s: Sys, i: nat, item: Entry, d: Client)
    requires Inv(s) && i < |s.feeds| && Forwards(s.client, d, s.log) && FeedOk(d, s.feeds[i].(cursor := item.number))
    ensures Inv(s.(client := d, feeds := s.feeds[i := s.feeds[i].(cursor := item.number)]))
  {
    ForwardsKeeps(s, d);
    CursorKeeps(s.(client := d), i, item.number);
  }

  /** Another run's row changes nothing. */
  lemma OtherRunIgnored(c: Client, stream: Stream, item: Entry)
    requires item.run != stream.run
    ensures Streamed(c, stream, item) == c
  {
  }

  lemma DeliverKeeps(s: Sys, i: nat, item: Entry)
    requires Inv(s) && i < |s.feeds|
    ensures Inv(Apply(s, Deliver(i, item)))
  {
    var f := s.feeds[i];
    assert FeedOk(s.client, f);
    if IsNext(s.log, f, item) {
      ItemForwards(s.client, s.log, f, item);
      DeliverNext(s, i, item, Streamed(s.client, f.stream, item));
    } else if item.run != f.stream.run {
      OtherRunIgnored(s.client, f.stream, item);
    }
  }

  lemma AppendKeeps(s: Sys, entry: Entry)
    requires Inv(s) && LastSeq(s.log) < entry.number <= MAX_SAFE
    ensures Inv(s.(log := s.log + [entry]))
  {
    var after := s.log + [entry];
    forall run: string
      ensures Activity(s.client.shown, run) == Rows(UpTo(EventLog.Own(after, run), Cursor(s.client.shown, run)))
    {
      assert Activity(s.client.shown, run) == Rows(UpTo(EventLog.Own(s.log, run), Cursor(s.client.shown, run)));
      OwnAppend(s.log, [entry], run);
      UpToAppend(EventLog.Own(s.log, run), EventLog.Own([entry], run), Cursor(s.client.shown, run));
    }
    forall i | 0 <= i < |s.asks| ensures AskOk(s.client, after, s.asks[i]) {
      var p := s.asks[i];
      assert AskOk(s.client, s.log, p);
      OwnAppend(s.log, [entry], p.ask.run);
      AfterAppend(EventLog.Own(s.log, p.ask.run), EventLog.Own([entry], p.ask.run), p.ask.before);
    }
  }

  lemma {:induction false} UpToAppend(items: seq<Entry>, more: seq<Entry>, seen: nat)
    requires forall i | 0 <= i < |more| :: more[i].number > seen
    ensures UpTo(items + more, seen) == UpTo(items, seen)
  {
    if items == [] {
      AllAfter(more, seen);
      assert items + more == more;
    } else {
      assert (items + more)[1..] == items[1..] + more;
      UpToAppend(items[1..], more, seen);
    }
  }

  lemma ServeKeeps(s: Sys, i: nat, page: seq<Entry>)
    requires Inv(s)
    ensures Inv(Apply(s, Serve(i, page)))
  {
  }

  lemma CloseKeeps(s: Sys, i: nat)
    requires Inv(s) && i < |s.feeds|
    ensures Inv(Apply(s, Close(i)))
  {
    ForwardsKeeps(s, ConnectEnded(s.client, s.feeds[i].stream.epoch));
  }

  lemma EventKeeps(s: Sys, e: Event)
    requires Inv(s)
    ensures Inv(Apply(s, e))
  {
    match e {
      case Append(entry) => if LastSeq(s.log) < entry.number <= MAX_SAFE { AppendKeeps(s, entry); }
      case Follow(conversation, run, ids, due) => FollowKeeps(s, conversation, run, ids, due);
      case Serve(i, page) => ServeKeeps(s, i, page);
      case End(i, failed) => if i < |s.asks| { EndKeeps(s, i, failed); }
      case Deliver(i, item) => if i < |s.feeds| { DeliverKeeps(s, i, item); }
      case Close(i) => if i < |s.feeds| { CloseKeeps(s, i); }
      case Dispose => ForwardsKeeps(s, Disposed(s.client));
    }
  }

  lemma {:induction false} ReachableInv(es: seq<Event>)
    ensures Inv(Exec(es))
  {
    if es != [] {
      ReachableInv(es[..|es| - 1]);
      EventKeeps(Exec(es[..|es| - 1]), es[|es| - 1]);
    }
  }

  // ----- main results -----

  /** Whatever mix of history replays, live replays and streams delivered it, over restarts and
      conversation switches: every run's list is the one its log builds, up to the run's cursor; so
      it has one row per call, whose text is everything said since the last turn, cut once. */
  lemma ActivitiesFollowLog(es: seq<Event>, run: string)
    ensures var s := Exec(es);
            var rows, seen := Activity(s.client.shown, run), UpTo(EventLog.Own(s.log, run), Cursor(s.client.shown, run));
            && rows == Rows(seen) && |rows| == |Ids(seen)|
            && forall i | 0 <= i < |rows| :: rows[i].id == Ids(seen)[i] && Tells(rows[i], seen)
  {
    ReachableInv(es);
    var s := Exec(es);
    assert Activity(s.client.shown, run) == Rows(UpTo(EventLog.Own(s.log, run), Cursor(s.client.shown, run)));
    RowsTell(UpTo(EventLog.Own(s.log, run), Cursor(s.client.shown, run)));
  }

  lemma EndShows(s: Sys, i: nat, failed: bool)
    requires i < |s.asks|
    ensures Apply(s, End(i, failed)).client == PageEnded(s.client, s.asks[i].ask, if failed then None else s.asks[i].page).0
  {
  }

  lemma PagesAdvance(s: Sys, i: nat, failed: bool)
    requires Inv(s)
    ensures Further(s.client.shown, Apply(s, End(i, failed)).client.shown, s.log)
  {
    if i < |s.asks| {
      PageForwards(s.client, s.log, s.asks[i], failed);
      EndShows(s, i, failed);
    }
  }

  lemma DeliverShows(s: Sys, i: nat, item: Entry)
    ensures Apply(s, Deliver(i, item)).client ==
            if i < |s.feeds| && IsNext(s.log, s.feeds[i], item) then Streamed(s.client, s.feeds[i].stream, item) else s.client
  {
    if i < |s.feeds| && item.run != s.feeds[i].stream.run { OtherRunIgnored(s.client, s.feeds[i].stream, item); }
  }

  lemma ItemsAdvance(s: Sys, i: nat, item: Entry)
    requires Inv(s)
    ensures Further(s.client.shown, Apply(s, Deliver(i, item)).client.shown, s.log)
  {
    DeliverShows(s, i, item);
    if i < |s.feeds| && IsNext(s.log, s.feeds[i], item) {
      assert FeedOk(s.client, s.feeds[i]);
      ItemForwards(s.client, s.log, s.feeds[i], item);
    }
  }

  /** Within one conversation no cursor ever goes back. */
  lemma CursorsOnlyAdvance(es: seq<Event>, e: Event, run: string)
    requires Apply(Exec(es), e).client.conversationEpoch == Exec(es).client.conversationEpoch
    ensures Cursor(Exec(es).client.shown, run) <= Cursor(Apply(Exec(es), e).client.shown, run)
  {
    ReachableInv(es);
    var s := Exec(es);
    match e {
      case Follow(_, _, _, _) => FollowKeepsShown(s.client, e);
      case End(i, failed) => PagesAdvance(s, i, failed);
      case Deliver(i, item) => ItemsAdvance(s, i, item);
      case _ =>
    }
  }

  lemma FollowKeepsShown(c: Client, e: Event)
    requires e.Follow? && Followed(c, e.conversation, e.run, e.ids, e.due).0.conversationEpoch == c.conversationEpoch
    ensures Followed(c, e.conversation, e.run, e.ids, e.due).0.shown == c.shown
  {
    if !c.disposed {
      var owner := if e.run == "" then None else Some((e.conversation, e.run));
      RestoringMakes(Owned(Switched(c, e.conversation), owner), Others(e.ids, e.run));
    }
  }

  /** The page the server gives a replay: the first rows after the number, at most a full page. */
  function FullPage(own: seq<Entry>, before: nat): seq<Entry> {
    var later := After(own, before);
    if |later| <= PAGE then later else later[..PAGE]
  }

  lemma PageShrinks(own: seq<Entry>, before: nat, cursor: nat)
    requires Ascending(own) && before <= cursor
    requires forall item | item in FullPage(own, before) :: item.number <= cursor
    ensures |After(own, cursor)| <= |After(own, before)| - |FullPage(own, before)|
  {
    var page := FullPage(own, before);
    var k := AfterIsSuffix(own, before);
    var n := AfterIsSuffix(own, cursor);
    if page != [] {
      assert page[|page| - 1] == own[k + |page| - 1] && page[|page| - 1] in page;
    }
    assert forall i | 0 <= i < k :: own[i].number <= cursor;
    assert n >= |own| || own[n].number > cursor;
  }

  /** A nonempty page moves the cursor beyond where it was. */
  lemma PageMoves(own: seq<Entry>, before: nat, cursor: nat, page: seq<Entry>)
    requires Ascending(own) && page == FullPage(own, before) && page != []
    requires forall item | item in page :: item.number <= cursor
    ensures cursor > before
  {
    var k := AfterIsSuffix(own, before);
    assert page[0] == own[k] && page[0] in page;
  }

  /** One full page more: what remains gets shorter, and after a short page nothing remains. */
  lemma PageStep(v: Shown, w: Shown, log: seq<Entry>, run: string, own: seq<Entry>, page: seq<Entry>)
    requires LogOk(log) && Faithful(v, log) && own == EventLog.Own(log, run)
    requires page == FullPage(own, Cursor(v, run)) && w == ReceivedAll(v, page, run)
    ensures Faithful(w, log)
    ensures |After(own, Cursor(w, run))| <= |After(own, Cursor(v, run))| - |page|
    ensures |page| >= PAGE ==> Cursor(w, run) > Cursor(v, run)
    ensures |page| < PAGE ==> After(own, Cursor(w, run)) == []
  {
    OwnAscending(log, run);
    PageIsOwn(log, run, Cursor(v, run));
    ReceivePage(v, log, run, Cursor(v, run), page);
    PageShrinks(own, Cursor(v, run), Cursor(w, run));
    if page != [] { PageMoves(own, Cursor(v, run), Cursor(w, run), page); }
  }

  /** The replay loop of one run over a finite log: it ends, with everything received. */
  method Replay(stream: NativeReplyStream, log: seq<Entry>, run: string)
    requires LogOk(log) && Faithful(Shown(stream.cursors, stream.activities), log)
    modifies stream`cursors, stream`activities
    ensures Faithful(Shown(stream.cursors, stream.activities), log)
    ensures Activity(Shown(stream.cursors, stream.activities), run) == Rows(EventLog.Own(log, run))
  {
    var own := EventLog.Own(log, run);
    OwnAscending(log, run);
    var going := true;
    while going
      invariant Faithful(Shown(stream.cursors, stream.activities), log)
      invariant !going ==> After(own, Cursor(Shown(stream.cursors, stream.activities), run)) == []
      decreases |After(own, Cursor(Shown(stream.cursors, stream.activities), run))|, going
    {
      var before := if run in stream.cursors then stream.cursors[run] else 0;
      var page := FullPage(own, before);
      ghost var shown := Shown(stream.cursors, stream.activities);
      stream.ReceiveAll(page, run);
      PageStep(shown, Shown(stream.cursors, stream.activities), log, run, own, page);
      var cursor := if run in stream.cursors then stream.cursors[run] else 0;
      going := |page| >= PAGE && cursor > before;
    }
    Complete(own, Cursor(Shown(stream.cursors, stream.activities), run));
  }

  lemma PageIsOwn(log: seq<Entry>, run: string, before: nat)
    ensures var page := FullPage(EventLog.Own(log, run), before);
            EventLog.Own(page, run) == page <= After(EventLog.Own(log, run), before)
  {
    var page := FullPage(EventLog.Own(log, run), before);
    assert forall i | 0 <= i < |page| :: page[i] in After(EventLog.Own(log, run), before);
    OwnOfOwn(page, run);
  }

  lemma Complete(own: seq<Entry>, cursor: nat)
    requires Ascending(own) && After(own, cursor) == []
    ensures UpTo(own, cursor) == own
  {
    var k := AfterIsSuffix(own, cursor);
    assert own[..|own|] == own;
  }
}
