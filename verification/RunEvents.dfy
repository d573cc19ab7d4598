/** The run inspector's event list (frontend/src/runController.ts): concurrent polls and streams of
    the selected run all merge into one list, over any number of selections. */
module RunEvents {
  import opened Basics
  import opened EventLog

  type Row = Item<string>

  /** One refresh: what it captured before its request. */
  datatype Poll = Poll(epoch: nat, run: string, after: nat)

  /** What a refresh can end with: a failure, a run record of another owner, or the record and rows. */
  datatype Reply = Failed | Foreign | Rows(active: bool, rows: seq<Row>)

  datatype Stream = Stream(id: nat, epoch: nat, run: string, after: nat)

  datatype Client = Client(active: bool, events: seq<Row>, runId: string, epoch: nat, stream: Option<nat>,
                           nextStream: nat, aborted: set<nat>, refreshing: set<nat>, disposed: bool)

  const NEW := Client(false, [], "", 0, None, 0, {}, {}, false)

  predicate Current(c: Client, epoch: nat) {
    !c.disposed && epoch == c.epoch
  }

  function Stopped(c: Client): Client {
    c.(stream := None, aborted := if c.stream.Some? then c.aborted + {c.stream.value} else c.aborted)
  }

  function RefreshStarted(c: Client): (Client, Option<Poll>) {
    if c.runId == "" || c.disposed || c.epoch in c.refreshing then (c, None)
    else (c.(refreshing := c.refreshing + {c.epoch}), Some(Poll(c.epoch, c.runId, LastSeq(c.events))))
  }

  function Selected(c: Client, runId: string): (Client, Option<Poll>) {
    RefreshStarted(Stopped(c).(epoch := c.epoch + 1, runId := runId, active := false, events := []))
  }

  function Connected(c: Client): (Client, Option<Stream>) {
    (c.(stream := Some(c.nextStream), nextStream := c.nextStream + 1), Some(Stream(c.nextStream, c.epoch, c.runId, LastSeq(c.events))))
  }

  function Merged(events: seq<Row>, incoming: seq<Row>): seq<Row> {
    InsertAll([], events + incoming)
  }

  /** `due` says that the reconnect pause is over. */
  function RefreshEnded(c: Client, poll: Poll, reply: Reply, due: bool): (Client, Option<Stream>) {
    var d := c.(refreshing := c.refreshing - {poll.epoch});
    if !Current(c, poll.epoch) || !reply.Rows? then (d, None)
    else
      var e := d.(active := reply.active, events := Merged(c.events, Own(reply.rows, poll.run)));
      if !reply.active then (Stopped(e), None) else if e.stream.None? && due then Connected(e) else (e, None)
  }

  function Received(c: Client, stream: Stream, item: Row): (Client, Option<Poll>) {
    if Current(c, stream.epoch) && stream.id !in c.aborted && item.run == stream.run then
      RefreshStarted(c.(events := Merged(c.events, [item])))
    else (c, None)
  }

  function StreamEnded(c: Client, stream: Stream): Client {
    if Current(c, stream.epoch) && c.stream == Some(stream.id) then c.(stream := None) else c
  }

  function Disposed(c: Client): Client {
    Stopped(c).(disposed := true, epoch := c.epoch + 1)
  }

  // ----- the controller -----

  class RunController {
    var active: bool
    var events: seq<Row>
    var runId: string
    var epoch: nat
    var stream: Option<nat>
    var nextStream: nat
    var aborted: set<nat>
    var refreshing: set<nat>
    var disposed: bool

    ghost function View(): Client
      reads this
    {
      Client(active, events, runId, epoch, stream, nextStream, aborted, refreshing, disposed)
    }

    constructor ()
      ensures View() == NEW
    {
      active, events, runId, epoch, stream := false, [], "", 0, None;
      nextStream, aborted, refreshing, disposed := 0, {}, {}, false;
    }

    method Stop()
      modifies this`stream, this`aborted
      ensures View() == Stopped(old(View()))
    {
      if stream.Some? {
        aborted := aborted + {stream.value};
      }
      stream := None;
    }

    method Select(newRun: string) returns (poll: Option<Poll>)
      modifies this
      ensures (View(), poll) == Selected(old(View()), newRun)
    {
      epoch := epoch + 1;
      Stop();
      runId, active, events := newRun, false, [];
      poll := Refresh();
    }

    /** refresh, up to its two requests. */
    method Refresh() returns (poll: Option<Poll>)
      modifies this`refreshing
      ensures (View(), poll) == RefreshStarted(old(View()))
    {
      if runId == "" || disposed || epoch in refreshing {
        return None;
      }
      refreshing := refreshing + {epoch};
      poll := Some(Poll(epoch, runId, LastSeq(events)));
    }

    /** refresh, after its two requests. */
    method FinishRefresh(poll: Poll, reply: Reply, due: bool) returns (connected: Option<Stream>)
      modifies this
      ensures (View(), connected) == RefreshEnded(old(View()), poll, reply, due)
    {
      connected := None;
      refreshing := refreshing - {poll.epoch};
      if disposed || poll.epoch != epoch || !reply.Rows? {
        return;
      }
      active := reply.active;
      events := MergeEvents(events, Own(reply.rows, poll.run));
      if !active {
        Stop();
      } else if stream.None? && due {
        connected := Connect();
      }
    }

    method Connect() returns (connected: Option<Stream>)
      modifies this`stream, this`nextStream
      ensures (View(), connected) == Connected(old(View()))
    {
      stream := Some(nextStream);
      connected := Some(Stream(nextStream, epoch, runId, LastSeq(events)));
      nextStream := nextStream + 1;
    }

    /** The stream's callback. */
    method Receive(source: Stream, item: Row) returns (poll: Option<Poll>)
      modifies this
      ensures (View(), poll) == Received(old(View()), source, item)
    {
      if disposed || source.epoch != epoch || source.id in aborted || item.run != source.run {
        return None;
      }
      events := MergeEvents(events, [item]);
      poll := Refresh();
    }

    method EndStream(source: Stream)
      modifies this`stream
      ensures View() == StreamEnded(old(View()), source)
    {
      if !disposed && source.epoch == epoch && stream == Some(source.id) {
        stream := None;
      }
    }

    method Dispose()
      modifies this
      ensures View() == Disposed(old(View()))
    {
      disposed, epoch := true, epoch + 1;
      Stop();
    }
  }

  // ----- the controller, the log and the network together -----

  /** A request under way and what the server answered it with, if it did. */
  datatype Pending = Pending(poll: Poll, rows: Option<seq<Row>>)

  /** An open stream and how far the server has sent. */
  datatype Feed = Feed(stream: Stream, cursor: nat)

  datatype Sys = Sys(client: Client, log: seq<Row>, polls: seq<Pending>, feeds: seq<Feed>)

  datatype Event =
    | Append(row: Row)
    | Select(run: string)
    | Refresh
    | Serve(poll: nat, rows: seq<Row>)
    | End(poll: nat, reply: Reply, due: bool)
    | Deliver(feed: nat, item: Row)
    | Close(feed: nat)
    | Dispose

  const START := Sys(NEW, [], [], [])

  function Asked(s: Sys, step: (Client, Option<Poll>)): Sys {
    s.(client := step.0, polls := if step.1.Some? then s.polls + [Pending(step.1.value, None)] else s.polls)
  }

  function Opened(s: Sys, step: (Client, Option<Stream>)): Sys {
    s.(client := step.0, feeds := if step.1.Some? then s.feeds + [Feed(step.1.value, step.1.value.after)] else s.feeds)
  }

  /** A page of any size of the run's rows after the captured number; other runs' rows may be mixed in. */
  predicate Page(log: seq<Row>, poll: Poll, rows: seq<Row>) {
    Own(rows, poll.run) <= After(Own(log, poll.run), poll.after)
  }

  /** The next row of the run after what the stream has sent. */
  predicate Next(log: seq<Row>, feed: Feed, item: Row) {
    var later := After(Own(log, feed.stream.run), feed.cursor);
    later != [] && item == later[0]
  }

  /** A reply carries the served rows, or none. */
  predicate Carries(p: Pending, reply: Reply) {
    reply.Rows? ==> p.rows == Some(reply.rows)
  }

  function Apply(s: Sys, e: Event): Sys {
    match e
    case Append(row) => if row.number > LastSeq(s.log) then s.(log := s.log + [row]) else s
    case Select(run) => Asked(s, Selected(s.client, run))
    case Refresh => Asked(s, RefreshStarted(s.client))
    case Serve(i, rows) =>
      if i < |s.polls| && s.polls[i].rows.None? && Page(s.log, s.polls[i].poll, rows) then
        s.(polls := s.polls[i := s.polls[i].(rows := Some(rows))])
      else s
    case End(i, reply, due) =>
      if i < |s.polls| && Carries(s.polls[i], reply) then
        Opened(s, RefreshEnded(s.client, s.polls[i].poll, reply, due)).(polls := s.polls[..i] + s.polls[i + 1..])
      else s
    case Deliver(i, item) =>
      if i >= |s.feeds| then s
      else if Next(s.log, s.feeds[i], item) then
        Asked(s.(feeds := s.feeds[i := s.feeds[i].(cursor := item.number)]), Received(s.client, s.feeds[i].stream, item))
      else if item.run != s.feeds[i].stream.run then Asked(s, Received(s.client, s.feeds[i].stream, item))
      else s
    case Close(i) =>
      if i < |s.feeds| then s.(client := StreamEnded(s.client, s.feeds[i].stream), feeds := s.feeds[..i] + s.feeds[i + 1..]) else s
    case Dispose => s.(client := Disposed(s.client))
  }

  function Exec(es: seq<Event>): Sys {
    if es == [] then START else Apply(Exec(es[..|es| - 1]), es[|es| - 1])
  }

  // ----- invariant -----

  /** A request of the current epoch asks for the selected run, from inside what is held. */
  ghost predicate PollOk(c: Client, log: seq<Row>, p: Pending) {
    && p.poll.epoch <= c.epoch
    && (p.rows.Some? ==> Page(log, p.poll, p.rows.value))
    && (Current(c, p.poll.epoch) ==> p.poll.run == c.runId && p.poll.after <= LastSeq(c.events))
  }

  ghost predicate FeedOk(c: Client, f: Feed) {
    && f.stream.epoch <= c.epoch
    && (Current(c, f.stream.epoch) && f.stream.id !in c.aborted ==> f.stream.run == c.runId && f.cursor <= LastSeq(c.events))
  }

  ghost predicate Held(c: Client, log: seq<Row>) {
    Ascending(log) && c.events <= Own(log, c.runId)
  }

  ghost predicate Inv(s: Sys) {
    && Held(s.client, s.log)
    && (forall i | 0 <= i < |s.polls| :: PollOk(s.client, s.log, s.polls[i]))
    && (forall i | 0 <= i < |s.feeds| :: FeedOk(s.client, s.feeds[i]))
  }

  // ----- every event keeps the invariant -----

  /** The list grows only, and stays a prefix of the run's rows. */
  ghost predicate Grows(c: Client, d: Client, log: seq<Row>) {
    && d.runId == c.runId && d.epoch == c.epoch && d.disposed == c.disposed && c.aborted <= d.aborted
    && Held(d, log) && LastSeq(c.events) <= LastSeq(d.events) && c.events <= d.events
  }

  lemma MergeGrows(c: Client, log: seq<Row>, seen: nat, page: seq<Row>, merged: seq<Row>)
    requires Held(c, log) && seen <= LastSeq(c.events) && page <= After(Own(log, c.runId), seen)
    requires merged == Merged(c.events, page)
    ensures merged <= Own(log, c.runId) && c.events <= merged && LastSeq(c.events) <= LastSeq(merged)
    ensures page != [] ==> page[|page| - 1].number <= LastSeq(merged)
    ensures page == After(Own(log, c.runId), seen) ==> merged == Own(log, c.runId)
  {
    OwnAscending(log, c.runId);
    MergePage(Own(log, c.runId), c.events, seen, page, merged);
  }

  /** What a refresh's end does to the list, apart from what merging computes. */
  lemma RefreshEnds(c: Client, poll: Poll, reply: Reply, due: bool, merged: seq<Row>, d: Client)
    requires reply.Rows? ==> merged == Merged(c.events, Own(reply.rows, poll.run))
    requires d == RefreshEnded(c, poll, reply, due).0
    ensures d.runId == c.runId && d.epoch == c.epoch && d.disposed == c.disposed && c.aborted <= d.aborted
    ensures d.events == if Current(c, poll.epoch) && reply.Rows? then merged else c.events
  {
  }

  lemma RefreshGrows(s: Sys, i: nat, reply: Reply, due: bool)
    requires Inv(s) && i < |s.polls| && Carries(s.polls[i], reply)
    ensures Grows(s.client, RefreshEnded(s.client, s.polls[i].poll, reply, due).0, s.log)
  {
    var poll := s.polls[i].poll;
    assert PollOk(s.client, s.log, s.polls[i]);
    var merged := if reply.Rows? then Merged(s.client.events, Own(reply.rows, poll.run)) else [];
    RefreshEnds(s.client, poll, reply, due, merged, RefreshEnded(s.client, poll, reply, due).0);
    if Current(s.client, poll.epoch) && reply.Rows? {
      MergeGrows(s.client, s.log, poll.after, Own(reply.rows, poll.run), merged);
    }
  }

  /** A stream's row is taken over. */
  predicate Taken(c: Client, stream: Stream, item: Row) {
    Current(c, stream.epoch) && stream.id !in c.aborted && item.run == stream.run
  }

  lemma ItemGrows(s: Sys, i: nat, item: Row, d: Client)
    requires Inv(s) && i < |s.feeds| && Next(s.log, s.feeds[i], item) && Taken(s.client, s.feeds[i].stream, item)
    requires d == s.client.(events := Merged(s.client.events, [item]))
    ensures Grows(s.client, d, s.log) && item.number <= LastSeq(d.events)
  {
    assert FeedOk(s.client, s.feeds[i]);
    MergeGrows(s.client, s.log, s.feeds[i].cursor, [item], d.events);
  }

  lemma GrowsKeeps(s: Sys, d: Client)
    requires Inv(s) && Grows(s.client, d, s.log)
    ensures Inv(s.(client := d))
  {
    forall i | 0 <= i < |s.polls| ensures PollOk(d, s.log, s.polls[i]) { assert PollOk(s.client, s.log, s.polls[i]); }
    forall i | 0 <= i < |s.feeds| ensures FeedOk(d, s.feeds[i]) { assert FeedOk(s.client, s.feeds[i]); }
  }

  lemma AskedKeeps(s: Sys, d: Client)
    requires Inv(s.(client := d))
    ensures Inv(Asked(s, RefreshStarted(d)))
  {
    GrowsKeeps(s.(client := d), RefreshStarted(d).0);
  }

  lemma AppendKeeps(s: Sys, row: Row)
    requires Inv(s) && row.number > LastSeq(s.log)
    ensures Inv(s.(log := s.log + [row]))
  {
    var after := s.log + [row];
    OwnAppend(s.log, [row], s.client.runId);
    forall i | 0 <= i < |s.polls| ensures PollOk(s.client, after, s.polls[i]) {
      var p := s.polls[i];
      assert PollOk(s.client, s.log, p);
      OwnAppend(s.log, [row], p.poll.run);
      AfterAppend(Own(s.log, p.poll.run), Own([row], p.poll.run), p.poll.after);
    }
  }

  lemma SelectKeeps(s: Sys, run: string)
    requires Inv(s)
    ensures Inv(Asked(s, Selected(s.client, run)))
  {
    var d := Stopped(s.client).(epoch := s.client.epoch + 1, runId := run, active := false, events := []);
    forall i | 0 <= i < |s.polls| ensures PollOk(d, s.log, s.polls[i]) { assert PollOk(s.client, s.log, s.polls[i]); }
    forall i | 0 <= i < |s.feeds| ensures FeedOk(d, s.feeds[i]) { assert FeedOk(s.client, s.feeds[i]); }
    AskedKeeps(s, d);
  }

  lemma ServeKeeps(s: Sys, i: nat, rows: seq<Row>)
    requires Inv(s)
    ensures Inv(Apply(s, Serve(i, rows)))
  {
  }

  lemma OpenedKeeps(s: Sys, i: nat, d: Client, stream: Option<Stream>)
    requires Inv(s) && i < |s.polls| && Grows(s.client, d, s.log)
    requires stream.Some? ==> stream.value.epoch == d.epoch && stream.value.run == d.runId && stream.value.after == LastSeq(d.events)
    ensures Inv(Opened(s, (d, stream)).(polls := s.polls[..i] + s.polls[i + 1..]))
  {
    GrowsKeeps(s, d);
    var after := Opened(s, (d, stream));
    assert forall j | 0 <= j < |s.feeds| :: after.feeds[j] == s.feeds[j];
    assert stream.Some? ==> FeedOk(d, after.feeds[|s.feeds|]);
  }

  lemma ConnectsFromHeld(c: Client, poll: Poll, reply: Reply, due: bool, step: (Client, Option<Stream>))
    requires step == RefreshEnded(c, poll, reply, due)
    ensures step.1.Some? ==> step.1.value.epoch == step.0.epoch && step.1.value.run == step.0.runId
    ensures step.1.Some? ==> step.1.value.after == LastSeq(step.0.events)
  {
  }

  lemma EndKeeps(s: Sys, i: nat, reply: Reply, due: bool)
    requires Inv(s) && i < |s.polls| && Carries(s.polls[i], reply)
    ensures Inv(Opened(s, RefreshEnded(s.client, s.polls[i].poll, reply, due)).(polls := s.polls[..i] + s.polls[i + 1..]))
  {
    var step := RefreshEnded(s.client, s.polls[i].poll, reply, due);
    RefreshGrows(s, i, reply, due);
    ConnectsFromHeld(s.client, s.polls[i].poll, reply, due, step);
    OpenedKeeps(s, i, step.0, step.1);
  }

  lemma TakenKeeps(s: Sys, i: nat, item: Row, d: Client)
    requires Inv(s) && i < |s.feeds| && Grows(s.client, d, s.log) && item.number <= LastSeq(d.events)
    requires item.run == s.feeds[i].stream.run && s.feeds[i].stream.run == d.runId
    ensures Inv(Asked(s.(feeds := s.feeds[i := s.feeds[i].(cursor := item.number)]), RefreshStarted(d)))
  {
    GrowsKeeps(s, d);
    assert FeedOk(d, s.feeds[i]);
    CursorKeeps(s.(client := d), i, item.number);
    AskedKeeps(s.(feeds := s.feeds[i := s.feeds[i].(cursor := item.number)]), d);
  }

  lemma DeliverTaken(s: Sys, i: nat, item: Row)
    requires Inv(s) && i < |s.feeds| && Next(s.log, s.feeds[i], item) && Taken(s.client, s.feeds[i].stream, item)
    ensures Inv(Apply(s, Deliver(i, item)))
  {
    var d := s.client.(events := Merged(s.client.events, [item]));
    ItemGrows(s, i, item, d);
    assert FeedOk(s.client, s.feeds[i]);
    TakenKeeps(s, i, item, d);
    assert Received(s.client, s.feeds[i].stream, item) == RefreshStarted(d);
  }

  lemma DeliverIgnored(s: Sys, i: nat, item: Row)
    requires Inv(s) && i < |s.feeds| && !(Next(s.log, s.feeds[i], item) && Taken(s.client, s.feeds[i].stream, item))
    ensures Inv(Apply(s, Deliver(i, item)))
  {
    assert FeedOk(s.client, s.feeds[i]);
    if Next(s.log, s.feeds[i], item) { CursorKeeps(s, i, item.number); }
  }

  lemma CursorKeeps(s: Sys, i: nat, cursor: nat)
    requires Inv(s) && i < |s.feeds| && FeedOk(s.client, s.feeds[i].(cursor := cursor))
    ensures Inv(s.(feeds := s.feeds[i := s.feeds[i].(cursor := cursor)]))
  {
  }

  lemma CloseKeeps(s: Sys, i: nat)
    requires Inv(s) && i < |s.feeds|
    ensures Inv(Apply(s, Close(i)))
  {
    GrowsKeeps(s, StreamEnded(s.client, s.feeds[i].stream));
  }

  lemma DisposeKeeps(s: Sys)
    requires Inv(s)
    ensures Inv(Apply(s, Dispose))
  {
    var d := Disposed(s.client);
    forall i | 0 <= i < |s.polls| ensures PollOk(d, s.log, s.polls[i]) { assert PollOk(s.client, s.log, s.polls[i]); }
    forall i | 0 <= i < |s.feeds| ensures FeedOk(d, s.feeds[i]) { assert FeedOk(s.client, s.feeds[i]); }
  }

  lemma EventKeeps(s: Sys, e: Event)
    requires Inv(s)
    ensures Inv(Apply(s, e))
  {
    match e {
      case Append(row) => if row.number > LastSeq(s.log) { AppendKeeps(s, row); }
      case Select(run) => SelectKeeps(s, run);
      case Refresh => AskedKeeps(s, s.client);
      case Serve(i, rows) => ServeKeeps(s, i, rows);
      case End(i, reply, due) => if i < |s.polls| && Carries(s.polls[i], reply) { EndKeeps(s, i, reply, due); }
      case Deliver(i, item) =>
        if i < |s.feeds| {
          if Next(s.log, s.feeds[i], item) && Taken(s.client, s.feeds[i].stream, item) {
            DeliverTaken(s, i, item);
          } else {
            DeliverIgnored(s, i, item);
          }
        }
      case Close(i) => if i < |s.feeds| { CloseKeeps(s, i); }
      case Dispose => DisposeKeeps(s);
    }
  }

  lemma {:induction false} ReachableInv(es: seq<Event>)
    ensures Inv(Exec(es))
  {
    if es != [] {
      ReachableInv(es[..|es| - 1]);
      EventKeeps(Exec(es[..|es| - 1]), es[|es| - 1]);
    }
  }

  // ----- main results -----

  /** Whatever polls, streams and selections overlap, the shown list is exactly the selected run's
      rows up to the last number shown: sorted, without gaps, duplicates or other runs' rows. */
  lemma ShownIsLogPrefix(es: seq<Event>)
    ensures var s := Exec(es);
            var own := Own(s.log, s.client.runId);
            && s.client.events <= own && Ascending(s.client.events)
            && forall i | 0 <= i < |own| :: own[i] in s.client.events <==> own[i].number <= LastSeq(s.client.events)
  {
    ReachableInv(es);
    var s := Exec(es);
    OwnAscending(s.log, s.client.runId);
    PrefixByNumber(Own(s.log, s.client.runId), s.client.events);
  }

  lemma PrefixByNumber(own: seq<Row>, shown: seq<Row>)
    requires Ascending(own) && shown <= own
    ensures Ascending(shown) && forall i | 0 <= i < |own| :: own[i] in shown <==> own[i].number <= LastSeq(shown)
  {
    assert forall i | 0 <= i < |shown| :: shown[i] == own[i];
    forall i | 0 <= i < |own| ensures own[i] in shown <==> own[i].number <= LastSeq(shown) {
      if i < |shown| {
        assert own[i] == shown[i];
        assert i < |shown| - 1 ==> own[i].number < own[|shown| - 1].number;
      } else {
        assert forall j | 0 <= j < |shown| :: own[j].number < own[i].number;
      }
    }
  }

  lemma DeliverTakes(s: Sys, i: nat, item: Row, d: Client)
    requires i < |s.feeds| && Next(s.log, s.feeds[i], item) && Taken(s.client, s.feeds[i].stream, item)
    requires d == s.client.(events := Merged(s.client.events, [item]))
    ensures Apply(s, Deliver(i, item)).client == RefreshStarted(d).0
  {
  }

  lemma DeliverSkips(s: Sys, i: nat, item: Row)
    requires i < |s.feeds| ==> !(Next(s.log, s.feeds[i], item) && Taken(s.client, s.feeds[i].stream, item))
    ensures Apply(s, Deliver(i, item)).client == s.client
  {
  }

  lemma DeliverGrows(s: Sys, i: nat, item: Row)
    requires Inv(s)
    ensures var after := Apply(s, Deliver(i, item)).client; s.client.events <= after.events && after.runId == s.client.runId
  {
    if i < |s.feeds| && Next(s.log, s.feeds[i], item) && Taken(s.client, s.feeds[i].stream, item) {
      var d := s.client.(events := Merged(s.client.events, [item]));
      ItemGrows(s, i, item, d);
      DeliverTakes(s, i, item, d);
    } else {
      DeliverSkips(s, i, item);
    }
  }

  /** The list of a selection never shrinks, and changing the selection starts it over. */
  lemma ShownOnlyGrows(es: seq<Event>, e: Event)
    ensures var before, after := Exec(es).client, Apply(Exec(es), e).client;
            if e.Select? then after.events == [] else before.events <= after.events && after.runId == before.runId
  {
    ReachableInv(es);
    var s := Exec(es);
    match e {
      case End(i, reply, due) => if i < |s.polls| && Carries(s.polls[i], reply) { RefreshGrows(s, i, reply, due); }
      case Deliver(i, item) => DeliverGrows(s, i, item);
      case _ =>
    }
  }

  /** A current refresh whose page reaches the end of the log catches up with it completely. */
  lemma CompletePageCatchesUp(s: Sys, i: nat, active: bool, rows: seq<Row>, due: bool)
    requires Inv(s) && i < |s.polls| && Current(s.client, s.polls[i].poll.epoch) && s.polls[i].rows == Some(rows)
    requires Own(rows, s.polls[i].poll.run) == After(Own(s.log, s.polls[i].poll.run), s.polls[i].poll.after)
    ensures RefreshEnded(s.client, s.polls[i].poll, Rows(active, rows), due).0.events == Own(s.log, s.client.runId)
  {
    var poll := s.polls[i].poll;
    assert PollOk(s.client, s.log, s.polls[i]);
    var merged := Merged(s.client.events, Own(rows, poll.run));
    RefreshEnds(s.client, poll, Rows(active, rows), due, merged, RefreshEnded(s.client, poll, Rows(active, rows), due).0);
    MergeGrows(s.client, s.log, poll.after, Own(rows, poll.run), merged);
  }
}
