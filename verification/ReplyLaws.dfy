/** What each step of the live reply does, field by field: what is cleared, asked for, received and
    opened, and exactly when. */
module ReplyLaws {
  import opened Basics
  import opened EventLog
  import opened ReplyRows
  import opened ReplyStream

  /** How far a run has been received. */
  function Seen(c: Client, run: string): nat {
    if run in c.shown.cursors then c.shown.cursors[run] else 0
  }

  /** A running stream is aborted and forgotten, `n` times fenced by a new epoch. */
  predicate Cut(c: Client, d: Client, n: nat) {
    && d.epoch == c.epoch + n
    && (n > 0 ==> d.stream.None? && !d.refreshing && d.aborted == if c.stream.Some? then c.aborted + {c.stream.value} else c.aborted)
    && (n == 0 ==> d.stream == c.stream && d.refreshing == c.refreshing && d.aborted == c.aborted)
  }

  // ----- restoring -----

  /** The ids other than the run that is followed, in their order. */
  lemma {:induction false} OthersAre(ids: seq<string>, run: string, more: seq<string>)
    ensures Others(ids + more, run) == Others(ids, run) + Others(more, run)
    ensures Others([run], run) == [] && forall id | id != run :: Others([id], run) == [id]
  {
    if ids == [] {
      assert ids + more == more;
    } else {
      assert (ids + more)[1..] == ids[1..] + more;
      OthersAre(ids[1..], run, more);
    }
  }

  /** Restoring asks for the first id whose history is neither loaded nor loading, from where it was
      received to, and keeps the ids behind it for later. */
  lemma {:induction false} RestoresFirst(c: Client, ids: seq<string>, k: nat)
    requires k <= |ids| && (forall j | 0 <= j < k :: ids[j] in c.histories || ids[j] in c.loading)
    requires k < |ids| ==> ids[k] !in c.histories && ids[k] !in c.loading
    ensures Restoring(c, ids) ==
            if k == |ids| then (c, None)
            else (c.(loading := c.loading + {ids[k]}), Some(History(ids[k], ids[k + 1..], c.conversationEpoch, Seen(c, ids[k]))))
    decreases k
  {
    if k > 0 { RestoresFirst(c, ids[1..], k - 1); }
  }

  // ----- following -----

  /** Following another conversation forgets everything received; another run of the same conversation
      only cuts the stream.  Then the histories of the other ids are restored, and the run itself is
      asked for, from where it was received to, unless it is already streaming or being asked for. */
  lemma FollowDoes(c: Client, conversation: string, run: string, ids: seq<string>, due: bool)
    ensures var (d, history, live) := Followed(c, conversation, run, ids, due);
            if c.disposed then d == c && history.None? && live.None?
            else
              var moved := conversation != c.conversation;
              var owner := if run == "" then None else Some((conversation, run));
              var cut := (if moved then 1 else 0) + (if owner != c.owner then 1 else 0);
              var at := d.(loading := if moved then {} else c.loading, refreshing := if cut > 0 then false else c.refreshing);
              && d.conversation == conversation && d.owner == owner && d.disposed == c.disposed && d.streams == c.streams
              && d.conversationEpoch == c.conversationEpoch + (if moved then 1 else 0)
              && d.shown == (if moved then Shown(map[], map[]) else c.shown) && d.histories == (if moved then {} else c.histories)
              && Cut(c, d.(refreshing := at.refreshing), cut)
              && (d.loading, history) == (Restoring(at, Others(ids, run)).0.loading, Restoring(at, Others(ids, run)).1)
              && (if run != "" && at.stream.None? && !at.refreshing && due then d.refreshing && live == Some(Live(run, d.epoch, Seen(d, run)))
                  else d.refreshing == at.refreshing && live.None?)
  {
    if !c.disposed {
      var owner := if run == "" then None else Some((conversation, run));
      var b := Owned(Switched(c, conversation), owner);
      RestoringMakes(b, Others(ids, run));
      SelectsAs(c, conversation, owner);
      SameRestoring(b, Followed(c, conversation, run, ids, due).0.(loading := b.loading, refreshing := b.refreshing), Others(ids, run));
    }
  }

  lemma SelectsAs(c: Client, conversation: string, owner: Option<(string, string)>)
    ensures var d := Owned(Switched(c, conversation), owner);
            var moved := conversation != c.conversation;
            && d.conversation == conversation && d.owner == owner && d.disposed == c.disposed && d.streams == c.streams
            && d.conversationEpoch == c.conversationEpoch + (if moved then 1 else 0)
            && d.shown == (if moved then Shown(map[], map[]) else c.shown) && d.histories == (if moved then {} else c.histories)
            && d.loading == (if moved then {} else c.loading)
            && Cut(c, d, (if moved then 1 else 0) + (if owner != c.owner then 1 else 0))
  {
  }

  lemma SameRestoring(b: Client, a: Client, ids: seq<string>)
    requires a == b
    ensures Restoring(a, ids) == Restoring(b, ids)
  {
  }

  // ----- replies -----

  /** A replay is still wanted: of this conversation, or for the run followed now. */
  predicate Wanted(c: Client, ask: Ask) {
    !c.disposed && match ask case History(_, _, epoch, _) => epoch == c.conversationEpoch case Live(_, epoch, _) => epoch == c.epoch
  }

  /** A page of a wanted replay is received.  A full one that brought something new is followed by the
      next; otherwise a history is remembered as loaded and the next id follows, and a live replay opens
      its stream from where it got to. */
  lemma PageDoes(c: Client, ask: Ask, page: seq<Entry>)
    requires Wanted(c, ask)
    ensures var (d, next) := PageEnded(c, ask, Some(page));
            var got := c.(shown := ReceivedAll(c.shown, page, ask.run));
            if |page| >= 500 && Seen(got, ask.run) > ask.before then
              d == got && next == Again(ask.(before := Seen(got, ask.run)))
            else match ask
              case History(run, rest, _, _) =>
                var (e, more) := Restoring(got.(histories := c.histories + {run}, loading := c.loading - {run}), rest);
                d == e && next == (if more.Some? then Again(more.value) else Stop)
              case Live(run, _, _) =>
                && d == got.(stream := Some(c.streams), streams := c.streams + 1)
                && next == Open(Stream(c.streams, run, c.epoch, Seen(got, run)))
  {
  }

  /** A failed replay: a history is given up and the next id follows; a live one may be tried again.
      A replay that is no longer wanted changes nothing. */
  lemma FailureDoes(c: Client, ask: Ask, page: Option<seq<Entry>>)
    requires page.None? || !Wanted(c, ask)
    ensures var (d, next) := PageEnded(c, ask, page);
            if !Wanted(c, ask) then d == c && next == Stop
            else match ask
              case History(run, rest, _, _) =>
                var (e, more) := Restoring(c.(loading := c.loading - {run}), rest);
                d == e && next == (if more.Some? then Again(more.value) else Stop)
              case Live(_, _, _) => d == c.(refreshing := false, stream := None) && next == Stop
  {
  }

  /** A row is received exactly if it is of the run, has a safe number, and is past what was received. */
  lemma RowIsReceived(v: Shown, item: Entry, run: string)
    ensures var before := if run in v.cursors then v.cursors[run] else 0;
            var rows := if run in v.activities then v.activities[run] else [];
            Received(v, item, run) ==
            if item.run == run && before < item.number <= 9_007_199_254_740_991
            then Shown(v.cursors[run := item.number], v.activities[run := Changed(rows, item.body)])
            else v
  {
  }

  /** A page is received row by row, oldest first. */
  lemma {:induction false} PageIsReceivedInOrder(v: Shown, some: seq<Entry>, more: seq<Entry>, run: string)
    ensures ReceivedAll(v, some + more, run) == ReceivedAll(ReceivedAll(v, some, run), more, run)
    ensures forall item :: ReceivedAll(v, [item], run) == Received(v, item, run)
    decreases |some|
  {
    if some == [] {
      assert some + more == more;
    } else {
      assert (some + more)[1..] == some[1..] + more;
      PageIsReceivedInOrder(Received(v, some[0], run), some[1..], more, run);
    }
  }

  /** Streamed rows count while the stream is current; the end of a connection counts for the run followed now; and
      disposal cuts the stream and fences everything still under way. */
  lemma StreamDoes(c: Client, stream: Stream, item: Entry, epoch: nat)
    ensures Streamed(c, stream, item) ==
            if !c.disposed && stream.epoch == c.epoch && stream.id !in c.aborted then c.(shown := Received(c.shown, item, stream.run)) else c
    ensures ConnectEnded(c, epoch) == if !c.disposed && epoch == c.epoch then c.(refreshing := false, stream := None) else c
    ensures var d := Disposed(c);
            && Cut(c, d, 1) && d.disposed && d.conversationEpoch == c.conversationEpoch + 1
            && d == c.(epoch := d.epoch, stream := None, refreshing := false, aborted := d.aborted, disposed := true, conversationEpoch := d.conversationEpoch)
  {
  }
}
