/** What each step of the run inspector does, field by field, and that its list catches up with the log. */
module RunLaws {
  import opened Basics
  import opened EventLog
  import opened RunEvents

  /** The number a request starts from: that of the newest row shown, or none. */
  function Shown(c: Client): nat {
    if |c.events| == 0 then 0 else c.events[|c.events| - 1].number
  }

  /** A stream that was running is aborted and forgotten. */
  predicate Ends(c: Client, d: Client) {
    d.stream.None? && d.aborted == (if c.stream.Some? then c.aborted + {c.stream.value} else c.aborted)
  }

  /** A refresh asks for the selected run from the newest row shown, once per selection at a time. */
  lemma RefreshAsks(c: Client)
    ensures var (d, poll) := RefreshStarted(c);
            if c.runId != "" && !c.disposed && c.epoch !in c.refreshing
            then d == c.(refreshing := c.refreshing + {c.epoch}) && poll == Some(Poll(c.epoch, c.runId, Shown(c)))
            else d == c && poll.None?
  {
  }

  /** A selection starts over: a new epoch, an empty list, no stream, and a first refresh of the run. */
  lemma SelectStartsOver(c: Client, run: string)
    ensures var (d, poll) := Selected(c, run);
            && d.epoch == c.epoch + 1 && d.runId == run && d.events == [] && !d.active && Ends(c, d)
            && d.disposed == c.disposed && d.nextStream == c.nextStream
            && (if run != "" && !c.disposed && c.epoch + 1 !in c.refreshing
                then poll == Some(Poll(c.epoch + 1, run, 0)) && d.refreshing == c.refreshing + {c.epoch + 1}
                else poll.None? && d.refreshing == c.refreshing)
  {
  }

  /** A current refresh takes over whether the run is active and merges the run's own rows; an inactive
      run ends its stream, an active one without a stream gets one, from the newest row, once the pause
      is over.  A refresh of an earlier selection, a failed one and one of another owner only ends. */
  lemma RefreshEndsAs(c: Client, poll: Poll, reply: Reply, due: bool)
    ensures var (d, opening) := RefreshEnded(c, poll, reply, due);
            && d.refreshing == c.refreshing - {poll.epoch} && d.runId == c.runId && d.epoch == c.epoch && d.disposed == c.disposed
            && (if !c.disposed && poll.epoch == c.epoch && reply.Rows? then
                  && d.active == reply.active && d.events == Merged(c.events, Own(reply.rows, poll.run))
                  && (if !reply.active then opening.None? && Ends(c, d) && d.nextStream == c.nextStream
                      else if c.stream.None? && due then
                        && d.stream == Some(c.nextStream) && d.nextStream == c.nextStream + 1 && d.aborted == c.aborted
                        && opening == Some(Stream(c.nextStream, c.epoch, c.runId, Shown(d)))
                      else opening.None? && d.stream == c.stream && d.aborted == c.aborted && d.nextStream == c.nextStream)
                else opening.None? && d == c.(refreshing := d.refreshing))
  {
  }

  /** A row of the current stream is merged and asks for a refresh; any other row is dropped. */
  lemma RowIsTaken(c: Client, stream: Stream, item: Row)
    ensures var (d, poll) := Received(c, stream, item);
            if !c.disposed && stream.epoch == c.epoch && stream.id !in c.aborted && item.run == stream.run then
              && d == c.(events := Merged(c.events, [item]), refreshing := d.refreshing)
              && (if c.runId != "" && c.epoch !in c.refreshing
                  then poll == Some(Poll(c.epoch, c.runId, Shown(d))) && d.refreshing == c.refreshing + {c.epoch}
                  else poll.None? && d.refreshing == c.refreshing)
            else d == c && poll.None?
  {
  }

  /** Only the current stream's end is noted; disposal aborts it and fences everything still under way. */
  lemma StreamsEnd(c: Client, stream: Stream)
    ensures StreamEnded(c, stream) ==
            if !c.disposed && stream.epoch == c.epoch && c.stream == Some(stream.id) then c.(stream := None) else c
    ensures var d := Disposed(c);
            && d.disposed && d.epoch == c.epoch + 1 && Ends(c, d)
            && d == c.(disposed := true, epoch := d.epoch, stream := None, aborted := d.aborted)
  {
  }

  lemma WholeLogIsPage(log: seq<Row>, run: string, own: seq<Row>)
    requires own == Own(log, run) && Ascending(log)
    ensures Own(own, run) == own == After(own, 0)
  {
    OwnAscending(log, run);
    OwnOfOwn(own, run);
    AllAfter(own, 0);
  }

  /** Selecting a run and letting its first refresh through, with everything the log has of it, shows
      all of it, and opens a stream from its end if the run is active. */
  lemma SelectCatchesUp(c: Client, log: seq<Row>, run: string, active: bool)
    requires Ascending(log) && run != "" && !c.disposed && c.epoch + 1 !in c.refreshing
    ensures var own, (selected, poll) := Own(log, run), Selected(c, run);
            && poll.Some? && Own(own, run) == After(own, poll.value.after)
            && var (d, opening) := RefreshEnded(selected, poll.value, Rows(active, own), true);
            && d.events == own && d.runId == run && d.active == active && d.refreshing == c.refreshing
            && opening == (if active then Some(Stream(c.nextStream, c.epoch + 1, run, LastSeq(own))) else None)
            && d.stream == (if active then Some(c.nextStream) else None)
  {
    var own := Own(log, run);
    var (selected, poll) := Selected(c, run);
    SelectStartsOver(c, run);
    WholeLogIsPage(log, run, own);
    var merged := Merged(selected.events, Own(own, run));
    MergeGrows(selected, log, 0, own, merged);
    RefreshEndsAs(selected, poll.value, Rows(active, own), true);
  }

  /** From then on the next row of the log, delivered by that stream, keeps the list complete. */
  lemma StreamKeepsUp(c: Client, log: seq<Row>, stream: Stream, row: Row)
    requires Ascending(log) && row.number > LastSeq(log) && row.run == stream.run == c.runId
    requires Current(c, stream.epoch) && stream.id !in c.aborted && c.events == Own(log, c.runId)
    ensures Received(c, stream, row).0.events == Own(log + [row], c.runId)
  {
    OwnAppend(log, [row], c.runId);
    OwnAscending(log, c.runId);
    AllUpTo(log, c.runId);
    AfterLast(c.events, row);
    LongerAscends(log, row);
    assert Own([row], c.runId) == [row];
    MergeGrows(c, log + [row], LastSeq(c.events), [row], Merged(c.events, [row]));
    RowIsTaken(c, stream, row);
  }

  lemma LongerAscends(log: seq<Row>, row: Row)
    requires Ascending(log) && row.number > LastSeq(log)
    ensures Ascending(log + [row])
  {
    assert forall i | 0 <= i < |log| :: i < |log| - 1 ==> log[i].number < log[|log| - 1].number;
  }

  lemma AllUpTo(log: seq<Row>, run: string)
    requires Ascending(log)
    ensures forall i | 0 <= i < |Own(log, run)| :: Own(log, run)[i].number <= LastSeq(log)
    ensures LastSeq(Own(log, run)) <= LastSeq(log)
  {
    var own := Own(log, run);
    forall i | 0 <= i < |own| ensures own[i].number <= LastSeq(log) {
      assert own[i] in log;
      var j :| 0 <= j < |log| && log[j] == own[i];
      assert j < |log| - 1 ==> log[j].number < log[|log| - 1].number;
    }
  }

  lemma AfterLast(own: seq<Row>, row: Row)
    requires Ascending(own) && row.number > LastSeq(own)
    ensures After(own + [row], LastSeq(own)) == [row]
  {
    var longer, k := own + [row], |own|;
    assert forall i | 0 <= i < k :: longer[i] == own[i];
    assert forall i | 0 <= i < k :: i < k - 1 ==> own[i].number < own[k - 1].number;
    SplitAt(longer, LastSeq(own), k);
  }
}
