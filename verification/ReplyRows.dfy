/** What one durable event does to a run's list of text and tool rows (frontend/src/replyStream.ts,
    receive), and what the list says about the events it was built from. */
module ReplyRows {
  import opened Basics
  import opened EventLog

  const CAP: nat := 4 * 1024 * 1024

  datatype Status = Running | Completed | Failed

  /** The public content of an event: model text, tool activity, or nothing to show. */
  datatype Body =
    | Delta(call: string, text: string)
    | Turn(call: string, text: string, progress: bool)
    | Tool(key: string, tool: string, outcome: Option<Status>)
    | Hidden

  datatype RowId = TextRow(call: string) | ToolRow(key: string)
  datatype Row = Row(id: RowId, text: string, progress: Option<bool>, status: Status)

  function Capped(text: string): string {
    if |text| <= CAP then text else text[..CAP]
  }

  /** The row an event is about. */
  function IdOf(body: Body): Option<RowId> {
    match body
    case Delta(call, _) => Some(TextRow(call))
    case Turn(call, _, _) => Some(TextRow(call))
    case Tool(key, _, _) => Some(ToolRow(key))
    case Hidden => None
  }

  function Blank(body: Body): Row
    requires IdOf(body).Some?
  {
    Row(IdOf(body).value, if body.Tool? then body.tool else "", None, Running)
  }

  function Told(row: Row, body: Body): Row {
    match body
    case Delta(_, text) => row.(text := Capped(row.text + text))
    case Turn(_, text, progress) => row.(text := Capped(text), status := Completed, progress := Some(progress))
    case Tool(_, _, outcome) => row.(status := if outcome.Some? then outcome.value else row.status)
    case Hidden => row
  }

  /** Change the row the event is about, or append it first when there is none. */
  function Changed(rows: seq<Row>, body: Body): seq<Row> {
    if IdOf(body).None? then rows
    else if rows == [] then [Told(Blank(body), body)]
    else if rows[0].id == IdOf(body).value then [Told(rows[0], body)] + rows[1..]
    else [rows[0]] + Changed(rows[1..], body)
  }

  /** The list built from a stretch of events, oldest first. */
  function Rows(items: seq<Item<Body>>): seq<Row> {
    if items == [] then [] else Changed(Rows(items[..|items| - 1]), items[|items| - 1].body)
  }

  lemma {:induction false} ChangedFirst(rows: seq<Row>, body: Body, i: nat)
    requires IdOf(body).Some? && i <= |rows| && forall j | 0 <= j < i :: rows[j].id != IdOf(body).value
    requires i < |rows| ==> rows[i].id == IdOf(body).value
    ensures Changed(rows, body) == if i < |rows| then rows[i := Told(rows[i], body)] else rows + [Told(Blank(body), body)]
  {
    if i > 0 {
      ChangedFirst(rows[1..], body, i - 1);
    }
  }

  /** The code's own way: find the row, push a blank one when missing, update it in place. */
  method ChangeRow(rows: seq<Row>, body: Body) returns (changed: seq<Row>)
    ensures changed == Changed(rows, body)
  {
    var id := IdOf(body);
    if id.None? {
      return rows;
    }
    var i := 0;
    while i < |rows| && rows[i].id != id.value
      invariant i <= |rows| && forall j | 0 <= j < i :: rows[j].id != id.value
    {
      i := i + 1;
    }
    ChangedFirst(rows, body, i);
    changed := if i < |rows| then rows else rows + [Blank(body)];
    changed := changed[i := Told(changed[i], body)];
  }

  // ----- what the list means -----

  /** The distinct row ids, in order of first appearance. */
  function Ids(items: seq<Item<Body>>): seq<RowId> {
    if items == [] then []
    else
      var before, id := Ids(items[..|items| - 1]), IdOf(items[|items| - 1].body);
      if id.None? || id.value in before then before else before + [id.value]
  }

  /** The whole text of a call: everything since its last complete turn, that turn included. */
  function WholeText(items: seq<Item<Body>>, call: string): string {
    if items == [] then ""
    else
      var before, body := WholeText(items[..|items| - 1], call), items[|items| - 1].body;
      if body.Delta? && body.call == call then before + body.text
      else if body.Turn? && body.call == call then body.text
      else before
  }

  /** Whether the call's last complete turn, if any, was progress or final. */
  function LastPhase(items: seq<Item<Body>>, call: string): Option<bool> {
    if items == [] then None
    else
      var body := items[|items| - 1].body;
      if body.Turn? && body.call == call then Some(body.progress) else LastPhase(items[..|items| - 1], call)
  }

  /** The last outcome reported for a tool call. */
  function LastOutcome(items: seq<Item<Body>>, key: string): Status {
    if items == [] then Running
    else
      var body := items[|items| - 1].body;
      if body.Tool? && body.key == key && body.outcome.Some? then body.outcome.value
      else LastOutcome(items[..|items| - 1], key)
  }

  /** The name in the first event of a tool call; later events do not rename its row. */
  function FirstTool(items: seq<Item<Body>>, key: string): Option<string> {
    if items == [] then None
    else
      var before, body := FirstTool(items[..|items| - 1], key), items[|items| - 1].body;
      if before.None? && body.Tool? && body.key == key then Some(body.tool) else before
  }

  /** What one row must say, given all events. */
  ghost predicate Tells(row: Row, items: seq<Item<Body>>) {
    match row.id
    case TextRow(call) =>
      && row.text == Capped(WholeText(items, call)) && row.progress == LastPhase(items, call)
      && row.status == if row.progress.Some? then Completed else Running
    case ToolRow(key) =>
      FirstTool(items, key) == Some(row.text) && row.progress == None && row.status == LastOutcome(items, key)
  }

  lemma CapOnce(a: string, b: string)
    ensures Capped(Capped(a) + b) == Capped(a + b)
  {
    if |a| > CAP {
      assert (a[..CAP] + b)[..CAP] == a[..CAP] == (a + b)[..CAP];
    }
  }

  ghost predicate Distinct(rows: seq<Row>) {
    forall i, j | 0 <= i < j < |rows| :: rows[i].id != rows[j].id
  }

  ghost predicate Has(rows: seq<Row>, id: RowId) {
    exists i | 0 <= i < |rows| :: rows[i].id == id
  }

  lemma HasLater(rows: seq<Row>, id: RowId)
    requires rows != [] && rows[0].id != id
    ensures Has(rows, id) <==> Has(rows[1..], id)
  {
    if Has(rows, id) {
      var i :| 0 <= i < |rows| && rows[i].id == id;
      assert rows[1..][i - 1].id == id;
    }
    if Has(rows[1..], id) {
      var i :| 0 <= i < |rows[1..]| && rows[1..][i].id == id;
      assert rows[i + 1].id == id;
    }
  }

  lemma {:induction false} ChangedAt(rows: seq<Row>, body: Body)
    requires Distinct(rows) && IdOf(body).Some?
    ensures var id, after := IdOf(body).value, Changed(rows, body);
            && |after| == |rows| + (if Has(rows, id) then 0 else 1)
            && (forall i | 0 <= i < |rows| :: after[i] == if rows[i].id == id then Told(rows[i], body) else rows[i])
            && (!Has(rows, id) ==> after[|rows|] == Told(Blank(body), body))
  {
    var id := IdOf(body).value;
    if rows != [] && rows[0].id != id {
      var tail := rows[1..];
      assert forall i | 0 <= i < |tail| :: tail[i] == rows[i + 1];
      ChangedAt(tail, body);
      HasLater(rows, id);
      var after := Changed(rows, body);
      assert after == [rows[0]] + Changed(tail, body);
      forall i | 0 <= i < |rows| ensures after[i] == if rows[i].id == id then Told(rows[i], body) else rows[i] {
        if i > 0 { assert after[i] == Changed(tail, body)[i - 1]; }
      }
    } else if rows != [] {
      assert rows[0].id == id;
    }
  }

  /** The list has exactly one row per text call and tool call, in order of first appearance, and
      each row says what all its events say together, cut at the cap only once. */
  lemma {:induction false} RowsTell(items: seq<Item<Body>>)
    ensures var rows, ids := Rows(items), Ids(items);
            && |rows| == |ids| && Distinct(rows)
            && (forall i | 0 <= i < |rows| :: rows[i].id == ids[i] && Tells(rows[i], items))
  {
    if items != [] {
      var init, body := items[..|items| - 1], items[|items| - 1].body;
      RowsTell(init);
      if IdOf(body).Some? {
        RowsTellNext(Rows(init), init, items);
      } else {
        forall i | 0 <= i < |Rows(init)| ensures Tells(Rows(init)[i], items) { assert Tells(Rows(init)[i], init); }
      }
    }
  }

  lemma RowsTellNext(rows: seq<Row>, init: seq<Item<Body>>, items: seq<Item<Body>>)
    requires items != [] && init == items[..|items| - 1] && IdOf(items[|items| - 1].body).Some?
    requires |rows| == |Ids(init)| && Distinct(rows)
    requires forall i | 0 <= i < |rows| :: rows[i].id == Ids(init)[i] && Tells(rows[i], init)
    ensures var after, ids := Changed(rows, items[|items| - 1].body), Ids(items);
            && |after| == |ids| && Distinct(after)
            && (forall i | 0 <= i < |after| :: after[i].id == ids[i] && Tells(after[i], items))
  {
    var body := items[|items| - 1].body;
    ChangedAt(rows, body);
    IdsNext(rows, Ids(init), Changed(rows, body), body);
    forall i | 0 <= i < |Changed(rows, body)| ensures Tells(Changed(rows, body)[i], items) {
      if i < |rows| {
        TellsNext(rows[i], init, items);
      } else {
        assert Has(rows, IdOf(body).value) <==> IdOf(body).value in Ids(init);
        TellsFirst(body, init, items);
      }
    }
  }

  lemma IdsNext(rows: seq<Row>, ids: seq<RowId>, after: seq<Row>, body: Body)
    requires IdOf(body).Some? && |rows| == |ids| && Distinct(rows) && forall i | 0 <= i < |rows| :: rows[i].id == ids[i]
    requires var id := IdOf(body).value;
             && |after| == |rows| + (if Has(rows, id) then 0 else 1)
             && (forall i | 0 <= i < |rows| :: after[i] == if rows[i].id == id then Told(rows[i], body) else rows[i])
             && (!Has(rows, id) ==> after[|rows|] == Told(Blank(body), body))
    ensures var id := IdOf(body).value;
            var next := if id in ids then ids else ids + [id];
            |after| == |next| && Distinct(after) && forall i | 0 <= i < |after| :: after[i].id == next[i]
  {
    var id := IdOf(body).value;
    assert Has(rows, id) ==> id in ids;
    if id in ids {
      var i :| 0 <= i < |ids| && ids[i] == id;
      assert rows[i].id == id;
    }
  }

  lemma TellsNext(row: Row, init: seq<Item<Body>>, items: seq<Item<Body>>)
    requires items != [] && init == items[..|items| - 1] && Tells(row, init)
    ensures Tells(if IdOf(items[|items| - 1].body) == Some(row.id) then Told(row, items[|items| - 1].body) else row, items)
  {
    var body := items[|items| - 1].body;
    if body.Delta? && row.id == TextRow(body.call) {
      CapOnce(WholeText(init, body.call), body.text);
    }
  }

  lemma TellsFirst(body: Body, init: seq<Item<Body>>, items: seq<Item<Body>>)
    requires items != [] && init == items[..|items| - 1] && body == items[|items| - 1].body
    requires IdOf(body).Some? && IdOf(body).value !in Ids(init)
    ensures Tells(Told(Blank(body), body), items)
  {
    FirstOf(init, IdOf(body).value);
  }

  lemma {:induction false} FirstOf(items: seq<Item<Body>>, id: RowId)
    requires id !in Ids(items)
    ensures id.TextRow? ==> WholeText(items, id.call) == "" && LastPhase(items, id.call) == None
    ensures id.ToolRow? ==> FirstTool(items, id.key) == None && LastOutcome(items, id.key) == Running
  {
    if items != [] {
      FirstOf(items[..|items| - 1], id);
      assert IdOf(items[|items| - 1].body) != Some(id);
    }
  }
}
