/** Remembering the current pick on a compare-and-set server: the selection writes of the work-order
    and context controllers (frontend/src/workOrders.ts, frontend/src/context.ts).

    Both controllers run the same protocol; the context one adds a scope, and the work-order one is
    the special case of a single scope.  Writes form a chain: a job runs when the previous one has
    ended.  Each method is the code between two awaits.  Requests the client gave up on can still
    reach the server at any later time. */
module SelectionWrites {
  import opened Basics

  type Scope = string
  type Payload = string
  type Key = nat

  /** One pick; its key and expected revision are updated in place by the writes. */
  datatype Intent = Intent(scope: Scope, payload: Payload, key: Key, revision: Option<nat>)
  datatype Job = Job(pick: nat, recover: bool)
  datatype Phase = Idle | Reading(job: Job) | Saving(job: Job)
  datatype Client = Client(intents: seq<Intent>, picked: Option<nat>, writes: seq<Job>, phase: Phase, disposed: bool)

  /** The stored selection of a scope, as a reply carries it. */
  datatype Stored = Stored(revision: nat, payload: Payload, key: Option<Key>)
  datatype Save = Save(pick: nat, scope: Scope, payload: Payload, revision: nat, key: Key)

  // ----- the controller's steps, as functions -----

  function Remembered(c: Client, scope: Scope, payload: Payload, key: Key): Client {
    var n := |c.intents|;
    c.(intents := c.intents + [Intent(scope, payload, key, None)], picked := Some(n), writes := c.writes + [Job(n, false)])
  }

  function Confirmed(c: Client, pick: nat): Client {
    if c.picked == Some(pick) && !c.disposed then c.(picked := None, phase := Idle) else c.(phase := Idle)
  }

  /** The save request of a pick whose revision is known. */
  function Request(c: Client, pick: nat): Save
    requires pick < |c.intents| && c.intents[pick].revision.Some?
  {
    var i := c.intents[pick];
    Save(pick, i.scope, i.payload, i.revision.value, i.key)
  }

  function ReadDone(c: Client, current: Stored, freshKey: Key): (Client, Option<Save>)
    requires c.phase.Reading? && c.phase.job.pick < |c.intents|
  {
    var Job(pick, recover) := c.phase.job;
    var i := c.intents[pick];
    if i.revision.Some? && current.revision < i.revision.value then (c.(phase := Idle), None)
    else if recover && i.revision.Some? && current.revision > i.revision.value && current.payload == i.payload then
      (Confirmed(c, pick), None)
    else
      var key := if i.revision.Some? && i.revision.value != current.revision then freshKey else i.key;
      var after := c.(intents := c.intents[pick := i.(key := key, revision := Some(current.revision))],
                      phase := Saving(c.phase.job));
      (after, Some(Request(after, pick)))
  }

  predicate Acknowledges(i: Intent, reply: Stored) {
    && i.revision.Some?
    && reply.payload == i.payload
    && reply.revision == i.revision.value + 1
    && reply.key == Some(i.key)
  }

  function SaveDone(c: Client, reply: Option<Stored>): Client
    requires c.phase.Saving? && c.phase.job.pick < |c.intents|
  {
    if reply.Some? && Acknowledges(c.intents[c.phase.job.pick], reply.value) then Confirmed(c, c.phase.job.pick)
    else c.(phase := Idle)
  }

  /** flushSelection throws while a pick is unconfirmed. */
  predicate FlushedWell(c: Client) {
    c.picked.None?
  }

  ghost predicate Wf(c: Client) {
    && (c.picked.Some? ==> c.picked.value < |c.intents|)
    && (forall i | 0 <= i < |c.writes| :: c.writes[i].pick < |c.intents|)
    && (!c.phase.Idle? ==> c.phase.job.pick < |c.intents|)
  }

  class SelectionWriter {
    var intents: seq<Intent>
    var picked: Option<nat>
    var writes: seq<Job>
    var phase: Phase
    var disposed: bool

    ghost function View(): Client
      reads this
    {
      Client(intents, picked, writes, phase, disposed)
    }

    ghost predicate Valid()
      reads this
    {
      Wf(View())
    }

    constructor ()
      ensures Valid() && View() == Client([], None, [], Idle, false)
    {
      intents, picked, writes, phase, disposed := [], None, [], Idle, false;
    }

    method Remember(scope: Scope, payload: Payload, key: Key)
      requires Valid()
      modifies this
      ensures Valid() && View() == Remembered(old(View()), scope, payload, key)
    {
      var n := |intents|;
      intents := intents + [Intent(scope, payload, key, None)];
      picked := Some(n);
      writes := writes + [Job(n, false)];
    }

    /** The next job of the chain starts with its read. */
    method StartJob()
      requires Valid() && phase.Idle? && |writes| > 0
      modifies this
      ensures Valid() && View() == old(View()).(phase := Reading(old(writes)[0]), writes := old(writes)[1..])
    {
      phase := Reading(writes[0]);
      writes := writes[1..];
    }

    method Confirm(pick: nat)
      requires Valid()
      modifies this
      ensures Valid() && View() == Confirmed(old(View()), pick)
    {
      if picked == Some(pick) && !disposed {
        picked := None;
      }
      phase := Idle;
    }

    /** `None` stands for a failed read. */
    method OnRead(current: Option<Stored>, freshKey: Key) returns (send: Option<Save>)
      requires Valid() && phase.Reading?
      modifies this
      ensures Valid()
      ensures current.Some? ==> (View(), send) == ReadDone(old(View()), current.value, freshKey)
      ensures current.None? ==> View() == old(View()).(phase := Idle) && send.None?
    {
      send := None;
      var Job(pick, recover) := phase.job;
      var i := intents[pick];
      if current.None? || (i.revision.Some? && current.value.revision < i.revision.value) {
        phase := Idle;
        return;
      }
      if recover && i.revision.Some? && current.value.revision > i.revision.value && current.value.payload == i.payload {
        Confirm(pick);
        return;
      }
      var key := if i.revision.Some? && i.revision.value != current.value.revision then freshKey else i.key;
      intents := intents[pick := i.(key := key, revision := Some(current.value.revision))];
      phase := Saving(phase.job);
      send := Some(Save(pick, i.scope, i.payload, current.value.revision, key));
    }

    /** `None` stands for a failed or lost save. */
    method OnSaved(reply: Option<Stored>)
      requires Valid() && phase.Saving?
      modifies this
      ensures Valid() && View() == SaveDone(old(View()), reply)
    {
      var pick := phase.job.pick;
      var i := intents[pick];
      if reply.Some? && i.revision.Some? && reply.value.payload == i.payload && reply.value.revision == i.revision.value + 1
         && reply.value.key == Some(i.key) {
        Confirm(pick);
      } else {
        phase := Idle;
      }
    }

    /** flushSelection at a stable tail: an unconfirmed pick gets one recovering write. */
    method FlushTail()
      requires Valid() && phase.Idle? && writes == []
      modifies this
      ensures Valid()
      ensures View() == old(View()).(writes := if old(picked).Some? then [Job(old(picked).value, true)] else [])
    {
      if picked.Some? {
        writes := [Job(picked.value, true)];
      }
    }

    /** The final test of flushSelection. */
    method FlushReturns() returns (normally: bool)
      ensures normally <==> FlushedWell(View())
    {
      normally := picked == None;
    }
  }

  // ----- client, network and server -----

  /** All payloads ever stored for a scope, oldest first, and the key of the newest write. */
  datatype Board = Board(past: seq<Payload>, key: Option<Key>)
  type Server = map<Scope, Board>

  datatype Sys = Sys(client: Client, nextKey: Key, answer: Option<Stored>, sends: seq<Save>, replies: map<nat, Option<Stored>>,
                     server: Server)

  datatype Event =
    | Pick(scope: Scope, payload: Payload)
    | Start
    | ServeRead
    | DeliverRead
    | FailRead
    | ServeSave(send: nat, refuse: bool)
    | DeliverSave
    | FailSave
    | Flush
    | Foreign(scope: Scope, payload: Payload)
    | Dispose

  const START := Sys(Client([], None, [], Idle, false), 0, None, [], map[], map[])

  function Past(server: Server, scope: Scope): seq<Payload> {
    if scope in server then server[scope].past else []
  }

  function Selection(server: Server, scope: Scope): Stored {
    var past := Past(server, scope);
    Stored(|past|, if past == [] then "" else past[|past| - 1], if scope in server then server[scope].key else None)
  }

  function Written(server: Server, scope: Scope, payload: Payload, key: Option<Key>): Server {
    server[scope := Board(Past(server, scope) + [payload], key)]
  }

  /** The compare-and-set server: an exact replay of the stored request is answered with the stored
      selection; otherwise the expected revision must be current. */
  function Serve(server: Server, save: Save, refuse: bool): (Server, Option<Stored>) {
    var current := Selection(server, save.scope);
    if current.key == Some(save.key) then (server, Some(current))
    else if refuse || current.revision != save.revision then (server, None)
    else
      var after := Written(server, save.scope, save.payload, Some(save.key));
      (after, Some(Selection(after, save.scope)))
  }

  function Apply(s: Sys, e: Event): Sys {
    match e
    case Pick(scope, payload) => s.(client := Remembered(s.client, scope, payload, s.nextKey), nextKey := s.nextKey + 1)
    case Start =>
      if s.client.phase.Idle? && |s.client.writes| > 0 then
        s.(client := s.client.(phase := Reading(s.client.writes[0]), writes := s.client.writes[1..]), answer := None)
      else s
    case ServeRead =>
      if s.client.phase.Reading? && s.client.phase.job.pick < |s.client.intents| then
        s.(answer := Some(Selection(s.server, s.client.intents[s.client.phase.job.pick].scope)))
      else s
    case DeliverRead =>
      if s.client.phase.Reading? && s.client.phase.job.pick < |s.client.intents| && s.answer.Some? then
        var (after, send) := ReadDone(s.client, s.answer.value, s.nextKey);
        s.(client := after, nextKey := s.nextKey + 1, answer := None, sends := s.sends + if send.Some? then [send.value] else [])
      else s
    case FailRead => if s.client.phase.Reading? then s.(client := s.client.(phase := Idle), answer := None) else s
    case ServeSave(i, refuse) =>
      if i < |s.sends| && i !in s.replies then
        var (after, reply) := Serve(s.server, s.sends[i], refuse);
        s.(server := after, replies := s.replies[i := reply])
      else s
    case DeliverSave =>
      if s.client.phase.Saving? && s.client.phase.job.pick < |s.client.intents| && |s.sends| > 0 && |s.sends| - 1 in s.replies then
        s.(client := SaveDone(s.client, s.replies[|s.sends| - 1]))
      else s
    case FailSave => if s.client.phase.Saving? then s.(client := s.client.(phase := Idle)) else s
    case Flush =>
      if s.client.phase.Idle? && s.client.writes == [] && s.client.picked.Some? then
        s.(client := s.client.(writes := [Job(s.client.picked.value, true)]))
      else s
    case Foreign(scope, payload) => s.(server := Written(s.server, scope, payload, None))
    case Dispose => s.(client := s.client.(disposed := true))
  }

  function Exec(s: Sys, es: seq<Event>): Sys {
    if es == [] then s else Apply(Exec(s, es[..|es| - 1]), es[|es| - 1])
  }

  // ----- invariant -----

  /** Jobs run in pick order, and a pick that has not run yet has no revision. */
  ghost predicate QueueOk(c: Client, sends: seq<Save>) {
    && Wf(c)
    && (forall i, j | 0 <= i < j < |c.writes| :: c.writes[i].pick < c.writes[j].pick)
    && (!c.phase.Idle? ==> forall i | 0 <= i < |c.writes| :: c.phase.job.pick < c.writes[i].pick)
    && (c.picked.Some? ==> c.picked.value == |c.intents| - 1)
    && (c.picked.None? ==> c.phase.Idle? && c.writes == [])
    && (forall p, i | 0 <= p < |c.intents| && 0 <= i < |c.writes| && c.writes[i].pick < p :: c.intents[p].revision.None?)
    && (forall p | 0 <= p < |c.intents| && !c.phase.Idle? && c.phase.job.pick < p :: c.intents[p].revision.None?)
    && (c.phase.Saving? ==> c.intents[c.phase.job.pick].revision.Some? && |sends| > 0
                            && sends[|sends| - 1] == Request(c, c.phase.job.pick))
  }

  /** Expected revisions never run ahead of the server. */
  ghost predicate RevisionsOk(c: Client, sends: seq<Save>, server: Server) {
    && (forall p | 0 <= p < |c.intents| && c.intents[p].revision.Some? ::
          c.intents[p].revision.value <= |Past(server, c.intents[p].scope)|)
    && (forall i | 0 <= i < |sends| :: sends[i].pick < |c.intents| && sends[i].revision <= |Past(server, sends[i].scope)|)
  }

  /** ... nor ahead of a later pick of the same scope. */
  ghost predicate OrderOk(c: Client, sends: seq<Save>) {
    forall i, p | 0 <= i < |sends| && sends[i].pick < p < |c.intents| && c.intents[p].revision.Some?
                  && c.intents[p].scope == sends[i].scope ::
      sends[i].revision <= c.intents[p].revision.value
  }

  ghost predicate AnswerOk(c: Client, answer: Option<Stored>, sends: seq<Save>, server: Server) {
    answer.Some? && c.phase.Reading? && c.phase.job.pick < |c.intents| ==>
      var scope := c.intents[c.phase.job.pick].scope;
      && answer.value.revision <= |Past(server, scope)|
      && (answer.value.revision > 0 ==> answer.value.payload == Past(server, scope)[answer.value.revision - 1])
      && forall i | 0 <= i < |sends| && sends[i].scope == scope :: sends[i].revision <= answer.value.revision
  }

  /** A positive answer to a save shows a stored version. */
  ghost predicate RepliesOk(sends: seq<Save>, replies: map<nat, Option<Stored>>, server: Server) {
    forall i | i in replies && replies[i].Some? ::
      && i < |sends|
      && 0 < replies[i].value.revision <= |Past(server, sends[i].scope)|
      && Past(server, sends[i].scope)[replies[i].value.revision - 1] == replies[i].value.payload
  }

  /** The payload was the stored selection of the scope at version v. */
  ghost predicate StoredAt(server: Server, scope: Scope, payload: Payload, v: nat) {
    0 < v <= |Past(server, scope)| && Past(server, scope)[v - 1] == payload
  }

  ghost predicate LandedAt(server: Server, i: Intent, v: nat) {
    i.revision.Some? && i.revision.value < v && StoredAt(server, i.scope, i.payload, v)
  }

  /** The newest pick was stored at a version after the revision that it expected. */
  ghost predicate Landed(server: Server, i: Intent) {
    exists v :: LandedAt(server, i, v)
  }

  ghost predicate NewestLanded(c: Client, server: Server) {
    c.picked.None? && |c.intents| > 0 ==> Landed(server, c.intents[|c.intents| - 1])
  }

  ghost predicate ServerOk(server: Server) {
    forall scope | scope in server :: server[scope].past != []
  }

  ghost predicate Inv(s: Sys) {
    && QueueOk(s.client, s.sends)
    && RevisionsOk(s.client, s.sends, s.server)
    && OrderOk(s.client, s.sends)
    && AnswerOk(s.client, s.answer, s.sends, s.server)
    && RepliesOk(s.sends, s.replies, s.server)
    && NewestLanded(s.client, s.server)
    && ServerOk(s.server)
  }

  // ----- preservation -----

  /** The server only appends versions. */
  ghost predicate Grows(before: Server, after: Server) {
    forall scope: Scope :: Past(before, scope) <= Past(after, scope)
  }

  lemma GrowthKeeps(s: Sys, after: Server)
    requires Inv(s) && Grows(s.server, after) && ServerOk(after)
    ensures Inv(s.(server := after))
  {
    var c := s.client;
    assert RevisionsOk(c, s.sends, after) by {
      forall i | 0 <= i < |s.sends| ensures s.sends[i].revision <= |Past(after, s.sends[i].scope)| {
        assert Past(s.server, s.sends[i].scope) <= Past(after, s.sends[i].scope);
      }
      forall p | 0 <= p < |c.intents| && c.intents[p].revision.Some?
        ensures c.intents[p].revision.value <= |Past(after, c.intents[p].scope)|
      {
        assert Past(s.server, c.intents[p].scope) <= Past(after, c.intents[p].scope);
      }
    }
    assert RepliesOk(s.sends, s.replies, after) by {
      forall i | i in s.replies && s.replies[i].Some? ensures Past(s.server, s.sends[i].scope) <= Past(after, s.sends[i].scope) {
      }
    }
    if c.picked.None? && |c.intents| > 0 {
      var i := c.intents[|c.intents| - 1];
      var v :| LandedAt(s.server, i, v);
      assert Past(s.server, i.scope) <= Past(after, i.scope);
      assert LandedAt(after, i, v);
    }
    if c.phase.Reading? && c.phase.job.pick < |c.intents| {
      assert Past(s.server, c.intents[c.phase.job.pick].scope) <= Past(after, c.intents[c.phase.job.pick].scope);
    }
  }

  lemma PickQueue(c: Client, sends: seq<Save>, scope: Scope, payload: Payload, key: Key)
    requires QueueOk(c, sends)
    ensures QueueOk(Remembered(c, scope, payload, key), sends)
  {
    var d, n := Remembered(c, scope, payload, key), |c.intents|;
    assert forall p | 0 <= p < n :: d.intents[p] == c.intents[p];
    assert forall i | 0 <= i < |c.writes| :: d.writes[i] == c.writes[i] && d.writes[i].pick < n;
    assert d.writes[|c.writes|] == Job(n, false);
    forall i, j | 0 <= i < j < |d.writes| ensures d.writes[i].pick < d.writes[j].pick {
      if j < |c.writes| { assert c.writes[i].pick < c.writes[j].pick; }
    }
    forall p, i | 0 <= p < |d.intents| && 0 <= i < |d.writes| && d.writes[i].pick < p ensures d.intents[p].revision.None? {
      if p < n { assert c.writes[i].pick < p; }
    }
  }

  lemma PickKeeps(s: Sys, scope: Scope, payload: Payload)
    requires Inv(s)
    ensures Inv(Apply(s, Pick(scope, payload)))
  {
    var c, d := s.client, Remembered(s.client, scope, payload, s.nextKey);
    PickQueue(c, s.sends, scope, payload, s.nextKey);
    assert forall p | 0 <= p < |c.intents| :: d.intents[p] == c.intents[p];
    assert d.intents[|c.intents|].revision.None?;
  }

  lemma ServeGrows(server: Server, save: Save, refuse: bool)
    requires ServerOk(server)
    ensures var (after, reply) := Serve(server, save, refuse); Grows(server, after) && ServerOk(after)
  {
  }

  lemma ReplyOk(sends: seq<Save>, replies: map<nat, Option<Stored>>, server: Server, i: nat, refuse: bool)
    requires i < |sends| && RepliesOk(sends, replies, Serve(server, sends[i], refuse).0) && ServerOk(server)
    ensures var (after, reply) := Serve(server, sends[i], refuse); RepliesOk(sends, replies[i := reply], after)
  {
  }

  lemma ServeSaveKeeps(s: Sys, i: nat, refuse: bool)
    requires Inv(s) && i < |s.sends| && i !in s.replies
    ensures Inv(Apply(s, ServeSave(i, refuse)))
  {
    ServeGrows(s.server, s.sends[i], refuse);
    GrowthKeeps(s, Serve(s.server, s.sends[i], refuse).0);
    ReplyOk(s.sends, s.replies, s.server, i, refuse);
  }

  /** A step that touches no intent and leaves the pick as it is. */
  lemma SameIntentsKeep(s: Sys, d: Client, answer: Option<Stored>)
    requires Inv(s) && d.intents == s.client.intents && d.picked == s.client.picked && QueueOk(d, s.sends)
    requires answer.Some? ==> answer == s.answer && d.phase == s.client.phase
    ensures Inv(s.(client := d, answer := answer))
  {
    assert RevisionsOk(d, s.sends, s.server);
    assert OrderOk(d, s.sends);
  }

  lemma IdleQueue(c: Client, sends: seq<Save>)
    requires QueueOk(c, sends)
    ensures QueueOk(c.(phase := Idle), sends)
  {
  }

  /** A waiting job belongs to a newer pick than the running one. */
  lemma WaitingJobIsNewer(c: Client, sends: seq<Save>)
    requires QueueOk(c, sends) && !c.phase.Idle? && c.writes != []
    ensures c.picked != Some(c.phase.job.pick)
  {
    assert c.phase.job.pick < c.writes[0].pick;
  }

  lemma ConfirmQueue(c: Client, sends: seq<Save>)
    requires QueueOk(c, sends) && !c.phase.Idle?
    ensures QueueOk(Confirmed(c, c.phase.job.pick), sends)
  {
    if c.writes != [] { WaitingJobIsNewer(c, sends); }
  }

  lemma ConfirmKeeps(s: Sys, v: nat, answer: Option<Stored>)
    requires Inv(s) && !s.client.phase.Idle? && (answer.None? || answer == s.answer)
    requires LandedAt(s.server, s.client.intents[s.client.phase.job.pick], v)
    ensures Inv(s.(client := Confirmed(s.client, s.client.phase.job.pick), answer := answer))
  {
    var d := Confirmed(s.client, s.client.phase.job.pick);
    ConfirmQueue(s.client, s.sends);
    assert Landed(s.server, s.client.intents[s.client.phase.job.pick]);
    assert NewestLanded(d, s.server);
    assert RevisionsOk(d, s.sends, s.server);
    assert OrderOk(d, s.sends);
  }

  lemma SendKeeps(s: Sys, client: Client, save: Save)
    requires Inv(s) && s.client.phase.Reading? && s.answer.Some?
    requires ReadDone(s.client, s.answer.value, s.nextKey) == (client, Some(save))
    ensures Inv(s.(client := client, answer := None, sends := s.sends + [save]))
  {
    var c := s.client;
    var pick := c.phase.job.pick;
    var sends := s.sends + [save];
    assert forall p | 0 <= p < |c.intents| && p != pick :: client.intents[p] == c.intents[p];
    assert forall i | 0 <= i < |s.sends| :: sends[i] == s.sends[i];
    assert QueueOk(client, sends);
    assert RevisionsOk(client, sends, s.server);
    assert OrderOk(client, sends);
    assert RepliesOk(sends, s.replies, s.server);
  }

  lemma ReadConfirms(s: Sys, current: Stored)
    requires Inv(s) && s.client.phase.Reading? && s.answer == Some(current)
    requires s.client.intents[s.client.phase.job.pick].revision.Some?
    requires current.revision > s.client.intents[s.client.phase.job.pick].revision.value
    requires current.payload == s.client.intents[s.client.phase.job.pick].payload
    ensures Inv(s.(client := Confirmed(s.client, s.client.phase.job.pick), answer := None))
  {
    ConfirmKeeps(s, current.revision, None);
  }

  lemma DeliverReadKeeps(s: Sys)
    requires Inv(s) && s.client.phase.Reading? && s.answer.Some?
    ensures Inv(Apply(s, DeliverRead))
  {
    var c := s.client;
    var (client, send) := ReadDone(c, s.answer.value, s.nextKey);
    if send.Some? {
      SendKeeps(s, client, send.value);
    } else if client == c.(phase := Idle) {
      IdleQueue(c, s.sends);
      SameIntentsKeep(s, client, None);
    } else {
      ReadConfirms(s, s.answer.value);
    }
  }

  lemma DeliverSaveKeeps(s: Sys)
    requires Inv(s) && s.client.phase.Saving? && |s.sends| > 0 && |s.sends| - 1 in s.replies
    ensures Inv(Apply(s, DeliverSave))
  {
    var c := s.client;
    var reply := s.replies[|s.sends| - 1];
    if reply.Some? && Acknowledges(c.intents[c.phase.job.pick], reply.value) {
      assert LandedAt(s.server, c.intents[c.phase.job.pick], reply.value.revision);
      ConfirmKeeps(s, reply.value.revision, s.answer);
    } else {
      EndedSaveKeeps(s);
    }
  }

  lemma EndedSaveKeeps(s: Sys)
    requires Inv(s) && s.client.phase.Saving?
    ensures Inv(s.(client := s.client.(phase := Idle)))
  {
    IdleQueue(s.client, s.sends);
    assert AnswerOk(s.client.(phase := Idle), s.answer, s.sends, s.server);
    SameIntentsKeep(s, s.client.(phase := Idle), None);
  }

  lemma StartKeeps(s: Sys)
    requires Inv(s) && s.client.phase.Idle? && s.client.writes != []
    ensures Inv(Apply(s, Start))
  {
    var c := s.client;
    var d := c.(phase := Reading(c.writes[0]), writes := c.writes[1..]);
    assert forall i | 0 <= i < |d.writes| :: d.writes[i] == c.writes[i + 1];
    assert QueueOk(d, s.sends);
  }

  lemma FlushKeeps(s: Sys)
    requires Inv(s)
    ensures Inv(Apply(s, Flush))
  {
    var after := Apply(s, Flush);
    assert QueueOk(after.client, s.sends) by { assert after.client.intents == s.client.intents; }
  }

  lemma FailKeeps(s: Sys)
    requires Inv(s)
    ensures Inv(Apply(s, FailRead)) && Inv(Apply(s, FailSave))
  {
    IdleQueue(s.client, s.sends);
    if s.client.phase.Reading? {
      SameIntentsKeep(s, s.client.(phase := Idle), None);
    } else if s.client.phase.Saving? {
      EndedSaveKeeps(s);
    }
  }

  lemma ServeReadKeeps(s: Sys)
    requires Inv(s)
    ensures Inv(Apply(s, ServeRead))
  {
  }

  lemma ForeignKeeps(s: Sys, scope: Scope, payload: Payload)
    requires Inv(s)
    ensures Inv(Apply(s, Foreign(scope, payload)))
  {
    GrowthKeeps(s, Written(s.server, scope, payload, None));
  }

  lemma DisposeKeeps(s: Sys)
    requires Inv(s)
    ensures Inv(Apply(s, Dispose))
  {
    var d := s.client.(disposed := true);
    assert QueueOk(d, s.sends);
    SameIntentsKeep(s, d, s.answer);
  }

  lemma StepKeeps(s: Sys, e: Event)
    requires Inv(s)
    ensures Inv(Apply(s, e))
  {
    match e {
      case Pick(scope, payload) => PickKeeps(s, scope, payload);
      case ServeSave(i, refuse) => if i < |s.sends| && i !in s.replies { ServeSaveKeeps(s, i, refuse); }
      case DeliverRead => if s.client.phase.Reading? && s.answer.Some? { DeliverReadKeeps(s); }
      case DeliverSave => if s.client.phase.Saving? && |s.sends| > 0 && |s.sends| - 1 in s.replies { DeliverSaveKeeps(s); }
      case Foreign(scope, payload) => ForeignKeeps(s, scope, payload);
      case Start => if s.client.phase.Idle? && s.client.writes != [] { StartKeeps(s); }
      case Flush => FlushKeeps(s);
      case FailRead => FailKeeps(s);
      case FailSave => FailKeeps(s);
      case ServeRead => ServeReadKeeps(s);
      case Dispose => DisposeKeeps(s);
    }
  }

  lemma {:induction false} ReachableInv(es: seq<Event>)
    ensures Inv(Exec(START, es))
  {
    if es != [] {
      ReachableInv(es[..|es| - 1]);
      StepKeeps(Exec(START, es[..|es| - 1]), es[|es| - 1]);
    }
  }

  lemma StepGrows(s: Sys, e: Event)
    ensures Grows(s.server, Apply(s, e).server) && s.sends <= Apply(s, e).sends
  {
  }

  lemma {:induction false} ExecGrows(s: Sys, es: seq<Event>)
    ensures Grows(s.server, Exec(s, es).server) && s.sends <= Exec(s, es).sends
  {
    if es != [] {
      var before := Exec(s, es[..|es| - 1]);
      ExecGrows(s, es[..|es| - 1]);
      StepGrows(before, es[|es| - 1]);
      forall scope: Scope ensures Past(s.server, scope) <= Past(Exec(s, es).server, scope) {
        assert Past(s.server, scope) <= Past(before.server, scope) <= Past(Exec(s, es).server, scope);
      }
    }
  }

  // ----- what was picked -----

  /** The user's picks, oldest first. */
  function Picks(es: seq<Event>): seq<(Scope, Payload)> {
    if es == [] then []
    else
      var e := es[|es| - 1];
      Picks(es[..|es| - 1]) + if e.Pick? then [(e.scope, e.payload)] else []
  }

  /** A step that remembers a pick. */
  predicate Remembers(s: Sys, t: Sys, scope: Scope, payload: Payload) {
    && t.client.intents == s.client.intents + [Intent(scope, payload, s.nextKey, None)] && t.sends == s.sends
    && t.nextKey == s.nextKey + 1 && t.client.picked == Some(|s.client.intents|)
  }

  /** A step that sends pick `i`, under a fresh key exactly if its expected revision moves. */
  predicate SendsPick(s: Sys, t: Sys, i: nat) {
    && i < |s.client.intents| && |t.sends| == |s.sends| + 1 && t.nextKey == s.nextKey + 1 && t.client.picked == s.client.picked
    && var was, save := s.client.intents[i], t.sends[|s.sends|];
    && t.sends == s.sends + [save]
    && save == Save(i, was.scope, was.payload, save.revision, save.key)
    && t.client.intents == s.client.intents[i := Intent(was.scope, was.payload, save.key, Some(save.revision))]
    && (was.revision.Some? ==> was.revision.value <= save.revision)
    && save.key == if was.revision.Some? && was.revision.value != save.revision then s.nextKey else was.key
  }

  predicate LeavesPicks(s: Sys, t: Sys) {
    && t.client.intents == s.client.intents && t.sends == s.sends && t.nextKey >= s.nextKey
    && (t.client.picked == s.client.picked || t.client.picked.None?)
  }

  lemma ReadMoves(s: Sys)
    requires Wf(s.client)
    ensures var t := Apply(s, DeliverRead); LeavesPicks(s, t) || (s.client.phase.Reading? && SendsPick(s, t, s.client.phase.job.pick))
  {
    if s.client.phase.Reading? && s.answer.Some? {
      var (after, send) := ReadDone(s.client, s.answer.value, s.nextKey);
      if send.Some? { assert SendsPick(s, Apply(s, DeliverRead), s.client.phase.job.pick); }
    }
  }

  lemma OthersLeavePicks(s: Sys, e: Event)
    requires Wf(s.client) && !e.Pick? && !e.DeliverRead?
    ensures LeavesPicks(s, Apply(s, e))
  {
  }

  /** Intents and requests carry the scope and payload of their pick. */
  ghost predicate Carries(s: Sys, picks: seq<(Scope, Payload)>) {
    && |s.client.intents| == |picks|
    && (forall i | 0 <= i < |picks| :: s.client.intents[i].scope == picks[i].0 && s.client.intents[i].payload == picks[i].1)
    && (forall k | 0 <= k < |s.sends| ::
          s.sends[k].pick < |picks| && s.sends[k].scope == picks[s.sends[k].pick].0 && s.sends[k].payload == picks[s.sends[k].pick].1)
    && (s.client.picked.Some? ==> s.client.picked.value == |picks| - 1)
  }

  /** Keys are minted in order, belong to one pick each, and change with the expected revision. */
  ghost predicate KeysOk(s: Sys) {
    && PickKeys(s.client.intents, s.nextKey) && SendKeys(s.client.intents, s.sends, s.nextKey)
    && LatestKeys(s.client.intents, s.sends) && RepeatedKeys(s.sends)
  }

  ghost predicate PickKeys(intents: seq<Intent>, next: Key) {
    && (forall i | 0 <= i < |intents| :: intents[i].key < next)
    && (forall i, j | 0 <= i < j < |intents| :: intents[i].key != intents[j].key)
  }

  ghost predicate SendKeys(intents: seq<Intent>, sends: seq<Save>, next: Key) {
    && (forall k | 0 <= k < |sends| :: sends[k].key < next && sends[k].pick < |intents|)
    && (forall k, i | 0 <= k < |sends| && 0 <= i < |intents| :: sends[k].key == intents[i].key ==> sends[k].pick == i)
  }

  ghost predicate LatestKeys(intents: seq<Intent>, sends: seq<Save>) {
    forall k | 0 <= k < |sends| ::
      && sends[k].pick < |intents|
      && var i := intents[sends[k].pick];
      && i.revision.Some? && sends[k].revision <= i.revision.value
      && (sends[k].revision == i.revision.value <==> sends[k].key == i.key)
  }

  ghost predicate RepeatedKeys(sends: seq<Save>) {
    forall j, k | 0 <= j < k < |sends| ::
      sends[j].key == sends[k].key <==> sends[j].pick == sends[k].pick && sends[j].revision == sends[k].revision
  }

  lemma RememberCarries(s: Sys, t: Sys, picks: seq<(Scope, Payload)>, scope: Scope, payload: Payload)
    requires Carries(s, picks) && Remembers(s, t, scope, payload)
    ensures Carries(t, picks + [(scope, payload)]) && (KeysOk(s) ==> KeysOk(t))
  {
    assert forall i | 0 <= i < |picks| :: t.client.intents[i] == s.client.intents[i];
  }

  lemma SendCarries(s: Sys, t: Sys, picks: seq<(Scope, Payload)>, i: nat)
    requires Carries(s, picks) && SendsPick(s, t, i)
    ensures Carries(t, picks)
  {
    assert forall k | 0 <= k < |s.sends| :: t.sends[k] == s.sends[k];
  }

  lemma SendKeepsPickKeys(s: Sys, t: Sys, i: nat)
    requires KeysOk(s) && SendsPick(s, t, i)
    ensures PickKeys(t.client.intents, t.nextKey) && SendKeys(t.client.intents, t.sends, t.nextKey)
  {
    assert forall k | 0 <= k < |s.sends| :: t.sends[k] == s.sends[k];
    assert forall j | 0 <= j < |s.client.intents| && j != i :: t.client.intents[j] == s.client.intents[j];
  }

  lemma SendKeepsLatest(s: Sys, t: Sys, i: nat)
    requires KeysOk(s) && SendsPick(s, t, i)
    ensures LatestKeys(t.client.intents, t.sends) && RepeatedKeys(t.sends)
  {
    assert forall k | 0 <= k < |s.sends| :: t.sends[k] == s.sends[k];
    forall k | 0 <= k < |s.sends|
      ensures s.sends[k].key == t.sends[|s.sends|].key <==> s.sends[k].pick == i && s.sends[k].revision == t.sends[|s.sends|].revision
    {
      assert s.sends[k].pick == i ==> s.sends[k].revision <= s.client.intents[i].revision.value;
    }
  }

  lemma StepCarries(s: Sys, e: Event, picks: seq<(Scope, Payload)>)
    requires Wf(s.client) && Carries(s, picks) && KeysOk(s)
    ensures Carries(Apply(s, e), picks + if e.Pick? then [(e.scope, e.payload)] else []) && KeysOk(Apply(s, e))
  {
    var t := Apply(s, e);
    if e.Pick? {
      RememberCarries(s, t, picks, e.scope, e.payload);
    } else {
      assert picks + [] == picks;
      if e.DeliverRead? {
        ReadMoves(s);
        if !LeavesPicks(s, t) {
          SendCarries(s, t, picks, s.client.phase.job.pick);
          SendKeepsPickKeys(s, t, s.client.phase.job.pick);
          SendKeepsLatest(s, t, s.client.phase.job.pick);
        }
      } else {
        OthersLeavePicks(s, e);
      }
    }
  }

  lemma {:induction false} PicksAreCarried(es: seq<Event>)
    ensures Carries(Exec(START, es), Picks(es)) && KeysOk(Exec(START, es))
  {
    if es != [] {
      PicksAreCarried(es[..|es| - 1]);
      ReachableInv(es[..|es| - 1]);
      StepCarries(Exec(START, es[..|es| - 1]), es[|es| - 1], Picks(es[..|es| - 1]));
    }
  }

  /** Every request ever sent says what was picked, under a key of its own for each pick and expected
      revision: two requests with one key are the same request.  The pending pick is the newest one. */
  lemma SendsSayPicks(es: seq<Event>)
    ensures var s, picks := Exec(START, es), Picks(es);
            && (forall k | 0 <= k < |s.sends| ::
                  s.sends[k].pick < |picks| && s.sends[k].scope == picks[s.sends[k].pick].0 && s.sends[k].payload == picks[s.sends[k].pick].1)
            && (forall j, k | 0 <= j < k < |s.sends| ::
                  s.sends[j].key == s.sends[k].key <==> s.sends[j].pick == s.sends[k].pick && s.sends[j].revision == s.sends[k].revision)
            && (s.client.picked.Some? ==> s.client.picked.value == |picks| - 1)
  {
    PicksAreCarried(es);
  }

  // ----- main results -----

  /** Last pick wins.  When a flush returns normally, no write is under way or waiting, what was picked
      last has been the stored selection of its scope at some version v, and every request this client
      ever sent for an earlier pick of that scope expects a revision below v. */
  lemma LastPickWins(es: seq<Event>)
    requires FlushedWell(Exec(START, es).client) && Picks(es) != []
    ensures Exec(START, es).client.phase.Idle? && Exec(START, es).client.writes == []
    ensures var s := Exec(START, es);
            var (scope, payload) := Picks(es)[|Picks(es)| - 1];
            exists v :: StoredAt(s.server, scope, payload, v)
                        && forall k | 0 <= k < |s.sends| && s.sends[k].pick < |Picks(es)| - 1 && s.sends[k].scope == scope ::
                             s.sends[k].revision < v
  {
    ReachableInv(es);
    PicksAreCarried(es);
    var s := Exec(START, es);
    var v :| LandedAt(s.server, s.client.intents[|s.client.intents| - 1], v);
  }

  lemma StaleIsRefused(server: Server, save: Save, refuse: bool)
    requires save.revision < |Past(server, save.scope)|
    ensures Serve(server, save, refuse).0 == server
  {
  }

  /** A request that expects a revision the server is past is refused, now and forever. */
  lemma OutrunForever(s: Sys, more: seq<Event>, k: nat, refuse: bool)
    requires k < |s.sends| && s.sends[k].revision < |Past(s.server, s.sends[k].scope)|
    ensures var t := Exec(s, more);
            k < |t.sends| && t.sends[k] == s.sends[k] && Serve(t.server, t.sends[k], refuse).0 == t.server
  {
    var t := Exec(s, more);
    ExecGrows(s, more);
    assert Past(s.server, s.sends[k].scope) <= Past(t.server, s.sends[k].scope);
    StaleIsRefused(t.server, s.sends[k], refuse);
  }

  /** ... so no earlier pick, however long the network delays its request, can be applied at any later
      time: whatever happens next, serving it leaves the stored selection as it is. */
  lemma EarlierPicksCannotReturn(es: seq<Event>, more: seq<Event>, k: nat, refuse: bool)
    requires FlushedWell(Exec(START, es).client) && Picks(es) != [] && k < |Exec(START, es).sends|
    requires var save := Exec(START, es).sends[k]; save.pick < |Picks(es)| - 1 && save.scope == Picks(es)[|Picks(es)| - 1].0
    ensures var t := Exec(Exec(START, es), more);
            k < |t.sends| && t.sends[k] == Exec(START, es).sends[k] && Serve(t.server, t.sends[k], refuse).0 == t.server
  {
    LastPickWins(es);
    OutrunForever(Exec(START, es), more, k, refuse);
  }

  // ----- what a write achieves -----

  /** The end of a save: an acknowledgement of exactly this write confirms the pick if it is still the
      newest one, unless the controller was disposed; anything else leaves the pick pending. */
  lemma SaveEndsAs(c: Client, reply: Option<Stored>)
    requires c.phase.Saving? && c.phase.job.pick < |c.intents|
    ensures var i := c.intents[c.phase.job.pick];
            var exact := reply.Some? && i.revision.Some? && reply.value == Stored(i.revision.value + 1, i.payload, Some(i.key));
            SaveDone(c, reply) ==
            c.(phase := Idle, picked := if exact && c.picked == Some(c.phase.job.pick) && !c.disposed then None else c.picked)
  {
  }

  /** The end of a read: a selection behind the expected revision ends the write; a recovering write
      whose payload is stored past it is confirmed; any other goes on to its save, which expects exactly
      the revision read, under a fresh key if that moved. */
  lemma ReadEndsAs(c: Client, current: Stored, freshKey: Key)
    requires c.phase.Reading? && c.phase.job.pick < |c.intents|
    ensures var (d, send) := ReadDone(c, current, freshKey);
            var pick, i := c.phase.job.pick, c.intents[c.phase.job.pick];
            if i.revision.Some? && current.revision < i.revision.value then send.None? && d == c.(phase := Idle)
            else if c.phase.job.recover && i.revision.Some? && current.revision > i.revision.value && current.payload == i.payload then
              send.None? && d == c.(phase := Idle, picked := if c.picked == Some(pick) && !c.disposed then None else c.picked)
            else
              var key := if i.revision == None || i.revision == Some(current.revision) then i.key else freshKey;
              && send == Some(Save(pick, i.scope, i.payload, current.revision, key))
              && d == c.(phase := Saving(c.phase.job), intents := c.intents[pick := Intent(i.scope, i.payload, key, Some(current.revision))])
  {
  }

  ghost predicate SentUnder(sends: seq<Save>, key: Key) {
    exists k :: 0 <= k < |sends| && sends[k].key == key
  }

  /** The keys at the server are those of requests, and none is answered before it is sent. */
  ghost predicate Served(server: Server, sends: seq<Save>, replies: map<nat, Option<Stored>>) {
    && (forall scope | scope in server && server[scope].key.Some? :: SentUnder(sends, server[scope].key.value))
    && (forall k | k in replies :: k < |sends|)
  }

  lemma ServeKeepsServed(server: Server, sends: seq<Save>, replies: map<nat, Option<Stored>>, i: nat, refuse: bool)
    requires Served(server, sends, replies) && i < |sends|
    ensures var (after, reply) := Serve(server, sends[i], refuse); Served(after, sends, replies[i := reply])
  {
  }

  lemma MoreServed(server: Server, sends: seq<Save>, more: seq<Save>, replies: map<nat, Option<Stored>>)
    requires Served(server, sends, replies) && sends <= more
    ensures Served(server, more, replies)
  {
    forall scope | scope in server && server[scope].key.Some? ensures SentUnder(more, server[scope].key.value) {
      var k :| 0 <= k < |sends| && sends[k].key == server[scope].key.value;
      assert more[k] == sends[k];
    }
  }

  lemma StepServed(s: Sys, e: Event)
    requires Served(s.server, s.sends, s.replies)
    ensures var t := Apply(s, e); Served(t.server, t.sends, t.replies)
  {
    match e {
      case ServeSave(i, refuse) => if i < |s.sends| { ServeKeepsServed(s.server, s.sends, s.replies, i, refuse); }
      case DeliverRead => MoreServed(s.server, s.sends, Apply(s, e).sends, s.replies);
      case Foreign(_, _) =>
      case _ =>
    }
  }

  lemma {:induction false} ReachableServed(es: seq<Event>)
    ensures var s := Exec(START, es); Served(s.server, s.sends, s.replies)
  {
    if es != [] {
      ReachableServed(es[..|es| - 1]);
      StepServed(Exec(START, es[..|es| - 1]), es[|es| - 1]);
    }
  }

  /** A key that no request carries is not the stored one. */
  lemma UnsentKey(server: Server, sends: seq<Save>, replies: map<nat, Option<Stored>>, scope: Scope, key: Key)
    requires Served(server, sends, replies) && !SentUnder(sends, key)
    ensures Selection(server, scope).key != Some(key)
  {
  }

  /** The read of the only waiting write, answered at once. */
  function Read(s: Sys): Sys {
    Apply(Apply(Apply(s, Start), ServeRead), DeliverRead)
  }

  /** The save just sent, taken by the server and answered. */
  function Saved(s: Sys): Sys {
    if s.sends == [] then s else Apply(Apply(s, ServeSave(|s.sends| - 1, false)), DeliverSave)
  }

  lemma ReadSends(s: Sys, job: Job, i: Intent)
    requires Wf(s.client) && s.client.phase.Idle? && s.client.writes == [job] && job.pick < |s.client.intents|
    requires s.client.intents[job.pick] == i
    requires i.revision.Some? ==> i.revision.value <= |Past(s.server, i.scope)|
    requires job.recover && i.revision.Some? && i.revision.value < |Past(s.server, i.scope)| ==> Selection(s.server, i.scope).payload != i.payload
    ensures var t, r := Read(s), |Past(s.server, i.scope)|;
            var key := if i.revision.Some? && i.revision.value != r then s.nextKey else i.key;
            && t.server == s.server && t.replies == s.replies && t.sends == s.sends + [Save(job.pick, i.scope, i.payload, r, key)]
            && t.client == s.client.(writes := [], phase := Saving(job), intents := s.client.intents[job.pick := i.(key := key, revision := Some(r))])
  {
    assert s.client.writes[1..] == [];
    var started := Apply(s, Start);
    assert started.client == s.client.(phase := Reading(job), writes := []);
    var served := Apply(started, ServeRead);
    assert served.answer == Some(Selection(s.server, i.scope));
  }

  lemma SaveLands(s: Sys, job: Job, save: Save)
    requires Wf(s.client) && s.client.phase == Saving(job) && s.sends != [] && s.sends[|s.sends| - 1] == save
    requires |s.sends| - 1 !in s.replies && save.revision == |Past(s.server, save.scope)| && Selection(s.server, save.scope).key != Some(save.key)
    requires job.pick < |s.client.intents| && s.client.intents[job.pick] == Intent(save.scope, save.payload, save.key, Some(save.revision))
    ensures var t := Saved(s);
            && Past(t.server, save.scope) == Past(s.server, save.scope) + [save.payload]
            && t.client == Confirmed(s.client, job.pick)
  {
    var served := Apply(s, ServeSave(|s.sends| - 1, false));
    assert Past(served.server, save.scope) == Past(s.server, save.scope) + [save.payload];
    assert served.replies[|s.sends| - 1] == Some(Stored(save.revision + 1, save.payload, Some(save.key)));
  }

  /** A pick on an idle writer, left undisturbed, is stored as the next version of its scope and
      confirmed, with nothing left to write. */
  lemma PickIsSaved(es: seq<Event>, scope: Scope, payload: Payload)
    requires var c := Exec(START, es).client; c.phase.Idle? && c.writes == [] && !c.disposed
    ensures var s := Exec(START, es);
            var t := Saved(Read(Apply(s, Pick(scope, payload))));
            && t.client.picked.None? && t.client.phase.Idle? && t.client.writes == []
            && Past(t.server, scope) == Past(s.server, scope) + [payload]
  {
    var s := Exec(START, es);
    ReachableInv(es);
    ReachableServed(es);
    PicksAreCarried(es);
    var picked := Apply(s, Pick(scope, payload));
    var job := Job(|s.client.intents|, false);
    assert picked.client.writes == [job];
    ReadSends(picked, job, picked.client.intents[job.pick]);
    var read := Read(picked);
    UnsentKey(s.server, s.sends, s.replies, scope, s.nextKey);
    SaveLands(read, job, read.sends[|s.sends|]);
  }

  /** A flush finds a save whose reply was lost: the pending pick is confirmed by what the server holds,
      and nothing is sent or written. */
  lemma FlushConfirms(es: seq<Event>)
    requires var c := Exec(START, es).client; c.phase.Idle? && c.writes == [] && !c.disposed && c.picked.Some? && c.picked.value < |c.intents| && Picks(es) != []
    requires var s := Exec(START, es);
             var (scope, payload) := Picks(es)[|Picks(es)| - 1];
             && s.client.intents[s.client.picked.value].revision.Some?
             && s.client.intents[s.client.picked.value].revision.value < |Past(s.server, scope)|
             && Selection(s.server, scope).payload == payload
    ensures var s, t := Exec(START, es), Read(Apply(Exec(START, es), Flush));
            t.client.picked.None? && t.client.phase.Idle? && t.client.writes == [] && t.sends == s.sends && t.server == s.server
  {
    var s := Exec(START, es);
    ReachableInv(es);
    PicksAreCarried(es);
    var job := Job(s.client.picked.value, true);
    var flushed := Apply(s, Flush);
    assert flushed.client.writes == [job] && flushed.client.writes[1..] == [];
    var served := Apply(Apply(flushed, Start), ServeRead);
    assert served.client == s.client.(phase := Reading(job), writes := []);
  }

  /** A flush finds another selection in place of the pending pick: it writes the pick again, over what
      is stored, and confirms it. */
  lemma FlushWritesAgain(es: seq<Event>)
    requires var c := Exec(START, es).client; c.phase.Idle? && c.writes == [] && !c.disposed && c.picked.Some? && c.picked.value < |c.intents| && Picks(es) != []
    requires var s := Exec(START, es);
             var (scope, payload) := Picks(es)[|Picks(es)| - 1];
             var i := s.client.intents[s.client.picked.value];
             i.revision.None? || (i.revision.value < |Past(s.server, scope)| && Selection(s.server, scope).payload != payload)
    ensures var s, t := Exec(START, es), Saved(Read(Apply(Exec(START, es), Flush)));
            var (scope, payload) := Picks(es)[|Picks(es)| - 1];
            t.client.picked.None? && t.client.phase.Idle? && t.client.writes == [] && Past(t.server, scope) == Past(s.server, scope) + [payload]
  {
    var s := Exec(START, es);
    ReachableInv(es);
    ReachableServed(es);
    PicksAreCarried(es);
    var job := Job(s.client.picked.value, true);
    var flushed := Apply(s, Flush);
    assert flushed.client.writes == [job];
    ReadSends(flushed, job, flushed.client.intents[job.pick]);
    var read := Read(flushed);
    UnsentKey(s.server, s.sends, s.replies, Picks(es)[|Picks(es)| - 1].0, read.sends[|s.sends|].key);
    SaveLands(read, job, read.sends[|s.sends|]);
  }
}
