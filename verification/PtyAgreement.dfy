/** The heal database and the plugin look at the same session: which PTYs each thinks were
    left unfinished. */
module PtyAgreement {
  import opened Wrappers
  import opened Json
  import opened PtyLifecycle
  import opened PtyRecords
  import opened Heal
  import opened PtyQuery
  import opened PtyContract
  import opened PtySeams
  import opened PtyJoints
  import opened HealTheorems

  // ---- The plugin's reading of stored rows ----

  function RoleOf(d: Data): Role {
    if StringAt(d, ROLE, "assistant") then Assistant
    else if StringAt(d, ROLE, "user") then User
    else OtherRole
  }

  function TextAt(j: Json, path: seq<string>): Option<string> {
    match Extract(j, path)
    case Some(Str(s)) => Some(s)
    case _ => None
  }

  function OrElse(s: Option<string>): string {
    if s.Some? then s.value else ""
  }

  /** `notifyOnExit !== true` and the `typeof` tests, on the part's JSON. */
  function DecodePart(d: Data): Part {
    if StringAt(d, ["type"], "text") && TextAt(d.json, ["text"]).Some? then TextPart(TextAt(d.json, ["text"]).value)
    else if StringAt(d, ["type"], "tool") then
      ToolPart(OrElse(TextAt(d.json, ["tool"])), OrElse(TextAt(d.json, ["state", "status"])),
        Extract(d.json, ["state", "input", "notifyOnExit"]) == Some(Bool(true)), TextAt(d.json, ["state", "output"]))
    else OtherPart
  }

  function DecodeParts(parts: seq<PartRow>): seq<Part> {
    if parts == [] then [] else [DecodePart(parts[0].data)] + DecodeParts(parts[1..])
  }

  /** A message row with its part rows in order. */
  datatype Turn = Turn(message: Row, parts: seq<PartRow>)

  function Decode(t: Turn): Message {
    Message(RoleOf(t.message.data), DecodeParts(t.parts))
  }

  function DecodeAll(turns: seq<Turn>): (r: seq<Message>)
    ensures |r| == |turns| && forall i | 0 <= i < |turns| :: r[i] == Decode(turns[i])
  {
    seq(|turns|, i requires 0 <= i < |turns| => Decode(turns[i]))
  }

  // ---- Canonical turns ----

  /** Rendered, and no other `ID: pty_` comes before that of the first record. */
  ghost predicate CanonicalOutput(s: string) {
    exists items :: CanonicalItems(Spawned, items) && Rendered(Spawned, items, s) && LabelLeads(items, s)
  }

  ghost predicate CanonicalReport(s: string) {
    exists items :: CanonicalItems(Exited, items) && Rendered(Exited, items, s)
  }

  /** A notify-on-exit spawn is a completed tool call of an assistant turn. */
  ghost predicate CanonicalTool(role: Role, d: Data) {
    SpawnOutput(d).Some? ==>
      && role.Assistant?
      && StringAt(d, ["state", "status"], "completed")
      && Extract(d.json, ["state", "input", "notifyOnExit"]) == Some(Bool(true))
      && CanonicalOutput(SpawnOutput(d).value)
  }

  function Texts(parts: seq<PartRow>): seq<string> {
    if parts == [] then []
    else (if DecodePart(parts[0].data).TextPart? then [DecodePart(parts[0].data).text] else []) + Texts(parts[1..])
  }

  /** No seam of a user turn loses a report or makes one up. */
  ghost predicate CanonicalTurn(t: Turn) {
    var role := RoleOf(t.message.data);
    && t.message.data.Doc?
    && (forall p | p in t.parts :: CanonicalTool(role, p.data))
    && (role.User? ==> KeepsReports(Texts(t.parts)))
  }

  /** The session's rows are the turns', message ids are a primary key, and part times follow
      the order of the turns. */
  predicate Stores(rows: seq<Row>, parts: seq<PartRow>, sid: string, turns: seq<Turn>) {
    && (forall m, m' | m in rows && m' in rows :: m.id == m'.id ==> m == m')
    && (forall i | 0 <= i < |turns| :: turns[i].message in rows && turns[i].message.sessionID == sid)
    && (forall i, j | 0 <= i < j < |turns| :: turns[i].message.id != turns[j].message.id)
    && (forall p | p in parts && p.sessionID == sid :: exists i | 0 <= i < |turns| :: p in turns[i].parts)
    && (forall i, p | 0 <= i < |turns| && p in turns[i].parts :: p in parts && p.sessionID == sid && p.messageID == turns[i].message.id)
    && (forall i, j, p, q | 0 <= i < j < |turns| && p in turns[i].parts && q in turns[j].parts :: p.time < q.time)
  }

  // ---- One turn ----

  lemma DecodedPartIs(p: PartRow)
    ensures SpawnOutput(p.data).Some? ==> DecodePart(p.data).ToolPart? && DecodePart(p.data).output == SpawnOutput(p.data)
    ensures NotifySpawn(DecodePart(p.data)) ==> SpawnOutput(p.data) == DecodePart(p.data).output
  {
    hide Extract;
    assert "text" != "tool" by {
      assert "text"[1] != "tool"[1];
    }
  }

  /** A spawn part: both readers see the same id. */
  lemma SpawnPartAgrees(role: Role, p: PartRow, id: string)
    requires CanonicalTool(role, p.data)
    ensures Spawns(DecodePart(p.data), id) <==> SpawnedPty(p.data) == Some(id)
    ensures SpawnedPty(p.data).Some? ==> role.Assistant?
  {
    hide SpawnedId, ReportedId, Extract, SpawnOutput, DecodePart, CanonicalItem, Rendered, LabelLeads;
    DecodedPartIs(p);
    if SpawnOutput(p.data).Some? {
      var items :| CanonicalItems(Spawned, items) && Rendered(Spawned, items, SpawnOutput(p.data).value) && LabelLeads(items, SpawnOutput(p.data).value);
      SpawnsAgreeIff(items, SpawnOutput(p.data).value);
      CompletedSpawn(p);
    }
  }

  lemma CompletedSpawn(p: PartRow)
    requires SpawnOutput(p.data).Some? && StringAt(p.data, ["state", "status"], "completed")
    requires Extract(p.data.json, ["state", "input", "notifyOnExit"]) == Some(Bool(true))
    ensures NotifySpawn(DecodePart(p.data))
  {
    hide Extract;
    assert "text" != "tool" by {
      assert "text"[1] != "tool"[1];
    }
  }

  lemma {:induction false} SpawnAmongParts(parts: seq<PartRow>, id: string)
    ensures AnySpawn(DecodeParts(parts), id) <==> exists p | p in parts :: Spawns(DecodePart(p.data), id)
  {
    hide Spawns, DecodePart;
    if parts != [] {
      SpawnAmongParts(parts[1..], id);
      var d := DecodePart(parts[0].data);
      assert DecodeParts(parts) == [d] + DecodeParts(parts[1..]);
      assert AnySpawn(DecodeParts(parts), id) <==> Spawns(d, id) || AnySpawn(DecodeParts(parts[1..]), id);
      assert parts[0] in parts;
      assert forall p :: p in parts <==> p == parts[0] || p in parts[1..];
    }
  }

  /** A turn spawns `id` for the plugin when one of its rows does for the query. */
  lemma SpawnsInTurn(t: Turn, id: string)
    requires CanonicalTurn(t)
    ensures SpawnsIn(Decode(t), id) <==> exists p | p in t.parts :: SpawnedPty(p.data) == Some(id)
  {
    hide Spawns, DecodePart, SpawnedPty, CanonicalTool, KeepsReports, RoleOf, AnySpawn;
    SpawnAmongParts(t.parts, id);
    forall p | p in t.parts {
      SpawnPartAgrees(RoleOf(t.message.data), p, id);
    }
    if p :| p in t.parts && SpawnedPty(p.data) == Some(id) {
      assert Spawns(DecodePart(p.data), id);
    }
    if AnySpawn(DecodeParts(t.parts), id) {
      var p :| p in t.parts && Spawns(DecodePart(p.data), id);
      assert SpawnedPty(p.data) == Some(id);
    }
  }

  lemma {:induction false} JoinedIsConcat(parts: seq<PartRow>)
    ensures JoinedText(DecodeParts(parts)) == Concat(Texts(parts))
  {
    hide DecodePart;
    if parts != [] {
      JoinedIsConcat(parts[1..]);
      var d := DecodePart(parts[0].data);
      assert DecodeParts(parts)[0] == d && DecodeParts(parts)[1..] == DecodeParts(parts[1..]);
      if d.TextPart? {
        assert Texts(parts)[0] == d.text && Texts(parts)[1..] == Texts(parts[1..]);
      } else {
        assert Texts(parts) == Texts(parts[1..]);
      }
    }
  }

  lemma {:induction false} TextsReport(parts: seq<PartRow>, id: string)
    ensures (exists k | 0 <= k < |Texts(parts)| :: HasBlock(Texts(parts)[k], Exited, id)) <==> exists p | p in parts :: ReportsExit(p, id)
  {
    hide DecodePart, HasBlock, ReportsExit;
    if parts != [] {
      TextsReport(parts[1..], id);
      PartReports(parts[0], id);
      var d, texts, rest := DecodePart(parts[0].data), Texts(parts), Texts(parts[1..]);
      assert parts[0] in parts && forall p :: p in parts <==> p == parts[0] || p in parts[1..];
      if d.TextPart? {
        assert texts == [d.text] + rest;
        assert texts[0] == d.text;
        forall k | 0 <= k < |rest|
          ensures texts[k + 1] == rest[k]
        {
        }
        if k :| 0 <= k < |rest| && HasBlock(rest[k], Exited, id) {
          assert HasBlock(texts[k + 1], Exited, id);
        }
        if k :| 0 <= k < |texts| && HasBlock(texts[k], Exited, id) {
          assert k > 0 ==> HasBlock(rest[k - 1], Exited, id);
        }
      } else {
        assert texts == rest;
      }
    }
  }

  lemma PartReports(p: PartRow, id: string)
    ensures ReportsExit(p, id) <==> DecodePart(p.data).TextPart? && HasBlock(DecodePart(p.data).text, Exited, id)
  {
    hide HasBlock, Extract;
    assert "text" != "tool" by {
      assert "text"[1] != "tool"[1];
    }
  }

  /** A turn reports the exit of `id` to the plugin when one of its rows does to the query. */
  lemma ExitsInTurn(t: Turn, id: string)
    requires CanonicalTurn(t) && PtyId(id)
    ensures ExitsIn(Decode(t), id) <==> StringAt(t.message.data, ROLE, "user") && exists p | p in t.parts :: ReportsExit(p, id)
  {
    hide ReportsExit, CanonicalTool, ExitedIds, PtyId, HasBlock, JoinedText, CanonicalItems, Rendered, SeamsKeep, Joined, Texts, Concat, StringAt;
    RolesApart(t.message.data);
    if RoleOf(t.message.data).User? {
      var items :| AllCanonical(items, Texts(t.parts)) && SeamsKeep(Joined(items, Texts(t.parts)));
      JoinedIsConcat(t.parts);
      JoinAgreesIff(items, Texts(t.parts));
      TextsReport(t.parts, id);
    }
  }

  lemma RolesApart(d: Data)
    ensures RoleOf(d).User? <==> StringAt(d, ROLE, "user")
    ensures RoleOf(d).Assistant? <==> StringAt(d, ROLE, "assistant")
  {
    hide Extract;
    assert "user" != "assistant" by {
      assert "user"[0] != "assistant"[0];
    }
  }

  // ---- A whole session ----

  function AbandonedIds(rows: seq<Row>, parts: seq<PartRow>, sessions: map<string, Option<string>>, sid: string): set<string> {
    set a | a in Abandoned(rows, parts, sessions) && a.sessionID == sid :: a.id
  }

  lemma SpawnedIdIsPtyId(d: Data)
    ensures SpawnedPty(d).Some? ==> PtyId(SpawnedPty(d).value)
  {
    hide SpawnOutput, HasBlock, PtyId;
  }

  /** The part's turn and the message the join finds for it. */
  lemma TurnOfPart(rows: seq<Row>, parts: seq<PartRow>, sid: string, turns: seq<Turn>, p: PartRow, m: Row) returns (i: nat)
    requires Stores(rows, parts, sid, turns)
    requires p in parts && p.sessionID == sid && m in rows && p.messageID == m.id
    ensures i < |turns| && p in turns[i].parts && turns[i].message == m
  {
    i :| 0 <= i < |turns| && p in turns[i].parts;
  }

  lemma StoredPart(rows: seq<Row>, parts: seq<PartRow>, sid: string, turns: seq<Turn>, j: nat, q: PartRow)
    requires Stores(rows, parts, sid, turns) && j < |turns| && q in turns[j].parts
    ensures q in parts && turns[j].message in rows && q.messageID == turns[j].message.id && q.sessionID == sid
  {
  }

  lemma LaterTurn(rows: seq<Row>, parts: seq<PartRow>, sid: string, turns: seq<Turn>, i: nat, j: nat, p: PartRow, q: PartRow)
    requires Stores(rows, parts, sid, turns) && i < |turns| && j < |turns| && i != j
    requires p in turns[i].parts && q in turns[j].parts
    ensures i < j <==> p.time < q.time
  {
  }

  /** An exit row later in time is one of a later turn. */
  lemma SeenIsLater(rows: seq<Row>, parts: seq<PartRow>, sid: string, turns: seq<Turn>, i: nat, p: PartRow, a: Pty)
    requires Stores(rows, parts, sid, turns) && forall t | t in turns :: CanonicalTurn(t)
    requires i < |turns| && p in turns[i].parts && SpawnedPty(p.data) == Some(a.id)
    requires a.sessionID == sid && a.time == p.time && ExitSeen(a, rows, parts)
    ensures exists j | i < j < |turns| :: ExitsIn(Decode(turns[j]), a.id)
  {
    hide Stores, ReportsExit, SpawnedPty, KeepsReports, CanonicalTool, PtyId, RoleOf, ExitsIn, Decode, StringAt;
    SpawnedIdIsPtyId(p.data);
    var q, m :| q in parts && m in rows
      && q.messageID == m.id && q.sessionID == a.sessionID && q.time > a.time
      && ReportsExit(q, a.id) && StringAt(m.data, ROLE, "user");
    var j := TurnOfPart(rows, parts, sid, turns, q, m);
    assert turns[j] in turns && turns[i] in turns;
    if j == i {
      SpawnPartAgrees(RoleOf(m.data), p, a.id);
      RolesApart(m.data);
    } else {
      LaterTurn(rows, parts, sid, turns, i, j, p, q);
    }
    ExitsInTurn(turns[j], a.id);
  }

  lemma LaterIsSeen(rows: seq<Row>, parts: seq<PartRow>, sid: string, turns: seq<Turn>, i: nat, p: PartRow, a: Pty, j: nat)
    requires Stores(rows, parts, sid, turns) && forall t | t in turns :: CanonicalTurn(t)
    requires i < j < |turns| && p in turns[i].parts && PtyId(a.id)
    requires a.sessionID == sid && a.time == p.time && ExitsIn(Decode(turns[j]), a.id)
    ensures ExitSeen(a, rows, parts)
  {
    hide Stores, CanonicalTurn, ReportsExit, PtyId, ExitsIn, Decode, StringAt;
    assert turns[j] in turns;
    ExitsInTurn(turns[j], a.id);
    var q :| q in turns[j].parts && ReportsExit(q, a.id);
    StoredPart(rows, parts, sid, turns, j, q);
    LaterTurn(rows, parts, sid, turns, i, j, p, q);
  }

  lemma ExitSeenLater(rows: seq<Row>, parts: seq<PartRow>, sid: string, turns: seq<Turn>, i: nat, p: PartRow, a: Pty)
    requires Stores(rows, parts, sid, turns) && forall t | t in turns :: CanonicalTurn(t)
    requires i < |turns| && p in turns[i].parts && SpawnedPty(p.data) == Some(a.id)
    requires a.sessionID == sid && a.time == p.time
    ensures ExitSeen(a, rows, parts) <==> exists j | i < j < |turns| :: ExitsIn(Decode(turns[j]), a.id)
  {
    hide Stores, CanonicalTurn, ExitsIn, Decode, SpawnedPty, PtyId, ExitSeen;
    SpawnedIdIsPtyId(p.data);
    if ExitSeen(a, rows, parts) {
      SeenIsLater(rows, parts, sid, turns, i, p, a);
    }
    if j :| i < j < |turns| && ExitsIn(Decode(turns[j]), a.id) {
      LaterIsSeen(rows, parts, sid, turns, i, p, a, j);
    }
  }

  lemma SpawnQualifies(rows: seq<Row>, parts: seq<PartRow>, sessions: map<string, Option<string>>, sid: string, turns: seq<Turn>, i: nat, p: PartRow)
    requires Stores(rows, parts, sid, turns) && forall t | t in turns :: CanonicalTurn(t)
    requires i < |turns| && p in turns[i].parts && SpawnedPty(p.data).Some? && WorkspaceOf(sessions, sid).Some?
    requires !Marked(turns[i].message.data)
    ensures Qualifies(p, turns[i].message, sessions)
    ensures PtyOf(p, turns[i].message, sessions) in SpawnedPtys(rows, parts, sessions)
    ensures var a := PtyOf(p, turns[i].message, sessions); a.sessionID == sid && a.id == SpawnedPty(p.data).value && a.time == p.time
  {
    hide SpawnedPty, Marked, WorkspaceOf, KeepsReports, CanonicalTool;
    assert turns[i] in turns;
    assert p in parts && turns[i].message in rows && Qualifies(p, turns[i].message, sessions);
  }

  // ---- Turns given up before ----

  /** A marked turn of the agent was recovered once; the query does not look at it again. */
  predicate GivenUp(t: Turn) {
    RoleOf(t.message.data).Assistant? && Marked(t.message.data)
  }

  /** The session without what the given-up turns did. */
  function Live(turns: seq<Turn>): (r: seq<Turn>)
    ensures |r| == |turns| && forall i | 0 <= i < |turns| :: r[i] == if GivenUp(turns[i]) then turns[i].(parts := []) else turns[i]
  {
    seq(|turns|, i requires 0 <= i < |turns| => if GivenUp(turns[i]) then turns[i].(parts := []) else turns[i])
  }

  lemma LiveReads(turns: seq<Turn>, i: nat, id: string)
    requires i < |turns|
    ensures SpawnsIn(Decode(Live(turns)[i]), id) <==> SpawnsIn(Decode(turns[i]), id) && !GivenUp(turns[i])
    ensures ExitsIn(Decode(Live(turns)[i]), id) <==> ExitsIn(Decode(turns[i]), id)
  {
    hide Marked, RoleOf, DecodePart, ExitedIds, Spawns;
  }

  /** The PTYs the heal keeps as abandoned in a session are those the plugin finds unfinished,
      given-up turns aside. */
  lemma AbandonedIsUnfinished(rows: seq<Row>, parts: seq<PartRow>, sessions: map<string, Option<string>>, sid: string, turns: seq<Turn>, id: string)
    requires Stores(rows, parts, sid, turns) && forall t | t in turns :: CanonicalTurn(t)
    requires WorkspaceOf(sessions, sid).Some?
    ensures id in AbandonedIds(rows, parts, sessions, sid) <==> Unfinished(DecodeAll(Live(turns)), id)
  {
    hide Stores, CanonicalTurn, Qualifies, ExitSeen, SpawnedPty, SpawnsIn, ExitsIn, Decode, WorkspaceOf, GivenUp, Live;
    var messages := DecodeAll(Live(turns));
    forall i | 0 <= i < |turns| {
      LiveReads(turns, i, id);
    }
    if id in AbandonedIds(rows, parts, sessions, sid) {
      var a :| a in Abandoned(rows, parts, sessions) && a.sessionID == sid && a.id == id;
      var p, m :| p in parts && m in rows && Qualifies(p, m, sessions) && a == PtyOf(p, m, sessions);
      QualifiedJoin(p, m, sessions);
      var i := TurnOfPart(rows, parts, sid, turns, p, m);
      SpawnsInTurn(turns[i], id);
      ExitSeenLater(rows, parts, sid, turns, i, p, a);
      assert !GivenUp(turns[i]) by { NotGivenUp(turns[i]); }
      assert SpawnsIn(messages[i], id);
      assert forall j | i < j < |messages| :: !ExitsIn(messages[j], id);
    }
    if Unfinished(messages, id) {
      var i :| 0 <= i < |messages| && SpawnsIn(messages[i], id) && forall j | i < j < |messages| :: !ExitsIn(messages[j], id);
      assert turns[i] in turns;
      SpawnsInTurn(turns[i], id);
      SpawnerIsUnmarked(turns[i], id);
      var p :| p in turns[i].parts && SpawnedPty(p.data) == Some(id);
      SpawnQualifies(rows, parts, sessions, sid, turns, i, p);
      var a := PtyOf(p, turns[i].message, sessions);
      ExitSeenLater(rows, parts, sid, turns, i, p, a);
      assert !ExitSeen(a, rows, parts) by {
        assert forall j | i < j < |turns| :: ExitsIn(messages[j], id) <==> ExitsIn(Decode(turns[j]), id);
      }
      assert a in Abandoned(rows, parts, sessions);
    }
  }

  lemma NotGivenUp(t: Turn)
    ensures !Marked(t.message.data) ==> !GivenUp(t)
  {
    hide Marked;
  }

  lemma SpawnerIsUnmarked(t: Turn, id: string)
    requires SpawnsIn(Decode(t), id) && !GivenUp(t)
    ensures !Marked(t.message.data)
  {
    hide Marked, AnySpawn, RoleOf;
  }

  lemma QualifiedJoin(p: PartRow, m: Row, sessions: map<string, Option<string>>)
    requires Qualifies(p, m, sessions)
    ensures p.messageID == m.id && SpawnedPty(p.data) == Some(PtyOf(p, m, sessions).id) && !Marked(m.data)
    ensures PtyOf(p, m, sessions).sessionID == p.sessionID && PtyOf(p, m, sessions).time == p.time
  {
    hide SpawnedPty;
  }

  // ---- A whole run ----

  /** What the run abandons in a session. */
  function RunAbandons(db: Db, now: int, sid: string): set<string> {
    set a | a in AbandonedIn(db, now) && a.sessionID == sid :: a.id
  }

  /** The turns after the first pass of the run. */
  function UpdatedTurns(turns: seq<Turn>, now: int): (r: seq<Turn>)
    ensures |r| == |turns| && forall i | 0 <= i < |turns| :: r[i] == Turn(UpdateRow(V1, now, turns[i].message), turns[i].parts)
  {
    seq(|turns|, i requires 0 <= i < |turns| => Turn(UpdateRow(V1, now, turns[i].message), turns[i].parts))
  }

  /** The session without the turns that are given up before the PTYs are looked for: those
      marked by an earlier run, and the stuck ones. */
  predicate Settles(t: Turn) {
    GivenUp(t) || Stuck(V1, t.message)
  }

  function Settled(turns: seq<Turn>): (r: seq<Turn>)
    ensures |r| == |turns| && forall i | 0 <= i < |turns| :: r[i] == if Settles(turns[i]) then turns[i].(parts := []) else turns[i]
  {
    seq(|turns|, i requires 0 <= i < |turns| => if Settles(turns[i]) then turns[i].(parts := []) else turns[i])
  }

  lemma UpdatedTurn(t: Turn, now: int)
    ensures RoleOf(UpdateRow(V1, now, t.message).data) == RoleOf(t.message.data)
    ensures SameButData(t.message, UpdateRow(V1, now, t.message))
    ensures GivenUp(Turn(UpdateRow(V1, now, t.message), t.parts)) <==> Settles(t)
  {
    hide Interrupted, Extract;
    var row := t.message;
    if Updatable(V1, row) {
      InterruptedMeans(row.data.json, now);
      V1AssistantIsObject(row);
      RolesApart(row.data);
      RolesApart(UpdateRow(V1, now, row).data);
    }
  }

  lemma UpdateKeepsIds(rows: seq<Row>, now: int)
    requires forall m, m' | m in rows && m' in rows :: m.id == m'.id ==> m == m'
    ensures forall m, m' | m in Update(V1, rows, now) && m' in Update(V1, rows, now) :: m.id == m'.id ==> m == m'
  {
    hide UpdateRow;
    var later := Update(V1, rows, now);
    forall m, m' | m in later && m' in later && m.id == m'.id
      ensures m == m'
    {
      var i :| 0 <= i < |later| && later[i] == m;
      var j :| 0 <= j < |later| && later[j] == m';
      UpdateRowKeeps(V1, now, rows[i]);
      UpdateRowKeeps(V1, now, rows[j]);
      assert rows[i] in rows && rows[j] in rows;
    }
  }

  lemma UpdatedMessage(rows: seq<Row>, now: int, row: Row)
    requires row in rows
    ensures UpdateRow(V1, now, row) in Update(V1, rows, now)
    ensures UpdateRow(V1, now, row).id == row.id && UpdateRow(V1, now, row).sessionID == row.sessionID
  {
    hide UpdateRow;
    UpdateRowKeeps(V1, now, row);
    var k :| 0 <= k < |rows| && rows[k] == row;
    assert Update(V1, rows, now)[k] in Update(V1, rows, now);
  }

  lemma UpdateStores(rows: seq<Row>, parts: seq<PartRow>, sid: string, turns: seq<Turn>, now: int)
    requires Stores(rows, parts, sid, turns)
    ensures Stores(Update(V1, rows, now), parts, sid, UpdatedTurns(turns, now))
  {
    hide UpdateRow, Update;
    UpdateKeepsIds(rows, now);
    var later := UpdatedTurns(turns, now);
    forall i | 0 <= i < |turns|
      ensures later[i].message in Update(V1, rows, now) && later[i].message.sessionID == sid
      ensures later[i].message.id == turns[i].message.id && later[i].parts == turns[i].parts
    {
      UpdatedMessage(rows, now, turns[i].message);
    }
    SameTurns(turns, later, parts, sid);
  }

  /** The rest of `Stores` is about message ids and parts. */
  lemma SameTurns(turns: seq<Turn>, later: seq<Turn>, parts: seq<PartRow>, sid: string)
    requires |later| == |turns| && forall i | 0 <= i < |turns| :: later[i].message.id == turns[i].message.id && later[i].parts == turns[i].parts
    requires forall p | p in parts && p.sessionID == sid :: exists i | 0 <= i < |turns| :: p in turns[i].parts
    ensures forall p | p in parts && p.sessionID == sid :: exists i | 0 <= i < |later| :: p in later[i].parts
  {
    forall p | p in parts && p.sessionID == sid
      ensures exists i | 0 <= i < |later| :: p in later[i].parts
    {
      var i :| 0 <= i < |turns| && p in turns[i].parts;
      assert p in later[i].parts;
    }
  }

  /** In a whole run the PTYs abandoned in a session are those the plugin finds unfinished in
      the turns that are neither marked nor stuck: all of them, when none is. */
  lemma RunAbandonsUnfinished(db: Db, now: int, sid: string, turns: seq<Turn>, id: string)
    requires Stores(Rows(db.v1), db.parts, sid, turns) && forall t | t in turns :: CanonicalTurn(t)
    requires WorkspaceOf(db.sessions, sid).Some?
    ensures id in RunAbandons(db, now, sid) <==> Unfinished(DecodeAll(Settled(turns)), id)
    ensures (forall t | t in turns :: !Settles(t)) ==> (id in RunAbandons(db, now, sid) <==> Unfinished(DecodeAll(turns), id))
  {
    hide Stores, CanonicalTurn, Abandoned, WorkspaceOf, Unfinished, GivenUp, Settles, UpdateRow, Update, RoleOf;
    var after := UpdatedTurns(turns, now);
    UpdateStores(Rows(db.v1), db.parts, sid, turns, now);
    forall t {
      UpdatedTurn(t, now);
    }
    forall t | t in after
      ensures CanonicalTurn(t)
    {
      var i :| 0 <= i < |after| && after[i] == t;
      assert turns[i] in turns;
      CanonicalAfterUpdate(turns[i], now);
    }
    AbandonedIsUnfinished(Updated(db, now), db.parts, db.sessions, sid, after, id);
    assert DecodeAll(Live(after)) == DecodeAll(Settled(turns));
    if forall t | t in turns :: !Settles(t) {
      assert Settled(turns) == turns;
    }
  }

  lemma CanonicalAfterUpdate(t: Turn, now: int)
    requires CanonicalTurn(t)
    ensures CanonicalTurn(Turn(UpdateRow(V1, now, t.message), t.parts))
  {
    hide UpdateRow, CanonicalTool, KeepsReports, RoleOf;
    UpdatedTurn(t, now);
  }
}
