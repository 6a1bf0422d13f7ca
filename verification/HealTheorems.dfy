/** What one heal run amounts to, what it leaves alone, and what a second run would do. */
module HealTheorems {
  import opened Wrappers
  import opened Json
  import opened Heal

  // ---- The staged passes against one query ----

  predicate HasStuck(t: Table, rows: seq<Row>, sessions: map<string, Option<string>>, w: string) {
    exists row | row in rows :: Stuck(t, row) && WorkspaceOf(sessions, row.sessionID) == Some(w)
  }

  /** A notify-on-exit spawn in an unmarked message, with no later exit report. */
  predicate Dangling(p: PartRow, m: Row, rows: seq<Row>, parts: seq<PartRow>, sessions: map<string, Option<string>>) {
    Qualifies(p, m, sessions) && !ExitSeen(PtyOf(p, m, sessions), rows, parts)
  }

  predicate HasDangling(rows: seq<Row>, parts: seq<PartRow>, sessions: map<string, Option<string>>, w: string) {
    exists p, m | p in parts && m in rows :: Dangling(p, m, rows, parts, sessions) && WorkspaceOf(sessions, m.sessionID) == Some(w)
  }

  /** The one-shot query: everything is asked of the database before the run. */
  predicate NeedsRecovery(db: Db, w: string) {
    w != "" && (
      || HasStuck(V1, Rows(db.v1), db.sessions, w)
      || HasStuck(V2, Rows(db.v2), db.sessions, w)
      || HasDangling(Rows(db.v1), db.parts, db.sessions, w))
  }

  lemma CollectMeans(t: Table, rows: seq<Row>, sessions: map<string, Option<string>>, w: string)
    ensures w in Collect(t, rows, sessions) <==> HasStuck(t, rows, sessions, w)
  {
    hide Stuck, WorkspaceOf;
  }

  lemma AbandonedMeans(rows: seq<Row>, parts: seq<PartRow>, sessions: map<string, Option<string>>, w: string)
    ensures w in Workspaces(Abandoned(rows, parts, sessions)) <==> HasDangling(rows, parts, sessions, w)
  {
    hide Qualifies, ExitSeen, WorkspaceOf, SpawnedPty;
    if w in Workspaces(Abandoned(rows, parts, sessions)) {
      var a :| a in Abandoned(rows, parts, sessions) && a.workspace == w;
      var p, m :| p in parts && m in rows && Qualifies(p, m, sessions) && a == PtyOf(p, m, sessions);
      assert Dangling(p, m, rows, parts, sessions);
      QualifiesHasWorkspace(p, m, sessions);
    }
    if HasDangling(rows, parts, sessions, w) {
      var p, m :| p in parts && m in rows && Dangling(p, m, rows, parts, sessions) && WorkspaceOf(sessions, m.sessionID) == Some(w);
      QualifiesHasWorkspace(p, m, sessions);
      assert PtyOf(p, m, sessions) in SpawnedPtys(rows, parts, sessions);
      assert PtyOf(p, m, sessions) in Abandoned(rows, parts, sessions);
    }
  }

  lemma QualifiesHasWorkspace(p: PartRow, m: Row, sessions: map<string, Option<string>>)
    requires Qualifies(p, m, sessions)
    ensures WorkspaceOf(sessions, m.sessionID) == Some(PtyOf(p, m, sessions).workspace)
  {
  }

  // ---- What an update keeps ----

  predicate SameButData(a: Row, b: Row) {
    b == a.(data := b.data) && (a.data.Doc? <==> b.data.Doc?)
  }

  lemma InterruptedKeeps(j: Json, now: int, q: seq<string>)
    requires Apart(COMPLETED, q) && Apart(FINISH, q) && Apart(ERROR, q)
    ensures Extract(Interrupted(j, now), q) == Extract(j, q)
  {
    hide Put, Extract;
    ExtractApart(j, COMPLETED, Number(now as real), q);
    var a := Put(j, COMPLETED, Number(now as real));
    ExtractApart(a, FINISH, Str("interrupted-by-restart"), q);
    var b := Put(a, FINISH, Str("interrupted-by-restart"));
    ExtractApart(b, ERROR, AbortedError("opencode-serve restarted; turn interrupted mid-flight"), q);
  }

  lemma PutError(j: Json, why: string)
    ensures Marked(Doc(Put(j, ERROR, AbortedError(why)))) <==> j.Obj?
    ensures !j.Obj? ==> Put(j, ERROR, AbortedError(why)) == j
  {
    var e := AbortedError(why);
    var k := Put(j, ERROR, e);
    assert ERROR[0] == "error" && ERROR[1..] == [];
    assert ERROR_NAME[0] == "error" && ERROR_NAME[1..] == ["name"] && ["name"][1..] == [];
    if j.Obj? {
      assert k.fields["error"] == e;
      assert Extract(k, ERROR_NAME) == Extract(e, ["name"]) == Some(Str(ABORTED));
    }
  }

  /** What marking a turn as interrupted does to it. */
  lemma InterruptedMeans(j: Json, now: int)
    ensures Marked(Doc(Interrupted(j, now))) <==> j.Obj?
    ensures !j.Obj? ==> Interrupted(j, now) == j
    ensures j.Obj? ==> Interrupted(j, now).Obj? && Extract(Interrupted(j, now), FINISH) == Some(Str("interrupted-by-restart"))
    ensures Extract(Interrupted(j, now), COMPLETED) == if Settable(j, COMPLETED) then Some(Number(now as real)) else Extract(j, COMPLETED)
    ensures Extract(Interrupted(j, now), ROLE) == Extract(j, ROLE)
  {
    hide Put, Extract, Settable, Marked;
    var n := Number(now as real);
    var f := Str("interrupted-by-restart");
    var why := "opencode-serve restarted; turn interrupted mid-flight";
    var a := Put(j, COMPLETED, n);
    var b := Put(a, FINISH, f);
    PutKeepsShape(j, COMPLETED, n);
    PutKeepsShape(a, FINISH, f);
    PutKeepsShape(b, ERROR, AbortedError(why));
    PutError(b, why);
    PathsApart();
    ExtractPut(j, COMPLETED, n);
    ExtractPut(a, FINISH, f);
    ExtractApart(a, FINISH, f, COMPLETED);
    ExtractApart(b, ERROR, AbortedError(why), COMPLETED);
    ExtractApart(b, ERROR, AbortedError(why), FINISH);
    InterruptedKeeps(j, now, ROLE);
    SettableAtRoot(a);
    SettableAtRoot(j);
  }

  lemma SettableAtRoot(j: Json)
    ensures Settable(j, FINISH) <==> j.Obj?
    ensures !j.Obj? ==> !Settable(j, COMPLETED) && Put(j, COMPLETED, Null) == j && !Marked(Doc(j))
    ensures forall v :: !j.Obj? ==> Put(j, COMPLETED, v) == j && Put(j, FINISH, v) == j
  {
    assert FINISH[1..] == [];
  }

  lemma PathsApart()
    ensures Apart(FINISH, COMPLETED) && Apart(ERROR, COMPLETED) && Apart(ERROR, FINISH)
    ensures Apart(COMPLETED, ROLE) && Apart(FINISH, ROLE) && Apart(ERROR, ROLE)
  {
    assert FINISH[0] == "finish" && COMPLETED[0] == "time" && ERROR[0] == "error" && ROLE[0] == "role";
    assert "finish"[0] == 'f' && "time"[0] == 't' && "error"[0] == 'e' && "role"[0] == 'r';
  }

  // ---- One run ----

  predicate SameRoles(rows: seq<Row>, later: seq<Row>) {
    && |later| == |rows|
    && forall i | 0 <= i < |rows| :: later[i].id == rows[i].id && (StringAt(later[i].data, ROLE, "user") <==> StringAt(rows[i].data, ROLE, "user"))
  }

  /** Exit reports are found alike in tables that agree on ids and user roles. */
  lemma ExitSeenAlike(a: Pty, rows: seq<Row>, later: seq<Row>, parts: seq<PartRow>)
    requires SameRoles(rows, later) && ExitSeen(a, rows, parts)
    ensures ExitSeen(a, later, parts)
  {
    hide ReportsExit, StringAt;
    var p, m :| p in parts && m in rows
      && p.messageID == m.id && p.sessionID == a.sessionID && p.time > a.time
      && ReportsExit(p, a.id) && StringAt(m.data, ROLE, "user");
    var i :| 0 <= i < |rows| && rows[i] == m;
    assert p in parts && later[i] in later;
  }

  lemma UpdateRowKeeps(t: Table, now: int, row: Row)
    ensures SameButData(row, UpdateRow(t, now, row))
    ensures StringAt(UpdateRow(t, now, row).data, ROLE, "user") <==> StringAt(row.data, ROLE, "user")
    ensures Marked(row.data) ==> UpdateRow(t, now, row) == row
  {
    hide Interrupted;
    if Updatable(t, row) {
      InterruptedMeans(row.data.json, now);
    }
  }

  lemma UpdateKeepsRoles(t: Table, rows: seq<Row>, now: int)
    ensures SameRoles(rows, Update(t, rows, now)) && SameRoles(Update(t, rows, now), rows)
  {
    hide UpdateRow, StringAt;
    forall i | 0 <= i < |rows| {
      UpdateRowKeeps(t, now, rows[i]);
    }
  }

  lemma MarkRowKeeps(ids: set<string>, row: Row)
    ensures SameButData(row, MarkRow(ids, row))
    ensures StringAt(MarkRow(ids, row).data, ROLE, "user") <==> StringAt(row.data, ROLE, "user")
    ensures Marked(row.data) ==> MarkRow(ids, row) == row
  {
    hide Put, Extract;
    if MarkRow(ids, row) != row {
      PathsApart();
      ExtractApart(row.data.json, ERROR, AbortedError("opencode-pty session killed by opencode-serve restart"), ROLE);
    }
  }

  lemma MarkKeepsRoles(ids: set<string>, rows: seq<Row>)
    ensures SameRoles(rows, Mark(ids, rows)) && SameRoles(Mark(ids, rows), rows)
  {
    hide MarkRow, StringAt;
    forall i | 0 <= i < |rows| {
      MarkRowKeeps(ids, rows[i]);
    }
  }

  /** A PTY the second pass finds was already dangling before the first. */
  lemma DanglingBefore(p: PartRow, m: Row, m': Row, rows: seq<Row>, later: seq<Row>, parts: seq<PartRow>, sessions: map<string, Option<string>>)
    requires SameButData(m, m') && (Marked(m.data) ==> m' == m)
    requires SameRoles(rows, later) && Dangling(p, m', later, parts, sessions)
    ensures Dangling(p, m, rows, parts, sessions) && PtyOf(p, m, sessions) == PtyOf(p, m', sessions)
  {
    hide ExitSeen, SpawnedPty, Marked, WorkspaceOf;
    var a := PtyOf(p, m', sessions);
    if ExitSeen(a, rows, parts) {
      ExitSeenAlike(a, rows, later, parts);
    }
  }

  lemma UpdatedDangling(rows: seq<Row>, now: int, parts: seq<PartRow>, sessions: map<string, Option<string>>, w: string)
    requires HasDangling(Update(V1, rows, now), parts, sessions, w)
    ensures HasDangling(rows, parts, sessions, w)
  {
    hide Dangling, WorkspaceOf, UpdateRow, StringAt;
    var later := Update(V1, rows, now);
    var p, m' :| p in parts && m' in later && Dangling(p, m', later, parts, sessions) && WorkspaceOf(sessions, m'.sessionID) == Some(w);
    var i :| 0 <= i < |later| && later[i] == m';
    UpdateRowKeeps(V1, now, rows[i]);
    UpdateKeepsRoles(V1, rows, now);
    DanglingBefore(p, rows[i], m', rows, later, parts, sessions);
    assert p in parts && rows[i] in rows;
  }

  /** A dangling spawn is still found after the update, unless its own turn was updated: then
      its workspace was collected. */
  lemma DanglingAfterUpdate(rows: seq<Row>, now: int, parts: seq<PartRow>, sessions: map<string, Option<string>>, w: string)
    requires HasDangling(rows, parts, sessions, w) && !HasStuck(V1, rows, sessions, w)
    ensures HasDangling(Update(V1, rows, now), parts, sessions, w)
  {
    hide Dangling, WorkspaceOf, StringAt, Stuck;
    var later := Update(V1, rows, now);
    var p, m :| p in parts && m in rows && Dangling(p, m, rows, parts, sessions) && WorkspaceOf(sessions, m.sessionID) == Some(w);
    var i :| 0 <= i < |rows| && rows[i] == m;
    assert !Stuck(V1, m);
    assert later[i] == m;
    UpdateKeepsRoles(V1, rows, now);
    DanglingBefore(p, m, m, later, rows, parts, sessions);
    assert p in parts && later[i] in later;
  }

  /** The staged passes queue exactly what one query on the database before the run asks for. */
  lemma StagedIsOneShot(db: Db, now: int, w: string)
    ensures w in Affected(db, now) <==> NeedsRecovery(db, w)
  {
    hide HasDangling, HasStuck, Update, Abandoned, Collect, Workspaces;
    var rows := Rows(db.v1);
    CollectMeans(V1, rows, db.sessions, w);
    CollectMeans(V2, Rows(db.v2), db.sessions, w);
    AbandonedMeans(Updated(db, now), db.parts, db.sessions, w);
    if HasDangling(Updated(db, now), db.parts, db.sessions, w) {
      UpdatedDangling(rows, now, db.parts, db.sessions, w);
    }
    if HasDangling(rows, db.parts, db.sessions, w) && !HasStuck(V1, rows, db.sessions, w) {
      DanglingAfterUpdate(rows, now, db.parts, db.sessions, w);
    }
  }

  // ---- What a run leaves alone ----

  function FinalRow(db: Db, now: int, row: Row): Row {
    MarkRow(Messages(AbandonedIn(db, now)), UpdateRow(V1, now, row))
  }

  /** Neither an unfinished unmarked turn nor the message of an abandoned PTY. */
  predicate Bystander(db: Db, now: int, row: Row) {
    !Updatable(V1, row) && row.id !in Messages(AbandonedIn(db, now))
  }

  predicate HealedPath(q: seq<string>) {
    !(Apart(COMPLETED, q) && Apart(FINISH, q) && Apart(ERROR, q))
  }

  lemma MarkRowPaths(ids: set<string>, row: Row, q: seq<string>)
    requires row.data.Doc? && Apart(ERROR, q)
    ensures Extract(MarkRow(ids, row).data.json, q) == Extract(row.data.json, q)
  {
    hide Put, Extract;
    ExtractApart(row.data.json, ERROR, AbortedError("opencode-pty session killed by opencode-serve restart"), q);
  }

  /** Every row keeps its id, session and type, a bystander keeps everything, and any row
      keeps whatever lies off the three paths the heal writes. */
  lemma OthersUntouched(db: Db, now: int, i: nat, q: seq<string>)
    requires i < |Rows(db.v1)|
    ensures After(db, now).parts == db.parts && After(db, now).sessions == db.sessions
    ensures |Rows(After(db, now).v1)| == |Rows(db.v1)|
    ensures var row, row' := Rows(db.v1)[i], Rows(After(db, now).v1)[i];
      && SameButData(row, row')
      && (Bystander(db, now, row) ==> row' == row)
      && (row.data.Doc? && !HealedPath(q) ==> Extract(row'.data.json, q) == Extract(row.data.json, q))
  {
    hide Interrupted, Put, Extract, AbandonedIn, Messages, Apart, Stuck, Marked;
    var row, ids := Rows(db.v1)[i], Messages(AbandonedIn(db, now));
    var mid := UpdateRow(V1, now, row);
    UpdateRowKeeps(V1, now, row);
    MarkRowKeeps(ids, mid);
    assert Rows(After(db, now).v1)[i] == MarkRow(ids, mid);
    if row.data.Doc? && !HealedPath(q) {
      InterruptedKeeps(row.data.json, now, q);
      MarkRowPaths(ids, mid, q);
    }
  }

  lemma OthersUntouchedV2(db: Db, now: int, i: nat, q: seq<string>)
    requires i < |Rows(db.v2)|
    ensures |Rows(After(db, now).v2)| == |Rows(db.v2)|
    ensures var row, row' := Rows(db.v2)[i], Rows(After(db, now).v2)[i];
      && SameButData(row, row')
      && (!Updatable(V2, row) ==> row' == row)
      && (row.data.Doc? && !HealedPath(q) ==> Extract(row'.data.json, q) == Extract(row.data.json, q))
  {
    hide Interrupted, Put, Extract, Apart, Stuck, Marked;
    var row := Rows(db.v2)[i];
    UpdateRowKeeps(V2, now, row);
    if row.data.Doc? && !HealedPath(q) {
      InterruptedKeeps(row.data.json, now, q);
    }
  }

  /** What the run writes. Only `time.completed` can fail to take, when `time` is no object. */
  lemma Healed(db: Db, now: int, i: nat)
    requires i < |Rows(db.v1)| && Rows(db.v1)[i].data.Doc? && Rows(db.v1)[i].data.json.Obj?
    ensures var row, row' := Rows(db.v1)[i], Rows(After(db, now).v1)[i];
      && (!Bystander(db, now, row) ==> Extract(row'.data.json, ["error", "name"]) == Some(Str("MessageAbortedError")))
      && (Updatable(V1, row) ==> Extract(row'.data.json, ["finish"]) == Some(Str("interrupted-by-restart")))
      && (Updatable(V1, row) && Settable(row.data.json, ["time", "completed"]) ==>
            Extract(row'.data.json, ["time", "completed"]) == Some(Number(now as real)))
  {
    hide Interrupted, Put, Extract, AbandonedIn, Messages, Apart, Stuck, Settable;
    var row, ids := Rows(db.v1)[i], Messages(AbandonedIn(db, now));
    var mid := UpdateRow(V1, now, row);
    assert Rows(After(db, now).v1)[i] == MarkRow(ids, mid);
    PathsApart();
    InterruptedMeans(row.data.json, now);
    UpdateRowKeeps(V1, now, row);
    MarkRowKeeps(ids, mid);
    MarkRowPaths(ids, mid, FINISH);
    MarkRowPaths(ids, mid, COMPLETED);
    PutError(mid.data.json, "opencode-pty session killed by opencode-serve restart");
  }

  // ---- A second run ----

  /** Valid JSON that is no object: `json_set` cannot write a key into it. */
  predicate Unwritable(row: Row) {
    row.data.Doc? && !row.data.json.Obj?
  }

  lemma NullAtOther(j: Json)
    requires !Settable(j, COMPLETED)
    ensures NullAt(j, COMPLETED)
  {
    ExtractPut(j, COMPLETED, Null);
  }

  lemma V1AssistantIsObject(row: Row)
    requires IsAssistant(V1, row)
    ensures row.data.json.Obj?
  {
  }

  /** What the update leaves of the two tests that select a row. */
  lemma RowAfterUpdate(t: Table, now: int, row: Row)
    ensures Stuck(t, UpdateRow(t, now, row)) <==> Stuck(t, row) && (Marked(row.data) || !Settable(row.data.json, COMPLETED))
    ensures Updatable(t, UpdateRow(t, now, row)) <==> IsAssistant(t, row) && Unwritable(row)
  {
    hide Interrupted, Put, Extract, Settable;
    if row.data.Doc? {
      var j := row.data.json;
      InterruptedMeans(j, now);
      SettableAtRoot(j);
      if !Settable(j, COMPLETED) {
        NullAtOther(j);
      }
    }
  }

  lemma RowAfterMark(ids: set<string>, row: Row)
    ensures Stuck(V1, MarkRow(ids, row)) <==> Stuck(V1, row)
    ensures Updatable(V1, MarkRow(ids, row)) ==> Updatable(V1, row)
  {
    hide Put, Extract;
    MarkRowKeeps(ids, row);
    PathsApart();
    if row.data.Doc? {
      MarkRowPaths(ids, row, COMPLETED);
      MarkRowPaths(ids, row, ROLE);
    }
  }

  lemma FinalRowTests(db: Db, now: int, row: Row)
    ensures Stuck(V1, FinalRow(db, now, row)) <==> Stuck(V1, row) && (Marked(row.data) || !Settable(row.data.json, COMPLETED))
    ensures !Updatable(V1, FinalRow(db, now, row))
    ensures SameButData(row, FinalRow(db, now, row))
  {
    hide UpdateRow, MarkRow, Stuck, Updatable, AbandonedIn, Messages, Settable, IsAssistant;
    RowAfterUpdate(V1, now, row);
    RowAfterMark(Messages(AbandonedIn(db, now)), UpdateRow(V1, now, row));
    UpdateRowKeeps(V1, now, row);
    MarkRowKeeps(Messages(AbandonedIn(db, now)), UpdateRow(V1, now, row));
    if IsAssistant(V1, row) {
      V1AssistantIsObject(row);
    }
  }

  lemma {:induction false} NoUpdates(t: Table, rows: seq<Row>)
    ensures Updates(t, rows) == 0 <==> forall row | row in rows :: !Updatable(t, row)
  {
    hide Updatable;
    if rows != [] {
      NoUpdates(t, rows[1..]);
      assert rows == [rows[0]] + rows[1..];
    }
  }

  lemma SecondV1(db: Db, now: int, later: int)
    ensures Updates(V1, Rows(After(db, now).v1)) == 0
    ensures Updated(After(db, now), later) == Rows(After(db, now).v1)
  {
    hide FinalRow, Updatable, AbandonedIn;
    var rows, rows' := Rows(db.v1), Rows(After(db, now).v1);
    forall i | 0 <= i < |rows'|
      ensures !Updatable(V1, rows'[i])
    {
      FinalRowTests(db, now, rows[i]);
      FinalRowAt(db, now, i);
    }
    NoUpdates(V1, rows');
  }

  lemma FinalRowAt(db: Db, now: int, i: nat)
    requires i < |Rows(db.v1)|
    ensures Rows(After(db, now).v1)[i] == FinalRow(db, now, Rows(db.v1)[i])
  {
    hide UpdateRow, MarkRow;
  }

  lemma SecondV2(db: Db, now: int)
    ensures Updates(V2, Rows(After(db, now).v2)) == 0 <==> forall row | row in Rows(db.v2) :: row.kind == "assistant" ==> !Unwritable(row)
  {
    hide UpdateRow, Updatable, Unwritable;
    var rows, rows' := Rows(db.v2), Rows(After(db, now).v2);
    forall i | 0 <= i < |rows|
      ensures Updatable(V2, rows'[i]) <==> rows[i].kind == "assistant" && Unwritable(rows[i])
    {
      RowAfterUpdate(V2, now, rows[i]);
    }
    NoUpdates(V2, rows');
  }

  lemma AfterKeepsRoles(db: Db, now: int)
    ensures SameRoles(Rows(db.v1), Updated(db, now)) && SameRoles(Updated(db, now), Rows(db.v1))
    ensures SameRoles(Rows(db.v1), Rows(After(db, now).v1)) && SameRoles(Rows(After(db, now).v1), Rows(db.v1))
    ensures SameRoles(Updated(db, now), Rows(After(db, now).v1))
  {
    hide Mark, Update, StringAt, AbandonedIn, Messages;
    UpdateKeepsRoles(V1, Rows(db.v1), now);
    MarkKeepsRoles(Messages(AbandonedIn(db, now)), Updated(db, now));
  }

  predicate HasUnwritableDangling(db: Db, w: string) {
    exists p, m | p in db.parts && m in Rows(db.v1) ::
      Dangling(p, m, Rows(db.v1), db.parts, db.sessions) && Unwritable(m) && WorkspaceOf(db.sessions, m.sessionID) == Some(w)
  }

  /** An unwritable row is left as it is by both passes. */
  lemma UnwritableStays(db: Db, now: int, row: Row)
    requires Unwritable(row)
    ensures FinalRow(db, now, row) == row
  {
    hide AbandonedIn, Messages;
    PutError(row.data.json, "opencode-pty session killed by opencode-serve restart");
  }

  /** Marking the message of an abandoned PTY works on every object. */
  lemma MarkedUnlessUnwritable(db: Db, now: int, row: Row)
    requires row.id in Messages(AbandonedIn(db, now)) && row.data.Doc? && !Unwritable(row)
    ensures Marked(FinalRow(db, now, row).data)
  {
    hide AbandonedIn, Messages, Interrupted, Put, Marked, Updatable;
    InterruptedMeans(row.data.json, now);
    PutError(UpdateRow(V1, now, row).data.json, "opencode-pty session killed by opencode-serve restart");
  }

  lemma SecondDanglingIsOld(db: Db, now: int, p: PartRow, i: nat)
    requires i < |Rows(db.v1)| && p in db.parts
    requires var rows' := Rows(After(db, now).v1); i < |rows'| && Dangling(p, rows'[i], rows', db.parts, db.sessions)
    ensures Dangling(p, Rows(db.v1)[i], Rows(db.v1), db.parts, db.sessions) && Unwritable(Rows(db.v1)[i])
  {
    hide ExitSeen, SpawnedPty, Marked, WorkspaceOf, MarkRow, Mark, Update, UpdateRow, SameRoles, Abandoned;
    var m, mid, m2 := Rows(db.v1)[i], Updated(db, now)[i], Rows(After(db, now).v1)[i];
    AfterKeepsRoles(db, now);
    FinalRowAt(db, now, i);
    UpdateRowKeeps(V1, now, m);
    MarkRowKeeps(Messages(AbandonedIn(db, now)), mid);
    DanglingBefore(p, mid, m2, Updated(db, now), Rows(After(db, now).v1), db.parts, db.sessions);
    DanglingBefore(p, m, mid, Rows(db.v1), Updated(db, now), db.parts, db.sessions);
    DanglingIsAbandoned(p, mid, Updated(db, now), db.parts, db.sessions);
    assert m.id in Messages(AbandonedIn(db, now));
    if !Unwritable(m) {
      MarkedUnlessUnwritable(db, now, m);
    }
  }

  lemma DanglingIsAbandoned(p: PartRow, m: Row, rows: seq<Row>, parts: seq<PartRow>, sessions: map<string, Option<string>>)
    requires p in parts && m in rows && Dangling(p, m, rows, parts, sessions)
    ensures PtyOf(p, m, sessions) in Abandoned(rows, parts, sessions)
  {
    hide ExitSeen, Qualifies;
    assert PtyOf(p, m, sessions) in SpawnedPtys(rows, parts, sessions);
  }

  lemma SecondPtys(db: Db, now: int, w: string)
    ensures HasDangling(Rows(After(db, now).v1), db.parts, db.sessions, w) <==> HasUnwritableDangling(db, w)
  {
    hide Dangling, WorkspaceOf, FinalRow, Mark, Update, Unwritable, StringAt, AbandonedIn, Messages;
    var rows, rows' := Rows(db.v1), Rows(After(db, now).v1);
    AfterKeepsRoles(db, now);
    if HasDangling(rows', db.parts, db.sessions, w) {
      var p, m' :| p in db.parts && m' in rows' && Dangling(p, m', rows', db.parts, db.sessions) && WorkspaceOf(db.sessions, m'.sessionID) == Some(w);
      var i :| 0 <= i < |rows'| && rows'[i] == m';
      SecondDanglingIsOld(db, now, p, i);
      FinalRowAt(db, now, i);
      FinalRowTests(db, now, rows[i]);
      assert p in db.parts && rows[i] in rows;
    }
    if HasUnwritableDangling(db, w) {
      var p, m :| p in db.parts && m in rows && Dangling(p, m, rows, db.parts, db.sessions) && Unwritable(m) && WorkspaceOf(db.sessions, m.sessionID) == Some(w);
      var i :| 0 <= i < |rows| && rows[i] == m;
      FinalRowAt(db, now, i);
      UnwritableStays(db, now, m);
      DanglingBefore(p, m, m, rows', rows, db.parts, db.sessions);
      assert p in db.parts && rows'[i] in rows';
    }
  }

  /** Stuck before the first run, and the run cannot change that: marked already, or `time`
      takes no completion. */
  predicate StaysStuck(t: Table, row: Row) {
    Stuck(t, row) && (Marked(row.data) || !Settable(row.data.json, COMPLETED))
  }

  predicate HasStaysStuck(t: Table, rows: seq<Row>, sessions: map<string, Option<string>>, w: string) {
    exists row | row in rows :: StaysStuck(t, row) && WorkspaceOf(sessions, row.sessionID) == Some(w)
  }

  predicate StuckAlike(t: Table, rows: seq<Row>, rows': seq<Row>) {
    && |rows'| == |rows|
    && forall i | 0 <= i < |rows| :: rows'[i].sessionID == rows[i].sessionID && (Stuck(t, rows'[i]) <==> StaysStuck(t, rows[i]))
  }

  lemma StuckInSecond(t: Table, rows: seq<Row>, rows': seq<Row>, sessions: map<string, Option<string>>, w: string)
    requires StuckAlike(t, rows, rows')
    ensures HasStuck(t, rows', sessions, w) <==> HasStaysStuck(t, rows, sessions, w)
  {
    hide Stuck, StaysStuck, WorkspaceOf;
    if HasStuck(t, rows', sessions, w) {
      var row' :| row' in rows' && Stuck(t, row') && WorkspaceOf(sessions, row'.sessionID) == Some(w);
      var i :| 0 <= i < |rows'| && rows'[i] == row';
      assert rows[i] in rows && StaysStuck(t, rows[i]);
    }
    if HasStaysStuck(t, rows, sessions, w) {
      var row :| row in rows && StaysStuck(t, row) && WorkspaceOf(sessions, row.sessionID) == Some(w);
      var i :| 0 <= i < |rows| && rows[i] == row;
      assert rows'[i] in rows' && Stuck(t, rows'[i]);
    }
  }

  lemma SecondStuck(db: Db, now: int)
    ensures StuckAlike(V1, Rows(db.v1), Rows(After(db, now).v1))
    ensures StuckAlike(V2, Rows(db.v2), Rows(After(db, now).v2))
  {
    hide Stuck, Marked, Settable, UpdateRow, MarkRow, AbandonedIn, Messages;
    var rows, rows' := Rows(db.v1), Rows(After(db, now).v1);
    forall i | 0 <= i < |rows|
      ensures rows'[i].sessionID == rows[i].sessionID && (Stuck(V1, rows'[i]) <==> StaysStuck(V1, rows[i]))
    {
      FinalRowAt(db, now, i);
      FinalRowTests(db, now, rows[i]);
    }
    var more, more' := Rows(db.v2), Rows(After(db, now).v2);
    forall i | 0 <= i < |more|
      ensures more'[i].sessionID == more[i].sessionID && (Stuck(V2, more'[i]) <==> StaysStuck(V2, more[i]))
    {
      RowAfterUpdate(V2, now, more[i]);
      UpdateRowKeeps(V2, now, more[i]);
    }
  }

  /** The exact queue of a second run. */
  lemma SecondQueue(db: Db, now: int, later: int, w: string)
    ensures w in Affected(After(db, now), later)
      <==> (w != "" && (HasStaysStuck(V1, Rows(db.v1), db.sessions, w) || HasStaysStuck(V2, Rows(db.v2), db.sessions, w) || HasUnwritableDangling(db, w)))
  {
    hide HasStuck, HasDangling, HasStaysStuck, HasUnwritableDangling, StuckAlike, Affected, Mark, Update, AbandonedIn, Messages;
    var db' := After(db, now);
    StagedIsOneShot(db', later, w);
    SecondStuck(db, now);
    StuckInSecond(V1, Rows(db.v1), Rows(db'.v1), db.sessions, w);
    StuckInSecond(V2, Rows(db.v2), Rows(db'.v2), db.sessions, w);
    SecondPtys(db, now, w);
  }

  predicate MarkedIn(t: Table, rows: seq<Row>, sessions: map<string, Option<string>>, w: string) {
    exists row | row in rows :: Stuck(t, row) && Marked(row.data) && WorkspaceOf(sessions, row.sessionID) == Some(w)
  }

  predicate HasMarked(db: Db, w: string) {
    MarkedIn(V1, Rows(db.v1), db.sessions, w) || MarkedIn(V2, Rows(db.v2), db.sessions, w)
  }

  /** The fixpoint a first run is meant to reach: a second updates no row, finds no PTY, and
      queues just the workspaces of turns that were uncompleted and marked from the start. */
  ghost predicate Fixpoint(db: Db, now: int, later: int) {
    var db' := After(db, now);
    && Updates(V1, Rows(db'.v1)) == 0 && Updates(V2, Rows(db'.v2)) == 0
    && AbandonedIn(db', later) == {}
    && forall w :: w in Affected(db', later) <==> w != "" && HasMarked(db, w)
  }

  /** A stuck unmarked row whose `time` is there but no object (or whose data is none), in a
      workspace nothing else keeps in the queue. */
  predicate Lingers(db: Db, t: Table, row: Row) {
    && Stuck(t, row) && !Marked(row.data) && !Settable(row.data.json, COMPLETED)
    && var w := WorkspaceOf(db.sessions, row.sessionID);
       w.Some? && w.value != "" && !HasMarked(db, w.value)
  }

  predicate NothingLingers(db: Db, t: Table, rows: seq<Row>) {
    forall row | row in rows :: !Lingers(db, t, row)
  }

  predicate NoUnwritableSpawn(db: Db) {
    forall p, m | p in db.parts && m in Rows(db.v1) :: Dangling(p, m, Rows(db.v1), db.parts, db.sessions) ==> !Unwritable(m)
  }

  predicate Writable(db: Db) {
    && (forall row | row in Rows(db.v2) :: row.kind == "assistant" ==> !Unwritable(row))
    && NoUnwritableSpawn(db)
    && NothingLingers(db, V1, Rows(db.v1)) && NothingLingers(db, V2, Rows(db.v2))
  }

  lemma NoPtyLeft(db: Db, now: int, later: int)
    ensures AbandonedIn(After(db, now), later) == {} <==> NoUnwritableSpawn(db)
    ensures NoUnwritableSpawn(db) ==> forall w :: !HasUnwritableDangling(db, w)
  {
    hide Dangling, WorkspaceOf, Unwritable, Mark, Update, Abandoned, HasDangling, After;
    var db' := After(db, now);
    SecondV1(db, now, later);
    var left := AbandonedIn(db', later);
    assert left == Abandoned(Rows(db'.v1), db.parts, db.sessions) by { AfterKeepsTables(db, now); }
    if a :| a in left {
      AbandonedMeans(Rows(db'.v1), db.parts, db.sessions, a.workspace);
      SecondPtys(db, now, a.workspace);
      assert HasUnwritableDangling(db, a.workspace);
    }
    if !NoUnwritableSpawn(db) {
      var p, m :| p in db.parts && m in Rows(db.v1) && Dangling(p, m, Rows(db.v1), db.parts, db.sessions) && Unwritable(m);
      DanglingHasWorkspace(p, m, Rows(db.v1), db.parts, db.sessions);
      var w := WorkspaceOf(db.sessions, m.sessionID).value;
      assert HasUnwritableDangling(db, w);
      SecondPtys(db, now, w);
      AbandonedMeans(Rows(db'.v1), db.parts, db.sessions, w);
    }
  }

  lemma AfterKeepsTables(db: Db, now: int)
    ensures After(db, now).parts == db.parts && After(db, now).sessions == db.sessions
  {
    hide AbandonedIn, Mark, Update, Messages;
  }

  lemma DanglingHasWorkspace(p: PartRow, m: Row, rows: seq<Row>, parts: seq<PartRow>, sessions: map<string, Option<string>>)
    requires Dangling(p, m, rows, parts, sessions)
    ensures WorkspaceOf(sessions, m.sessionID).Some?
  {
    hide ExitSeen;
  }

  /** Rows that stay stuck are the marked ones and, apart from those, the lingering ones. */
  lemma StaysStuckSplits(db: Db, t: Table, rows: seq<Row>, w: string)
    requires MarkedIn(t, rows, db.sessions, w) ==> HasMarked(db, w)
    ensures MarkedIn(t, rows, db.sessions, w) ==> HasStaysStuck(t, rows, db.sessions, w)
    ensures NothingLingers(db, t, rows) && w != "" && HasStaysStuck(t, rows, db.sessions, w) ==> HasMarked(db, w)
  {
    hide Stuck, Marked, Settable, WorkspaceOf, HasMarked;
    if HasStaysStuck(t, rows, db.sessions, w) {
      var row :| row in rows && StaysStuck(t, row) && WorkspaceOf(db.sessions, row.sessionID) == Some(w);
      if NothingLingers(db, t, rows) && w != "" {
        assert !Lingers(db, t, row);
        assert Marked(row.data) ==> MarkedIn(t, rows, db.sessions, w);
      }
    }
  }

  lemma LingeringIsQueued(db: Db, t: Table, rows: seq<Row>)
    returns (w: string)
    requires !NothingLingers(db, t, rows)
    ensures w != "" && HasStaysStuck(t, rows, db.sessions, w) && !HasMarked(db, w)
  {
    hide Stuck, Marked, Settable, WorkspaceOf, HasMarked;
    var row :| row in rows && Lingers(db, t, row);
    w := WorkspaceOf(db.sessions, row.sessionID).value;
  }

  lemma QueueOfMarked(db: Db, now: int, later: int)
    requires forall w :: !HasUnwritableDangling(db, w)
    ensures (forall w :: w in Affected(After(db, now), later) <==> w != "" && HasMarked(db, w))
      <==> (NothingLingers(db, V1, Rows(db.v1)) && NothingLingers(db, V2, Rows(db.v2)))
  {
    hide HasStaysStuck, MarkedIn, Lingers, Affected, After;
    forall w
      ensures NothingLingers(db, V1, Rows(db.v1)) && NothingLingers(db, V2, Rows(db.v2))
        ==> (w in Affected(After(db, now), later) <==> w != "" && HasMarked(db, w))
    {
      SecondQueue(db, now, later, w);
      StaysStuckSplits(db, V1, Rows(db.v1), w);
      StaysStuckSplits(db, V2, Rows(db.v2), w);
    }
    if !NothingLingers(db, V1, Rows(db.v1)) {
      var w := LingeringIsQueued(db, V1, Rows(db.v1));
      SecondQueue(db, now, later, w);
    }
    if !NothingLingers(db, V2, Rows(db.v2)) {
      var w := LingeringIsQueued(db, V2, Rows(db.v2));
      SecondQueue(db, now, later, w);
    }
  }

  /** One run reaches the fixpoint exactly when every row it must write can be written. */
  lemma FixpointIffWritable(db: Db, now: int, later: int)
    ensures Fixpoint(db, now, later) <==> Writable(db)
  {
    hide Affected, HasMarked, Lingers, Dangling, Unwritable, AbandonedIn, After, HasUnwritableDangling, Updates;
    SecondV1(db, now, later);
    SecondV2(db, now);
    NoPtyLeft(db, now, later);
    if NoUnwritableSpawn(db) {
      QueueOfMarked(db, now, later);
    }
  }

  /** Valid data is an object, and its `time`, if there, is one too. */
  predicate Ordinary(d: Data) {
    d.Doc? ==> d.json.Obj? && ("time" in d.json.fields ==> d.json.fields["time"].Obj?)
  }

  lemma OrdinaryIsSettable(j: Json)
    requires Ordinary(Doc(j))
    ensures Settable(j, COMPLETED)
  {
    assert COMPLETED[0] == "time" && COMPLETED[1..] == ["completed"] && ["completed"][1..] == [];
    if "time" in j.fields {
      assert Settable(j.fields["time"], ["completed"]);
    }
  }

  /** Rows of the ordinary shape heal in one run. */
  lemma OrdinaryRowsConverge(db: Db, now: int, later: int)
    requires forall row | row in Rows(db.v1) + Rows(db.v2) :: Ordinary(row.data)
    ensures Fixpoint(db, now, later)
  {
    hide Fixpoint, Dangling, Stuck, Marked, HasMarked, Settable, Ordinary, WorkspaceOf;
    forall row | row in Rows(db.v1) + Rows(db.v2) && row.data.Doc?
      ensures !Unwritable(row) && Settable(row.data.json, COMPLETED)
    {
      OrdinaryIsSettable(row.data.json);
      SettableAtRoot(row.data.json);
    }
    assert forall row | row in Rows(db.v1) :: row in Rows(db.v1) + Rows(db.v2);
    assert forall row | row in Rows(db.v2) :: row in Rows(db.v1) + Rows(db.v2);
    assert forall t, row | row in Rows(db.v1) + Rows(db.v2) && Lingers(db, t, row) :: row.data.Doc? by {
      forall t, row | Lingers(db, t, row)
        ensures row.data.Doc?
      {
        StuckIsDoc(t, row);
      }
    }
    FixpointIffWritable(db, now, later);
  }

  lemma StuckIsDoc(t: Table, row: Row)
    ensures Stuck(t, row) ==> row.data.Doc?
  {
  }

  /** It is not always reached: a turn whose `time` is a number is queued again by the next run. */
  lemma FixpointMissed(now: int, later: int) returns (db: Db)
    ensures "ws" in Affected(db, now) && "ws" in Affected(After(db, now), later)
    ensures !HasMarked(db, "ws") && !Fixpoint(db, now, later)
  {
    hide AbandonedIn, After;
    var turn := Obj(map["role" := Str("assistant"), "time" := Number(0.0)]);
    var row := Row("m", "s", "", Doc(turn));
    db := Db(Some([row]), None, [], map["s" := Some("ws")]);
    assert ROLE[0] == "role" && ROLE[1..] == [];
    assert COMPLETED[0] == "time" && COMPLETED[1..] == ["completed"] && ERROR_NAME[0] == "error";
    assert "error" != "role" && "error" != "time" by {
      assert "error"[0] == 'e' && "role"[0] == 'r' && "time"[0] == 't';
    }
    assert "role" != "time" by {
      assert "role"[0] == 'r' && "time"[0] == 't';
    }
    assert Extract(turn, ROLE) == Some(Str("assistant"));
    assert Extract(turn, COMPLETED) == None && !Settable(turn, COMPLETED);
    assert StaysStuck(V1, row) && row in Rows(db.v1);
    StagedIsOneShot(db, now, "ws");
    SecondQueue(db, now, later, "ws");
    assert !HasMarked(db, "ws") by {
      assert !Marked(row.data);
    }
  }
}
