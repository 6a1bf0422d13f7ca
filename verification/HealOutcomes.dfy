/** What a heal run does, row by row and workspace by workspace, in terms of the stored JSON. */
module HealOutcomes {
  import opened Wrappers
  import opened Json
  import opened Heal
  import opened HealTheorems

  /** Nothing at a path, or a JSON null. */
  predicate Missing(j: Json, path: seq<string>) {
    Extract(j, path) == None || Extract(j, path) == Some(Null)
  }

  lemma ErrorIsPut(j: Json, why: string)
    requires j.Obj?
    ensures Extract(Put(j, ERROR, AbortedError(why)), ["error", "name"]) == Some(Str("MessageAbortedError"))
    ensures Extract(Put(j, ERROR, AbortedError(why)), ["error", "data", "message"]) == Some(Str(why))
  {
    var e := AbortedError(why);
    var k := Put(j, ERROR, e);
    assert ERROR[0] == "error" && ERROR[1..] == [];
    assert k.fields["error"] == e;
    assert ["error", "name"][1..] == ["name"] && ["name"][1..] == [];
    assert ["error", "data", "message"][1..] == ["data", "message"] && ["data", "message"][1..] == ["message"] && ["message"][1..] == [];
    assert "name"[0] != "data"[0];
    assert Extract(e, ["data", "message"]) == Extract(e.fields["data"], ["message"]) == Some(Str(why));
  }

  /** What marking a turn as interrupted writes into an object. */
  lemma InterruptedWrites(j: Json, now: int)
    requires j.Obj?
    ensures var k := Interrupted(j, now);
      && Extract(k, ["error", "name"]) == Some(Str("MessageAbortedError"))
      && Extract(k, ["error", "data", "message"]) == Some(Str("opencode-serve restarted; turn interrupted mid-flight"))
      && Extract(k, ["finish"]) == Some(Str("interrupted-by-restart"))
      && Extract(k, ["time", "completed"]) == if Settable(j, ["time", "completed"]) then Some(Number(now as real)) else Extract(j, ["time", "completed"])
  {
    hide Put, Extract, Settable;
    InterruptedMeans(j, now);
    var a := Put(j, COMPLETED, Number(now as real));
    var b := Put(a, FINISH, Str("interrupted-by-restart"));
    PutKeepsShape(j, COMPLETED, Number(now as real));
    PutKeepsShape(a, FINISH, Str("interrupted-by-restart"));
    ErrorIsPut(b, "opencode-serve restarted; turn interrupted mid-flight");
  }

  /** A turn that the run marks as interrupted, in either table. */
  lemma UpdatableMeans(t: Table, row: Row)
    ensures Updatable(t, row) <==> (
      && row.data.Doc?
      && (if t.V1? then Extract(row.data.json, ["role"]) == Some(Str("assistant")) else row.kind == "assistant")
      && Missing(row.data.json, ["time", "completed"])
      && Extract(row.data.json, ["error", "name"]) != Some(Str("MessageAbortedError")))
  {
    hide Extract;
  }

  /** A row of `session_message` after the run: an assistant turn without a completion time and
      not marked before gets the marker, the reason, the finish and, where it can be set, the
      time of the run. Any other row, and one whose data is no object, stays as it is. */
  lemma HealedV2(db: Db, now: int, i: nat)
    requires i < |Rows(db.v2)|
    ensures |Rows(After(db, now).v2)| == |Rows(db.v2)|
    ensures var row, row' := Rows(db.v2)[i], Rows(After(db, now).v2)[i];
      if && row.kind == "assistant" && row.data.Doc? && row.data.json.Obj?
         && Missing(row.data.json, ["time", "completed"]) && Extract(row.data.json, ["error", "name"]) != Some(Str("MessageAbortedError"))
      then
        && row' == row.(data := row'.data) && row'.data.Doc?
        && Extract(row'.data.json, ["error", "name"]) == Some(Str("MessageAbortedError"))
        && Extract(row'.data.json, ["error", "data", "message"]) == Some(Str("opencode-serve restarted; turn interrupted mid-flight"))
        && Extract(row'.data.json, ["finish"]) == Some(Str("interrupted-by-restart"))
        && Extract(row'.data.json, ["time", "completed"]) ==
             (if Settable(row.data.json, ["time", "completed"]) then Some(Number(now as real)) else Extract(row.data.json, ["time", "completed"]))
      else row' == row
  {
    hide Interrupted, Put, Extract, Settable, Updatable, Missing;
    var row := Rows(db.v2)[i];
    UpdatableMeans(V2, row);
    if row.data.Doc? {
      InterruptedMeans(row.data.json, now);
      if row.data.json.Obj? {
        InterruptedWrites(row.data.json, now);
      }
    }
  }

  /** A row of `message` after the run: the same for an unfinished turn; the message of an
      abandoned PTY, if it is an object and not marked before, gets the other reason and keeps
      everything outside its error; any other row stays as it is. */
  lemma HealedV1(db: Db, now: int, i: nat, q: seq<string>)
    requires i < |Rows(db.v1)| && Apart(["error"], q)
    ensures |Rows(After(db, now).v1)| == |Rows(db.v1)|
    ensures var row, row' := Rows(db.v1)[i], Rows(After(db, now).v1)[i];
      if && row.data.Doc? && Extract(row.data.json, ["role"]) == Some(Str("assistant"))
         && Missing(row.data.json, ["time", "completed"]) && Extract(row.data.json, ["error", "name"]) != Some(Str("MessageAbortedError"))
      then
        && row' == row.(data := row'.data) && row'.data.Doc?
        && Extract(row'.data.json, ["error", "name"]) == Some(Str("MessageAbortedError"))
        && Extract(row'.data.json, ["error", "data", "message"]) == Some(Str("opencode-serve restarted; turn interrupted mid-flight"))
        && Extract(row'.data.json, ["finish"]) == Some(Str("interrupted-by-restart"))
        && Extract(row'.data.json, ["time", "completed"]) ==
             (if Settable(row.data.json, ["time", "completed"]) then Some(Number(now as real)) else Extract(row.data.json, ["time", "completed"]))
      else if && row.id in Messages(AbandonedIn(db, now)) && row.data.Doc? && row.data.json.Obj?
              && Extract(row.data.json, ["error", "name"]) != Some(Str("MessageAbortedError"))
      then
        && row' == row.(data := row'.data) && row'.data.Doc?
        && Extract(row'.data.json, ["error", "name"]) == Some(Str("MessageAbortedError"))
        && Extract(row'.data.json, ["error", "data", "message"]) == Some(Str("opencode-pty session killed by opencode-serve restart"))
        && Extract(row'.data.json, q) == Extract(row.data.json, q)
      else row' == row
  {
    hide Interrupted, Put, Extract, Settable, Updatable, Missing, AbandonedIn, Messages, Apart, Stuck;
    var row, ids := Rows(db.v1)[i], Messages(AbandonedIn(db, now));
    FinalRowAt(db, now, i);
    UpdatableMeans(V1, row);
    if Updatable(V1, row) {
      V1AssistantIsObject(row);
      InterruptedWrites(row.data.json, now);
    } else {
      MarkWrites(ids, row, q);
    }
  }

  lemma MarkWrites(ids: set<string>, row: Row, q: seq<string>)
    requires Apart(["error"], q)
    ensures var row' := MarkRow(ids, row);
      if row.id in ids && row.data.Doc? && row.data.json.Obj? && Extract(row.data.json, ["error", "name"]) != Some(Str("MessageAbortedError"))
      then
        && row' == row.(data := row'.data) && row'.data.Doc?
        && Extract(row'.data.json, ["error", "name"]) == Some(Str("MessageAbortedError"))
        && Extract(row'.data.json, ["error", "data", "message"]) == Some(Str("opencode-pty session killed by opencode-serve restart"))
        && Extract(row'.data.json, q) == Extract(row.data.json, q)
      else row' == row
  {
    hide Put, Extract, Apart;
    if row.data.Doc? {
      PutError(row.data.json, "opencode-pty session killed by opencode-serve restart");
      if row.data.json.Obj? {
        ErrorIsPut(row.data.json, "opencode-pty session killed by opencode-serve restart");
        MarkRowPaths(ids, row, q);
      }
    }
  }

  /** The positions of the turns an update selects. */
  function Selected(t: Table, rows: seq<Row>): set<nat> {
    set i: nat | i < |rows| && Updatable(t, rows[i])
  }

  function Next(s: set<nat>): set<nat> {
    set i: nat | i in s :: i + 1
  }

  lemma NextMeans(s: set<nat>, i: nat)
    ensures i in Next(s) <==> i > 0 && i - 1 in s
  {
    if i > 0 {
      assert (i - 1) + 1 == i;
    }
  }

  lemma {:induction false} NextSize(s: set<nat>)
    ensures |Next(s)| == |s|
    decreases |s|
  {
    if s != {} {
      var x :| x in s;
      var rest := s - {x};
      NextSize(rest);
      forall i: nat
        ensures i in Next(s) <==> i in Next(rest) || i == x + 1
      {
        NextMeans(s, i);
        NextMeans(rest, i);
      }
      assert Next(s) == Next(rest) + {x + 1};
    }
  }

  lemma SelectedCons(t: Table, rows: seq<Row>)
    requires rows != []
    ensures Selected(t, rows) == Next(Selected(t, rows[1..])) + if Updatable(t, rows[0]) then {0} else {}
  {
    hide Updatable;
    var rest := Selected(t, rows[1..]);
    forall i: nat
      ensures i in Selected(t, rows) <==> i in Next(rest) || (i == 0 && Updatable(t, rows[0]))
    {
      if i > 0 && i in Selected(t, rows) {
        assert i - 1 in rest;
      }
    }
  }

  /** The number of rows an update reports is that of the turns it selects. */
  lemma {:induction false} UpdatesCount(t: Table, rows: seq<Row>)
    ensures Updates(t, rows) == |Selected(t, rows)|
  {
    hide Updatable, Selected;
    if rows == [] {
      assert Selected(t, []) == {} by { NoneSelected(t); }
    } else {
      UpdatesCount(t, rows[1..]);
      SelectedCons(t, rows);
      NextSize(Selected(t, rows[1..]));
      NotFirst(t, rows[1..]);
    }
  }

  lemma NoneSelected(t: Table)
    ensures Selected(t, []) == {}
  {
  }

  lemma NotFirst(t: Table, rows: seq<Row>)
    ensures 0 !in Next(Selected(t, rows))
  {
  }

  // ---- The queue ----

  /** An assistant turn without a completion time, in a session of the workspace. */
  predicate OpenTurnIn(t: Table, row: Row, sessions: map<string, Option<string>>, w: string) {
    && row.data.Doc?
    && (if t.V1? then Extract(row.data.json, ["role"]) == Some(Str("assistant")) else row.kind == "assistant")
    && Missing(row.data.json, ["time", "completed"])
    && row.sessionID in sessions && sessions[row.sessionID] == Some(w)
  }

  /** A PTY spawned in an unmarked message of the workspace, whose exit no later user message of
      its session reports. */
  predicate SpawnLeftIn(p: PartRow, m: Row, rows: seq<Row>, parts: seq<PartRow>, sessions: map<string, Option<string>>, w: string) {
    && p.messageID == m.id && SpawnedPty(p.data).Some?
    && m.data.Doc? && Extract(m.data.json, ["error", "name"]) != Some(Str("MessageAbortedError"))
    && m.sessionID in sessions && sessions[m.sessionID] == Some(w)
    && forall q, u | q in parts && u in rows && q.messageID == u.id && q.sessionID == p.sessionID && q.time > p.time ::
         !(ReportsExit(q, SpawnedPty(p.data).value) && u.data.Doc? && Extract(u.data.json, ["role"]) == Some(Str("user")))
  }

  /** The queue a run writes: the workspaces with an open turn in either table, or with a PTY
      left behind, in the database as it was before the run. */
  lemma QueueMeans(db: Db, now: int, w: string)
    ensures w in Affected(db, now) <==> (
      && w != ""
      && (|| (exists row | row in Rows(db.v1) :: OpenTurnIn(V1, row, db.sessions, w))
          || (exists row | row in Rows(db.v2) :: OpenTurnIn(V2, row, db.sessions, w))
          || (exists p, m | p in db.parts && m in Rows(db.v1) :: SpawnLeftIn(p, m, Rows(db.v1), db.parts, db.sessions, w))))
  {
    hide Affected, Dangling, OpenTurnIn, SpawnLeftIn, Stuck, WorkspaceOf;
    StagedIsOneShot(db, now, w);
    forall t, row
      ensures Stuck(t, row) && WorkspaceOf(db.sessions, row.sessionID) == Some(w) <==> OpenTurnIn(t, row, db.sessions, w)
    {
      OpenTurnMeans(t, row, db.sessions, w);
    }
    forall p, m
      ensures Dangling(p, m, Rows(db.v1), db.parts, db.sessions) && WorkspaceOf(db.sessions, m.sessionID) == Some(w)
        <==> SpawnLeftIn(p, m, Rows(db.v1), db.parts, db.sessions, w)
    {
      SpawnLeftMeans(p, m, Rows(db.v1), db.parts, db.sessions, w);
    }
  }

  lemma OpenTurnMeans(t: Table, row: Row, sessions: map<string, Option<string>>, w: string)
    ensures Stuck(t, row) && WorkspaceOf(sessions, row.sessionID) == Some(w) <==> OpenTurnIn(t, row, sessions, w)
  {
    hide Extract;
  }

  lemma SpawnLeftMeans(p: PartRow, m: Row, rows: seq<Row>, parts: seq<PartRow>, sessions: map<string, Option<string>>, w: string)
    ensures Dangling(p, m, rows, parts, sessions) && WorkspaceOf(sessions, m.sessionID) == Some(w)
      <==> SpawnLeftIn(p, m, rows, parts, sessions, w)
  {
    hide Extract, SpawnedPty, ReportsExit;
  }

  // ---- Its order ----

  /** Lines are sorted as strings: at the first difference the smaller character comes first, and
      a prefix comes before what it begins. */
  lemma {:induction false} BeforeMeans(a: string, b: string)
    ensures Before(a, b) <==> exists k: nat :: AgreeUpTo(a, b, k) && k < |b| && (k == |a| || a[k] < b[k])
  {
    if a != "" && b != "" && a[0] == b[0] {
      BeforeMeans(a[1..], b[1..]);
      forall k: nat | k <= |a| - 1 && k <= |b| - 1
        ensures AgreeUpTo(a[1..], b[1..], k) <==> AgreeUpTo(a, b, k + 1)
      {
        assert a[..k + 1] == [a[0]] + a[1..][..k] && b[..k + 1] == [b[0]] + b[1..][..k];
        assert a[..k + 1][1..] == a[1..][..k] && b[..k + 1][1..] == b[1..][..k];
      }
      if k: nat :| AgreeUpTo(a[1..], b[1..], k) && k < |b[1..]| && (k == |a[1..]| || a[1..][k] < b[1..][k]) {
        assert AgreeUpTo(a, b, k + 1);
      }
      if k: nat :| AgreeUpTo(a, b, k) && k < |b| && (k == |a| || a[k] < b[k]) {
        assert k > 0 && AgreeUpTo(a[1..], b[1..], k - 1);
      }
    } else {
      assert a[..0] == b[..0] == "";
      if b != "" && (a == "" || a[0] < b[0]) {
        assert AgreeUpTo(a, b, 0);
      }
      if k: nat :| AgreeUpTo(a, b, k) && k < |b| && (k == |a| || a[k] < b[k]) {
        if k > 0 {
          AgreeFromStart(a, b, k);
        }
      }
    }
  }

  lemma AgreeFromStart(a: string, b: string, k: nat)
    requires AgreeUpTo(a, b, k) && k > 0
    ensures a != "" && b != "" && a[0] == b[0]
  {
    assert a[..k][0] == b[..k][0];
  }

  /** The strings agree up to `k`. */
  predicate AgreeUpTo(a: string, b: string, k: nat) {
    k <= |a| && k <= |b| && a[..k] == b[..k]
  }
}
