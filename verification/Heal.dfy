/** What one run of opencode-heal does to the database and which workspaces it queues:
    the queries and updates of its passes, in the order of its main sequence. */
module Heal {
  import opened Wrappers
  import opened Json
  import opened SqlText
  import PtyLifecycle

  /** A `data` column: `json_valid` tells the two apart. */
  datatype Data = Malformed | Doc(json: Json)

  /** `message` (v1) or `session_message` (v2); `kind` is the `type` column only v2 has. */
  datatype Table = V1 | V2

  datatype Row = Row(id: string, sessionID: string, kind: string, data: Data)

  datatype PartRow = PartRow(messageID: string, sessionID: string, time: int, data: Data)

  /** Sessions by primary key, each with its `workspace_id`; a message table may be absent. */
  datatype Db = Db(
    v1: Option<seq<Row>>,
    v2: Option<seq<Row>>,
    parts: seq<PartRow>,
    sessions: map<string, Option<string>>)

  const COMPLETED := ["time", "completed"]
  const FINISH := ["finish"]
  const ERROR := ["error"]
  const ERROR_NAME := ["error", "name"]
  const ROLE := ["role"]

  const ABORTED := "MessageAbortedError"

  function AbortedError(why: string): Json {
    Obj(map["name" := Str(ABORTED), "data" := Obj(map["message" := Str(why)])])
  }

  /** `json_extract(...) IS NULL`. */
  predicate NullAt(j: Json, path: seq<string>) {
    Extract(j, path) == None || Extract(j, path) == Some(Null)
  }

  predicate StringAt(d: Data, path: seq<string>, s: string) {
    d.Doc? && Extract(d.json, path) == Some(Str(s))
  }

  predicate Marked(d: Data) {
    StringAt(d, ERROR_NAME, ABORTED)
  }

  predicate IsAssistant(t: Table, row: Row) {
    match t
    case V1 => StringAt(row.data, ROLE, "assistant")
    case V2 => row.kind == "assistant"
  }

  /** An assistant turn without a completion time. */
  predicate Stuck(t: Table, row: Row) {
    IsAssistant(t, row) && row.data.Doc? && NullAt(row.data.json, COMPLETED)
  }

  predicate Updatable(t: Table, row: Row) {
    Stuck(t, row) && !Marked(row.data)
  }

  function WorkspaceOf(sessions: map<string, Option<string>>, sessionID: string): Option<string> {
    if sessionID in sessions then sessions[sessionID] else None
  }

  /** The workspaces `heal_collect` lists. */
  function Collect(t: Table, rows: seq<Row>, sessions: map<string, Option<string>>): set<string> {
    set row | row in rows && Stuck(t, row) && WorkspaceOf(sessions, row.sessionID).Some? :: WorkspaceOf(sessions, row.sessionID).value
  }

  function Interrupted(j: Json, now: int): Json {
    Put(Put(Put(j, COMPLETED, Number(now as real)), FINISH, Str("interrupted-by-restart")),
        ERROR, AbortedError("opencode-serve restarted; turn interrupted mid-flight"))
  }

  function UpdateRow(t: Table, now: int, row: Row): Row {
    if Updatable(t, row) then row.(data := Doc(Interrupted(row.data.json, now))) else row
  }

  /** The table after `heal_update`. */
  function Update(t: Table, rows: seq<Row>, now: int): (r: seq<Row>)
    ensures |r| == |rows| && forall i | 0 <= i < |rows| :: r[i] == UpdateRow(t, now, rows[i])
  {
    seq(|rows|, i requires 0 <= i < |rows| => UpdateRow(t, now, rows[i]))
  }

  /** How many rows `heal_update` reports. */
  function Updates(t: Table, rows: seq<Row>): nat {
    if rows == [] then 0 else (if Updatable(t, rows[0]) then 1 else 0) + Updates(t, rows[1..])
  }

  // ---- Abandoned PTYs ----

  /** `= 1` in SQLite, where a JSON true counts as 1. */
  predicate EqualsOne(j: Option<Json>) {
    j == Some(Bool(true)) || j == Some(Number(1.0))
  }

  /** The output of a notify-on-exit spawn. Only a JSON string can pass the later tests: the
      text of any other value holds no line feed. */
  function SpawnOutput(d: Data): Option<string> {
    if && StringAt(d, ["type"], "tool") && StringAt(d, ["tool"], "pty_spawn")
       && EqualsOne(Extract(d.json, ["state", "input", "notifyOnExit"]))
    then
      match Extract(d.json, ["state", "output"])
      case Some(Str(s)) => Some(s)
      case _ => None
    else None
  }

  function OpeningLines(tag: PtyLifecycle.Tag, id: string): string {
    PtyLifecycle.OpenTag(tag) + "\nID: " + id + "\n"
  }

  /** `LIKE '%<tag>\nID: id\n%</tag>%'`. */
  predicate HasBlock(text: string, tag: PtyLifecycle.Tag, id: string) {
    Like("%" + (OpeningLines(tag, id) + ("%" + (PtyLifecycle.CloseTag(tag) + "%"))), text)
  }

  const ID_LABEL := "ID: pty_"

  /** The PTY a spawn's output reports, as the query reads it. */
  function ReportedId(output: string): Option<string> {
    var at := Instr(output, ID_LABEL);
    if at == 0 then None
    else
      var id := Substr(output, at + 4, 12);
      if PtyLifecycle.PtyId(id) && HasBlock(output, PtyLifecycle.Spawned, id) then Some(id) else None
  }

  function SpawnedPty(d: Data): Option<string> {
    match SpawnOutput(d)
    case Some(output) => ReportedId(output)
    case None => None
  }

  datatype Pty = Pty(messageID: string, sessionID: string, workspace: string, time: int, id: string)

  /** The part and its message satisfy the joins and filters of the `CREATE TABLE` query. */
  predicate Qualifies(p: PartRow, m: Row, sessions: map<string, Option<string>>) {
    && p.messageID == m.id && SpawnedPty(p.data).Some?
    && m.data.Doc? && !Marked(m.data) && WorkspaceOf(sessions, m.sessionID).Some?
  }

  function PtyOf(p: PartRow, m: Row, sessions: map<string, Option<string>>): Pty
    requires Qualifies(p, m, sessions)
  {
    Pty(p.messageID, p.sessionID, WorkspaceOf(sessions, m.sessionID).value, p.time, SpawnedPty(p.data).value)
  }

  function SpawnedPtys(rows: seq<Row>, parts: seq<PartRow>, sessions: map<string, Option<string>>): set<Pty> {
    set p, m | p in parts && m in rows && Qualifies(p, m, sessions) :: PtyOf(p, m, sessions)
  }

  predicate ReportsExit(p: PartRow, id: string) {
    StringAt(p.data, ["type"], "text") &&
    match Extract(p.data.json, ["text"])
    case Some(Str(s)) => HasBlock(s, PtyLifecycle.Exited, id)
    case _ => false
  }

  /** A later user message of the session reports the exit. */
  predicate ExitSeen(a: Pty, rows: seq<Row>, parts: seq<PartRow>) {
    exists p, m | p in parts && m in rows ::
      && p.messageID == m.id && p.sessionID == a.sessionID && p.time > a.time
      && ReportsExit(p, a.id) && StringAt(m.data, ROLE, "user")
  }

  /** `abandoned_pty` after the `DELETE`. */
  function Abandoned(rows: seq<Row>, parts: seq<PartRow>, sessions: map<string, Option<string>>): set<Pty> {
    set a | a in SpawnedPtys(rows, parts, sessions) && !ExitSeen(a, rows, parts)
  }

  function Workspaces(ptys: set<Pty>): set<string> {
    set a | a in ptys :: a.workspace
  }

  function Messages(ptys: set<Pty>): set<string> {
    set a | a in ptys :: a.messageID
  }

  function MarkRow(ids: set<string>, row: Row): Row {
    if row.id in ids && row.data.Doc? && !Marked(row.data)
    then row.(data := Doc(Put(row.data.json, ERROR, AbortedError("opencode-pty session killed by opencode-serve restart"))))
    else row
  }

  function Mark(ids: set<string>, rows: seq<Row>): (r: seq<Row>)
    ensures |r| == |rows| && forall i | 0 <= i < |rows| :: r[i] == MarkRow(ids, rows[i])
  {
    seq(|rows|, i requires 0 <= i < |rows| => MarkRow(ids, rows[i]))
  }

  // ---- The whole run ----

  function Rows(t: Option<seq<Row>>): seq<Row> {
    if t.Some? then t.value else []
  }

  /** The v1 table between its two passes. */
  function Updated(db: Db, now: int): seq<Row> {
    Update(V1, Rows(db.v1), now)
  }

  function AbandonedIn(db: Db, now: int): set<Pty> {
    Abandoned(Updated(db, now), db.parts, db.sessions)
  }

  function After(db: Db, now: int): Db {
    db.(
      v1 := if db.v1.Some? then Some(Mark(Messages(AbandonedIn(db, now)), Updated(db, now))) else None,
      v2 := if db.v2.Some? then Some(Update(V2, db.v2.value, now)) else None)
  }

  /** The workspaces of the staged passes, each over the rows the passes before it left. */
  function Affected(db: Db, now: int): set<string> {
    Collect(V1, Rows(db.v1), db.sessions) + Workspaces(AbandonedIn(db, now)) + Collect(V2, Rows(db.v2), db.sessions) - {""}
  }

  // ---- `sort -u` ----

  predicate Before(a: string, b: string) {
    b != "" && (a == "" || a[0] < b[0] || (a[0] == b[0] && Before(a[1..], b[1..])))
  }

  predicate Ascending(s: seq<string>) {
    forall i, j | 0 <= i < j < |s| :: Before(s[i], s[j])
  }

  lemma {:induction false} BeforeIsTotal(a: string, b: string)
    ensures a == b || Before(a, b) || Before(b, a)
    ensures !(Before(a, b) && Before(b, a)) && !Before(a, a)
  {
    if a != "" && b != "" && a[0] == b[0] {
      BeforeIsTotal(a[1..], b[1..]);
      BeforeIsTotal(a[1..], a[1..]);
      assert a == [a[0]] + a[1..] && b == [b[0]] + b[1..];
    } else if a != "" {
      BeforeIsTotal(a[1..], a[1..]);
    }
  }

  lemma {:induction false} BeforeIsTransitive(a: string, b: string, c: string)
    requires Before(a, b) && Before(b, c)
    ensures Before(a, c)
  {
    if a != "" && a[0] == b[0] == c[0] {
      BeforeIsTransitive(a[1..], b[1..], c[1..]);
    }
  }
}
