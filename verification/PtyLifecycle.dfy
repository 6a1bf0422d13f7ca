/** The transcript parser of the notification plugin: exact, line-delimited lifecycle
    records, and the fold that tells which notify-on-exit PTYs are still unfinished. */
module PtyLifecycle {
  import opened Wrappers
  import opened Text

  datatype Tag = Spawned | Exited

  function OpenTag(tag: Tag): string {
    if tag.Spawned? then "<pty_spawned>" else "<pty_exited>"
  }

  function CloseTag(tag: Tag): string {
    if tag.Spawned? then "</pty_spawned>" else "</pty_exited>"
  }

  /** `/^pty_[a-f0-9]{8}$/`. */
  predicate PtyId(s: string) {
    |s| == 12 && s[..4] == "pty_" && forall i | 4 <= i < 12 :: '0' <= s[i] <= '9' || 'a' <= s[i] <= 'f'
  }

  predicate LineTerminator(c: char) {
    c == '\n' || c == '\r' || c == '\U{2028}' || c == '\U{2029}'
  }

  predicate SingleLine(s: string) {
    forall c | c in s :: !LineTerminator(c)
  }

  /** Index of the first colon, or `|s|`. */
  function Colon(s: string): (n: nat)
    ensures n <= |s|
  {
    if s == "" || s[0] == ':' then 0 else 1 + Colon(s[1..])
  }

  /** `/^([^:]+):\s*(.*)$/` on a trimmed line: a key, and a value without line terminators. */
  function Field(line: string): Option<(string, string)> {
    var c := Colon(line);
    if c == 0 || c == |line| then None
    else
      var value := TrimStart(line[c + 1..]);
      if SingleLine(value) then Some((line[..c], value)) else None
  }

  /** Finished records and the one being read. */
  datatype Scan = Scan(out: seq<map<string, string>>, current: Option<map<string, string>>)

  function ScanLine(st: Scan, rawLine: string, tag: Tag): Scan {
    var line := Trim(rawLine);
    if line == OpenTag(tag) then st.(current := Some(map[]))
    else if line == CloseTag(tag) then
      Scan(if st.current.Some? then st.out + [st.current.value] else st.out, None)
    else if st.current.None? then st
    else
      match Field(line)
      case None => st
      case Some((key, value)) => st.(current := Some(st.current.value[key := value]))
  }

  function ScanLines(st: Scan, lines: seq<string>, tag: Tag): Scan
    decreases |lines|
  {
    if lines == [] then st else ScanLines(ScanLine(st, lines[0], tag), lines[1..], tag)
  }

  function Records(text: string, tag: Tag): seq<map<string, string>> {
    ScanLines(Scan([], None), Lines(text), tag).out
  }

  method ParseRecordBlock(text: string, tag: Tag) returns (out: seq<map<string, string>>)
    ensures out == Records(text, tag)
  {
    var lines := Lines(text);
    out := [];
    var current: Option<map<string, string>> := None;
    for i := 0 to |lines|
      invariant ScanLines(Scan([], None), lines, tag) == ScanLines(Scan(out, current), lines[i..], tag)
    {
      var line := Trim(lines[i]);
      assert lines[i..][1..] == lines[i + 1..];
      if line == OpenTag(tag) {
        current := Some(map[]);
        continue;
      }
      if line == CloseTag(tag) {
        if current.Some? {
          out := out + [current.value];
        }
        current := None;
        continue;
      }
      if current.None? {
        continue;
      }
      var field := Field(line);
      if field.Some? {
        current := Some(current.value[field.value.0 := field.value.1]);
      }
    }
  }

  predicate HasId(r: map<string, string>) {
    "ID" in r && PtyId(r["ID"])
  }

  function Ids(records: seq<map<string, string>>): seq<string> {
    if records == [] then []
    else if HasId(records[0]) then [records[0]["ID"]] + Ids(records[1..])
    else Ids(records[1..])
  }

  function SpawnedId(output: string): Option<string> {
    var ids := Ids(Records(output, Spawned));
    if ids == [] then None else Some(ids[0])
  }

  function ExitedIds(text: string): seq<string> {
    Ids(Records(text, Exited))
  }

  method ParsePtySpawnedID(output: string) returns (id: Option<string>)
    ensures id == SpawnedId(output)
  {
    var blocks := ParseRecordBlock(output, Spawned);
    for i := 0 to |blocks|
      invariant Ids(blocks) == Ids(blocks[i..])
    {
      if "ID" in blocks[i] && PtyId(blocks[i]["ID"]) {
        return Some(blocks[i]["ID"]);
      }
      assert blocks[i..][1..] == blocks[i + 1..];
    }
    id := None;
  }

  method ParsePtyExitedIDs(text: string) returns (ids: seq<string>)
    ensures ids == ExitedIds(text)
  {
    var blocks := ParseRecordBlock(text, Exited);
    ids := [];
    for i := 0 to |blocks|
      invariant Ids(blocks) == ids + Ids(blocks[i..])
    {
      if "ID" in blocks[i] && PtyId(blocks[i]["ID"]) {
        ids := ids + [blocks[i]["ID"]];
      }
      assert blocks[i..][1..] == blocks[i + 1..];
    }
  }

  // ---- Messages ----

  datatype Role = Assistant | User | OtherRole

  /** A part as far as the fold looks at it; anything malformed is `OtherPart`. */
  datatype Part =
    | TextPart(text: string)
    | ToolPart(tool: string, status: string, notifyOnExit: bool, output: Option<string>)
    | OtherPart

  datatype Message = Message(role: Role, parts: seq<Part>)

  predicate NotifySpawn(p: Part) {
    p.ToolPart? && p.tool == "pty_spawn" && p.status == "completed" && p.notifyOnExit && p.output.Some?
  }

  /** A completed notify-on-exit spawn of `id`. */
  predicate Spawns(p: Part, id: string) {
    NotifySpawn(p) && SpawnedId(p.output.value) == Some(id)
  }

  function JoinedText(parts: seq<Part>): string {
    if parts == [] then ""
    else (if parts[0].TextPart? then parts[0].text else "") + JoinedText(parts[1..])
  }

  predicate AnySpawn(parts: seq<Part>, id: string) {
    exists p | p in parts :: Spawns(p, id)
  }

  predicate SpawnsIn(m: Message, id: string) {
    m.role.Assistant? && AnySpawn(m.parts, id)
  }

  predicate ExitsIn(m: Message, id: string) {
    m.role.User? && id in ExitedIds(JoinedText(m.parts))
  }

  /** Some spawn of `id` is followed by no user message with an exit record for it. */
  predicate Unfinished(messages: seq<Message>, id: string) {
    exists i | 0 <= i < |messages| ::
      SpawnsIn(messages[i], id) && forall j | i < j < |messages| :: !ExitsIn(messages[j], id)
  }

  lemma UnfinishedAppend(messages: seq<Message>, m: Message, id: string)
    ensures Unfinished(messages + [m], id)
       <==> SpawnsIn(m, id) || (Unfinished(messages, id) && !ExitsIn(m, id))
  {
    hide SpawnsIn, ExitsIn;
    var all, n := messages + [m], |messages|;
    assert all[n] == m && forall i | 0 <= i < n :: all[i] == messages[i];
    if Unfinished(all, id) {
      var i :| 0 <= i < |all| && SpawnsIn(all[i], id) && forall j | i < j < |all| :: !ExitsIn(all[j], id);
      if i < n {
        assert SpawnsIn(messages[i], id);
        assert !ExitsIn(all[n], id);
        assert forall j | i < j < n :: !ExitsIn(messages[j], id) by {
          assert forall j | i < j < n :: !ExitsIn(all[j], id);
        }
      }
    }
    if SpawnsIn(m, id) {
      assert SpawnsIn(all[n], id);
    }
    if Unfinished(messages, id) && !ExitsIn(m, id) {
      var i :| 0 <= i < |messages| && SpawnsIn(messages[i], id) && forall j | i < j < |messages| :: !ExitsIn(messages[j], id);
      assert SpawnsIn(all[i], id);
      assert forall j | i < j < |all| :: !ExitsIn(all[j], id);
    }
  }

  /** One pass over the session: a set that gains spawned ids and loses exited ones. The
      result does not depend on the shortcut that skips user texts while it is empty. */
  method UnfinishedNotifyOnExitPtys(messages: seq<Message>) returns (pending: set<string>)
    ensures forall id :: id in pending <==> Unfinished(messages, id)
  {
    pending := {};
    for n := 0 to |messages|
      invariant forall id :: id in pending <==> Unfinished(messages[..n], id)
    {
      var msg := messages[n];
      ghost var before := pending;
      if msg.role.Assistant? {
        pending := AddSpawns(msg.parts, pending);
      } else if msg.role.User? && pending != {} {
        var text := JoinTexts(msg.parts);
        var ids := ParsePtyExitedIDs(text);
        for k := 0 to |ids|
          invariant forall id :: id in pending <==> id in before && id !in ids[..k]
        {
          pending := pending - {ids[k]};
          assert ids[..k + 1] == ids[..k] + [ids[k]];
        }
        assert ids[..|ids|] == ids;
      }
      assert messages[..n + 1] == messages[..n] + [msg];
      forall id
        ensures id in pending <==> Unfinished(messages[..n + 1], id)
      {
        UnfinishedAppend(messages[..n], msg, id);
      }
    }
    assert messages[..|messages|] == messages;
  }

  lemma SpawnsAppend(parts: seq<Part>, q: Part)
    ensures forall id :: AnySpawn(parts + [q], id) <==> AnySpawn(parts, id) || Spawns(q, id)
  {
    assert q in parts + [q];
    assert forall p | p in parts :: p in parts + [q];
  }

  method AddSpawns(parts: seq<Part>, before: set<string>) returns (pending: set<string>)
    ensures forall id :: id in pending <==> id in before || AnySpawn(parts, id)
  {
    pending := before;
    for i := 0 to |parts|
      invariant forall id :: id in pending <==> id in before || AnySpawn(parts[..i], id)
    {
      SpawnsAppend(parts[..i], parts[i]);
      assert parts[..i + 1] == parts[..i] + [parts[i]];
      if NotifySpawn(parts[i]) {
        var id := ParsePtySpawnedID(parts[i].output.value);
        if id.Some? {
          pending := pending + {id.value};
        }
      }
    }
    assert parts[..|parts|] == parts;
  }

  method JoinTexts(parts: seq<Part>) returns (text: string)
    ensures text == JoinedText(parts)
  {
    text := "";
    for i := 0 to |parts|
      invariant JoinedText(parts) == text + JoinedText(parts[i..])
    {
      assert parts[i..][1..] == parts[i + 1..];
      if parts[i].TextPart? {
        text := text + parts[i].text;
      }
    }
  }
}
