/** Sessions in the form the plugin and opencode-pty write them: the agreement is about these. */
module PtyCases {
  import opened Wrappers
  import opened Json
  import opened Text
  import opened SqlText
  import opened PtyLifecycle
  import opened PtyRecords
  import opened PtyQuery
  import opened PtyContract
  import opened PtySeams
  import opened PtyPairs
  import opened PtyJoints
  import opened PtyAgreement
  import opened PtyIds
  import opened Heal

  // ---- Rows ----

  function ToolJson(tool: string, status: string, flag: Json, output: string): Json {
    Obj(map["type" := Str("tool"), "tool" := Str(tool),
            "state" := Obj(map["status" := Str(status), "input" := Obj(map["notifyOnExit" := flag]), "output" := Str(output)])])
  }

  lemma ToolJsonMeans(tool: string, status: string, flag: Json, output: string)
    ensures var d := Doc(ToolJson(tool, status, flag, output));
      && DecodePart(d) == ToolPart(tool, status, flag == Bool(true), Some(output))
      && SpawnOutput(d) == (if tool == "pty_spawn" && (flag == Bool(true) || flag == Number(1.0)) then Some(output) else None)
      && StringAt(d, ["state", "status"], status) && Extract(d.json, ["state", "input", "notifyOnExit"]) == Some(flag)
      && !StringAt(d, ["type"], "text")
  {
    var j := ToolJson(tool, status, flag, output);
    assert "type"[1] != "tool"[1] && "state"[0] == 's' && "type"[0] == 't' && "tool"[0] == 't' && "text"[1] != "tool"[1];
    assert "status"[0] == 's' && "input"[0] == 'i' && "output"[0] == 'o';
    assert ["type"][1..] == [] && ["tool"][1..] == [];
    assert ["state", "status"][1..] == ["status"] && ["status"][1..] == [] && ["state", "output"][1..] == ["output"] && ["output"][1..] == [];
    assert ["state", "input", "notifyOnExit"][1..] == ["input", "notifyOnExit"] && ["input", "notifyOnExit"][1..] == ["notifyOnExit"] && ["notifyOnExit"][1..] == [];
    var state := j.fields["state"];
    assert Extract(j, ["type"]) == Some(Str("tool")) && Extract(j, ["tool"]) == Some(Str(tool));
    assert Extract(state, ["status"]) == Some(Str(status)) && Extract(state, ["output"]) == Some(Str(output));
    assert Extract(state, ["input", "notifyOnExit"]) == Extract(state.fields["input"], ["notifyOnExit"]) == Some(flag);
  }

  function SpawnJson(output: string): Json {
    ToolJson("pty_spawn", "completed", Bool(true), output)
  }

  lemma SpawnJsonMeans(output: string)
    ensures var d := Doc(SpawnJson(output));
      && SpawnOutput(d) == Some(output) && StringAt(d, ["state", "status"], "completed")
      && Extract(d.json, ["state", "input", "notifyOnExit"]) == Some(Bool(true))
      && !DecodePart(d).TextPart?
  {
    hide ToolJson, SpawnOutput, DecodePart, Extract;
    ToolJsonMeans("pty_spawn", "completed", Bool(true), output);
  }

  function TextJson(text: string): Json {
    Obj(map["type" := Str("text"), "text" := Str(text)])
  }

  lemma TextJsonMeans(text: string)
    ensures var d := Doc(TextJson(text));
      && StringAt(d, ["type"], "text") && Extract(d.json, ["text"]) == Some(Str(text))
      && DecodePart(d) == TextPart(text) && SpawnOutput(d).None?
  {
    var j := TextJson(text);
    assert "type"[1] != "text"[1] && "text"[1] != "tool"[1];
    assert ["type"][1..] == [] && ["text"][1..] == [];
    assert Extract(j, ["type"]) == Some(Str("text"));
  }

  function RoleJson(role: string): Json {
    Obj(map["role" := Str(role)])
  }

  lemma RoleJsonMeans(role: string)
    ensures StringAt(Doc(RoleJson(role)), ROLE, role) && !Marked(Doc(RoleJson(role)))
  {
    assert ROLE[0] == "role" && ROLE[1..] == [] && ERROR_NAME[0] == "error" && "role"[0] != "error"[0];
    assert Extract(RoleJson(role), ROLE) == Some(Str(role));
  }

  /** An assistant turn with one spawn, and a user turn with one text after it. */
  function SpawnPart(output: string): PartRow {
    PartRow("m1", "s", 0, Doc(SpawnJson(output)))
  }

  function ReportPart(text: string): PartRow {
    PartRow("m2", "s", 1, Doc(TextJson(text)))
  }

  function TwoTurns(output: string, text: string): seq<Turn> {
    [Turn(Row("m1", "s", "", Doc(RoleJson("assistant"))), [SpawnPart(output)]),
     Turn(Row("m2", "s", "", Doc(RoleJson("user"))), [ReportPart(text)])]
  }

  function RowsOf(output: string, text: string): seq<Row> {
    [TwoTurns(output, text)[0].message, TwoTurns(output, text)[1].message]
  }

  function PartsOf(output: string, text: string): seq<PartRow> {
    [SpawnPart(output), ReportPart(text)]
  }

  const SESSIONS: map<string, Option<string>> := map["s" := Some("w")]

  lemma SpawnTurnIsCanonical(output: string, text: string)
    requires CanonicalOutput(output)
    ensures CanonicalTurn(TwoTurns(output, text)[0])
  {
    hide CanonicalOutput, SpawnJson, RoleJson, SpawnOutput, DecodePart, Extract, Marked;
    SpawnJsonMeans(output);
    RoleJsonMeans("assistant");
    RolesApart(Doc(RoleJson("assistant")));
  }

  lemma ReportTurnIsCanonical(output: string, text: string)
    requires CanonicalReport(text)
    ensures CanonicalTurn(TwoTurns(output, text)[1])
  {
    hide CanonicalReport, TextJson, RoleJson, SpawnOutput, DecodePart, Extract, Marked, KeepsReports;
    TextJsonMeans(text);
    RoleJsonMeans("user");
    RolesApart(Doc(RoleJson("user")));
    var parts := [ReportPart(text)];
    assert parts[1..] == [];
    assert Texts(parts) == [text];
    OneTextKeeps(text);
  }

  lemma OneTextKeeps(text: string)
    requires CanonicalReport(text)
    ensures KeepsReports([text])
  {
    hide CanonicalItems, Rendered, CleanJoin, Joined, SeamsKeep;
    var items :| CanonicalItems(Exited, items) && Rendered(Exited, items, text);
    OneTextJoins(text);
    assert AllCanonical([items], [text]);
    CleanJoinKeeps([items], [text]);
  }

  lemma OneTextJoins(text: string)
    ensures CleanJoin(Exited, [text])
  {
    hide Trim;
    assert [text][1..] == [];
    var last := LastLine(text);
    assert Concat([]) == "" && FirstLine("") == "";
    assert last + "" == last;
    TrimOfTight("");
    assert OpenTag(Exited) != "" && CloseTag(Exited) != "";
  }

  lemma TwoTurnsAreStored(output: string, text: string)
    ensures Stores(RowsOf(output, text), PartsOf(output, text), "s", TwoTurns(output, text))
    ensures WorkspaceOf(SESSIONS, "s") == Some("w")
  {
    hide SpawnJson, TextJson, RoleJson;
    assert "m1" != "m2" by {
      assert "m1"[1] != "m2"[1];
    }
    var turns, parts := TwoTurns(output, text), PartsOf(output, text);
    assert SpawnPart(output) in turns[0].parts && ReportPart(text) in turns[1].parts;
    assert forall p | p in parts :: p == SpawnPart(output) || p == ReportPart(text);
  }

  lemma SpawnTurnSpawns(output: string, text: string, id: string)
    requires CanonicalOutput(output)
    ensures SpawnsIn(Decode(TwoTurns(output, text)[0]), id) <==> ReportedId(output) == Some(id)
    ensures !SpawnsIn(Decode(TwoTurns(output, text)[1]), id)
  {
    hide CanonicalOutput, CanonicalTurn, SpawnJson, RoleJson, SpawnOutput, ReportedId, SpawnsIn, StringAt, AnySpawn;
    var t := TwoTurns(output, text)[0];
    SpawnTurnIsCanonical(output, text);
    SpawnsInTurn(t, id);
    SpawnJsonMeans(output);
    assert SpawnPart(output) in t.parts && forall p | p in t.parts :: p == SpawnPart(output);
    UserSpawnsNothing(output, text, id);
  }

  lemma UserSpawnsNothing(output: string, text: string, id: string)
    ensures !SpawnsIn(Decode(TwoTurns(output, text)[1]), id)
  {
    hide RoleJson, AnySpawn, StringAt;
    RoleJsonMeans("user");
    RolesApart(Doc(RoleJson("user")));
  }

  lemma ReportTurnReports(output: string, text: string, id: string)
    requires CanonicalReport(text) && PtyId(id)
    ensures ExitsIn(Decode(TwoTurns(output, text)[1]), id) <==> HasBlock(text, Exited, id)
  {
    hide CanonicalReport, CanonicalTurn, TextJson, RoleJson, HasBlock, ExitsIn, PtyId, StringAt;
    var t := TwoTurns(output, text)[1];
    ReportTurnIsCanonical(output, text);
    ExitsInTurn(t, id);
    RoleJsonMeans("user");
    TextJsonMeans(text);
    assert ReportPart(text) in t.parts && forall p | p in t.parts :: p == ReportPart(text);
  }

  lemma NoneGivenUp(output: string, text: string)
    ensures Live(TwoTurns(output, text)) == TwoTurns(output, text)
  {
    hide Marked, RoleOf, SpawnJson, TextJson, RoleJson;
    RoleJsonMeans("assistant");
    RoleJsonMeans("user");
  }

  /** In such a session, whatever the output and the report say canonically, both readers keep
      the reported PTY unless the report names it in a record. */
  lemma TwoTurnSession(output: string, text: string, id: string)
    requires CanonicalOutput(output) && CanonicalReport(text)
    ensures Stores(RowsOf(output, text), PartsOf(output, text), "s", TwoTurns(output, text))
    ensures forall t | t in TwoTurns(output, text) :: CanonicalTurn(t)
    ensures Unfinished(DecodeAll(TwoTurns(output, text)), id) <==> ReportedId(output) == Some(id) && !HasBlock(text, Exited, id)
    ensures id in AbandonedIds(RowsOf(output, text), PartsOf(output, text), SESSIONS, "s") <==> ReportedId(output) == Some(id) && !HasBlock(text, Exited, id)
  {
    hide CanonicalTurn, Stores, AbandonedIds, CanonicalOutput, CanonicalReport, HasBlock, ReportedId, SpawnsIn, ExitsIn, PtyId, Decode, Live;
    var turns := TwoTurns(output, text);
    TwoTurnsAreStored(output, text);
    SpawnTurnIsCanonical(output, text);
    ReportTurnIsCanonical(output, text);
    assert forall t | t in turns :: t == turns[0] || t == turns[1];
    NoneGivenUp(output, text);
    AbandonedIsUnfinished(RowsOf(output, text), PartsOf(output, text), SESSIONS, "s", turns, id);
    var messages := DecodeAll(turns);
    SpawnTurnSpawns(output, text, id);
    if ReportedId(output) == Some(id) {
      ReportedIsPtyId(output);
      ReportTurnReports(output, text, id);
    }
    assert Unfinished(messages, id) <==> SpawnsIn(messages[0], id) && !ExitsIn(messages[1], id) by {
      if SpawnsIn(messages[0], id) && !ExitsIn(messages[1], id) {
        assert forall j | 0 < j < |messages| :: !ExitsIn(messages[j], id);
      }
    }
  }

  lemma ReportedIsPtyId(output: string)
    ensures ReportedId(output).Some? ==> PtyId(ReportedId(output).value)
  {
    hide HasBlock, PtyId;
  }

  // ---- Texts ----

  /** What opencode-pty answers to a spawn. */
  function SpawnText(v: string): string {
    "<pty_spawned>" + "\nID: " + v + ("\nNotifyOnExit: true\n" + "</pty_spawned>") + "\n"
  }

  /** The message that wakes the agent; it has no last line feed. */
  function ExitText(v: string): string {
    "<pty_exited>" + "\nID: " + v + ("\nExit Code: 0\n" + "</pty_exited>")
  }

  function RecordWith(v: string, f: (string, string)): seq<Item> {
    [Record([("ID", v), f])]
  }

  lemma IdFieldIsGood(v: string)
    requires |v| == 12 && v[11] != 'y' && forall c | c in v :: 'a' <= c <= 'z' || '0' <= c <= '9' || c == '_'
    ensures GoodField(("ID", v)) && forall tag :: PlainLine(tag, FieldLineOf(("ID", v)))
  {
    assert v[0] in v && v[11] in v;
    assert forall c | c in v :: !IsSpace(c) && !LineTerminator(c) && c != '>';
    var line := FieldLineOf(("ID", v));
    assert line[|line| - 1] == v[11];
    assert line == "ID: " + v;
    assert '\n' !in "ID: " && '\n' !in v;
    forall tag
      ensures PlainLine(tag, line)
    {
      LastCharEnds(tag, line);
    }
  }

  /** A line that ends in neither a bracket nor a y is plain. */
  lemma LastCharEnds(tag: Tag, line: string)
    requires '\n' !in line && (line == "" || line[|line| - 1] !in {'>', 'y', 'Y'})
    ensures PlainLine(tag, line)
  {
    if line != "" {
      var n, c := |OpenTag(tag)|, line[|line| - 1];
      assert OpenTag(tag)[n - 1] == '>' && TAG_START[3] == 'y' && !LikeChar('>', c);
      assert !LikeChar('y', c);
      assert n <= |line| ==> line[(|line| - n) + (n - 1)] == c;
      assert 4 <= |line| ==> line[(|line| - 4) + 3] == c;
    }
  }

  lemma RecordIsCanonical(tag: Tag, v: string, f: (string, string))
    requires |v| == 12 && v[11] != 'y' && forall c | c in v :: 'a' <= c <= 'z' || '0' <= c <= '9' || c == '_'
    requires GoodField(f) && f.0 != "ID" && PlainLine(tag, FieldLineOf(f))
    requires TakenForId(FieldLineOf(("ID", v))) ==> PtyId(v)
    ensures CanonicalItems(tag, RecordWith(v, f))
  {
    hide GoodField, PlainLine, TakenForId, PtyId;
    IdFieldIsGood(v);
    var fields := [("ID", v), f];
    assert forall x | x in fields :: x == ("ID", v) || x == f;
    assert CanonicalItem(tag, Record(fields));
  }

  lemma RenderPair(tag: Tag, v: string, f: (string, string))
    ensures Render(tag, RecordWith(v, f)) == OpenTag(tag) + "\nID: " + v + ("\n" + FieldLineOf(f) + "\n" + CloseTag(tag)) + "\n"
  {
    hide OpenTag, CloseTag;
    var fields := [("ID", v), f];
    assert fields[1..] == [f] && [f][1..] == [] && RecordWith(v, f)[1..] == [];
    assert RenderFields([f]) == FieldLineOf(f) + "\n";
    assert "ID" + ": " == "ID: " && "\n" + "ID: " == "\nID: ";
    assert RenderFields(fields) == "ID: " + v + "\n" + RenderFields([f]);
    assert Render(tag, RecordWith(v, f)) == RenderItem(tag, Record(fields)) + "";
  }

  lemma FieldLines()
    ensures "\n" + FieldLineOf(("NotifyOnExit", "true")) + "\n" == "\nNotifyOnExit: true\n"
    ensures "\n" + FieldLineOf(("Exit Code", "0")) + "\n" == "\nExit Code: 0\n"
  {
  }

  lemma SpawnTextIsRendered(v: string)
    ensures Rendered(Spawned, RecordWith(v, ("NotifyOnExit", "true")), SpawnText(v))
    ensures SpawnText(v) == Render(Spawned, RecordWith(v, ("NotifyOnExit", "true")))
  {
    hide Render, RecordWith, FieldLineOf;
    RenderPair(Spawned, v, ("NotifyOnExit", "true"));
    FieldLines();
  }

  lemma ExitTextIsRendered(v: string)
    ensures ExitText(v) + "\n" == Render(Exited, RecordWith(v, ("Exit Code", "0")))
  {
    hide Render, RecordWith, FieldLineOf;
    RenderPair(Exited, v, ("Exit Code", "0"));
    FieldLines();
  }

  lemma PtyIdIsPlain(id: string)
    requires PtyId(id)
    ensures |id| == 12 && id[11] != 'y' && forall c | c in id :: 'a' <= c <= 'z' || '0' <= c <= '9' || c == '_'
  {
    assert forall k | 0 <= k < 4 :: id[k] == id[..4][k];
  }

  lemma OtherFieldsAreGood()
    ensures GoodField(("NotifyOnExit", "true")) && GoodField(("Exit Code", "0"))
    ensures forall tag :: PlainLine(tag, FieldLineOf(("NotifyOnExit", "true"))) && PlainLine(tag, FieldLineOf(("Exit Code", "0")))
  {
    hide GoodField, PlainLine;
    NotifyIsGood();
    ExitCodeIsGood();
    forall tag
      ensures PlainLine(tag, FieldLineOf(("NotifyOnExit", "true"))) && PlainLine(tag, FieldLineOf(("Exit Code", "0")))
    {
      LastCharEnds(tag, FieldLineOf(("NotifyOnExit", "true")));
      LastCharEnds(tag, FieldLineOf(("Exit Code", "0")));
    }
  }

  lemma NotifyIsGood()
    ensures GoodField(("NotifyOnExit", "true")) && FieldLineOf(("NotifyOnExit", "true")) == "NotifyOnExit: true"
  {
  }

  lemma ExitCodeIsGood()
    ensures GoodField(("Exit Code", "0")) && FieldLineOf(("Exit Code", "0")) == "Exit Code: 0"
  {
  }

  lemma SpawnTextMeans(id: string)
    requires PtyId(id)
    ensures CanonicalOutput(SpawnText(id)) && ReportedId(SpawnText(id)) == SpawnedId(SpawnText(id)) == Some(id)
  {
    hide PtyId, GoodField, PlainLine, Rendered, CanonicalItems, ReportedId, SpawnedId, LabelLeads;
    var items := RecordWith(id, ("NotifyOnExit", "true"));
    PtyIdIsPlain(id);
    OtherFieldsAreGood();
    RecordIsCanonical(Spawned, id, ("NotifyOnExit", "true"));
    SpawnTextIsRendered(id);
    SpawnsAgree(items, SpawnText(id));
    SpawnsAgreeIff(items, SpawnText(id));
    assert RecordIds(items) == [id] + RecordIds(items[1..]);
  }

  lemma ExitTextMeans(v: string, id: string)
    requires PtyId(v) && PtyId(id)
    ensures CanonicalReport(ExitText(v)) && (HasBlock(ExitText(v), Exited, id) <==> id == v)
    ensures id in ExitedIds(ExitText(v)) <==> id == v
  {
    hide PtyId, GoodField, PlainLine, CanonicalItems, HasBlock, Render, ExitedIds;
    var items := RecordWith(v, ("Exit Code", "0"));
    PtyIdIsPlain(v);
    OtherFieldsAreGood();
    RecordIsCanonical(Exited, v, ("Exit Code", "0"));
    ExitTextIsRendered(v);
    ExitsAgree(items, ExitText(v), id);
    assert items[0] in items;
  }

  /** One line of prose, even one that mentions the tags. */
  lemma ProseMeans(line: string, id: string)
    requires PlainLine(Exited, line) && !TagLine(Exited, line) && PtyId(id)
    ensures CanonicalReport(line) && !HasBlock(line, Exited, id)
  {
    hide PtyId, PlainLine, HasBlock;
    var items := [Prose(line)];
    PlainHasNoFeed(Exited, line);
    SingleIsCanonical(Exited, items[0]);
    ProseIsRendered(line);
    BlockIffRecord(Exited, items, line, id);
  }

  // ---- The cases ----

  /** A user message with the exit report of the PTY ends it for both readers. */
  lemma ReportEndsIt(h: string)
    requires |h| == 8 && forall c | c in h :: c in "0123456789abcdef"
    ensures var id := "pty_" + h; var spawn, report := SpawnText(id), ExitText(id);
      && CanonicalOutput(spawn) && CanonicalReport(report)
      && SpawnedId(spawn) == ReportedId(spawn) == Some(id) && id in ExitedIds(report) && HasBlock(report, Exited, id)
      && id !in AbandonedIds(RowsOf(spawn, report), PartsOf(spawn, report), SESSIONS, "s")
      && !Unfinished(DecodeAll(TwoTurns(spawn, report)), id)
  {
    hide CanonicalOutput, CanonicalReport, AbandonedIds, DecodeAll, Unfinished, HasBlock, ReportedId, SpawnedId, ExitedIds, PtyId, SpawnText, ExitText;
    var id := "pty_" + h;
    HexIsPtyId(h);
    SpawnTextMeans(id);
    ExitTextMeans(id, id);
    TwoTurnSession(SpawnText(id), ExitText(id), id);
  }

  /** The report of another PTY does not. */
  lemma OtherReportDoesNot(h: string, g: string)
    requires h != g && |h| == 8 && forall c | c in h :: c in "0123456789abcdef"
    requires |g| == 8 && forall c | c in g :: c in "0123456789abcdef"
    ensures var id, spawn, report := "pty_" + h, SpawnText("pty_" + h), ExitText("pty_" + g);
      && CanonicalOutput(spawn) && CanonicalReport(report)
      && id in AbandonedIds(RowsOf(spawn, report), PartsOf(spawn, report), SESSIONS, "s")
      && Unfinished(DecodeAll(TwoTurns(spawn, report)), id)
  {
    hide CanonicalOutput, CanonicalReport, AbandonedIds, DecodeAll, Unfinished, HasBlock, ReportedId, PtyId, SpawnText, ExitText;
    var id, other := "pty_" + h, "pty_" + g;
    assert id[4..] == h && other[4..] == g;
    HexIsPtyId(h);
    HexIsPtyId(g);
    SpawnTextMeans(id);
    ExitTextMeans(other, id);
    TwoTurnSession(SpawnText(id), ExitText(other), id);
  }

  /** Prose around a mention of the tags, on one line, that neither begins with a bracket nor
      ends in a bracket or a y. */
  predicate Around(before: string, after: string) {
    && before != "" && '\n' !in before && !IsSpace(before[0]) && before[0] != '<'
    && after != "" && '\n' !in after && !IsSpace(after[|after| - 1]) && after[|after| - 1] !in {'>', 'y', 'Y'}
  }

  function Mention(before: string, id: string, after: string): string {
    before + ("<pty_exited> ID: " + id + " </pty_exited>") + after
  }

  lemma MentionIsPlain(before: string, id: string, after: string)
    requires Around(before, after) && PtyId(id)
    ensures PlainLine(Exited, Mention(before, id, after)) && !TagLine(Exited, Mention(before, id, after))
  {
    hide PlainLine, PtyId;
    PtyIdIsPlain(id);
    var line := Mention(before, id, after);
    assert line[0] == before[0] && line[|line| - 1] == after[|after| - 1];
    assert '\n' !in "<pty_exited> ID: " + id + " </pty_exited>";
    LastCharEnds(Exited, line);
    TrimOfTight(line);
    assert OpenTag(Exited)[0] == '<' && CloseTag(Exited)[0] == '<';
  }

  /** Neither does a mention of the tags inside a line, whatever the prose around it. */
  lemma MentionDoesNot(before: string, h: string, after: string)
    requires Around(before, after) && |h| == 8 && forall c | c in h :: c in "0123456789abcdef"
    ensures var id := "pty_" + h; var text := Mention(before, id, after);
      && CanonicalOutput(SpawnText(id)) && CanonicalReport(text)
      && id in AbandonedIds(RowsOf(SpawnText(id), text), PartsOf(SpawnText(id), text), SESSIONS, "s")
      && Unfinished(DecodeAll(TwoTurns(SpawnText(id), text)), id)
  {
    hide CanonicalOutput, CanonicalReport, AbandonedIds, DecodeAll, Unfinished, HasBlock, ReportedId, PtyId, SpawnText, Mention, TagLine, PlainLine;
    var id := "pty_" + h;
    HexIsPtyId(h);
    SpawnTextMeans(id);
    MentionIsPlain(before, id, after);
    ProseMeans(Mention(before, id, after), id);
    TwoTurnSession(SpawnText(id), Mention(before, id, after), id);
  }

  const ILL_FORMED := "pty_nothexzz"

  lemma IllFormedIsNotTaken()
    ensures !TakenForId(FieldLineOf(("ID", ILL_FORMED))) && !PtyId(ILL_FORMED)
  {
    var line := FieldLineOf(("ID", ILL_FORMED));
    assert line == "ID: pty_nothexzz" && line[8] == 'n' && ILL_FORMED[4] == 'n';
    forall id | PtyId(id)
      ensures !LikeAt(line, IdLine(id), 0)
    {
      assert IdLine(id)[8] == id[4];
      assert !LikeChar(IdLine(id)[8], line[0 + 8]);
    }
  }

  /** A spawn that reports an ill-formed id is none to either reader. */
  lemma IllFormedIsIgnored()
    ensures CanonicalOutput(SpawnText(ILL_FORMED)) && ReportedId(SpawnText(ILL_FORMED)) == SpawnedId(SpawnText(ILL_FORMED)) == None
  {
    hide PtyId, ReportedId, SpawnedId, SpawnText, CanonicalOutput;
    IllFormedIsNotTaken();
    IllFormedMeans(ILL_FORMED);
  }

  /** Lower-case letters, digits and underscores are taken for an id by `LIKE` just when they
      are one. */
  lemma LowerCaseIsNotTaken(v: string, id: string)
    requires |v| == 12 && v[..4] == "pty_" && !PtyId(v) && forall c | c in v :: 'a' <= c <= 'z' || '0' <= c <= '9' || c == '_'
    requires PtyId(id)
    ensures !LikeAt(FieldLineOf(("ID", v)), IdLine(id), 0)
  {
    var line := FieldLineOf(("ID", v));
    assert line == "ID: " + v;
    var k :| 4 <= k < 12 && !('0' <= v[k] <= '9' || 'a' <= v[k] <= 'f');
    assert v[k] in v && line[0 + (k + 4)] == v[k] && IdLine(id)[k + 4] == id[k];
    assert !LikeChar(id[k], v[k]);
  }

  /** Which spawns the two readers see: whatever eight letters, digits and underscores follow
      `pty_` in a spawn's record, both read the id if they are hexadecimal digits, and none
      otherwise. (The query's `_` would also match a line feed after a final y.) */
  lemma SpawnReadIff(h: string)
    requires |h| == 8 && h[7] != 'y' && forall c | c in h :: 'a' <= c <= 'z' || '0' <= c <= '9' || c == '_'
    ensures var v := "pty_" + h;
      SpawnedId(SpawnText(v)) == ReportedId(SpawnText(v)) == if forall c | c in h :: c in "0123456789abcdef" then Some(v) else None
  {
    hide PtyId, GoodField, PlainLine, Rendered, CanonicalItems, ReportedId, SpawnedId, LabelledId, TakenForId, SpawnText;
    var v := "pty_" + h;
    if forall c | c in h :: c in "0123456789abcdef" {
      HexIsPtyId(h);
      SpawnTextMeans(v);
    } else {
      if PtyId(v) {
        OnlyHexIsPtyId(h);
      }
      assert v[..4] == "pty_" && v[11] == h[7];
      assert forall c | c in v :: c in "pty_" || c in h;
      IllFormedMeans(v);
    }
  }

  lemma IllFormedMeans(v: string)
    requires |v| == 12 && v[..4] == "pty_" && v[11] != 'y' && !PtyId(v) && forall c | c in v :: 'a' <= c <= 'z' || '0' <= c <= '9' || c == '_'
    ensures CanonicalOutput(SpawnText(v)) && ReportedId(SpawnText(v)) == SpawnedId(SpawnText(v)) == None
  {
    hide PtyId, GoodField, PlainLine, Rendered, CanonicalItems, ReportedId, SpawnedId, LabelledId, TakenForId, SpawnText;
    var items := RecordWith(v, ("NotifyOnExit", "true"));
    NotTaken(v);
    OtherFieldsAreGood();
    RecordIsCanonical(Spawned, v, ("NotifyOnExit", "true"));
    SpawnTextIsRendered(v);
    assert RecordIds(items) == [] + RecordIds(items[1..]);
    SpawnsAgreeIff(items, SpawnText(v));
  }

  lemma NotTaken(v: string)
    requires |v| == 12 && v[..4] == "pty_" && !PtyId(v) && forall c | c in v :: 'a' <= c <= 'z' || '0' <= c <= '9' || c == '_'
    ensures !TakenForId(FieldLineOf(("ID", v)))
  {
    hide PtyId;
    forall id | PtyId(id)
      ensures !LikeAt(FieldLineOf(("ID", v)), IdLine(id), 0)
    {
      LowerCaseIsNotTaken(v, id);
    }
  }

  lemma OnlyHexIsPtyId(h: string)
    requires |h| == 8 && PtyId("pty_" + h)
    ensures forall c | c in h :: c in "0123456789abcdef"
  {
    hide PtyId;
    PtyIdsAre("pty_" + h);
    var g :| |g| == 8 && "pty_" + h == "pty_" + g && forall c | c in g :: c in "0123456789abcdef";
    assert h == ("pty_" + h)[4..] && g == ("pty_" + g)[4..];
  }

  /** Two records, the first with an ill-formed id: the parser passes over it and finds the
      second, the query looks at the first only. */
  lemma IllFormedFirstDisagrees(h: string)
    requires |h| == 8 && forall c | c in h :: c in "0123456789abcdef"
    ensures ReportedId(SpawnText(ILL_FORMED) + SpawnText("pty_" + h)) == None
    ensures SpawnedId(SpawnText(ILL_FORMED) + SpawnText("pty_" + h)) == Some("pty_" + h)
  {
    hide PtyId, GoodField, PlainLine, CanonicalItems, TakenForId, SpawnText, Render, Instr, FirstAt, HasBlock, SpawnedId;
    var f, id := ("NotifyOnExit", "true"), "pty_" + h;
    HexIsPtyId(h);
    var a, b := RecordWith(ILL_FORMED, f), RecordWith(id, f);
    var text := SpawnText(ILL_FORMED) + SpawnText(id);
    IllFormedIsNotTaken();
    PtyIdIsPlain(id);
    OtherFieldsAreGood();
    RecordIsCanonical(Spawned, ILL_FORMED, f);
    RecordIsCanonical(Spawned, id, f);
    assert CanonicalItems(Spawned, a + b) by { BothCanonical(Spawned, a, b); }
    SpawnTextIsRendered(ILL_FORMED);
    SpawnTextIsRendered(id);
    RenderConcat(Spawned, a, b);
    SpawnsAgreeIff(a + b, text);
    assert RecordIds(a + b) == [id] by { IdsOfBoth(id, f); }
    FirstInRecord(a[0].fields, SpawnText(id));
    assert Render(Spawned, a) == RenderItem(Spawned, a[0]) by { RenderOne(Spawned, a[0]); }
    FirstIsInstr(text, 14);
    assert Substr(text, 19, 12) == ILL_FORMED;
  }

  lemma RenderOne(tag: Tag, item: Item)
    ensures Render(tag, [item]) == RenderItem(tag, item)
  {
    hide RenderItem;
    assert [item][1..] == [];
  }

  lemma BothCanonical(tag: Tag, a: seq<Item>, b: seq<Item>)
    requires CanonicalItems(tag, a) && CanonicalItems(tag, b)
    ensures CanonicalItems(tag, a + b)
  {
    hide CanonicalItem;
  }

  lemma IdsOfBoth(id: string, f: (string, string))
    requires PtyId(id)
    ensures RecordIds(RecordWith(ILL_FORMED, f) + RecordWith(id, f)) == [id]
  {
    hide PtyId, TakenForId;
    IllFormedIsNotTaken();
    var items := RecordWith(ILL_FORMED, f) + RecordWith(id, f);
    assert items[1..] == RecordWith(id, f) && items[1..][1..] == [];
    assert RecordIds(items[1..]) == [id];
    assert RecordIds(items) == [] + RecordIds(items[1..]);
  }

  lemma GoOn()
    ensures CanonicalItems(Exited, [Prose("go on")]) && Rendered(Exited, [Prose("go on")], "go on")
    ensures !AllSpace("go on")
  {
    hide PlainLine;
    LastCharEnds(Exited, "go on");
    assert "go on"[0] in "go on" && !IsSpace("go on"[0]);
    TrimOfTight("go on");
    assert OpenTag(Exited)[0] == '<' && CloseTag(Exited)[0] == '<';
    SingleIsCanonical(Exited, Prose("go on"));
    ProseIsRendered("go on");
  }

  lemma ExitTextIsCanonical(id: string)
    requires PtyId(id)
    ensures CanonicalItems(Exited, RecordWith(id, ("Exit Code", "0")))
  {
    hide PtyId, GoodField, PlainLine, CanonicalItems, TakenForId;
    PtyIdIsPlain(id);
    OtherFieldsAreGood();
    RecordIsCanonical(Exited, id, ("Exit Code", "0"));
  }

  /** The seam that is not clean: "go on" in a part of its own spoils the closing tag before it,
      and the plugin misses the report the query finds. */
  lemma JoinLosesReport(h: string)
    requires |h| == 8 && forall c | c in h :: c in "0123456789abcdef"
    ensures var id := "pty_" + h;
      && HasBlock(ExitText(id), Exited, id) && ExitedIds(ExitText(id) + "go on") == []
      && LosesReport(RecordWith(id, ("Exit Code", "0")), ExitText(id), [Prose("go on")])
  {
    hide PtyId, CanonicalItems, HasBlock, Render, ExitText, LeadsWithId, AllSpace, Good, Records;
    var f, id := ("Exit Code", "0"), "pty_" + h;
    HexIsPtyId(h);
    var a, b := RecordWith(id, f), [Prose("go on")];
    ExitTextMeans(id, id);
    ExitTextIsCanonical(id);
    ExitTextIsRendered(id);
    GoOn();
    CanonicalIsGood(Exited, a);
    CanonicalIsGood(Exited, b);
    PairRecords(Exited, a, ExitText(id), b, "go on");
    LeadsWhenPtyId(id, f);
    NothingWritten();
    assert Init(a) == [] && b[1..] == [];
    assert [] + AtSeam(Final(a), b[0]) + [] == [];
  }

  /** A line shorter than a tag is prose, unless it ends like the start of one. */
  lemma ShortIsProse(line: string)
    requires 0 < |line| < 12 && '\n' !in line && Tight(line) && !LikeChar('y', line[|line| - 1])
    ensures CanonicalItem(Exited, Prose(line))
  {
    hide Trim, Tight, OpenTag, CloseTag;
    TrimOfTight(line);
    assert |OpenTag(Exited)| == 12 && |CloseTag(Exited)| == 13 by { TagLengths(); }
    assert TAG_START[3] == 'y';
    assert 4 <= |line| ==> line[(|line| - 4) + 3] == line[|line| - 1];
  }

  lemma TagLengths()
    ensures |OpenTag(Exited)| == 12 && |CloseTag(Exited)| == 13
  {
  }

  lemma TagStartIsProse()
    ensures CanonicalItem(Exited, Prose("<pty_")) && CanonicalItem(Exited, Prose("exited>")) && CanonicalItem(Exited, Prose("</pty_"))
  {
    hide CanonicalItem;
    ShortIsProse("<pty_");
    ShortIsProse("exited>");
    ShortIsProse("</pty_");
  }

  function SplitReport(id: string): seq<string> {
    ["<pty_", "exited>\nID: " + id + "\n</pty_", "exited>"]
  }

  function SplitItems(id: string): seq<seq<Item>> {
    [[Prose("<pty_")], [Prose("exited>"), Prose("ID: " + id), Prose("</pty_")], [Prose("exited>")]]
  }

  lemma SplitIsCanonical(id: string)
    requires PtyId(id)
    ensures AllCanonical(SplitItems(id), SplitReport(id))
  {
    hide PtyId, CanonicalItem;
    PtyIdIsPlain(id);
    TagStartIsProse();
    IdLineIsProse(id);
    var middle := SplitItems(id)[1];
    assert middle[1..] == [Prose("ID: " + id), Prose("</pty_")] && middle[1..][1..] == [Prose("</pty_")];
    ProseIsRendered("<pty_");
    ProseIsRendered("</pty_");
    ProseIsRendered("exited>");
    RenderOne(Exited, Prose("</pty_"));
    assert Render(Exited, middle) == "exited>" + "\n" + ("ID: " + id + "\n" + ("</pty_" + "\n"));
    assert SplitReport(id)[1] + "\n" == Render(Exited, middle);
  }

  lemma IdLineIsProse(id: string)
    requires PtyId(id)
    ensures CanonicalItem(Exited, Prose("ID: " + id))
  {
    hide PtyId;
    PtyIdIsPlain(id);
    IdFieldIsGood(id);
    assert FieldLineOf(("ID", id)) == "ID: " + id;
    TrimOfTight("ID: " + id);
    assert ("ID: " + id)[0] == 'I' && OpenTag(Exited)[0] == '<' && CloseTag(Exited)[0] == '<';
  }

  function BareReport(id: string): string {
    OpenTag(Exited) + "\n" + (("ID: " + id + "\n") + CloseTag(Exited))
  }

  lemma SplitJoins(id: string)
    ensures Concat(SplitReport(id)) == BareReport(id)
  {
    var texts := SplitReport(id);
    assert texts[1..] == [texts[1], texts[2]];
    ConcatTwo(texts[1], texts[2]);
    assert "<pty_" + "exited>" == OpenTag(Exited) && "</pty_" + "exited>" == CloseTag(Exited);
  }

  /** From three texts on a join can also make a report up: none of the parts holds a record,
      the joined message does. */
  lemma JoinGainsReport(h: string)
    requires |h| == 8 && forall c | c in h :: c in "0123456789abcdef"
    ensures var id := "pty_" + h;
      && AllCanonical(SplitItems(id), SplitReport(id)) && !SeamsKeep(Joined(SplitItems(id), SplitReport(id)))
      && id in ExitedIds(Concat(SplitReport(id))) && forall k | 0 <= k < 3 :: !HasBlock(SplitReport(id)[k], Exited, id)
  {
    hide PtyId, CanonicalItems, Rendered, HasBlock, SeamsKeep, Joined, Concat, Records, Render, BareReport;
    var id := "pty_" + h;
    HexIsPtyId(h);
    SplitIsCanonical(id);
    forall k | 0 <= k < 3
      ensures !HasBlock(SplitReport(id)[k], Exited, id)
    {
      BlockIffRecord(Exited, SplitItems(id)[k], SplitReport(id)[k], id);
    }
    var items := [Record([("ID", id)])];
    assert id in ExitedIds(Concat(SplitReport(id))) by {
      SplitJoins(id);
      IdRecord(id);
      BareReportIsRendered(id);
      ExitsAgree(items, Concat(SplitReport(id)), id);
      assert RecordOf(items[0], id) && items[0] in items;
    }
    JoinAgreesIff(SplitItems(id), SplitReport(id));
  }

  lemma IdRecord(id: string)
    requires PtyId(id)
    ensures CanonicalItems(Exited, [Record([("ID", id)])])
  {
    hide PtyId, GoodField, PlainLine, TakenForId;
    PtyIdIsPlain(id);
    IdFieldIsGood(id);
  }

  lemma BareReportIsRendered(id: string)
    ensures Rendered(Exited, [Record([("ID", id)])], BareReport(id))
  {
    hide OpenTag, CloseTag;
    RenderOne(Exited, Record([("ID", id)]));
    BareFields(id);
  }

  lemma BareFields(id: string)
    ensures RenderFields([("ID", id)]) == "ID: " + id + "\n"
  {
    assert [("ID", id)][1..] == [];
    assert "ID" + ": " == "ID: ";
  }

  lemma SingleIsCanonical(tag: Tag, item: Item)
    requires CanonicalItem(tag, item)
    ensures CanonicalItems(tag, [item])
  {
    hide CanonicalItem;
  }

  lemma ProseIsRendered(line: string)
    ensures Rendered(Exited, [Prose(line)], line)
  {
    assert [Prose(line)][1..] == [];
    assert Render(Exited, [Prose(line)]) == line + "\n";
  }

  lemma LeadsWhenPtyId(id: string, f: (string, string))
    requires PtyId(id)
    ensures LeadsWithId([("ID", id), f])
  {
  }
}
