/** One tool call and one text, in messages of any role and in either order: exactly when each
    of the two readers keeps the PTY. */
module PtyReaders {
  import opened Wrappers
  import opened Json
  import opened Text
  import opened SqlText
  import opened PtyLifecycle
  import opened PtyRecords
  import opened PtyQuery
  import opened PtyAgreement
  import opened PtyIds
  import opened PtyCases
  import opened Heal

  function ToolTurn(role: string, tool: Json): Turn {
    Turn(Row("m1", "s", "", Doc(RoleJson(role))), [PartRow("m1", "s", 0, Doc(tool))])
  }

  function TextTurn(role: string, text: string, late: bool): Turn {
    Turn(Row("m2", "s", "", Doc(RoleJson(role))), [PartRow("m2", "s", if late then 1 else -1, Doc(TextJson(text)))])
  }

  /** The text comes after the tool call, or before it. */
  function InOrder(a: Turn, b: Turn, late: bool): seq<Turn> {
    if late then [a, b] else [b, a]
  }

  lemma ToolTurnReads(role: string, tool: string, status: string, flag: Json, output: string, id: string)
    ensures var m := Decode(ToolTurn(role, ToolJson(tool, status, flag, output)));
      && (SpawnsIn(m, id) <==>
            role == "assistant" && tool == "pty_spawn" && status == "completed" && flag == Bool(true) && SpawnedId(output) == Some(id))
      && !ExitsIn(m, id)
  {
    hide ToolJson, DecodePart, RoleJson, Records, Ids, StringAt, RoleOf;
    var t := ToolTurn(role, ToolJson(tool, status, flag, output));
    ToolJsonMeans(tool, status, flag, output);
    RoleReads(role);
    var p := ToolPart(tool, status, flag == Bool(true), Some(output));
    assert DecodeParts(t.parts) == [p] by {
      assert t.parts[1..] == [];
    }
    assert JoinedText([p]) == "" by {
      assert [p][1..] == [];
    }
    NoText(id);
    assert p in [p];
    assert AnySpawn([p], id) <==> Spawns(p, id);
  }

  lemma RoleReads(role: string)
    ensures RoleOf(Doc(RoleJson(role))) == if role == "assistant" then Assistant else if role == "user" then User else OtherRole
    ensures StringAt(Doc(RoleJson(role)), ROLE, "user") <==> role == "user"
  {
    hide RoleJson, Extract;
    RoleJsonMeans(role);
  }

  lemma NoText(id: string)
    ensures id !in ExitedIds("")
  {
    hide ScanLines;
    ScanNothing(Scan([], None), Exited);
  }

  lemma TextTurnReads(role: string, text: string, late: bool, id: string)
    ensures var m := Decode(TextTurn(role, text, late));
      (ExitsIn(m, id) <==> role == "user" && id in ExitedIds(text)) && !SpawnsIn(m, id)
  {
    hide TextJson, DecodePart, RoleJson, Records, Ids, StringAt, RoleOf;
    var t := TextTurn(role, text, late);
    TextJsonMeans(text);
    RoleReads(role);
    var p := TextPart(text);
    assert DecodeParts(t.parts) == [p] by {
      assert t.parts[1..] == [];
    }
    assert JoinedText([p]) == text by {
      assert [p][1..] == [];
      assert text + "" == text;
    }
    assert !AnySpawn([p], id);
  }

  /** The plugin waits for a PTY exactly when a completed notify-on-exit spawn of an assistant
      message names it and no later user message reports its exit. */
  lemma PluginKeepsIff(role: string, tool: string, status: string, flag: Json, output: string, textRole: string, text: string, late: bool, id: string)
    ensures Unfinished(DecodeAll(InOrder(ToolTurn(role, ToolJson(tool, status, flag, output)), TextTurn(textRole, text, late), late)), id) <==>
      && role == "assistant" && tool == "pty_spawn" && status == "completed" && flag == Bool(true) && SpawnedId(output) == Some(id)
      && !(late && textRole == "user" && id in ExitedIds(text))
  {
    hide Decode, SpawnsIn, ExitsIn, SpawnedId, ExitedIds, ToolTurn, TextTurn, Unfinished;
    var a, b := ToolTurn(role, ToolJson(tool, status, flag, output)), TextTurn(textRole, text, late);
    ToolTurnReads(role, tool, status, flag, output, id);
    TextTurnReads(textRole, text, late, id);
    var first, second := if late then a else b, if late then b else a;
    assert DecodeAll(InOrder(a, b, late)) == [] + [Decode(first)] + [Decode(second)];
    UnfinishedAppend([], Decode(first), id);
    UnfinishedAppend([] + [Decode(first)], Decode(second), id);
    assert !Unfinished([], id) by { NoMessages(id); }
  }

  lemma NoMessages(id: string)
    ensures !Unfinished([], id)
  {
  }


  /** What the join makes of the tool call. */
  lemma ToolRowReads(role: string, tool: string, status: string, flag: Json, output: string, m: Row)
    ensures var t := ToolTurn(role, ToolJson(tool, status, flag, output));
      && SpawnedPty(t.parts[0].data) == (if tool == "pty_spawn" && (flag == Bool(true) || flag == Number(1.0)) then ReportedId(output) else None)
      && (Qualifies(t.parts[0], m, SESSIONS) ==> m.id == "m1")
      && (Qualifies(t.parts[0], t.message, SESSIONS) <==> SpawnedPty(t.parts[0].data).Some?)
      && forall id :: !ReportsExit(t.parts[0], id)
  {
    hide ToolJson, RoleJson, SpawnOutput, ReportedId, Extract, HasBlock;
    ToolJsonMeans(tool, status, flag, output);
    RoleJsonMeans(role);
  }

  lemma TextRowReads(role: string, text: string, late: bool, id: string)
    ensures var t := TextTurn(role, text, late);
      && SpawnedPty(t.parts[0].data).None?
      && (ReportsExit(t.parts[0], id) <==> HasBlock(text, Exited, id))
      && (StringAt(t.message.data, ROLE, "user") <==> role == "user")
  {
    hide TextJson, RoleJson, SpawnOutput, ReportedId, Extract, HasBlock;
    TextJsonMeans(text);
    RoleReads(role);
  }

  /** The heal takes a PTY for abandoned exactly when a notify-on-exit spawn names it, whatever
      the message's role and the call's status, and no user message later in time reports it. */
  lemma QueryKeepsIff(role: string, tool: string, status: string, flag: Json, output: string, textRole: string, text: string, late: bool, id: string)
    ensures var a, b := ToolTurn(role, ToolJson(tool, status, flag, output)), TextTurn(textRole, text, late);
      id in AbandonedIds([a.message, b.message], [a.parts[0], b.parts[0]], SESSIONS, "s") <==>
        && tool == "pty_spawn" && (flag == Bool(true) || flag == Number(1.0)) && ReportedId(output) == Some(id)
        && !(late && textRole == "user" && HasBlock(text, Exited, id))
  {
    hide ToolJson, TextJson, RoleJson, HasBlock, ReportedId, WorkspaceOf, StringAt, Marked, SpawnedPty, ReportsExit, Qualifies;
    var a, b := ToolTurn(role, ToolJson(tool, status, flag, output)), TextTurn(textRole, text, late);
    ToolRowReads(role, tool, status, flag, output, a.message);
    ToolRowReads(role, tool, status, flag, output, b.message);
    TextRowReads(textRole, text, late, id);
    KeptIff(a.message, b.message, a.parts[0], b.parts[0], id);
  }

  /** The two queries on two parts, the second of which spawns nothing. */
  lemma KeptIff(m: Row, n: Row, p: PartRow, q: PartRow, id: string)
    requires m.id == p.messageID == "m1" && n.id == q.messageID == "m2" && p.sessionID == q.sessionID == "s"
    requires SpawnedPty(q.data).None? && !ReportsExit(p, id)
    requires Qualifies(p, m, SESSIONS) <==> SpawnedPty(p.data).Some?
    ensures id in AbandonedIds([m, n], [p, q], SESSIONS, "s") <==>
      SpawnedPty(p.data) == Some(id) && !(q.time > p.time && ReportsExit(q, id) && StringAt(n.data, ROLE, "user"))
  {
    hide WorkspaceOf, StringAt, Marked, SpawnedPty, ReportsExit;
    assert "m1"[1] != "m2"[1];
    var rows, parts := [m, n], [p, q];
    assert p in parts && q in parts && m in rows && n in rows;
    if SpawnedPty(p.data) == Some(id) {
      var a := PtyOf(p, m, SESSIONS);
      assert a in SpawnedPtys(rows, parts, SESSIONS);
      assert ExitSeen(a, rows, parts) <==> q.time > p.time && ReportsExit(q, id) && StringAt(n.data, ROLE, "user");
      assert !ExitSeen(a, rows, parts) ==> a in Abandoned(rows, parts, SESSIONS);
    }
  }

  // ---- What only the query takes for a report ----

  const LIKE_OPEN := "<PTY-exited>\nid: "
  const LIKE_CLOSE := "</Pty exited>"

  /** Tags and label in another case, and something else for the underscore. */
  function Lookalike(id: string): string {
    LIKE_OPEN + (id + "\n") + LIKE_CLOSE
  }

  lemma OpenIsLike()
    ensures LikeAt(LIKE_OPEN, "<pty_exited>\nID: ", 0)
  {
    var w, t := "<pty_exited>\nID: ", LIKE_OPEN;
    assert LikeChar(w[0], t[0]) && LikeChar(w[1], t[1]) && LikeChar(w[2], t[2]) && LikeChar(w[3], t[3]);
    assert LikeChar(w[4], t[4]) && LikeChar(w[5], t[5]) && LikeChar(w[6], t[6]) && LikeChar(w[7], t[7]);
    assert LikeChar(w[8], t[8]) && LikeChar(w[9], t[9]) && LikeChar(w[10], t[10]) && LikeChar(w[11], t[11]);
    assert LikeChar(w[12], t[12]) && LikeChar(w[13], t[13]) && LikeChar(w[14], t[14]) && LikeChar(w[15], t[15]);
    assert LikeChar(w[16], t[16]);
  }

  lemma CloseIsLike()
    ensures LikeAt(LIKE_CLOSE, "</pty_exited>", 0)
  {
    var w, t := "</pty_exited>", LIKE_CLOSE;
    assert LikeChar(w[0], t[0]) && LikeChar(w[1], t[1]) && LikeChar(w[2], t[2]) && LikeChar(w[3], t[3]);
    assert LikeChar(w[4], t[4]) && LikeChar(w[5], t[5]) && LikeChar(w[6], t[6]) && LikeChar(w[7], t[7]);
    assert LikeChar(w[8], t[8]) && LikeChar(w[9], t[9]) && LikeChar(w[10], t[10]) && LikeChar(w[11], t[11]);
    assert LikeChar(w[12], t[12]);
  }

  /** A piece of a text that is like a piece of a pattern. */
  lemma LikePiece(before: string, piece: string, after: string, w: string)
    requires |piece| == |w| && LikeAt(piece, w, 0)
    ensures LikeAt(before + piece + after, w, |before|)
  {
    forall k | 0 <= k < |w|
      ensures LikeChar(w[k], (before + piece + after)[|before| + k])
    {
      assert LikeChar(w[k], piece[0 + k]);
    }
  }

  lemma LikeTwo(text: string, v: string, w: string, i: nat)
    requires LikeAt(text, v, i) && LikeAt(text, w, i + |v|)
    ensures LikeAt(text, v + w, i)
  {
    forall k | 0 <= k < |v + w|
      ensures LikeChar((v + w)[k], text[i + k])
    {
      if k < |v| {
        assert LikeChar(v[k], text[i + k]);
      } else {
        assert LikeChar(w[k - |v|], text[(i + |v|) + (k - |v|)]);
      }
    }
  }

  lemma SameIsLike(s: string)
    ensures LikeAt(s, s, 0)
  {
  }

  lemma OpeningAt(id: string)
    ensures LikeAt(Lookalike(id), OpeningLines(Exited, id), 0)
  {
    hide LikeAt, LikeChar;
    var v, end := "<pty_exited>\nID: ", id + "\n";
    OpenIsLike();
    SameIsLike(end);
    LikePiece("", LIKE_OPEN, end + LIKE_CLOSE, v);
    LikePiece(LIKE_OPEN, end, LIKE_CLOSE, end);
    assert Lookalike(id) == "" + LIKE_OPEN + (end + LIKE_CLOSE);
    assert |LIKE_OPEN| == |v|;
    LikeTwo(Lookalike(id), v, end, 0);
    assert OpeningLines(Exited, id) == v + end by {
      assert "<pty_exited>" + "\nID: " == v;
    }
  }

  lemma ClosingAt(id: string)
    ensures LikeAt(Lookalike(id), CloseTag(Exited), |LIKE_OPEN + (id + "\n")|)
  {
    hide LikeAt, LikeChar;
    CloseIsLike();
    LikePiece(LIKE_OPEN + (id + "\n"), LIKE_CLOSE, "", "</pty_exited>");
    assert Lookalike(id) == LIKE_OPEN + (id + "\n") + LIKE_CLOSE + "";
  }

  /** `LIKE` ignores case and reads an underscore as any character, so to the query this is an
      exit report. To the parser it is prose. */
  lemma LookalikeDisagrees(h: string)
    requires |h| == 8 && forall c | c in h :: c in "0123456789abcdef"
    ensures HasBlock(Lookalike("pty_" + h), Exited, "pty_" + h) && ExitedIds(Lookalike("pty_" + h)) == []
  {
    hide LikeAt, Like, ExitedIds, PtyId, Lookalike, OpeningLines, CloseTag;
    var id := "pty_" + h;
    HexIsPtyId(h);
    OpeningHasNoPercent(Exited, id);
    OpeningAt(id);
    ClosingAt(id);
    LikeAtLength(Lookalike(id), CloseTag(Exited), |LIKE_OPEN + (id + "\n")|);
    assert |OpeningLines(Exited, id)| == |LIKE_OPEN + (id + "\n")| by { OpeningLength(id); }
    LikeIsBoth(OpeningLines(Exited, id), CloseTag(Exited), Lookalike(id));
    LookalikeIsProse(id);
  }

  lemma OpeningLength(id: string)
    ensures |OpeningLines(Exited, id)| == |LIKE_OPEN + (id + "\n")|
  {
  }

  lemma ThreeLines(a: string, b: string, c: string)
    ensures var items := [Prose(a), Prose(b), Prose(c)];
      Render(Exited, items) == a + "\n" + (b + "\n" + (c + "\n")) && Written(items) == []
  {
    var items := [Prose(a), Prose(b), Prose(c)];
    assert items[1..] == [Prose(b), Prose(c)] && items[1..][1..] == [Prose(c)] && items[1..][1..][1..] == [];
    RenderOne(Exited, Prose(c));
    assert Render(Exited, [Prose(b), Prose(c)]) == b + "\n" + (c + "\n");
    assert Written([Prose(c)]) == [] && Written([Prose(b), Prose(c)]) == [] + Written([Prose(c)]);
  }

  lemma LookalikeIsProse(id: string)
    requires PtyId(id)
    ensures ExitedIds(Lookalike(id)) == []
  {
    hide Records, PtyId, Render, GoodItem, Lookalike;
    var line := "id: " + id;
    var items := [Prose("<PTY-exited>"), Prose(line), Prose("</Pty exited>")];
    TagsAreGood();
    LabelIsGood(id);
    ThreeLines("<PTY-exited>", line, "</Pty exited>");
    LookalikeLines(id);
    assert forall item | item in items :: item == Prose("<PTY-exited>") || item == Prose(line) || item == Prose("</Pty exited>");
    RecordsRoundTrip(Exited, items, Lookalike(id));
    assert Records(Lookalike(id), Exited) == [] && Ids([]) == [];
  }

  lemma LookalikeLines(id: string)
    ensures Lookalike(id) + "\n" == "<PTY-exited>" + "\n" + ("id: " + id + "\n" + ("</Pty exited>" + "\n"))
  {
    assert "<PTY-exited>" + "\n" + "id: " == LIKE_OPEN;
    assert Lookalike(id) + "\n" == LIKE_OPEN + (id + "\n" + (LIKE_CLOSE + "\n"));
  }

  lemma TagsAreGood()
    ensures GoodItem(Exited, Prose("<PTY-exited>")) && GoodItem(Exited, Prose("</Pty exited>"))
  {
    hide GoodItem;
    TightIsGood("<PTY-exited>");
    TightIsGood("</Pty exited>");
  }

  lemma LabelIsGood(id: string)
    requires PtyId(id)
    ensures GoodItem(Exited, Prose("id: " + id))
  {
    hide PtyId;
    PtyIdIsPlain(id);
    assert id[11] in id && !IsSpace(id[11]);
    assert ("id: " + id)[0] == 'i';
    TightIsGood("id: " + id);
  }

  lemma TightIsGood(line: string)
    requires Tight(line) && line != "" && '\n' !in line && (line[0] == '<' ==> |line| > 2 && line[1] != 'p' && line[2] != 'p')
    ensures GoodItem(Exited, Prose(line))
  {
    hide Trim, Tight;
    TrimOfTight(line);
    assert OpenTag(Exited)[0] == '<' && OpenTag(Exited)[1] == 'p' && CloseTag(Exited)[0] == '<' && CloseTag(Exited)[2] == 'p';
  }
}
