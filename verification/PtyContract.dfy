/** The transcript contract has two readers: the `LIKE` queries of opencode-heal and the
    parser of the notification plugin. On canonical texts they find the same ids. */
module PtyContract {
  import opened Wrappers
  import opened SqlText
  import opened PtyLifecycle
  import opened PtyRecords
  import opened PtyQuery
  import opened Heal

  // ---- The parser on rendered records ----

  lemma CanonicalIsGood(tag: Tag, items: seq<Item>)
    requires CanonicalItems(tag, items)
    ensures Good(tag, items)
  {
    hide GoodItem, PlainLine, PtyId, CanonicalRecord;
    assert forall item | item in items :: CanonicalItem(tag, item);
  }

  lemma {:induction false} AddFieldsKeeps(m: map<string, string>, fields: seq<(string, string)>, key: string)
    requires forall k | 0 <= k < |fields| :: fields[k].0 != key
    ensures key in AddFields(m, fields) <==> key in m
    ensures key in m ==> AddFields(m, fields)[key] == m[key]
    decreases |fields|
  {
    if fields != [] {
      AddFieldsKeeps(m[fields[0].0 := fields[0].1], fields[1..], key);
    }
  }

  /** The parser finds an id in a record exactly when the record leads with one. */
  lemma RecordId(tag: Tag, fields: seq<(string, string)>)
    requires CanonicalRecord(tag, fields)
    ensures HasId(AddFields(map[], fields)) <==> LeadsWithId(fields)
    ensures LeadsWithId(fields) ==> AddFields(map[], fields)["ID"] == fields[0].1
  {
    hide PtyId, PlainLine, TakenForId;
    if fields != [] {
      AddFieldsKeeps(map[][fields[0].0 := fields[0].1], fields[1..], "ID");
    }
  }

  /** The ids the records lead with, in order. */
  function RecordIds(items: seq<Item>): seq<string> {
    if items == [] then []
    else (if items[0].Record? && LeadsWithId(items[0].fields) then [items[0].fields[0].1] else []) + RecordIds(items[1..])
  }

  lemma {:induction false} IdsOfWritten(tag: Tag, items: seq<Item>)
    requires CanonicalItems(tag, items)
    ensures Ids(Written(items)) == RecordIds(items)
  {
    hide GoodItem, CanonicalRecord, LeadsWithId, AddFields, HasId;
    if items != [] {
      assert CanonicalItem(tag, items[0]);
      assert CanonicalItems(tag, items[1..]);
      IdsOfWritten(tag, items[1..]);
      if items[0].Record? {
        RecordId(tag, items[0].fields);
        assert Written(items)[1..] == Written(items[1..]);
      } else {
        assert Written(items) == Written(items[1..]);
      }
    }
  }

  lemma {:induction false} RecordIdsMeans(items: seq<Item>, id: string)
    requires PtyId(id)
    ensures id in RecordIds(items) <==> HasRecord(items, id)
  {
    hide PtyId;
    if items != [] {
      RecordIdsMeans(items[1..], id);
      assert items[0] in items;
      assert forall item :: item in items <==> item == items[0] || item in items[1..];
      assert HasRecord(items, id) <==> RecordOf(items[0], id) || HasRecord(items[1..], id);
    }
  }

  lemma {:induction false} RecordIdsArePtyIds(items: seq<Item>)
    ensures forall id | id in RecordIds(items) :: PtyId(id)
  {
    hide PtyId;
    if items != [] {
      RecordIdsArePtyIds(items[1..]);
    }
  }

  // ---- Exit reports ----

  /** Exit reports: the query and the parser find the same ids. */
  lemma ExitsAgree(items: seq<Item>, text: string, id: string)
    requires CanonicalItems(Exited, items) && Rendered(Exited, items, text) && PtyId(id)
    ensures HasBlock(text, Exited, id) <==> id in ExitedIds(text)
    ensures id in ExitedIds(text) <==> HasRecord(items, id)
  {
    hide CanonicalItem, HasBlock, Rendered, PtyId, HasRecord, Records;
    BlockIffRecord(Exited, items, text, id);
    CanonicalIsGood(Exited, items);
    RecordsRoundTrip(Exited, items, text);
    IdsOfWritten(Exited, items);
    RecordIdsMeans(items, id);
  }

  // ---- Spawn reports ----

  /** What the query takes for the id: the characters at the first `ID: pty_`. */
  function LabelledId(text: string): Option<string> {
    var at := Instr(text, ID_LABEL);
    if at == 0 then None else Some(Substr(text, at + 4, 12))
  }

  /** No record has an id, or the first `ID: pty_` in the output is that of the first one. */
  predicate LabelLeads(items: seq<Item>, text: string) {
    RecordIds(items) == [] || LabelledId(text) == Some(RecordIds(items)[0])
  }

  /** Spawn reports: the query and the parser read the same id, or both none, if and only if
      no other `ID: pty_` comes first. */
  lemma SpawnsAgreeIff(items: seq<Item>, text: string)
    requires CanonicalItems(Spawned, items) && Rendered(Spawned, items, text)
    ensures ReportedId(text) == SpawnedId(text) <==> LabelLeads(items, text)
    ensures SpawnedId(text) == if RecordIds(items) == [] then None else Some(RecordIds(items)[0])
  {
    hide CanonicalItem, HasBlock, Rendered, HasRecord, PtyId, Records, Instr, Substr;
    CanonicalIsGood(Spawned, items);
    RecordsRoundTrip(Spawned, items, text);
    IdsOfWritten(Spawned, items);
    RecordIdsArePtyIds(items);
    forall id | PtyId(id)
      ensures HasBlock(text, Spawned, id) <==> id in RecordIds(items)
    {
      BlockIffRecord(Spawned, items, text, id);
      RecordIdsMeans(items, id);
    }
    assert ReportedId(text) == match LabelledId(text)
      case None => None
      case Some(id) => if PtyId(id) && HasBlock(text, Spawned, id) then Some(id) else None;
  }

  /** Up to its first record with an id the output says `ID: pty_` nowhere. */
  predicate NoLabelBefore(items: seq<Item>) {
    items == [] || (items[0].Record? && LeadsWithId(items[0].fields))
    || (!Occurs(RenderItem(Spawned, items[0]), ID_LABEL) && NoLabelBefore(items[1..]))
  }

  predicate FirstAt(text: string, n: nat) {
    OccursAt(text, ID_LABEL, n) && forall k | 0 <= k < n :: !OccursAt(text, ID_LABEL, k)
  }

  lemma LabelChars()
    ensures |ID_LABEL| == 8 && '\n' !in ID_LABEL && ID_LABEL[0] == 'I'
  {
  }

  lemma OccursShift(before: string, rest: string, k: nat)
    ensures OccursAt(before + rest, ID_LABEL, |before| + k) <==> OccursAt(rest, ID_LABEL, k)
  {
    LabelChars();
    if k + 8 <= |rest| {
      assert (before + rest)[|before| + k..|before| + k + 8] == rest[k..k + 8];
    }
  }

  /** A label that begins in whole lines lies in them. */
  lemma OccursBefore(before: string, rest: string, k: nat)
    requires before != "" && EndsInFeed(before) && k < |before| && !Occurs(before, ID_LABEL)
    ensures !OccursAt(before + rest, ID_LABEL, k)
  {
    LabelChars();
    var text := before + rest;
    if k + 8 <= |before| {
      assert text[k..k + 8] == before[k..k + 8];
      assert !OccursAt(before, ID_LABEL, k);
    } else if k + 8 <= |text| {
      assert text[k..k + 8][|before| - 1 - k] == '\n';
    }
  }

  lemma FirstAfter(before: string, rest: string, n: nat)
    requires before != "" && EndsInFeed(before) && !Occurs(before, ID_LABEL) && FirstAt(rest, n)
    ensures FirstAt(before + rest, |before| + n)
  {
    hide OccursAt, Occurs, EndsInFeed;
    OccursShift(before, rest, n);
    forall k | 0 <= k < |before| + n
      ensures !OccursAt(before + rest, ID_LABEL, k)
    {
      if k < |before| {
        OccursBefore(before, rest, k);
      } else {
        OccursShift(before, rest, k - |before|);
      }
    }
  }

  lemma RenderItemEnds(tag: Tag, item: Item)
    ensures RenderItem(tag, item) != "" && EndsInFeed(RenderItem(tag, item))
  {
  }

  lemma FirstInRecord(fields: seq<(string, string)>, rest: string)
    requires fields != [] && fields[0].0 == "ID" && |fields[0].1| == 12 && fields[0].1[..4] == "pty_"
    ensures var text := RenderItem(Spawned, Record(fields)) + rest;
      FirstAt(text, 14) && |text| > 30 && text[18..30] == fields[0].1
  {
    hide RenderItem, RenderFields;
    var id := fields[0].1;
    RecordTail(Spawned, fields, rest);
    var tail := "\n" + (RenderFields(fields[1..]) + (CloseTag(Spawned) + "\n" + rest));
    var text := RenderItem(Spawned, Record(fields)) + rest;
    var head := "<pty_spawned>\nID: ";
    assert text == head + id + tail by {
      assert FieldLineOf(fields[0]) == "ID: " + id;
    }
    assert |head| == 18 && |id| == 12;
    assert text[18..30] == id;
    assert text[14..22] == head[14..18] + id[..4];
    assert head[14..18] == "ID: ";
    assert ID_LABEL == "ID: " + "pty_";
    assert OccursAt(text, ID_LABEL, 14);
    forall k | 0 <= k < 14
      ensures !OccursAt(text, ID_LABEL, k)
    {
      assert text[k] == head[k] != 'I';
      if k + 8 <= |text| {
        assert text[k..k + 8][0] == text[k];
      }
    }
  }

  lemma {:induction false} FirstLabel(items: seq<Item>) returns (n: nat)
    requires NoLabelBefore(items) && RecordIds(items) != []
    ensures var text := Render(Spawned, items); FirstAt(text, n) && n + 16 < |text| && text[n + 4..n + 16] == RecordIds(items)[0]
  {
    hide FirstAt, RenderItem, Occurs, EndsInFeed;
    var here, rest := RenderItem(Spawned, items[0]), Render(Spawned, items[1..]);
    if items[0].Record? && LeadsWithId(items[0].fields) {
      FirstInRecord(items[0].fields, rest);
      n := 14;
    } else {
      var m := FirstLabel(items[1..]);
      RenderItemEnds(Spawned, items[0]);
      FirstAfter(here, rest, m);
      n := |here| + m;
      assert Render(Spawned, items)[n + 4..n + 16] == rest[m + 4..m + 16];
    }
  }

  lemma FirstIsInstr(text: string, n: nat)
    requires FirstAt(text, n)
    ensures Instr(text, ID_LABEL) == n + 1
  {
    hide OccursAt;
    assert OccursAt(text, ID_LABEL, n);
    assert n <= |text| by { OccursWithin(text, n); }
    assert Occurs(text, ID_LABEL);
  }

  lemma OccursWithin(text: string, n: nat)
    requires OccursAt(text, ID_LABEL, n)
    ensures n <= |text|
  {
  }

  lemma FirstInPrefix(text: string, whole: string, n: nat)
    requires text <= whole && FirstAt(whole, n) && n + 8 <= |text|
    ensures FirstAt(text, n)
  {
    LabelChars();
    forall k | 0 <= k <= n
      ensures OccursAt(text, ID_LABEL, k) <==> OccursAt(whole, ID_LABEL, k)
    {
      assert text[k..k + 8] == whole[k..k + 8];
    }
  }

  /** So they agree on every output without a stray label before its record. */
  lemma SpawnsAgree(items: seq<Item>, text: string)
    requires CanonicalItems(Spawned, items) && Rendered(Spawned, items, text) && NoLabelBefore(items)
    ensures LabelLeads(items, text) && ReportedId(text) == SpawnedId(text)
  {
    hide CanonicalItem, Render, FirstAt, PtyId, Instr, NoLabelBefore;
    if RecordIds(items) != [] {
      var whole := Render(Spawned, items);
      var n := FirstLabel(items);
      assert text <= whole && |whole| <= |text| + 1 by {
        if text + "\n" == whole {
          assert whole[..|text|] == text;
        }
      }
      FirstInPrefix(text, whole, n);
      FirstIsInstr(text, n);
      assert Substr(text, n + 1 + 4, 12) == whole[n + 4..n + 16];
    }
    SpawnsAgreeIff(items, text);
  }
}
