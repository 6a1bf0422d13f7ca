/** Any number of texts joined: what the parser reads where they meet, and exactly when that
    changes what a message reports. */
module PtyJoints {
  import opened Wrappers
  import opened Text
  import opened PtyLifecycle
  import opened PtyRecords
  import opened PtyQuery
  import opened PtyContract
  import opened PtySeams
  import opened PtyPairs
  import opened Heal

  /** A reading of joined texts, item by item. `line` is the unfinished line at its end and
      `current` the record open before that line. Records are `whole` or `cut` by a seam;
      `fused` is what closing tags put out where texts meet. */
  datatype Joint = Joint(
    current: Option<map<string, string>>,
    line: string,
    whole: seq<Item>,
    cut: seq<Item>,
    fused: seq<map<string, string>>)

  const NOTHING := Joint(None, "", [], [], [])

  /** One line, read apart from everything put out so far. */
  function ReadLine(current: Option<map<string, string>>, line: string): Scan {
    ScanLine(Scan([], current), line, Exited)
  }

  function WithFields(current: Option<map<string, string>>, fields: seq<(string, string)>): Option<map<string, string>> {
    if current.Some? then Some(AddFields(current.value, fields)) else None
  }

  function PutOut(current: Option<map<string, string>>): seq<map<string, string>> {
    if current.Some? then [current.value] else []
  }

  /** An item with its last line feed. Only a record after nothing but space is read whole. */
  function ReadItem(j: Joint, item: Item): Joint {
    match item
    case Prose(q) =>
      var s := ReadLine(j.current, j.line + q);
      Joint(s.current, "", j.whole, j.cut, j.fused + s.out)
    case Record(fields) =>
      if AllSpace(j.line) then Joint(None, "", j.whole + [item], j.cut, j.fused)
      else
        var s := ReadLine(j.current, j.line + OpenTag(Exited));
        Joint(None, "", j.whole, j.cut + [item], j.fused + s.out + PutOut(WithFields(s.current, fields)))
  }

  /** An item without its last line feed. */
  function ReadEnd(j: Joint, item: Item): Joint {
    match item
    case Prose(q) => j.(line := j.line + q)
    case Record(fields) =>
      var s := ReadLine(j.current, j.line + OpenTag(Exited));
      Joint(WithFields(s.current, fields), CloseTag(Exited), j.whole, j.cut + [item], j.fused + s.out)
  }

  function ReadItems(j: Joint, items: seq<Item>): Joint
    decreases |items|
  {
    if items == [] then j else ReadItems(ReadItem(j, items[0]), items[1..])
  }

  function ReadText(j: Joint, items: seq<Item>, text: string): Joint {
    if items == [] || text == Render(Exited, items) then ReadItems(j, items)
    else ReadEnd(ReadItems(j, Init(items)), Final(items))
  }

  function ReadTexts(j: Joint, items: seq<seq<Item>>, texts: seq<string>): Joint
    requires |items| == |texts|
    decreases |texts|
  {
    if texts == [] then j else ReadTexts(ReadText(j, items[0], texts[0]), items[1..], texts[1..])
  }

  /** The unfinished line is a line after all. */
  function Finish(j: Joint): Joint {
    var s := ReadLine(j.current, j.line);
    Joint(s.current, "", j.whole, j.cut, j.fused + s.out)
  }

  // ---- The reading is the parser's ----

  /** Lines put out records after those before them. */
  lemma LineApart(st: Scan, line: string)
    ensures ScanLine(st, line, Exited) == Scan(st.out + ReadLine(st.current, line).out, ReadLine(st.current, line).current)
  {
    hide Trim, Field;
  }

  /** What stands for what: the open record, and the ids put out. */
  predicate Stands(st: Scan, j: Joint, id: string) {
    && st.current == j.current && '\n' !in j.line
    && (id in Ids(st.out) <==> id in Ids(j.fused) || HasRecord(j.whole, id))
  }

  /** The lines of a record up to its closing tag, opened or not. */
  lemma ReadFields(st: Scan, fields: seq<(string, string)>, rest: string)
    requires forall f | f in fields :: GoodField(f)
    ensures ScanText(st, RenderFields(fields) + rest, Exited) == ScanText(Scan(st.out, WithFields(st.current, fields)), rest, Exited)
  {
    hide ScanText, GoodField, RenderFields;
    if st.current.Some? {
      ScanFields(st, fields, rest, Exited);
    } else {
      FieldsAreIgnored(st, fields, rest, Exited);
      assert Scan(st.out, None) == st;
    }
  }

  lemma ReadProse(st: Scan, line: string, q: string, rest: string)
    requires '\n' !in line && GoodItem(Exited, Prose(q))
    ensures ScanText(st, line + (RenderItem(Exited, Prose(q)) + rest), Exited) == ScanText(ScanLine(st, line + q, Exited), rest, Exited)
  {
    hide ScanText, ScanLine, Trim;
    assert line + (RenderItem(Exited, Prose(q)) + rest) == (line + q) + "\n" + rest;
    ScanFirstLine(st, line + q, rest, Exited);
  }

  /** A record after an unfinished line, up to its closing tag. */
  lemma ReadOpening(st: Scan, line: string, fields: seq<(string, string)>, rest: string)
    requires '\n' !in line && forall f | f in fields :: GoodField(f)
    ensures var s := ScanLine(st, line + OpenTag(Exited), Exited);
      ScanText(st, line + (Cut(Exited, Record(fields)) + rest), Exited)
        == ScanText(Scan(s.out, WithFields(s.current, fields)), CloseTag(Exited) + rest, Exited)
  {
    hide ScanText, ScanLine, GoodField, RenderFields, OpenTag, CloseTag;
    TagsAreTight(Exited);
    var tail := RenderFields(fields) + (CloseTag(Exited) + rest);
    assert line + (Cut(Exited, Record(fields)) + rest) == (line + OpenTag(Exited)) + "\n" + tail;
    ScanFirstLine(st, line + OpenTag(Exited), tail, Exited);
    ReadFields(ScanLine(st, line + OpenTag(Exited), Exited), fields, CloseTag(Exited) + rest);
  }

  lemma ReadRecord(st: Scan, line: string, fields: seq<(string, string)>, rest: string)
    requires '\n' !in line && forall f | f in fields :: GoodField(f)
    ensures var s := ScanLine(st, line + OpenTag(Exited), Exited);
      ScanText(st, line + (RenderItem(Exited, Record(fields)) + rest), Exited)
        == ScanText(Scan(s.out + PutOut(WithFields(s.current, fields)), None), rest, Exited)
  {
    hide ScanText, ScanLine, GoodField, RenderItem, Cut, WithFields, OpenTag, CloseTag;
    CutItem(Exited, Record(fields));
    var s := ScanLine(st, line + OpenTag(Exited), Exited);
    assert line + (RenderItem(Exited, Record(fields)) + rest) == line + (Cut(Exited, Record(fields)) + ("\n" + rest));
    ReadOpening(st, line, fields, "\n" + rest);
    assert CloseTag(Exited) + ("\n" + rest) == CloseTag(Exited) + "\n" + rest;
    CloseLine(Scan(s.out, WithFields(s.current, fields)), rest, Exited);
    assert s.out + [] == s.out;
  }

  lemma OneMore(out: seq<map<string, string>>, more: seq<map<string, string>>, id: string)
    ensures id in Ids(out + more) <==> id in Ids(out) || id in Ids(more)
  {
    IdsConcat(out, more);
  }

  lemma OneMoreWhole(whole: seq<Item>, item: Item, id: string)
    ensures HasRecord(whole + [item], id) <==> HasRecord(whole, id) || RecordOf(item, id)
  {
    hide RecordOf;
    assert forall x :: x in whole + [item] <==> x in whole || x == item;
    assert item in whole + [item];
  }

  lemma BlankOpens(st: Scan, line: string)
    requires AllSpace(line)
    ensures ScanLine(st, line + OpenTag(Exited), Exited) == Scan(st.out, Some(map[]))
  {
    hide Trim, AllSpace, OpenTag, CloseTag;
    BlankNextToTag(Exited, line);
  }

  /** An item and its reading. */
  lemma ItemStands(st: Scan, j: Joint, item: Item, rest: string, id: string) returns (after: Scan)
    requires Stands(st, j, id) && CanonicalItem(Exited, item) && PtyId(id)
    ensures ScanText(st, j.line + (RenderItem(Exited, item) + rest), Exited) == ScanText(after, rest, Exited)
    ensures Stands(after, ReadItem(j, item), id) && ReadItem(j, item).line == ""
  {
    hide ScanText, ScanLine, RenderItem, AllSpace, CanonicalRecord, PtyId, Ids, HasRecord, AddFields, GoodField, PlainLine;
    match item
    case Prose(q) =>
      after := ScanLine(st, j.line + q, Exited);
      ReadProse(st, j.line, q, rest);
      LineApart(st, j.line + q);
      OneMore(st.out, ReadLine(j.current, j.line + q).out, id);
      OneMore(j.fused, ReadLine(j.current, j.line + q).out, id);
    case Record(fields) =>
      ReadRecord(st, j.line, fields, rest);
      if AllSpace(j.line) {
        BlankOpens(st, j.line);
        var m := AddFields(map[], fields);
        after := Scan(st.out + [m], None);
        RecordId(Exited, fields);
        SingleId(m, id);
        OneMore(st.out, [m], id);
        OneMoreWhole(j.whole, item, id);
      } else {
        var s := ReadLine(j.current, j.line + OpenTag(Exited));
        var put := PutOut(WithFields(s.current, fields));
        after := Scan(st.out + s.out + put, None);
        LineApart(st, j.line + OpenTag(Exited));
        OneMore(st.out + s.out, put, id);
        OneMore(st.out, s.out, id);
        OneMore(j.fused + s.out, put, id);
        OneMore(j.fused, s.out, id);
      }
  }

  lemma EndStands(st: Scan, j: Joint, item: Item, rest: string, id: string) returns (after: Scan)
    requires Stands(st, j, id) && CanonicalItem(Exited, item)
    ensures ScanText(st, j.line + (Cut(Exited, item) + rest), Exited) == ScanText(after, ReadEnd(j, item).line + rest, Exited)
    ensures Stands(after, ReadEnd(j, item), id)
  {
    hide ScanText, ScanLine, AllSpace, CanonicalRecord, PtyId, Ids, HasRecord, AddFields, GoodField, PlainLine, OpenTag, CloseTag;
    match item
    case Prose(q) =>
      after := st;
      assert j.line + (Cut(Exited, item) + rest) == (j.line + q) + rest;
    case Record(fields) =>
      TagsAreTight(Exited);
      var s := ReadLine(j.current, j.line + OpenTag(Exited));
      after := Scan(st.out + s.out, WithFields(s.current, fields));
      ReadOpening(st, j.line, fields, rest);
      LineApart(st, j.line + OpenTag(Exited));
      OneMore(st.out, s.out, id);
      OneMore(j.fused, s.out, id);
  }

  lemma {:induction false} ItemsStand(st: Scan, j: Joint, items: seq<Item>, rest: string, id: string) returns (after: Scan)
    requires Stands(st, j, id) && CanonicalItems(Exited, items) && PtyId(id)
    ensures ScanText(st, j.line + (Render(Exited, items) + rest), Exited) == ScanText(after, ReadItems(j, items).line + rest, Exited)
    ensures Stands(after, ReadItems(j, items), id)
    decreases |items|
  {
    hide ScanText, RenderItem, CanonicalItem, PtyId, Stands, ReadItem;
    if items == [] {
      after := st;
      assert Render(Exited, items) + rest == rest;
    } else {
      var more := Render(Exited, items[1..]) + rest;
      ItemSplit(Exited, items, rest);
      assert CanonicalItem(Exited, items[0]);
      var mid := ItemStands(st, j, items[0], more, id);
      assert "" + more == more;
      after := ItemsStand(mid, ReadItem(j, items[0]), items[1..], rest, id);
    }
  }

  lemma TextStands(st: Scan, j: Joint, items: seq<Item>, text: string, rest: string, id: string) returns (after: Scan)
    requires Stands(st, j, id) && CanonicalItems(Exited, items) && Rendered(Exited, items, text) && PtyId(id)
    ensures ScanText(st, j.line + (text + rest), Exited) == ScanText(after, ReadText(j, items, text).line + rest, Exited)
    ensures Stands(after, ReadText(j, items, text), id)
  {
    hide ScanText, Render, CanonicalItem, PtyId, Stands, ReadItems, ReadEnd, Cut;
    if text == Render(Exited, items) {
      after := ItemsStand(st, j, items, rest, id);
    } else {
      OpenEnd(Exited, items, text);
      var ending := Cut(Exited, Final(items)) + rest;
      assert text + rest == Render(Exited, Init(items)) + ending;
      assert CanonicalItem(Exited, Final(items));
      var mid := ItemsStand(st, j, Init(items), ending, id);
      after := EndStands(mid, ReadItems(j, Init(items)), Final(items), rest, id);
    }
  }

  /** Canonical texts, each with the items it renders. */
  ghost predicate AllCanonical(items: seq<seq<Item>>, texts: seq<string>) {
    |items| == |texts| && forall k | 0 <= k < |texts| :: CanonicalItems(Exited, items[k]) && Rendered(Exited, items[k], texts[k])
  }

  lemma {:induction false} TextsStand(st: Scan, j: Joint, items: seq<seq<Item>>, texts: seq<string>, id: string) returns (after: Scan)
    requires Stands(st, j, id) && AllCanonical(items, texts) && PtyId(id)
    ensures ScanText(st, j.line + Concat(texts), Exited) == ScanText(after, ReadTexts(j, items, texts).line, Exited)
    ensures Stands(after, ReadTexts(j, items, texts), id)
    decreases |texts|
  {
    hide ScanText, CanonicalItems, Rendered, PtyId, Stands, ReadText;
    if texts == [] {
      after := st;
      assert j.line + "" == j.line;
    } else {
      var mid := TextStands(st, j, items[0], texts[0], Concat(texts[1..]), id);
      after := TextsStand(mid, ReadText(j, items[0], texts[0]), items[1..], texts[1..], id);
    }
  }

  /** The reading of all texts, joined. */
  function Joined(items: seq<seq<Item>>, texts: seq<string>): Joint
    requires |items| == |texts|
  {
    Finish(ReadTexts(NOTHING, items, texts))
  }

  /** What the parser finds in any number of texts joined: the records read whole, and what
      closing tags put out at the seams. */
  lemma JoinedReportsExactly(items: seq<seq<Item>>, texts: seq<string>, id: string)
    requires AllCanonical(items, texts) && PtyId(id)
    ensures var joined := Joined(items, texts);
      id in ExitedIds(Concat(texts)) <==> HasRecord(joined.whole, id) || id in Ids(joined.fused)
  {
    hide ScanLines, PtyId, HasRecord, ReadTexts, ReadLine, Ids;
    NoRecord(id);
    NoIds();
    var after := TextsStand(Scan([], None), NOTHING, items, texts, id);
    assert "" + Concat(texts) == Concat(texts);
    var j := ReadTexts(NOTHING, items, texts);
    ScanOneLine(after, j.line, Exited);
    LineApart(after, j.line);
    var s := ReadLine(j.current, j.line);
    OneMore(after.out, s.out, id);
    OneMore(j.fused, s.out, id);
  }

  // ---- When a join keeps the reports ----

  lemma ItemIsKept(j: Joint, item: Item, id: string)
    ensures HasRecord(ReadItem(j, item).whole, id) || HasRecord(ReadItem(j, item).cut, id)
      <==> HasRecord(j.whole, id) || HasRecord(j.cut, id) || RecordOf(item, id)
  {
    hide HasRecord, AllSpace, ReadLine;
    OneMoreWhole(j.whole, item, id);
    OneMoreWhole(j.cut, item, id);
  }

  lemma EndIsKept(j: Joint, item: Item, id: string)
    ensures HasRecord(ReadEnd(j, item).whole, id) || HasRecord(ReadEnd(j, item).cut, id)
      <==> HasRecord(j.whole, id) || HasRecord(j.cut, id) || RecordOf(item, id)
  {
    hide HasRecord, ReadLine;
    OneMoreWhole(j.cut, item, id);
  }

  lemma {:induction false} ItemsAreKept(j: Joint, items: seq<Item>, id: string)
    ensures HasRecord(ReadItems(j, items).whole, id) || HasRecord(ReadItems(j, items).cut, id)
      <==> HasRecord(j.whole, id) || HasRecord(j.cut, id) || HasRecord(items, id)
    decreases |items|
  {
    hide HasRecord, RecordOf, ReadItem;
    if items == [] {
      NoRecord(id);
    } else {
      ItemIsKept(j, items[0], id);
      ItemsAreKept(ReadItem(j, items[0]), items[1..], id);
      SplitRecords(items, items, id);
    }
  }

  lemma TextIsKept(j: Joint, items: seq<Item>, text: string, id: string)
    ensures HasRecord(ReadText(j, items, text).whole, id) || HasRecord(ReadText(j, items, text).cut, id)
      <==> HasRecord(j.whole, id) || HasRecord(j.cut, id) || HasRecord(items, id)
  {
    hide HasRecord, RecordOf, ReadItems, ReadEnd, Render;
    if items == [] || text == Render(Exited, items) {
      ItemsAreKept(j, items, id);
    } else {
      ItemsAreKept(j, Init(items), id);
      EndIsKept(ReadItems(j, Init(items)), Final(items), id);
      SplitRecords(items, items, id);
    }
  }

  /** Every record is whole or cut, and nothing else is. */
  lemma {:induction false} TextsAreKept(j: Joint, items: seq<seq<Item>>, texts: seq<string>, id: string)
    requires |items| == |texts|
    ensures HasRecord(ReadTexts(j, items, texts).whole, id) || HasRecord(ReadTexts(j, items, texts).cut, id)
      <==> HasRecord(j.whole, id) || HasRecord(j.cut, id) || HasRecord(Flat(items), id)
    decreases |texts|
  {
    hide HasRecord, ReadText;
    if texts == [] {
      NoRecord(id);
    } else {
      TextIsKept(j, items[0], texts[0], id);
      TextsAreKept(ReadText(j, items[0], texts[0]), items[1..], texts[1..], id);
      HasRecordConcat(items[0], Flat(items[1..]), id);
    }
  }

  /** Each cut record's id is reported elsewhere, and each fused id by a record. */
  predicate SeamsKeep(j: Joint) {
    && (forall item | item in j.cut && item.Record? && LeadsWithId(item.fields) ::
          HasRecord(j.whole, item.fields[0].1) || item.fields[0].1 in Ids(j.fused))
    && (forall id | id in Ids(j.fused) :: HasRecord(j.whole, id) || HasRecord(j.cut, id))
  }

  lemma {:induction false} IdsArePtyIds(records: seq<map<string, string>>)
    ensures forall id | id in Ids(records) :: PtyId(id)
  {
    hide PtyId;
    if records != [] {
      IdsArePtyIds(records[1..]);
    }
  }

  /** The two sides of the condition, id by id. */
  lemma SeamsKeepMeans(j: Joint)
    ensures SeamsKeep(j) <==> forall id | PtyId(id) ::
      HasRecord(j.whole, id) || id in Ids(j.fused) <==> HasRecord(j.whole, id) || HasRecord(j.cut, id)
  {
    hide PtyId, Ids, HasRecord;
    IdsArePtyIds(j.fused);
    CutRecords(j);
  }

  lemma CutRecords(j: Joint)
    ensures forall id | PtyId(id) && HasRecord(j.cut, id) :: exists item :: item in j.cut && item.Record? && LeadsWithId(item.fields) && item.fields[0].1 == id
    ensures forall item | item in j.cut && item.Record? && LeadsWithId(item.fields) :: PtyId(item.fields[0].1) && HasRecord(j.cut, item.fields[0].1)
  {
    hide PtyId;
    forall id | PtyId(id) && HasRecord(j.cut, id)
      ensures exists item :: item in j.cut && item.Record? && LeadsWithId(item.fields) && item.fields[0].1 == id
    {
      var item :| item in j.cut && RecordOf(item, id);
      assert LeadsWithId(item.fields);
    }
    forall item | item in j.cut && item.Record? && LeadsWithId(item.fields)
      ensures HasRecord(j.cut, item.fields[0].1)
    {
      assert RecordOf(item, item.fields[0].1);
    }
  }

  /** Any number of texts: the parser on the joined message and the query on its parts report
      the same exits if and only if what the seams cut is reported elsewhere and what they
      fuse is reported anyway. */
  lemma JoinAgreesIff(items: seq<seq<Item>>, texts: seq<string>)
    requires AllCanonical(items, texts)
    ensures (forall id | PtyId(id) :: id in ExitedIds(Concat(texts)) <==> exists k | 0 <= k < |texts| :: HasBlock(texts[k], Exited, id))
      <==> SeamsKeep(Joined(items, texts))
  {
    hide PtyId, HasBlock, HasRecord, ExitedIds, ReadTexts, SeamsKeep, CanonicalItems, Rendered, Ids, Concat;
    var j := Joined(items, texts);
    SeamsKeepMeans(j);
    forall id | PtyId(id)
      ensures id in ExitedIds(Concat(texts)) <==> HasRecord(j.whole, id) || id in Ids(j.fused)
      ensures (exists k | 0 <= k < |texts| :: HasBlock(texts[k], Exited, id)) <==> HasRecord(j.whole, id) || HasRecord(j.cut, id)
    {
      JoinedReportsExactly(items, texts, id);
      PartsReport(items, texts, id);
    }
  }

  lemma PartsReport(items: seq<seq<Item>>, texts: seq<string>, id: string)
    requires AllCanonical(items, texts) && PtyId(id)
    ensures var j := Joined(items, texts);
      (exists k | 0 <= k < |texts| :: HasBlock(texts[k], Exited, id)) <==> HasRecord(j.whole, id) || HasRecord(j.cut, id)
  {
    hide PtyId, HasBlock, HasRecord, ReadTexts, CanonicalItems, Rendered, ReadLine, Flat;
    NoRecord(id);
    TextsAreKept(NOTHING, items, texts, id);
    FlatHasRecord(items, id);
    forall k | 0 <= k < |texts|
      ensures HasBlock(texts[k], Exited, id) <==> HasRecord(items[k], id)
    {
      BlockIffRecord(Exited, items[k], texts[k], id);
    }
  }

  /** Canonical texts that report joined what they report one by one. */
  ghost predicate KeepsReports(texts: seq<string>) {
    exists items :: AllCanonical(items, texts) && SeamsKeep(Joined(items, texts))
  }

  /** Clean seams keep every report. */
  lemma CleanJoinKeeps(items: seq<seq<Item>>, texts: seq<string>)
    requires AllCanonical(items, texts) && CleanJoin(Exited, texts)
    ensures SeamsKeep(Joined(items, texts))
  {
    hide PtyId, HasBlock, ExitedIds, CanonicalItems, Rendered, CleanJoin, Concat, Good, Joined, SeamsKeep;
    JoinAgreesIff(items, texts);
    forall k | 0 <= k < |items|
      ensures Good(Exited, items[k])
    {
      CanonicalIsGood(Exited, items[k]);
    }
    forall id | PtyId(id) {
      JoinedAgrees(texts, items, id);
    }
  }

  lemma ConcatTwo(text: string, more: string)
    ensures Concat([text, more]) == text + more
  {
    assert [text, more][1..] == [more] && [more][1..] == [];
    assert Concat([more]) == more + "" == more;
  }

  /** Two texts: the condition is that no report is lost. */
  lemma TwoTextsKeep(a: seq<Item>, text: string, b: seq<Item>, more: string)
    requires CanonicalItems(Exited, a) && Rendered(Exited, a, text)
    requires CanonicalItems(Exited, b) && Rendered(Exited, b, more)
    ensures SeamsKeep(Joined([a, b], [text, more])) <==> !LosesReport(a, text, b)
  {
    hide PtyId, HasBlock, ExitedIds, CanonicalItems, Rendered, Joined, SeamsKeep, LosesReport;
    var texts := [text, more];
    JoinAgreesIff([a, b], texts);
    PairAgreesIff(a, text, b, more);
    ConcatTwo(text, more);
    forall id
      ensures (exists k | 0 <= k < |texts| :: HasBlock(texts[k], Exited, id)) <==> HasBlock(text, Exited, id) || HasBlock(more, Exited, id)
    {
      assert texts[0] == text && texts[1] == more;
    }
  }
}
