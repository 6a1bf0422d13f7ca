/** A user message with two text parts: exactly when joining them loses an exit report. */
module PtyPairs {
  import opened Wrappers
  import opened Text
  import opened PtyLifecycle
  import opened PtyRecords
  import opened PtyQuery
  import opened PtyContract
  import opened PtySeams
  import opened Heal

  // ---- Single lines ----

  lemma NoPadBefore(pad: string, s: string)
    requires AllSpace(pad) && pad <= s && s != "" && !IsSpace(s[0])
    ensures pad == ""
  {
    assert pad == s[..|pad|];
  }

  lemma NoPadAfter(rest: string, pad: string)
    requires AllSpace(pad) && rest + pad != "" && !IsSpace((rest + pad)[|rest + pad| - 1])
    ensures pad == ""
  {
    assert (rest + pad)[|rest|..] == pad;
  }

  /** After a closing tag only space leaves a tag line. */
  lemma SpaceAfterClose(tag: Tag, q: string)
    requires TagLine(tag, CloseTag(tag) + q)
    ensures AllSpace(q)
  {
    hide Trim, AllSpace;
    var s := CloseTag(tag) + q;
    var left, right := TrimSplits(s);
    assert s[0] == '<' && s[1] == '/' && OpenTag(tag)[1] == 'p';
    assert left <= s by { assert s == left + (Trim(s) + right); }
    NoPadBefore(left, s);
    assert s == Trim(s) + right;
    assert s[1] == Trim(s)[1];
    assert s[|CloseTag(tag)|..] == q;
  }

  /** Before an opening tag only space leaves a tag line. */
  lemma SpaceBeforeOpen(tag: Tag, p: string)
    requires TagLine(tag, p + OpenTag(tag))
    ensures AllSpace(p)
  {
    hide Trim, AllSpace;
    var s, n := p + OpenTag(tag), |OpenTag(tag)|;
    var left, right := TrimSplits(s);
    assert s[|s| - 1] == '>' && s[|s| - n] == '<' && |CloseTag(tag)| == n + 1 && CloseTag(tag)[1] == '/';
    NoPadAfter(left + Trim(s), right);
    assert s == left + Trim(s);
    assert s[|s| - n] == Trim(s)[|Trim(s)| - n];
    assert s[..|s| - n] == p;
  }

  lemma BlankNextToTag(tag: Tag, blank: string)
    requires AllSpace(blank)
    ensures Trim(CloseTag(tag) + blank) == CloseTag(tag) && Trim(blank + OpenTag(tag)) == OpenTag(tag)
  {
    hide Trim, AllSpace, OpenTag, CloseTag;
    TagsAreTight(tag);
    TrimBeforeBlank(CloseTag(tag), blank);
    TrimBeforeBlank(OpenTag(tag), blank);
  }

  /** Two tags in a row are no field either. */
  lemma FusedTags(st: Scan, tag: Tag)
    ensures ScanLine(st, CloseTag(tag) + OpenTag(tag), tag) == st
  {
    var s := CloseTag(tag) + OpenTag(tag);
    TrimOfTight(s);
    NoColon(s);
    assert |s| > |CloseTag(tag)| > |OpenTag(tag)|;
  }

  lemma {:induction false} NoColon(s: string)
    requires ':' !in s
    ensures Colon(s) == |s|
  {
    if s != "" {
      NoColon(s[1..]);
    }
  }

  // ---- Records without one of their tags ----

  lemma OpenRecord(st: Scan, fields: seq<(string, string)>, rest: string, tag: Tag)
    requires forall f | f in fields :: GoodField(f)
    ensures ScanText(st, OpenTag(tag) + "\n" + (RenderFields(fields) + rest), tag)
         == ScanText(Scan(st.out, Some(AddFields(map[], fields))), rest, tag)
  {
    hide ScanText, Trim, RenderFields, AddFields, GoodField, OpenTag, CloseTag;
    TagsAreTight(tag);
    ScanFirstLine(st, OpenTag(tag), RenderFields(fields) + rest, tag);
    ScanFields(Scan(st.out, Some(map[])), fields, rest, tag);
  }

  lemma FieldIsIgnored(st: Scan, f: (string, string), tag: Tag)
    requires GoodField(f) && st.current.None?
    ensures ScanLine(st, FieldLineOf(f), tag) == st && '\n' !in FieldLineOf(f)
  {
    hide Trim, Tight, Field;
    TrimField(f);
    assert FieldCore(f)[|f.0|] == ':';
    assert ':' in FieldCore(f) && ':' !in OpenTag(tag) && ':' !in CloseTag(tag);
  }

  lemma {:induction false} FieldsAreIgnored(st: Scan, fields: seq<(string, string)>, rest: string, tag: Tag)
    requires st.current.None? && forall f | f in fields :: GoodField(f)
    ensures ScanText(st, RenderFields(fields) + rest, tag) == ScanText(st, rest, tag)
    decreases |fields|
  {
    hide ScanText, ScanLine, GoodField;
    if fields == [] {
      assert RenderFields(fields) + rest == rest;
    } else {
      var line, tail := FieldLineOf(fields[0]), RenderFields(fields[1..]) + rest;
      assert RenderFields(fields) + rest == line + "\n" + tail;
      FieldIsIgnored(st, fields[0], tag);
      ScanFirstLine(st, line, tail, tag);
      FieldsAreIgnored(st, fields[1..], rest, tag);
    }
  }

  lemma CloseLine(st: Scan, rest: string, tag: Tag)
    ensures ScanText(st, CloseTag(tag) + "\n" + rest, tag)
         == ScanText(Scan(if st.current.Some? then st.out + [st.current.value] else st.out, None), rest, tag)
  {
    hide ScanText, Trim, OpenTag, CloseTag;
    TagsAreTight(tag);
    ScanFirstLine(st, CloseTag(tag), rest, tag);
  }

  lemma ProseLine(st: Scan, tag: Tag, line: string, rest: string)
    requires GoodItem(tag, Prose(line))
    ensures RenderItem(tag, Prose(line)) + rest == line + "\n" + rest
    ensures '\n' !in line && ScanLine(st, line, tag).out == st.out
  {
    hide Trim, Field;
  }

  lemma RecordFields(tag: Tag, fields: seq<(string, string)>)
    requires GoodItem(tag, Record(fields))
    ensures forall f | f in fields :: GoodField(f)
  {
    hide GoodField;
  }

  lemma ScanItemOut(st: Scan, item: Item, rest: string, tag: Tag) returns (after: Scan)
    requires GoodItem(tag, item)
    ensures ScanText(st, RenderItem(tag, item) + rest, tag) == ScanText(after, rest, tag) && after.out == st.out + WrittenBy(item)
  {
    hide ScanText, ScanLine, RenderItem, AddFields, GoodItem;
    match item
    case Prose(line) =>
      ProseLine(st, tag, line, rest);
      ScanFirstLine(st, line, rest, tag);
      after := ScanLine(st, line, tag);
    case Record(fields) =>
      RecordFields(tag, fields);
      ScanRecord(st, fields, rest, tag);
      after := Scan(st.out + [AddFields(map[], fields)], None);
  }

  /** Rendered items are read alike whatever stands open before them. */
  lemma {:induction false} ScanOut(st: Scan, items: seq<Item>, tag: Tag)
    requires Good(tag, items)
    ensures ScanText(st, Render(tag, items), tag).out == st.out + Written(items)
    decreases |items|
  {
    hide ScanText, RenderItem, GoodItem, WrittenBy;
    if items == [] {
      ScanNothing(st, tag);
    } else {
      var after := ScanItemOut(st, items[0], Render(tag, items[1..]), tag);
      ScanOut(after, items[1..], tag);
      assert st.out + WrittenBy(items[0]) + Written(items[1..]) == st.out + Written(items);
    }
  }

  // ---- The joined pair ----

  function Init(items: seq<Item>): seq<Item>
    requires items != []
  {
    items[..|items| - 1]
  }

  function Final(items: seq<Item>): Item
    requires items != []
  {
    items[|items| - 1]
  }

  /** What the parser reads where an item without its last line feed runs into another. */
  function AtSeam(x: Item, y: Item): seq<map<string, string>> {
    match (x, y)
    case (Record(fields), Prose(q)) => if AllSpace(q) then [AddFields(map[], fields)] else []
    case (Record(fields), Record(more)) => [AddFields(AddFields(map[], fields), more)]
    case (Prose(p), Record(more)) => if AllSpace(p) then [AddFields(map[], more)] else []
    case (Prose(_), Prose(_)) => []
  }

  /** An item as it ends a text without a last line feed. */
  function Cut(tag: Tag, x: Item): string {
    match x
    case Prose(p) => p
    case Record(fields) => OpenTag(tag) + "\n" + (RenderFields(fields) + CloseTag(tag))
  }

  lemma CutItem(tag: Tag, x: Item)
    ensures RenderItem(tag, x) == Cut(tag, x) + "\n"
  {
  }

  lemma SeamAfterProse(st: Scan, p: string, y: Item, rest: string, tag: Tag) returns (current: Option<map<string, string>>)
    requires st.current.None? && GoodItem(tag, Prose(p)) && GoodItem(tag, y)
    ensures ScanText(st, p + (RenderItem(tag, y) + rest), tag) == ScanText(Scan(st.out + AtSeam(Prose(p), y), current), rest, tag)
  {
    hide ScanText, Trim, AllSpace, RenderFields, AddFields, GoodField, OpenTag, CloseTag, Field;
    match y
    case Prose(q) =>
      assert p + (RenderItem(tag, y) + rest) == (p + q) + "\n" + rest;
      ScanFirstLine(st, p + q, rest, tag);
      current := ScanLine(st, p + q, tag).current;
      assert ScanLine(st, p + q, tag) == Scan(st.out + AtSeam(Prose(p), y), current);
    case Record(more) =>
      current := None;
      TagsAreTight(tag);
      var tail := RenderFields(more) + (CloseTag(tag) + "\n" + rest);
      assert p + (RenderItem(tag, y) + rest) == (p + OpenTag(tag)) + "\n" + tail;
      ScanFirstLine(st, p + OpenTag(tag), tail, tag);
      if AllSpace(p) {
        BlankNextToTag(tag, p);
        ScanFields(Scan(st.out, Some(map[])), more, CloseTag(tag) + "\n" + rest, tag);
        CloseLine(Scan(st.out, Some(AddFields(map[], more))), rest, tag);
      } else {
        assert !TagLine(tag, p + OpenTag(tag)) by {
          if TagLine(tag, p + OpenTag(tag)) { SpaceBeforeOpen(tag, p); }
        }
        FieldsAreIgnored(st, more, CloseTag(tag) + "\n" + rest, tag);
        CloseLine(st, rest, tag);
        assert st.out + [] == st.out;
      }
  }

  lemma SeamAfterRecord(st: Scan, fields: seq<(string, string)>, y: Item, rest: string, tag: Tag)
    returns (current: Option<map<string, string>>)
    requires GoodItem(tag, Record(fields)) && GoodItem(tag, y)
    ensures ScanText(st, Cut(tag, Record(fields)) + (RenderItem(tag, y) + rest), tag)
         == ScanText(Scan(st.out + AtSeam(Record(fields), y), current), rest, tag)
  {
    hide ScanText, Trim, AllSpace, RenderFields, AddFields, GoodField, OpenTag, CloseTag, Field;
    var ending := CloseTag(tag) + (RenderItem(tag, y) + rest);
    assert Cut(tag, Record(fields)) + (RenderItem(tag, y) + rest) == OpenTag(tag) + "\n" + (RenderFields(fields) + ending);
    OpenRecord(st, fields, ending, tag);
    TagsAreTight(tag);
    var open := Scan(st.out, Some(AddFields(map[], fields)));
    match y
    case Prose(q) =>
      assert ending == (CloseTag(tag) + q) + "\n" + rest;
      ScanFirstLine(open, CloseTag(tag) + q, rest, tag);
      current := ScanLine(open, CloseTag(tag) + q, tag).current;
      if AllSpace(q) {
        BlankNextToTag(tag, q);
      } else {
        assert !TagLine(tag, CloseTag(tag) + q) by {
          if TagLine(tag, CloseTag(tag) + q) { SpaceAfterClose(tag, q); }
        }
      }
      assert ScanLine(open, CloseTag(tag) + q, tag) == Scan(st.out + AtSeam(Record(fields), y), current);
    case Record(more) =>
      current := None;
      var tail := RenderFields(more) + (CloseTag(tag) + "\n" + rest);
      assert ending == (CloseTag(tag) + OpenTag(tag)) + "\n" + tail;
      ScanFirstLine(open, CloseTag(tag) + OpenTag(tag), tail, tag);
      FusedTags(open, tag);
      ScanFields(open, more, CloseTag(tag) + "\n" + rest, tag);
      CloseLine(Scan(st.out, Some(AddFields(AddFields(map[], fields), more))), rest, tag);
  }

  lemma OpenEnd(tag: Tag, items: seq<Item>, text: string)
    requires Rendered(tag, items, text) && text != Render(tag, items)
    ensures items != [] && text == Render(tag, Init(items)) + Cut(tag, Final(items))
  {
    hide RenderItem, Cut;
    var n := |items| - 1;
    assert items != [] by { RenderNothing(tag); }
    RenderAround(tag, items, n);
    RenderNothing(tag);
    CutItem(tag, items[n]);
    assert items[n + 1..] == [];
    assert text + "\n" == (Render(tag, Init(items)) + Cut(tag, Final(items))) + "\n";
    assert text == (text + "\n")[..|text|];
  }

  lemma RenderNothing(tag: Tag)
    ensures Render(tag, []) == ""
  {
  }

  /** What the parser reads in two texts joined. */
  function PairWritten(tag: Tag, a: seq<Item>, text: string, b: seq<Item>): seq<map<string, string>> {
    if a == [] || b == [] || text == Render(tag, a) then Written(a) + Written(b)
    else Written(Init(a)) + AtSeam(Final(a), b[0]) + Written(b[1..])
  }

  lemma ClosedPair(st: Scan, a: seq<Item>, text: string, b: seq<Item>, tag: Tag)
    requires Good(tag, a) && Good(tag, b) && Rendered(tag, a, text) && st.current.None?
    requires b == [] || text == Render(tag, a)
    ensures ScanText(st, text + Render(tag, b), tag).out == st.out + (Written(a) + Written(b))
  {
    hide ScanText, Good, Rendered, Written;
    RenderNothing(tag);
    NothingWritten();
    if b == [] {
      ScanRendered(st, a, text, tag);
      assert text + "" == text;
    } else {
      ScanItems(st, a, Render(tag, b), tag);
      ScanOut(Scan(st.out + Written(a), None), b, tag);
    }
  }

  lemma OpenPair(st: Scan, a: seq<Item>, text: string, b: seq<Item>, tag: Tag)
    requires Good(tag, a) && Good(tag, b) && Rendered(tag, a, text) && st.current.None?
    requires b != [] && text != Render(tag, a)
    ensures a != [] && ScanText(st, text + Render(tag, b), tag).out == st.out + (Written(Init(a)) + AtSeam(Final(a), b[0]) + Written(b[1..]))
  {
    hide ScanText, GoodItem, Rendered, Written, AtSeam, RenderItem, Cut;
    OpenEnd(tag, a, text);
    var rest := Render(tag, b[1..]);
    var seam := Cut(tag, Final(a)) + (RenderItem(tag, b[0]) + rest);
    assert text + Render(tag, b) == Render(tag, Init(a)) + seam;
    assert Good(tag, Init(a)) && Good(tag, b[1..]) && GoodItem(tag, Final(a)) && GoodItem(tag, b[0]);
    ScanItems(st, Init(a), seam, tag);
    var at := Scan(st.out + Written(Init(a)), None);
    var current := SeamAfter(at, Final(a), b[0], rest, tag);
    ScanOut(Scan(at.out + AtSeam(Final(a), b[0]), current), b[1..], tag);
  }

  lemma SeamAfter(st: Scan, x: Item, y: Item, rest: string, tag: Tag) returns (current: Option<map<string, string>>)
    requires st.current.None? && GoodItem(tag, x) && GoodItem(tag, y)
    ensures ScanText(st, Cut(tag, x) + (RenderItem(tag, y) + rest), tag) == ScanText(Scan(st.out + AtSeam(x, y), current), rest, tag)
  {
    hide ScanText, GoodItem, AtSeam, RenderItem;
    match x
    case Prose(p) => current := SeamAfterProse(st, p, y, rest, tag);
    case Record(fields) => current := SeamAfterRecord(st, fields, y, rest, tag);
  }

  lemma PairRecords(tag: Tag, a: seq<Item>, text: string, b: seq<Item>, more: string)
    requires Good(tag, a) && Good(tag, b) && Rendered(tag, a, text) && Rendered(tag, b, more)
    ensures Records(text + more, tag) == PairWritten(tag, a, text, b)
  {
    hide ScanLines, Good, Written, AtSeam, Render;
    var st := Scan([], None);
    if more != Render(tag, b) {
      FeedIgnored(st, text + more, tag);
      assert text + more + "\n" == text + (more + "\n");
    }
    if b == [] || text == Render(tag, a) {
      ClosedPair(st, a, text, b, tag);
    } else {
      OpenPair(st, a, text, b, tag);
    }
    assert [] + PairWritten(tag, a, text, b) == PairWritten(tag, a, text, b);
  }

  // ---- Whose ids get lost ----

  lemma {:induction false} IdsConcat(a: seq<map<string, string>>, b: seq<map<string, string>>)
    ensures Ids(a + b) == Ids(a) + Ids(b)
  {
    hide HasId;
    if a == [] {
      assert a + b == b;
    } else {
      assert (a + b)[1..] == a[1..] + b;
      IdsConcat(a[1..], b);
    }
  }

  /** A record without a last line feed runs into something on the next line, which keeps the
      closing tag from being one: prose, or a record that brings its own id field. */
  predicate CutsFinal(x: Item, y: Item) {
    x.Record? && match y
                 case Prose(q) => !AllSpace(q)
                 case Record(more) => more != [] && more[0].0 == "ID"
  }

  /** Prose without a last line feed keeps an opening tag from being one. */
  predicate CutsFirst(x: Item, y: Item) {
    x.Prose? && !AllSpace(x.line) && y.Record?
  }

  lemma SingleId(m: map<string, string>, id: string)
    ensures id in Ids([m]) <==> HasId(m) && m["ID"] == id
  {
    assert [m][1..] == [];
  }

  lemma FusedRecordId(fields: seq<(string, string)>, more: seq<(string, string)>, tag: Tag)
    requires CanonicalRecord(tag, fields) && CanonicalRecord(tag, more)
    ensures var m := AddFields(AddFields(map[], fields), more);
      if more != [] && more[0].0 == "ID" then HasId(m) <==> LeadsWithId(more)
      else HasId(m) <==> LeadsWithId(fields)
    ensures var m := AddFields(AddFields(map[], fields), more);
      HasId(m) ==> m["ID"] == if more != [] && more[0].0 == "ID" then more[0].1 else fields[0].1
  {
    hide PtyId, PlainLine, TakenForId;
    RecordId(tag, fields);
    var m := AddFields(map[], fields);
    if more != [] && more[0].0 == "ID" {
      AddFieldsKeeps(m[more[0].0 := more[0].1], more[1..], "ID");
    } else {
      AddFieldsKeeps(m, more, "ID");
    }
  }

  lemma SeamIds(tag: Tag, x: Item, y: Item, id: string)
    requires CanonicalItem(tag, x) && CanonicalItem(tag, y) && PtyId(id)
    ensures id in Ids(AtSeam(x, y)) <==> (RecordOf(x, id) && !CutsFinal(x, y)) || (RecordOf(y, id) && !CutsFirst(x, y))
  {
    hide PtyId, AddFields, HasId, AllSpace, GoodItem, CanonicalRecord, Ids;
    assert Ids([]) == [] by { NoIds(); }
    match (x, y)
    case (Record(fields), Prose(q)) =>
      RecordId(tag, fields);
      SingleId(AddFields(map[], fields), id);
    case (Record(fields), Record(more)) =>
      FusedRecordId(fields, more, tag);
      SingleId(AddFields(AddFields(map[], fields), more), id);
    case (Prose(p), Record(more)) =>
      RecordId(tag, more);
      SingleId(AddFields(map[], more), id);
    case (Prose(_), Prose(_)) =>
  }

  lemma NoIds()
    ensures Ids([]) == []
  {
  }

  /** Two texts meet on one line. */
  predicate Meet(a: seq<Item>, text: string, b: seq<Item>) {
    a != [] && b != [] && text != Render(Exited, a)
  }

  /** The ids the joined text still reports. */
  predicate PairReports(a: seq<Item>, text: string, b: seq<Item>, id: string) {
    if !Meet(a, text, b) then HasRecord(a, id) || HasRecord(b, id)
    else
      var x, y := Final(a), b[0];
      || HasRecord(Init(a), id) || HasRecord(b[1..], id)
      || (RecordOf(x, id) && !CutsFinal(x, y)) || (RecordOf(y, id) && !CutsFirst(x, y))
  }

  lemma PairFinds(a: seq<Item>, text: string, b: seq<Item>, more: string, id: string)
    requires CanonicalItems(Exited, a) && Rendered(Exited, a, text)
    requires CanonicalItems(Exited, b) && Rendered(Exited, b, more) && PtyId(id)
    ensures id in ExitedIds(text + more) <==> PairReports(a, text, b, id)
  {
    hide CanonicalItem, PtyId, AtSeam, Rendered, HasRecord, RecordOf, CutsFinal, CutsFirst, Written, Ids, Records, Render;
    CanonicalIsGood(Exited, a);
    CanonicalIsGood(Exited, b);
    PairRecords(Exited, a, text, b, more);
    if Meet(a, text, b) {
      var x, y, front, back := Final(a), b[0], Init(a), b[1..];
      assert CanonicalItem(Exited, x) && CanonicalItem(Exited, y) && CanonicalItems(Exited, front) && CanonicalItems(Exited, back);
      IdsConcat(Written(front) + AtSeam(x, y), Written(back));
      IdsConcat(Written(front), AtSeam(x, y));
      FoundIn(front, id);
      FoundIn(back, id);
      SeamIds(Exited, x, y, id);
    } else {
      IdsConcat(Written(a), Written(b));
      FoundIn(a, id);
      FoundIn(b, id);
    }
  }

  lemma FoundIn(items: seq<Item>, id: string)
    requires CanonicalItems(Exited, items) && PtyId(id)
    ensures id in Ids(Written(items)) <==> HasRecord(items, id)
  {
    hide CanonicalItem, PtyId, Written, Ids, HasRecord;
    IdsOfWritten(Exited, items);
    RecordIdsMeans(items, id);
  }

  /** A cut record's id that nothing else in the message reports. */
  predicate LosesReport(a: seq<Item>, text: string, b: seq<Item>) {
    Meet(a, text, b) &&
    var x, y := Final(a), b[0];
    || (CutsFinal(x, y) && LeadsWithId(x.fields) && !HasRecord(Init(a), x.fields[0].1) && !HasRecord(b, x.fields[0].1))
    || (CutsFirst(x, y) && LeadsWithId(y.fields) && !HasRecord(a, y.fields[0].1) && !HasRecord(b[1..], y.fields[0].1))
  }

  lemma SplitRecords(a: seq<Item>, b: seq<Item>, id: string)
    ensures a != [] ==> (HasRecord(a, id) <==> HasRecord(Init(a), id) || RecordOf(Final(a), id))
    ensures b != [] ==> (HasRecord(b, id) <==> RecordOf(b[0], id) || HasRecord(b[1..], id))
  {
    hide RecordOf;
    if a != [] {
      assert a == Init(a) + [Final(a)];
      assert forall item :: item in a <==> item in Init(a) || item == Final(a);
      assert Final(a) in a;
    }
    if b != [] {
      assert forall item :: item in b <==> item == b[0] || item in b[1..];
      assert b[0] in b;
    }
  }

  lemma PairLosesOnly(a: seq<Item>, text: string, b: seq<Item>, id: string)
    requires PtyId(id) && (HasRecord(a, id) || HasRecord(b, id)) && !PairReports(a, text, b, id)
    ensures LosesReport(a, text, b)
  {
    hide HasRecord, PtyId, AllSpace;
    SplitRecords(a, b, id);
    CutsExclude(Final(a), b[0]);
  }

  lemma CutsExclude(x: Item, y: Item)
    ensures !(CutsFinal(x, y) && CutsFirst(x, y))
    ensures CutsFinal(x, y) ==> forall id :: RecordOf(x, id) && RecordOf(y, id) ==> x.fields[0] == y.fields[0]
  {
  }

  lemma LossIsMissed(a: seq<Item>, text: string, b: seq<Item>) returns (id: string)
    requires LosesReport(a, text, b)
    ensures PtyId(id) && (HasRecord(a, id) || HasRecord(b, id)) && !PairReports(a, text, b, id)
  {
    hide HasRecord, PtyId, AllSpace;
    var x, y := Final(a), b[0];
    id := if CutsFinal(x, y) && LeadsWithId(x.fields) && !HasRecord(Init(a), x.fields[0].1) && !HasRecord(b, x.fields[0].1)
      then x.fields[0].1 else y.fields[0].1;
    SplitRecords(a, b, id);
  }

  /** The parser on the joined message and the query on its two parts report the same exits if
      and only if the seam cuts no record whose id nothing else in the message reports. */
  lemma PairAgreesIff(a: seq<Item>, text: string, b: seq<Item>, more: string)
    requires CanonicalItems(Exited, a) && Rendered(Exited, a, text)
    requires CanonicalItems(Exited, b) && Rendered(Exited, b, more)
    ensures (forall id | PtyId(id) :: id in ExitedIds(text + more) <==> HasBlock(text, Exited, id) || HasBlock(more, Exited, id))
      <==> !LosesReport(a, text, b)
  {
    hide CanonicalItems, Rendered, PtyId, HasBlock, HasRecord, PairReports, LosesReport, ExitedIds;
    forall id | PtyId(id)
      ensures id in ExitedIds(text + more) <==> PairReports(a, text, b, id)
      ensures HasBlock(text, Exited, id) <==> HasRecord(a, id)
      ensures HasBlock(more, Exited, id) <==> HasRecord(b, id)
      ensures PairReports(a, text, b, id) ==> HasRecord(a, id) || HasRecord(b, id)
    {
      PairFinds(a, text, b, more, id);
      BlockIffRecord(Exited, a, text, id);
      BlockIffRecord(Exited, b, more, id);
      PairAddsNothing(a, text, b, id);
    }
    if LosesReport(a, text, b) {
      var id := LossIsMissed(a, text, b);
    } else {
      forall id | PtyId(id) && (HasRecord(a, id) || HasRecord(b, id))
        ensures PairReports(a, text, b, id)
      {
        if !PairReports(a, text, b, id) {
          PairLosesOnly(a, text, b, id);
        }
      }
    }
  }

  lemma PairAddsNothing(a: seq<Item>, text: string, b: seq<Item>, id: string)
    ensures PairReports(a, text, b, id) ==> HasRecord(a, id) || HasRecord(b, id)
  {
    hide HasRecord, CutsFinal, CutsFirst;
    SplitRecords(a, b, id);
  }
}
