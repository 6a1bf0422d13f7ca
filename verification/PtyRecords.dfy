/** Lifecycle records as a writer renders them, and what the parser reads back. */
module PtyRecords {
  import opened Wrappers
  import opened Text
  import opened PtyLifecycle

  /** A line of prose, or a record with its fields in order. */
  datatype Item = Prose(line: string) | Record(fields: seq<(string, string)>)

  function RenderFields(fields: seq<(string, string)>): string {
    if fields == [] then ""
    else fields[0].0 + ": " + fields[0].1 + "\n" + RenderFields(fields[1..])
  }

  function RenderItem(tag: Tag, item: Item): string {
    match item
    case Prose(line) => line + "\n"
    case Record(fields) => OpenTag(tag) + "\n" + (RenderFields(fields) + (CloseTag(tag) + "\n"))
  }

  function Render(tag: Tag, items: seq<Item>): string {
    if items == [] then "" else RenderItem(tag, items[0]) + Render(tag, items[1..])
  }

  predicate GoodField(f: (string, string)) {
    && f.0 != "" && ':' !in f.0 && '\n' !in f.0 && !IsSpace(f.0[0])
    && Tight(f.1) && SingleLine(f.1)
  }

  predicate GoodItem(tag: Tag, item: Item) {
    match item
    case Prose(line) => '\n' !in line && Trim(line) != OpenTag(tag) && Trim(line) != CloseTag(tag)
    case Record(fields) => forall f | f in fields :: GoodField(f)
  }

  predicate Good(tag: Tag, items: seq<Item>) {
    forall item | item in items :: GoodItem(tag, item)
  }

  function AddFields(m: map<string, string>, fields: seq<(string, string)>): map<string, string>
    decreases |fields|
  {
    if fields == [] then m else AddFields(m[fields[0].0 := fields[0].1], fields[1..])
  }

  function WrittenBy(item: Item): seq<map<string, string>> {
    if item.Record? then [AddFields(map[], item.fields)] else []
  }

  function Written(items: seq<Item>): seq<map<string, string>> {
    if items == [] then []
    else WrittenBy(items[0]) + Written(items[1..])
  }

  function ScanText(st: Scan, text: string, tag: Tag): Scan {
    ScanLines(st, Lines(text), tag)
  }

  lemma ScanFirstLine(st: Scan, line: string, rest: string, tag: Tag)
    requires '\n' !in line
    ensures ScanText(st, line + "\n" + rest, tag) == ScanText(ScanLine(st, line, tag), rest, tag)
  {
    LinesCons(line, rest);
    TrimDropCR(line);
  }

  lemma ScanNothing(st: Scan, tag: Tag)
    ensures ScanText(st, "", tag) == st
  {
    LinesCons("", "");
    TrimOfTight("");
    assert OpenTag(tag) != "" && CloseTag(tag) != "" && Field("") == None;
    assert ScanLine(st, "", tag) == st && [""][1..] == [];
  }

  lemma {:induction false} ColonAfter(key: string, rest: string)
    requires ':' !in key
    ensures Colon(key + ":" + rest) == |key|
  {
    if key != "" {
      assert (key + ":" + rest)[1..] == key[1..] + ":" + rest;
      ColonAfter(key[1..], rest);
    }
  }

  /** The trimmed form of a rendered field. */
  function FieldCore(f: (string, string)): string {
    f.0 + ":" + if f.1 == "" then "" else " " + f.1
  }

  lemma TrimField(f: (string, string))
    requires GoodField(f)
    ensures Trim(f.0 + ": " + f.1) == FieldCore(f)
  {
    hide Trim;
    var line, core := f.0 + ": " + f.1, FieldCore(f);
    if f.1 == "" {
      assert line == "" + core + " ";
      TrimOfPadded("", core, " ");
    } else {
      assert line == core;
      TrimOfTight(core);
    }
  }

  lemma ParseField(f: (string, string))
    requires GoodField(f)
    ensures Field(FieldCore(f)) == Some(f)
  {
    var core := FieldCore(f);
    var rest := if f.1 == "" then "" else " " + f.1;
    ColonAfter(f.0, rest);
    assert core == f.0 + ":" + rest;
    assert core[|f.0| + 1..] == rest && core[..|f.0|] == f.0;
    if f.1 != "" {
      TrimStartDrops(" ", f.1);
    }
  }

  lemma FieldLine(st: Scan, f: (string, string), tag: Tag)
    requires GoodField(f) && st.current.Some?
    ensures ScanLine(st, f.0 + ": " + f.1, tag) == st.(current := Some(st.current.value[f.0 := f.1]))
    ensures '\n' !in f.0 + ": " + f.1
  {
    hide Field, Trim, Tight;
    TrimField(f);
    ParseField(f);
    assert FieldCore(f)[|f.0|] == ':';
    assert ':' in FieldCore(f) && ':' !in OpenTag(tag) && ':' !in CloseTag(tag);
  }

  lemma {:induction false} ScanFields(st: Scan, fields: seq<(string, string)>, rest: string, tag: Tag)
    requires st.current.Some? && forall f | f in fields :: GoodField(f)
    ensures ScanText(st, RenderFields(fields) + rest, tag)
         == ScanText(st.(current := Some(AddFields(st.current.value, fields))), rest, tag)
    decreases |fields|
  {
    hide ScanText, ScanLine, GoodField;
    if fields == [] {
      assert RenderFields(fields) + rest == rest;
    } else {
      var line := fields[0].0 + ": " + fields[0].1;
      var tail := RenderFields(fields[1..]) + rest;
      assert RenderFields(fields) + rest == line + "\n" + tail;
      FieldLine(st, fields[0], tag);
      ScanFirstLine(st, line, tail, tag);
      ScanFields(ScanLine(st, line, tag), fields[1..], rest, tag);
    }
  }

  lemma TagsAreTight(tag: Tag)
    ensures Trim(OpenTag(tag)) == OpenTag(tag) && Trim(CloseTag(tag)) == CloseTag(tag)
    ensures OpenTag(tag) != CloseTag(tag) && '\n' !in OpenTag(tag) && '\n' !in CloseTag(tag)
  {
    TrimOfTight(OpenTag(tag));
    TrimOfTight(CloseTag(tag));
    assert OpenTag(tag)[1] == 'p' && CloseTag(tag)[1] == '/';
  }

  lemma ScanRecord(st: Scan, fields: seq<(string, string)>, rest: string, tag: Tag)
    requires forall f | f in fields :: GoodField(f)
    ensures ScanText(st, RenderItem(tag, Record(fields)) + rest, tag)
         == ScanText(Scan(st.out + [AddFields(map[], fields)], None), rest, tag)
  {
    hide ScanText, Trim, RenderFields, AddFields, GoodField, OpenTag, CloseTag;
    TagsAreTight(tag);
    var begun, ending := st.(current := Some(map[])), CloseTag(tag) + "\n" + rest;
    var tail := RenderFields(fields) + ending;
    assert RenderItem(tag, Record(fields)) + rest == OpenTag(tag) + "\n" + tail;
    ScanFirstLine(st, OpenTag(tag), tail, tag);
    ScanFields(begun, fields, ending, tag);
    ScanFirstLine(begun.(current := Some(AddFields(map[], fields))), CloseTag(tag), rest, tag);
  }

  lemma ItemSplit(tag: Tag, items: seq<Item>, rest: string)
    requires items != []
    ensures Render(tag, items) + rest == RenderItem(tag, items[0]) + (Render(tag, items[1..]) + rest)
  {
    hide RenderItem;
  }

  lemma ScanItem(st: Scan, item: Item, rest: string, tag: Tag)
    requires GoodItem(tag, item) && st.current.None?
    ensures ScanText(st, RenderItem(tag, item) + rest, tag) == ScanText(Scan(st.out + WrittenBy(item), None), rest, tag)
  {
    hide ScanText, Trim, RenderFields, AddFields, GoodField;
    match item
    case Prose(line) =>
      assert RenderItem(tag, item) + rest == line + "\n" + rest;
      ScanFirstLine(st, line, rest, tag);
      assert st.out + [] == st.out;
    case Record(fields) => ScanRecord(st, fields, rest, tag);
  }

  lemma {:induction false} ScanItems(st: Scan, items: seq<Item>, rest: string, tag: Tag)
    requires Good(tag, items) && st.current.None?
    ensures ScanText(st, Render(tag, items) + rest, tag) == ScanText(Scan(st.out + Written(items), None), rest, tag)
    decreases |items|
  {
    hide ScanText, RenderItem, GoodItem, WrittenBy;
    if items == [] {
      assert Render(tag, items) + rest == rest;
      assert st.out + Written(items) == st.out;
    } else {
      ItemSplit(tag, items, rest);
      ScanItem(st, items[0], Render(tag, items[1..]) + rest, tag);
      ScanItems(Scan(st.out + WrittenBy(items[0]), None), items[1..], rest, tag);
      assert st.out + WrittenBy(items[0]) + Written(items[1..]) == st.out + Written(items);
    }
  }

  // ---- Without the last line feed, and line by line ----

  /** A rendered text, with its last line feed or without. */
  predicate Rendered(tag: Tag, items: seq<Item>, text: string) {
    text == Render(tag, items) || text + "\n" == Render(tag, items)
  }

  /** Whole lines, if any. */
  predicate EndsInFeed(s: string) {
    s == "" || s[|s| - 1] == '\n'
  }

  function FirstLine(s: string): string {
    s[..LineEnd(s)]
  }

  function LastLine(s: string): string
    decreases |s|
  {
    if LineEnd(s) == |s| then s else LastLine(s[LineEnd(s) + 1..])
  }

  lemma {:induction false} LastLineSplits(s: string) returns (before: string)
    ensures s == before + LastLine(s) && EndsInFeed(before) && '\n' !in LastLine(s)
    decreases |s|
  {
    hide LineEnd;
    var n := LineEnd(s);
    if n == |s| {
      before := "";
      assert s[..n] == s;
    } else {
      var line, rest := s[..n], s[n + 1..];
      var more := LastLineSplits(rest);
      before := line + "\n" + more;
      assert s == line + "\n" + rest;
      assert line + "\n" + (more + LastLine(rest)) == before + LastLine(rest);
    }
  }

  lemma FeedIsFound(s: string)
    requires '\n' in s
    ensures LineEnd(s) < |s|
  {
    hide LineEnd;
    assert s[..|s|] == s;
  }

  /** Scanning goes on after whole lines as if the text began there. */
  lemma {:induction false} ScanAfterLines(st: Scan, before: string, rest: string, tag: Tag)
    requires EndsInFeed(before)
    ensures ScanText(st, before + rest, tag) == ScanText(ScanText(st, before, tag), rest, tag)
    decreases |before|
  {
    hide ScanText, ScanLine, LineEnd;
    if before == "" {
      ScanNothing(st, tag);
      assert before + rest == rest;
    } else {
      var n := LineEnd(before);
      assert before[|before| - 1] in before;
      FeedIsFound(before);
      var line, more := before[..n], before[n + 1..];
      assert before == line + "\n" + more;
      assert before + rest == line + "\n" + (more + rest);
      ScanFirstLine(st, line, more + rest, tag);
      ScanFirstLine(st, line, more, tag);
      ScanAfterLines(ScanLine(st, line, tag), more, rest, tag);
    }
  }

  lemma ScanOneLine(st: Scan, line: string, tag: Tag)
    requires '\n' !in line
    ensures ScanText(st, line, tag) == ScanLine(st, line, tag)
  {
    hide ScanLine;
    LinesCons(line, "");
    assert [line][1..] == [];
    assert ScanLines(ScanLine(st, line, tag), [], tag) == ScanLine(st, line, tag);
  }

  /** A last line feed makes no difference to the parser, on any text. */
  lemma FeedIgnored(st: Scan, text: string, tag: Tag)
    ensures ScanText(st, text + "\n", tag) == ScanText(st, text, tag)
  {
    hide ScanText, ScanLine, LastLine, EndsInFeed;
    var before := LastLineSplits(text);
    var line := LastLine(text);
    assert text + "\n" == before + (line + "\n" + "");
    ScanAfterLines(st, before, line + "\n" + "", tag);
    ScanAfterLines(st, before, line, tag);
    var at := ScanText(st, before, tag);
    ScanFirstLine(at, line, "", tag);
    ScanOneLine(at, line, tag);
    ScanNothing(ScanLine(at, line, tag), tag);
  }

  /** Between records the parser takes in a rendered text whole. */
  lemma ScanRendered(st: Scan, items: seq<Item>, text: string, tag: Tag)
    requires Good(tag, items) && Rendered(tag, items, text) && st.current.None?
    ensures ScanText(st, text, tag) == Scan(st.out + Written(items), None)
  {
    hide ScanText, Good, Render;
    ScanItems(st, items, "", tag);
    assert Render(tag, items) + "" == Render(tag, items);
    ScanNothing(Scan(st.out + Written(items), None), tag);
    if text != Render(tag, items) {
      FeedIgnored(st, text, tag);
    }
  }

  /** Whatever list of records is rendered, with prose that is not a tag line between them,
      and with or without the last line feed, the parser returns the same records in the
      same order. */
  lemma RecordsRoundTrip(tag: Tag, items: seq<Item>, text: string)
    requires Good(tag, items) && Rendered(tag, items, text)
    ensures Records(text, tag) == Written(items)
  {
    hide Good, Rendered, ScanLines;
    ScanRendered(Scan([], None), items, text, tag);
    assert [] + Written(items) == Written(items);
  }

  lemma {:induction false} RenderConcat(tag: Tag, a: seq<Item>, b: seq<Item>)
    ensures Render(tag, a + b) == Render(tag, a) + Render(tag, b)
  {
    if a == [] {
      assert a + b == b;
    } else {
      assert (a + b)[1..] == a[1..] + b;
      RenderConcat(tag, a[1..], b);
    }
  }
}
