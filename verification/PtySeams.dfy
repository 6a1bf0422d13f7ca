/** The plugin joins the text parts of a user message with nothing in between, the query looks
    at each part by itself. What a seam without a line feed can do to a record. */
module PtySeams {
  import opened Wrappers
  import opened Text
  import opened PtyLifecycle
  import opened PtyRecords
  import opened PtyQuery
  import opened PtyContract
  import opened Heal

  predicate TagLine(tag: Tag, line: string) {
    Trim(line) == OpenTag(tag) || Trim(line) == CloseTag(tag)
  }

  /** The last line of one text and the first of the next make one line. It is a tag line just
      when one of them is, with nothing but space from the other. */
  predicate CleanSeam(tag: Tag, last: string, first: string) {
    && (TagLine(tag, last) ==> AllSpace(first))
    && (TagLine(tag, first) ==> AllSpace(last))
    && (TagLine(tag, last + first) ==> TagLine(tag, last) || TagLine(tag, first))
  }

  function Concat(texts: seq<string>): string {
    if texts == [] then "" else texts[0] + Concat(texts[1..])
  }

  predicate CleanJoin(tag: Tag, texts: seq<string>) {
    texts == [] || (CleanSeam(tag, LastLine(texts[0]), FirstLine(Concat(texts[1..]))) && CleanJoin(tag, texts[1..]))
  }

  // ---- Clean seams ----

  lemma BlankTrims(s: string)
    requires AllSpace(s)
    ensures Trim(s) == ""
  {
    assert s + "" + "" == s;
    TrimOfPadded(s, "", "");
  }

  lemma BlankIsQuiet(st: Scan, s: string, tag: Tag)
    requires AllSpace(s)
    ensures ScanLine(st, s, tag) == st
  {
    BlankTrims(s);
    assert OpenTag(tag) != "" && CloseTag(tag) != "" && Field("") == None;
  }

  lemma TagsDiffer(tag: Tag)
    ensures OpenTag(tag) != CloseTag(tag)
  {
    assert OpenTag(tag)[1] != CloseTag(tag)[1];
  }

  lemma TrimBeforeBlank(s: string, blank: string)
    requires AllSpace(blank)
    ensures Trim(s + blank) == Trim(s) && Trim(blank + s) == Trim(s)
  {
    TrimPadRight(s, blank);
    var left, right := TrimSplits(s);
    assert blank + s == (blank + left) + Trim(s) + right;
    TrimOfPadded(blank + left, Trim(s), right);
  }

  /** One line or two make no difference at a clean seam between records. */
  lemma SeamLine(st: Scan, last: string, first: string, tag: Tag)
    requires CleanSeam(tag, last, first) && ScanLine(st, last, tag).current.None?
    ensures ScanLine(st, last + first, tag) == ScanLine(ScanLine(st, last, tag), first, tag)
  {
    hide Trim, AllSpace, OpenTag, CloseTag, Field;
    TagsDiffer(tag);
    if TagLine(tag, last) {
      TrimBeforeBlank(last, first);
      BlankIsQuiet(ScanLine(st, last, tag), first, tag);
    } else if TagLine(tag, first) {
      TrimBeforeBlank(first, last);
    }
  }

  lemma FirstLineSplits(s: string) returns (more: string)
    ensures '\n' !in FirstLine(s) && (s == FirstLine(s) || s == FirstLine(s) + "\n" + more)
  {
    var n := LineEnd(s);
    more := if n == |s| then "" else s[n + 1..];
  }

  /** Across a clean seam the parser goes on as if the second text began there. */
  lemma ScanSeam(st: Scan, a: string, b: string, tag: Tag)
    requires CleanSeam(tag, LastLine(a), FirstLine(b)) && ScanText(st, a, tag).current.None?
    ensures ScanText(st, a + b, tag) == ScanText(ScanText(st, a, tag), b, tag)
  {
    hide ScanText, ScanLine, CleanSeam, LastLine, FirstLine, EndsInFeed;
    var before := LastLineSplits(a);
    var last, first := LastLine(a), FirstLine(b);
    var more := FirstLineSplits(b);
    var at := ScanText(st, before, tag);
    ScanAfterLines(st, before, last, tag);
    ScanAfterLines(st, before, last + b, tag);
    assert a + b == before + (last + b);
    ScanOneLine(at, last, tag);
    SeamLine(at, last, first, tag);
    if b == first {
      ScanOneLine(at, last + first, tag);
      ScanOneLine(ScanLine(at, last, tag), first, tag);
    } else {
      assert last + b == (last + first) + "\n" + more;
      ScanFirstLine(at, last + first, more, tag);
      ScanFirstLine(ScanLine(at, last, tag), first, more, tag);
    }
  }

  /** Texts of records, joined. */
  predicate AllRendered(tag: Tag, texts: seq<string>, items: seq<seq<Item>>) {
    |items| == |texts| && forall k | 0 <= k < |texts| :: Good(tag, items[k]) && Rendered(tag, items[k], texts[k])
  }

  function Flat(items: seq<seq<Item>>): seq<Item> {
    if items == [] then [] else items[0] + Flat(items[1..])
  }

  lemma {:induction false} WrittenConcat(a: seq<Item>, b: seq<Item>)
    ensures Written(a + b) == Written(a) + Written(b)
  {
    if a == [] {
      assert a + b == b;
    } else {
      assert (a + b)[1..] == a[1..] + b;
      WrittenConcat(a[1..], b);
    }
  }

  lemma {:induction false} ScanJoined(st: Scan, texts: seq<string>, items: seq<seq<Item>>, tag: Tag)
    requires AllRendered(tag, texts, items) && CleanJoin(tag, texts) && st.current.None?
    ensures ScanText(st, Concat(texts), tag) == Scan(st.out + Written(Flat(items)), None)
    decreases |texts|
  {
    hide ScanText, Good, Rendered, CleanSeam, Written;
    if texts == [] {
      ScanNothing(st, tag);
      assert Written(Flat(items)) == [] by { NothingWritten(); }
    } else {
      ScanRendered(st, items[0], texts[0], tag);
      ScanSeam(st, texts[0], Concat(texts[1..]), tag);
      ScanJoined(Scan(st.out + Written(items[0]), None), texts[1..], items[1..], tag);
      WrittenConcat(items[0], Flat(items[1..]));
    }
  }

  lemma NothingWritten()
    ensures Written([]) == []
  {
  }

  /** At clean seams the joined text reports what its parts report. */
  lemma JoinedAgrees(texts: seq<string>, items: seq<seq<Item>>, id: string)
    requires AllRendered(Exited, texts, items) && CleanJoin(Exited, texts) && PtyId(id)
    requires forall k | 0 <= k < |items| :: CanonicalItems(Exited, items[k])
    ensures id in ExitedIds(Concat(texts)) <==> exists k | 0 <= k < |texts| :: HasBlock(texts[k], Exited, id)
  {
    hide Good, Rendered, CleanJoin, CanonicalItems, PtyId, HasRecord, HasBlock, ScanLines, Written, Flat;
    ScanJoined(Scan([], None), texts, items, Exited);
    assert [] + Written(Flat(items)) == Written(Flat(items));
    FlatIsCanonical(Exited, items);
    IdsOfWritten(Exited, Flat(items));
    RecordIdsMeans(Flat(items), id);
    FlatHasRecord(items, id);
    forall k | 0 <= k < |texts|
      ensures HasBlock(texts[k], Exited, id) <==> HasRecord(items[k], id)
    {
      BlockIffRecord(Exited, items[k], texts[k], id);
    }
  }

  lemma {:induction false} FlatIsCanonical(tag: Tag, items: seq<seq<Item>>)
    requires forall k | 0 <= k < |items| :: CanonicalItems(tag, items[k])
    ensures CanonicalItems(tag, Flat(items))
  {
    hide CanonicalItem;
    if items != [] {
      assert CanonicalItems(tag, items[0]);
      FlatIsCanonical(tag, items[1..]);
    }
  }

  lemma HasRecordConcat(a: seq<Item>, b: seq<Item>, id: string)
    ensures HasRecord(a + b, id) <==> HasRecord(a, id) || HasRecord(b, id)
  {
    hide RecordOf;
    assert forall item :: item in a + b <==> item in a || item in b;
  }

  lemma {:induction false} FlatHasRecord(items: seq<seq<Item>>, id: string)
    ensures HasRecord(Flat(items), id) <==> exists k | 0 <= k < |items| :: HasRecord(items[k], id)
  {
    hide HasRecord;
    if items == [] {
      assert !HasRecord([], id) by { NoRecord(id); }
    } else {
      FlatHasRecord(items[1..], id);
      HasRecordConcat(items[0], Flat(items[1..]), id);
      if HasRecord(Flat(items[1..]), id) {
        var k :| 0 <= k < |items[1..]| && HasRecord(items[1..][k], id);
        assert HasRecord(items[k + 1], id);
      }
      if k :| 0 <= k < |items| && HasRecord(items[k], id) {
        assert k > 0 ==> HasRecord(items[1..][k - 1], id);
      }
    }
  }

  lemma NoRecord(id: string)
    ensures !HasRecord([], id)
  {
  }
}
