/** What the `LIKE` queries of opencode-heal find in rendered lifecycle records. */
module PtyQuery {
  import opened SqlText
  import opened PtyLifecycle
  import opened PtyRecords
  import opened Heal

  const TAG_START := "<pty"

  predicate EndsLike(line: string, w: string) {
    |w| <= |line| && LikeAt(line, w, |line| - |w|)
  }

  /** A tag may be mentioned in the line, but not end it, in whatever case. (The underscore of
      the pattern could also stand for the line feed itself.) */
  predicate PlainLine(tag: Tag, line: string) {
    '\n' !in line && !EndsLike(line, OpenTag(tag)) && !EndsLike(line, TAG_START)
  }

  function FieldLineOf(f: (string, string)): string {
    f.0 + ": " + f.1
  }

  function IdLine(id: string): string {
    "ID: " + id
  }

  /** `LIKE` would read the line as the id line of some PTY. */
  ghost predicate TakenForId(line: string) {
    |line| == 16 && exists id :: PtyId(id) && LikeAt(line, IdLine(id), 0)
  }

  predicate LeadsWithId(fields: seq<(string, string)>) {
    fields != [] && fields[0].0 == "ID" && PtyId(fields[0].1)
  }

  /** A record leads with its id, if it has one; the id may be ill-formed, as long as it is so
      for both readers. */
  ghost predicate CanonicalRecord(tag: Tag, fields: seq<(string, string)>) {
    && (forall k | 0 <= k < |fields| :: PlainLine(tag, FieldLineOf(fields[k])))
    && (forall k | 1 <= k < |fields| :: fields[k].0 != "ID")
    && (fields != [] && TakenForId(FieldLineOf(fields[0])) ==> LeadsWithId(fields))
  }

  ghost predicate CanonicalItem(tag: Tag, item: Item) {
    && GoodItem(tag, item)
    && match item
       case Prose(line) => PlainLine(tag, line)
       case Record(fields) => CanonicalRecord(tag, fields)
  }

  ghost predicate CanonicalItems(tag: Tag, items: seq<Item>) {
    forall item | item in items :: CanonicalItem(tag, item)
  }

  predicate RecordOf(item: Item, id: string) {
    item.Record? && item.fields != [] && item.fields[0] == ("ID", id)
  }

  predicate HasRecord(items: seq<Item>, id: string) {
    exists item | item in items :: RecordOf(item, id)
  }

  // ---- LIKE on lines ----

  lemma LikePrefix(text: string, v: string, w: string, i: nat)
    requires v <= w && LikeAt(text, w, i)
    ensures LikeAt(text, v, i)
  {
    forall k | 0 <= k < |v|
      ensures LikeChar(v[k], text[i + k])
    {
      assert v[k] == w[k];
    }
  }

  lemma LikeWithin(line: string, rest: string, w: string, i: nat)
    requires i + |w| <= |line|
    ensures LikeAt(line + rest, w, i) <==> LikeAt(line, w, i)
  {
    assert forall k | 0 <= k < |w| :: LikeChar(w[k], (line + rest)[i + k]) <==> LikeChar(w[k], line[i + k]);
  }

  lemma LikeSuffix(text: string, w: string, n: nat)
    requires n <= |w| && LikeAt(text, w, 0)
    ensures n <= |text| && LikeAt(text[n..], w[n..], 0)
  {
    forall k | 0 <= k < |w| - n
      ensures LikeChar(w[n..][k], text[n..][0 + k])
    {
      assert LikeChar(w[n + k], text[0 + (n + k)]);
    }
  }

  /** Only `_` and the line feed itself match a line feed. */
  lemma LikeFeed(c: char)
    ensures LikeChar(c, '\n') <==> c == '_' || c == '\n'
    ensures LikeChar('\n', c) <==> c == '\n'
  {
  }

  lemma OpenTagChars(tag: Tag)
    ensures TAG_START <= OpenTag(tag) && |OpenTag(tag)| > 4 && '\n' !in OpenTag(tag)
    ensures forall k | 0 <= k < |OpenTag(tag)| :: OpenTag(tag)[k] == '_' <==> k == 4
  {
  }

  lemma OpeningChars(tag: Tag, id: string)
    ensures var w, n := OpeningLines(tag, id), |OpenTag(tag)|;
      && OpenTag(tag) <= w && |w| > n + 1 && w[n] == '\n' && w[n + 1] == 'I'
      && w[n + 1..] == IdLine(id) + "\n" && forall k | 0 <= k < n :: w[k] == OpenTag(tag)[k]
  {
    hide OpenTag;
    var n := |OpenTag(tag)|;
    assert OpeningLines(tag, id) == (OpenTag(tag) + "\n") + (IdLine(id) + "\n") by {
      assert OpenTag(tag) + "\nID: " + id + "\n" == OpenTag(tag) + "\n" + ("ID: " + id + "\n");
    }
  }

  /** A match that begins in a line ends it: with the tag, or with the tag's start. */
  lemma NoMatchInLine(tag: Tag, line: string, rest: string, id: string, i: nat)
    requires '\n' !in line && i <= |line|
    requires i + |OpenTag(tag)| == |line| ==> !LikeAt(line, OpenTag(tag), i)
    requires i + 4 == |line| ==> !LikeAt(line, TAG_START, i)
    ensures !LikeAt(line + "\n" + rest, OpeningLines(tag, id), i)
  {
    hide OpenTag, OpeningLines, LikeChar;
    var text, w, n, k := line + "\n" + rest, OpeningLines(tag, id), |OpenTag(tag)|, |line| - i;
    OpenTagChars(tag);
    OpeningChars(tag, id);
    if i + |w| <= |text| {
      assert text[i + k] == '\n' && text == line + ("\n" + rest);
      if k > n {
        assert text[i + n] == line[i + n] && line[i + n] in line;
        LikeFeed(text[i + n]);
        assert !LikeChar(w[n], text[i + n]);
      } else if k == n {
        LikeWithin(line, "\n" + rest, OpenTag(tag), i);
        assert LikeAt(text, w, i) ==> LikeAt(text, OpenTag(tag), i) by {
          if LikeAt(text, w, i) { LikePrefix(text, OpenTag(tag), w, i); }
        }
      } else if k == 4 {
        LikeWithin(line, "\n" + rest, TAG_START, i);
        assert LikeAt(text, w, i) ==> LikeAt(text, TAG_START, i) by {
          if LikeAt(text, w, i) { LikePrefix(text, TAG_START, w, i); }
        }
      } else {
        assert w[k] == OpenTag(tag)[k] && OpenTag(tag)[k] in OpenTag(tag);
        LikeFeed(w[k]);
        assert !LikeChar(w[k], text[i + k]);
      }
    }
  }

  lemma SkipLine(tag: Tag, line: string, rest: string, id: string, i: nat)
    requires '\n' !in line && LikeAt(line + "\n" + rest, OpeningLines(tag, id), i)
    requires i + |OpenTag(tag)| == |line| ==> !LikeAt(line, OpenTag(tag), i)
    requires i + 4 == |line| ==> !LikeAt(line, TAG_START, i)
    ensures i > |line| && LikeAt(rest, OpeningLines(tag, id), i - |line| - 1)
  {
    hide LikeAt, OpenTag, OpeningLines;
    var text, n := line + "\n" + rest, |line| + 1;
    if i <= |line| {
      NoMatchInLine(tag, line, rest, id, i);
    }
    assert text[n..] == rest;
    LikeAtShift(text, OpeningLines(tag, id), n, i - n);
  }

  /** A match cannot begin in a plain line. */
  lemma SkipPlain(tag: Tag, line: string, rest: string, id: string, i: nat)
    requires PlainLine(tag, line) && LikeAt(line + "\n" + rest, OpeningLines(tag, id), i)
    ensures i > |line| && LikeAt(rest, OpeningLines(tag, id), i - |line| - 1)
  {
    hide LikeAt, OpenTag, OpeningLines;
    SkipLine(tag, line, rest, id, i);
  }

  lemma PtyIdChars(id: string)
    requires PtyId(id)
    ensures |id| == 12 && id[3] == '_' && '%' !in id && '\n' !in id && '<' !in id
    ensures forall k | 0 <= k < 12 && k != 3 :: 'a' <= id[k] <= 'z' || '0' <= id[k] <= '9'
  {
    assert forall k | 0 <= k < 4 :: id[k] == id[..4][k];
  }

  lemma TagLines(tag: Tag)
    ensures PlainLine(tag, CloseTag(tag)) && '%' !in OpenTag(tag) && '%' !in CloseTag(tag)
    ensures |OpenTag(tag)| > 8 && !LikeAt(OpenTag(tag), TAG_START, |OpenTag(tag)| - 4)
  {
    var open, close := OpenTag(tag), CloseTag(tag);
    assert |close| == |open| + 1;
    assert !LikeChar(open[0], close[1 + 0]);
    assert !LikeChar(TAG_START[0], close[|close| - 4 + 0]);
    assert !LikeChar(TAG_START[0], open[|open| - 4 + 0]);
  }

  lemma {:induction false} SkipFields(tag: Tag, fields: seq<(string, string)>, rest: string, id: string, i: nat)
    requires forall k | 0 <= k < |fields| :: PlainLine(tag, FieldLineOf(fields[k]))
    requires LikeAt(RenderFields(fields) + rest, OpeningLines(tag, id), i)
    ensures i >= |RenderFields(fields)| && LikeAt(rest, OpeningLines(tag, id), i - |RenderFields(fields)|)
    decreases |fields|
  {
    hide LikeAt, PlainLine, OpeningLines;
    if fields == [] {
      assert RenderFields(fields) + rest == rest;
    } else {
      var line := FieldLineOf(fields[0]);
      var tail := RenderFields(fields[1..]) + rest;
      assert RenderFields(fields) + rest == line + "\n" + tail;
      SkipPlain(tag, line, tail, id, i);
      SkipFields(tag, fields[1..], rest, id, i - |line| - 1);
    }
  }

  // ---- LIKE at a record ----

  /** Ids are told apart even by a matcher that folds case and reads `_` as any character. */
  lemma LikeId(id: string, v: string)
    requires PtyId(id) && PtyId(v) && LikeAt(v, id, 0)
    ensures v == id
  {
    forall k | 0 <= k < 12
      ensures v[k] == id[k]
    {
      assert LikeChar(id[k], v[0 + k]);
      if k < 4 {
        assert v[k] == v[..4][k] && id[k] == id[..4][k];
      }
    }
  }

  /** A line that is read as an id line has the length of one. The line after it holds a colon
      or a bracket, so it cannot be the rest of an id cut at its underscore. */
  lemma IdLineMatch(line: string, next: string, rest: string, id: string)
    requires '\n' !in line && '\n' !in next && (':' in next || '<' in next) && PtyId(id)
    requires LikeAt(line + "\n" + (next + "\n" + rest), IdLine(id) + "\n", 0)
    ensures |line| == 16 && LikeAt(line, IdLine(id), 0)
  {
    hide PtyId, LikeChar;
    var more := next + "\n" + rest;
    var text, w := line + "\n" + more, IdLine(id) + "\n";
    PtyIdChars(id);
    assert |w| == 17 && w[16] == '\n' && w[..16] == IdLine(id);
    assert forall k | 0 <= k < 16 :: w[k] == '_' <==> k == 7;
    assert forall k | 0 <= k < 17 :: LikeChar(w[k], text[0 + k]);
    LikeFeed(text[16]);
    assert text[16] == '\n';
    if |line| < 16 {
      assert text[|line|] == '\n' && w[|line|] != '\n';
      LikeFeed(w[|line|]);
      assert |line| == 7;
      CutIdLine(next, rest, id, text, line);
    }
    assert |line| == 16 by {
      assert forall m | 0 <= m < |line| :: text[m] == line[m] != '\n';
    }
    assert text == line + ("\n" + more);
    LikePrefix(text, IdLine(id), w, 0);
    LikeWithin(line, "\n" + more, IdLine(id), 0);
  }

  lemma CutIdLine(next: string, rest: string, id: string, text: string, line: string)
    requires PtyId(id) && |line| == 7 && '\n' !in next && (':' in next || '<' in next)
    requires text == line + "\n" + (next + "\n" + rest)
    ensures !LikeAt(text, IdLine(id) + "\n", 0)
  {
    var w := IdLine(id) + "\n";
    assert forall k | 8 <= k < 16 :: w[k] == id[k - 4];
    assert forall k | 0 <= k < |next| :: text[8 + k] == next[k];
    assert text[8 + |next|] == '\n' && w[16] == '\n';
    if |next| < 8 {
      assert !LikeChar(w[8 + |next|], text[0 + (8 + |next|)]);
    } else if |next| > 8 {
      assert next[8] in next && text[0 + 16] == next[8];
      assert !LikeChar(w[16], text[0 + 16]);
    } else {
      var k :| 0 <= k < 8 && (next[k] == ':' || next[k] == '<');
      assert !LikeChar(w[8 + k], text[0 + (8 + k)]);
    }
  }

  lemma RecordTail(tag: Tag, fields: seq<(string, string)>, rest: string)
    requires fields != []
    ensures RenderItem(tag, Record(fields)) + rest
         == (OpenTag(tag) + "\n") + (FieldLineOf(fields[0]) + "\n" + (RenderFields(fields[1..]) + (CloseTag(tag) + "\n" + rest)))
  {
    hide OpenTag, CloseTag;
    assert RenderFields(fields) == FieldLineOf(fields[0]) + "\n" + RenderFields(fields[1..]);
  }

  lemma CloseTagStarts(tag: Tag)
    ensures '<' in CloseTag(tag) && '\n' !in CloseTag(tag)
  {
    assert CloseTag(tag)[0] == '<';
  }

  /** The line after a field: another field, or the closing tag. */
  lemma NextLine(tag: Tag, fields: seq<(string, string)>, rest: string) returns (next: string, more: string)
    requires forall k | 0 <= k < |fields| :: '\n' !in FieldLineOf(fields[k])
    ensures RenderFields(fields) + (CloseTag(tag) + "\n" + rest) == next + "\n" + more
    ensures '\n' !in next && (':' in next || '<' in next)
  {
    hide OpenTag, CloseTag;
    CloseTagStarts(tag);
    if fields == [] {
      next, more := CloseTag(tag), rest;
      assert RenderFields(fields) + (CloseTag(tag) + "\n" + rest) == CloseTag(tag) + "\n" + rest;
    } else {
      next, more := FieldLineOf(fields[0]), RenderFields(fields[1..]) + (CloseTag(tag) + "\n" + rest);
      assert RenderFields(fields) == next + "\n" + RenderFields(fields[1..]);
      assert next[|fields[0].0|] == ':';
    }
  }

  /** The lines after the opening tag of a record with fields. */
  lemma RecordLines(tag: Tag, fields: seq<(string, string)>, rest: string) returns (next: string, more: string)
    requires fields != [] && CanonicalRecord(tag, fields)
    ensures RenderItem(tag, Record(fields)) + rest == (OpenTag(tag) + "\n") + (FieldLineOf(fields[0]) + "\n" + (next + "\n" + more))
    ensures '\n' !in next && (':' in next || '<' in next)
  {
    hide OpenTag, CloseTag, EndsLike, TakenForId, LeadsWithId, FieldLineOf, RenderFields, RenderItem;
    RecordTail(tag, fields, rest);
    next, more := NextLine(tag, fields[1..], rest);
  }

  lemma NoMatchAtEmptyRecord(tag: Tag, rest: string, id: string)
    ensures !LikeAt(RenderItem(tag, Record([])) + rest, OpeningLines(tag, id), 0)
  {
    hide OpeningLines;
    OpeningChars(tag, id);
    var n := |OpenTag(tag)| + 1;
    var text := RenderItem(tag, Record([])) + rest;
    assert text[0 + n] == '<';
    assert !LikeChar(OpeningLines(tag, id)[n], text[0 + n]);
  }

  /** A match at the very start of a record is a match of its id. */
  lemma MatchAtRecord(tag: Tag, fields: seq<(string, string)>, rest: string, id: string)
    requires CanonicalItem(tag, Record(fields)) && PtyId(id)
    requires LikeAt(RenderItem(tag, Record(fields)) + rest, OpeningLines(tag, id), 0)
    ensures fields != [] && fields[0] == ("ID", id)
  {
    hide PtyId, RenderItem, LikeAt, OpenTag, OpeningLines, GoodField, PlainLine;
    if fields == [] {
      NoMatchAtEmptyRecord(tag, rest, id);
    } else {
      var next, more := RecordLines(tag, fields, rest);
      var text, n, line := RenderItem(tag, Record(fields)) + rest, |OpenTag(tag)| + 1, FieldLineOf(fields[0]);
      OpeningChars(tag, id);
      LikeSuffix(text, OpeningLines(tag, id), n);
      assert text[n..] == line + "\n" + (next + "\n" + more);
      assert '\n' !in line by { PlainHasNoFeed(tag, line); }
      IdLineMatch(line, next, more, id);
      assert TakenForId(line);
      LikeSuffix(line, IdLine(id), 4);
      assert line == "ID: " + fields[0].1;
      LikeId(id, fields[0].1);
    }
  }

  lemma PlainHasNoFeed(tag: Tag, line: string)
    requires PlainLine(tag, line)
    ensures '\n' !in line
  {
  }

  /** A match past the start of a record lies past its end. */
  lemma MatchPastRecord(tag: Tag, fields: seq<(string, string)>, rest: string, id: string, i: nat)
    requires CanonicalItem(tag, Record(fields)) && i > 0
    requires LikeAt(RenderItem(tag, Record(fields)) + rest, OpeningLines(tag, id), i)
    ensures var n := |RenderItem(tag, Record(fields))|; i >= n && LikeAt(rest, OpeningLines(tag, id), i - n)
  {
    hide LikeAt, PlainLine, PtyId, RenderFields, OpenTag, OpeningLines;
    var ending := CloseTag(tag) + "\n" + rest;
    var tail := RenderFields(fields) + ending;
    assert RenderItem(tag, Record(fields)) + rest == OpenTag(tag) + "\n" + tail;
    TagLines(tag);
    OpenTagChars(tag);
    SkipLine(tag, OpenTag(tag), tail, id, i);
    var j := i - |OpenTag(tag)| - 1;
    SkipFields(tag, fields, ending, id, j);
    SkipPlain(tag, CloseTag(tag), rest, id, j - |RenderFields(fields)|);
  }

  /** A match starting in the item is its record; any other lies `at` characters further on. */
  lemma MatchInItem(tag: Tag, item: Item, rest: string, id: string, i: nat) returns (at: nat)
    requires CanonicalItem(tag, item) && PtyId(id)
    requires LikeAt(RenderItem(tag, item) + rest, OpeningLines(tag, id), i)
    ensures if at == 0 then RecordOf(item, id) else at <= i && LikeAt(rest, OpeningLines(tag, id), i - at)
  {
    hide LikeAt, PlainLine, PtyId, RenderFields, GoodItem, OpeningLines, CanonicalRecord;
    match item
    case Prose(line) =>
      assert RenderItem(tag, item) + rest == line + "\n" + rest;
      SkipPlain(tag, line, rest, id, i);
      at := |line| + 1;
    case Record(fields) =>
      if i == 0 {
        MatchAtRecord(tag, fields, rest, id);
        at := 0;
      } else {
        MatchPastRecord(tag, fields, rest, id, i);
        at := |RenderItem(tag, item)|;
      }
  }

  lemma {:induction false} MatchFindsRecord(tag: Tag, items: seq<Item>, id: string, i: nat)
    requires CanonicalItems(tag, items) && PtyId(id)
    requires LikeAt(Render(tag, items), OpeningLines(tag, id), i)
    ensures HasRecord(items, id)
  {
    hide LikeAt, PtyId, RenderItem, GoodItem, CanonicalItem, OpeningLines;
    OpeningChars(tag, id);
    if items == [] {
      LikeAtLength(Render(tag, items), OpeningLines(tag, id), i);
    } else {
      var at := MatchInItem(tag, items[0], Render(tag, items[1..]), id, i);
      if at == 0 {
        assert items[0] in items;
      } else {
        MatchFindsRecord(tag, items[1..], id, i - at);
        assert forall item | item in items[1..] :: item in items;
      }
    }
  }

  lemma LikeItself(before: string, w: string, after: string)
    ensures LikeAt(before + w + after, w, |before|)
  {
    var text := before + w + after;
    forall k | 0 <= k < |w|
      ensures LikeChar(w[k], text[|before| + k])
    {
      assert text[|before| + k] == w[k];
    }
  }

  /** Two strings in order make a match of both. */
  lemma LikeInOrder(p: string, a: string, q: string, b: string, r: string)
    ensures LikeBoth(p + a + q + b + r, a, b)
  {
    hide LikeAt;
    var text := p + a + q + b + r;
    assert text == p + a + (q + b + r);
    assert text == (p + a + q) + b + r;
    LikeItself(p, a, q + b + r);
    LikeItself(p + a + q, b, r);
    assert |p| + |a| <= |p + a + q| <= |text|;
  }

  lemma RecordParts(tag: Tag, fields: seq<(string, string)>)
    requires fields != [] && fields[0].0 == "ID"
    ensures RenderItem(tag, Record(fields)) == OpeningLines(tag, fields[0].1) + RenderFields(fields[1..]) + CloseTag(tag) + "\n"
  {
    hide OpenTag, CloseTag;
    assert "ID" + ": " == "ID: ";
    assert OpenTag(tag) + "\nID: " == OpenTag(tag) + "\n" + "ID: ";
    assert RenderFields(fields) == "ID: " + fields[0].1 + "\n" + RenderFields(fields[1..]);
  }

  lemma RenderAround(tag: Tag, items: seq<Item>, k: nat)
    requires k < |items|
    ensures Render(tag, items) == Render(tag, items[..k]) + RenderItem(tag, items[k]) + Render(tag, items[k + 1..])
  {
    hide RenderItem;
    assert items == items[..k] + items[k..];
    RenderConcat(tag, items[..k], items[k..]);
    assert items[k..][1..] == items[k + 1..];
  }

  lemma RecordHasBlock(tag: Tag, items: seq<Item>, id: string)
    requires HasRecord(items, id)
    ensures LikeBoth(Render(tag, items), OpeningLines(tag, id), CloseTag(tag))
  {
    hide LikeBoth, Render, RenderFields, OpenTag, CloseTag, RenderItem, OpeningLines;
    var item :| item in items && RecordOf(item, id);
    var k :| 0 <= k < |items| && items[k] == item;
    var p, q, r := Render(tag, items[..k]), RenderFields(item.fields[1..]), Render(tag, items[k + 1..]);
    RenderAround(tag, items, k);
    RecordParts(tag, item.fields);
    var a, b := OpeningLines(tag, id), CloseTag(tag);
    assert p + (a + q + b + "\n") + r == p + a + q + b + ("\n" + r);
    LikeInOrder(p, a, q, b, "\n" + r);
  }

  lemma OpeningHasNoPercent(tag: Tag, id: string)
    requires PtyId(id)
    ensures '%' !in OpeningLines(tag, id) && '%' !in CloseTag(tag)
  {
    hide PtyId, PlainLine;
    TagLines(tag);
    PtyIdChars(id);
  }

  /** A last line feed makes no difference to the query, on any text. */
  lemma FeedOutsideBlock(text: string, tag: Tag, id: string)
    requires PtyId(id)
    ensures HasBlock(text + "\n", tag, id) <==> HasBlock(text, tag, id)
  {
    hide PtyId, OpeningLines, OpenTag, Like, LikeAt;
    var a, b, longer := OpeningLines(tag, id), CloseTag(tag), text + "\n";
    OpeningHasNoPercent(tag, id);
    LikeIsBoth(a, b, text);
    LikeIsBoth(a, b, longer);
    forall j: nat | j <= |longer|
      ensures LikeAt(longer, b, j) <==> LikeAt(text, b, j)
    {
      FeedAfterTag(text, tag, j);
    }
    forall i: nat | i + |a| <= |text|
      ensures LikeAt(longer, a, i) <==> LikeAt(text, a, i)
    {
      LikeWithin(text, "\n", a, i);
    }
    if LikeBoth(longer, a, b) {
      var i: nat, j: nat :| i + |a| <= j <= |longer| && LikeAt(longer, a, i) && LikeAt(longer, b, j);
      LikeAtLength(text, b, j);
      assert i + |a| <= j <= |text| && LikeAt(text, a, i);
    }
    if LikeBoth(text, a, b) {
      var i: nat, j: nat :| i + |a| <= j <= |text| && LikeAt(text, a, i) && LikeAt(text, b, j);
      assert i + |a| <= j <= |longer| && LikeAt(longer, a, i) && LikeAt(longer, b, j);
    }
  }

  lemma FeedAfterTag(text: string, tag: Tag, j: nat)
    ensures LikeAt(text + "\n", CloseTag(tag), j) <==> LikeAt(text, CloseTag(tag), j)
  {
    var b, longer := CloseTag(tag), text + "\n";
    if j + |b| <= |text| {
      LikeWithin(text, "\n", b, j);
    } else if j + |b| == |longer| {
      assert longer[j + (|b| - 1)] == '\n';
      assert !LikeChar(b[|b| - 1], longer[j + (|b| - 1)]);
    }
  }

  /** On rendered records, with the last line feed or without, the `LIKE` of the heal queries
      finds exactly the records' ids. */
  lemma BlockIffRecord(tag: Tag, items: seq<Item>, text: string, id: string)
    requires CanonicalItems(tag, items) && Rendered(tag, items, text) && PtyId(id)
    ensures HasBlock(text, tag, id) <==> HasRecord(items, id)
  {
    hide LikeAt, PtyId, CanonicalItem, OpeningLines, OpenTag, CloseTag, Like, Render;
    var whole, a, b := Render(tag, items), OpeningLines(tag, id), CloseTag(tag);
    OpeningHasNoPercent(tag, id);
    LikeIsBoth(a, b, whole);
    FeedOutsideBlock(text, tag, id);
    if LikeBoth(whole, a, b) {
      var i: nat, j: nat :| i + |a| <= j <= |whole| && LikeAt(whole, a, i) && LikeAt(whole, b, j);
      MatchFindsRecord(tag, items, id, i);
    }
    if HasRecord(items, id) {
      RecordHasBlock(tag, items, id);
    }
  }
}
