/** Which ids are PTY ids, and what a line of a record has to look like: the regular expressions
    of the parser, in terms of characters. */
module PtyIds {
  import opened Wrappers
  import opened Text
  import opened PtyLifecycle
  import opened PtyRecords

  /** A PTY id is `pty_` and eight lower-case hexadecimal digits, and nothing else is one. */
  lemma PtyIdsAre(s: string)
    ensures PtyId(s) <==> exists h :: |h| == 8 && s == "pty_" + h && forall c | c in h :: c in "0123456789abcdef"
  {
    if PtyId(s) {
      var h := s[4..];
      assert s == "pty_" + h;
      forall c | c in h
        ensures c in "0123456789abcdef"
      {
        var k :| 0 <= k < 8 && h[k] == c;
        assert s[k + 4] == c;
        HexDigitsAre(c);
      }
    }
    if h :| |h| == 8 && s == "pty_" + h && forall c | c in h :: c in "0123456789abcdef" {
      HexIsPtyId(h);
    }
  }

  lemma HexIsPtyId(h: string)
    requires |h| == 8 && forall c | c in h :: c in "0123456789abcdef"
    ensures PtyId("pty_" + h)
  {
    var s := "pty_" + h;
    assert s[..4] == "pty_";
    forall i | 4 <= i < 12
      ensures '0' <= s[i] <= '9' || 'a' <= s[i] <= 'f'
    {
      assert s[i] == h[i - 4] && h[i - 4] in h;
      HexDigitsAre(s[i]);
    }
  }

  // ---- Fields ----

  /** A key without a colon, a colon, space, and a value that has no line terminator in it and
      does not begin with space. */
  predicate KeyValue(line: string, key: string, pad: string, value: string) {
    && line == key + (":" + (pad + value))
    && key != "" && ':' !in key
    && AllSpace(pad) && (value != "" ==> !IsSpace(value[0]))
    && forall c | c in value :: c !in "\n\r\U{2028}\U{2029}"
  }

  lemma {:induction false} ColonMeans(s: string)
    ensures ':' !in s[..Colon(s)]
    ensures Colon(s) < |s| ==> s[Colon(s)] == ':'
  {
    if s != "" && s[0] != ':' {
      ColonMeans(s[1..]);
      assert s[..Colon(s)] == [s[0]] + s[1..][..Colon(s[1..])];
    }
  }

  lemma TerminatorsAre(s: string)
    ensures SingleLine(s) <==> forall c | c in s :: c !in "\n\r\U{2028}\U{2029}"
  {
    forall c: char
      ensures LineTerminator(c) <==> c in "\n\r\U{2028}\U{2029}"
    {
      var all := "\n\r\U{2028}\U{2029}";
      assert all[0] == '\n' && all[1] == '\r' && all[2] == '\U{2028}' && all[3] == '\U{2029}';
    }
  }

  /** A line of a record sets a field exactly when it is one, and then that key to that value. */
  lemma FieldIff(line: string, key: string, value: string)
    ensures Field(line) == Some((key, value)) <==> exists pad :: KeyValue(line, key, pad, value)
  {
    hide Colon, TrimStart, SingleLine, IsSpace;
    ColonMeans(line);
    TerminatorsAre(value);
    var n := Colon(line);
    if Field(line) == Some((key, value)) {
      var pad := TrimStartSplits(line[n + 1..]);
      assert line == line[..n] + (":" + (pad + value));
      assert KeyValue(line, key, pad, value);
    }
    if pad :| KeyValue(line, key, pad, value) {
      ColonAfter(key, pad + value);
      assert line == key + ":" + (pad + value);
      assert line[..n] == key && line[n + 1..] == pad + value;
      TrimStartDrops(pad, value);
      assert TrimStart(value) == value by { StartsTight(value); }
    }
  }

  lemma StartsTight(s: string)
    requires s != "" ==> !IsSpace(s[0])
    ensures TrimStart(s) == s
  {
  }
}
