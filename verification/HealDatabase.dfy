/** opencode-heal as it runs: tables updated in place, and the queue merged with `sort -u`. */
module HealDatabase {
  import opened Wrappers
  import opened Heal
  import opened HealTheorems

  /** An ascending sequence is determined by what is in it. */
  lemma {:induction false} AscendingIsUnique(s: seq<string>, t: seq<string>)
    requires Ascending(s) && Ascending(t) && forall w :: w in s <==> w in t
    ensures s == t
  {
    if s == [] {
      HasMember(t);
    } else {
      assert s[0] in t;
      assert t != [] && t[0] in s;
      FirstIsLeast(s, t[0]);
      FirstIsLeast(t, s[0]);
      BeforeIsTotal(s[0], t[0]);
      RestWithoutFirst(s);
      RestWithoutFirst(t);
      AscendingIsUnique(s[1..], t[1..]);
      assert s == [s[0]] + s[1..] && t == [t[0]] + t[1..];
    }
  }

  lemma HasMember(t: seq<string>)
    ensures t == [] || exists w :: w in t
  {
    if t != [] {
      assert t[0] in t;
    }
  }

  lemma FirstIsLeast(s: seq<string>, w: string)
    requires Ascending(s) && w in s
    ensures s[0] == w || Before(s[0], w)
  {
    hide Before;
  }

  lemma RestWithoutFirst(s: seq<string>)
    requires Ascending(s) && s != []
    ensures Ascending(s[1..]) && forall w :: w in s[1..] <==> w in s && w != s[0]
  {
    hide Before;
    assert s == [s[0]] + s[1..];
    forall w | w in s[1..]
      ensures w != s[0]
    {
      var i :| 1 <= i < |s| && s[i] == w;
      BeforeIsTotal(s[0], w);
    }
  }

  method Insert(w: string, s: seq<string>) returns (r: seq<string>)
    requires Ascending(s)
    ensures Ascending(r) && forall x :: x in r <==> x == w || x in s
  {
    hide Before;
    var i := 0;
    while i < |s| && Before(s[i], w)
      invariant 0 <= i <= |s|
      invariant forall k | 0 <= k < i :: Before(s[k], w)
    {
      i := i + 1;
    }
    if i < |s| && s[i] == w {
      return s;
    }
    r := s[..i] + [w] + s[i..];
    if i < |s| {
      BeforeIsTotal(s[i], w);
      forall k | i < k < |s|
        ensures Before(w, s[k])
      {
        BeforeIsTransitive(w, s[i], s[k]);
      }
    }
    assert s == s[..i] + s[i..];
  }

  /** `grep -v '^$' | sort -u`. */
  method SortUnique(lines: seq<string>) returns (queue: seq<string>)
    ensures Ascending(queue) && forall w :: w in queue <==> w in lines && w != ""
  {
    hide Ascending, Before;
    queue := [];
    assert Ascending(queue) by { NothingAscends(); }
    for i := 0 to |lines|
      invariant Ascending(queue) && forall w :: w in queue <==> w in lines[..i] && w != ""
    {
      assert lines[..i + 1] == lines[..i] + [lines[i]];
      if lines[i] != "" {
        queue := Insert(lines[i], queue);
      }
    }
    assert lines[..|lines|] == lines;
  }

  lemma NothingAscends()
    ensures Ascending([])
  {
  }

  predicate NoRepeats(lines: seq<string>) {
    forall i, j | 0 <= i < j < |lines| :: lines[i] != lines[j]
  }

  class Database {
    var v1: Option<seq<Row>>
    var v2: Option<seq<Row>>
    var parts: seq<PartRow>
    var sessions: map<string, Option<string>>

    constructor (db: Db)
      ensures View() == db
    {
      v1, v2, parts, sessions := db.v1, db.v2, db.parts, db.sessions;
    }

    ghost function View(): Db
      reads this
    {
      Db(v1, v2, parts, sessions)
    }

    function TableRows(t: Table): seq<Row>
      reads this
    {
      if t.V1? then Rows(v1) else Rows(v2)
    }

    /** `SELECT DISTINCT session.workspace_id`. */
    method HealCollect(t: Table) returns (lines: seq<string>)
      ensures NoRepeats(lines) && forall w :: w in lines <==> w in Collect(t, TableRows(t), sessions)
    {
      hide Stuck, WorkspaceOf, Collect;
      lines := [];
      var rows := TableRows(t);
      for i := 0 to |rows|
        invariant NoRepeats(lines) && forall w :: w in lines <==> HasStuck(t, rows[..i], sessions, w)
      {
        var w := WorkspaceOf(sessions, rows[i].sessionID);
        StuckAppend(t, rows[..i], rows[i], sessions);
        assert rows[..i + 1] == rows[..i] + [rows[i]];
        if Stuck(t, rows[i]) && w.Some? && w.value !in lines {
          lines := lines + [w.value];
        }
      }
      assert rows[..|rows|] == rows;
      forall w {
        CollectMeans(t, rows, sessions, w);
      }
    }

    /** Updates the rows in place and reports how many it touched. */
    method HealUpdate(t: Table, now: int) returns (changes: nat)
      requires if t.V1? then v1.Some? else v2.Some?
      modifies `v1, `v2
      ensures TableRows(t) == Update(t, old(TableRows(t)), now)
      ensures if t.V1? then v1.Some? && v2 == old(v2) else v2.Some? && v1 == old(v1)
      ensures changes == Updates(t, old(TableRows(t)))
    {
      hide Stuck, Marked, Interrupted;
      ghost var was := TableRows(t);
      changes := 0;
      var n := |TableRows(t)|;
      for i := 0 to n
        invariant if t.V1? then v1.Some? && v2 == old(v2) else v2.Some? && v1 == old(v1)
        invariant |TableRows(t)| == n == |was|
        invariant forall k | 0 <= k < i :: TableRows(t)[k] == UpdateRow(t, now, was[k])
        invariant forall k | i <= k < n :: TableRows(t)[k] == was[k]
        invariant changes + Updates(t, was[i..]) == Updates(t, was)
      {
        assert was[i..][1..] == was[i + 1..];
        var row := TableRows(t)[i];
        if Updatable(t, row) {
          StuckIsDoc(t, row);
          row := row.(data := Doc(Interrupted(row.data.json, now)));
          if t.V1? {
            v1 := Some(v1.value[i := row]);
          } else {
            v2 := Some(v2.value[i := row]);
          }
          changes := changes + 1;
        }
      }
      assert TableRows(t) == Update(t, was, now);
    }

    /** The join of the first query: parts with their messages, then the filters. */
    method SpawnedRows() returns (found: set<Pty>)
      requires v1.Some?
      ensures found == SpawnedPtys(v1.value, parts, sessions)
    {
      hide Qualifies;
      found := {};
      for i := 0 to |parts|
        invariant forall a :: a in found <==> exists p, m | p in parts[..i] && m in v1.value :: Qualifies(p, m, sessions) && PtyOf(p, m, sessions) == a
      {
        var here := SpawnedOf(parts[i]);
        found := found + here;
        assert parts[..i + 1] == parts[..i] + [parts[i]];
        assert forall p :: p in parts[..i + 1] <==> p in parts[..i] || p == parts[i];
      }
      assert parts[..|parts|] == parts;
    }

    method SpawnedOf(p: PartRow) returns (found: set<Pty>)
      requires v1.Some?
      ensures forall a :: a in found <==> exists m | m in v1.value :: Qualifies(p, m, sessions) && PtyOf(p, m, sessions) == a
    {
      hide Qualifies;
      var rows := v1.value;
      found := {};
      for i := 0 to |rows|
        invariant forall a :: a in found <==> exists m | m in rows[..i] :: Qualifies(p, m, sessions) && PtyOf(p, m, sessions) == a
      {
        if Qualifies(p, rows[i], sessions) {
          found := found + {PtyOf(p, rows[i], sessions)};
        }
        assert rows[..i + 1] == rows[..i] + [rows[i]];
        assert forall m :: m in rows[..i + 1] <==> m in rows[..i] || m == rows[i];
      }
      assert rows[..|rows|] == rows;
    }

    /** The `EXISTS` of the `DELETE`. */
    method FindExit(a: Pty) returns (seen: bool)
      requires v1.Some?
      ensures seen == ExitSeen(a, v1.value, parts)
    {
      hide ReportsExit, StringAt;
      var rows := v1.value;
      for i := 0 to |parts|
        invariant !ExitSeen(a, rows, parts[..i])
      {
        assert parts[..i + 1] == parts[..i] + [parts[i]];
        if parts[i].sessionID == a.sessionID && parts[i].time > a.time && ReportsExit(parts[i], a.id) {
          for k := 0 to |rows|
            invariant forall n | 0 <= n < k :: !(parts[i].messageID == rows[n].id && StringAt(rows[n].data, ROLE, "user"))
          {
            if parts[i].messageID == rows[k].id && StringAt(rows[k].data, ROLE, "user") {
              assert parts[i] in parts && rows[k] in rows;
              return true;
            }
          }
        }
        assert forall p :: p in parts[..i + 1] <==> p in parts[..i] || p == parts[i];
      }
      assert parts[..|parts|] == parts;
      seen := false;
    }

    /** The temporary table without the rows whose exit was seen. */
    method DeleteExited(spawned: set<Pty>) returns (abandoned: set<Pty>)
      requires v1.Some?
      ensures forall a :: a in abandoned <==> a in spawned && !ExitSeen(a, v1.value, parts)
    {
      hide ExitSeen;
      abandoned := spawned;
      var left := spawned;
      while left != {}
        invariant left <= spawned
        invariant forall a :: a in abandoned <==> a in spawned && (a in left || !ExitSeen(a, v1.value, parts))
      {
        var a :| a in left;
        var seen := FindExit(a);
        if seen {
          abandoned := abandoned - {a};
        }
        left := left - {a};
      }
    }

    /** Finds the abandoned PTYs, marks their messages, and lists their workspaces. */
    method HealProcessPtyV1() returns (abandoned: set<Pty>)
      requires v1.Some?
      modifies `v1
      ensures abandoned == Abandoned(old(Rows(v1)), parts, sessions)
      ensures v1 == Some(Mark(Messages(abandoned), old(Rows(v1))))
    {
      hide Qualifies, ExitSeen, Marked, SpawnedPtys, Messages;
      ghost var was := Rows(v1);
      abandoned := SpawnedRows();
      abandoned := DeleteExited(abandoned);
      assert abandoned == Abandoned(was, parts, sessions);
      var ids := Messages(abandoned);
      var n := |v1.value|;
      for i := 0 to n
        invariant v1.Some? && |v1.value| == n == |was|
        invariant forall k | 0 <= k < i :: v1.value[k] == MarkRow(ids, was[k])
        invariant forall k | i <= k < n :: v1.value[k] == was[k]
      {
        v1 := Some(v1.value[i := MarkRow(ids, v1.value[i])]);
      }
      assert v1.value == Mark(ids, was);
    }

    /** The v1 branch of the main sequence: collect before update, then the PTYs. */
    method HealV1(now: int) returns (affected: seq<string>, affectedPty: set<string>, updated: nat)
      requires v1.Some?
      modifies `v1, `v2
      ensures v1 == After(old(View()), now).v1 && v2 == old(v2)
      ensures forall w :: w in affected <==> w in Collect(V1, old(v1).value, sessions)
      ensures affectedPty == Workspaces(AbandonedIn(old(View()), now))
      ensures updated == Updates(V1, old(v1).value)
    {
      hide Mark, Update, Abandoned, Messages, Collect, NoRepeats, Workspaces;
      affected := HealCollect(V1);
      updated := HealUpdate(V1, now);
      var abandoned := HealProcessPtyV1();
      affectedPty := Workspaces(abandoned);
    }

    method HealV2(now: int) returns (affected: seq<string>, updated: nat)
      requires v2.Some?
      modifies `v1, `v2
      ensures v2 == After(old(View()), now).v2 && v1 == old(v1)
      ensures forall w :: w in affected <==> w in Collect(V2, old(v2).value, sessions)
      ensures updated == Updates(V2, old(v2).value)
    {
      hide Mark, Update, AbandonedIn, Messages, Collect, NoRepeats;
      affected := HealCollect(V2);
      updated := HealUpdate(V2, now);
    }

    /** The whole run: the queue written for recovery and the counts logged. */
    method Run(now: int) returns (queue: seq<string>, updatedV1: nat, updatedV2: nat, abandonedPtys: nat)
      modifies this
      ensures View() == After(old(View()), now)
      ensures Ascending(queue) && forall w :: w in queue <==> NeedsRecovery(old(View()), w)
      ensures updatedV1 == Updates(V1, Rows(old(v1))) && updatedV2 == Updates(V2, Rows(old(v2)))
      ensures abandonedPtys == |Workspaces(AbandonedIn(old(View()), now)) - {""}|
    {
      hide Mark, Update, AbandonedIn, Messages, Collect, Workspaces, NeedsRecovery, Updates, Ascending, After;
      ghost var db := View();
      var affectedV1, affectedV2, affectedPty: set<string> := [], [], {};
      updatedV1, updatedV2 := 0, 0;
      AfterInParts(db, now);
      if v1.Some? {
        affectedV1, affectedPty, updatedV1 := HealV1(now);
      }
      assert After(View(), now).v2 == After(db, now).v2 by { AfterInParts(View(), now); }
      if v2.Some? {
        affectedV2, updatedV2 := HealV2(now);
      }
      abandonedPtys := |affectedPty - {""}|;
      var ptyLines := Lines(affectedPty);
      queue := SortUnique(affectedV1 + affectedV2 + ptyLines);
      forall w {
        StagedIsOneShot(db, now, w);
      }
    }
  }

  /** What an absent table contributes, and that each table's outcome is its own. */
  lemma AfterInParts(db: Db, now: int)
    ensures db.v1.None? ==> Workspaces(AbandonedIn(db, now)) == {} && Collect(V1, Rows(db.v1), db.sessions) == {}
    ensures db.v1.None? ==> After(db, now).v1.None? && Updates(V1, Rows(db.v1)) == 0
    ensures db.v2.None? ==> After(db, now).v2.None? && Collect(V2, Rows(db.v2), db.sessions) == {} && Updates(V2, Rows(db.v2)) == 0
    ensures db.v2.Some? ==> After(db, now).v2 == Some(Update(V2, db.v2.value, now))
    ensures After(db, now).parts == db.parts && After(db, now).sessions == db.sessions
  {
    hide Mark, Update, Messages;
    if db.v1.None? {
      assert SpawnedPtys(Updated(db, now), db.parts, db.sessions) == {};
    }
  }

  lemma StuckAppend(t: Table, rows: seq<Row>, row: Row, sessions: map<string, Option<string>>)
    ensures forall w ::
      HasStuck(t, rows + [row], sessions, w) <==> (HasStuck(t, rows, sessions, w) || (Stuck(t, row) && WorkspaceOf(sessions, row.sessionID) == Some(w)))
  {
    hide Stuck, WorkspaceOf;
    assert row in rows + [row];
    assert forall r | r in rows :: r in rows + [row];
  }

  /** A query's result, one line each in some order. */
  method Lines(s: set<string>) returns (lines: seq<string>)
    ensures forall w :: w in lines <==> w in s
  {
    lines := [];
    var left := s;
    while left != {}
      invariant left <= s && forall w :: w in lines <==> w in s - left
    {
      var w :| w in left;
      left := left - {w};
      lines := lines + [w];
    }
  }
}
