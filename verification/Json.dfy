/** JSON values as SQLite's `json_extract` and `json_set` treat them on paths of object keys. */
module Json {
  import opened Wrappers

  datatype Json =
    | Null
    | Bool(b: bool)
    | Number(n: real)
    | Str(s: string)
    | Arr(items: seq<Json>)
    | Obj(fields: map<string, Json>)

  /** `json_extract(j, '$.a.b')`; a path through anything but an object finds nothing. */
  function Extract(j: Json, path: seq<string>): Option<Json>
    decreases |path|
  {
    if path == [] then Some(j)
    else if j.Obj? && path[0] in j.fields then Extract(j.fields[path[0]], path[1..])
    else None
  }

  /** The objects `json_set` makes for the missing part of a path. */
  function Nest(path: seq<string>, v: Json): Json
    decreases |path|
  {
    if path == [] then v else Obj(map[path[0] := Nest(path[1..], v)])
  }

  /** `json_set(j, '$.a.b', v)`; a path through anything but an object changes nothing. */
  function Put(j: Json, path: seq<string>, v: Json): Json
    decreases |path|
  {
    if path == [] then v
    else if !j.Obj? then j
    else Obj(j.fields[path[0] := if path[0] in j.fields then Put(j.fields[path[0]], path[1..], v) else Nest(path[1..], v)])
  }

  /** The path runs through objects as far as it exists. */
  predicate Settable(j: Json, path: seq<string>)
    decreases |path|
  {
    path == [] || (j.Obj? && (path[0] in j.fields ==> Settable(j.fields[path[0]], path[1..])))
  }

  /** Neither path leads through the other. */
  predicate Apart(p: seq<string>, q: seq<string>) {
    p != [] && q != [] && (p[0] != q[0] || Apart(p[1..], q[1..]))
  }

  lemma {:induction false} ExtractNest(path: seq<string>, v: Json)
    ensures Extract(Nest(path, v), path) == Some(v)
    decreases |path|
  {
    if path != [] {
      ExtractNest(path[1..], v);
    }
  }

  /** Reading back what was set: the new value if the path can be set, else what was there. */
  lemma {:induction false} ExtractPut(j: Json, path: seq<string>, v: Json)
    ensures Extract(Put(j, path, v), path) == if Settable(j, path) then Some(v) else Extract(j, path)
    ensures !Settable(j, path) ==> Put(j, path, v) == j && Extract(j, path) == None
    decreases |path|
  {
    if path != [] && j.Obj? {
      if path[0] in j.fields {
        ExtractPut(j.fields[path[0]], path[1..], v);
        assert !Settable(j, path) ==> Put(j, path, v).fields == j.fields;
      } else {
        ExtractNest(path[1..], v);
      }
    }
  }

  lemma {:induction false} ExtractApartNest(path: seq<string>, v: Json, q: seq<string>)
    requires Apart(path, q)
    ensures Extract(Nest(path, v), q) == None
    decreases |path|
  {
    if path[0] == q[0] {
      ExtractApartNest(path[1..], v, q[1..]);
    }
  }

  /** Setting one path leaves every path apart from it as it was. */
  lemma {:induction false} ExtractApart(j: Json, path: seq<string>, v: Json, q: seq<string>)
    requires Apart(path, q)
    ensures Extract(Put(j, path, v), q) == Extract(j, q)
    decreases |path|
  {
    if j.Obj? && path[0] == q[0] {
      if path[0] in j.fields {
        ExtractApart(j.fields[path[0]], path[1..], v, q[1..]);
      } else {
        ExtractApartNest(path[1..], v, q[1..]);
      }
    }
  }

  /** Only an object root can turn out settable at a first key, and it stays an object. */
  lemma PutKeepsShape(j: Json, path: seq<string>, v: Json)
    requires path != []
    ensures Put(j, path, v).Obj? <==> j.Obj?
  {
  }
}
