/** JSON trees. Objects keep the order of their keys. */
module Json {
  datatype Field = Field(key: string, value: Json)

  /** Numbers are kept as written; nothing here computes with them. */
  datatype Json =
    | Null
    | Bool(b: bool)
    | Number(literal: string)
    | Str(s: string)
    | Arr(items: seq<Json>)
    | Obj(fields: seq<Field>)

  /** `d.get(key)`; a missing value and `null` are the same. */
  function Get(fields: seq<Field>, key: string): Json {
    if fields == [] then Null else if fields[0].key == key then fields[0].value else Get(fields[1..], key)
  }

  function GetIn(v: Json, key: string): Json { if v.Obj? then Get(v.fields, key) else Null }

  function ItemIn(v: Json, i: nat): Json { if v.Arr? && i < |v.items| then v.items[i] else Null }

  predicate DistinctKeys(fields: seq<Field>) { forall i, j :: 0 <= i < j < |fields| ==> fields[i].key != fields[j].key }

  /** A tree as a Python dictionary holds it: no key twice. */
  predicate WellFormed(v: Json) {
    match v
    case Arr(items) => forall i :: 0 <= i < |items| ==> WellFormed(items[i])
    case Obj(fields) => DistinctKeys(fields) && forall i :: 0 <= i < |fields| ==> WellFormed(fields[i].value)
    case _ => true
  }

  lemma {:induction false} GetAt(fields: seq<Field>, i: nat)
    requires DistinctKeys(fields) && i < |fields|
    ensures Get(fields, fields[i].key) == fields[i].value
  {
    if i > 0 { GetAt(fields[1..], i - 1); }
  }

  function KeySet(fields: seq<Field>): set<string> { set f | f in fields :: f.key }

  lemma {:induction false} IndexOf(fields: seq<Field>, k: string) returns (i: nat)
    requires k in KeySet(fields)
    ensures i < |fields| && fields[i].key == k && Get(fields, k) == fields[i].value
  {
    if fields[0].key == k {
      i := 0;
    } else {
      assert k in KeySet(fields[1..]) by {
        var f :| f in fields && f.key == k;
        assert f in fields[1..];
      }
      i := IndexOf(fields[1..], k);
      i := i + 1;
    }
  }

  lemma {:induction false} GetMissing(fields: seq<Field>, k: string)
    requires k !in KeySet(fields)
    ensures Get(fields, k) == Null
  {
    if fields != [] {
      assert fields[0] in fields;
      assert k !in KeySet(fields[1..]);
      GetMissing(fields[1..], k);
    }
  }

  predicate Matches(v: Json, shape: set<string>) { v.Obj? && KeySet(v.fields) == shape }

  // ---- positions in a tree ----

  datatype Step = Key(key: string) | Index(i: nat)

  /** The position exists in `v`. */
  predicate Exists(v: Json, path: seq<Step>)
    decreases |path|
  {
    path == [] ||
    match path[0]
    case Key(k) => v.Obj? && k in KeySet(v.fields) && Exists(Get(v.fields, k), path[1..])
    case Index(i) => v.Arr? && i < |v.items| && Exists(v.items[i], path[1..])
  }

  /** What is at a position; Null if it does not exist. */
  function At(v: Json, path: seq<Step>): Json
    decreases |path|
  {
    if path == [] then v else
    match path[0]
    case Key(k) => At(GetIn(v, k), path[1..])
    case Index(i) => At(ItemIn(v, i), path[1..])
  }
}
