/**
 JSON values as the operator handles them once decoded, and the deep merge with which a
 device takes a partial config: objects merge key by key, anything else is replaced.
 */
module Json {
  import opened Wrappers

  datatype Json =
    | Null
    | Bool(b: bool)
    | Num(n: real)
    | Str(s: string)
    | Arr(items: seq<Json>)
    | Obj(fields: Object)

  type Object = map<string, Json>

  const EMPTY: Json := Obj(map[])

  function Get(m: Object, k: string): Option<Json>
  {
    if k in m then Some(m[k]) else None
  }

  /** The object a value is read as: a value that is none reads as the empty one. */
  function FieldsOf(j: Json): Object
  {
    if j.Obj? then j.fields else map[]
  }

  function OrNull(j: Option<Json>): Json
  {
    if j.Some? then j.value else Null
  }

  function Merge(dst: Json, src: Json): Json
    decreases src
  {
    if !src.Obj? then src
    else
      var d := FieldsOf(dst);
      Obj(map k | k in d.Keys + src.fields.Keys ::
            if k in src.fields then Merge(OrNull(Get(d, k)), src.fields[k]) else d[k])
  }

  lemma MergeAt(dst: Json, src: Json, k: string)
    requires src.Obj? && k in src.fields
    ensures Get(Merge(dst, src).fields, k) == Some(Merge(OrNull(Get(FieldsOf(dst), k)), src.fields[k]))
  {
  }

  lemma MergeKeys(dst: Json, src: Json)
    requires src.Obj?
    ensures Merge(dst, src).fields.Keys == FieldsOf(dst).Keys + src.fields.Keys
  {
  }

  /** merge as the device runs it: a copy of dst, overwritten key by key in no particular order. */
  method MergeMaps(dst: Object, src: Json) returns (out: Object)
    requires src.Obj?
    ensures Obj(out) == Merge(Obj(dst), src)
    decreases src
  {
    out := dst;
    var rest := src.fields.Keys;
    while rest != {}
      invariant rest <= src.fields.Keys
      invariant forall k :: Get(out, k) ==
                  if k in src.fields && k !in rest then Some(Merge(OrNull(Get(dst, k)), src.fields[k])) else Get(dst, k)
      decreases rest
    {
      var k :| k in rest;
      rest := rest - {k};
      var v := src.fields[k];
      if v.Obj? {
        var sub := MergeMaps(FieldsOf(OrNull(Get(dst, k))), v);
        out := out[k := Obj(sub)];
      } else {
        out := out[k := v];
      }
    }
    SameObject(out, Merge(Obj(dst), src).fields);
  }

  lemma SameObject(a: Object, b: Object)
    requires forall k :: Get(a, k) == Get(b, k)
    ensures a == b
  {
    assert forall k :: k in a <==> Get(a, k).Some?;
    assert forall k :: k in b <==> Get(b, k).Some?;
    assert forall k :: k in a ==> Get(a, k) == Some(a[k]) && Get(b, k) == Some(b[k]);
  }

  // ----- what a write reaches

  /** The value a path leads to, if it leads anywhere. */
  function Lookup(j: Json, path: seq<string>): Option<Json>
  {
    if path == [] then Some(j)
    else if j.Obj? && path[0] in j.fields then Lookup(j.fields[path[0]], path[1..])
    else None
  }

  /** The path leaves the written tree at a key the tree does not have. */
  predicate BranchesAway(src: Json, path: seq<string>)
  {
    path != [] && src.Obj? && (path[0] !in src.fields || BranchesAway(src.fields[path[0]], path[1..]))
  }

  /** A write changes nothing on a path that branches away from it. */
  lemma {:induction false} MergeLeavesOthersAlone(dst: Json, src: Json, path: seq<string>)
    requires BranchesAway(src, path)
    ensures Lookup(Merge(dst, src), path) == Lookup(dst, path)
    decreases src
  {
    var k := path[0];
    if k in src.fields {
      MergeLeavesOthersAlone(OrNull(Get(FieldsOf(dst), k)), src.fields[k], path[1..]);
    }
  }

  /** Writing the same thing again changes nothing. */
  lemma {:induction false} MergeIdempotent(dst: Json, src: Json)
    ensures Merge(Merge(dst, src), src) == Merge(dst, src)
    decreases src
  {
    if src.Obj? {
      var once, twice := Merge(dst, src), Merge(Merge(dst, src), src);
      forall k | k in src.fields ensures twice.fields[k] == once.fields[k] {
        MergeIdempotent(OrNull(Get(FieldsOf(dst), k)), src.fields[k]);
      }
      assert twice.fields == once.fields;
    }
  }
}
