/** Flattening a JSON value into fields (src/body.py:181-203): every leaf becomes a field under its path, and of leaves
  that share a path the last one stays. */
module Flatten {
  import opened Broker
  import opened Naming

  /** A scalar or array is a leaf with its cell text and its compact JSON text; an object holds its members in order. */
  datatype Json = Leaf(cell: string, compact: string) | Object(members: Members)

  datatype Members = End | Member(key: string, value: Json, rest: Members)

  predicate Named(ms: Members, key: string) {
    ms.Member? && (ms.key == key || Named(ms.rest, key))
  }

  /** No object has the same key twice. Keys are texts: the keys 1 and "1" of an AMQP map are the same one here. */
  predicate DistinctKeys(v: Json) {
    v.Leaf? || DistinctMembers(v.members)
  }

  predicate DistinctMembers(ms: Members) {
    ms.End? || (!Named(ms.rest, ms.key) && DistinctKeys(ms.value) && DistinctMembers(ms.rest))
  }

  /** `_flatten_leaf` and the loop over the members of an object. */
  function FlattenLeaf(v: Json, path: Path): map<Path, string> {
    if v.Leaf? then map[path := v.cell]
    else if v.members.End? then map[path := "{}"]
    else FlattenMembers(v.members, path)
  }

  function FlattenMembers(ms: Members, path: Path): map<Path, string> {
    if ms.End? then map[] else FlattenLeaf(ms.value, path + [ms.key]) + FlattenMembers(ms.rest, path)
  }

  function FlattenValue(v: Json): map<Path, string> {
    if v.Leaf? then map[[] := v.compact] else FlattenMembers(v.members, [])
  }

  /** Follows a path down to a leaf: what a reader of the JSON text finds there. */
  function At(v: Json, path: Path): Option<string> {
    if v.Leaf? then (if path == [] then Some(v.cell) else None)
    else if path == [] then (if v.members.End? then Some("{}") else None)
    else AtMember(v.members, path)
  }

  function AtMember(ms: Members, path: Path): Option<string>
    requires path != []
  {
    if ms.End? then None
    else if ms.key == path[0] then At(ms.value, path[1..])
    else AtMember(ms.rest, path)
  }

  function Lookup(fields: map<Path, string>, path: Path): Option<string> {
    if path in fields then Some(fields[path]) else None
  }

  lemma {:induction false} AtNamed(ms: Members, path: Path)
    requires path != []
    ensures AtMember(ms, path).Some? ==> Named(ms, path[0])
  {
    if ms.Member? {
      AtNamed(ms.rest, path);
    }
  }

  /** Every field lies below the path it was flattened under. */
  lemma {:induction false} FieldsAreBelow(v: Json, path: Path, p: Path)
    requires p in FlattenLeaf(v, path)
    ensures path <= p
    decreases v
  {
    if v.Object? && v.members.Member? {
      MembersAreBelow(v.members, path, p);
    }
  }

  lemma {:induction false} MembersAreBelow(ms: Members, path: Path, p: Path)
    requires p in FlattenMembers(ms, path)
    ensures path < p && Named(ms, p[|path|])
    decreases ms
  {
    if p in FlattenMembers(ms.rest, path) {
      MembersAreBelow(ms.rest, path, p);
    } else {
      FieldsAreBelow(ms.value, path + [ms.key], p);
      assert p[|path|] == (path + [ms.key])[|path|];
    }
  }

  /** The fields under `path` are exactly the leaves of the value. */
  lemma {:induction false} FieldsAreLeaves(v: Json, path: Path, rest: Path)
    requires DistinctKeys(v)
    ensures Lookup(FlattenLeaf(v, path), path + rest) == At(v, rest)
    decreases v
  {
    if v.Leaf? || v.members.End? {
      assert path + rest == path <==> rest == [];
    } else {
      if rest == [] && path + rest in FlattenMembers(v.members, path) {
        MembersAreBelow(v.members, path, path + rest);
      }
      if rest != [] {
        MembersAreLeaves(v.members, path, rest);
      }
    }
  }

  lemma {:induction false} MembersAreLeaves(ms: Members, path: Path, rest: Path)
    requires DistinctMembers(ms) && rest != []
    ensures Lookup(FlattenMembers(ms, path), path + rest) == AtMember(ms, rest)
    decreases ms
  {
    if ms.Member? {
      var p, key := path + rest, path + [ms.key];
      MembersAreLeaves(ms.rest, path, rest);
      AtNamed(ms.rest, rest);
      assert p[|path|] == rest[0] && key[|path|] == ms.key;
      if ms.key == rest[0] {
        assert p == key + rest[1..];
        FieldsAreLeaves(ms.value, key, rest[1..]);
      } else if p in FlattenLeaf(ms.value, key) {
        FieldsAreBelow(ms.value, key, p);
      }
    }
  }

  /** What a field of the whole value must hold: a root that is no object is one field, an empty root object has
    none. */
  function RootAt(v: Json, path: Path): Option<string> {
    if v.Leaf? then (if path == [] then Some(v.compact) else None)
    else if v.members.End? then None
    else At(v, path)
  }

  /** Flattening loses and invents nothing: the field under a path is exactly the leaf found there. */
  lemma FlattenIsExact(v: Json, path: Path)
    requires DistinctKeys(v)
    ensures Lookup(FlattenValue(v), path) == RootAt(v, path)
  {
    if v.Object? && v.members.Member? {
      assert [] + path == path;
      FieldsAreLeaves(v, [], path);
    }
  }

  // ---------------------------------------------------------------- any value, keys that coincide included

  /** All leaves in order, each with its path. */
  function Leaves(v: Json, path: Path): seq<(Path, string)> {
    if v.Leaf? then [(path, v.cell)]
    else if v.members.End? then [(path, "{}")]
    else MemberLeaves(v.members, path)
  }

  function MemberLeaves(ms: Members, path: Path): seq<(Path, string)> {
    if ms.End? then [] else Leaves(ms.value, path + [ms.key]) + MemberLeaves(ms.rest, path)
  }

  function RootLeaves(v: Json): seq<(Path, string)> {
    if v.Leaf? then [([], v.compact)] else MemberLeaves(v.members, [])
  }

  function LastUnder(leaves: seq<(Path, string)>, path: Path): Option<string> {
    if leaves == [] then None
    else if leaves[|leaves| - 1].0 == path then Some(leaves[|leaves| - 1].1)
    else LastUnder(leaves[..|leaves| - 1], path)
  }

  lemma {:induction false} LastUnderConcat(a: seq<(Path, string)>, b: seq<(Path, string)>, path: Path)
    ensures LastUnder(a + b, path) == if LastUnder(b, path).Some? then LastUnder(b, path) else LastUnder(a, path)
  {
    if b == [] {
      assert a + b == a;
    } else {
      assert (a + b)[..|a + b| - 1] == a + b[..|b| - 1];
      LastUnderConcat(a, b[..|b| - 1], path);
    }
  }

  lemma {:induction false} LastUnderAt(leaves: seq<(Path, string)>, i: nat)
    requires i < |leaves| && forall j :: i < j < |leaves| ==> leaves[j].0 != leaves[i].0
    ensures LastUnder(leaves, leaves[i].0) == Some(leaves[i].1)
  {
    if i < |leaves| - 1 {
      LastUnderAt(leaves[..|leaves| - 1], i);
    }
  }

  lemma {:induction false} LeafTakesLast(v: Json, path: Path, p: Path)
    ensures Lookup(FlattenLeaf(v, path), p) == LastUnder(Leaves(v, path), p)
    decreases v
  {
    if v.Object? && v.members.Member? {
      MembersTakeLast(v.members, path, p);
    }
  }

  lemma {:induction false} MembersTakeLast(ms: Members, path: Path, p: Path)
    ensures Lookup(FlattenMembers(ms, path), p) == LastUnder(MemberLeaves(ms, path), p)
    decreases ms
  {
    if ms.Member? {
      LeafTakesLast(ms.value, path + [ms.key], p);
      MembersTakeLast(ms.rest, path, p);
      LastUnderConcat(Leaves(ms.value, path + [ms.key]), MemberLeaves(ms.rest, path), p);
    }
  }

  /** Whatever the keys: the field under a path is the last leaf with that path, and there is none without a leaf. */
  lemma FlattenKeepsTheLast(v: Json, path: Path)
    ensures Lookup(FlattenValue(v), path) == LastUnder(RootLeaves(v), path)
  {
    if v.Object? {
      MembersTakeLast(v.members, [], path);
    }
  }

  /** A leaf keeps its field unless a later one has the same path. */
  lemma LeafIsKept(v: Json, i: nat)
    requires i < |RootLeaves(v)|
    ensures var leaves := RootLeaves(v);
            (forall j :: i < j < |leaves| ==> leaves[j].0 != leaves[i].0) ==>
              Lookup(FlattenValue(v), leaves[i].0) == Some(leaves[i].1)
  {
    FlattenKeepsTheLast(v, RootLeaves(v)[i].0);
    if forall j :: i < j < |RootLeaves(v)| ==> RootLeaves(v)[j].0 != RootLeaves(v)[i].0 {
      LastUnderAt(RootLeaves(v), i);
    }
  }

  /** Two keys with the same text: the first leaf is lost. */
  lemma CoincidingKeysLoseALeaf(v: Json)
    requires v == Object(Member("1", Leaf("a", "a"), Member("1", Leaf("b", "b"), End)))
    ensures |RootLeaves(v)| == 2 && FlattenValue(v) == map[["1"] := "b"]
  {
    var root: Path := [];
    assert root + ["1"] == ["1"];
    assert FlattenMembers(End, root) == map[];
    assert FlattenMembers(Member("1", Leaf("b", "b"), End), root) == map[["1"] := "b"];
    assert MemberLeaves(Member("1", Leaf("b", "b"), End), root) == [(["1"], "b")];
  }

  lemma {:induction false} LeavesAreBelow(v: Json, path: Path, i: nat)
    requires i < |Leaves(v, path)|
    ensures path <= Leaves(v, path)[i].0
    decreases v
  {
    if v.Object? && v.members.Member? {
      MemberLeavesAreBelow(v.members, path, i);
    }
  }

  lemma {:induction false} MemberLeavesAreBelow(ms: Members, path: Path, i: nat)
    requires i < |MemberLeaves(ms, path)|
    ensures var p := MemberLeaves(ms, path)[i].0; path < p && Named(ms, p[|path|])
    decreases ms
  {
    var first := Leaves(ms.value, path + [ms.key]);
    if i < |first| {
      LeavesAreBelow(ms.value, path + [ms.key], i);
      assert first[i].0[|path|] == (path + [ms.key])[|path|];
    } else {
      MemberLeavesAreBelow(ms.rest, path, i - |first|);
    }
  }

  /** Without coinciding keys no two leaves share a path, so none is lost. */
  lemma {:induction false} LeavesApart(v: Json, path: Path, i: nat, j: nat)
    requires DistinctKeys(v) && i < j < |Leaves(v, path)|
    ensures Leaves(v, path)[i].0 != Leaves(v, path)[j].0
    decreases v
  {
    MemberLeavesApart(v.members, path, i, j);
  }

  lemma {:induction false} MemberLeavesApart(ms: Members, path: Path, i: nat, j: nat)
    requires DistinctMembers(ms) && i < j < |MemberLeaves(ms, path)|
    ensures MemberLeaves(ms, path)[i].0 != MemberLeaves(ms, path)[j].0
    decreases ms
  {
    var key := path + [ms.key];
    var first, rest := Leaves(ms.value, key), MemberLeaves(ms.rest, path);
    if j < |first| {
      LeavesApart(ms.value, key, i, j);
    } else if i < |first| {
      LeavesAreBelow(ms.value, key, i);
      MemberLeavesAreBelow(ms.rest, path, j - |first|);
      assert first[i].0[|path|] == key[|path|] == ms.key;
    } else {
      MemberLeavesApart(ms.rest, path, i - |first|, j - |first|);
    }
  }

  /** So every leaf of such a value has its field. */
  lemma NothingIsLostInFields(v: Json, i: nat)
    requires DistinctKeys(v) && i < |RootLeaves(v)|
    ensures Lookup(FlattenValue(v), RootLeaves(v)[i].0) == Some(RootLeaves(v)[i].1)
  {
    forall j | i < j < |RootLeaves(v)| ensures RootLeaves(v)[j].0 != RootLeaves(v)[i].0 {
      MemberLeavesApart(v.members, [], i, j);
    }
    LeafIsKept(v, i);
  }
}
