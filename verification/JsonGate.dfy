/**
 * The gate in front of a critter's JSON: a recursive walk that threads one mutable node counter
 * through the whole value.
 */
module JsonGate {
  import opened Basics

  const MAX_DEPTH: nat := 64
  const MAX_NODES: nat := 65_536
  const I64_MAX: int := 0x7FFF_FFFF_FFFF_FFFF

  /** A JSON number as parsed: an integer of either 64-bit range, or a float that may not be finite. */
  datatype Number = Integer(value: int) | Float(finite: bool)

  datatype Json =
    | Null
    | Bool(value: bool)
    | Text(text: string)
    | Num(number: Number)
    | Array(values: seq<Json>)
    | Object(members: map<string, Json>)

  predicate NumberOk(n: Number) {
    match n
    case Integer(value) => value <= I64_MAX
    case Float(finite) => finite
  }

  // ---- the measures of a value ----

  ghost function Size(v: Json): nat
    decreases v, 1
  {
    match v
    case Array(_) => 1 + Total(ArraySizes(v))
    case Object(_) => 1 + Total(ObjectSizes(v))
    case _ => 1
  }

  ghost function ArraySizes(v: Json): map<int, nat>
    requires v.Array?
    decreases v, 0
  {
    map i | 0 <= i < |v.values| :: Size(v.values[i])
  }

  ghost function ObjectSizes(v: Json): map<string, nat>
    requires v.Object?
    decreases v, 0
  {
    map k | k in v.members :: Size(v.members[k])
  }

  /** The depth of the deepest value inside `v`, which itself is at depth zero. */
  ghost function Height(v: Json): nat
    decreases v, 1
  {
    match v
    case Array(values) => if values == [] then 0 else 1 + MaxOf(ArrayHeights(v))
    case Object(members) => if members == map[] then 0 else 1 + MaxOf(ObjectHeights(v))
    case _ => 0
  }

  ghost function ArrayHeights(v: Json): map<int, nat>
    requires v.Array?
    decreases v, 0
  {
    map i | 0 <= i < |v.values| :: Height(v.values[i])
  }

  ghost function ObjectHeights(v: Json): map<string, nat>
    requires v.Object?
    decreases v, 0
  {
    map k | k in v.members :: Height(v.members[k])
  }

  ghost predicate NumbersOk(v: Json) {
    match v
    case Num(Integer(value)) => value <= 9_223_372_036_854_775_807
    case Num(Float(finite)) => finite
    case Array(values) => forall i | 0 <= i < |values| :: NumbersOk(values[i])
    case Object(members) => forall k | k in members :: NumbersOk(members[k])
    case _ => true
  }

  /** What the walk should decide for a value met at `depth` after `nodes` others. */
  ghost predicate Acceptable(v: Json, depth: nat, nodes: nat) {
    depth + Height(v) <= MAX_DEPTH && nodes + Size(v) <= MAX_NODES && NumbersOk(v)
  }

  // ---- children against their container ----

  /** The sizes of the members still to be visited. */
  ghost function ObjectRest(v: Json, todo: set<string>): map<string, nat>
    requires v.Object?
  {
    map k | k in todo && k in v.members :: Size(v.members[k])
  }

  ghost function ArrayRest(v: Json, from: int): map<int, nat>
    requires v.Array? && 0 <= from
  {
    map i | from <= i < |v.values| :: Size(v.values[i])
  }

  lemma RestAtStart(v: Json)
    ensures v.Array? ==> Size(v) == 1 + Total(ArrayRest(v, 0)) && Total(ArrayRest(v, |v.values|)) == 0
    ensures v.Object? ==> Size(v) == 1 + Total(ObjectRest(v, v.members.Keys)) && Total(ObjectRest(v, {})) == 0
  {
    if v.Array? {
      assert ArrayRest(v, 0) == ArraySizes(v);
      assert ArrayRest(v, |v.values|) == map[];
    } else if v.Object? {
      assert ObjectRest(v, v.members.Keys) == ObjectSizes(v);
      assert ObjectRest(v, {}) == map[];
    }
  }

  lemma ArrayRestNext(v: Json, i: int)
    requires v.Array? && 0 <= i < |v.values|
    ensures Total(ArrayRest(v, i)) == Size(v.values[i]) + Total(ArrayRest(v, i + 1))
  {
    hide Size;
    TotalRemove(ArrayRest(v, i), i);
    assert ArrayRest(v, i) - {i} == ArrayRest(v, i + 1);
  }

  lemma ObjectRestNext(v: Json, todo: set<string>, k: string)
    requires v.Object? && k in todo && k in v.members
    ensures Total(ObjectRest(v, todo)) == Size(v.members[k]) + Total(ObjectRest(v, todo - {k}))
  {
    hide Size;
    TotalRemove(ObjectRest(v, todo), k);
    assert ObjectRest(v, todo) - {k} == ObjectRest(v, todo - {k});
  }

  /** A container is as high as its highest child, plus one. */
  lemma ArrayHeight(v: Json, h: nat)
    requires v.Array?
    ensures Height(v) <= h <==> forall i | 0 <= i < |v.values| :: Height(v.values[i]) + 1 <= h
  {
    var m := ArrayHeights(v);
    if v.values != [] && forall i | 0 <= i < |v.values| :: Height(v.values[i]) + 1 <= h {
      assert Height(v.values[0]) + 1 <= h;
      MaxOfBelow(m, h);
    }
    forall i | 0 <= i < |v.values|
      ensures Height(v) >= 1 + Height(v.values[i])
    {
      MaxOfRemove(m, i);
    }
  }

  lemma ObjectHeight(v: Json, h: nat)
    requires v.Object?
    ensures Height(v) <= h <==> forall k | k in v.members :: Height(v.members[k]) + 1 <= h
  {
    var m := ObjectHeights(v);
    if v.members != map[] && forall k | k in v.members :: Height(v.members[k]) + 1 <= h {
      var k :| k in v.members;
      assert Height(v.members[k]) + 1 <= h;
      MaxOfBelow(m, h);
    }
    forall k | k in v.members
      ensures Height(v) >= 1 + Height(v.members[k])
    {
      MaxOfRemove(m, k);
    }
  }

  // ---- the walk ----

  method CountNode(depth: nat, nodes: nat) returns (ok: bool, nodes': nat)
    ensures ok <==> depth <= MAX_DEPTH && nodes + 1 <= MAX_NODES
    ensures ok ==> nodes' == nodes + 1
  {
    if depth > MAX_DEPTH {
      return false, nodes;
    }
    return nodes + 1 <= MAX_NODES, nodes + 1;
  }

  /**
   * The recursive walk accepts a value exactly when every value in it is at depth 64 or less, the
   * whole value and everything counted before it come to at most 65,536, and every number is in
   * range; and it then has counted each value once. The members of an object may be met in any order.
   */
  method ValidateJson(v: Json, depth: nat, nodes: nat) returns (ok: bool, nodes': nat)
    ensures ok <==> Acceptable(v, depth, nodes)
    ensures ok ==> nodes' == nodes + Size(v)
    decreases v, 1
  {
    ok, nodes' := CountNode(depth, nodes);
    if !ok {
      return;
    }
    match v {
      case Num(number) =>
        ok := NumberOk(number);
      case Array(_) =>
        ok, nodes' := ValidateArray(v, depth, nodes');
      case Object(_) =>
        ok, nodes' := ValidateObject(v, depth, nodes');
      case _ =>
    }
  }

  method ValidateArray(v: Json, depth: nat, nodes: nat) returns (ok: bool, nodes': nat)
    requires v.Array? && depth <= MAX_DEPTH && 1 <= nodes <= MAX_NODES
    ensures ok <==> Acceptable(v, depth, nodes - 1)
    ensures ok ==> nodes' == nodes - 1 + Size(v)
    decreases v, 0
  {
    hide Size, Height, Total, ArrayRest;
    RestAtStart(v);
    ArrayHeight(v, MAX_DEPTH - depth);
    nodes' := nodes;
    var i := 0;
    while i < |v.values|
      invariant 0 <= i <= |v.values| && nodes' <= MAX_NODES
      invariant nodes' + Total(ArrayRest(v, i)) == nodes - 1 + Size(v)
      invariant forall j | 0 <= j < i :: Height(v.values[j]) + 1 <= MAX_DEPTH - depth && NumbersOk(v.values[j])
    {
      ArrayRestNext(v, i);
      ok, nodes' := ValidateJson(v.values[i], depth + 1, nodes');
      if !ok {
        return;
      }
      i := i + 1;
    }
    return true, nodes';
  }

  method ValidateObject(v: Json, depth: nat, nodes: nat) returns (ok: bool, nodes': nat)
    requires v.Object? && depth <= MAX_DEPTH && 1 <= nodes <= MAX_NODES
    ensures ok <==> Acceptable(v, depth, nodes - 1)
    ensures ok ==> nodes' == nodes - 1 + Size(v)
    decreases v, 0
  {
    hide Size, Height, Total, ObjectRest;
    RestAtStart(v);
    ObjectHeight(v, MAX_DEPTH - depth);
    nodes' := nodes;
    var todo := v.members.Keys;
    while todo != {}
      invariant todo <= v.members.Keys && nodes' <= MAX_NODES
      invariant nodes' + Total(ObjectRest(v, todo)) == nodes - 1 + Size(v)
      invariant forall k | k in v.members && k !in todo ::
                  Height(v.members[k]) + 1 <= MAX_DEPTH - depth && NumbersOk(v.members[k])
      decreases todo
    {
      var k :| k in todo;
      ObjectRestNext(v, todo, k);
      ok, nodes' := ValidateJson(v.members[k], depth + 1, nodes');
      if !ok {
        return;
      }
      todo := todo - {k};
    }
    return true, nodes';
  }

  /** The gate as `parse_json` calls it. */
  method JsonAdmitted(v: Json) returns (ok: bool)
    ensures ok <==> Height(v) <= 64 && Size(v) <= 65_536 && NumbersOk(v)
  {
    var nodes;
    ok, nodes := ValidateJson(v, 0, 0);
  }
}
