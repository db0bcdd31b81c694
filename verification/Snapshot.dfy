/**
  Board snapshots as the release validators read them: raw JSON, compared with
  Python's equality, in which True equals 1 and False equals 0.
 */
module Snapshot {
  import opened Decimals
  import opened Json

  type Value = Json<string>
  type Dict = map<string, Value>

  predicate IsNumber(v: Value) {
    v.Bool? || v.Int?
  }

  function Number(v: Value): int
    requires IsNumber(v)
  {
    if v.Bool? then (if v.truth then 1 else 0) else v.number
  }

  /** == between two loaded values. */
  predicate PyEq(a: Value, b: Value)
    decreases a
  {
    match a
    case Null => b.Null?
    case Bool(_) => IsNumber(b) && Number(a) == Number(b)
    case Int(_) => IsNumber(b) && Number(a) == Number(b)
    case Str(_) => a == b
    case Array(items) => b.Array? && |items| == |b.items| && forall i :: 0 <= i < |items| ==> PyEq(items[i], b.items[i])
    case Object(members) => b.Object? && members.Keys == b.members.Keys && forall k :: k in members ==> PyEq(members[k], b.members[k])
  }

  lemma {:induction false} PyEqReflexive(a: Value)
    ensures PyEq(a, a)
    decreases a
  {
    match a
    case Array(items) =>
      forall i | 0 <= i < |items| ensures PyEq(items[i], items[i]) {
        PyEqReflexive(items[i]);
      }
    case Object(members) =>
      forall k | k in members ensures PyEq(members[k], members[k]) {
        PyEqReflexive(members[k]);
      }
    case _ =>
  }

  lemma {:induction false} PyEqSymmetric(a: Value, b: Value)
    requires PyEq(a, b)
    ensures PyEq(b, a)
    decreases a
  {
    match a
    case Array(items) =>
      forall i | 0 <= i < |items| ensures PyEq(b.items[i], items[i]) {
        PyEqSymmetric(items[i], b.items[i]);
      }
    case Object(members) =>
      forall k | k in members ensures PyEq(b.members[k], members[k]) {
        PyEqSymmetric(members[k], b.members[k]);
      }
    case _ =>
  }

  lemma {:induction false} PyEqTransitive(a: Value, b: Value, c: Value)
    requires PyEq(a, b) && PyEq(b, c)
    ensures PyEq(a, c)
    decreases a
  {
    match a
    case Array(items) =>
      forall i | 0 <= i < |items| ensures PyEq(items[i], c.items[i]) {
        PyEqTransitive(items[i], b.items[i], c.items[i]);
      }
    case Object(members) =>
      forall k | k in members ensures PyEq(members[k], c.members[k]) {
        PyEqTransitive(members[k], b.members[k], c.members[k]);
      }
    case _ =>
  }

  /** Lists and dicts under the same equality. */
  predicate SameList(a: seq<Value>, b: seq<Value>) {
    PyEq(Array(a), Array(b))
  }

  predicate SameDict(a: Dict, b: Dict) {
    PyEq(Object(a), Object(b))
  }

  /** dict.get. */
  function Get(d: Dict, key: string): Value {
    if key in d then d[key] else Null
  }

  function Without(d: Dict, keys: set<string>): Dict {
    map k | k in d && k !in keys :: d[k]
  }

  /** A string that strip() leaves something of. */
  predicate Filled(v: Value) {
    v.Str? && exists i :: 0 <= i < |v.text| && !IsPythonSpace(v.text[i] as int)
  }

  const REQUIRED: set<string> := {"task", "latest_summary", "parents", "children", "comments", "events", "runs"}

  /** snapshot_authority accepts the root. */
  predicate IsAuthority(root: Dict) {
    REQUIRED <= root.Keys && root["task"].Object?
  }
}
