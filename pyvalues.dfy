/**
 * Python values as the metadata layer sees them: the JSON-like payloads read back from the
 * store (None, bool, int, float, str, list, dict) plus the values that only exist in memory
 * (tuples and dataclass instances). A dict keeps its insertion order, as Python's does.
 */
module PyValues {
  import opened Wrappers
  import Strings

  datatype PyValue =
    | PNone
    | PBool(b: bool)
    | PInt(i: int)
    | PFloat(f: real)
    | PStr(s: string)
    | PList(items: seq<PyValue>)
    | PTuple(elems: seq<PyValue>)
    | PDict(entries: seq<(PyValue, PyValue)>)
    /** an instance of the dataclass `cls`, its fields in declaration order */
    | PObject(cls: string, fields: seq<(string, PyValue)>)

  function Keys(entries: seq<(PyValue, PyValue)>): (ks: seq<PyValue>)
    ensures |ks| == |entries|
    ensures forall i :: 0 <= i < |entries| ==> ks[i] == entries[i].0
  {
    seq(|entries|, i requires 0 <= i < |entries| => entries[i].0)
  }

  /** A Python dict never holds the same key twice. */
  predicate DistinctKeys(entries: seq<(PyValue, PyValue)>) {
    forall i, j :: 0 <= i < j < |entries| ==> entries[i].0 != entries[j].0
  }

  /** `d[k]`, with None for the KeyError of a missing key. */
  function DictGet(entries: seq<(PyValue, PyValue)>, k: PyValue): (r: Option<PyValue>)
    ensures r.None? <==> k !in Keys(entries)
    ensures r.Some? && DistinctKeys(entries) ==>
      exists i :: 0 <= i < |entries| && entries[i] == (k, r.value)
  {
    if entries == [] then None
    else if entries[|entries| - 1].0 == k then Some(entries[|entries| - 1].1)
    else DictGet(entries[..|entries| - 1], k)
  }

  /** Position of `k` among the keys, searching from the end. */
  function KeyIndex(entries: seq<(PyValue, PyValue)>, k: PyValue): (i: nat)
    requires k in Keys(entries)
    ensures i < |entries| && entries[i].0 == k
    ensures forall j :: i < j < |entries| ==> entries[j].0 != k
  {
    if entries[|entries| - 1].0 == k then |entries| - 1
    else
      assert Keys(entries) == Keys(entries[..|entries| - 1]) + [entries[|entries| - 1].0];
      KeyIndex(entries[..|entries| - 1], k)
  }

  /**
   * `d[k] = v`: a key already present keeps its position and takes the new value, a new key
   * goes at the end. This is also what a dict comprehension does with each pair it produces.
   */
  function DictSet(entries: seq<(PyValue, PyValue)>, k: PyValue, v: PyValue): (r: seq<(PyValue, PyValue)>)
    ensures k in Keys(entries) ==> |r| == |entries| && Keys(r) == Keys(entries)
    ensures k !in Keys(entries) ==> r == entries + [(k, v)]
    ensures DistinctKeys(entries) ==> DistinctKeys(r)
    ensures DistinctKeys(entries) ==> DictGet(r, k) == Some(v)
  {
    if k in Keys(entries) then entries[KeyIndex(entries, k) := (k, v)] else entries + [(k, v)]
  }

  /** In a dict without repeated keys, each entry is what its key looks up. */
  lemma DictGetAt(entries: seq<(PyValue, PyValue)>, i: nat)
    requires DistinctKeys(entries) && i < |entries|
    ensures DictGet(entries, entries[i].0) == Some(entries[i].1)
    decreases |entries|
  {
    var n := |entries| - 1;
    if i < n {
      var front := entries[..n];
      assert entries[n].0 != entries[i].0;
      assert DistinctKeys(front) by {
        forall a, b | 0 <= a < b < |front| ensures front[a].0 != front[b].0 {
          assert front[a] == entries[a] && front[b] == entries[b];
        }
      }
      assert front[i] == entries[i];
      DictGetAt(front, i);
    }
  }

  /** Setting one key changes the lookup of no other key. */
  lemma DictGetSetOther(entries: seq<(PyValue, PyValue)>, k: PyValue, v: PyValue, x: PyValue)
    requires DistinctKeys(entries) && x != k
    ensures DictGet(DictSet(entries, k, v), x) == DictGet(entries, x)
  {
    var r := DictSet(entries, k, v);
    if x in Keys(entries) {
      var i := KeyIndex(entries, x);
      DictGetAt(entries, i);
      assert r[i] == entries[i];
      DictGetAt(r, i);
    } else {
      DictSetOtherKey(entries, k, v, x);
    }
  }

  /** Setting a key keeps every key already present. */
  lemma DictSetKeepsKey(entries: seq<(PyValue, PyValue)>, k: PyValue, v: PyValue, x: PyValue)
    requires x in Keys(entries)
    ensures x in Keys(DictSet(entries, k, v))
  {
    var i := KeyIndex(entries, x);
    var r := DictSet(entries, k, v);
    if k !in Keys(entries) {
      assert Keys(r)[i] == r[i].0 == entries[i].0;
    }
  }

  /** `d[k] = v` for each pair in turn, as a dict comprehension fills its dict. */
  function SetAll(entries: seq<(PyValue, PyValue)>, pairs: seq<(PyValue, PyValue)>): (r: seq<(PyValue, PyValue)>)
    ensures DistinctKeys(entries) ==> DistinctKeys(r)
  {
    if pairs == [] then entries
    else DictSet(SetAll(entries, pairs[..|pairs| - 1]), pairs[|pairs| - 1].0, pairs[|pairs| - 1].1)
  }

  /** A key no pair sets keeps its lookup. */
  lemma {:induction false} SetAllKeeps(entries: seq<(PyValue, PyValue)>, pairs: seq<(PyValue, PyValue)>, x: PyValue)
    requires DistinctKeys(entries)
    requires forall l :: 0 <= l < |pairs| ==> pairs[l].0 != x
    ensures DictGet(SetAll(entries, pairs), x) == DictGet(entries, x)
  {
    if pairs != [] {
      var front := pairs[..|pairs| - 1];
      assert forall l :: 0 <= l < |front| ==> front[l] == pairs[l];
      SetAllKeeps(entries, front, x);
      DictGetSetOther(SetAll(entries, front), pairs[|pairs| - 1].0, pairs[|pairs| - 1].1, x);
    }
  }

  /** A key already present stays present. */
  lemma {:induction false} SetAllKeepsKey(entries: seq<(PyValue, PyValue)>, pairs: seq<(PyValue, PyValue)>, x: PyValue)
    requires x in Keys(entries)
    ensures x in Keys(SetAll(entries, pairs))
  {
    if pairs != [] {
      var front := pairs[..|pairs| - 1];
      SetAllKeepsKey(entries, front, x);
      DictSetKeepsKey(SetAll(entries, front), pairs[|pairs| - 1].0, pairs[|pairs| - 1].1, x);
    }
  }

  /** No pair after pair j sets the same key. */
  predicate LastToSet(pairs: seq<(PyValue, PyValue)>, j: nat)
    requires j < |pairs|
  {
    forall l :: j < l < |pairs| ==> pairs[l].0 != pairs[j].0
  }

  /** Every key set by a pair is present, with the value of the last pair that sets it. */
  lemma {:induction false} SetAllPair(entries: seq<(PyValue, PyValue)>, pairs: seq<(PyValue, PyValue)>, j: nat)
    requires DistinctKeys(entries) && j < |pairs|
    ensures pairs[j].0 in Keys(SetAll(entries, pairs))
    ensures LastToSet(pairs, j) ==> DictGet(SetAll(entries, pairs), pairs[j].0) == Some(pairs[j].1)
  {
    var n := |pairs| - 1;
    var front := pairs[..n];
    var before := SetAll(entries, front);
    if j == n {
      assert DictGet(SetAll(entries, pairs), pairs[j].0) == Some(pairs[j].1);
    } else {
      assert front[j] == pairs[j];
      SetAllPair(entries, front, j);
      DictSetKeepsKey(before, pairs[n].0, pairs[n].1, pairs[j].0);
      if LastToSet(pairs, j) {
        assert LastToSet(front, j) by {
          forall l | j < l < |front| ensures front[l].0 != front[j].0 {
            assert front[l] == pairs[l];
          }
        }
        DictGetSetOther(before, pairs[n].0, pairs[n].1, pairs[j].0);
      }
    }
  }

  /** Every key of the result was already present or is set by some pair. */
  lemma {:induction false} SetAllKeys(entries: seq<(PyValue, PyValue)>, pairs: seq<(PyValue, PyValue)>, x: PyValue)
    requires x in Keys(SetAll(entries, pairs))
    ensures x in Keys(entries) || exists l :: 0 <= l < |pairs| && pairs[l].0 == x
  {
    if pairs != [] {
      var n := |pairs| - 1;
      var front := pairs[..n];
      if x != pairs[n].0 {
        var before := SetAll(entries, front);
        assert x in Keys(before) by {
          if x !in Keys(before) {
            DictSetOtherKey(before, pairs[n].0, pairs[n].1, x);
          }
        }
        SetAllKeys(entries, front, x);
        if x !in Keys(entries) {
          var l :| 0 <= l < |front| && front[l].0 == x;
          assert pairs[l].0 == x;
        }
      }
    }
  }

  /** Setting one key adds no other key. */
  lemma DictSetOtherKey(entries: seq<(PyValue, PyValue)>, k: PyValue, v: PyValue, x: PyValue)
    requires x != k && x !in Keys(entries)
    ensures x !in Keys(DictSet(entries, k, v))
  {
    if k !in Keys(entries) {
      var r := DictSet(entries, k, v);
      assert Keys(r) == Keys(entries) + [k];
    }
  }

  /** What `json.loads` can produce: no tuples, no dataclass instances, only string keys. */
  predicate IsJson(v: PyValue) {
    match v
    case PTuple(_) => false
    case PObject(_, _) => false
    case PList(items) => forall i :: 0 <= i < |items| ==> IsJson(items[i])
    case PDict(entries) =>
      forall i :: 0 <= i < |entries| ==> entries[i].0.PStr? && IsJson(entries[i].1)
    case _ => true
  }

  /** `json.dumps` writes an int, bool or None dict key as a string; string keys stay as they are. */
  function JsonKey(k: PyValue): PyValue {
    match k
    case PInt(n) => PStr(Strings.IntToString(n))
    case PBool(b) => PStr(if b then "true" else "false")
    case PNone => PStr("null")
    case _ => k
  }

  /**
   * The value `json.loads(json.dumps(dataclasses.asdict(v)))` gives back: a dataclass instance
   * becomes an object keyed by its field names, a tuple becomes a list, an int key a string.
   */
  function ToJson(v: PyValue): PyValue {
    match v
    case PList(items) => PList(seq(|items|, i requires 0 <= i < |items| => ToJson(items[i])))
    case PTuple(elems) => PList(seq(|elems|, i requires 0 <= i < |elems| => ToJson(elems[i])))
    case PDict(entries) =>
      PDict(seq(|entries|, i requires 0 <= i < |entries| => (JsonKey(entries[i].0), ToJson(entries[i].1))))
    case PObject(_, fields) =>
      PDict(seq(|fields|, i requires 0 <= i < |fields| => (PStr(fields[i].0), ToJson(fields[i].1))))
    case _ => v
  }

  /** Writing a value that is already JSON and reading it back changes nothing. */
  lemma {:induction false} ToJsonOfJson(v: PyValue)
    requires IsJson(v)
    ensures ToJson(v) == v
  {
    match v
    case PList(items) =>
      forall i | 0 <= i < |items| ensures ToJson(items[i]) == items[i] {
        ToJsonOfJson(items[i]);
      }
    case PDict(entries) =>
      forall i | 0 <= i < |entries|
        ensures (JsonKey(entries[i].0), ToJson(entries[i].1)) == entries[i]
      {
        ToJsonOfJson(entries[i].1);
      }
    case _ =>
  }

  /** In a dict without repeated keys, looking up the key of an entry finds that entry's value. */
  lemma {:induction false} DictGetEntry(entries: seq<(PyValue, PyValue)>, i: nat)
    requires DistinctKeys(entries) && i < |entries|
    ensures DictGet(entries, entries[i].0) == Some(entries[i].1)
  {
    if i < |entries| - 1 {
      DictGetEntry(entries[..|entries| - 1], i);
    }
  }

  lemma ToJsonEntries(entries: seq<(PyValue, PyValue)>)
    ensures ToJson(PDict(entries)).PDict?
    ensures |ToJson(PDict(entries)).entries| == |entries|
    ensures forall i :: 0 <= i < |entries| ==>
              ToJson(PDict(entries)).entries[i] == (JsonKey(entries[i].0), ToJson(entries[i].1))
  {
  }

  lemma ToJsonItems(v: PyValue)
    requires v.PList? || v.PTuple?
    ensures ToJson(v).PList?
    ensures |ToJson(v).items| == |Items(v)|
    ensures forall i :: 0 <= i < |Items(v)| ==> ToJson(v).items[i] == ToJson(Items(v)[i])
  {
  }

  lemma ToJsonFields(cls: string, fields: seq<(string, PyValue)>)
    ensures ToJson(PObject(cls, fields)).PDict?
    ensures |ToJson(PObject(cls, fields)).entries| == |fields|
    ensures forall i :: 0 <= i < |fields| ==>
              ToJson(PObject(cls, fields)).entries[i] == (PStr(fields[i].0), ToJson(fields[i].1))
  {
  }

  /** The elements of a list or a tuple, which is what iterating over either yields. */
  function Items(v: PyValue): seq<PyValue>
    requires v.PList? || v.PTuple?
  {
    if v.PList? then v.items else v.elems
  }
}
