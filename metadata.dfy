/**
 * The catalog metadata records and `md_from_dict`, which rebuilds a record (with its nested
 * records, lists, dicts and tuples) from the JSON stored for it. A Python type annotation is
 * a `TypeDesc`; a record is a `PyValue.PObject` whose fields follow the declaration order.
 */
module Metadata {
  import opened Wrappers
  import opened PyValues
  import Strings

  /** The key types used in `Dict[K, V]` annotations: `key_type(key)` is `int(key)` or `str(key)`. */
  datatype KeyType = IntKey | StrKey

  /** A type annotation, as far as `md_from_dict` distinguishes them. */
  datatype TypeDesc =
    /** a dataclass and its fields in declaration order */
    | Dataclass(name: string, fields: seq<(string, TypeDesc)>)
    /** `Union[...]`: its members other than None, and whether None is one of them */
    | UnionOf(members: seq<TypeDesc>, hasNone: bool)
    | ListOf(elem: TypeDesc)
    | DictOf(key: KeyType, val: TypeDesc)
    | TupleOf(elems: seq<TypeDesc>)
    /** any other generic alias, such as `Set[int]` */
    | OtherGeneric
    /** a plain class such as `int`, `str` or `dict`, or `Any` */
    | Leaf(name: string)

  /** `Optional[X]` */
  function Optional(t: TypeDesc): TypeDesc {
    UnionOf([t], true)
  }

  /** The exceptions `md_from_dict` can raise on malformed data. */
  datatype DecodeError =
    /** data that has no keys or items where a dataclass or dict is expected */
    | NotAMapping
    /** data that cannot be iterated where a list or tuple is expected */
    | NotIterable
    /** the KeyError of a key that is not a field of the dataclass */
    | UnknownField(key: PyValue)
    /** the TypeError of a dataclass constructed without one of its fields */
    | MissingField(name: string)
    /** the ValueError or TypeError of `int(key)` on a key that is not an integer */
    | BadKey(key: PyValue)

  /** Position of the field called `f`, if the dataclass has one. */
  function FieldIndex(fields: seq<(string, TypeDesc)>, f: string): (r: Option<nat>)
    ensures r.None? <==> forall i :: 0 <= i < |fields| ==> fields[i].0 != f
    ensures r.Some? ==> r.value < |fields| && fields[r.value].0 == f
    ensures r.Some? ==> forall i :: 0 <= i < r.value ==> fields[i].0 != f
  {
    if fields == [] then None
    else if fields[0].0 == f then Some(0)
    else
      match FieldIndex(fields[1..], f)
      case None => None
      case Some(i) => Some(i + 1)
  }

  /** The keys `key_type` produces: ints for `int`, strings for `str`. */
  predicate KeyConverted(kt: KeyType, key: PyValue) {
    if kt == IntKey then key.PInt? else key.PStr?
  }

  /** `key_type(key)` for the key types of the metadata records. */
  function ConvertKey(kt: KeyType, key: PyValue): (r: Result<PyValue, DecodeError>)
    ensures r.Success? ==> KeyConverted(kt, r.value)
    ensures kt == IntKey && key.PStr? ==> r.Success? == Strings.ParseInt(key.s).Some?
  {
    match kt
    case IntKey =>
      (match key
       case PStr(s) =>
         (match Strings.ParseInt(s)
          case Some(n) => Success(PInt(n))
          case None => Failure(BadKey(key)))
       case PInt(n) => Success(key)
       case PBool(b) => Success(PInt(if b then 1 else 0))
       case _ => Failure(BadKey(key)))
    case StrKey =>
      (match key
       case PStr(_) => Success(key)
       case PInt(n) => Success(PStr(Strings.IntToString(n)))
       case PBool(b) => Success(PStr(if b then "True" else "False"))
       case PNone => Success(PStr("None"))
       case _ => Failure(BadKey(key)))
  }

  /**
   * `md_from_dict(T, data)`. A dataclass is built from the keys present in the data, each
   * decoded with its field's type; `Optional[X]` keeps None and decodes anything else as X;
   * lists, dicts and tuples are decoded element by element, tuples paired with their element
   * types up to the shorter of the two; a plain class returns the data as it is. Any other
   * generic, including a union that is not `Optional[X]`, falls through and yields None.
   */
  function MdFromDict(T: TypeDesc, data: PyValue): (r: Result<PyValue, DecodeError>)
    decreases T, 1, 0
  {
    match T
    case Dataclass(name, fields) =>
      if !data.PDict? then Failure(NotAMapping)
      else
        var kwargs :- DecodeFields(T, data.entries, 0, []);
        var values :- Assemble(fields, kwargs, 0);
        Success(PObject(name, values))
    case UnionOf(members, hasNone) =>
      if hasNone && |members| == 1 then
        if data.PNone? then Success(PNone) else MdFromDict(members[0], data)
      else Success(PNone)
    case ListOf(_) =>
      if !(data.PList? || data.PTuple?) then Failure(NotIterable)
      else
        var items :- DecodeList(T, Items(data), 0);
        Success(PList(items))
    case DictOf(_, _) =>
      if !data.PDict? then Failure(NotAMapping)
      else
        var entries :- DecodeDict(T, data.entries, 0, []);
        Success(PDict(entries))
    case TupleOf(elems) =>
      if !(data.PList? || data.PTuple?) then Failure(NotIterable)
      else
        var items :- DecodeTuple(T, Items(data), 0);
        Success(PTuple(items))
    case OtherGeneric => Success(PNone)
    case Leaf(_) => Success(data)
  }

  /** The keyword arguments of the dataclass constructor, one data key at a time. */
  function DecodeFields(T: TypeDesc, entries: seq<(PyValue, PyValue)>, i: nat, acc: seq<(PyValue, PyValue)>)
    : (r: Result<seq<(PyValue, PyValue)>, DecodeError>)
    requires T.Dataclass? && i <= |entries|
    decreases T, 0, |entries| - i
  {
    if i == |entries| then Success(acc)
    else
      var key := entries[i].0;
      var index := if key.PStr? then FieldIndex(T.fields, key.s) else None;
      if index.None? then Failure(UnknownField(key))
      else
        var value :- MdFromDict(T.fields[index.value].1, entries[i].1);
        DecodeFields(T, entries, i + 1, DictSet(acc, key, value))
  }

  /** The constructor call: every declared field must be among the keyword arguments. */
  function Assemble(fields: seq<(string, TypeDesc)>, kwargs: seq<(PyValue, PyValue)>, j: nat)
    : (r: Result<seq<(string, PyValue)>, DecodeError>)
    requires j <= |fields|
    ensures r.Success? ==> |r.value| == |fields| - j
    ensures r.Success? ==> forall k :: 0 <= k < |r.value| ==>
      r.value[k].0 == fields[j + k].0 && DictGet(kwargs, PStr(fields[j + k].0)) == Some(r.value[k].1)
    decreases |fields| - j
  {
    if j == |fields| then Success([])
    else
      match DictGet(kwargs, PStr(fields[j].0))
      case None => Failure(MissingField(fields[j].0))
      case Some(v) =>
        var rest :- Assemble(fields, kwargs, j + 1);
        Success([(fields[j].0, v)] + rest)
  }

  function DecodeList(T: TypeDesc, items: seq<PyValue>, i: nat): (r: Result<seq<PyValue>, DecodeError>)
    requires T.ListOf? && i <= |items|
    ensures r.Success? ==> |r.value| == |items| - i
    decreases T, 0, |items| - i
  {
    if i == |items| then Success([])
    else
      match MdFromDict(T.elem, items[i])
      case Failure(e) => Failure(e)
      case Success(head) =>
        match DecodeList(T, items, i + 1)
        case Failure(e) => Failure(e)
        case Success(tail) => Success([head] + tail)
  }

  /** One step of `DecodeList`: the head and the rest must both decode. */
  lemma DecodeListStep(T: TypeDesc, items: seq<PyValue>, i: nat)
    requires T.ListOf? && i < |items|
    ensures DecodeList(T, items, i).Success? <==>
      MdFromDict(T.elem, items[i]).Success? && DecodeList(T, items, i + 1).Success?
    ensures DecodeList(T, items, i).Success? ==>
      DecodeList(T, items, i).value == [MdFromDict(T.elem, items[i]).value] + DecodeList(T, items, i + 1).value
  {
  }

  lemma DecodeListEnd(T: TypeDesc, items: seq<PyValue>)
    requires T.ListOf?
    ensures DecodeList(T, items, |items|) == Success([])
  {
  }

  /** The head of a decoded list is its first item decoded. */
  lemma DecodeListHead(T: TypeDesc, items: seq<PyValue>, i: nat)
    requires T.ListOf? && i < |items| && DecodeList(T, items, i).Success?
    ensures MdFromDict(T.elem, items[i]) == Success(DecodeList(T, items, i).value[0])
  {
  }

  /** The rest of a decoded list is the decoding of the remaining items. */
  lemma DecodeListTail(T: TypeDesc, items: seq<PyValue>, i: nat)
    requires T.ListOf? && i < |items| && DecodeList(T, items, i).Success?
    ensures DecodeList(T, items, i + 1).Success? && DecodeList(T, items, i).value[1..] == DecodeList(T, items, i + 1).value
  {
  }

  /** The element at position `k` of a decoded list is the decoding of the `k`-th item. */
  lemma {:induction false} DecodeListElem(T: TypeDesc, items: seq<PyValue>, i: nat, k: nat)
    requires T.ListOf? && i <= k < |items| && DecodeList(T, items, i).Success?
    ensures MdFromDict(T.elem, items[k]) == Success(DecodeList(T, items, i).value[k - i])
    decreases k - i
  {
    if k == i {
      DecodeListHead(T, items, i);
    } else {
      DecodeListTail(T, items, i);
      DecodeListElem(T, items, i + 1, k);
      var r := DecodeList(T, items, i).value;
      assert r[k - i] == r[1..][k - (i + 1)];
    }
  }

  /** A decoded list holds each element decoded with the element type, in order. */
  lemma DecodeListElems(T: TypeDesc, items: seq<PyValue>, i: nat)
    requires T.ListOf? && i <= |items| && DecodeList(T, items, i).Success?
    ensures forall k :: i <= k < |items| ==> MdFromDict(T.elem, items[k]) == Success(DecodeList(T, items, i).value[k - i])
  {
    forall k | i <= k < |items| ensures MdFromDict(T.elem, items[k]) == Success(DecodeList(T, items, i).value[k - i]) {
      DecodeListElem(T, items, i, k);
    }
  }

  /** A list whose elements all decode decodes. */
  lemma {:induction false} DecodeListAll(T: TypeDesc, items: seq<PyValue>, i: nat)
    requires T.ListOf? && i <= |items|
    requires forall k :: i <= k < |items| ==> MdFromDict(T.elem, items[k]).Success?
    ensures DecodeList(T, items, i).Success?
    decreases |items| - i
  {
    if i < |items| {
      DecodeListAll(T, items, i + 1);
      assert MdFromDict(T.elem, items[i]).Success?;
      DecodeListStep(T, items, i);
    } else {
      DecodeListEnd(T, items);
    }
  }

  /** A list decodes exactly when each of its elements does. */
  lemma DecodeListSucceeds(T: TypeDesc, items: seq<PyValue>, i: nat)
    requires T.ListOf? && i <= |items|
    ensures DecodeList(T, items, i).Success? <==> forall k :: i <= k < |items| ==> MdFromDict(T.elem, items[k]).Success?
  {
    if DecodeList(T, items, i).Success? {
      DecodeListElems(T, items, i);
    }
    if forall k :: i <= k < |items| ==> MdFromDict(T.elem, items[k]).Success? {
      DecodeListAll(T, items, i);
    }
  }

  /** One step of `DecodeTuple`: the head and the rest must both decode. */
  lemma DecodeTupleStep(T: TypeDesc, items: seq<PyValue>, i: nat)
    requires T.TupleOf? && i < |items| && i < |T.elems|
    ensures DecodeTuple(T, items, i).Success? <==>
      MdFromDict(T.elems[i], items[i]).Success? && DecodeTuple(T, items, i + 1).Success?
    ensures DecodeTuple(T, items, i).Success? ==>
      DecodeTuple(T, items, i).value == [MdFromDict(T.elems[i], items[i]).value] + DecodeTuple(T, items, i + 1).value
  {
  }

  lemma DecodeTupleEnd(T: TypeDesc, items: seq<PyValue>, i: nat)
    requires T.TupleOf? && i <= |items| && i <= |T.elems|
    requires i == |items| || i == |T.elems|
    ensures DecodeTuple(T, items, i) == Success([])
  {
  }

  /** The head of a decoded tuple is its first item decoded. */
  lemma DecodeTupleHead(T: TypeDesc, items: seq<PyValue>, i: nat)
    requires T.TupleOf? && i < |items| && i < |T.elems| && DecodeTuple(T, items, i).Success?
    ensures MdFromDict(T.elems[i], items[i]) == Success(DecodeTuple(T, items, i).value[0])
  {
  }

  /** The rest of a decoded tuple is the decoding of the remaining items. */
  lemma DecodeTupleTail(T: TypeDesc, items: seq<PyValue>, i: nat)
    requires T.TupleOf? && i < |items| && i < |T.elems| && DecodeTuple(T, items, i).Success?
    ensures DecodeTuple(T, items, i + 1).Success? && DecodeTuple(T, items, i).value[1..] == DecodeTuple(T, items, i + 1).value
  {
  }

  /** The element at position `k` of a decoded tuple is the `k`-th item decoded with the `k`-th type. */
  lemma {:induction false} DecodeTupleElem(T: TypeDesc, items: seq<PyValue>, i: nat, k: nat)
    requires T.TupleOf? && i <= k < Min(|T.elems|, |items|) && DecodeTuple(T, items, i).Success?
    ensures MdFromDict(T.elems[k], items[k]) == Success(DecodeTuple(T, items, i).value[k - i])
    decreases k - i
  {
    if k == i {
      DecodeTupleHead(T, items, i);
    } else {
      DecodeTupleTail(T, items, i);
      DecodeTupleElem(T, items, i + 1, k);
      var r := DecodeTuple(T, items, i).value;
      assert r[k - i] == r[1..][k - (i + 1)];
    }
  }

  /** A decoded tuple holds each element decoded with its own element type, in order. */
  lemma DecodeTupleElems(T: TypeDesc, items: seq<PyValue>, i: nat)
    requires T.TupleOf? && i <= |items| && i <= |T.elems| && DecodeTuple(T, items, i).Success?
    ensures forall k :: i <= k < Min(|T.elems|, |items|) ==>
      MdFromDict(T.elems[k], items[k]) == Success(DecodeTuple(T, items, i).value[k - i])
  {
    forall k | i <= k < Min(|T.elems|, |items|)
      ensures MdFromDict(T.elems[k], items[k]) == Success(DecodeTuple(T, items, i).value[k - i])
    {
      DecodeTupleElem(T, items, i, k);
    }
  }

  /** A tuple whose elements all decode with their element types decodes. */
  lemma {:induction false} DecodeTupleAll(T: TypeDesc, items: seq<PyValue>, i: nat)
    requires T.TupleOf? && i <= |items| && i <= |T.elems|
    requires forall k :: i <= k < Min(|T.elems|, |items|) ==> MdFromDict(T.elems[k], items[k]).Success?
    ensures DecodeTuple(T, items, i).Success?
    decreases |items| - i
  {
    if i < |items| && i < |T.elems| {
      DecodeTupleAll(T, items, i + 1);
      assert MdFromDict(T.elems[i], items[i]).Success?;
      DecodeTupleStep(T, items, i);
    } else {
      DecodeTupleEnd(T, items, i);
    }
  }

  /** A tuple decodes exactly when each element paired with an element type does. */
  lemma DecodeTupleSucceeds(T: TypeDesc, items: seq<PyValue>, i: nat)
    requires T.TupleOf? && i <= |items| && i <= |T.elems|
    ensures DecodeTuple(T, items, i).Success? <==>
      forall k :: i <= k < Min(|T.elems|, |items|) ==> MdFromDict(T.elems[k], items[k]).Success?
  {
    if DecodeTuple(T, items, i).Success? {
      DecodeTupleElems(T, items, i);
    }
    if forall k :: i <= k < Min(|T.elems|, |items|) ==> MdFromDict(T.elems[k], items[k]).Success? {
      DecodeTupleAll(T, items, i);
    }
  }

  function DecodeDict(T: TypeDesc, entries: seq<(PyValue, PyValue)>, i: nat, acc: seq<(PyValue, PyValue)>)
    : (r: Result<seq<(PyValue, PyValue)>, DecodeError>)
    requires T.DictOf? && i <= |entries|
    ensures DistinctKeys(acc) && r.Success? ==> DistinctKeys(r.value)
    decreases T, 0, |entries| - i
  {
    if i == |entries| then Success(acc)
    else
      var key :- ConvertKey(T.key, entries[i].0);
      var value :- MdFromDict(T.val, entries[i].1);
      DecodeDict(T, entries, i + 1, DictSet(acc, key, value))
  }

  function DecodeTuple(T: TypeDesc, items: seq<PyValue>, i: nat): (r: Result<seq<PyValue>, DecodeError>)
    requires T.TupleOf? && i <= |items| && i <= |T.elems|
    ensures r.Success? ==> |r.value| == Min(|T.elems|, |items|) - i
    decreases T, 0, |items| - i
  {
    if i == |items| || i == |T.elems| then Success([])
    else
      match MdFromDict(T.elems[i], items[i])
      case Failure(e) => Failure(e)
      case Success(head) =>
        match DecodeTuple(T, items, i + 1)
        case Failure(e) => Failure(e)
        case Success(tail) => Success([head] + tail)
  }

  function Min(a: nat, b: nat): nat {
    if a <= b then a else b
  }

  /** A dataclass never declares the same field name twice. */
  predicate WfDesc(T: TypeDesc)
    decreases T
  {
    match T
    case Dataclass(_, fields) =>
      && (forall i, j :: 0 <= i < j < |fields| ==> fields[i].0 != fields[j].0)
      && (forall i :: 0 <= i < |fields| ==> WfDesc(fields[i].1))
    case UnionOf(members, _) => forall i :: 0 <= i < |members| ==> WfDesc(members[i])
    case ListOf(elem) => WfDesc(elem)
    case DictOf(_, val) => WfDesc(val)
    case TupleOf(elems) => forall i :: 0 <= i < |elems| ==> WfDesc(elems[i])
    case _ => true
  }

  /** The in-memory values of an annotation: what a record field of that type holds. */
  predicate WellTyped(v: PyValue, T: TypeDesc)
    decreases T
  {
    match T
    case Dataclass(name, fields) =>
      && v.PObject? && v.cls == name && |v.fields| == |fields|
      && forall i :: 0 <= i < |fields| ==> v.fields[i].0 == fields[i].0 && WellTyped(v.fields[i].1, fields[i].1)
    case UnionOf(members, hasNone) =>
      if hasNone && |members| == 1 then v.PNone? || WellTyped(v, members[0]) else v.PNone?
    case ListOf(elem) => v.PList? && forall i :: 0 <= i < |v.items| ==> WellTyped(v.items[i], elem)
    case DictOf(kt, val) =>
      && v.PDict? && DistinctKeys(v.entries)
      && forall i :: 0 <= i < |v.entries| ==> KeyConverted(kt, v.entries[i].0) && WellTyped(v.entries[i].1, val)
    case TupleOf(elems) =>
      v.PTuple? && |v.elems| == |elems| && forall i :: 0 <= i < |elems| ==> WellTyped(v.elems[i], elems[i])
    case OtherGeneric => v.PNone?
    case Leaf(_) => IsJson(v)
  }

  /** The keyword arguments that rebuild a record with these fields. */
  function KwargsOf(fields: seq<(string, PyValue)>): (r: seq<(PyValue, PyValue)>)
    ensures |r| == |fields|
    ensures forall k :: 0 <= k < |fields| ==> r[k] == (PStr(fields[k].0), fields[k].1)
  {
    if fields == [] then [] else KwargsOf(fields[..|fields| - 1]) + [(PStr(fields[|fields| - 1].0), fields[|fields| - 1].1)]
  }

  /**
   * Reading back what was stored gives the record that was stored: for every well-formed
   * annotation and every value of it, `md_from_dict(T, json.loads(json.dumps(asdict(v)))) == v`.
   */
  lemma {:induction false} MdFromDictRoundTrip(T: TypeDesc, v: PyValue)
    requires WfDesc(T) && WellTyped(v, T)
    ensures MdFromDict(T, ToJson(v)) == Success(v)
    decreases T, 1
  {
    match T
    case Dataclass(_, _) => DataclassRoundTrip(T, v);
    case UnionOf(members, hasNone) =>
      if hasNone && |members| == 1 && !v.PNone? {
        MdFromDictRoundTrip(members[0], v);
      }
    case ListOf(_) => ListRoundTrip(T, v);
    case DictOf(_, _) => DictRoundTrip(T, v);
    case TupleOf(_) => TupleRoundTrip(T, v);
    case OtherGeneric =>
    case Leaf(_) => ToJsonOfJson(v);
  }

  lemma {:induction false} DataclassRoundTrip(T: TypeDesc, v: PyValue)
    requires T.Dataclass? && WfDesc(T) && WellTyped(v, T)
    ensures MdFromDict(T, ToJson(v)) == Success(v)
    decreases T, 0, |T.fields| + 1
  {
    ToJsonFields(v.cls, v.fields);
    var json := ToJson(v).entries;
    assert v.fields[..0] == [];
    DecodeFieldsRoundTrip(T, v.fields, json, 0);
    AssembleRoundTrip(T.fields, v.fields, 0);
    assert v.fields[0..] == v.fields;
  }

  lemma {:induction false} ListRoundTrip(T: TypeDesc, v: PyValue)
    requires T.ListOf? && WfDesc(T) && WellTyped(v, T)
    ensures MdFromDict(T, ToJson(v)) == Success(v)
    decreases T, 0, |v.items| + 1
  {
    ToJsonItems(v);
    DecodeListRoundTrip(T, v.items, ToJson(v).items, 0);
    assert v.items[0..] == v.items;
  }

  lemma {:induction false} DictRoundTrip(T: TypeDesc, v: PyValue)
    requires T.DictOf? && WfDesc(T) && WellTyped(v, T)
    ensures MdFromDict(T, ToJson(v)) == Success(v)
    decreases T, 0, |v.entries| + 1
  {
    ToJsonEntries(v.entries);
    assert v.entries[..0] == [];
    DecodeDictRoundTrip(T, v.entries, ToJson(v).entries, 0);
  }

  lemma {:induction false} TupleRoundTrip(T: TypeDesc, v: PyValue)
    requires T.TupleOf? && WfDesc(T) && WellTyped(v, T)
    ensures MdFromDict(T, ToJson(v)) == Success(v)
    decreases T, 0, |v.elems| + 1
  {
    ToJsonItems(v);
    DecodeTupleRoundTrip(T, v.elems, ToJson(v).items, 0);
    assert v.elems[0..] == v.elems;
  }

  lemma {:induction false} DecodeFieldsRoundTrip(T: TypeDesc, fs: seq<(string, PyValue)>, json: seq<(PyValue, PyValue)>, i: nat)
    requires T.Dataclass? && WfDesc(T) && i <= |fs|
    requires |fs| == |T.fields| && |json| == |fs|
    requires forall k :: 0 <= k < |fs| ==> fs[k].0 == T.fields[k].0 && WellTyped(fs[k].1, T.fields[k].1)
    requires forall k :: 0 <= k < |fs| ==> json[k] == (PStr(fs[k].0), ToJson(fs[k].1))
    ensures DecodeFields(T, json, i, KwargsOf(fs[..i])) == Success(KwargsOf(fs))
    decreases T, 0, |fs| - i
  {
    if i == |fs| {
      assert fs[..i] == fs;
    } else {
      FieldIndexOfDistinct(T.fields, i);
      MdFromDictRoundTrip(T.fields[i].1, fs[i].1);
      DecodeFieldsStep(T, json, i, KwargsOf(fs[..i]), i, fs[i].1);
      KwargsStep(T.fields, fs, i);
      DecodeFieldsRoundTrip(T, fs, json, i + 1);
    }
  }

  /** One step of `DecodeFields` on a declared field whose value decodes. */
  lemma DecodeFieldsStep(T: TypeDesc, entries: seq<(PyValue, PyValue)>, i: nat, acc: seq<(PyValue, PyValue)>, index: nat, value: PyValue)
    requires T.Dataclass? && i < |entries| && entries[i].0.PStr?
    requires FieldIndex(T.fields, entries[i].0.s) == Some(index)
    requires MdFromDict(T.fields[index].1, entries[i].1) == Success(value)
    ensures DecodeFields(T, entries, i, acc) == DecodeFields(T, entries, i + 1, DictSet(acc, entries[i].0, value))
  {
  }

  /** One step of `DecodeDict` on an entry whose key converts and whose value decodes. */
  lemma DecodeDictStep(T: TypeDesc, entries: seq<(PyValue, PyValue)>, i: nat, acc: seq<(PyValue, PyValue)>, key: PyValue, value: PyValue)
    requires T.DictOf? && i < |entries|
    requires ConvertKey(T.key, entries[i].0) == Success(key)
    requires MdFromDict(T.val, entries[i].1) == Success(value)
    ensures DecodeDict(T, entries, i, acc) == DecodeDict(T, entries, i + 1, DictSet(acc, key, value))
  {
  }

  /** The dict comprehension of `md_from_dict` with the value decoder `dec` as a parameter. */
  function DecodeEntries(kt: KeyType, dec: PyValue -> Result<PyValue, DecodeError>, entries: seq<(PyValue, PyValue)>, i: nat, acc: seq<(PyValue, PyValue)>)
    : Result<seq<(PyValue, PyValue)>, DecodeError>
    requires i <= |entries|
    decreases |entries| - i
  {
    if i == |entries| then Success(acc)
    else
      var key :- ConvertKey(kt, entries[i].0);
      var value :- dec(entries[i].1);
      DecodeEntries(kt, dec, entries, i + 1, DictSet(acc, key, value))
  }

  /** Decoding dict values with `md_from_dict` at the declared value type. */
  function ValueDecoder(T: TypeDesc): PyValue -> Result<PyValue, DecodeError>
    requires T.DictOf?
  {
    v => MdFromDict(T.val, v)
  }

  /** `DecodeDict` is the generic comprehension with `md_from_dict` as its value decoder. */
  lemma {:induction false} DecodeDictIsDecodeEntries(T: TypeDesc, entries: seq<(PyValue, PyValue)>, i: nat, acc: seq<(PyValue, PyValue)>)
    requires T.DictOf? && i <= |entries|
    ensures DecodeDict(T, entries, i, acc) == DecodeEntries(T.key, ValueDecoder(T), entries, i, acc)
    decreases |entries| - i
  {
    if i < |entries| {
      var key := ConvertKey(T.key, entries[i].0);
      var value := MdFromDict(T.val, entries[i].1);
      assert ValueDecoder(T)(entries[i].1) == value;
      if key.Success? && value.Success? {
        DecodeDictIsDecodeEntries(T, entries, i + 1, DictSet(acc, key.value, value.value));
      }
    }
  }

  /** The converted keys and decoded values of the first n entries. */
  function DecodedPairs(kt: KeyType, dec: PyValue -> Result<PyValue, DecodeError>, entries: seq<(PyValue, PyValue)>, n: nat)
    : (r: seq<(PyValue, PyValue)>)
    requires n <= |entries| && forall l :: 0 <= l < n ==> ConvertKey(kt, entries[l].0).Success? && dec(entries[l].1).Success?
    ensures |r| == n
    ensures forall k :: 0 <= k < n ==> r[k] == (ConvertKey(kt, entries[k].0).value, dec(entries[k].1).value)
  {
    seq(n, k requires 0 <= k < n => (ConvertKey(kt, entries[k].0).value, dec(entries[k].1).value))
  }

  /** A successful comprehension decodes the entry it starts at. */
  lemma DecodeEntriesHead(kt: KeyType, dec: PyValue -> Result<PyValue, DecodeError>, entries: seq<(PyValue, PyValue)>, i: nat, acc: seq<(PyValue, PyValue)>)
    requires i < |entries| && DecodeEntries(kt, dec, entries, i, acc).Success?
    ensures ConvertKey(kt, entries[i].0).Success? && dec(entries[i].1).Success?
  {
  }

  /** One step of a successful comprehension: entry i decodes and its pair is set. */
  lemma DecodeEntriesStep(kt: KeyType, dec: PyValue -> Result<PyValue, DecodeError>, entries: seq<(PyValue, PyValue)>, i: nat, acc: seq<(PyValue, PyValue)>)
    requires i < |entries| && DecodeEntries(kt, dec, entries, i, acc).Success?
    ensures ConvertKey(kt, entries[i].0).Success? && dec(entries[i].1).Success?
    ensures DecodeEntries(kt, dec, entries, i, acc)
         == DecodeEntries(kt, dec, entries, i + 1, DictSet(acc, ConvertKey(kt, entries[i].0).value, dec(entries[i].1).value))
  {
  }

  /**
   * A successful comprehension decoded every entry, and its dict is the first i pairs set
   * one after another followed by the rest.
   */
  lemma {:induction false} DecodeEntriesSetsPairs(kt: KeyType, dec: PyValue -> Result<PyValue, DecodeError>, entries: seq<(PyValue, PyValue)>, i: nat, acc: seq<(PyValue, PyValue)>)
    requires i <= |entries| && forall l :: 0 <= l < i ==> ConvertKey(kt, entries[l].0).Success? && dec(entries[l].1).Success?
    requires DecodeEntries(kt, dec, entries, i, SetAll(acc, DecodedPairs(kt, dec, entries, i))).Success?
    ensures forall l :: 0 <= l < |entries| ==> ConvertKey(kt, entries[l].0).Success? && dec(entries[l].1).Success?
    ensures DecodeEntries(kt, dec, entries, i, SetAll(acc, DecodedPairs(kt, dec, entries, i))).value
         == SetAll(acc, DecodedPairs(kt, dec, entries, |entries|))
    decreases |entries| - i
  {
    if i < |entries| {
      var before := DecodedPairs(kt, dec, entries, i);
      var cur := SetAll(acc, before);
      DecodeEntriesHead(kt, dec, entries, i, cur);
      assert forall l :: 0 <= l < i + 1 ==> ConvertKey(kt, entries[l].0).Success? && dec(entries[l].1).Success?;
      var after := DecodedPairs(kt, dec, entries, i + 1);
      DecodeEntriesStep(kt, dec, entries, i, cur);
      assert SetAll(acc, after) == DictSet(cur, after[i].0, after[i].1) by {
        assert after[..i] == before;
      }
      assert after[i] == (ConvertKey(kt, entries[i].0).value, dec(entries[i].1).value);
      DecodeEntriesSetsPairs(kt, dec, entries, i + 1, acc);
    }
  }

  /** No entry after entry j converts to the same key, so j's value is the one the dict keeps. */
  predicate LastWithKey(T: TypeDesc, entries: seq<(PyValue, PyValue)>, j: nat)
    requires T.DictOf? && j < |entries|
  {
    forall l :: j < l < |entries| ==> ConvertKey(T.key, entries[l].0) != ConvertKey(T.key, entries[j].0)
  }

  /** The dict decoded from `data`, as the generic comprehension with the pairs it sets. */
  lemma DictDecodesAsPairs(T: TypeDesc, data: PyValue)
    requires T.DictOf? && data.PDict? && MdFromDict(T, data).Success?
    ensures DecodeEntries(T.key, ValueDecoder(T), data.entries, 0, []).Success?
    ensures MdFromDict(T, data) == Success(PDict(DecodeEntries(T.key, ValueDecoder(T), data.entries, 0, []).value))
  {
    DecodeDictIsDecodeEntries(T, data.entries, 0, []);
  }

  /**
   * `Dict[K, V]`: the decoded dict has no repeated key, every key has the declared key type,
   * and its keys are exactly the converted data keys.
   */
  lemma DictDecodes(T: TypeDesc, data: PyValue)
    requires T.DictOf? && data.PDict? && MdFromDict(T, data).Success?
    ensures MdFromDict(T, data).value.PDict?
    ensures DistinctKeys(MdFromDict(T, data).value.entries)
    ensures forall k :: 0 <= k < |MdFromDict(T, data).value.entries| ==>
      KeyConverted(T.key, MdFromDict(T, data).value.entries[k].0)
    ensures forall x :: x in Keys(MdFromDict(T, data).value.entries) <==>
      exists j :: 0 <= j < |data.entries| && ConvertKey(T.key, data.entries[j].0) == Success(x)
  {
    var es := data.entries;
    var dec := ValueDecoder(T);
    DictDecodesAsPairs(T, data);
    assert DecodedPairs(T.key, dec, es, 0) == [];
    DecodeEntriesSetsPairs(T.key, dec, es, 0, []);
    var pairs := DecodedPairs(T.key, dec, es, |es|);
    var r := SetAll([], pairs);
    forall k | 0 <= k < |r| ensures KeyConverted(T.key, r[k].0) {
      assert Keys(r)[k] == r[k].0;
      SetAllKeys([], pairs, r[k].0);
    }
    forall x ensures x in Keys(r) <==> exists j :: 0 <= j < |es| && ConvertKey(T.key, es[j].0) == Success(x) {
      if x in Keys(r) {
        SetAllKeys([], pairs, x);
      } else if j :| 0 <= j < |es| && ConvertKey(T.key, es[j].0) == Success(x) {
        SetAllPair([], pairs, j);
      }
    }
  }

  /**
   * `Dict[K, V]`, entry by entry: each data key converts and each value decodes as V, and the
   * converted key maps to that decoded value unless a later entry converts to the same key.
   */
  lemma DictDecodesEntry(T: TypeDesc, data: PyValue, j: nat)
    requires T.DictOf? && data.PDict? && MdFromDict(T, data).Success? && j < |data.entries|
    ensures ConvertKey(T.key, data.entries[j].0).Success? && MdFromDict(T.val, data.entries[j].1).Success?
    ensures MdFromDict(T, data).value.PDict?
    ensures ConvertKey(T.key, data.entries[j].0).value in Keys(MdFromDict(T, data).value.entries)
    ensures LastWithKey(T, data.entries, j) ==>
      DictGet(MdFromDict(T, data).value.entries, ConvertKey(T.key, data.entries[j].0).value) ==
      Some(MdFromDict(T.val, data.entries[j].1).value)
  {
    var es := data.entries;
    var dec := ValueDecoder(T);
    DictDecodesAsPairs(T, data);
    assert DecodedPairs(T.key, dec, es, 0) == [];
    DecodeEntriesSetsPairs(T.key, dec, es, 0, []);
    var pairs := DecodedPairs(T.key, dec, es, |es|);
    assert dec(es[j].1) == MdFromDict(T.val, es[j].1);
    SetAllPair([], pairs, j);
    if LastWithKey(T, es, j) {
      assert LastToSet(pairs, j);
    }
  }



  lemma FieldIndexOfDistinct(fields: seq<(string, TypeDesc)>, i: nat)
    requires i < |fields|
    requires forall a, b :: 0 <= a < b < |fields| ==> fields[a].0 != fields[b].0
    ensures FieldIndex(fields, fields[i].0) == Some(i)
  {
  }

  /** Adding the next field to the keyword arguments built so far appends it. */
  lemma KwargsStep(fields: seq<(string, TypeDesc)>, fs: seq<(string, PyValue)>, i: nat)
    requires i < |fs| == |fields|
    requires forall a, b :: 0 <= a < b < |fields| ==> fields[a].0 != fields[b].0
    requires forall k :: 0 <= k < |fs| ==> fs[k].0 == fields[k].0
    ensures DictSet(KwargsOf(fs[..i]), PStr(fs[i].0), fs[i].1) == KwargsOf(fs[..i + 1])
  {
    var acc := KwargsOf(fs[..i]);
    forall k | 0 <= k < |acc| ensures Keys(acc)[k] != PStr(fs[i].0) {
      assert fields[k].0 != fields[i].0;
    }
    assert fs[..i + 1][..i] == fs[..i];
  }

  lemma KwargsDistinct(fields: seq<(string, TypeDesc)>, fs: seq<(string, PyValue)>)
    requires |fs| == |fields|
    requires forall i, k :: 0 <= i < k < |fields| ==> fields[i].0 != fields[k].0
    requires forall k :: 0 <= k < |fs| ==> fs[k].0 == fields[k].0
    ensures DistinctKeys(KwargsOf(fs))
  {
    var kwargs := KwargsOf(fs);
    forall a, b | 0 <= a < b < |kwargs| ensures kwargs[a].0 != kwargs[b].0 {
      assert fields[a].0 != fields[b].0;
    }
  }

  /** One step of `Assemble`: a present field followed by the fields after it. */
  lemma AssembleStep(fields: seq<(string, TypeDesc)>, kwargs: seq<(PyValue, PyValue)>, j: nat, v: PyValue, rest: seq<(string, PyValue)>)
    requires j < |fields|
    requires DictGet(kwargs, PStr(fields[j].0)) == Some(v)
    requires Assemble(fields, kwargs, j + 1) == Success(rest)
    ensures Assemble(fields, kwargs, j) == Success([(fields[j].0, v)] + rest)
  {
  }

  lemma {:induction false} AssembleRoundTrip(fields: seq<(string, TypeDesc)>, fs: seq<(string, PyValue)>, j: nat)
    requires j <= |fields| && |fs| == |fields|
    requires forall i, k :: 0 <= i < k < |fields| ==> fields[i].0 != fields[k].0
    requires forall k :: 0 <= k < |fs| ==> fs[k].0 == fields[k].0
    ensures Assemble(fields, KwargsOf(fs), j) == Success(fs[j..])
    decreases |fields| - j
  {
    if j < |fields| {
      assert fs[j..] == [(fields[j].0, fs[j].1)] + fs[j + 1..] by {
        assert fs[j] == (fields[j].0, fs[j].1);
      }
      var kwargs := KwargsOf(fs);
      assert DictGet(kwargs, PStr(fields[j].0)) == Some(fs[j].1) by {
        KwargsDistinct(fields, fs);
        DictGetEntry(kwargs, j);
      }
      AssembleRoundTrip(fields, fs, j + 1);
      AssembleStep(fields, kwargs, j, fs[j].1, fs[j + 1..]);
    } else {
      assert fs[j..] == [];
    }
  }

  lemma {:induction false} DecodeListRoundTrip(T: TypeDesc, items: seq<PyValue>, json: seq<PyValue>, i: nat)
    requires T.ListOf? && WfDesc(T) && i <= |items| && |json| == |items|
    requires forall k :: 0 <= k < |items| ==> WellTyped(items[k], T.elem) && json[k] == ToJson(items[k])
    ensures DecodeList(T, json, i) == Success(items[i..])
    decreases T, 0, |items| - i
  {
    if i < |items| {
      MdFromDictRoundTrip(T.elem, items[i]);
      DecodeListRoundTrip(T, items, json, i + 1);
      assert items[i..] == [items[i]] + items[i + 1..];
    }
  }

  lemma {:induction false} DecodeTupleRoundTrip(T: TypeDesc, items: seq<PyValue>, json: seq<PyValue>, i: nat)
    requires T.TupleOf? && WfDesc(T) && i <= |items| && |json| == |items| && |items| == |T.elems|
    requires forall k :: 0 <= k < |items| ==> WellTyped(items[k], T.elems[k]) && json[k] == ToJson(items[k])
    ensures DecodeTuple(T, json, i) == Success(items[i..])
    decreases T, 0, |items| - i
  {
    if i < |items| {
      assert DecodeTuple(T, json, i) == Success([items[i]] + items[i + 1..]) by {
        MdFromDictRoundTrip(T.elems[i], items[i]);
        DecodeTupleRoundTrip(T, items, json, i + 1);
      }
      assert items[i..] == [items[i]] + items[i + 1..];
    } else {
      assert items[i..] == [];
    }
  }

  lemma ConvertKeyOfJsonKey(kt: KeyType, key: PyValue)
    requires KeyConverted(kt, key)
    ensures ConvertKey(kt, JsonKey(key)) == Success(key)
  {
    if kt == IntKey {
      Strings.ParseIntToString(key.i);
    }
  }

  /** Adding the next entry of a dict to its prefix appends it. */
  lemma EntriesStep(es: seq<(PyValue, PyValue)>, i: nat)
    requires i < |es| && DistinctKeys(es)
    ensures DictSet(es[..i], es[i].0, es[i].1) == es[..i + 1]
  {
    var acc := es[..i];
    forall k | 0 <= k < |acc| ensures Keys(acc)[k] != es[i].0 {
      assert acc[k] == es[k];
    }
    assert es[..i + 1] == acc + [es[i]];
  }

  lemma {:induction false} DecodeDictRoundTrip(T: TypeDesc, es: seq<(PyValue, PyValue)>, json: seq<(PyValue, PyValue)>, i: nat)
    requires T.DictOf? && WfDesc(T) && i <= |es| && |json| == |es| && DistinctKeys(es)
    requires forall k :: 0 <= k < |es| ==> KeyConverted(T.key, es[k].0) && WellTyped(es[k].1, T.val)
    requires forall k :: 0 <= k < |es| ==> json[k] == (JsonKey(es[k].0), ToJson(es[k].1))
    ensures DecodeDict(T, json, i, es[..i]) == Success(es)
    decreases T, 0, |es| - i
  {
    if i == |es| {
      assert es[..i] == es;
    } else {
      ConvertKeyOfJsonKey(T.key, es[i].0);
      MdFromDictRoundTrip(T.val, es[i].1);
      DecodeDictStep(T, json, i, es[..i], es[i].0, es[i].1);
      EntriesStep(es, i);
      DecodeDictRoundTrip(T, es, json, i + 1);
    }
  }

  /** `Optional[X]` keeps None and decodes anything else as X. */
  lemma OptionalDecodes(t: TypeDesc, data: PyValue)
    ensures data.PNone? ==> MdFromDict(Optional(t), data) == Success(PNone)
    ensures !data.PNone? ==> MdFromDict(Optional(t), data) == MdFromDict(t, data)
  {
  }

  /** A key of the data that is not a field of the dataclass makes the decoding fail. */
  lemma {:induction false} DecodeFieldsRejectsUnknown(T: TypeDesc, entries: seq<(PyValue, PyValue)>, i: nat, acc: seq<(PyValue, PyValue)>, j: nat)
    requires T.Dataclass? && i <= j < |entries|
    requires !entries[j].0.PStr? || FieldIndex(T.fields, entries[j].0.s).None?
    ensures DecodeFields(T, entries, i, acc).Failure?
    decreases j - i
  {
    if i < j {
      var key := entries[i].0;
      var index := if key.PStr? then FieldIndex(T.fields, key.s) else None;
      if index.Some? && MdFromDict(T.fields[index.value].1, entries[i].1).Success? {
        var value := MdFromDict(T.fields[index.value].1, entries[i].1).value;
        DecodeFieldsRejectsUnknown(T, entries, i + 1, DictSet(acc, key, value), j);
      }
    }
  }

  /** A key that is neither collected yet nor among the remaining data keys never becomes a keyword argument. */
  lemma {:induction false} DecodeFieldsAbsentKey(T: TypeDesc, entries: seq<(PyValue, PyValue)>, i: nat, acc: seq<(PyValue, PyValue)>, x: PyValue)
    requires T.Dataclass? && i <= |entries|
    requires x !in Keys(acc) && forall m :: i <= m < |entries| ==> entries[m].0 != x
    requires DecodeFields(T, entries, i, acc).Success?
    ensures x !in Keys(DecodeFields(T, entries, i, acc).value)
    decreases |entries| - i
  {
    if i < |entries| {
      var key := entries[i].0;
      var index := FieldIndex(T.fields, key.s);
      var value := MdFromDict(T.fields[index.value].1, entries[i].1).value;
      DictSetOtherKey(acc, key, value, x);
      DecodeFieldsAbsentKey(T, entries, i + 1, DictSet(acc, key, value), x);
    }
  }

  /**
   * Decoding a dataclass is strict: it succeeds only on a dict whose keys are all fields of
   * the dataclass and which holds every field.
   */
  lemma DataclassDecodeIsStrict(T: TypeDesc, data: PyValue)
    requires T.Dataclass?
    requires MdFromDict(T, data).Success?
    ensures data.PDict?
    ensures forall i :: 0 <= i < |data.entries| ==> data.entries[i].0.PStr? && FieldIndex(T.fields, data.entries[i].0.s).Some?
    ensures forall j :: 0 <= j < |T.fields| ==> PStr(T.fields[j].0) in Keys(data.entries)
  {
    forall i | 0 <= i < |data.entries|
      ensures data.entries[i].0.PStr? && FieldIndex(T.fields, data.entries[i].0.s).Some?
    {
      if !data.entries[i].0.PStr? || FieldIndex(T.fields, data.entries[i].0.s).None? {
        DecodeFieldsRejectsUnknown(T, data.entries, 0, [], i);
      }
    }
    var kwargs := DecodeFields(T, data.entries, 0, []).value;
    var values := Assemble(T.fields, kwargs, 0).value;
    forall j | 0 <= j < |T.fields| ensures PStr(T.fields[j].0) in Keys(data.entries) {
      assert values[j].0 == T.fields[j].0;
      assert DictGet(kwargs, PStr(T.fields[j].0)).Some?;
      if PStr(T.fields[j].0) !in Keys(data.entries) {
        DecodeFieldsAbsentKey(T, data.entries, 0, [], PStr(T.fields[j].0));
      }
    }
  }
}
