/**
 * The column type system: a closed set of column types, each a variant of `ColumnType`,
 * with structural equality, the SQL type each maps to, its serialized form, and the decision
 * whether (and how) values of one column type can be converted into another.
 */
module TypeSystem {
  import opened Wrappers
  import opened PyValues

  /** `ColumnType.Type`, the tag that names each variant. */
  datatype TypeTag = INVALID | STRING | INT | FLOAT | BOOL | TIMESTAMP | IMAGE | DICT | ARRAY

  /** The enum value of a tag, as `serialize` writes it. */
  function TagValue(t: TypeTag): nat {
    match t
    case INVALID => 0
    case STRING => 1
    case INT => 2
    case FLOAT => 3
    case BOOL => 4
    case TIMESTAMP => 5
    case IMAGE => 6
    case DICT => 7
    case ARRAY => 8
  }

  function TagOfValue(n: int): (r: Option<TypeTag>)
    ensures r.Some? ==> TagValue(r.value) == n
    ensures 0 <= n <= 8 ==> r.Some?
  {
    if n == 0 then Some(INVALID) else if n == 1 then Some(STRING) else if n == 2 then Some(INT)
    else if n == 3 then Some(FLOAT) else if n == 4 then Some(TypeTag.BOOL)
    else if n == 5 then Some(TIMESTAMP) else if n == 6 then Some(IMAGE)
    else if n == 7 then Some(DICT) else if n == 8 then Some(ARRAY) else None
  }

  /** `ColumnType.DType`, the element type of an array. */
  datatype DType =
    BOOL | INT8 | INT16 | INT32 | INT64 | UINT8 | UINT16 | UINT32 | UINT64 | FLOAT16 | FLOAT32 | FLOAT64

  function DTypeIndex(d: DType): (n: nat)
    ensures n < 12
  {
    match d
    case BOOL => 0
    case INT8 => 1
    case INT16 => 2
    case INT32 => 3
    case INT64 => 4
    case UINT8 => 5
    case UINT16 => 6
    case UINT32 => 7
    case UINT64 => 8
    case FLOAT16 => 9
    case FLOAT32 => 10
    case FLOAT64 => 11
  }

  function DTypeOfIndex(n: int): (r: Option<DType>)
    ensures r.Some? ==> DTypeIndex(r.value) == n
    ensures 0 <= n < 12 ==> r.Some?
  {
    if n == 0 then Some(DType.BOOL) else if n == 1 then Some(INT8) else if n == 2 then Some(INT16)
    else if n == 3 then Some(INT32) else if n == 4 then Some(INT64) else if n == 5 then Some(UINT8)
    else if n == 6 then Some(UINT16) else if n == 7 then Some(UINT32) else if n == 8 then Some(UINT64)
    else if n == 9 then Some(FLOAT16) else if n == 10 then Some(FLOAT32)
    else if n == 11 then Some(FLOAT64) else None
  }

  /**
   * The enum value of a dtype. Every member but FLOAT64 is declared with a trailing comma,
   * which makes its value a one-element tuple.
   */
  function DTypeValue(d: DType): PyValue {
    if d == FLOAT64 then PInt(11) else PTuple([PInt(DTypeIndex(d))])
  }

  /** `ImageType.Mode`: grayscale or RGB. */
  datatype Mode = L | RGB

  /** The enum value of a mode: `L = 0,` is the tuple (0,), `RGB = 1` is 1. */
  function ModeValue(m: Mode): PyValue {
    match m
    case L => PTuple([PInt(0)])
    case RGB => PInt(1)
  }

  /** `Mode.to_pil`: the member's name */
  function ToPil(m: Mode): string {
    match m
    case L => "L"
    case RGB => "RGB"
  }

  /** `Mode.from_pil`; any other PIL mode falls off the end and yields None. */
  function FromPil(pilMode: string): (r: Option<Mode>)
    ensures r.Some? ==> ToPil(r.value) == pilMode
  {
    if pilMode == "L" then Some(L) else if pilMode == "RGB" then Some(RGB) else None
  }

  lemma FromPilToPil(m: Mode)
    ensures FromPil(ToPil(m)) == Some(m)
  {
  }

  /** A column type; each variant stands for one subclass of `ColumnType`. */
  datatype ColumnType =
    | InvalidType
    | StringType
    | IntType
    | FloatType
    | BoolType
    | TimestampType
    | ImageType(width: Option<int>, height: Option<int>, mode: Option<Mode>)
    | DictType
    | ArrayType(shape: Option<seq<int>>, dtype: Option<DType>)

  /** `type_enum` */
  function TypeEnum(t: ColumnType): TypeTag {
    match t
    case InvalidType => INVALID
    case StringType => STRING
    case IntType => INT
    case FloatType => FLOAT
    case BoolType => TypeTag.BOOL
    case TimestampType => TIMESTAMP
    case ImageType(_, _, _) => IMAGE
    case DictType => DICT
    case ArrayType(_, _) => ARRAY
  }

  /** The `ImageType` constructor: `size` may not be combined with `width` or `height`. */
  function NewImageType(
    width: Option<int> := None, height: Option<int> := None,
    size: Option<(int, int)> := None, mode: Option<Mode> := None): (t: ColumnType)
    requires !(width.Some? && size.Some?) && !(height.Some? && size.Some?)
    ensures t.ImageType? && t.mode == mode
    ensures size.Some? ==> t.width == Some(size.value.0) && t.height == Some(size.value.1)
    ensures size.None? ==> t.width == width && t.height == height
  {
    if size.Some? then ImageType(Some(size.value.0), Some(size.value.1), mode)
    else ImageType(width, height, mode)
  }

  /** The `ArrayType` constructor and its defaults. */
  function NewArrayType(shape: Option<seq<int>> := None, dtype: Option<DType> := Some(INT32)): ColumnType {
    ArrayType(shape, dtype)
  }

  /** `make_type`: the instance a tag gives with every constructor argument left at its default. */
  function MakeType(tag: TypeTag): (t: ColumnType)
    requires tag != INVALID
    ensures TypeEnum(t) == tag
    ensures t.ImageType? ==> t.width.None? && t.height.None? && t.mode.None?
    ensures t.ArrayType? ==> t.shape.None? && t.dtype == Some(INT32)
  {
    match tag
    case STRING => StringType
    case INT => IntType
    case FLOAT => FloatType
    case BOOL => BoolType
    case TIMESTAMP => TimestampType
    case IMAGE => NewImageType()
    case DICT => DictType
    case ARRAY => NewArrayType()
  }

  /** A type without constructor arguments, or one with all of them at their defaults, is what `make_type` gives for its tag. */
  lemma MakeTypeOfTypeEnum(t: ColumnType)
    requires t != InvalidType
    requires t.ImageType? ==> t == ImageType(None, None, None)
    requires t.ArrayType? ==> t == ArrayType(None, Some(INT32))
    ensures MakeType(TypeEnum(t)) == t
  {
  }

  /** A value of one of the attributes `vars(self)` holds. */
  datatype Attr =
    | TagAttr(tag: TypeTag)
    | DimAttr(dim: Option<int>)
    | ModeAttr(mode: Option<Mode>)
    | ShapeAttr(shape: Option<seq<int>>)
    | DTypeAttr(dtype: Option<DType>)

  /** `vars(self)`: the instance attributes in the order the constructors assign them. */
  function Vars(t: ColumnType): (vs: seq<(string, Attr)>)
    ensures |vs| > 0 && vs[0] == ("_type", TagAttr(TypeEnum(t)))
  {
    var base := [("_type", TagAttr(TypeEnum(t)))];
    match t
    case ImageType(w, h, m) => base + [("width", DimAttr(w)), ("height", DimAttr(h)), ("mode", ModeAttr(m))]
    case ArrayType(s, d) => base + [("shape", ShapeAttr(s)), ("dtype", DTypeAttr(d))]
    case _ => base
  }

  /** Instances of one class have the same attribute names, and their attribute values determine them. */
  lemma VarsDetermineType(a: ColumnType, b: ColumnType)
    requires TypeEnum(a) == TypeEnum(b)
    ensures |Vars(a)| == |Vars(b)|
    ensures forall i :: 0 <= i < |Vars(a)| ==> Vars(a)[i].0 == Vars(b)[i].0
    ensures (forall i :: 0 <= i < |Vars(a)| ==> Vars(a)[i].1 == Vars(b)[i].1) ==> a == b
  {
    if a.ImageType? {
      assert Vars(a)[1].1 == Vars(b)[1].1 ==> a.width == b.width;
      assert Vars(a)[2].1 == Vars(b)[2].1 ==> a.height == b.height;
      assert Vars(a)[3].1 == Vars(b)[3].1 ==> a.mode == b.mode;
    } else if a.ArrayType? {
      assert Vars(a)[1].1 == Vars(b)[1].1 ==> a.shape == b.shape;
      assert Vars(a)[2].1 == Vars(b)[2].1 ==> a.dtype == b.dtype;
    }
  }

  /**
   * `__eq__`: false for instances of different classes, otherwise a scan of the attributes
   * that stops at the first one that differs. It is exactly structural equality.
   */
  method Equals(self: ColumnType, other: ColumnType) returns (eq: bool)
    ensures eq <==> self == other
  {
    if TypeEnum(self) != TypeEnum(other) {
      return false;
    }
    VarsDetermineType(self, other);
    var mine, theirs := Vars(self), Vars(other);
    var i := 0;
    while i < |mine|
      invariant 0 <= i <= |mine|
      invariant forall j :: 0 <= j < i ==> mine[j].1 == theirs[j].1
    {
      if mine[i].1 != theirs[i].1 {
        return false;
      }
      i := i + 1;
    }
    return true;
  }

  const ScalarTypes: set<TypeTag> := {STRING, INT, FLOAT, TypeTag.BOOL, TIMESTAMP}

  /** `is_scalar_type`: the variants that carry no attributes besides their tag and are not invalid, dict or array. */
  function IsScalarType(t: ColumnType): (r: bool)
    ensures r <==> t.StringType? || t.IntType? || t.FloatType? || t.BoolType? || t.TimestampType?
    ensures r ==> |Vars(t)| == 1
  {
    TypeEnum(t) in ScalarTypes
  }

  /** `is_image_type`, `is_timestamp_type` and their siblings: a test of the tag. */
  predicate IsOfType(t: ColumnType, tag: TypeTag) {
    TypeEnum(t) == tag
  }

  /** The tag tests agree with the variant, one variant per tag. */
  lemma IsOfTypeMatchesVariant(t: ColumnType)
    ensures IsOfType(t, INVALID) <==> t.InvalidType?
    ensures IsOfType(t, STRING) <==> t.StringType?
    ensures IsOfType(t, INT) <==> t.IntType?
    ensures IsOfType(t, FLOAT) <==> t.FloatType?
    ensures IsOfType(t, TypeTag.BOOL) <==> t.BoolType?
    ensures IsOfType(t, TIMESTAMP) <==> t.TimestampType?
    ensures IsOfType(t, IMAGE) <==> t.ImageType?
    ensures IsOfType(t, DICT) <==> t.DictType?
    ensures IsOfType(t, ARRAY) <==> t.ArrayType?
  {
  }

  /** `to_sql` */
  function ToSql(t: ColumnType): (sql: string)
    requires !t.InvalidType?
    ensures sql in {"VARCHAR", "INTEGER", "FLOAT", "BOOLEAN", "BLOB"}
  {
    match t
    case StringType => "VARCHAR"
    case IntType => "INTEGER"
    case FloatType => "FLOAT"
    case BoolType => "BOOLEAN"
    case TimestampType => "INTEGER"
    case ImageType(_, _, _) => "VARCHAR"
    case DictType => "VARCHAR"
    case ArrayType(_, _) => "BLOB"
  }

  /** Which column types share each SQL type. */
  lemma ToSqlPreimages(t: ColumnType)
    requires !t.InvalidType?
    ensures ToSql(t) == "VARCHAR" <==> t.StringType? || t.ImageType? || t.DictType?
    ensures ToSql(t) == "INTEGER" <==> t.IntType? || t.TimestampType?
    ensures ToSql(t) == "FLOAT" <==> t.FloatType?
    ensures ToSql(t) == "BOOLEAN" <==> t.BoolType?
    ensures ToSql(t) == "BLOB" <==> t.ArrayType?
  {
  }

  // ---------------------------------------------------------------------------------------
  // Serialization

  datatype SerializeError =
    /** `self.mode.value` on an image type whose mode is None raises AttributeError */
    | NoneHasNoValue

  function OptIntValue(o: Option<int>): PyValue {
    if o.Some? then PInt(o.value) else PNone
  }

  /**
   * `serialize` as written: `{'type': tag}` for every variant, to which an image adds its
   * width, height and mode value. ArrayType does not override it.
   */
  function SerializeAsWritten(t: ColumnType): (r: Result<PyValue, SerializeError>)
    ensures r.Failure? <==> t.ImageType? && t.mode.None?
    ensures r.Success? ==>
              r.value.PDict? && |r.value.entries| > 0
              && r.value.entries[0] == (PStr("type"), PInt(TagValue(TypeEnum(t))))
    ensures r.Success? && !t.ImageType? ==> |r.value.entries| == 1
  {
    var base := [(PStr("type"), PInt(TagValue(TypeEnum(t))))];
    match t
    case ImageType(w, h, m) =>
      if m.None? then Failure(NoneHasNoValue)
      else Success(PDict(base + [(PStr("width"), OptIntValue(w)), (PStr("height"), OptIntValue(h)),
                                 (PStr("mode"), ModeValue(m.value))]))
    case _ => Success(PDict(base))
  }

  /** The image type `make_type(IMAGE)` creates cannot be serialized. */
  lemma SerializeDefaultImageFails()
    ensures SerializeAsWritten(MakeType(IMAGE)) == Failure(NoneHasNoValue)
  {
  }

  /** Two different array types serialize to the same record: shape and dtype are lost. */
  lemma SerializeArrayLosesShape()
    ensures ArrayType(Some([2, 3]), Some(FLOAT32)) != MakeType(ARRAY)
    ensures SerializeAsWritten(ArrayType(Some([2, 3]), Some(FLOAT32))) == SerializeAsWritten(MakeType(ARRAY))
  {
  }

  function ShapeValue(shape: Option<seq<int>>): PyValue {
    if shape.None? then PNone
    else PTuple(seq(|shape.value|, i requires 0 <= i < |shape.value| => PInt(shape.value[i])))
  }

  /**
   * `serialize`, corrected: an image with no mode writes None for it, and an array writes
   * its shape and dtype, so that the record determines the type.
   */
  function Serialize(t: ColumnType): (d: PyValue)
    ensures d.PDict? && |d.entries| > 0 && d.entries[0] == (PStr("type"), PInt(TagValue(TypeEnum(t))))
  {
    var base := [(PStr("type"), PInt(TagValue(TypeEnum(t))))];
    match t
    case ImageType(w, h, m) =>
      PDict(base + [(PStr("width"), OptIntValue(w)), (PStr("height"), OptIntValue(h)),
                    (PStr("mode"), if m.Some? then ModeValue(m.value) else PNone)])
    case ArrayType(shape, dtype) =>
      PDict(base + [(PStr("shape"), ShapeValue(shape)),
                    (PStr("dtype"), if dtype.Some? then DTypeValue(dtype.value) else PNone)])
    case _ => PDict(base)
  }

  /** Where the written `serialize` succeeds on a non-array type, the corrected one agrees with it. */
  lemma SerializeAgreesWithAsWritten(t: ColumnType)
    requires SerializeAsWritten(t).Success? && !t.ArrayType?
    ensures Serialize(t) == SerializeAsWritten(t).value
  {
  }

  function OptIntOfValue(v: PyValue): Option<Option<int>> {
    match v
    case PNone => Some(None)
    case PInt(n) => Some(Some(n))
    case _ => None
  }

  /** A mode value as JSON gives it back: the tuple (0,) has become the list [0]. */
  function ModeOfValue(v: PyValue): Option<Option<Mode>> {
    match v
    case PNone => Some(None)
    case PList(xs) => if xs == [PInt(0)] then Some(Some(L)) else None
    case PInt(n) => if n == 1 then Some(Some(RGB)) else None
    case _ => None
  }

  function DTypeOfValue(v: PyValue): Option<Option<DType>> {
    match v
    case PNone => Some(None)
    case PInt(n) => if n == 11 then Some(Some(FLOAT64)) else None
    case PList(xs) =>
      if |xs| == 1 && xs[0].PInt? && 0 <= xs[0].i < 11 then
        var d := DTypeOfIndex(xs[0].i);
        Some(d)
      else None
    case _ => None
  }

  function ShapeOfValue(v: PyValue): Option<Option<seq<int>>> {
    match v
    case PNone => Some(None)
    case PList(xs) =>
      if forall i :: 0 <= i < |xs| ==> xs[i].PInt? then
        Some(Some(seq(|xs|, i requires 0 <= i < |xs| => xs[i].i)))
      else None
    case _ => None
  }

  function DeserializeImage(entries: seq<(PyValue, PyValue)>): Option<ColumnType> {
    var w := DictGet(entries, PStr("width"));
    var h := DictGet(entries, PStr("height"));
    var m := DictGet(entries, PStr("mode"));
    if w.None? || h.None? || m.None? then None
    else
      var w', h', m' := OptIntOfValue(w.value), OptIntOfValue(h.value), ModeOfValue(m.value);
      if w'.None? || h'.None? || m'.None? then None
      else Some(ImageType(w'.value, h'.value, m'.value))
  }

  function DeserializeArray(entries: seq<(PyValue, PyValue)>): Option<ColumnType> {
    var s := DictGet(entries, PStr("shape"));
    var dt := DictGet(entries, PStr("dtype"));
    if s.None? || dt.None? then None
    else
      var s', dt' := ShapeOfValue(s.value), DTypeOfValue(dt.value);
      if s'.None? || dt'.None? then None
      else Some(ArrayType(s'.value, dt'.value))
  }

  /**
   * The reading side of `serialize`, on the JSON form a stored record comes back in. The
   * source has no such function; it is here to state what `serialize` must preserve.
   */
  function Deserialize(d: PyValue): Option<ColumnType> {
    if !d.PDict? then None
    else
      var tag := DictGet(d.entries, PStr("type"));
      if tag.None? || !tag.value.PInt? then None
      else
        match TagOfValue(tag.value.i)
        case None => None
        case Some(tag) =>
          if tag == IMAGE then DeserializeImage(d.entries)
          else if tag == ARRAY then DeserializeArray(d.entries)
          else if tag == INVALID then Some(InvalidType)
          else Some(MakeType(tag))
  }

  /** The JSON a stored image mode comes back as. */
  function StoredModeValue(m: Option<Mode>): PyValue {
    if m == Some(L) then PList([PInt(0)]) else if m == Some(RGB) then PInt(1) else PNone
  }

  /** The entries of a stored image dict, in the order `serialize` writes them. */
  function ImageEntries(wj: PyValue, hj: PyValue, mj: PyValue): seq<(PyValue, PyValue)> {
    [(PStr("type"), PInt(6)), (PStr("width"), wj), (PStr("height"), hj), (PStr("mode"), mj)]
  }

  lemma ImageJsonEntries(w: Option<int>, h: Option<int>, m: Option<Mode>)
    ensures ToJson(Serialize(ImageType(w, h, m))).PDict?
    ensures ToJson(Serialize(ImageType(w, h, m))).entries
         == ImageEntries(OptIntValue(w), OptIntValue(h), StoredModeValue(m))
  {
    var mv := if m.Some? then ModeValue(m.value) else PNone;
    assert ToJson(mv) == StoredModeValue(m);
    var es := [(PStr("type"), PInt(6)), (PStr("width"), OptIntValue(w)),
               (PStr("height"), OptIntValue(h)), (PStr("mode"), mv)];
    assert Serialize(ImageType(w, h, m)).entries == es;
    ToJsonEntries(es);
  }

  /** A stored mode reads back as the mode that was stored. */
  lemma StoredModeRead(m: Option<Mode>)
    ensures ModeOfValue(StoredModeValue(m)) == Some(m)
  {
    match m
    case None =>
    case Some(L) =>
      var xs := [PInt(0)];
      assert StoredModeValue(m) == PList(xs);
      assert ModeOfValue(PList(xs)) == Some(Some(L));
    case Some(RGB) =>
  }

  lemma ImageRead(w: Option<int>, h: Option<int>, m: Option<Mode>)
    ensures DeserializeImage(ImageEntries(OptIntValue(w), OptIntValue(h), StoredModeValue(m))) == Some(ImageType(w, h, m))
  {
    var js := ImageEntries(OptIntValue(w), OptIntValue(h), StoredModeValue(m));
    ImageEntriesGet(OptIntValue(w), OptIntValue(h), StoredModeValue(m));
    DeserializeImageFrom(js, w, h, m);
  }

  /** Stored entries that hold the stored width, height and mode read back as that image type. */
  lemma DeserializeImageFrom(entries: seq<(PyValue, PyValue)>, w: Option<int>, h: Option<int>, m: Option<Mode>)
    requires DictGet(entries, PStr("width")) == Some(OptIntValue(w))
    requires DictGet(entries, PStr("height")) == Some(OptIntValue(h))
    requires DictGet(entries, PStr("mode")) == Some(StoredModeValue(m))
    ensures DeserializeImage(entries) == Some(ImageType(w, h, m))
  {
    StoredModeRead(m);
  }

  /** Looking up the fields of a stored image dict finds the values stored under them. */
  lemma ImageEntriesGet(wj: PyValue, hj: PyValue, mj: PyValue)
    ensures DictGet(ImageEntries(wj, hj, mj), PStr("width")) == Some(wj)
    ensures DictGet(ImageEntries(wj, hj, mj), PStr("height")) == Some(hj)
    ensures DictGet(ImageEntries(wj, hj, mj), PStr("mode")) == Some(mj)
  {
    var js := ImageEntries(wj, hj, mj);
    var js3 := [(PStr("type"), PInt(6)), (PStr("width"), wj), (PStr("height"), hj)];
    var js2 := [(PStr("type"), PInt(6)), (PStr("width"), wj)];
    assert js[..3] == js3 && js3[..2] == js2;
    assert PStr("mode") != PStr("width") && PStr("mode") != PStr("height");
    assert PStr("height") != PStr("width");
    assert DictGet(js, PStr("mode")) == Some(mj);
    assert DictGet(js, PStr("height")) == DictGet(js3, PStr("height")) == Some(hj);
    assert DictGet(js, PStr("width")) == DictGet(js3, PStr("width")) == DictGet(js2, PStr("width")) == Some(wj);
  }

  lemma ImageRoundTrip(w: Option<int>, h: Option<int>, m: Option<Mode>)
    ensures DeserializeImage(ToJson(Serialize(ImageType(w, h, m))).entries) == Some(ImageType(w, h, m))
  {
    ImageJsonEntries(w, h, m);
    ImageRead(w, h, m);
  }

  /** The JSON a stored array shape and dtype come back as. */
  function StoredShapeValue(shape: Option<seq<int>>): PyValue {
    if shape.Some? then PList(seq(|shape.value|, i requires 0 <= i < |shape.value| => PInt(shape.value[i]))) else PNone
  }

  function StoredDTypeValue(dtype: Option<DType>): PyValue {
    if dtype.None? then PNone
    else if dtype.value == FLOAT64 then PInt(11)
    else PList([PInt(DTypeIndex(dtype.value))])
  }

  lemma ArrayJsonEntries(shape: Option<seq<int>>, dtype: Option<DType>)
    ensures ToJson(Serialize(ArrayType(shape, dtype))).PDict?
    ensures ToJson(Serialize(ArrayType(shape, dtype))).entries
         == [(PStr("type"), PInt(8)), (PStr("shape"), StoredShapeValue(shape)), (PStr("dtype"), StoredDTypeValue(dtype))]
  {
    var sv := ShapeValue(shape);
    assert ToJson(sv) == StoredShapeValue(shape);
    var dv := if dtype.Some? then DTypeValue(dtype.value) else PNone;
    assert ToJson(dv) == StoredDTypeValue(dtype);
    var es := [(PStr("type"), PInt(8)), (PStr("shape"), sv), (PStr("dtype"), dv)];
    assert Serialize(ArrayType(shape, dtype)).entries == es;
    ToJsonEntries(es);
  }

  lemma ArrayRoundTrip(shape: Option<seq<int>>, dtype: Option<DType>)
    ensures DeserializeArray(ToJson(Serialize(ArrayType(shape, dtype))).entries) == Some(ArrayType(shape, dtype))
  {
    ArrayJsonEntries(shape, dtype);
    var sj, dj := StoredShapeValue(shape), StoredDTypeValue(dtype);
    assert ShapeOfValue(sj) == Some(shape) by {
      if shape.Some? {
        assert seq(|sj.items|, i requires 0 <= i < |sj.items| => sj.items[i].i) == shape.value;
      }
    }
    assert DTypeOfValue(dj) == Some(dtype) by {
      if dtype.Some? && dtype.value != FLOAT64 {
        assert dj == PList([PInt(DTypeIndex(dtype.value))]);
      }
    }
    var js := [(PStr("type"), PInt(8)), (PStr("shape"), sj), (PStr("dtype"), dj)];
    ArrayEntriesGet(js, sj, dj);
  }

  /** Looking up the fields of a stored array dict finds the values stored under them. */
  lemma ArrayEntriesGet(js: seq<(PyValue, PyValue)>, sj: PyValue, dj: PyValue)
    requires js == [(PStr("type"), PInt(8)), (PStr("shape"), sj), (PStr("dtype"), dj)]
    ensures DictGet(js, PStr("shape")) == Some(sj)
    ensures DictGet(js, PStr("dtype")) == Some(dj)
  {
    assert js[..2] == [(PStr("type"), PInt(8)), (PStr("shape"), sj)];
  }

  lemma ImageTypeEntry(w: Option<int>, h: Option<int>, m: Option<Mode>)
    ensures ToJson(Serialize(ImageType(w, h, m))).PDict?
    ensures DictGet(ToJson(Serialize(ImageType(w, h, m))).entries, PStr("type")) == Some(PInt(6))
  {
    ImageJsonEntries(w, h, m);
    DictGetEntry(ImageEntries(OptIntValue(w), OptIntValue(h), StoredModeValue(m)), 0);
  }

  lemma ArrayTypeEntry(shape: Option<seq<int>>, dtype: Option<DType>)
    ensures ToJson(Serialize(ArrayType(shape, dtype))).PDict?
    ensures DictGet(ToJson(Serialize(ArrayType(shape, dtype))).entries, PStr("type")) == Some(PInt(8))
  {
    ArrayJsonEntries(shape, dtype);
    DictGetEntry([(PStr("type"), PInt(8)), (PStr("shape"), StoredShapeValue(shape)),
                  (PStr("dtype"), StoredDTypeValue(dtype))], 0);
  }

  lemma PlainTypeJson(t: ColumnType)
    requires !t.ImageType? && !t.ArrayType?
    ensures ToJson(Serialize(t)) == PDict([(PStr("type"), PInt(TagValue(TypeEnum(t))))])
  {
    assert Serialize(t) == PDict([(PStr("type"), PInt(TagValue(TypeEnum(t))))]);
    ToJsonEntries([(PStr("type"), PInt(TagValue(TypeEnum(t))))]);
  }

  /** A stored dict tagged 6 is read by the image branch. */
  lemma DeserializeImageTag(j: PyValue)
    requires j.PDict? && DictGet(j.entries, PStr("type")) == Some(PInt(6))
    ensures Deserialize(j) == DeserializeImage(j.entries)
  {
    assert TagOfValue(6) == Some(IMAGE);
  }

  /** A stored dict tagged 8 is read by the array branch. */
  lemma DeserializeArrayTag(j: PyValue)
    requires j.PDict? && DictGet(j.entries, PStr("type")) == Some(PInt(8))
    ensures Deserialize(j) == DeserializeArray(j.entries)
  {
    assert TagOfValue(8) == Some(ARRAY);
  }

  lemma TagOfValueOfTag(tag: TypeTag)
    ensures TagOfValue(TagValue(tag)) == Some(tag)
  {
  }

  /** A stored dict carrying the tag of a type without arguments reads back as that type. */
  lemma DeserializePlain(j: PyValue, t: ColumnType)
    requires !t.ImageType? && !t.ArrayType?
    requires j.PDict? && DictGet(j.entries, PStr("type")) == Some(PInt(TagValue(TypeEnum(t))))
    ensures Deserialize(j) == Some(t)
  {
    var tag := TypeEnum(t);
    TagOfValueOfTag(tag);
    if t != InvalidType {
      MakeTypeOfTypeEnum(t);
    }
  }

  lemma ImageSerializeRoundTrip(w: Option<int>, h: Option<int>, m: Option<Mode>)
    ensures Deserialize(ToJson(Serialize(ImageType(w, h, m)))) == Some(ImageType(w, h, m))
  {
    ImageTypeEntry(w, h, m);
    DeserializeImageTag(ToJson(Serialize(ImageType(w, h, m))));
    ImageRoundTrip(w, h, m);
  }

  lemma ArraySerializeRoundTrip(shape: Option<seq<int>>, dtype: Option<DType>)
    ensures Deserialize(ToJson(Serialize(ArrayType(shape, dtype)))) == Some(ArrayType(shape, dtype))
  {
    ArrayTypeEntry(shape, dtype);
    DeserializeArrayTag(ToJson(Serialize(ArrayType(shape, dtype))));
    ArrayRoundTrip(shape, dtype);
  }

  /** Every column type survives being serialized, stored as JSON and read back. */
  lemma SerializeRoundTrip(t: ColumnType)
    ensures Deserialize(ToJson(Serialize(t))) == Some(t)
  {
    if t.ImageType? {
      ImageSerializeRoundTrip(t.width, t.height, t.mode);
    } else if t.ArrayType? {
      ArraySerializeRoundTrip(t.shape, t.dtype);
    } else {
      PlainTypeJson(t);
      var j := PDict([(PStr("type"), PInt(TagValue(TypeEnum(t))))]);
      assert DictGet(j.entries, PStr("type")) == Some(PInt(TagValue(TypeEnum(t))));
      DeserializePlain(j, t);
    }
  }

  // ---------------------------------------------------------------------------------------
  // Conversion

  /** A PIL image, reduced to what the converters change. */
  datatype Image = Image(width: int, height: int, mode: Mode)

  /** A column value of a type that takes part in a conversion. */
  datatype CellValue = StrCell(s: string) | TimestampCell(t: int) | ImageCell(img: Image)

  /** A value fits a column type: an image meets every dimension and mode the type fixes. */
  predicate ValueConforms(v: CellValue, t: ColumnType) {
    match v
    case StrCell(_) => t.StringType?
    case TimestampCell(_) => t.TimestampType?
    case ImageCell(img) =>
      && t.ImageType?
      && (t.width.Some? ==> img.width == t.width.value)
      && (t.height.Some? ==> img.height == t.height.value)
      && (t.mode.Some? ==> img.mode == t.mode.value)
  }

  /** The closures `conversion_fn` returns, described by what they do. */
  datatype Converter =
    /** `datetime.fromisoformat`, with None for a string it cannot parse */
    | ParseIsoTimestamp
    /** resize to (width, height) if `resize`, then convert to `mode` if `recolour` */
    | ImageConverter(resize: bool, recolour: bool, width: Option<int>, height: Option<int>, mode: Option<Mode>)

  /** The three outcomes of `conversion_fn`: None, the `no_conversion` marker, or a converter. */
  datatype Conversion = NotConvertible | NoConversion | Convert(converter: Converter)

  datatype ConvertError =
    /** the converter was handed a value of another kind */
    | WrongInput
    /** `img.resize((None, None))` */
    | ResizeToNone
    /** `img.convert(None.to_pil())` */
    | RecolourToNone

  /**
   * Running a converter on one value. `parseIso` stands for `datetime.fromisoformat`; None
   * in the result is the None the string converter yields for an unparseable string.
   */
  function Apply(c: Converter, v: CellValue, parseIso: string -> Option<int>): Result<Option<CellValue>, ConvertError> {
    match c
    case ParseIsoTimestamp =>
      if !v.StrCell? then Failure(WrongInput)
      else
        var parsed := parseIso(v.s);
        Success(if parsed.Some? then Some(TimestampCell(parsed.value)) else None)
    case ImageConverter(resize, recolour, w, h, m) =>
      if !v.ImageCell? then Failure(WrongInput)
      else if resize && (w.None? || h.None?) then Failure(ResizeToNone)
      else
        var resized := if resize then v.img.(width := w.value, height := h.value) else v.img;
        if recolour && m.None? then Failure(RecolourToNone)
        else Success(Some(ImageCell(if recolour then resized.(mode := m.value) else resized)))
  }

  /** `StringType.conversion_fn`: only a timestamp target, through the ISO-8601 parser. */
  function StringConversion(target: ColumnType): (r: Conversion)
    ensures r != NoConversion
    ensures r.Convert? <==> target.TimestampType?
    ensures r.Convert? ==> r.converter == ParseIsoTimestamp
  {
    if !IsOfType(target, TIMESTAMP) then NotConvertible else Convert(ParseIsoTimestamp)
  }

  /** The shared first steps of `ImageType.conversion_fn`. */
  predicate ImageTargetResizable(target: ColumnType) {
    target.ImageType? && (target.width.None? == target.height.None?)
  }

  predicate NothingToDo(src: ColumnType, target: ColumnType)
    requires src.ImageType? && target.ImageType?
  {
    && (target.width == src.width || target.width.None?)
    && (target.height == src.height || target.height.None?)
    && (target.mode == src.mode || target.mode.None?)
  }

  /**
   * `ImageType.conversion_fn` as written: the converter resizes whenever the dimensions
   * differ and recolours whenever the modes differ, also when the target leaves them open.
   */
  function ImageConversionAsWritten(src: ColumnType, target: ColumnType): (r: Conversion)
    requires src.ImageType?
    ensures r.NotConvertible? <==> !ImageTargetResizable(target)
    ensures r.NoConversion? <==> ImageTargetResizable(target) && NothingToDo(src, target)
    ensures r.Convert? ==>
              && r.converter.ImageConverter?
              && (r.converter.resize <==> src.width != target.width || src.height != target.height)
              && (r.converter.recolour <==> src.mode != target.mode)
  {
    if !IsOfType(target, IMAGE) then NotConvertible
    else if target.width.None? != target.height.None? then NotConvertible
    else if NothingToDo(src, target) then NoConversion
    else Convert(ImageConverter(src.width != target.width || src.height != target.height,
                                src.mode != target.mode, target.width, target.height, target.mode))
  }

  /** Unconstrained target dimensions with a change of mode: the written converter resizes to (None, None). */
  lemma ImageConversionResizesToNone()
    ensures var src := ImageType(Some(100), Some(100), Some(RGB));
            var target := ImageType(None, None, Some(L));
            var c := ImageConversionAsWritten(src, target);
            c.Convert? && Apply(c.converter, ImageCell(Image(100, 100, RGB)), _ => None) == Failure(ResizeToNone)
  {
  }

  /** An unconstrained target mode with a change of size: the written converter recolours to None. */
  lemma ImageConversionRecoloursToNone()
    ensures var src := ImageType(Some(100), Some(100), Some(RGB));
            var target := ImageType(Some(50), Some(50), None);
            var c := ImageConversionAsWritten(src, target);
            c.Convert? && Apply(c.converter, ImageCell(Image(100, 100, RGB)), _ => None) == Failure(RecolourToNone)
  {
  }

  /**
   * `ImageType.conversion_fn`, corrected: the converter resizes only to dimensions the target
   * fixes and recolours only to a mode the target fixes.
   */
  function ImageConversion(src: ColumnType, target: ColumnType): (r: Conversion)
    requires src.ImageType?
    ensures r.NotConvertible? <==> !ImageTargetResizable(target)
    ensures r.NoConversion? <==> ImageTargetResizable(target) && NothingToDo(src, target)
    ensures r.Convert? ==>
              && r.converter.ImageConverter?
              && r.converter.width == target.width && r.converter.height == target.height
              && r.converter.mode == target.mode
              && (r.converter.resize <==> target.width.Some? && (src.width != target.width || src.height != target.height))
              && (r.converter.recolour <==> target.mode.Some? && src.mode != target.mode)
  {
    if !IsOfType(target, IMAGE) then NotConvertible
    else if target.width.None? != target.height.None? then NotConvertible
    else if NothingToDo(src, target) then NoConversion
    else Convert(ImageConverter(target.width.Some? && (src.width != target.width || src.height != target.height),
                                target.mode.Some? && src.mode != target.mode,
                                target.width, target.height, target.mode))
  }

  /** Where the written converter does not fail, the corrected decision is the same up to those failing steps. */
  lemma ImageConversionAgreesWhenTargetFixed(src: ColumnType, target: ColumnType)
    requires src.ImageType? && target.ImageType?
    requires target.width.Some? && target.height.Some? && target.mode.Some?
    ensures ImageConversion(src, target) == ImageConversionAsWritten(src, target)
  {
  }

  /**
   * `conversion_fn` as written: only StringType and ImageType override the base method,
   * which reports that no conversion exists, whatever the target, the same type included.
   */
  function ConversionFnAsWritten(src: ColumnType, target: ColumnType): (r: Conversion)
    ensures !(src.StringType? || src.ImageType?) ==> r == NotConvertible
    ensures src.StringType? ==> r == StringConversion(target)
    ensures src.ImageType? ==> r == ImageConversionAsWritten(src, target)
  {
    match src
    case StringType => StringConversion(target)
    case ImageType(_, _, _) => ImageConversionAsWritten(src, target)
    case _ => NotConvertible
  }

  /**
   * The corrected dispatch takes the same decision as the written one (no conversion, the
   * marker, or a converter); only an image converter for a target that leaves a field open differs.
   */
  lemma ConversionFnDecisionAsWritten(src: ColumnType, target: ColumnType)
    ensures ConversionFn(src, target).Convert? <==> ConversionFnAsWritten(src, target).Convert?
    ensures !ConversionFn(src, target).Convert? ==> ConversionFn(src, target) == ConversionFnAsWritten(src, target)
    ensures ConversionFn(src, target) != ConversionFnAsWritten(src, target) ==>
      src.ImageType? && target.ImageType? && (target.width.None? || target.mode.None?)
  {
  }

  /**
   * `conversion_fn` with the corrected image converter: only StringType and ImageType
   * convert, and every other type reports that no conversion exists, whatever the target.
   */
  function ConversionFn(src: ColumnType, target: ColumnType): (r: Conversion)
    ensures !(src.StringType? || src.ImageType?) ==> r == NotConvertible
    ensures src.StringType? ==> r == StringConversion(target)
    ensures src.ImageType? ==> r == ImageConversion(src, target)
  {
    match src
    case StringType => StringConversion(target)
    case ImageType(_, _, _) => ImageConversion(src, target)
    case _ => NotConvertible
  }

  /**
   * A conversion never crashes on a value of the source type: the marker means the value
   * already fits the target, and a converter yields a value of the target type, or None
   * for a string that does not parse.
   */
  lemma ConversionPreservesConformance(src: ColumnType, target: ColumnType, v: CellValue, parseIso: string -> Option<int>)
    requires ValueConforms(v, src)
    ensures ConversionFn(src, target).NoConversion? ==> ValueConforms(v, target)
    ensures ConversionFn(src, target).Convert? ==>
      var out := Apply(ConversionFn(src, target).converter, v, parseIso);
      && out.Success?
      && (out.value.Some? ==> ValueConforms(out.value.value, target))
      && (src.ImageType? ==> out.value.Some?)
  {
    var c := ConversionFn(src, target);
    if src.ImageType? && c.Convert? {
      var img := v.img;
      var resized := if c.converter.resize then img.(width := target.width.value, height := target.height.value) else img;
      assert target.width.Some? ==> resized.width == target.width.value;
      assert target.height.Some? ==> resized.height == target.height.value;
    }
  }

  /** Resizing and recolouring together, and the identical type as a no-op. */
  lemma ImageConversionExamples()
    ensures ConversionFn(ImageType(Some(100), Some(100), Some(RGB)), ImageType(Some(50), Some(50), Some(L)))
      == Convert(ImageConverter(true, true, Some(50), Some(50), Some(L)))
    ensures ConversionFn(ImageType(Some(100), Some(100), Some(RGB)), ImageType(Some(100), Some(100), Some(RGB)))
      == NoConversion
  {
  }
}
