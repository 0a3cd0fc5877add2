/**
 * The metadata records stored for tables, views, column histories and schema versions, the
 * invariants their comments state, and their stored form: each record is written with
 * `dataclasses.asdict` and JSON, and read back with `md_from_dict` under its annotation.
 */
module MetadataRecords {
  import opened Wrappers
  import opened PyValues
  import opened Metadata

  /** When a column was added and dropped, by schema version. */
  datatype ColumnHistory = ColumnHistory(colId: int, schemaVersionAdd: int, schemaVersionDrop: Option<int>)

  /**
   * A view: whether it is a snapshot, its bases as (table id, version) pairs, the filter
   * predicate, and the iterator class and arguments of a component view.
   */
  datatype ViewMd = ViewMd(
    isSnapshot: bool,
    baseVersions: seq<(string, Option<int>)>,
    filterPredicate: Option<PyValue>,
    iteratorClassFqn: Option<string>,
    iteratorArgs: Option<PyValue>)

  /** A table (or view): its versions, the counters that assign ids, and its column history. */
  datatype TableMd = TableMd(
    name: string,
    currentVersion: int,
    currentSchemaVersion: int,
    nextColId: int,
    nextRowId: int,
    columnHistory: seq<(int, ColumnHistory)>,
    viewMd: Option<ViewMd>)

  /** One column of one schema version. `colType` and `valueExpr` are stored dicts. */
  datatype SchemaColumn = SchemaColumn(
    pos: int,
    name: string,
    colType: PyValue,
    isPk: bool,
    valueExpr: Option<PyValue>,
    stored: Option<bool>,
    isIndexed: bool)

  /** One schema version of a table and its columns by column id. */
  datatype TableSchemaVersionMd = TableSchemaVersionMd(
    schemaVersion: int,
    precedingSchemaVersion: Option<int>,
    columns: seq<(int, SchemaColumn)>,
    numRetainedVersions: int,
    comment: string)

  const IntT := Leaf("int")
  const StrT := Leaf("str")
  const BoolT := Leaf("bool")
  const DictT := Leaf("dict")
  const JsonObjectT := DictOf(StrKey, Leaf("Any"))

  const ColumnHistoryType := Dataclass("ColumnHistory", [
    ("col_id", IntT), ("schema_version_add", IntT), ("schema_version_drop", Optional(IntT))])

  const ViewMdType := Dataclass("ViewMd", [
    ("is_snapshot", BoolT),
    ("base_versions", ListOf(TupleOf([StrT, Optional(IntT)]))),
    ("predicate", Optional(JsonObjectT)),
    ("iterator_class_fqn", Optional(StrT)),
    ("iterator_args", Optional(JsonObjectT))])

  const TableMdType := Dataclass("TableMd", [
    ("name", StrT), ("current_version", IntT), ("current_schema_version", IntT),
    ("next_col_id", IntT), ("next_row_id", IntT),
    ("column_history", DictOf(IntKey, ColumnHistoryType)),
    ("view_md", Optional(ViewMdType))])

  const SchemaColumnType := Dataclass("SchemaColumn", [
    ("pos", IntT), ("name", StrT), ("col_type", DictT), ("is_pk", BoolT),
    ("value_expr", Optional(DictT)), ("stored", Optional(BoolT)), ("is_indexed", BoolT)])

  const TableSchemaVersionMdType := Dataclass("TableSchemaVersionMd", [
    ("schema_version", IntT), ("preceding_schema_version", Optional(IntT)),
    ("columns", DictOf(IntKey, SchemaColumnType)),
    ("num_retained_versions", IntT), ("comment", StrT)])

  function OptIntValue(o: Option<int>): PyValue {
    if o.Some? then PInt(o.value) else PNone
  }

  function OptValue(o: Option<PyValue>): PyValue {
    if o.Some? then o.value else PNone
  }

  function ColumnHistoryValue(h: ColumnHistory): PyValue {
    PObject("ColumnHistory", [
      ("col_id", PInt(h.colId)), ("schema_version_add", PInt(h.schemaVersionAdd)),
      ("schema_version_drop", OptIntValue(h.schemaVersionDrop))])
  }

  function BaseVersionsValue(bases: seq<(string, Option<int>)>): (v: PyValue)
    ensures v.PList? && |v.items| == |bases|
    ensures forall i :: 0 <= i < |bases| ==> v.items[i] == PTuple([PStr(bases[i].0), OptIntValue(bases[i].1)])
  {
    if bases == [] then PList([])
    else PList(BaseVersionsValue(bases[..|bases| - 1]).items + [PTuple([PStr(bases[|bases| - 1].0), OptIntValue(bases[|bases| - 1].1)])])
  }

  function ViewMdValue(v: ViewMd): PyValue {
    PObject("ViewMd", [
      ("is_snapshot", PBool(v.isSnapshot)),
      ("base_versions", BaseVersionsValue(v.baseVersions)),
      ("predicate", OptValue(v.filterPredicate)),
      ("iterator_class_fqn", if v.iteratorClassFqn.Some? then PStr(v.iteratorClassFqn.value) else PNone),
      ("iterator_args", OptValue(v.iteratorArgs))])
  }

  function ColumnHistoryMap(history: seq<(int, ColumnHistory)>): (d: PyValue)
    ensures d.PDict? && |d.entries| == |history|
    ensures forall i :: 0 <= i < |history| ==> d.entries[i] == (PInt(history[i].0), ColumnHistoryValue(history[i].1))
  {
    if history == [] then PDict([])
    else
      var last := history[|history| - 1];
      PDict(ColumnHistoryMap(history[..|history| - 1]).entries + [(PInt(last.0), ColumnHistoryValue(last.1))])
  }

  function TableMdValue(md: TableMd): PyValue {
    PObject("TableMd", [
      ("name", PStr(md.name)), ("current_version", PInt(md.currentVersion)),
      ("current_schema_version", PInt(md.currentSchemaVersion)),
      ("next_col_id", PInt(md.nextColId)), ("next_row_id", PInt(md.nextRowId)),
      ("column_history", ColumnHistoryMap(md.columnHistory)),
      ("view_md", if md.viewMd.Some? then ViewMdValue(md.viewMd.value) else PNone)])
  }

  function SchemaColumnValue(c: SchemaColumn): PyValue {
    PObject("SchemaColumn", [
      ("pos", PInt(c.pos)), ("name", PStr(c.name)), ("col_type", c.colType), ("is_pk", PBool(c.isPk)),
      ("value_expr", OptValue(c.valueExpr)),
      ("stored", if c.stored.Some? then PBool(c.stored.value) else PNone),
      ("is_indexed", PBool(c.isIndexed))])
  }

  function ColumnsMap(columns: seq<(int, SchemaColumn)>): (d: PyValue)
    ensures d.PDict? && |d.entries| == |columns|
    ensures forall i :: 0 <= i < |columns| ==> d.entries[i] == (PInt(columns[i].0), SchemaColumnValue(columns[i].1))
  {
    if columns == [] then PDict([])
    else
      var last := columns[|columns| - 1];
      PDict(ColumnsMap(columns[..|columns| - 1]).entries + [(PInt(last.0), SchemaColumnValue(last.1))])
  }

  function TableSchemaVersionMdValue(md: TableSchemaVersionMd): PyValue {
    PObject("TableSchemaVersionMd", [
      ("schema_version", PInt(md.schemaVersion)),
      ("preceding_schema_version", OptIntValue(md.precedingSchemaVersion)),
      ("columns", ColumnsMap(md.columns)),
      ("num_retained_versions", PInt(md.numRetainedVersions)),
      ("comment", PStr(md.comment))])
  }

  /** Column ids used as dict keys appear once each. */
  predicate DistinctIds<T>(entries: seq<(int, T)>) {
    forall i, j :: 0 <= i < j < |entries| ==> entries[i].0 != entries[j].0
  }

  /** A `Dict[str, Any]` as JSON holds it. */
  predicate IsJsonObject(v: PyValue) {
    v.PDict? && DistinctKeys(v.entries) && IsJson(v)
  }

  /**
   * The invariant of a view: a view that is not a snapshot follows its bases' latest
   * versions, so every base version is None. The predicate and the iterator arguments are
   * JSON objects.
   */
  predicate ViewMdValid(v: ViewMd) {
    && (!v.isSnapshot ==> forall i :: 0 <= i < |v.baseVersions| ==> v.baseVersions[i].1.None?)
    && (v.filterPredicate.Some? ==> IsJsonObject(v.filterPredicate.value))
    && (v.iteratorArgs.Some? ==> IsJsonObject(v.iteratorArgs.value))
  }

  /**
   * The invariant of a table: versions start at 0 and every version has a schema version
   * no later than itself; the column history is keyed by column id, and every id in it was
   * assigned from `next_col_id`.
   */
  predicate TableMdValid(md: TableMd) {
    && 0 <= md.currentSchemaVersion <= md.currentVersion
    && 0 <= md.nextRowId
    && DistinctIds(md.columnHistory)
    && (forall i :: 0 <= i < |md.columnHistory| ==>
          md.columnHistory[i].0 == md.columnHistory[i].1.colId && 0 <= md.columnHistory[i].0 < md.nextColId)
    && (md.viewMd.Some? ==> ViewMdValid(md.viewMd.value))
  }

  /** The stored dicts of a column are JSON. */
  predicate SchemaColumnValid(c: SchemaColumn) {
    IsJson(c.colType) && c.colType.PDict? && (c.valueExpr.Some? ==> IsJson(c.valueExpr.value) && c.valueExpr.value.PDict?)
  }

  /** A schema version keys its columns by distinct column ids. */
  predicate TableSchemaVersionMdValid(md: TableSchemaVersionMd) {
    && DistinctIds(md.columns)
    && (forall i :: 0 <= i < |md.columns| ==> SchemaColumnValid(md.columns[i].1))
  }

  lemma ColumnHistoryWellTyped(h: ColumnHistory)
    ensures WellTyped(ColumnHistoryValue(h), ColumnHistoryType)
  {
  }

  /** The base versions of a view are (table id, optional version) pairs. */
  lemma BaseVersionsWellTyped(bases: seq<(string, Option<int>)>)
    ensures WellTyped(BaseVersionsValue(bases), ListOf(TupleOf([StrT, Optional(IntT)])))
  {
    var value := BaseVersionsValue(bases);
    forall i | 0 <= i < |value.items|
      ensures WellTyped(value.items[i], TupleOf([StrT, Optional(IntT)]))
    {
    }
  }

  /** A JSON object present or absent fits `Optional[Dict[str, Any]]`. */
  lemma OptJsonObjectWellTyped(o: Option<PyValue>)
    requires o.Some? ==> IsJsonObject(o.value)
    ensures WellTyped(OptValue(o), Optional(JsonObjectT))
  {
  }

  lemma ViewMdWellTyped(v: ViewMd)
    requires ViewMdValid(v)
    ensures WellTyped(ViewMdValue(v), ViewMdType)
  {
    BaseVersionsWellTyped(v.baseVersions);
    OptJsonObjectWellTyped(v.filterPredicate);
    OptJsonObjectWellTyped(v.iteratorArgs);
  }

  lemma TableMdWellTyped(md: TableMd)
    requires TableMdValid(md)
    ensures WellTyped(TableMdValue(md), TableMdType)
  {
    var history := ColumnHistoryMap(md.columnHistory);
    forall i | 0 <= i < |history.entries|
      ensures KeyConverted(IntKey, history.entries[i].0) && WellTyped(history.entries[i].1, ColumnHistoryType)
    {
      ColumnHistoryWellTyped(md.columnHistory[i].1);
    }
    assert DistinctKeys(history.entries);
    assert WellTyped(history, DictOf(IntKey, ColumnHistoryType));
    if md.viewMd.Some? {
      ViewMdWellTyped(md.viewMd.value);
    }
  }

  lemma SchemaColumnWellTyped(c: SchemaColumn)
    requires SchemaColumnValid(c)
    ensures WellTyped(SchemaColumnValue(c), SchemaColumnType)
  {
  }

  lemma TableSchemaVersionMdWellTyped(md: TableSchemaVersionMd)
    requires TableSchemaVersionMdValid(md)
    ensures WellTyped(TableSchemaVersionMdValue(md), TableSchemaVersionMdType)
  {
    var columns := ColumnsMap(md.columns);
    forall i | 0 <= i < |columns.entries|
      ensures KeyConverted(IntKey, columns.entries[i].0) && WellTyped(columns.entries[i].1, SchemaColumnType)
    {
      SchemaColumnWellTyped(md.columns[i].1);
    }
    assert DistinctKeys(columns.entries);
    assert WellTyped(columns, DictOf(IntKey, SchemaColumnType));
  }

  /** An optional annotation is well formed when what it wraps is. */
  lemma OptionalWf(t: TypeDesc)
    requires WfDesc(t)
    ensures WfDesc(Optional(t))
  {
    assert Optional(t).members == [t];
  }

  lemma ViewMdTypeWf()
    ensures WfDesc(ViewMdType)
  {
    OptionalWf(IntT);
    var base := TupleOf([StrT, Optional(IntT)]);
    assert WfDesc(base) by {
      assert base.elems[0] == StrT && base.elems[1] == Optional(IntT);
    }
    OptionalWf(JsonObjectT);
    OptionalWf(StrT);
    var fs := ViewMdType.fields;
    assert fs[0].1 == BoolT && fs[1].1 == ListOf(base) && fs[2].1 == Optional(JsonObjectT);
    assert fs[3].1 == Optional(StrT) && fs[4].1 == Optional(JsonObjectT);
  }

  lemma ColumnHistoryTypeWf()
    ensures WfDesc(ColumnHistoryType)
  {
    OptionalWf(IntT);
    var hs := ColumnHistoryType.fields;
    assert hs[0].1 == IntT && hs[1].1 == IntT && hs[2].1 == Optional(IntT);
  }

  lemma TableMdTypeWf()
    ensures WfDesc(TableMdType)
  {
    ColumnHistoryTypeWf();
    ViewMdTypeWf();
    OptionalWf(ViewMdType);
    var fs := TableMdType.fields;
    assert fs[5].1 == DictOf(IntKey, ColumnHistoryType) && fs[6].1 == Optional(ViewMdType);
  }

  lemma SchemaColumnTypeWf()
    ensures WfDesc(SchemaColumnType)
  {
    OptionalWf(DictT);
    OptionalWf(BoolT);
    var cs := SchemaColumnType.fields;
    assert cs[4].1 == Optional(DictT) && cs[5].1 == Optional(BoolT);
  }

  lemma TableSchemaVersionMdTypeWf()
    ensures WfDesc(TableSchemaVersionMdType)
  {
    OptionalWf(IntT);
    SchemaColumnTypeWf();
    var fs := TableSchemaVersionMdType.fields;
    assert fs[1].1 == Optional(IntT) && fs[2].1 == DictOf(IntKey, SchemaColumnType);
  }

  /** A table record that keeps its invariant reads back as written, column ids again ints. */
  lemma TableMdRoundTrip(md: TableMd)
    requires TableMdValid(md)
    ensures MdFromDict(TableMdType, ToJson(TableMdValue(md))) == Success(TableMdValue(md))
  {
    TableMdWellTyped(md);
    TableMdTypeWf();
    MdFromDictRoundTrip(TableMdType, TableMdValue(md));
  }

  /** A schema-version record reads back as written, column ids again ints. */
  lemma TableSchemaVersionMdRoundTrip(md: TableSchemaVersionMd)
    requires TableSchemaVersionMdValid(md)
    ensures MdFromDict(TableSchemaVersionMdType, ToJson(TableSchemaVersionMdValue(md))) == Success(TableSchemaVersionMdValue(md))
  {
    TableSchemaVersionMdWellTyped(md);
    TableSchemaVersionMdTypeWf();
    MdFromDictRoundTrip(TableSchemaVersionMdType, TableSchemaVersionMdValue(md));
  }
}
