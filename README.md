# A verified model of Pixeltable's type system, UDF machinery and metadata decoding

Pixeltable is a table store for multimodal data. Every column has a `ColumnType`: string, int, float, bool, timestamp, image, dict or array.
- An image type may fix a width, a height and a colour mode.
- An array type may fix a shape and an element dtype.

Users extend Pixeltable with user-defined functions (UDFs) through the `@pxt.udf` decorator.
- `make_function` checks the options of a definition and builds a `CallableFunction`.
- A function defined in a module is registered under its dotted path.

Table metadata is stored as JSON and read back into nested dataclasses by `md_from_dict`. The JSON function library ships the `make_list` aggregate.

This project models that core in Dafny:

- `type_system.dfy` (module `TypeSystem`):
  - the type tags and dtypes;
  - `make_type`, equality and the `is_*_type` queries;
  - the SQL type names;
  - the JSON form of a type (`serialize`);
  - the conversion functions between column types.
- `functions.dfy` (module `Functions`): the base `Function` class. This covers its name, display name, help text, equality, and the `as_dict`/`from_dict` reference format.
- `udf.dfy` (module `Udf`):
  - `make_function`, step by step;
  - the function registry, a class whose map of registered functions is updated in place;
  - the `udf` decorator, with its keyword popping.
- `metadata.dfy` (module `Metadata`): `md_from_dict` over type descriptors, with a round-trip theorem.
- `metadata_records.dfy` (module `MetadataRecords`): the stored records `ColumnHistory`, `ViewMd`, `TableMd`, `SchemaColumn` and `TableSchemaVersionMd`, and their round trips through JSON.
- `json_aggregates.dfy` (module `JsonAggregates`): the `make_list` aggregator, a class updated in place.
- Support modules:
  - `wrappers.dfy`: Option and Result;
  - `strings.dfy`: identifiers, `rsplit`, `int()`/`str()` on integers;
  - `pyvalues.dfy`: Python values and insertion-ordered dicts, and what a `json.dumps`/`json.loads` round trip does to them;
  - `signatures.dfy`: the parts of a UDF `Signature` that `make_function` inspects.

Python's `assert` statements become preconditions. Raised exceptions become `Failure` results that carry the error kind.

Two behaviours of the code are worth stating up front:

- `md_from_dict` is strict (pixeltable/metadata/schema.py:18-20):
  - an unknown stored key fails the `fieldtypes[f]` lookup;
  - a missing field fails the dataclass constructor.

  `Metadata.DataclassDecodeIsStrict` states this.
- `make_type` builds an image or array type with default attributes (pixeltable/type_system.py:73-78).

## Model

| member | source | states |
|---|---|---|
| TypeSystem.TagOfValue | pixeltable/type_system.py:12-21 | `Type(n)` succeeds exactly for the enum values 0..8, and the tag found has value `n` |
| TypeSystem.DTypeOfIndex | pixeltable/type_system.py:24-39 | the twelve dtypes are numbered 0..11, and the lookup inverts the numbering |
| TypeSystem.FromPilToPil | pixeltable/type_system.py:234-242 | `Mode.from_pil(m.to_pil())` gives back `m` for both modes |
| TypeSystem.FromPil | pixeltable/type_system.py:234-239 | a PIL mode string is accepted only if it is the name of a mode; any other string gives None |
| TypeSystem.NewImageType | pixeltable/type_system.py:247-263 | `size` and `width`/`height` exclude each other; `size` sets both dimensions; the mode is kept |
| TypeSystem.MakeType | pixeltable/type_system.py:57-78 | `make_type(t)` has tag `t`; images have no fixed width, height or mode; arrays have no shape and dtype INT32 |
| TypeSystem.MakeTypeOfTypeEnum | pixeltable/type_system.py:57-78 | `make_type(t.type_enum)` rebuilds every type that carries only default attributes |
| TypeSystem.VarsDetermineType | pixeltable/type_system.py:83-90 | two types with the same tag have the same attribute names, and agreeing on every attribute value means equal |
| TypeSystem.Equals | pixeltable/type_system.py:83-90 | the attribute-by-attribute loop of `__eq__` returns true exactly when the two types are equal |
| TypeSystem.IsScalarType | pixeltable/type_system.py:41 | scalar means string, int, float, bool or timestamp, and a scalar type has no attribute but its tag |
| TypeSystem.IsOfTypeMatchesVariant | pixeltable/type_system.py:95-120 | each `is_*_type` query holds exactly for its own kind of type |
| TypeSystem.ToSql | pixeltable/type_system.py:122-144 | every valid type maps to one of the five SQL type names |
| TypeSystem.ToSqlPreimages | pixeltable/type_system.py:126-143 | VARCHAR stores strings, images and dicts; INTEGER stores ints and timestamps; FLOAT, BOOLEAN and BLOB store float, bool and array |
| TypeSystem.SerializeAsWritten | pixeltable/type_system.py:50-51 | serialization as written: it fails exactly for an image without a mode, and otherwise starts with the type tag |
| TypeSystem.SerializeDefaultImageFails | pixeltable/type_system.py:269-272 | the image type that `make_type(IMAGE)` builds cannot be serialized as written |
| TypeSystem.SerializeArrayLosesShape | pixeltable/type_system.py:300-308 | two different array types serialize to the same dict as written |
| TypeSystem.Serialize | pixeltable/type_system.py:269-272 | the serialized dict always starts with the type tag |
| TypeSystem.SerializeAgreesWithAsWritten | pixeltable/type_system.py:269-272 | wherever the as-written serialization succeeds (arrays aside), the corrected one produces the same dict |
| TypeSystem.StoredModeRead | pixeltable/type_system.py:229-232 | each mode's enum value, `(0,)` for L and `1` for RGB, reads back as that mode after JSON has turned the tuple into a list, and None reads back as None |
| TypeSystem.ImageRoundTrip | pixeltable/type_system.py:269-272 | the image fields read back from JSON are the width, height and mode written |
| TypeSystem.ArrayRoundTrip | pixeltable/type_system.py:304-308 | the shape and dtype read back from JSON are the ones written |
| TypeSystem.ImageSerializeRoundTrip | pixeltable/type_system.py:269-272 | reading back the JSON form of an image type gives that image type |
| TypeSystem.ArraySerializeRoundTrip | pixeltable/type_system.py:304-308 | reading back the JSON form of an array type gives that array type |
| TypeSystem.DeserializePlain | pixeltable/type_system.py:57-78 | a stored dict whose tag names a type without attributes reads back as that type |
| TypeSystem.SerializeRoundTrip | pixeltable/type_system.py:50-51 | every column type, including InvalidType, survives serialize, `json.dumps`/`json.loads` and reading back |
| TypeSystem.StringConversion | pixeltable/type_system.py:196-205 | a string column converts only to a timestamp, by ISO-timestamp parsing; for any other target there is no conversion |
| TypeSystem.ImageConversionAsWritten | pixeltable/type_system.py:274-291 | the converter as written: not convertible iff the target is not an image or fixes only one dimension; nothing to do iff every field the target fixes already matches; otherwise it resizes iff a dimension differs and recolours iff the mode differs |
| TypeSystem.ImageConversionResizesToNone | pixeltable/type_system.py:286-288 | a target that leaves the size open but changes the mode makes the converter resize to `(None, None)` |
| TypeSystem.ImageConversionRecoloursToNone | pixeltable/type_system.py:289-290 | a target that leaves the mode open but changes the size makes the converter convert to mode None |
| TypeSystem.ImageConversion | pixeltable/type_system.py:274-291 | the corrected converter takes the same conversion decision, but resizes only to a fixed target size and recolours only to a fixed target mode |
| TypeSystem.ImageConversionAgreesWhenTargetFixed | pixeltable/type_system.py:281-291 | when the target fixes width, height and mode, the corrected and as-written converters are the same |
| TypeSystem.ConversionFnAsWritten | pixeltable/type_system.py:179-185 | the dispatch as written: only string and image columns can convert, images through the as-written converter; every other type returns None |
| TypeSystem.ConversionFnDecisionAsWritten | pixeltable/type_system.py:179-185 | the corrected dispatch takes the same decision as the written one; the two differ only in the converter for an image target that leaves a field open |
| TypeSystem.ConversionFn | pixeltable/type_system.py:179-185 | the corrected dispatch, used by the rest of the model: only string and image columns can convert, images through the corrected converter; every other type returns None |
| TypeSystem.ConversionPreservesConformance | pixeltable/type_system.py:274-291 | a value of the source type needs no conversion or is converted without error into a value of the target type (a string may fail to parse and give None) |
| TypeSystem.ImageConversionExamples | pixeltable/type_system.py:281-291 | a 100x100 RGB column converts to a 50x50 L column by resizing and recolouring, and to itself with no conversion |
| Functions.Name | pixeltable/func/function.py:26-29 | the name is the part of the path after its last dot; it holds no dot and ends the path |
| Functions.DisplayName | pixeltable/func/function.py:31-38 | `<anonymous>` without a path; the library prefix is removed; any other path is shown whole |
| Functions.NameOfDisplayName | pixeltable/func/function.py:26-38 | the last dotted segment of the display name is the function's name |
| Functions.HelpStrNamesFunction | pixeltable/func/function.py:40-41 | the help text ends in the signature text and starts with the display name: `<anonymous>` for no path, the path without the `pixeltable.functions.` prefix for a library function, the path itself otherwise; with a path, the part before the signature ends in the function's name |
| Functions.EqualsSameClass | pixeltable/func/function.py:53-56 | two functions of the same class are equal iff their paths are equal, and then equality is symmetric |
| Functions.EqualsAsymmetric | pixeltable/func/function.py:53-56 | because `__eq__` tests `isinstance`, a base-class function equals a subclass function with the same path but not the other way round |
| Functions.AsDict | pixeltable/func/function.py:62-74 | the reference holds exactly `_classpath` and `path`, with no key repeated |
| Functions.FromDict | pixeltable/func/function.py:76-93 | decoding a reference splits `_classpath` at its last dot and reads `path`; a missing `_classpath` fails |
| Functions.ReferenceIsJson | pixeltable/func/function.py:62-74 | the reference can be passed to `json.dumps` as it is |
| Functions.FromDictAsDict | pixeltable/func/function.py:62-93 | decoding the reference of a function gives back its module, class name and path, also after a JSON round trip |
| Udf.FunctionPath | pixeltable/func/udf.py:99-106 | there is a path exactly when storing is not forced, the module is not `__main__` and the name is an identifier; the path is module dot qualname |
| Udf.NameOfModuleFunction | pixeltable/func/udf.py:103-110 | a top-level module function gets its Python name as its function name |
| Udf.ExprUdfPath | pixeltable/func/udf.py:187-192 | `expr_udf` derives the path by the same rule as `make_function` without forced storing |
| Udf.SymbolPathExtend | pixeltable/func/udf.py:175 | a valid symbol path extended by an identifier is a valid symbol path |
| Udf.SymbolPathSplit | pixeltable/func/udf.py:175 | a valid symbol path ends in an identifier after a valid symbol path |
| Udf.ModuleFunctionPathIsValid | pixeltable/func/udf.py:103-104 | a top-level function of a module with a valid module path passes the final path validation |
| Udf.LocalFunctionPathIsInvalid | pixeltable/func/udf.py:103-104 | a function defined inside another function has a `<locals>` path, which never passes the path validation |
| Udf.DefineSignatures | pixeltable/func/udf.py:115-151 | without type substitutions: one signature, accepted iff the batching, method and property checks hold. With them: one signature per substitution, accepted iff there is a path, no batch size and no method or property flag. Each of the nine checks, once the earlier ones pass, fails with its own error kind and the name the source's message uses |
| Udf.ExecutingFunction | pixeltable/func/udf.py:153-158 | the substitute function runs instead of the decorated one, and is accepted only for a function with a path |
| Udf.Define | pixeltable/func/udf.py:99-176 | `make_function` succeeds exactly for admissible definitions. The result carries the path, the name, the options, one Python function per signature (the substitute when given) and the signatures built from the substitutions. A failing signature check is the error; after them a substitute without a path fails, and the path validation comes last |
| Udf.DefaultsRejectSubstitutions | pixeltable/func/udf.py:86-87 | called with its own defaults, `make_function` rejects any type substitutions, because the flags default to False rather than None |
| Udf.StoredFunctionsAreNotMethods | pixeltable/func/udf.py:134-157 | a successful definition without a path is neither a method nor a property, and uses neither substitutions nor a substitute function |
| Udf.FunctionRegistry.constructor | pixeltable/func/udf.py:176 | a new registry holds no functions |
| Udf.FunctionRegistry.RegisterFunction | pixeltable/func/udf.py:176 | registering binds the path to the function and leaves every other path unchanged |
| Udf.MakeFunction | pixeltable/func/udf.py:172-176 | returns the definition's outcome; the registry gains exactly the new function under its path when it has one, so a lookup of that path finds it, and every other lookup (all of them after a failed definition) is unchanged |
| Udf.AfterDefinitionRegisters | pixeltable/func/udf.py:172-176 | a failed definition leaves the registry alone; a successful one with a path is registered under it; other paths keep their functions |
| Udf.Pop | pixeltable/func/udf.py:53-59 | `kwargs.pop(key, default)` returns the value or the default and removes only that key |
| Udf.DecoratorOptions | pixeltable/func/udf.py:53-59 | an omitted decorator keyword leaves its option None, which differs from the False default of `make_function` |
| Udf.PopDecoratorKwargs | pixeltable/func/udf.py:53-60 | the seven pops read the decorator options and leave exactly the keywords that are not decorator options |
| Udf.Udf | pixeltable/func/udf.py:35-77 | the bare decorator defines the function with the defaults and registers it. Otherwise unknown keywords, then positional arguments, are rejected, and the registry is untouched until the returned decorator is applied |
| Udf.ApplyDecorator | pixeltable/func/udf.py:65-75 | the returned decorator runs `make_function` with the popped options and registers the result |
| Udf.DecoratorAcceptsSubstitutions | pixeltable/func/udf.py:55-58 | through the decorator, a module function with type substitutions is accepted |
| Metadata.FieldIndex | pixeltable/metadata/schema.py:19-20 | the field looked up is declared at the index found, and is absent when nothing is found |
| Metadata.ConvertKey | pixeltable/metadata/schema.py:29-32 | `key_type(key)` converts a string key to an int exactly when it parses as one |
| Metadata.Assemble | pixeltable/metadata/schema.py:20 | the constructor receives every declared field, in declaration order, with the value given for it |
| Metadata.DecodeListSucceeds | pixeltable/metadata/schema.py:27-28 | a list decodes iff every element decodes |
| Metadata.DecodeListElem | pixeltable/metadata/schema.py:27-28 | the element at any position of a decoded list is the item at that position decoded with the element type |
| Metadata.DecodeListElems | pixeltable/metadata/schema.py:27-28 | each decoded element is the decoding of the element at the same position |
| Metadata.DecodeTuple | pixeltable/metadata/schema.py:33-34 | `zip` stops at the shorter of the declared element types and the data |
| Metadata.DecodeTupleSucceeds | pixeltable/metadata/schema.py:33-34 | a tuple decodes iff each element within the zip decodes |
| Metadata.DecodeTupleElem | pixeltable/metadata/schema.py:33-34 | the element at any position of a decoded tuple is the item at that position decoded with that position's type |
| Metadata.DecodeTupleElems | pixeltable/metadata/schema.py:33-34 | each decoded tuple element is the decoding of the zipped element |
| Metadata.DecodeDict | pixeltable/metadata/schema.py:29-32 | a decoded dict never repeats a key |
| Metadata.DecodeEntriesSetsPairs | pixeltable/metadata/schema.py:29-32 | a dict comprehension that succeeds has converted every key and decoded every value, and its dict is those pairs stored one after another with `d[k] = v` |
| Metadata.DictDecodes | pixeltable/metadata/schema.py:29-32 | a decoded `Dict[K, V]` never repeats a key, every key has the type K, and its keys are exactly the data keys converted by K |
| Metadata.DictDecodesEntry | pixeltable/metadata/schema.py:29-32 | each data entry's key converts by K and its value decodes as V; the converted key is in the result and, unless a later entry converts to the same key, maps to that entry's decoded value |
| Metadata.MdFromDictRoundTrip | pixeltable/metadata/schema.py:16-36 | for a well-formed type description, `md_from_dict` inverts `json.loads(json.dumps(asdict(v)))` for every well-typed value |
| Metadata.DataclassRoundTrip | pixeltable/metadata/schema.py:18-20 | a dataclass instance written to JSON reads back as the same instance |
| Metadata.ListRoundTrip | pixeltable/metadata/schema.py:27-28 | a list written to JSON reads back as the same list |
| Metadata.DictRoundTrip | pixeltable/metadata/schema.py:29-32 | a dict written to JSON, its int keys turned to strings, reads back as the same dict |
| Metadata.TupleRoundTrip | pixeltable/metadata/schema.py:33-34 | a tuple written to JSON as a list reads back as the same tuple |
| Metadata.AssembleRoundTrip | pixeltable/metadata/schema.py:20 | given the written fields as keywords, the constructor rebuilds the instance's fields |
| Metadata.DecodeFieldsRoundTrip | pixeltable/metadata/schema.py:19-20 | the keyword dict built from a written instance holds each field decoded, in order |
| Metadata.DecodeDictRoundTrip | pixeltable/metadata/schema.py:29-32 | decoding the entries of a written dict gives its entries back |
| Metadata.ConvertKeyOfJsonKey | pixeltable/metadata/schema.py:30-32 | converting a key that `json.dumps` wrote back to the declared key type gives the original key |
| Metadata.OptionalDecodes | pixeltable/metadata/schema.py:22-26 | `Optional[T]` reads None as None and anything else as `T` |
| Metadata.DecodeFieldsRejectsUnknown | pixeltable/metadata/schema.py:19-20 | a stored key that is not a declared field makes decoding fail |
| Metadata.DecodeFieldsAbsentKey | pixeltable/metadata/schema.py:20 | the keyword dict holds no key that the stored dict lacks |
| Metadata.DataclassDecodeIsStrict | pixeltable/metadata/schema.py:18-20 | a dataclass decodes only from a dict whose keys are all declared fields and which holds every declared field |
| MetadataRecords.ColumnHistoryWellTyped | pixeltable/metadata/schema.py:73-83 | a column history record has the declared field types |
| MetadataRecords.ViewMdWellTyped | pixeltable/metadata/schema.py:86-100 | a valid view record has the declared field types |
| MetadataRecords.TableMdWellTyped | pixeltable/metadata/schema.py:103-121 | a valid table record has the declared field types |
| MetadataRecords.SchemaColumnWellTyped | pixeltable/metadata/schema.py:155-168 | a schema column record has the declared field types |
| MetadataRecords.TableSchemaVersionMdWellTyped | pixeltable/metadata/schema.py:171-177 | a valid schema version record has the declared field types |
| MetadataRecords.TableMdRoundTrip | pixeltable/metadata/schema.py:103-121 | a valid `TableMd`, its history and view records included, survives storing as JSON and `md_from_dict` |
| MetadataRecords.TableSchemaVersionMdRoundTrip | pixeltable/metadata/schema.py:171-177 | a valid `TableSchemaVersionMd`, its columns included, survives storing as JSON and `md_from_dict` |
| JsonAggregates.MakeList.constructor | pixeltable/functions/json.py:24-25 | a new aggregator has collected nothing |
| JsonAggregates.MakeList.Update | pixeltable/functions/json.py:27-30 | a None input is skipped, any other input is appended, and the list stays the non-None inputs in arrival order |
| JsonAggregates.MakeList.Value | pixeltable/functions/json.py:32-33 | the result is the non-None inputs in arrival order and holds no None |
| JsonAggregates.NonNoneCounts | pixeltable/functions/json.py:27-30 | each non-None value appears in the result as often as it was input, and None never appears |
| JsonAggregates.NonNoneAppend | pixeltable/functions/json.py:27-30 | collecting two runs of inputs one after the other gives the two results concatenated |
| JsonAggregates.NonNoneIdempotent | pixeltable/functions/json.py:27-30 | feeding a collected list back through the aggregator changes nothing |
| Strings.ParseIntToString | pixeltable/metadata/schema.py:32 | `int(str(n))` is `n`, so int dict keys written as strings come back as the same int |
| Strings.LastSegment | pixeltable/func/function.py:29 | `split('.')[-1]` is the part of the string after its last dot, or the whole string |
| Strings.RSplitOnce | pixeltable/func/function.py:82 | `rsplit('.', 1)` fails without a dot; otherwise it splits at the last dot |
| PyValues.DictSet | pixeltable/metadata/schema.py:32 | a dict comprehension that sets an existing key keeps its position, and a new key goes at the end |
| PyValues.SetAllPair | pixeltable/metadata/schema.py:32 | after a comprehension stores its pairs, every key it stored is present and holds the value of the last pair with that key |
| PyValues.SetAllKeys | pixeltable/metadata/schema.py:32 | a comprehension adds no key that none of its pairs has |
| PyValues.SetAllKeeps | pixeltable/metadata/schema.py:32 | a key that no pair sets keeps what it looked up before |
| PyValues.ToJsonOfJson | pixeltable/metadata/schema.py:35-36 | a value that is already JSON, such as a `Dict[str, Any]` field, is unchanged by a JSON round trip, so returning the data as it is gives it back |

## Left out

- `ColumnType.__str__`, `ImageType.num_channels`, `Mode.num_channels` and `to_sa_type`: these produce display strings, a channel count and SQLAlchemy classes. None of them is used by the other modelled operations.
- `type_system.Function` (pixeltable/type_system.py:311-319): it only stores its constructor arguments and builds an expression node. Expressions are not part of this model.
- `ColumnType.no_conversion` is the `NoConversion` value of `Conversion`. The `assert False` inside it is not modelled, since nothing calls it.
- Images are modelled as width, height and mode.
  - PIL's `resize` and `convert` become the changes to those three fields.
  - `datetime.fromisoformat` is a function parameter.
- Floats are exact reals. Float columns and JSON floats carry no rounding.
- `str.isidentifier` accepts ASCII letters, digits and `_` only, so Unicode identifiers are not modelled.
- `Signature.create` and the Python signature are a parameter, `create`. Inspecting a Python function and its failures are not modelled, since `signature.py` is not part of this model.
- Calling a function, `validate_call` and `source` are not modelled, since they need the expression layer.
- `validate_symbol_path` is modelled as the rule that a path is dot-separated identifiers. `globals.py` is not part of this model.
- `resolve_symbol` and the `importlib` lookup in `from_dict` are not modelled. Decoding stops at the module path, class name and symbol path that would be resolved.
- `Function.to_store` and `Function.from_store` of the base class are stubs that raise NotImplementedError (pixeltable/func/function.py:95-110). `Functions.ToStore` and `Functions.FromStore` always fail; the stored forms belong to subclasses that are not part of this model, so there is nothing to relate them to.
- `FunctionRegistry.register_function` is modelled as a map update, which is how the module's function table behaves. Its handling of a path that is already registered and its other bookkeeping are not modelled, since `function_registry.py` is not part of this model.
- The resource pool is kept as the pool name. The thunk `lambda: resource_pool` is not modelled.
- `expr_udf` is modelled only through the path it derives. Building the expression template needs the expression layer.
- The types of the decorator keyword values are taken as given (`WellTypedKwargs`). Python does not check them either, and a wrong type fails later, outside this core.
- `MakeList.Value` returns the collected list as a value. The source returns the aggregator's own list object, so a caller that mutates it would change the aggregator; that aliasing is not modelled.
- `md_from_dict` over a type that is neither a dataclass, `Optional`, `list`, `dict` nor `tuple` returns the data as is. Only the dict key types `int` and `str` are modelled for `key_type(key)`.
- `md_from_dict` iterates only over lists. Iterating over a string or a dict in place of a list is not modelled.
- `int()` on a string key accepts an optional sign and decimal digits only. Surrounding whitespace and `_` separators are not modelled.
- `SystemInfoMd`, `DirMd` and `TableVersionMd` are not modelled as records. They are instances of the general `Metadata.MdFromDictRoundTrip`, and `TableVersionMd.created_at` is a float timestamp.
- `FunctionMd` and the other records later in `schema.py`, the SQLAlchemy table classes and `Table.MAX_VERSION` are not modelled. They describe storage layout, not decoding.

## Findings

| source | as written | input that shows it | evidently intended | confidence | as-written member | corrected member |
|---|---|---|---|---|---|---|
| pixeltable/type_system.py:269-272 | `ImageType.serialize` reads `self.mode.value` even when the mode is None | `ColumnType.make_type(IMAGE).serialize()`, i.e. `ImageType()` with no mode: AttributeError on None | store None for an open mode, and read it back | not executed | TypeSystem.SerializeDefaultImageFails | TypeSystem.SerializeRoundTrip |
| pixeltable/type_system.py:300-308 | `ArrayType` does not override `serialize`, so only the type tag is stored | `ArrayType((2, 3), FLOAT32)` and `ArrayType()` serialize to the same `{'type': 8}` | store shape and dtype, as `ImageType` stores its fields | not executed | TypeSystem.SerializeArrayLosesShape | TypeSystem.ArraySerializeRoundTrip |
| pixeltable/type_system.py:286-290 | the converter resizes when a dimension differs from the target and recolours when the mode differs, even where the target leaves that field open | an RGB 100x100 image column converted to `ImageType(mode=L)` calls `img.resize((None, None))`; converted to `ImageType(size=(50, 50))` it calls `target.mode.to_pil()` on None | change only the fields the target fixes, as the nothing-to-do test already assumes; `TypeSystem.ConversionFn` dispatches to this corrected converter | not executed | TypeSystem.ImageConversionResizesToNone | TypeSystem.ConversionPreservesConformance |
