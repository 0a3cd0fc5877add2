/**
 * The base class of every function: naming derived from the fully qualified path it was
 * registered under (`self_path`), equality, and the serialized reference `as_dict` writes
 * and `from_dict` reads back.
 */
module Functions {
  import opened Wrappers
  import opened PyValues
  import opened Signatures
  import Strings

  /** A Python class, named by its module and qualified name. */
  datatype ClassRef = ClassRef(moduleName: string, qualname: string)

  /**
   * A `Function` instance: its own class, the classes that class derives from, its
   * signature and `self_path` (None for an anonymous function).
   */
  datatype Function = Function(cls: ClassRef, bases: seq<ClassRef>, signature: Signature, selfPath: Option<string>)

  /** `isinstance(f, c)` */
  predicate IsInstance(f: Function, c: ClassRef) {
    f.cls == c || c in f.bases
  }

  /** `name`: the last dot-separated segment of the path; only asked of a function that has one. */
  function Name(f: Function): (n: string)
    requires f.selfPath.Some?
    ensures '.' !in n
    ensures |n| <= |f.selfPath.value| && f.selfPath.value == f.selfPath.value[..|f.selfPath.value| - |n|] + n
    ensures |n| < |f.selfPath.value| ==> f.selfPath.value[|f.selfPath.value| - |n| - 1] == '.'
  {
    Strings.LastSegment(f.selfPath.value, '.')
  }

  const LibraryPrefix: string := "pixeltable.functions."

  /** `display_name`: anonymous functions have a placeholder; library functions drop the package prefix. */
  function DisplayName(f: Function): (d: string)
    ensures f.selfPath.None? ==> d == "<anonymous>"
    ensures f.selfPath.Some? && Strings.StartsWith(f.selfPath.value, LibraryPrefix) ==> f.selfPath.value == LibraryPrefix + d
    ensures f.selfPath.Some? && !Strings.StartsWith(f.selfPath.value, LibraryPrefix) ==> d == f.selfPath.value
  {
    if f.selfPath.None? then "<anonymous>"
    else if Strings.StartsWith(f.selfPath.value, LibraryPrefix) then f.selfPath.value[|LibraryPrefix|..]
    else f.selfPath.value
  }

  lemma LastSegmentAfterDot(p: string, d: string)
    requires |p| > 0 && p[|p| - 1] == '.'
    ensures Strings.LastSegment(p + d, '.') == Strings.LastSegment(d, '.')
  {
    var s := p + d;
    if '.' in d {
      var k := Strings.LastIndexOf(d, '.').value;
      assert s[|p| + k] == '.';
      assert s[|p| + k + 1..] == d[k + 1..];
      Strings.LastIndexOfUnique(s, '.', |p| + k);
    } else {
      assert s[|p| - 1] == '.';
      assert s[|p|..] == d;
      Strings.LastIndexOfUnique(s, '.', |p| - 1);
    }
  }

  /** The display name ends in the same name: stripping the package prefix never cuts into the last segment. */
  lemma NameOfDisplayName(f: Function)
    requires f.selfPath.Some?
    ensures Strings.LastSegment(DisplayName(f), '.') == Name(f)
  {
    var path := f.selfPath.value;
    if Strings.StartsWith(path, LibraryPrefix) {
      LastSegmentAfterDot(LibraryPrefix, DisplayName(f));
    }
  }

  /** `help_str`: the display name followed by the signature. */
  function HelpStr(f: Function): string {
    DisplayName(f) + f.signature.text
  }

  /**
   * The help text names the function as users call it: an anonymous function as
   * '<anonymous>', a library function without the package prefix, and any function with a
   * path by a text that ends in its name; the signature follows.
   */
  lemma HelpStrNamesFunction(f: Function)
    ensures |f.signature.text| <= |HelpStr(f)|
    ensures HelpStr(f)[|HelpStr(f)| - |f.signature.text|..] == f.signature.text
    ensures f.selfPath.None? ==> HelpStr(f) == "<anonymous>" + f.signature.text
    ensures forall p :: f.selfPath == Some(LibraryPrefix + p) ==> HelpStr(f) == p + f.signature.text
    ensures f.selfPath.Some? && !Strings.StartsWith(f.selfPath.value, LibraryPrefix) ==>
      HelpStr(f) == f.selfPath.value + f.signature.text
    ensures f.selfPath.Some? ==>
      Strings.LastSegment(HelpStr(f)[..|HelpStr(f)| - |f.signature.text|], '.') == Name(f)
  {
    var h := HelpStr(f);
    assert h[..|h| - |f.signature.text|] == DisplayName(f);
    assert h[|h| - |f.signature.text|..] == f.signature.text;
    forall p | f.selfPath == Some(LibraryPrefix + p) ensures h == p + f.signature.text {
      assert Strings.StartsWith(f.selfPath.value, LibraryPrefix) by {
        assert f.selfPath.value[..|LibraryPrefix|] == LibraryPrefix;
      }
      assert f.selfPath.value[|LibraryPrefix|..] == p;
    }
    if f.selfPath.Some? {
      NameOfDisplayName(f);
    }
  }

  /**
   * `__eq__`: `other` must be an instance of this function's class and carry the same path.
   * Two anonymous functions of one class are therefore equal.
   */
  function Equals(self: Function, other: Function): bool {
    IsInstance(other, self.cls) && self.selfPath == other.selfPath
  }

  lemma EqualsSameClass(a: Function, b: Function)
    requires a.cls == b.cls
    ensures Equals(a, b) <==> a.selfPath == b.selfPath
    ensures Equals(a, b) <==> Equals(b, a)
  {
  }

  /** Equality need not be symmetric: an instance of a subclass equals its base-class twin only one way round. */
  lemma EqualsAsymmetric(base: ClassRef, sub: ClassRef, sig: Signature, path: Option<string>)
    requires base != sub
    ensures var a := Function(base, [], sig, path);
            var b := Function(sub, [base], sig, path);
            Equals(a, b) && !Equals(b, a)
  {
  }

  /** `f"{module}.{qualname}"` of the function's class */
  function ClassPath(f: Function): string {
    f.cls.moduleName + "." + f.cls.qualname
  }

  /** `{**base, **extra}`: later keys override earlier ones in place, new keys go at the end. */
  function Merge(base: seq<(PyValue, PyValue)>, extra: seq<(PyValue, PyValue)>): (r: seq<(PyValue, PyValue)>)
    ensures DistinctKeys(base) ==> DistinctKeys(r)
    decreases |extra|
  {
    if extra == [] then base
    else Merge(DictSet(base, extra[0].0, extra[0].1), extra[1..])
  }

  /** The default `_as_dict`: the path to the function itself, which must exist. */
  function DefaultAsDictEntries(f: Function): seq<(PyValue, PyValue)>
    requires f.selfPath.Some?
  {
    [(PStr("path"), PStr(f.selfPath.value))]
  }

  /** `as_dict` of a function that keeps the default `_as_dict`. */
  function AsDict(f: Function): (d: PyValue)
    requires f.selfPath.Some?
    ensures d == PDict([(PStr("_classpath"), PStr(ClassPath(f))), (PStr("path"), PStr(f.selfPath.value))])
    ensures DistinctKeys(d.entries)
    ensures DictGet(d.entries, PStr("_classpath")) == Some(PStr(ClassPath(f)))
    ensures DictGet(d.entries, PStr("path")) == Some(PStr(f.selfPath.value))
  {
    var base := [(PStr("_classpath"), PStr(ClassPath(f)))];
    assert Keys(base) == [PStr("_classpath")];
    var extra := DefaultAsDictEntries(f);
    var d := PDict(Merge(base, extra));
    assert d.entries == base + extra by {
      assert extra[1..] == [];
      assert PStr("path") !in Keys(base);
      assert DictSet(base, extra[0].0, extra[0].1) == base + extra;
      assert Merge(base, extra) == Merge(base + extra, extra[1..]);
      assert Merge(base + extra, []) == base + extra;
    }
    d
  }

  datatype FromDictError =
    | NotADict
    /** the `assert '_classpath' in d` */
    | MissingClasspath
    /** `rsplit` on something that is not a string */
    | ClasspathNotString
    /** a class path without a '.', which cannot be unpacked into module and class */
    | ClasspathWithoutModule
    /** the `assert 'path' in d and d['path'] is not None` of the default `_from_dict` */
    | MissingPath
    | PathNotString

  /** What `from_dict` resolves: the module to import, the class in it, and the symbol its `_from_dict` loads. */
  datatype FunctionReference = FunctionReference(modulePath: string, className: string, symbolPath: string)

  /**
   * `from_dict` followed by the default `_from_dict`, up to the imports and the symbol lookup
   * they perform.
   */
  function FromDict(d: PyValue): (r: Result<FunctionReference, FromDictError>)
    ensures r.Success? ==> '.' !in r.value.className
    ensures r.Success? ==>
      && d.PDict?
      && DictGet(d.entries, PStr("_classpath")) == Some(PStr(r.value.modulePath + "." + r.value.className))
      && DictGet(d.entries, PStr("path")) == Some(PStr(r.value.symbolPath))
    ensures d.PDict? && DictGet(d.entries, PStr("_classpath")).None? ==> r == Failure(MissingClasspath)
  {
    if !d.PDict? then Failure(NotADict)
    else
      var cp := DictGet(d.entries, PStr("_classpath"));
      if cp.None? then Failure(MissingClasspath)
      else if !cp.value.PStr? then Failure(ClasspathNotString)
      else
        match Strings.RSplitOnce(cp.value.s, '.')
        case None => Failure(ClasspathWithoutModule)
        case Some((modulePath, className)) =>
          var path := DictGet(d.entries, PStr("path"));
          if path.None? || path.value.PNone? then Failure(MissingPath)
          else if !path.value.PStr? then Failure(PathNotString)
          else Success(FunctionReference(modulePath, className, path.value.s))
  }

  /** The reference `as_dict` writes is already what JSON reads back. */
  lemma ReferenceIsJson(classPath: string, path: string)
    ensures IsJson(PDict([(PStr("_classpath"), PStr(classPath)), (PStr("path"), PStr(path))]))
  {
    var d := PDict([(PStr("_classpath"), PStr(classPath)), (PStr("path"), PStr(path))]);
    forall i | 0 <= i < |d.entries|
      ensures d.entries[i].0.PStr? && IsJson(d.entries[i].1)
    {
    }
  }

  /**
   * A reference written by `as_dict` and read back, also after a trip through JSON, names the
   * function's own module, class and path, provided the class is not nested in another.
   */
  lemma FromDictAsDict(f: Function)
    requires f.selfPath.Some? && '.' !in f.cls.qualname
    ensures FromDict(AsDict(f)) == Success(FunctionReference(f.cls.moduleName, f.cls.qualname, f.selfPath.value))
    ensures FromDict(ToJson(AsDict(f))) == FromDict(AsDict(f))
  {
    Strings.RSplitOnceJoin(f.cls.moduleName, '.', f.cls.qualname);
    assert ClassPath(f) == f.cls.moduleName + ['.'] + f.cls.qualname;
    ReferenceIsJson(ClassPath(f), f.selfPath.value);
    ToJsonOfJson(AsDict(f));
  }

  datatype StoreError = NotImplementedError

  /** `to_store` of the base class: storing is left to the subclasses that support it. */
  function ToStore(f: Function): (r: Result<(PyValue, seq<bv8>), StoreError>)
    ensures r == Failure(NotImplementedError)
  {
    Failure(NotImplementedError)
  }

  /** `from_store` of the base class */
  function FromStore(name: Option<string>, md: PyValue, binaryObj: seq<bv8>): (r: Result<Function, StoreError>)
    ensures r == Failure(NotImplementedError)
  {
    Failure(NotImplementedError)
  }
}
