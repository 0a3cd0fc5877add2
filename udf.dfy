/**
 * Defining a user-defined function: the symbol path derived from the decorated callable,
 * the ordered cascade of definition checks `make_function` performs, the signatures and
 * executing callables of the result, registration under the path, and the keyword handling
 * of the `@udf` decorator.
 *
 * `Signature.create` (reflection over the callable) is a parameter `create`: given a type
 * substitution, or None, it yields the signature. The `param_types` and `return_type` of a
 * call are fixed for that call and folded into `create`.
 */
module Udf {
  import opened Wrappers
  import opened Signatures
  import opened TypeSystem
  import Strings
  import Functions

  /** A Python callable as `make_function` inspects it. */
  datatype PyCallable = PyCallable(id: nat, moduleName: string, name: string, qualname: string)

  /** One entry of `type_substitutions`: a type variable bound to a column type. */
  type TypeSubstitution = map<string, ColumnType>

  /** The result of a definition. `resourcePool` is what the deferred pool lookup yields. */
  datatype CallableFunction = CallableFunction(
    signatures: seq<Signature>,
    pyFns: seq<PyCallable>,
    selfPath: Option<string>,
    selfName: string,
    batchSize: Option<int>,
    isMethod: Option<bool>,
    isProperty: Option<bool>,
    resourcePool: Option<string>)

  /** One kind per error `make_function` raises, plus the failing symbol-path validation. */
  datatype ErrorKind =
    | BatchSizeNeedsBatchedReturn
    | BatchSizeNeedsBatchedParameter
    | BatchedParametersNeedBatchSize
    | MethodAndProperty
    | PropertyArity
    | StoredMethodOrProperty
    | SubstitutionsNeedModule
    | SubstitutionsWithBatching
    | SubstitutionsWithMethodOrProperty
    | SubstituteFnNeedsModule
    | InvalidSymbolPath

  /** A definition error and the name its message mentions, if any. */
  datatype DefinitionError = DefinitionError(kind: ErrorKind, subject: Option<string>)

  /**
   * The keyword arguments of `make_function`. A flag that may also be None (as the decorator
   * passes it) is an `Option<bool>`.
   */
  datatype MakeOptions = MakeOptions(
    batchSize: Option<int>,
    substituteFn: Option<PyCallable>,
    isMethod: Option<bool>,
    isProperty: Option<bool>,
    resourcePool: Option<string>,
    typeSubstitutions: Option<seq<TypeSubstitution>>,
    functionName: Option<string>,
    forceStored: bool)

  /** `make_function`'s own defaults: both flags default to False, not None. */
  const MakeFunctionDefaults := MakeOptions(None, None, Some(false), Some(false), None, None, None, false)

  /** Python truthiness of a flag that may be None. */
  predicate Truthy(flag: Option<bool>) {
    flag == Some(true)
  }

  /**
   * The symbol path of a callable: `module.qualname` for a callable outside `__main__` whose
   * name is an identifier, unless storing is forced.
   */
  function FunctionPath(fn: PyCallable, forceStored: bool): (p: Option<string>)
    ensures p.Some? <==> !forceStored && fn.moduleName != "__main__" && Strings.IsIdentifier(fn.name)
    ensures p.Some? ==> p.value == fn.moduleName + "." + fn.qualname
  {
    if forceStored then None
    else if fn.moduleName != "__main__" && Strings.IsIdentifier(fn.name) then Some(fn.moduleName + "." + fn.qualname)
    else None
  }

  /** The name of a path-addressed module-level function is its Python name. */
  lemma NameOfModuleFunction(fn: PyCallable, cls: Functions.ClassRef, sig: Signature)
    requires FunctionPath(fn, false).Some? && fn.qualname == fn.name
    ensures Functions.Name(Functions.Function(cls, [], sig, FunctionPath(fn, false))) == fn.name
  {
    var path := FunctionPath(fn, false).value;
    assert '.' !in fn.name by {
      forall i | 0 <= i < |fn.name| ensures fn.name[i] != '.' {
      }
    }
    assert path == (fn.moduleName + ".") + fn.name;
    Functions.LastSegmentAfterDot(fn.moduleName + ".", fn.name);
  }

  /** `expr_udf` derives the path of an expression template by the same rule, never forced. */
  function ExprUdfPath(fn: PyCallable): (p: Option<string>)
    ensures p == FunctionPath(fn, false)
  {
    if fn.moduleName != "__main__" && Strings.IsIdentifier(fn.name) then Some(fn.moduleName + "." + fn.qualname)
    else None
  }

  /** Dot-separated identifiers: the shape of a symbol path that can be resolved again. */
  predicate IsSymbolPath(s: string)
    decreases |s|
  {
    match Strings.RSplitOnce(s, '.')
    case None => Strings.IsIdentifier(s)
    case Some((front, back)) => IsSymbolPath(front) && Strings.IsIdentifier(back)
  }

  lemma IdentifierHasNoDot(s: string)
    requires Strings.IsIdentifier(s)
    ensures '.' !in s
  {
    forall i | 0 <= i < |s| ensures s[i] != '.' {
    }
  }

  /** Appending an identifier keeps a symbol path a symbol path. */
  lemma SymbolPathExtend(front: string, back: string)
    requires IsSymbolPath(front) && Strings.IsIdentifier(back)
    ensures IsSymbolPath(front + "." + back)
  {
    IdentifierHasNoDot(back);
    Strings.RSplitOnceJoin(front, '.', back);
  }

  /** A module-level function of a module with a valid path passes the path validation. */
  lemma ModuleFunctionPathIsValid(fn: PyCallable)
    requires FunctionPath(fn, false).Some? && fn.qualname == fn.name && IsSymbolPath(fn.moduleName)
    ensures IsSymbolPath(FunctionPath(fn, false).value)
  {
    SymbolPathExtend(fn.moduleName, fn.name);
  }

  /** A symbol path splits at its last '.' into a symbol path and an identifier. */
  lemma SymbolPathSplit(front: string, back: string)
    requires '.' !in back && IsSymbolPath(front + "." + back)
    ensures IsSymbolPath(front) && Strings.IsIdentifier(back)
  {
    Strings.RSplitOnceJoin(front, '.', back);
  }

  /**
   * A function defined inside another has a qualified name `outer.<locals>.inner`: its derived
   * path fails validation, so defining it with a path is an error.
   */
  lemma LocalFunctionPathIsInvalid(fn: PyCallable, outer: string)
    requires fn.qualname == outer + ".<locals>." + fn.name
    requires FunctionPath(fn, false).Some?
    ensures !IsSymbolPath(FunctionPath(fn, false).value)
  {
    var path := FunctionPath(fn, false).value;
    var enclosing := fn.moduleName + "." + outer;
    IdentifierHasNoDot(fn.name);
    assert path == (enclosing + "." + "<locals>") + "." + fn.name;
    assert !Strings.IsIdentifier("<locals>") by {
      assert "<locals>"[0] == '<';
    }
    if IsSymbolPath(path) {
      SymbolPathSplit(enclosing + "." + "<locals>", fn.name);
      SymbolPathSplit(enclosing, "<locals>");
      assert false;
    }
  }

  /** The name used in error messages: the path when there is one, else the function name. */
  function ErrMsgName(path: Option<string>, name: string): string {
    if path.None? then name else path.value
  }

  /** A batch size goes with a batched return and batched parameters, and only with them. */
  predicate BatchingOk(sig: Signature, opts: MakeOptions) {
    && (opts.batchSize.Some? ==> sig.isBatched && |sig.batchedParameters| > 0)
    && (opts.batchSize.None? ==> |sig.batchedParameters| == 0)
  }

  /** The checks on the one signature of a definition without type substitutions. */
  predicate SingleSignatureOk(sig: Signature, opts: MakeOptions, path: Option<string>) {
    && BatchingOk(sig, opts)
    && !(Truthy(opts.isMethod) && Truthy(opts.isProperty))
    && (Truthy(opts.isProperty) ==> sig.paramCount == 1)
    && (Truthy(opts.isMethod) || Truthy(opts.isProperty) ==> path.Some?)
  }

  /** The checks on a definition with type substitutions. */
  predicate SubstitutionsOk(opts: MakeOptions, path: Option<string>) {
    path.Some? && opts.batchSize.None? && opts.isMethod.None? && opts.isProperty.None?
  }

  /** Everything a definition must satisfy, independent of the order the checks run in. */
  predicate Admissible(fn: PyCallable, create: Option<TypeSubstitution> -> Signature, opts: MakeOptions) {
    var path := FunctionPath(fn, opts.forceStored);
    && (opts.typeSubstitutions.None? ==> SingleSignatureOk(create(None), opts, path))
    && (opts.typeSubstitutions.Some? ==> SubstitutionsOk(opts, path))
    && (opts.substituteFn.Some? ==> path.Some?)
    && (path.Some? ==> IsSymbolPath(path.value))
  }

  /** The signatures of a definition, or the first of the signature checks that fails. */
  function DefineSignatures(
    path: Option<string>, name: string, create: Option<TypeSubstitution> -> Signature, opts: MakeOptions
  ): (r: Result<seq<Signature>, DefinitionError>)
    ensures opts.typeSubstitutions.None? ==>
      && (r.Success? <==> SingleSignatureOk(create(None), opts, path))
      && (r.Success? ==> r.value == [create(None)])
    ensures opts.typeSubstitutions.Some? ==>
      && (r.Success? <==> SubstitutionsOk(opts, path))
      && (r.Success? ==> |r.value| == |opts.typeSubstitutions.value|)
      && (r.Success? ==> forall i :: 0 <= i < |r.value| ==> r.value[i] == create(Some(opts.typeSubstitutions.value[i])))
    // Without substitutions, each check fails with its own error once the earlier ones pass.
    ensures opts.typeSubstitutions.None? && opts.batchSize.Some? && !create(None).isBatched ==>
      r == Failure(DefinitionError(BatchSizeNeedsBatchedReturn, Some(ErrMsgName(path, name))))
    ensures opts.typeSubstitutions.None? && opts.batchSize.Some? && create(None).isBatched &&
            |create(None).batchedParameters| == 0 ==>
      r == Failure(DefinitionError(BatchSizeNeedsBatchedParameter, Some(ErrMsgName(path, name))))
    ensures opts.typeSubstitutions.None? && opts.batchSize.None? && |create(None).batchedParameters| > 0 ==>
      r == Failure(DefinitionError(BatchedParametersNeedBatchSize, Some(ErrMsgName(path, name))))
    ensures opts.typeSubstitutions.None? && BatchingOk(create(None), opts) &&
            Truthy(opts.isMethod) && Truthy(opts.isProperty) ==>
      r == Failure(DefinitionError(MethodAndProperty, Some(name)))
    ensures opts.typeSubstitutions.None? && BatchingOk(create(None), opts) && !Truthy(opts.isMethod) &&
            Truthy(opts.isProperty) && create(None).paramCount != 1 ==>
      r == Failure(DefinitionError(PropertyArity, Some(name)))
    ensures opts.typeSubstitutions.None? && BatchingOk(create(None), opts) &&
            !(Truthy(opts.isMethod) && Truthy(opts.isProperty)) &&
            (Truthy(opts.isProperty) ==> create(None).paramCount == 1) &&
            (Truthy(opts.isMethod) || Truthy(opts.isProperty)) && path.None? ==>
      r == Failure(DefinitionError(StoredMethodOrProperty, None))
    // With substitutions: a path first, then no batch size, then neither flag given at all.
    ensures opts.typeSubstitutions.Some? && path.None? ==>
      r == Failure(DefinitionError(SubstitutionsNeedModule, Some(name)))
    ensures opts.typeSubstitutions.Some? && path.Some? && opts.batchSize.Some? ==>
      r == Failure(DefinitionError(SubstitutionsWithBatching, path))
    ensures opts.typeSubstitutions.Some? && path.Some? && opts.batchSize.None? &&
            (opts.isMethod.Some? || opts.isProperty.Some?) ==>
      r == Failure(DefinitionError(SubstitutionsWithMethodOrProperty, path))
  {
    var errName := ErrMsgName(path, name);
    match opts.typeSubstitutions
    case None =>
      var sig := create(None);
      if opts.batchSize.Some? && !sig.isBatched then
        Failure(DefinitionError(BatchSizeNeedsBatchedReturn, Some(errName)))
      else if opts.batchSize.Some? && |sig.batchedParameters| == 0 then
        Failure(DefinitionError(BatchSizeNeedsBatchedParameter, Some(errName)))
      else if opts.batchSize.None? && |sig.batchedParameters| > 0 then
        Failure(DefinitionError(BatchedParametersNeedBatchSize, Some(errName)))
      else if Truthy(opts.isMethod) && Truthy(opts.isProperty) then
        Failure(DefinitionError(MethodAndProperty, Some(name)))
      else if Truthy(opts.isProperty) && sig.paramCount != 1 then
        Failure(DefinitionError(PropertyArity, Some(name)))
      else if (Truthy(opts.isMethod) || Truthy(opts.isProperty)) && path.None? then
        Failure(DefinitionError(StoredMethodOrProperty, None))
      else
        Success([sig])
    case Some(substitutions) =>
      if path.None? then
        Failure(DefinitionError(SubstitutionsNeedModule, Some(errName)))
      else if opts.batchSize.Some? then
        Failure(DefinitionError(SubstitutionsWithBatching, Some(errName)))
      else if opts.isMethod.Some? || opts.isProperty.Some? then
        Failure(DefinitionError(SubstitutionsWithMethodOrProperty, Some(errName)))
      else
        Success(seq(|substitutions|, i requires 0 <= i < |substitutions| => create(Some(substitutions[i]))))
  }

  /** The callable that executes the function: the substitute if one is given, which needs a path. */
  function ExecutingFunction(fn: PyCallable, path: Option<string>, name: string, opts: MakeOptions): (r: Result<PyCallable, DefinitionError>)
    ensures r.Success? <==> (opts.substituteFn.Some? ==> path.Some?)
    ensures r.Success? ==> r.value == opts.substituteFn.GetOr(fn)
  {
    match opts.substituteFn
    case None => Success(fn)
    case Some(substitute) =>
      if path.None? then Failure(DefinitionError(SubstituteFnNeedsModule, Some(ErrMsgName(path, name))))
      else Success(substitute)
  }

  /**
   * `make_function` up to registration: the checks in source order, then the result, then the
   * validation of the path, which comes last.
   */
  function Define(fn: PyCallable, create: Option<TypeSubstitution> -> Signature, opts: MakeOptions): (r: Result<CallableFunction, DefinitionError>)
    ensures r.Success? <==> Admissible(fn, create, opts)
    ensures r.Success? ==>
      && r.value.selfPath == FunctionPath(fn, opts.forceStored)
      && r.value.selfName == opts.functionName.GetOr(fn.name)
      && r.value.batchSize == opts.batchSize
      && r.value.isMethod == opts.isMethod
      && r.value.isProperty == opts.isProperty
      && r.value.resourcePool == opts.resourcePool
      && |r.value.pyFns| == |r.value.signatures|
      && (forall i :: 0 <= i < |r.value.pyFns| ==> r.value.pyFns[i] == opts.substituteFn.GetOr(fn))
    ensures r.Success? && opts.typeSubstitutions.None? ==> r.value.signatures == [create(None)]
    // A failing signature check is the error; after them, the substitute, then the path validation.
    ensures var path := FunctionPath(fn, opts.forceStored);
            var sigs := DefineSignatures(path, opts.functionName.GetOr(fn.name), create, opts);
            && (sigs.Failure? ==> r == Failure(sigs.error))
            && (sigs.Success? && opts.substituteFn.Some? && path.None? ==>
                  r == Failure(DefinitionError(SubstituteFnNeedsModule, Some(opts.functionName.GetOr(fn.name)))))
            && (sigs.Success? && path.Some? && !IsSymbolPath(path.value) ==>
                  r == Failure(DefinitionError(InvalidSymbolPath, path)))
    ensures r.Success? && opts.typeSubstitutions.Some? ==>
      && |r.value.signatures| == |opts.typeSubstitutions.value|
      && forall i :: 0 <= i < |r.value.signatures| ==> r.value.signatures[i] == create(Some(opts.typeSubstitutions.value[i]))
  {
    var path := FunctionPath(fn, opts.forceStored);
    var name := opts.functionName.GetOr(fn.name);
    var signatures :- DefineSignatures(path, name, create, opts);
    var pyFn :- ExecutingFunction(fn, path, name, opts);
    var result := CallableFunction(
      signatures, seq(|signatures|, _ => pyFn), path, name,
      opts.batchSize, opts.isMethod, opts.isProperty, opts.resourcePool);
    if path.Some? && !IsSymbolPath(path.value) then Failure(DefinitionError(InvalidSymbolPath, path))
    else Success(result)
  }

  /**
   * Called with its own defaults, `make_function` rejects every set of type substitutions:
   * the flags default to False, and only None gets past the substitution checks.
   */
  lemma DefaultsRejectSubstitutions(fn: PyCallable, create: Option<TypeSubstitution> -> Signature, substitutions: seq<TypeSubstitution>)
    ensures Define(fn, create, MakeFunctionDefaults.(typeSubstitutions := Some(substitutions))).Failure?
  {
  }

  /** A stored function (no path) cannot be a method or a property. */
  lemma StoredFunctionsAreNotMethods(fn: PyCallable, create: Option<TypeSubstitution> -> Signature, opts: MakeOptions)
    requires Define(fn, create, opts).Success?
    requires FunctionPath(fn, opts.forceStored).None?
    ensures !Truthy(opts.isMethod) && !Truthy(opts.isProperty)
    ensures opts.typeSubstitutions.None? && opts.substituteFn.None?
  {
  }

  /** The process-wide map from symbol path to function. */
  class FunctionRegistry {
    var functions: map<string, CallableFunction>

    constructor()
      ensures functions == map[]
    {
      functions := map[];
    }

    function Lookup(path: string): (r: Option<CallableFunction>)
      reads this
      ensures r.Some? <==> path in functions
      ensures r.Some? ==> r.value == functions[path]
    {
      if path in functions then Some(functions[path]) else None
    }

    method RegisterFunction(path: string, f: CallableFunction)
      modifies this
      ensures functions == old(functions)[path := f]
    {
      functions := functions[path := f];
    }
  }

  /** The registry after a definition: a successful definition with a path is registered under it. */
  function AfterDefinition(functions: map<string, CallableFunction>, r: Result<CallableFunction, DefinitionError>): map<string, CallableFunction> {
    if r.Success? && r.value.selfPath.Some? then functions[r.value.selfPath.value := r.value] else functions
  }

  /** `make_function`: define, then register the result when it has a path. */
  method MakeFunction(registry: FunctionRegistry, fn: PyCallable, create: Option<TypeSubstitution> -> Signature, opts: MakeOptions)
    returns (r: Result<CallableFunction, DefinitionError>)
    modifies registry
    ensures r == Define(fn, create, opts)
    ensures registry.functions == AfterDefinition(old(registry.functions), r)
    ensures r.Success? && r.value.selfPath.Some? ==> registry.Lookup(r.value.selfPath.value) == Some(r.value)
    ensures forall p :: r.Failure? || r.value.selfPath != Some(p) ==> registry.Lookup(p) == old(registry.Lookup(p))
  {
    r := Define(fn, create, opts);
    if r.Success? && r.value.selfPath.Some? {
      registry.RegisterFunction(r.value.selfPath.value, r.value);
    }
  }

  /** A failed definition leaves the registry as it was; a registered function is found under its path. */
  lemma AfterDefinitionRegisters(functions: map<string, CallableFunction>, r: Result<CallableFunction, DefinitionError>)
    ensures r.Failure? ==> AfterDefinition(functions, r) == functions
    ensures r.Success? && r.value.selfPath.Some? ==>
      && r.value.selfPath.value in AfterDefinition(functions, r)
      && AfterDefinition(functions, r)[r.value.selfPath.value] == r.value
    ensures forall p :: p in functions && (r.Failure? || r.value.selfPath != Some(p)) ==>
      p in AfterDefinition(functions, r) && AfterDefinition(functions, r)[p] == functions[p]
  {
  }

  /** A positional argument to `@udf`. */
  datatype Arg = CallableArg(fn: PyCallable) | ValueArg

  /** A keyword argument value to `@udf`. */
  datatype KwValue =
    | KwNone
    | KwInt(i: int)
    | KwBool(b: bool)
    | KwStr(s: string)
    | KwCallable(fn: PyCallable)
    | KwSubstitutions(substitutions: seq<TypeSubstitution>)

  const DecoratorKeywords: set<string> :=
    {"batch_size", "substitute_fn", "is_method", "is_property", "resource_pool", "type_substitutions", "_force_stored"}

  /** Each recognised keyword carries a value of its declared type, or None. */
  predicate WellTypedKwargs(kwargs: map<string, KwValue>) {
    && ("batch_size" in kwargs ==> kwargs["batch_size"].KwNone? || kwargs["batch_size"].KwInt?)
    && ("substitute_fn" in kwargs ==> kwargs["substitute_fn"].KwNone? || kwargs["substitute_fn"].KwCallable?)
    && ("is_method" in kwargs ==> kwargs["is_method"].KwNone? || kwargs["is_method"].KwBool?)
    && ("is_property" in kwargs ==> kwargs["is_property"].KwNone? || kwargs["is_property"].KwBool?)
    && ("resource_pool" in kwargs ==> kwargs["resource_pool"].KwNone? || kwargs["resource_pool"].KwStr?)
    && ("type_substitutions" in kwargs ==> kwargs["type_substitutions"].KwNone? || kwargs["type_substitutions"].KwSubstitutions?)
    && ("_force_stored" in kwargs ==> kwargs["_force_stored"].KwNone? || kwargs["_force_stored"].KwBool?)
  }

  /** What `@udf` evaluates to. */
  datatype UdfOutcome =
    /** `@udf` without parentheses: the function it defined, or the definition error */
    | Made(result: Result<CallableFunction, DefinitionError>)
    /** `@udf(...)`: a decorator that will call `make_function` with these options */
    | Decorator(opts: MakeOptions)
    | InvalidKwargs(keys: set<string>)
    | UnexpectedArguments

  function AsOptInt(v: KwValue): Option<int> {
    if v.KwInt? then Some(v.i) else None
  }

  function AsOptCallable(v: KwValue): Option<PyCallable> {
    if v.KwCallable? then Some(v.fn) else None
  }

  function AsOptBool(v: KwValue): Option<bool> {
    if v.KwBool? then Some(v.b) else None
  }

  function AsOptStr(v: KwValue): Option<string> {
    if v.KwStr? then Some(v.s) else None
  }

  function AsOptSubstitutions(v: KwValue): Option<seq<TypeSubstitution>> {
    if v.KwSubstitutions? then Some(v.substitutions) else None
  }

  /** The options the decorator form collects; a flag that is not given stays None. */
  function DecoratorOptions(kwargs: map<string, KwValue>): (opts: MakeOptions)
    requires WellTypedKwargs(kwargs)
    ensures "is_method" !in kwargs ==> opts.isMethod.None?
    ensures "is_property" !in kwargs ==> opts.isProperty.None?
    ensures "batch_size" !in kwargs ==> opts.batchSize.None?
    ensures "type_substitutions" in kwargs && kwargs["type_substitutions"].KwSubstitutions? ==>
      opts.typeSubstitutions == Some(kwargs["type_substitutions"].substitutions)
    ensures opts.functionName.None?
  {
    MakeOptions(
      AsOptInt(Popped(kwargs, "batch_size")),
      AsOptCallable(Popped(kwargs, "substitute_fn")),
      AsOptBool(Popped(kwargs, "is_method")),
      AsOptBool(Popped(kwargs, "is_property")),
      AsOptStr(Popped(kwargs, "resource_pool")),
      AsOptSubstitutions(Popped(kwargs, "type_substitutions")),
      None,
      Popped(kwargs, "_force_stored") == KwBool(true))
  }

  /** The value `kwargs.pop(key, None)` yields. */
  function Popped(kwargs: map<string, KwValue>, key: string): KwValue {
    if key in kwargs then kwargs[key] else KwNone
  }

  /** `kwargs.pop(key, None)`: the value, if present, and the remaining keywords. */
  function Pop(kwargs: map<string, KwValue>, key: string): (r: (KwValue, map<string, KwValue>))
    ensures r.1 == kwargs - {key}
    ensures r.0 == Popped(kwargs, key)
  {
    if key in kwargs then (kwargs[key], kwargs - {key}) else (KwNone, kwargs)
  }

  /** Popping a key not popped before yields its original value and removes it too. */
  lemma PopAfter(kwargs: map<string, KwValue>, removed: set<string>, key: string)
    requires key !in removed
    ensures Pop(kwargs - removed, key).0 == Popped(kwargs, key)
    ensures Pop(kwargs - removed, key).1 == kwargs - (removed + {key})
  {
  }

  /** The seven `pop` calls of the decorator form, in source order. */
  method PopDecoratorKwargs(kwargs: map<string, KwValue>) returns (opts: MakeOptions, remaining: map<string, KwValue>)
    requires WellTypedKwargs(kwargs)
    ensures opts == DecoratorOptions(kwargs)
    ensures remaining == kwargs - DecoratorKeywords
  {
    var batchSize, substituteFn, isMethod, isProperty, resourcePool, typeSubstitutions, forceStored;
    ghost var removed: set<string> := {};
    assert kwargs - removed == kwargs;
    remaining := kwargs;
    PopAfter(kwargs, removed, "batch_size");
    batchSize, remaining := Pop(remaining, "batch_size").0, Pop(remaining, "batch_size").1;
    removed := removed + {"batch_size"};
    PopAfter(kwargs, removed, "substitute_fn");
    substituteFn, remaining := Pop(remaining, "substitute_fn").0, Pop(remaining, "substitute_fn").1;
    removed := removed + {"substitute_fn"};
    PopAfter(kwargs, removed, "is_method");
    isMethod, remaining := Pop(remaining, "is_method").0, Pop(remaining, "is_method").1;
    removed := removed + {"is_method"};
    PopAfter(kwargs, removed, "is_property");
    isProperty, remaining := Pop(remaining, "is_property").0, Pop(remaining, "is_property").1;
    removed := removed + {"is_property"};
    PopAfter(kwargs, removed, "resource_pool");
    resourcePool, remaining := Pop(remaining, "resource_pool").0, Pop(remaining, "resource_pool").1;
    removed := removed + {"resource_pool"};
    PopAfter(kwargs, removed, "type_substitutions");
    typeSubstitutions, remaining := Pop(remaining, "type_substitutions").0, Pop(remaining, "type_substitutions").1;
    removed := removed + {"type_substitutions"};
    PopAfter(kwargs, removed, "_force_stored");
    forceStored, remaining := Pop(remaining, "_force_stored").0, Pop(remaining, "_force_stored").1;
    removed := removed + {"_force_stored"};
    assert removed == DecoratorKeywords;
    opts := MakeOptions(
      AsOptInt(batchSize), AsOptCallable(substituteFn), AsOptBool(isMethod), AsOptBool(isProperty),
      AsOptStr(resourcePool), AsOptSubstitutions(typeSubstitutions), None, forceStored == KwBool(true));
  }

  /**
   * `udf(*args, **kwargs)`: a single callable and no keywords defines the function at once with
   * `make_function`'s defaults; otherwise the recognised keywords are popped one by one, and
   * leftover keywords or any positional argument are an error.
   */
  method Udf(registry: FunctionRegistry, args: seq<Arg>, kwargs: map<string, KwValue>, create: Option<TypeSubstitution> -> Signature)
    returns (out: UdfOutcome)
    requires WellTypedKwargs(kwargs)
    modifies registry
    ensures |args| == 1 && kwargs == map[] && args[0].CallableArg? ==>
      && out == Made(Define(args[0].fn, create, MakeFunctionDefaults))
      && registry.functions == AfterDefinition(old(registry.functions), out.result)
    ensures !(|args| == 1 && kwargs == map[] && args[0].CallableArg?) ==>
      && registry.functions == old(registry.functions)
      && out == (if kwargs.Keys - DecoratorKeywords != {} then InvalidKwargs(kwargs.Keys - DecoratorKeywords)
                 else if |args| > 0 then UnexpectedArguments
                 else Decorator(DecoratorOptions(kwargs)))
  {
    if |args| == 1 && |kwargs| == 0 && args[0].CallableArg? {
      var r := MakeFunction(registry, args[0].fn, create, MakeFunctionDefaults);
      return Made(r);
    }
    var opts, remaining := PopDecoratorKwargs(kwargs);
    if |remaining| > 0 {
      return InvalidKwargs(remaining.Keys);
    }
    if |args| > 0 {
      return UnexpectedArguments;
    }
    return Decorator(opts);
  }

  /** Applying the decorator `@udf(...)` returned to a callable. */
  method ApplyDecorator(registry: FunctionRegistry, opts: MakeOptions, fn: PyCallable, create: Option<TypeSubstitution> -> Signature)
    returns (r: Result<CallableFunction, DefinitionError>)
    modifies registry
    ensures r == Define(fn, create, opts)
    ensures registry.functions == AfterDefinition(old(registry.functions), r)
  {
    r := MakeFunction(registry, fn, create, opts);
  }

  /**
   * Through the decorator, type substitutions are accepted for a module function: the flags
   * stay None when they are not given, unlike with `make_function`'s own defaults.
   */
  lemma DecoratorAcceptsSubstitutions(fn: PyCallable, create: Option<TypeSubstitution> -> Signature, substitutions: seq<TypeSubstitution>)
    requires FunctionPath(fn, false).Some? && IsSymbolPath(FunctionPath(fn, false).value)
    ensures var kwargs := map["type_substitutions" := KwSubstitutions(substitutions)];
            WellTypedKwargs(kwargs) && Define(fn, create, DecoratorOptions(kwargs)).Success?
  {
    var kwargs := map["type_substitutions" := KwSubstitutions(substitutions)];
  }
}
