/** What the validator promises, proved about the functions the imperative
    code is verified against. */
module ValidatorProperties {
  import opened JsValues
  import opened TypeResolver
  import opened SchemaWalk
  import opened ValidationException
  import opened Validator

  // ---- the default exception builder ----

  /** The context object has no `e` key, so the exception keeps it whole. */
  lemma ContextValueLacksE(context: ContextState)
    ensures Lookup(ContextValue(context), "e") == Undef
  {
    var fields := ContextValue(context).fields;
    assert fields[0].0 != "e" && fields[1].0 != "e" && fields[2].0 != "e";
    assert context.validatedSet ==> fields[3].0 != "e" && fields[4].0 != "e";
    LookupAbsent(fields, "e");
  }

  /** The caught-throw argument object holds the throw and the context
      object, and no title, body or scope. */
  lemma CaughtArgumentsRead(thrown: Value, context: ContextState)
    ensures var args := CaughtArguments(thrown, context);
      Lookup(args, "e") == thrown && Lookup(args, "extraArguments") == ContextValue(context) &&
      Lookup(args, "titleKey") == Undef && Lookup(args, "bodyKey") == Undef && Lookup(args, "scope") == Undef
  {
    var args := CaughtArguments(thrown, context);
    LookupAbsent(args.fields, "titleKey");
    LookupAbsent(args.fields, "bodyKey");
    LookupAbsent(args.fields, "scope");
    var rest := [("extraArguments", ContextValue(context))];
    assert args.fields[1..] == rest;
    assert LookupField(rest, "extraArguments") == ContextValue(context);
  }

  /** The object the default builder hands to the exception constructor
      after a caught throw: the options' title and body, the throw as `e`,
      the context object as `extraArguments`, and no scope. */
  lemma DefaultBuilderConfig(o: OptionsState, thrown: Value, context: ContextState)
    ensures var config := FilledArguments(o, CaughtArguments(thrown, context));
      Lookup(config, "titleKey") == o.defaultExceptionTitle &&
      Lookup(config, "bodyKey") == o.defaultExceptionBody &&
      Lookup(config, "e") == thrown &&
      Lookup(config, "scope") == Undef &&
      Lookup(config, "extraArguments") == ContextValue(context)
  {
    CaughtArgumentsRead(thrown, context);
  }

  /** Whatever was thrown, the default builder gives the exception the
      options' title and body, keeps the throw as `e` and the context object
      as `arguments`, and sets no scope or level. */
  lemma CaughtBuildsDefaultException(o: OptionsState, thrown: Value, context: ContextState)
    requires Truthy(thrown)
    ensures Caught(o, thrown, context) ==
      if o.throwsException
      then Raises(ExceptionState(o.defaultExceptionTitle, o.defaultExceptionBody, Null, Undef,
                                 ContextValue(context), thrown))
      else Returns(false)
  {
    if o.throwsException {
      DefaultBuilderConfig(o, thrown, context);
      ContextValueLacksE(context);
    }
  }

  // ---- validate ----

  /** The schema is checked before the root value: a falsy or key-less
      schema raises the schema `Error` even when the value is null too. */
  lemma SchemaCheckedFirst(obj: Value, schema: Value, o: OptionsState)
    requires DoValidateSchema(schema).Some?
    ensures var verdict := Validation(obj, schema, o);
      (o.throwsException ==> verdict.Raises? && verdict.exception.e == Error(SchemaMissing)
                             && Unexpected(verdict.exception)) &&
      (!o.throwsException ==> verdict == Returns(false))
  {
    assert Validation(obj, schema, o) == Caught(o, Error(SchemaMissing), StartContext);
    CaughtBuildsDefaultException(o, Error(SchemaMissing), StartContext);
  }

  /** With a well-formed schema, a falsy root value raises the object `Error`
      before any walk begins (and with the options not yet re-initialised). */
  lemma FalsyRootRejected(obj: Value, schema: Value, o: OptionsState)
    requires DoValidateSchema(schema).None? && !Truthy(obj)
    ensures var verdict := Validation(obj, schema, o);
      (o.throwsException ==> verdict.Raises? && verdict.exception.e == Error(ObjectMissing)
                             && verdict.exception.arguments == ContextValue(StartContext)) &&
      (!o.throwsException ==> verdict == Returns(false))
  {
    CaughtBuildsDefaultException(o, Error(ObjectMissing), StartContext);
  }

  /** `validate` returns true exactly when the schema and the root value are
      present and the walk passes; it returns false only when the caller
      cleared `throwsException` and the failure came before the options were
      re-initialised (which forces the flag back to true). */
  lemma ValidateResult(obj: Value, schema: Value, o: OptionsState)
    ensures Validation(obj, schema, o) == Returns(true) <==>
      !FailsBeforeInit(obj, schema) &&
      Walk(Defaulted(o).customAttributesPrefix, obj, schema, "", Null, Null) == Passed
    ensures Validation(obj, schema, o) == Returns(false) <==>
      !o.throwsException && FailsBeforeInit(obj, schema)
  {
  }

  /** A raised exception carries the options' default title and body (as in
      force when the throw was caught: re-defaulted once the walk began),
      the throw as `e`, and no scope or level. `isUnexpected()` is false
      exactly for the validator's own mismatch literals; a missing schema or
      root value is always unexpected. */
  lemma RaisedException(obj: Value, schema: Value, o: OptionsState)
    ensures Validation(obj, schema, o).Raises? ==>
      var st := Validation(obj, schema, o).exception;
      var inForce := if FailsBeforeInit(obj, schema) then o else Defaulted(o);
      st.titleKey == inForce.defaultExceptionTitle &&
      st.bodyKey == inForce.defaultExceptionBody &&
      (Truthy(o.defaultExceptionTitle) ==> st.titleKey == o.defaultExceptionTitle) &&
      st.scope == Null && st.level == Undef &&
      (Unexpected(st) <==> !st.e.Mismatch?) &&
      (FailsBeforeInit(obj, schema) ==> Unexpected(st))
  {
    var inForce := if FailsBeforeInit(obj, schema) then o else Defaulted(o);
    var w := Walk(Defaulted(o).customAttributesPrefix, obj, schema, "", Null, Null);
    if FailsBeforeInit(obj, schema) || w.Threw? {
      var thrown, at;
      if DoValidateSchema(schema).Some? {
        thrown, at := Error(SchemaMissing), StartContext;
      } else if !Truthy(obj) {
        thrown, at := Error(ObjectMissing), StartContext;
      } else {
        assert ThrewObject(w);
        thrown, at := w.thrown, w.at;
      }
      assert FailsBeforeInit(obj, schema) ==> thrown.Error?;
      assert Validation(obj, schema, o) == Caught(inForce, thrown, at);
      CaughtCarriesDefaults(o, inForce, thrown, at);
    }
  }

  /** The context object the raised exception keeps as `arguments` has the
      three properties `validate` created it with when the failure came
      before the walk, and the two validated properties as well once the
      walk began. */
  lemma StoredContextKeys(obj: Value, schema: Value, o: OptionsState)
    ensures Validation(obj, schema, o).Raises? ==>
      var args := Validation(obj, schema, o).exception.arguments;
      args.Obj? && OwnKeys(args) ==
        ["actualPath", "parentValidationObject", "parentValidationSchema"] +
        (if FailsBeforeInit(obj, schema) then [] else ["validatedObject", "validatedSchema"])
  {
    var w := Walk(Defaulted(o).customAttributesPrefix, obj, schema, "", Null, Null);
    if FailsBeforeInit(obj, schema) {
      var thrown := if DoValidateSchema(schema).Some? then Error(SchemaMissing) else Error(ObjectMissing);
      assert Validation(obj, schema, o) == Caught(o, thrown, StartContext);
      CaughtKeepsContext(o, thrown, StartContext);
      ContextValueKeys(StartContext);
    } else if w.Threw? {
      assert ThrewObject(w);
      assert Validation(obj, schema, o) == Caught(Defaulted(o), w.thrown, w.at);
      CaughtKeepsContext(Defaulted(o), w.thrown, w.at);
      ContextValueKeys(w.at);
    }
  }

  /** The catch block stores the context object, as it stands, as the
      exception's `arguments`. */
  lemma CaughtKeepsContext(o: OptionsState, thrown: Value, at: ContextState)
    requires Truthy(thrown)
    ensures Caught(o, thrown, at).Raises? ==> Caught(o, thrown, at).exception.arguments == ContextValue(at)
  {
    CaughtBuildsDefaultException(o, thrown, at);
  }

  /** The exception the catch block raises with the caller's options or
      their defaulted form in force, for a throw of the walk or of the
      presence checks. */
  lemma CaughtCarriesDefaults(o: OptionsState, inForce: OptionsState, thrown: Value, at: ContextState)
    requires (thrown.Error? || thrown.Mismatch?) && (inForce == o || inForce == Defaulted(o))
    ensures Caught(inForce, thrown, at).Raises? ==>
      var st := Caught(inForce, thrown, at).exception;
      st.titleKey == inForce.defaultExceptionTitle &&
      st.bodyKey == inForce.defaultExceptionBody &&
      (Truthy(o.defaultExceptionTitle) ==> st.titleKey == o.defaultExceptionTitle) &&
      st.scope == Null && st.level == Undef && st.e == thrown &&
      (Unexpected(st) <==> !thrown.Mismatch?)
  {
    CaughtBuildsDefaultException(inForce, thrown, at);
  }

  // ---- the walk ----

  /** The type a schema declares, `$type` or the schema itself, never
      changes a type check: the check answers as for no declared type. */
  lemma SchemaDefinedTypeInert(prefix: string, schema: Value, v: Value)
    requires Dereferenceable(schema)
    ensures HasValidType(v, SchemaDefinedType(prefix, schema)) == HasValidType(v, Undef)
  {
  }

  /** The walk reaches the child loop of this node: every check passed. */
  predicate Descends(prefix: string, v: Value, schema: Value)
  {
    Dereferenceable(schema) && (Truthy(v) || Truthy(Lookup(schema, "optional"))) &&
    Dereferenceable(v) && !IsWrapperCtor(v) &&
    StrictCheck(prefix, v, schema).None?
  }

  /** One node of the walk: either it reaches the child loop, or it throws
      a truthy object with the context naming this node, and a type mismatch
      only for a wrapper constructor. */
  lemma WalkStep(prefix: string, v: Value, schema: Value, path: string, po: Value, ps: Value)
    ensures var w := Walk(prefix, v, schema, path, po, ps);
      if Descends(prefix, v, schema)
      then w == WalkItems(prefix, Elements(v), Lookup(schema, prefix + "childsDef"), path, v, 0)
      else w.Threw? && w.at == ContextState(path, v, schema, po, ps, true) && Truthy(w.thrown) &&
           (w.thrown == Mismatch(InvalidType) ==> IsWrapperCtor(v))
  {
    var w := Walk(prefix, v, schema, path, po, ps);
    var here := ContextState(path, v, schema, po, ps, true);
    if !Dereferenceable(schema) {
      assert w == Threw(Error(RuntimeTypeError), here);
    } else if !Truthy(v) && !Truthy(Lookup(schema, "optional")) {
      assert w.thrown.Mismatch?;
    } else if v.Undef? {
      assert HasValidType(v, SchemaDefinedType(prefix, schema)) == Throws(Error(RuntimeTypeError));
    } else if IsWrapperCtor(v) {
      assert HasValidType(v, SchemaDefinedType(prefix, schema)) == Ok(false);
    } else {
      assert HasValidType(v, SchemaDefinedType(prefix, schema)) == Ok(true);
      var strict := StrictCheck(prefix, v, schema);
      if strict.Some? {
        assert strict.value.Error? || strict.value.Mismatch?;
        assert w == Threw(strict.value, here);
      } else {
        assert HasValidType(v, Ctor(ArrayCtor)) == Ok(true);
      }
    }
  }


  /** A falsy value throws the plain "does not exist" object, unless the
      schema node has a truthy key named `optional`; even then undefined and
      null end in a TypeError (a failed type-map lookup, `Object.keys(null)`
      or `null.length`). */
  lemma AbsentValue(prefix: string, v: Value, schema: Value, path: string, po: Value, ps: Value)
    requires Dereferenceable(schema) && !Truthy(v)
    ensures var w := Walk(prefix, v, schema, path, po, ps);
      var here := ContextState(path, v, schema, po, ps, true);
      (!Truthy(Lookup(schema, "optional")) ==>
        w == Threw(Mismatch(AttributeMissing(Lookup(schema, prefix + "titleKey"),
                                             Lookup(schema, prefix + "bodyKey"))), here)) &&
      (Truthy(Lookup(schema, "optional")) && !Dereferenceable(v) ==>
        w == Threw(Error(RuntimeTypeError), here))
  {
  }

  /** The type-mismatch throw fires only at a node holding one of the four
      wrapper constructors as its value: for data values it never fires. */
  lemma {:induction false} InvalidTypeOnlyForWrapperCtors(prefix: string, v: Value, schema: Value,
                                                          path: string, po: Value, ps: Value)
    ensures var w := Walk(prefix, v, schema, path, po, ps);
      w.Threw? && w.thrown == Mismatch(InvalidType) ==> IsWrapperCtor(w.at.validatedObject)
    decreases Size(schema), 0
  {
    WalkStep(prefix, v, schema, path, po, ps);
    if Descends(prefix, v, schema) {
      InvalidTypeOnlyForWrapperCtorsItems(prefix, Elements(v), Lookup(schema, prefix + "childsDef"), path, v, 0);
    }
  }

  lemma {:induction false} InvalidTypeOnlyForWrapperCtorsItems(prefix: string, items: seq<Value>, childsDef: Value,
                                                               path: string, parent: Value, j: nat)
    requires j <= |items|
    ensures var w := WalkItems(prefix, items, childsDef, path, parent, j);
      w.Threw? && w.thrown == Mismatch(InvalidType) ==> IsWrapperCtor(w.at.validatedObject)
    decreases Size(childsDef), 1, |items| - j
  {
    if j < |items| {
      InvalidTypeOnlyForWrapperCtors(prefix, items[j], childsDef, ChildPath(path, j), parent, childsDef);
      InvalidTypeOnlyForWrapperCtorsItems(prefix, items, childsDef, path, parent, j + 1);
    }
  }

  /** `$strict` compares counts only: with the directive literally true on an
      object schema, a present value fails at this node exactly when its
      number of own keys differs from the schema's unprefixed keys, and
      otherwise goes on to the child loop. */
  lemma StrictComparesCounts(prefix: string, v: Value, schema: Value, path: string, po: Value, ps: Value)
    requires schema.Obj? && Lookup(schema, prefix + "strict") == Bool(true)
    requires Truthy(v) && !IsWrapperCtor(v)
    ensures var w := Walk(prefix, v, schema, path, po, ps);
      var counts := (DomainKeyCount(prefix, schema), |OwnKeys(v)|);
      (counts.0 != counts.1 ==>
        w == Threw(Mismatch(StrictKeyCount(counts.0, counts.1)), ContextState(path, v, schema, po, ps, true))) &&
      (counts.0 == counts.1 ==>
        w == WalkItems(prefix, Elements(v), Lookup(schema, prefix + "childsDef"), path, v, 0))
  {
  }

  /** Object properties are never descended into by name: an object value
      without a positive numeric `length` passes its node exactly when the
      strict check lets it through, whatever its properties hold. */
  lemma ObjectsAreLeaves(prefix: string, v: Value, schema: Value, path: string, po: Value, ps: Value)
    requires v.Obj? && Dereferenceable(schema) && LoopBound(Lookup(v, "length")) == 0
    ensures Walk(prefix, v, schema, path, po, ps) == Passed <==> StrictCheck(prefix, v, schema).None?
  {
  }

  /** An object with a positive numeric `length` is looped over like an
      array: its properties `"0"`, `"1"`, ... are walked with `childsDef`. */
  lemma LengthKeyedObjectsLooped(prefix: string, v: Value, schema: Value, path: string, po: Value, ps: Value)
    requires v.Obj? && Dereferenceable(schema) && StrictCheck(prefix, v, schema).None?
    ensures var items := Elements(v);
      |items| == LoopBound(Lookup(v, "length")) &&
      (forall j :: 0 <= j < |items| ==> items[j] == Lookup(v, NatToString(j))) &&
      Walk(prefix, v, schema, path, po, ps) ==
        WalkItems(prefix, items, Lookup(schema, prefix + "childsDef"), path, v, 0)
  {
  }

  /** A non-empty array or string under a schema without `childsDef` fails
      on its first element, because that child's schema is undefined. */
  lemma MissingChildSchema(prefix: string, v: Value, schema: Value, path: string, po: Value, ps: Value)
    requires Dereferenceable(schema) && Lookup(schema, prefix + "childsDef") == Undef
    requires (v.Arr? && v.items != []) || (v.Str? && v.s != "")
    requires StrictCheck(prefix, v, schema).None?
    ensures Walk(prefix, v, schema, path, po, ps) ==
      Threw(Error(RuntimeTypeError), ContextState(ChildPath(path, 0), Elements(v)[0], Undef, v, Undef, true))
  {
    assert Truthy(v) && Dereferenceable(v) && !IsWrapperCtor(v);
    assert Descends(prefix, v, schema);
    WalkStep(prefix, v, schema, path, po, ps);
    var items := Elements(v);
    assert |items| > 0;
    var at := ContextState(ChildPath(path, 0), items[0], Undef, v, Undef, true);
    assert Walk(prefix, items[0], Undef, ChildPath(path, 0), v, Undef) == Threw(Error(RuntimeTypeError), at);
  }

  /** A non-empty string anywhere the walk reaches makes it fail: a string
      is walked character by character, each character is again a one-letter
      string, and the chain of `childsDef` schemas runs out. */
  lemma {:induction false} NonEmptyStringsFail(prefix: string, v: Value, schema: Value, path: string,
                                               po: Value, ps: Value)
    requires v.Str? && v.s != ""
    ensures Walk(prefix, v, schema, path, po, ps).Threw?
    decreases Size(schema)
  {
    WalkStep(prefix, v, schema, path, po, ps);
    if Descends(prefix, v, schema) {
      var childsDef := Lookup(schema, prefix + "childsDef");
      var items := Elements(v);
      assert items[0] == Str([v.s[0]]);
      NonEmptyStringsFail(prefix, items[0], childsDef, ChildPath(path, 0), v, childsDef);
    }
  }

  /** Element `k` passes the walk with the child schema. */
  predicate ChildPasses(prefix: string, items: seq<Value>, childsDef: Value, path: string, parent: Value, k: nat)
    requires k < |items|
  {
    Walk(prefix, items[k], childsDef, ChildPath(path, k), parent, childsDef) == Passed
  }

  /** The child loop passes exactly when every element passes. */
  lemma {:induction false} ChildrenAllPass(prefix: string, items: seq<Value>, childsDef: Value,
                                           path: string, parent: Value, j: nat)
    requires j <= |items|
    ensures WalkItems(prefix, items, childsDef, path, parent, j) == Passed <==>
      forall k :: j <= k < |items| ==> ChildPasses(prefix, items, childsDef, path, parent, k)
    decreases |items| - j
  {
    if j == |items| {
      assert WalkItems(prefix, items, childsDef, path, parent, j) == Passed;
    } else {
      ChildrenAllPass(prefix, items, childsDef, path, parent, j + 1);
      var w := Walk(prefix, items[j], childsDef, ChildPath(path, j), parent, childsDef);
      if w == Passed {
        assert ChildPasses(prefix, items, childsDef, path, parent, j);
        assert WalkItems(prefix, items, childsDef, path, parent, j) == WalkItems(prefix, items, childsDef, path, parent, j + 1);
        assert (forall k :: j <= k < |items| ==> ChildPasses(prefix, items, childsDef, path, parent, k)) <==>
          (forall k :: j + 1 <= k < |items| ==> ChildPasses(prefix, items, childsDef, path, parent, k));
      } else {
        assert !ChildPasses(prefix, items, childsDef, path, parent, j);
        assert WalkItems(prefix, items, childsDef, path, parent, j) == w;
      }
    }
  }

  /** Fail-fast in ascending order: a failing loop reports the failure of
      the first failing element, all elements before it having passed. */
  lemma {:induction false} FirstFailureWins(prefix: string, items: seq<Value>, childsDef: Value,
                                            path: string, parent: Value, j: nat)
    requires j <= |items|
    requires WalkItems(prefix, items, childsDef, path, parent, j).Threw?
    ensures exists k :: (j <= k < |items| &&
      (forall i :: j <= i < k ==> Walk(prefix, items[i], childsDef, ChildPath(path, i), parent, childsDef) == Passed) &&
      Walk(prefix, items[k], childsDef, ChildPath(path, k), parent, childsDef) ==
        WalkItems(prefix, items, childsDef, path, parent, j))
    decreases |items| - j
  {
    if Walk(prefix, items[j], childsDef, ChildPath(path, j), parent, childsDef) == Passed {
      FirstFailureWins(prefix, items, childsDef, path, parent, j + 1);
      var k :| j + 1 <= k < |items| &&
        (forall i :: j + 1 <= i < k ==> Walk(prefix, items[i], childsDef, ChildPath(path, i), parent, childsDef) == Passed) &&
        Walk(prefix, items[k], childsDef, ChildPath(path, k), parent, childsDef) ==
          WalkItems(prefix, items, childsDef, path, parent, j + 1);
      assert j <= k < |items|;
    } else {
      assert j <= j < |items|;
    }
  }

  lemma ChildPathExtends(path: string, j: nat)
    ensures path <= ChildPath(path, j) && |ChildPath(path, j)| > |path|
  {
    assert ChildPath(path, j)[..|path|] == path;
  }

  /** Sibling elements get different paths, so a failure's path tells which
      element failed. */
  lemma ChildPathsDistinct(path: string, j: nat, k: nat)
    ensures ChildPath(path, j) == ChildPath(path, k) <==> j == k
  {
    if ChildPath(path, j) == ChildPath(path, k) {
      assert ChildPath(path, j)[|path| + 1..] == ChildPath(path, k)[|path| + 1..];
      NatToStringInjective(j, k);
    }
  }

  /** The context handed to the exception names the failing node: its path
      extends the path the walk started from, and it equals that path only
      when the failing node is the starting node itself. */
  lemma {:induction false} FailurePathNamesNode(prefix: string, v: Value, schema: Value, path: string,
                                                po: Value, ps: Value)
    requires Walk(prefix, v, schema, path, po, ps).Threw?
    ensures var at := Walk(prefix, v, schema, path, po, ps).at;
      path <= at.actualPath &&
      (at.actualPath == path ==> at == ContextState(path, v, schema, po, ps, true))
    decreases Size(schema), 0
  {
    WalkStep(prefix, v, schema, path, po, ps);
    if Descends(prefix, v, schema) {
      FailurePathNamesNodeItems(prefix, Elements(v), Lookup(schema, prefix + "childsDef"), path, v, 0);
    }
  }

  lemma {:induction false} FailurePathNamesNodeItems(prefix: string, items: seq<Value>, childsDef: Value,
                                                     path: string, parent: Value, j: nat)
    requires j <= |items|
    requires WalkItems(prefix, items, childsDef, path, parent, j).Threw?
    ensures var at := WalkItems(prefix, items, childsDef, path, parent, j).at;
      path <= at.actualPath && |at.actualPath| > |path|
    decreases Size(childsDef), 1, |items| - j
  {
    var child := ChildPath(path, j);
    ChildPathExtends(path, j);
    if Walk(prefix, items[j], childsDef, child, parent, childsDef) == Passed {
      FailurePathNamesNodeItems(prefix, items, childsDef, path, parent, j + 1);
    } else {
      FailurePathNamesNode(prefix, items[j], childsDef, child, parent, childsDef);
      var at := Walk(prefix, items[j], childsDef, child, parent, childsDef).at;
      assert at.actualPath[..|path|] == child[..|path|] == path;
    }
  }
}
