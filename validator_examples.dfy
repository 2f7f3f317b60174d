/** Concrete runs of `validate`, `extractTypeFromObject` and the strict
    check, worked out on the model: the scenarios of the unit tests in
    test/unit/spec/JSONObjectValidator.unit.js, and the cases where the
    code's behaviour differs from what a reader of its schema comment would
    expect. */
module ValidatorExamples {
  import opened JsValues
  import opened TypeResolver
  import opened SchemaWalk
  import opened ValidationException
  import opened Validator
  import opened ValidatorProperties

  /** The options of `new Validator(...)` after its constructor ran. */
  const Constructed := Defaulted(NoOptions)

  /** The same, after a caller set `options.throwsException = false`. */
  const Quiet := Constructed.(throwsException := false)

  const DataSchema := Obj([("data", Ctor(StringCtor))])

  /** `{ data: 'some value' }` against `{ data: String }` with exceptions
      switched off returns true. */
  lemma MatchingDataReturnsTrue()
    ensures Validation(Obj([("data", Str("some value"))]), DataSchema, Quiet) == Returns(true)
  {
    var v := Obj([("data", Str("some value"))]);
    assert "$" + "strict" == "$strict";
    LookupAbsent(DataSchema.fields, "$strict");
    LookupAbsent(v.fields, "length");
    assert StrictCheck("$", v, DataSchema) == None;
    ObjectsAreLeaves("$", v, DataSchema, "", Null, Null);
    assert Defaulted(Quiet) == Constructed;
    assert DoValidateSchema(DataSchema) == None;
    assert Walk("$", v, DataSchema, "", Null, Null) == Passed;
  }

  /** An empty schema raises the schema error with the default title, even
      for an empty object. */
  lemma EmptySchemaRaisesDefaultTitle()
    ensures var verdict := Validation(Obj([]), Obj([]), Constructed);
      verdict.Raises? && verdict.exception.titleKey == Str("Validation Error") &&
      verdict.exception.e == Error(SchemaMissing) && Unexpected(verdict.exception)
  {
    SchemaCheckedFirst(Obj([]), Obj([]), Constructed);
    RaisedException(Obj([]), Obj([]), Constructed);
  }

  const StrictSchema := Obj([("validAttribute", Ctor(StringCtor)), ("$strict", Bool(true))])

  /** The strict schema's one domain key is `validAttribute`. */
  lemma StrictSchemaCounts()
    ensures Lookup(StrictSchema, "$" + "strict") == Bool(true)
    ensures DomainKeyCount("$", StrictSchema) == 1
  {
    assert "$" + "strict" == "$strict";
    assert StrictSchema.fields[1..] == [("$strict", Bool(true))];
    assert LookupField(StrictSchema.fields[1..], "$strict") == Bool(true);
    var keys := ["validAttribute", "$strict"];
    assert OwnKeys(StrictSchema) == keys;
    assert "$strict"[..1] == "$" && "validAttribute"[..1] == "v";
    assert CountUnprefixed(keys[1..], "$") == 0 by { assert keys[1..][1..] == []; }
  }

  /** `{ validAttribute: String, $strict: true }` against an empty object
      fails the strict check with counts 1 and 0; the cause is a mismatch,
      not an unexpected error. */
  lemma StrictEmptyObjectFails()
    ensures var verdict := Validation(Obj([]), StrictSchema, Constructed);
      verdict.Raises? && verdict.exception.e == Mismatch(StrictKeyCount(1, 0)) &&
      verdict.exception.titleKey == Str("Validation Error") && !Unexpected(verdict.exception)
  {
    StrictSchemaCounts();
    StrictComparesCounts("$", Obj([]), StrictSchema, "", Null, Null);
    var here := ContextState("", Obj([]), StrictSchema, Null, Null, true);
    assert Defaulted(Constructed) == Constructed;
    assert DoValidateSchema(StrictSchema) == None;
    assert Walk("$", Obj([]), StrictSchema, "", Null, Null) == Threw(Mismatch(StrictKeyCount(1, 0)), here);
    assert Validation(Obj([]), StrictSchema, Constructed) == Caught(Constructed, Mismatch(StrictKeyCount(1, 0)), here);
    CaughtBuildsDefaultException(Constructed, Mismatch(StrictKeyCount(1, 0)), here);
  }

  /** `{ attribute: 'value', $strict: true }` fails it with counts 1 and 2:
      the value's own `$strict` key is counted. */
  lemma StrictExtraKeyFails()
    ensures var v := Obj([("attribute", Str("value")), ("$strict", Bool(true))]);
      var verdict := Validation(v, StrictSchema, Constructed);
      verdict.Raises? && verdict.exception.e == Mismatch(StrictKeyCount(1, 2)) &&
      verdict.exception.titleKey == Str("Validation Error") && !Unexpected(verdict.exception)
  {
    var v := Obj([("attribute", Str("value")), ("$strict", Bool(true))]);
    StrictSchemaCounts();
    assert |OwnKeys(v)| == 2;
    StrictComparesCounts("$", v, StrictSchema, "", Null, Null);
    var here := ContextState("", v, StrictSchema, Null, Null, true);
    assert Defaulted(Constructed) == Constructed;
    assert DoValidateSchema(StrictSchema) == None;
    assert Walk("$", v, StrictSchema, "", Null, Null) == Threw(Mismatch(StrictKeyCount(1, 2)), here);
    assert Validation(v, StrictSchema, Constructed) == Caught(Constructed, Mismatch(StrictKeyCount(1, 2)), here);
    CaughtBuildsDefaultException(Constructed, Mismatch(StrictKeyCount(1, 2)), here);
  }

  /** `{ validAttribute: 'value' }` against `{ validAttribute: String }` passes. */
  lemma ValidAttributePasses()
    ensures Validation(Obj([("validAttribute", Str("value"))]),
                       Obj([("validAttribute", Ctor(StringCtor))]), Constructed) == Returns(true)
  {
    var schema := Obj([("validAttribute", Ctor(StringCtor))]);
    var v := Obj([("validAttribute", Str("value"))]);
    assert "$" + "strict" == "$strict";
    LookupAbsent(schema.fields, "$strict");
    LookupAbsent(v.fields, "length");
    assert StrictCheck("$", v, schema) == None;
    ObjectsAreLeaves("$", v, schema, "", Null, Null);
    assert Defaulted(Constructed) == Constructed;
    assert DoValidateSchema(schema) == None;
    assert Walk("$", v, schema, "", Null, Null) == Passed;
  }

  const SubstitutedSchema := Obj([("a", Ctor(StringCtor)), ("b", Ctor(StringCtor)), ("$strict", Bool(true))])

  /** That schema is strict and declares two domain keys. */
  lemma SubstitutedSchemaCounts()
    ensures Lookup(SubstitutedSchema, "$" + "strict") == Bool(true)
    ensures DomainKeyCount("$", SubstitutedSchema) == 2
  {
    assert "$" + "strict" == "$strict";
    var fields := SubstitutedSchema.fields;
    assert fields[2..] == [("$strict", Bool(true))];
    assert LookupField(fields[1..], "$strict") == LookupField(fields[2..], "$strict");
    var keys := ["a", "b", "$strict"];
    assert OwnKeys(SubstitutedSchema) == keys;
    assert "$strict"[..1] == "$" && "a"[..1] == "a" && "b"[..1] == "b";
    assert CountUnprefixed(keys[2..], "$") == 0 by { assert keys[2..][1..] == []; }
    assert CountUnprefixed(keys[1..], "$") == 1 by { assert keys[1..][1..] == keys[2..]; }
  }

  /** The strict check counts keys only: `{ a, c }` passes a strict schema
      that declares `{ a, b }`. */
  lemma StrictMissesSubstitution()
    ensures Validation(Obj([("a", Str("x")), ("c", Str("y"))]), SubstitutedSchema, Constructed) == Returns(true)
  {
    var v := Obj([("a", Str("x")), ("c", Str("y"))]);
    SubstitutedSchemaCounts();
    assert |OwnKeys(v)| == 2;
    StrictComparesCounts("$", v, SubstitutedSchema, "", Null, Null);
    assert Elements(v) == [];
    assert Defaulted(Constructed) == Constructed;
  }

  const ItemsChildSchema := Obj([("name", Ctor(StringCtor))])
  const ItemsSchema := Obj([("$type", Str("array")), ("$childsDef", ItemsChildSchema)])
  const Items := [Obj([("name", Str("a"))]), Obj([])]

  /** The walk of the array below: both elements are objects, which pass
      without their properties being looked at. */
  lemma ArrayOfObjectsWalk()
    ensures Walk("$", Arr(Items), ItemsSchema, "", Null, Null) == Passed
  {
    var v := Arr(Items);
    assert "$" + "strict" == "$strict" && "$" + "childsDef" == "$childsDef";
    LookupAbsent(ItemsSchema.fields, "$strict");
    assert ItemsSchema.fields[1..] == [("$childsDef", ItemsChildSchema)];
    assert LookupField(ItemsSchema.fields[1..], "$childsDef") == ItemsChildSchema;
    assert Lookup(ItemsSchema, "$childsDef") == ItemsChildSchema;
    assert Lookup(ItemsChildSchema, "$strict") == Undef;
    assert Descends("$", v, ItemsSchema);
    WalkStep("$", v, ItemsSchema, "", Null, Null);
    LookupAbsent(Items[0].fields, "length");
    LookupAbsent(Items[1].fields, "length");
    ObjectsAreLeaves("$", Items[0], ItemsChildSchema, ChildPath("", 0), v, ItemsChildSchema);
    ObjectsAreLeaves("$", Items[1], ItemsChildSchema, ChildPath("", 1), v, ItemsChildSchema);
    assert WalkItems("$", Items, ItemsChildSchema, "", v, 1) == Passed;
    assert WalkItems("$", Items, ItemsChildSchema, "", v, 0) == Passed;
  }

  /** Properties of an object are never walked: an array of objects, one of
      them missing the `name` its child schema declares, passes. */
  lemma ArrayOfObjectsPasses()
    ensures Validation(Arr(Items), ItemsSchema, Constructed) == Returns(true)
  {
    ArrayOfObjectsWalk();
    assert Defaulted(Constructed) == Constructed;
    assert DoValidateSchema(ItemsSchema) == None;
    assert Truthy(Arr(Items));
  }

  /** For the same reason a nested object missing a declared leaf passes. */
  lemma NestedMissingLeafPasses()
    ensures var address := Obj([("$type", Str("object")), ("zip", Ctor(StringCtor))]);
      var schema := Obj([("user", Obj([("$type", Str("object")), ("address", address)]))]);
      Validation(Obj([("user", Obj([("address", Obj([]))]))]), schema, Constructed) == Returns(true)
  {
    var address := Obj([("$type", Str("object")), ("zip", Ctor(StringCtor))]);
    var schema := Obj([("user", Obj([("$type", Str("object")), ("address", address)]))]);
    var v := Obj([("user", Obj([("address", Obj([]))]))]);
    assert "$" + "strict" == "$strict";
    LookupAbsent(schema.fields, "$strict");
    ObjectsAreLeaves("$", v, schema, "", Null, Null);
    assert Walk("$", v, schema, "", Null, Null) == Passed;
    assert Defaulted(Constructed) == Constructed;
  }

  /** A number against a string declaration passes: the declared type is
      never consulted. */
  lemma DeclaredTypeIgnored()
    ensures Validation(Num(5), Obj([("$type", Str("string"))]), Constructed) == Returns(true)
  {
    var schema := Obj([("$type", Str("string"))]);
    assert "$" + "strict" == "$strict";
    LookupAbsent(schema.fields, "$strict");
    assert Descends("$", Num(5), schema);
    WalkStep("$", Num(5), schema, "", Null, Null);
    assert Elements(Num(5)) == [];
    assert Defaulted(Constructed) == Constructed;
  }

  /** A non-empty string at the root fails on its first character, whose
      schema (the missing `$childsDef`) is undefined; and because `validate`
      re-initialises the options before the walk, the failure is raised even
      though the caller switched exceptions off. */
  lemma RootStringFails()
    ensures var verdict := Validation(Str("ab"), Obj([("$type", Str("string"))]), Quiet);
      verdict.Raises? && verdict.exception.e == Error(RuntimeTypeError)
  {
    var schema := Obj([("$type", Str("string"))]);
    assert "$" + "strict" == "$strict" && "$" + "childsDef" == "$childsDef";
    LookupAbsent(schema.fields, "$strict");
    LookupAbsent(schema.fields, "$childsDef");
    MissingChildSchema("$", Str("ab"), schema, "", Null, Null);
    var at := ContextState(ChildPath("", 0), Str("a"), Undef, Str("ab"), Undef, true);
    assert Defaulted(Quiet) == Constructed;
    assert Validation(Str("ab"), schema, Quiet) == Caught(Constructed, Error(RuntimeTypeError), at);
    CaughtBuildsDefaultException(Constructed, Error(RuntimeTypeError), at);
  }

  const LengthChildSchema := Obj([("b", Ctor(StringCtor))])
  const LengthParentSchema := Obj([("a", Ctor(StringCtor)), ("$childsDef", LengthChildSchema)])

  /** An object with `length: 1` is looped over like an array: its missing
      property `"0"` is walked against the child schema and fails there as
      an absent attribute at path `.0`. */
  lemma LengthKeyedObjectWalked()
    ensures var v := Obj([("length", Num(1))]);
      Walk("$", v, LengthParentSchema, "", Null, Null) ==
        Threw(Mismatch(AttributeMissing(Undef, Undef)),
              ContextState(ChildPath("", 0), Undef, LengthChildSchema, v, LengthChildSchema, true))
  {
    var v := Obj([("length", Num(1))]);
    assert "$" + "strict" == "$strict" && "$" + "childsDef" == "$childsDef";
    LookupAbsent(LengthParentSchema.fields, "$strict");
    assert LengthParentSchema.fields[1..] == [("$childsDef", LengthChildSchema)];
    assert LookupField(LengthParentSchema.fields[1..], "$childsDef") == LengthChildSchema;
    assert Lookup(LengthParentSchema, "$childsDef") == LengthChildSchema;
    assert NatToString(0) == "0";
    assert Lookup(v, "0") == Undef;
    assert Lookup(v, "length") == Num(1) && LoopBound(Num(1)) == 1;
    LengthKeyedObjectsLooped("$", v, LengthParentSchema, "", Null, Null);
    var items := Elements(v);
    assert items == [Undef];
    LengthKeyedChildMissing();
    assert WalkItems("$", items, LengthChildSchema, "", v, 0) ==
      Walk("$", Undef, LengthChildSchema, ChildPath("", 0), v, LengthChildSchema);
  }

  /** The one element of `{length: 1}` is undefined and not optional. */
  lemma LengthKeyedChildMissing()
    ensures var v := Obj([("length", Num(1))]);
      Walk("$", Undef, LengthChildSchema, ChildPath("", 0), v, LengthChildSchema) ==
        Threw(Mismatch(AttributeMissing(Undef, Undef)),
              ContextState(ChildPath("", 0), Undef, LengthChildSchema, v, LengthChildSchema, true))
  {
    var v := Obj([("length", Num(1))]);
    assert "$" + "titleKey" == "$titleKey" && "$" + "bodyKey" == "$bodyKey";
    LookupAbsent(LengthChildSchema.fields, "optional");
    LookupAbsent(LengthChildSchema.fields, "$titleKey");
    LookupAbsent(LengthChildSchema.fields, "$bodyKey");
    AbsentValue("$", Undef, LengthChildSchema, ChildPath("", 0), v, LengthChildSchema);
  }

  /** Classification quirks: a numeric string is a string, `null` and `[]`
      and `[5]` coerce to numbers (also when the text is padded with a
      no-break space), and only a longer array is an array. */
  lemma ClassificationQuirks()
    ensures ExtractTypeFromObject(Str("42")) == StringTag
    ensures ExtractTypeFromObject(Null) == NumberTag
    ensures ExtractTypeFromObject(Arr([])) == NumberTag
    ensures ExtractTypeFromObject(Arr([Num(5)])) == NumberTag
    ensures ExtractTypeFromObject(Arr([Num(1), Num(2)])) == ArrayTag
    ensures ExtractTypeFromObject(Obj([])) == ObjectTag
    ensures ExtractTypeFromObject(Undef).OtherTag?
  {
  }

  /** `Number` trims every JavaScript space, not only ASCII ones: `["\u00A05"]`
      coerces to 5 and is a number, while `["5x"]` is NaN and an array. */
  lemma PaddedNumericText()
    ensures ExtractTypeFromObject(Arr([Str("\U{00A0}5")])) == NumberTag
    ensures ExtractTypeFromObject(Arr([Str("5x")])) == ArrayTag
  {
    assert TrimStart("\U{00A0}5") == TrimStart("5") == "5";
    assert TrimEnd("5") == "5";
    assert AllDigits("5");
    assert StringNumber("\U{00A0}5") == Some(5);
    assert TrimStart("5x") == "5x" && TrimEnd("5x") == "5x";
    assert !AllDigits("5x") by { assert !('0' <= "5x"[1] <= '9'); }
    assert StringNumber("5x") == None;
  }
}
