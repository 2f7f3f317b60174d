/** The meaning of `doValidateSchema` and `doValidate` in
    src/validator/JSONSchemaValidator.js, as functions over values. The
    imperative `doValidate` of the validator class is proved against `Walk`. */
module SchemaWalk {
  import opened JsValues
  import opened TypeResolver

  /** The shared context object's fields at one moment. `validatedSet`
      records whether `doValidate` has run: before that the object has no
      `validatedObject` or `validatedSchema` property at all. */
  datatype ContextState = ContextState(
    actualPath: string,
    validatedObject: Value,
    validatedSchema: Value,
    parentValidationObject: Value,
    parentValidationSchema: Value,
    validatedSet: bool)

  /** How a walk ended: normally, or by a throw, with the context object as
      the throwing call left it. */
  datatype Walked = Passed | Threw(thrown: Value, at: ContextState)

  /** A walk that threw threw an `Error` instance or one of the validator's
      own mismatch literals (either way a truthy object), from a node that
      had set the validated fields. */
  predicate ThrewObject(w: Walked)
  {
    w.Threw? ==> (w.thrown.Error? || w.thrown.Mismatch?) && w.at.validatedSet
  }

  /** The context object as a value, which the raised exception keeps as its
      `arguments`: the three properties of the literal `validate` starts
      with, and the two validated properties once `doValidate` has added
      them. */
  function ContextValue(c: ContextState): (r: Value)
    ensures r.Obj?
    ensures Lookup(r, "actualPath") == Str(c.actualPath)
  {
    var start := [("actualPath", Str(c.actualPath)),
                  ("parentValidationObject", c.parentValidationObject),
                  ("parentValidationSchema", c.parentValidationSchema)];
    if c.validatedSet
    then Obj(start + [("validatedObject", c.validatedObject), ("validatedSchema", c.validatedSchema)])
    else Obj(start)
  }

  /** The context object's own keys: the three of the literal `validate`
      starts with, then the two validated properties once `doValidate` has
      set them. */
  lemma ContextValueKeys(c: ContextState)
    ensures OwnKeys(ContextValue(c)) ==
      ["actualPath", "parentValidationObject", "parentValidationSchema"] +
      (if c.validatedSet then ["validatedObject", "validatedSchema"] else [])
  {
  }

  /** `doValidateSchema`: a falsy schema, or one with no own keys, throws
      `Error('Should have validationSchema')`. */
  function DoValidateSchema(schema: Value): (r: Option<Value>)
    ensures r.Some? ==> r.value == Error(SchemaMissing)
    ensures !Truthy(schema) || (Dereferenceable(schema) && OwnKeys(schema) == []) ==> r.Some?
    ensures schema.Obj? && schema.fields != [] ==> r.None?
    ensures r.None? ==> Truthy(schema) && Dereferenceable(schema)
  {
    if !Truthy(schema) || |OwnKeys(schema)| == 0 then Some(Error(SchemaMissing)) else None
  }

  /** `schemaToValidate[prefix + 'type'] || schemaToValidate`; it is only
      ever handed to `hasValidType`, which ignores it. */
  function SchemaDefinedType(prefix: string, schema: Value): (r: Value)
    requires Dereferenceable(schema)
    ensures Truthy(Lookup(schema, prefix + "type")) ==> r == Lookup(schema, prefix + "type")
    ensures !Truthy(Lookup(schema, prefix + "type")) ==> r == schema
    ensures Truthy(r) <==> Truthy(Lookup(schema, prefix + "type")) || Truthy(schema)
  {
    Or(Lookup(schema, prefix + "type"), schema)
  }

  /** The number of the schema's keys that do not start with the prefix. */
  function DomainKeyCount(prefix: string, schema: Value): (r: nat)
    requires Dereferenceable(schema)
    ensures r <= |OwnKeys(schema)|
    ensures r == 0 <==> forall i :: 0 <= i < |OwnKeys(schema)| ==> StartsWith(OwnKeys(schema)[i], prefix)
  {
    CountUnprefixed(OwnKeys(schema), prefix)
  }

  /** The `$strict` test: only when the directive is literally `true`, and
      then only the number of keys is compared. `Object.keys(null)` throws. */
  function StrictCheck(prefix: string, v: Value, schema: Value): (r: Option<Value>)
    requires Dereferenceable(schema)
    ensures r.Some? ==> Lookup(schema, prefix + "strict") == Bool(true) && (r.value.Error? || r.value.Mismatch?)
    ensures r.Some? && r.value.Mismatch? ==>
      Dereferenceable(v) && DomainKeyCount(prefix, schema) != |OwnKeys(v)| &&
      r.value == Mismatch(StrictKeyCount(DomainKeyCount(prefix, schema), |OwnKeys(v)|))
    ensures Lookup(schema, prefix + "strict") == Bool(true) && v.Obj? && schema.Obj? ==>
      (r.None? <==> DomainKeyCount(prefix, schema) == |OwnKeys(v)|)
  {
    if Lookup(schema, prefix + "strict") != Bool(true) then None
    else match HasValidType(v, Ctor(ObjectCtor))
      case Throws(t) => Some(t)
      case Ok(false) => None
      case Ok(true) =>
        match HasValidType(schema, Ctor(ObjectCtor))
        case Throws(t) => Some(t)
        case Ok(false) => None
        case Ok(true) =>
          if v.Null? then Some(Error(RuntimeTypeError))
          else if DomainKeyCount(prefix, schema) != |OwnKeys(v)| then
            Some(Mismatch(StrictKeyCount(DomainKeyCount(prefix, schema), |OwnKeys(v)|)))
          else None
  }

  /** `doValidate(v, schema, context)` entered with the context's path and
      parent fields as given. The steps, in order: the property reads of the
      schema (a TypeError for an undefined or null schema), the presence
      check, the type check, the strict check, and then the loop over
      `v.length` that walks every element with the `childsDef` sub-schema.
      The recursion follows `childsDef`, so it ends on the schema's size.
      Whatever is thrown is an `Error` or a mismatch literal, a truthy object,
      so the catch in `validate` always has a cause to report. */
  function Walk(prefix: string, v: Value, schema: Value, path: string,
                parentObject: Value, parentSchema: Value): (r: Walked)
    ensures ThrewObject(r)
    decreases Size(schema), 0
  {
    var here := ContextState(path, v, schema, parentObject, parentSchema, true);
    if !Dereferenceable(schema) then Threw(Error(RuntimeTypeError), here)
    else if !Truthy(v) && !Truthy(Lookup(schema, "optional")) then
      Threw(Mismatch(AttributeMissing(Lookup(schema, prefix + "titleKey"), Lookup(schema, prefix + "bodyKey"))), here)
    else match HasValidType(v, SchemaDefinedType(prefix, schema))
      case Throws(t) => Threw(t, here)
      case Ok(false) => Threw(Mismatch(InvalidType), here)
      case Ok(true) =>
        match StrictCheck(prefix, v, schema)
        case Some(t) => Threw(t, here)
        case None =>
          match HasValidType(v, Ctor(ArrayCtor))
          case Throws(t) => Threw(t, here)
          // the object-property branch: never taken, as the array test
          // above answers exactly as the type check already did
          case Ok(false) => Passed
          case Ok(true) =>
            // `null.length` throws
            if v.Null? then Threw(Error(RuntimeTypeError), here)
            else WalkItems(prefix, Elements(v), Lookup(schema, prefix + "childsDef"), path, v, 0)
  }

  /** Iterations `j..` of the child loop: child `j` is walked at path
      `path.j` with the parent fields set to the value looped over and to
      `childsDef`. */
  function WalkItems(prefix: string, items: seq<Value>, childsDef: Value, path: string,
                     parent: Value, j: nat): (r: Walked)
    requires j <= |items|
    ensures ThrewObject(r)
    decreases Size(childsDef), 1, |items| - j
  {
    if j == |items| then Passed
    else match Walk(prefix, items[j], childsDef, ChildPath(path, j), parent, childsDef)
      case Passed => WalkItems(prefix, items, childsDef, path, parent, j + 1)
      case Threw(t, at) => Threw(t, at)
  }

  /** `${actualPath}.${j}`: the parent's path, a dot, and the index in
      decimal. */
  function ChildPath(path: string, j: nat): (r: string)
    ensures |r| > |path| + 1 && r[..|path|] == path && r[|path|] == '.'
    ensures r[|path| + 1..] == NatToString(j)
  {
    path + "." + NatToString(j)
  }
}
