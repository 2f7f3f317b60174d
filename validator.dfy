/** The stateful validator of src/validator/JSONSchemaValidator.js: the
    `JSONObjectValidator` class with its options record, the shared context
    object its walk mutates, and `validate`, which turns any throw into a
    raised `JSONSchemaValidationException` or `false`. */
module Validator {
  import opened JsValues
  import opened TypeResolver
  import opened SchemaWalk
  import opened ValidationException

  /** The options record's recognised fields. `throwsException` is kept as
      its truthiness; a falsy prefix is the empty string. */
  datatype OptionsState = OptionsState(
    throwsException: bool,
    customAttributesPrefix: string,
    defaultExceptionTitle: Value,
    defaultExceptionBody: Value)

  /** The empty options object `{}`. */
  const NoOptions := OptionsState(false, "", Undef, Undef)

  /** The defaults `initOptions` gives a falsy title and a falsy body. */
  const DefaultTitle := Str("Validation Error")
  const DefaultBody := Str("Validation Error")

  /** The options after `initOptions`: every field is `field || default`, and
      the default of `throwsException` is `true`, so it is always true. */
  function Defaulted(o: OptionsState): (r: OptionsState)
    ensures r.throwsException
    ensures r.customAttributesPrefix != ""
    ensures o.customAttributesPrefix != "" ==> r.customAttributesPrefix == o.customAttributesPrefix
    ensures o.customAttributesPrefix == "" ==> r.customAttributesPrefix == "$"
    ensures Truthy(r.defaultExceptionTitle) && Truthy(r.defaultExceptionBody)
    ensures Truthy(o.defaultExceptionTitle) ==> r.defaultExceptionTitle == o.defaultExceptionTitle
    ensures !Truthy(o.defaultExceptionTitle) ==> r.defaultExceptionTitle == DefaultTitle
    ensures Truthy(o.defaultExceptionBody) ==> r.defaultExceptionBody == o.defaultExceptionBody
    ensures !Truthy(o.defaultExceptionBody) ==> r.defaultExceptionBody == DefaultBody
  {
    OptionsState(
      o.throwsException || true,
      if o.customAttributesPrefix == "" then "$" else o.customAttributesPrefix,
      Or(o.defaultExceptionTitle, DefaultTitle),
      Or(o.defaultExceptionBody, DefaultBody))
  }

  /** The first two steps of the default `buildExceptionFor`: a falsy title
      or body in the argument object is replaced by the options' default, and
      every other property is left as it was. */
  function FilledArguments(o: OptionsState, exceptionArguments: Value): (r: Value)
    requires exceptionArguments.Obj?
    ensures r.Obj?
    ensures Lookup(r, "titleKey") == Or(Lookup(exceptionArguments, "titleKey"), o.defaultExceptionTitle)
    ensures Lookup(r, "bodyKey") == Or(Lookup(exceptionArguments, "bodyKey"), o.defaultExceptionBody)
    ensures forall key :: key != "titleKey" && key != "bodyKey" ==> Lookup(r, key) == Lookup(exceptionArguments, key)
  {
    var withTitle := Put(exceptionArguments, "titleKey",
                         Or(Lookup(exceptionArguments, "titleKey"), o.defaultExceptionTitle));
    Put(withTitle, "bodyKey", Or(Lookup(withTitle, "bodyKey"), o.defaultExceptionBody))
  }

  /** The exception the default `buildExceptionFor` builds: the filled-in
      argument object is handed to the one-argument constructor form. */
  function ExceptionFor(o: OptionsState, exceptionArguments: Value): (r: ExceptionState)
    requires exceptionArguments.Obj?
    ensures r.titleKey == Or(Lookup(exceptionArguments, "titleKey"), o.defaultExceptionTitle)
    ensures r.bodyKey == Or(Lookup(exceptionArguments, "bodyKey"), o.defaultExceptionBody)
    ensures r.scope == Or(Lookup(exceptionArguments, "scope"), Null)
  {
    var filled := FilledArguments(o, exceptionArguments);
    assert ConfigHolder(filled, Undef, Undef) == filled;
    assert Lookup(filled, "scope") == Lookup(exceptionArguments, "scope");
    var st := FromHolder(filled, CapturedE(filled, Undef, Undef));
    assert st.titleKey == Lookup(filled, "titleKey") && st.bodyKey == Lookup(filled, "bodyKey");
    assert st.scope == Or(Lookup(filled, "scope"), Null);
    assert Construct(filled, Undef, Undef) == st;
    Construct(filled, Undef, Undef)
  }

  /** The argument object the catch block hands to the builder: the throw
      as `e` and the context object as `extraArguments`. */
  function CaughtArguments(thrown: Value, context: ContextState): (r: Value)
    ensures r.Obj? && OwnKeys(r) == ["e", "extraArguments"]
  {
    Obj([("e", thrown), ("extraArguments", ContextValue(context))])
  }

  /** What `validate` does, in the caller's terms. */
  datatype Verdict = Returns(result: bool) | Raises(exception: ExceptionState)

  /** The catch block: raise the built exception, or return false, as the
      options in force at that moment say. */
  function Caught(o: OptionsState, thrown: Value, context: ContextState): (r: Verdict)
    ensures r.Raises? <==> o.throwsException
    ensures r.Returns? ==> !r.result
  {
    if o.throwsException
    then Raises(ExceptionFor(o, CaughtArguments(thrown, context)))
    else Returns(false)
  }

  /** The context object `validate` starts with. */
  const StartContext := ContextState("", Undef, Undef, Null, Null, false)

  /** `validate()` on a validator holding `obj`, `schema` and options `o`:
      the schema check, then the root-value check, then (after the options
      are re-initialised) the walk. */
  function Validation(obj: Value, schema: Value, o: OptionsState): (r: Verdict)
    ensures r == Returns(true) ==> !FailsBeforeInit(obj, schema)
    ensures r == Returns(false) ==> FailsBeforeInit(obj, schema) && !o.throwsException
  {
    match DoValidateSchema(schema)
    case Some(t) => Caught(o, t, StartContext)
    case None =>
      if !Truthy(obj) then Caught(o, Error(ObjectMissing), StartContext)
      else
        var o' := Defaulted(o);
        match Walk(o'.customAttributesPrefix, obj, schema, "", Null, Null)
        case Passed => Returns(true)
        case Threw(t, at) => Caught(o', t, at)
  }

  /** `validate` failed before the options were re-initialised. */
  predicate FailsBeforeInit(obj: Value, schema: Value)
  {
    DoValidateSchema(schema).Some? || !Truthy(obj)
  }

  /** A walk's end as `doValidate` reports it: nothing thrown, or the throw
      together with the context object it left behind. */
  function AsWalked(thrown: Option<Value>, context: ContextState): Walked
  {
    match thrown
    case None => Passed
    case Some(t) => Threw(t, context)
  }

  class Options {
    var throwsException: bool
    var customAttributesPrefix: string
    var defaultExceptionTitle: Value
    var defaultExceptionBody: Value

    function State(): OptionsState
      reads this
    {
      OptionsState(throwsException, customAttributesPrefix, defaultExceptionTitle, defaultExceptionBody)
    }

    constructor (throwsException: bool, customAttributesPrefix: string,
                 defaultExceptionTitle: Value, defaultExceptionBody: Value)
      ensures State() == OptionsState(throwsException, customAttributesPrefix,
                                      defaultExceptionTitle, defaultExceptionBody)
    {
      this.throwsException := throwsException;
      this.customAttributesPrefix := customAttributesPrefix;
      this.defaultExceptionTitle := defaultExceptionTitle;
      this.defaultExceptionBody := defaultExceptionBody;
    }
  }

  /** The context object threaded through one run of `validate`. */
  class Context {
    var actualPath: string
    var validatedObject: Value
    var validatedSchema: Value
    var parentValidationObject: Value
    var parentValidationSchema: Value
    var validatedSet: bool

    function State(): ContextState
      reads this
    {
      ContextState(actualPath, validatedObject, validatedSchema, parentValidationObject,
                   parentValidationSchema, validatedSet)
    }

    /** `{ actualPath: '', parentValidationObject: null, parentValidationSchema: null }` */
    constructor ()
      ensures State() == StartContext
    {
      actualPath := "";
      validatedObject := Undef;
      validatedSchema := Undef;
      parentValidationObject := Null;
      parentValidationSchema := Null;
      validatedSet := false;
    }
  }

  /** The outcome of `validate()`: a returned boolean or a raised exception. */
  datatype Outcome = Returned(result: bool) | Raised(exception: JSONSchemaValidationException)

  class JSONObjectValidator {
    var objectToValidate: Value
    var validationSchema: Value
    var options: Options

    constructor (objectToValidate: Value, validationSchema: Value, options: Options?)
      modifies options
      ensures this.objectToValidate == Or(objectToValidate, Null)
      ensures this.validationSchema == Or(validationSchema, Null)
      ensures options != null ==> this.options == options
      ensures options == null ==> fresh(this.options)
      ensures this.options.State() == Defaulted(if options != null then old(options.State()) else NoOptions)
    {
      this.objectToValidate := Or(objectToValidate, Null);
      this.validationSchema := Or(validationSchema, Null);
      if options != null {
        this.options := options;
      } else {
        this.options := new Options(false, "", Undef, Undef);
      }
      new;
      InitOptions();
    }

    /** `initOptions()` with no argument: the options object already held is
      defaulted in place. */
    method InitOptions()
      modifies options
      ensures options.State() == Defaulted(old(options.State()))
    {
      options.throwsException := options.throwsException || true;
      if options.customAttributesPrefix == "" {
        options.customAttributesPrefix := "$";
      }
      options.defaultExceptionTitle := Or(options.defaultExceptionTitle, DefaultTitle);
      options.defaultExceptionBody := Or(options.defaultExceptionBody, DefaultBody);
    }

    method BuildExceptionFor(exceptionArguments: Value) returns (ex: JSONSchemaValidationException)
      requires exceptionArguments.Obj?
      ensures fresh(ex)
      ensures ex.State() == ExceptionFor(options.State(), exceptionArguments)
    {
      var args := Put(exceptionArguments, "titleKey",
                      Or(Lookup(exceptionArguments, "titleKey"), options.defaultExceptionTitle));
      args := Put(args, "bodyKey", Or(Lookup(args, "bodyKey"), options.defaultExceptionBody));
      ex := new JSONSchemaValidationException(args, Undef, Undef);
    }

    method Validate() returns (r: Outcome)
      modifies options
      ensures var verdict := Validation(objectToValidate, validationSchema, old(options.State()));
        match r
        case Returned(b) => verdict == Returns(b)
        case Raised(ex) => fresh(ex) && verdict == Raises(ex.State())
      ensures options.State() == if FailsBeforeInit(objectToValidate, validationSchema)
                                 then old(options.State()) else Defaulted(old(options.State()))
    {
      var contextArguments := new Context();
      var thrown: Option<Value>;
      var schemaCheck := DoValidateSchema(validationSchema);
      if schemaCheck.Some? {
        thrown := schemaCheck;
      } else if !Truthy(objectToValidate) {
        thrown := Some(Error(ObjectMissing));
      } else {
        InitOptions();
        thrown := DoValidate(objectToValidate, validationSchema, contextArguments);
      }
      if thrown.None? {
        return Returned(true);
      }
      if options.throwsException {
        var ex := BuildExceptionFor(CaughtArguments(thrown.value, contextArguments.State()));
        return Raised(ex);
      }
      return Returned(false);
    }

    /** `doValidate`: writes the node into the shared context, runs the
      checks, and walks the children in index order, setting the path and the
      parent fields before each recursive call. The first throw propagates
      with the context as the throwing call left it. */
    method DoValidate(objectToValidate: Value, schemaToValidate: Value, genericArguments: Context)
      returns (thrown: Option<Value>)
      modifies genericArguments
      decreases Size(schemaToValidate), 0
      ensures AsWalked(thrown, genericArguments.State()) ==
        Walk(options.customAttributesPrefix, objectToValidate, schemaToValidate,
             old(genericArguments.actualPath), old(genericArguments.parentValidationObject),
             old(genericArguments.parentValidationSchema))
    {
      var prefix := options.customAttributesPrefix;
      genericArguments.validatedObject := objectToValidate;
      genericArguments.validatedSchema := schemaToValidate;
      genericArguments.validatedSet := true;
      var actualPath := genericArguments.actualPath;
      if !Dereferenceable(schemaToValidate) {
        return Some(Error(RuntimeTypeError));
      }
      var schemaDefinedType := SchemaDefinedType(prefix, schemaToValidate);
      if !Truthy(objectToValidate) && !Truthy(Lookup(schemaToValidate, "optional")) {
        return Some(Mismatch(AttributeMissing(Lookup(schemaToValidate, prefix + "titleKey"),
                                              Lookup(schemaToValidate, prefix + "bodyKey"))));
      }
      var typed := HasValidType(objectToValidate, schemaDefinedType);
      if typed.Throws? {
        return Some(typed.thrown);
      }
      if !typed.value {
        return Some(Mismatch(InvalidType));
      }
      var strict := StrictCheck(prefix, objectToValidate, schemaToValidate);
      if strict.Some? {
        return strict;
      }
      var isArray := HasValidType(objectToValidate, Ctor(ArrayCtor));
      if isArray == Ok(true) {
        if objectToValidate.Null? {
          return Some(Error(RuntimeTypeError));
        }
        var childsDef := Lookup(schemaToValidate, prefix + "childsDef");
        thrown := DoValidateItems(objectToValidate, childsDef, actualPath, genericArguments);
        return thrown;
      }
      return None;
    }

    /** The child loop of `doValidate`: for each index below `v.length`, the
      parent fields and the path are set and the element is walked with
      `childsDef`; the first throw ends the loop. */
    method DoValidateItems(objectToValidate: Value, childsDef: Value, actualPath: string,
                           genericArguments: Context)
      returns (thrown: Option<Value>)
      modifies genericArguments
      decreases Size(childsDef), 1
      ensures AsWalked(thrown, genericArguments.State()) ==
        WalkItems(options.customAttributesPrefix, Elements(objectToValidate), childsDef,
                  actualPath, objectToValidate, 0)
    {
      var prefix := options.customAttributesPrefix;
      var items := Elements(objectToValidate);
      for j := 0 to |items|
        invariant prefix == options.customAttributesPrefix
        invariant WalkItems(prefix, items, childsDef, actualPath, objectToValidate, 0)
                  == WalkItems(prefix, items, childsDef, actualPath, objectToValidate, j)
      {
        genericArguments.parentValidationObject := objectToValidate;
        genericArguments.parentValidationSchema := childsDef;
        genericArguments.actualPath := ChildPath(actualPath, j);
        var child := DoValidate(items[j], childsDef, genericArguments);
        ghost var w := Walk(prefix, items[j], childsDef, ChildPath(actualPath, j), objectToValidate, childsDef);
        if child.Some? {
          assert w.Threw? && WalkItems(prefix, items, childsDef, actualPath, objectToValidate, j) == w;
          return child;
        }
        assert w == Passed;
        assert WalkItems(prefix, items, childsDef, actualPath, objectToValidate, j)
            == WalkItems(prefix, items, childsDef, actualPath, objectToValidate, j + 1);
      }
      return None;
    }
  }
}
