/** The exception record the validator raises
    (src/exception/JSONSchemaValidationException.js).

    Its constructor has two calling forms. With a falsy `bodyKey` and a falsy
    `extraArguments`, the first argument is a configuration object whose
    `titleKey`, `bodyKey`, `scope`, `e` and `extraArguments` are taken over.
    Otherwise the positional `titleKey` and `bodyKey` are used and
    `extraArguments` becomes the stored arguments. In both forms an `e` found
    in the stored arguments is moved out of them onto the exception. */
module ValidationException {
  import opened JsValues

  /** The fields of a constructed exception; an absent property reads as `Undef`. */
  datatype ExceptionState = ExceptionState(
    titleKey: Value,
    bodyKey: Value,
    scope: Value,
    level: Value,
    arguments: Value,
    e: Value)

  /** The constructor was called in its one-argument (configuration object) form. */
  predicate OneArgForm(bodyKey: Value, extraArguments: Value)
  {
    !Truthy(bodyKey) && !Truthy(extraArguments)
  }

  /** What the constructor demands: in the one-argument form it reads
      properties of its first argument, which throws on null or undefined. */
  predicate CanConstruct(titleKey: Value, bodyKey: Value, extraArguments: Value)
  {
    OneArgForm(bodyKey, extraArguments) ==> Dereferenceable(titleKey)
  }

  /** The configuration object the constructor reads its fields from. The
      JSON round-trip copy of `extraArguments` is the identity on values. */
  function ConfigHolder(titleKey: Value, bodyKey: Value, extraArguments: Value): (r: Value)
    requires CanConstruct(titleKey, bodyKey, extraArguments)
    ensures Dereferenceable(r)
  {
    if OneArgForm(bodyKey, extraArguments) then titleKey
    else Put(Put(Obj([("extraArguments", extraArguments)]), "titleKey", titleKey), "bodyKey", bodyKey)
  }

  /** The `e` captured before the arguments are looked at: the
      configuration object's own `e`, in the one-argument form only. */
  function CapturedE(titleKey: Value, bodyKey: Value, extraArguments: Value): (r: Value)
    requires CanConstruct(titleKey, bodyKey, extraArguments)
    ensures r == Undef || Truthy(r)
    ensures !OneArgForm(bodyKey, extraArguments) ==> r == Undef
    ensures OneArgForm(bodyKey, extraArguments) ==> r == Or(Lookup(titleKey, "e"), Undef)
  {
    if OneArgForm(bodyKey, extraArguments) && Truthy(Lookup(titleKey, "e")) then Lookup(titleKey, "e") else Undef
  }

  /** The fields read from the configuration object, given the `e` captured
      so far: a truthy `extraArguments` is stored, and an `e` inside it is
      moved out onto the exception. */
  function FromHolder(config: Value, captured: Value): (r: ExceptionState)
    requires Dereferenceable(config)
    ensures r.scope == Null <==> r.level == Undef
    ensures r.arguments == Undef || (Truthy(r.arguments) && !Truthy(Lookup(r.arguments, "e")))
    ensures r.e != captured ==>
      var stored := Lookup(config, "extraArguments");
      Truthy(stored) && r.e == Lookup(stored, "e") && Truthy(r.e)
  {
    var scope := Lookup(config, "scope");
    var stored := Lookup(config, "extraArguments");
    var moves := Truthy(stored) && Truthy(Lookup(stored, "e"));
    ExceptionState(
      Lookup(config, "titleKey"),
      Lookup(config, "bodyKey"),
      Or(scope, Null),
      // the fallback `JSONSchemaValidationException.ERROR` is read from the
      // class, but the constants live on its prototype: it is undefined
      Or(scope, Undef),
      if !Truthy(stored) then Undef else if moves then RemoveKey(stored, "e") else stored,
      if moves then Lookup(stored, "e") else captured)
  }

  /** The exception `new JSONSchemaValidationException(titleKey, bodyKey, extraArguments)`
      builds. Without a scope it has no level either, its stored arguments
      never keep a truthy `e`, and a captured `e` is always truthy. */
  function Construct(titleKey: Value, bodyKey: Value, extraArguments: Value): (r: ExceptionState)
    requires CanConstruct(titleKey, bodyKey, extraArguments)
    ensures r.scope == Null <==> r.level == Undef
    ensures r.arguments == Undef || (Truthy(r.arguments) && !Truthy(Lookup(r.arguments, "e")))
    ensures r.e == Undef || Truthy(r.e)
  {
    FromHolder(ConfigHolder(titleKey, bodyKey, extraArguments), CapturedE(titleKey, bodyKey, extraArguments))
  }

  /** `isUnexpected()`: the captured cause is an `Error` instance. The
      class method `IsUnexpected` is this predicate on the object's fields. */
  predicate Unexpected(st: ExceptionState)
  {
    st.e != Undef && st.e.Error?
  }

  class JSONSchemaValidationException {
    var titleKey: Value
    var bodyKey: Value
    var scope: Value
    var level: Value
    var arguments: Value
    var e: Value

    function State(): ExceptionState
      reads this
    {
      ExceptionState(titleKey, bodyKey, scope, level, arguments, e)
    }

    constructor (titleKey: Value, bodyKey: Value, extraArguments: Value)
      requires CanConstruct(titleKey, bodyKey, extraArguments)
      ensures State() == Construct(titleKey, bodyKey, extraArguments)
    {
      this.arguments := Undef;
      this.e := Undef;
      new;
      var configHolder := Obj([("extraArguments", extraArguments)]);
      if !Truthy(bodyKey) && !Truthy(extraArguments) {
        configHolder := titleKey;
        if Truthy(Lookup(configHolder, "e")) {
          this.e := Lookup(configHolder, "e");
        }
        assert this.e == CapturedE(titleKey, bodyKey, extraArguments);
      } else {
        configHolder := Put(configHolder, "titleKey", titleKey);
        configHolder := Put(configHolder, "bodyKey", bodyKey);
        assert this.e == Undef == CapturedE(titleKey, bodyKey, extraArguments);
      }
      assert configHolder == ConfigHolder(titleKey, bodyKey, extraArguments);
      ReadConfig(configHolder);
    }

    /** The second half of the constructor: the fields are read from the
      configuration object, and an `e` in a truthy `extraArguments` is
      moved onto the exception and deleted from the stored arguments. The
      new object has no `arguments` property until then. */
    method ReadConfig(configHolder: Value)
      requires Dereferenceable(configHolder) && arguments == Undef
      modifies this
      ensures State() == FromHolder(configHolder, old(e))
    {
      this.titleKey := Lookup(configHolder, "titleKey");
      this.bodyKey := Lookup(configHolder, "bodyKey");
      this.scope := Or(Lookup(configHolder, "scope"), Null);
      this.level := Or(Lookup(configHolder, "scope"), Undef);
      if Truthy(Lookup(configHolder, "extraArguments")) {
        this.arguments := Lookup(configHolder, "extraArguments");
        if Truthy(Lookup(this.arguments, "e")) {
          this.e := Lookup(this.arguments, "e");
          this.arguments := RemoveKey(this.arguments, "e");
        }
      }
    }

    function IsUnexpected(): (r: bool)
      reads this
      ensures r <==> e.Error?
    {
      Unexpected(State())
    }
  }

  // ---- properties of the two calling forms ----

  /** One-argument form: title, body, scope and stored arguments come from
      the configuration object (a falsy scope gives a null scope and no
      level), and its `e` is kept unless the stored arguments carry one. */
  lemma OneArgFormSelectsConfig(config: Value, bodyKey: Value, extraArguments: Value)
    requires OneArgForm(bodyKey, extraArguments) && Dereferenceable(config)
    ensures var st := Construct(config, bodyKey, extraArguments);
      var stored := Lookup(config, "extraArguments");
      st.titleKey == Lookup(config, "titleKey") &&
      st.bodyKey == Lookup(config, "bodyKey") &&
      (Truthy(Lookup(config, "scope")) ==>
        st.scope == Lookup(config, "scope") && st.level == Lookup(config, "scope")) &&
      (!Truthy(Lookup(config, "scope")) ==> st.scope == Null && st.level == Undef) &&
      (!Truthy(stored) ==> st.arguments == Undef) &&
      (Truthy(stored) && !Truthy(Lookup(stored, "e")) ==> st.arguments == stored) &&
      (!(Truthy(stored) && Truthy(Lookup(stored, "e"))) ==> st.e == Or(Lookup(config, "e"), Undef))
  {
  }

  /** Three-argument form: the positional title and body win, whatever
      `extraArguments` holds, and no scope is ever set. */
  lemma ThreeArgFormUsesPositionals(titleKey: Value, bodyKey: Value, extraArguments: Value)
    requires !OneArgForm(bodyKey, extraArguments)
    ensures var st := Construct(titleKey, bodyKey, extraArguments);
      st.titleKey == titleKey && st.bodyKey == bodyKey &&
      st.scope == Null && st.level == Undef &&
      (Truthy(extraArguments) && !Truthy(Lookup(extraArguments, "e")) ==> st.arguments == extraArguments) &&
      (!Truthy(extraArguments) ==> st.arguments == Undef && st.e == Undef)
  {
    var first := Obj([("extraArguments", extraArguments)]);
    var config := ConfigHolder(titleKey, bodyKey, extraArguments);
    assert config == Put(Put(first, "titleKey", titleKey), "bodyKey", bodyKey);
    assert Lookup(first, "scope") == Undef;
    assert Lookup(first, "extraArguments") == extraArguments;
    assert Lookup(config, "scope") == Undef;
    assert Lookup(config, "extraArguments") == extraArguments;
    assert Construct(titleKey, bodyKey, extraArguments) == FromHolder(config, Undef);
  }

  /** `level` copies `scope` (there is no separate `level` input): it is
      undefined exactly when the configuration object's scope is falsy. */
  lemma LevelFollowsScope(titleKey: Value, bodyKey: Value, extraArguments: Value)
    requires CanConstruct(titleKey, bodyKey, extraArguments)
    ensures var st := Construct(titleKey, bodyKey, extraArguments);
      (st.level == Undef <==> !Truthy(Lookup(ConfigHolder(titleKey, bodyKey, extraArguments), "scope"))) &&
      (st.level != Undef ==> st.level == st.scope && Truthy(st.level))
  {
  }

  /** An `e` in the stored arguments is moved onto the exception: afterwards
      the arguments have no `e` and every other key reads as before. */
  lemma {:induction false} ArgumentsLoseE(titleKey: Value, bodyKey: Value, extraArguments: Value, key: string)
    requires CanConstruct(titleKey, bodyKey, extraArguments)
    requires var stored := Lookup(ConfigHolder(titleKey, bodyKey, extraArguments), "extraArguments");
      Truthy(stored) && Truthy(Lookup(stored, "e"))
    ensures var stored := Lookup(ConfigHolder(titleKey, bodyKey, extraArguments), "extraArguments");
      var st := Construct(titleKey, bodyKey, extraArguments);
      st.e == Lookup(stored, "e") &&
      Dereferenceable(st.arguments) &&
      Lookup(st.arguments, "e") == Undef &&
      (key != "e" ==> Lookup(st.arguments, key) == Lookup(stored, key))
  {
    var stored := Lookup(ConfigHolder(titleKey, bodyKey, extraArguments), "extraArguments");
    assert stored.Obj?;
  }
}
