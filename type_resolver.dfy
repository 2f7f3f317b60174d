/** Type classification of src/validator/JSONSchemaValidator.js:
    `extractTypeFromObject` and `hasValidType`. */
module TypeResolver {
  import opened JsValues

  /** The tag `extractTypeFromObject` returns: one of the five names, or the
      runtime's own `[object X]` name. */
  datatype Tag = StringTag | BooleanTag | NumberTag | ArrayTag | ObjectTag | OtherTag(name: string)

  /** First match wins, in the order string, boolean, not-NaN, array, object.
      A numeric string is a string, `null` and `[]` coerce to 0 and so are
      numbers, and only undefined falls through to the runtime's tag. */
  function ExtractTypeFromObject(v: Value): (r: Tag)
    ensures r == StringTag <==> v.Str? || v == Ctor(StringCtor)
    ensures r == BooleanTag <==> v.Bool? || v == Ctor(BooleanCtor)
    ensures r == NumberTag <==> v == Ctor(NumberCtor) || (NotNaN(v) && !v.Str? && !v.Bool?)
    ensures r == ArrayTag <==> v == Ctor(ArrayCtor) || (v.Arr? && !NotNaN(v))
    ensures r.OtherTag? <==> v.Undef?
  {
    if v == Ctor(StringCtor) || v.Str? then StringTag
    else if v == Ctor(BooleanCtor) || v.Bool? then BooleanTag
    else if v == Ctor(NumberCtor) || NotNaN(v) then NumberTag
    else if v == Ctor(ArrayCtor) || v.Arr? then ArrayTag
    else if v == Ctor(ObjectCtor) || IsObjectLike(v) then ObjectTag
    else OtherTag(RuntimeTagName(v))
  }

  /** The predicate `checkTypeMap[tag]` holds for `v`. A tag with no entry in
      the map makes `.call` on undefined throw a TypeError. */
  function CheckTypeMap(tag: Tag, v: Value): (r: Result<bool>)
    ensures r.Throws? <==> tag.OtherTag?
    ensures r.Throws? ==> r.thrown == Error(RuntimeTypeError)
  {
    match tag
    case ObjectTag => Ok(IsObjectLike(v))
    case StringTag => Ok(v.Str?)
    case BooleanTag => Ok(v.Bool?)
    case NumberTag => Ok(NotNaN(v))
    case ArrayTag => Ok(v.Arr?)
    case OtherTag(_) => Throws(Error(RuntimeTypeError))
  }

  /** The four builtin constructors that, used as a value, fail the check of
      their own tag (`String instanceof String` is false, `isNaN(Number)` is
      true, `Array.isArray(Array)` is false). */
  predicate IsWrapperCtor(v: Value)
  {
    v == Ctor(StringCtor) || v == Ctor(NumberCtor) || v == Ctor(BooleanCtor) || v == Ctor(ArrayCtor)
  }

  /** `hasValidType(objectToValidate, type)`. The declared type is never read:
      the value is checked against the predicate of its own tag. So the answer
      is the same for every declared type, true for every defined value except
      the four wrapper constructors, and a TypeError for undefined. (The
      computed tag is never empty, so the `: false` arm is never taken.) */
  function HasValidType(v: Value, declaredType: Value): (r: Result<bool>)
    ensures v.Undef? ==> r == Throws(Error(RuntimeTypeError))
    ensures !v.Undef? ==> r == Ok(!IsWrapperCtor(v))
  {
    CheckTypeMap(ExtractTypeFromObject(v), v)
  }
}
