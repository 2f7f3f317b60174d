# JSON_Validator in Dafny

A model of the validator core of JSON_Validator: the `JSONObjectValidator`
class (`src/validator/JSONSchemaValidator.js`) and the exception it raises,
`JSONSchemaValidationException` (`src/exception/JSONSchemaValidationException.js`).

A validator holds the value to check, a schema and an options object. Its
`validate()` method does four things in order:

1. It checks that the schema is present and has keys.
2. It checks that the root value is truthy.
3. It re-initialises the options.
4. It walks the value with `doValidate`.

For each node the walk runs the presence check, the type check and the
`$strict` key-count check, and then walks every element of an array-like
value against the `$childsDef` sub-schema. The first throw is caught. With
`throwsException` set, `validate()` turns it into a raised exception built by
the default `buildExceptionFor`; otherwise it returns `false`.

The model follows the code as written, including where the code departs from
the schema comment at the head of the validator file and from the behaviour
the project describes:

- `hasValidType` never reads the declared type. It checks the value against
  the predicate of the value's own tag. So every defined value passes, except
  the `String`, `Number`, `Boolean` and `Array` constructors used as values.
  `undefined` ends in a TypeError.
- The array test that guards the child loop answers exactly as the type check
  before it did. So the object-property branch (lines 181-194) is never taken,
  and the properties of objects are never walked by name. An array of objects
  where one object lacks a declared `name`, and a nested object that lacks a
  declared `zip`, both pass. So does a number checked against a string
  declaration. A plain object is looped over only through its own `length`
  property: with `length: 1`, its property `"0"` is walked against
  `$childsDef`.
- `initOptions()` forces `throwsException` to true. A caller's `false`
  therefore only affects failures that happen before the walk starts.
- The optionality key is read as `optional`, not `$optional`.
- The exception's `level` falls back to `JSONSchemaValidationException.ERROR`.
  That property exists only on the prototype, so without a scope the level is
  undefined.
- A numeric string is classified as a string before the not-NaN test is ever
  tried.
- A non-empty string anywhere the walk reaches makes the walk fail. Strings
  are walked character by character, and the chain of `$childsDef` schemas
  runs out.

Modules:

- `JsValues` (`js_values.dfy`): JavaScript values, truthiness, property reads
  and writes, and numeric coercion.
- `TypeResolver` (`type_resolver.dfy`): `extractTypeFromObject` and
  `hasValidType`.
- `SchemaWalk` (`schema_walk.dfy`): `doValidateSchema`, and the meaning of
  `doValidate` as the function `Walk`.
- `ValidationException` (`validation_exception.dfy`): the exception class,
  which is imperative and is proved against the function `Construct`.
- `Validator` (`validator.dfy`): the validator class with its options and
  context objects. `Validate` is proved against `Validation`, and
  `DoValidate` and its child loop `DoValidateItems` against `Walk` and
  `WalkItems`.
- `ValidatorProperties` (`validator_properties.dfy`): what the walk and
  `validate` promise, as lemmas.
- `ValidatorExamples` (`validator_examples.dfy`): the unit-test scenarios and
  the behaviours above, worked out on concrete values.

## Model

| member | source | states |
|---|---|---|
| `TypeResolver.ExtractTypeFromObject` | src/validator/JSONSchemaValidator.js:93-115 | each tag in terms of the value, in both directions: string for strings and `String`; boolean for booleans and `Boolean`; number for `Number` and every other not-NaN value (null, `[]`, one-element numeric arrays); array for the other arrays and `Array`; the runtime's own name only for undefined |
| `TypeResolver.CheckTypeMap` | src/validator/JSONSchemaValidator.js:118-136 | only a tag missing from the map (the runtime's own name) makes the lookup throw, and then with a TypeError |
| `TypeResolver.HasValidType` | src/validator/JSONSchemaValidator.js:117-137 | the result does not depend on the declared type: a TypeError for undefined, and otherwise true exactly when the value is not one of the four wrapper constructors |
| `SchemaWalk.DoValidateSchema` | src/validator/JSONSchemaValidator.js:86-91 | a falsy schema, or a truthy one with no own keys (`{}`, `[]`, a number, a constructor marker), throws the schema `Error`; a non-empty object schema passes; a passing schema is truthy and can be read |
| `Validator.Defaulted` | src/validator/JSONSchemaValidator.js:47-52 | after defaulting, `throwsException` is always true; an empty prefix becomes `$`; a falsy title or body becomes `'Validation Error'`; any value already set and truthy is kept |
| `Validator.Options.constructor` | src/validator/JSONSchemaValidator.js:48 | the new options object holds exactly the given fields; the validator builds the empty `{}` with it |
| `Validator.Context.constructor` | src/validator/JSONSchemaValidator.js:64 | the context starts with an empty path and null parents |
| `Validator.JSONObjectValidator.constructor` | src/validator/JSONSchemaValidator.js:41-45 | falsy value and schema are stored as null; the given options object is kept (aliased) or a fresh one is made; the options are then defaulted |
| `Validator.JSONObjectValidator.InitOptions` | src/validator/JSONSchemaValidator.js:47-52 | updates the held options object in place to its defaulted state |
| `Validator.JSONObjectValidator.BuildExceptionFor` | src/validator/JSONSchemaValidator.js:56-61 | builds a fresh exception from the arguments, with a missing title or body filled in from the options |
| `Validator.JSONObjectValidator.Validate` | src/validator/JSONSchemaValidator.js:63-84 | the outcome is the verdict of `Validation` for the options held on entry; the options are left unchanged when the failure comes before `initOptions`, and are defaulted otherwise |
| `Validator.JSONObjectValidator.DoValidate` | src/validator/JSONSchemaValidator.js:139-196 | the throw, together with the context object as the throwing call left it, is exactly what `Walk` gives from the context's path and parents on entry |
| `Validator.JSONObjectValidator.DoValidateItems` | src/validator/JSONSchemaValidator.js:174-180 | the child loop over the elements of the value, from index 0, throws and leaves the context object exactly as `WalkItems` gives; the context is updated in place before each child |
| `ValidationException.ConfigHolder` | src/exception/JSONSchemaValidationException.js:3-13 | the configuration object the constructor reads can always be read |
| `ValidationException.CapturedE` | src/exception/JSONSchemaValidationException.js:5-9 | only the one-argument form captures an `e`, and then the configuration object's `e` when truthy; a captured `e` is never falsy |
| `ValidationException.FromHolder` | src/exception/JSONSchemaValidationException.js:15-27 | scope is null exactly when level is undefined; the stored arguments are absent or truthy and never keep a truthy `e`; an `e` other than the captured one is the truthy `e` of the stored arguments |
| `ValidationException.Construct` | src/exception/JSONSchemaValidationException.js:1-28 | without a scope there is no level; the stored arguments never keep a truthy `e`; the captured `e` is undefined or truthy |
| `ValidationException.JSONSchemaValidationException.constructor` | src/exception/JSONSchemaValidationException.js:1-28 | the new exception's fields equal `Construct` of the three arguments |
| `ValidationException.JSONSchemaValidationException.ReadConfig` | src/exception/JSONSchemaValidationException.js:15-27 | the fields read from the configuration object, with the `e` captured before, equal `FromHolder` |
| `ValidationException.JSONSchemaValidationException.IsUnexpected` | src/exception/JSONSchemaValidationException.js:30-32 | true exactly when the captured cause is an `Error` |
| `ValidationException.OneArgFormSelectsConfig` | src/exception/JSONSchemaValidationException.js:5-17 | in the one-argument form, title and body come from the configuration object; a truthy scope is kept as scope and level, a falsy one gives null scope and undefined level; a falsy `extraArguments` stores nothing, a truthy one without `e` is stored as it is; the object's `e` is kept unless the stored arguments carry one |
| `ValidationException.ThreeArgFormUsesPositionals` | src/exception/JSONSchemaValidationException.js:10-21 | in the three-argument form the positional title and body win; scope is null and level undefined; the arguments are stored when truthy and carry no `e` |
| `ValidationException.LevelFollowsScope` | src/exception/JSONSchemaValidationException.js:17-18 | the level is undefined exactly when the configuration object's scope is falsy; otherwise level equals the truthy scope |
| `ValidationException.ArgumentsLoseE` | src/exception/JSONSchemaValidationException.js:20-27 | an `e` in the stored arguments moves onto the exception; the arguments afterwards have no `e` and every other key reads as before |
| `ValidatorProperties.ContextValueLacksE` | src/validator/JSONSchemaValidator.js:64 | the context object has no `e` key |
| `SchemaWalk.ContextValue` | src/validator/JSONSchemaValidator.js:64 | the context object, as stored in the exception, is a plain object whose `actualPath` reads back as the path string |
| `SchemaWalk.ContextValueKeys` | src/validator/JSONSchemaValidator.js:64 | its own keys are the three properties of the literal `validate` creates, followed by `validatedObject` and `validatedSchema` only once `doValidate` has set them (lines 140-141) |
| `ValidatorProperties.StoredContextKeys` | src/validator/JSONSchemaValidator.js:64-78 | the raised exception's `arguments` have exactly the three starting properties when the schema or root check failed, and the five properties when the walk failed |
| `ValidatorProperties.CaughtKeepsContext` | src/validator/JSONSchemaValidator.js:78 | the catch block stores the context object, as it stands when the throw is caught, as the exception's `arguments` |
| `Validator.FilledArguments` | src/validator/JSONSchemaValidator.js:57-58 | a falsy title or body in the argument object is replaced by the options' default, a truthy one is kept, and every other property reads as before |
| `Validator.ExceptionFor` | src/validator/JSONSchemaValidator.js:56-61 | the built exception's title and body are the argument object's own when truthy and the options' defaults otherwise; its scope is the argument object's scope, or null |
| `ValidatorProperties.CaughtArgumentsRead` | src/validator/JSONSchemaValidator.js:78 | the object built in the catch block reads the throw as `e`, the context as `extraArguments`, and has no title, body or scope |
| `Validator.CaughtArguments` | src/validator/JSONSchemaValidator.js:78 | the object the catch block hands to the builder has exactly the keys `e` and `extraArguments` |
| `ValidatorProperties.DefaultBuilderConfig` | src/validator/JSONSchemaValidator.js:56-61 | the object handed to the exception holds the options' title and body, the throw as `e`, the context as `extraArguments`, and no scope |
| `ValidatorProperties.CaughtBuildsDefaultException` | src/validator/JSONSchemaValidator.js:76-81 | a caught throw becomes an exception with the options' title and body, scope null, level undefined, the context as arguments and the throw as `e`; or `false` when exceptions are off |
| `ValidatorProperties.SchemaCheckedFirst` | src/validator/JSONSchemaValidator.js:66-68 | a falsy or key-less schema (`null`, `{}`, `[]`, a number, a constructor marker) raises the schema `Error`, which is unexpected, whatever the value; with exceptions off, `validate` returns false |
| `ValidatorProperties.FalsyRootRejected` | src/validator/JSONSchemaValidator.js:69-71 | with a well-formed schema, a falsy root raises the object `Error` with the starting context, and never passes |
| `Validator.Validation` | src/validator/JSONSchemaValidator.js:63-84 | returning true means the schema and the root value were present; returning false means exceptions were off and the failure came before `initOptions` |
| `Validator.Caught` | src/validator/JSONSchemaValidator.js:76-81 | the catch block raises exactly when `throwsException` is set, and otherwise returns false |
| `ValidatorProperties.ValidateResult` | src/validator/JSONSchemaValidator.js:63-84 | `validate` returns true exactly when schema and root are present and the walk passes; it returns false exactly when exceptions are off and the failure comes before `initOptions` |
| `ValidatorProperties.RaisedException` | src/validator/JSONSchemaValidator.js:73-79 | a raised exception carries the default title and body in force when the throw was caught, and no scope or level; `isUnexpected()` is false exactly for the validator's mismatch literals, and a missing schema or root value is always unexpected |
| `ValidatorProperties.CaughtCarriesDefaults` | src/validator/JSONSchemaValidator.js:76-81 | an `Error` or mismatch caught under the caller's options or their defaulted form raises an exception with that form's title and body (a truthy caller title kept), no scope or level, and the throw as `e`; it is unexpected exactly when the throw is not a mismatch |
| `SchemaWalk.Walk` | src/validator/JSONSchemaValidator.js:139-196 | every throw of `doValidate`, from its own checks, its child loop or a runtime TypeError, is an `Error` or one of the validator's mismatch literals, so the catch always sees a truthy cause; the context it leaves has the validated properties set |
| `SchemaWalk.WalkItems` | src/validator/JSONSchemaValidator.js:174-180 | the same for the remaining iterations of the child loop |
| `SchemaWalk.StrictCheck` | src/validator/JSONSchemaValidator.js:162-167 | it fails only under a literal `true` directive, with an `Error` or a mismatch; a mismatch carries the schema's unprefixed key count and the value's key count, which differ; for an object value and an object schema it passes exactly when the two counts agree |
| `SchemaWalk.DomainKeyCount` | src/validator/JSONSchemaValidator.js:145 | the count of schema keys not starting with the prefix is at most the key count, and zero exactly when every key carries the prefix |
| `SchemaWalk.SchemaDefinedType` | src/validator/JSONSchemaValidator.js:144 | the schema's own `type` directive when truthy, otherwise the schema itself |
| `ValidatorProperties.SchemaDefinedTypeInert` | src/validator/JSONSchemaValidator.js:144-155 | the type check at line 155 answers the same for the schema's declared type as for no declared type at all |
| `ValidatorProperties.WalkStep` | src/validator/JSONSchemaValidator.js:139-180 | a node either passes all its checks and continues as the child loop, or throws a truthy object with the context naming this node; a type mismatch is thrown only for a wrapper constructor |
| `ValidatorProperties.AbsentValue` | src/validator/JSONSchemaValidator.js:148-153 | a falsy value without a truthy `optional` throws the missing-attribute object with the schema's custom title and body; with `optional`, undefined and null still end in a TypeError |
| `ValidatorProperties.InvalidTypeOnlyForWrapperCtors` | src/validator/JSONSchemaValidator.js:155-160 | anywhere in the walk, the type-mismatch throw names a node whose value is a wrapper constructor |
| `ValidatorProperties.InvalidTypeOnlyForWrapperCtorsItems` | src/validator/JSONSchemaValidator.js:174-180 | the same for the child loop |
| `ValidatorProperties.StrictComparesCounts` | src/validator/JSONSchemaValidator.js:162-167 | under `$strict: true` a present value fails exactly when its key count differs from the schema's unprefixed key count, and carries both counts; otherwise the node goes on to its child loop |
| `ValidatorProperties.ObjectsAreLeaves` | src/validator/JSONSchemaValidator.js:171-195 | an object value without a positive numeric `length` passes its node exactly when the strict check lets it through, whatever its properties hold |
| `ValidatorProperties.LengthKeyedObjectsLooped` | src/validator/JSONSchemaValidator.js:171-179 | an object that passes the strict check continues as the child loop over as many of its properties `"0"`, `"1"`, ... as its `length`, read as a number, allows |
| `ValidatorProperties.MissingChildSchema` | src/validator/JSONSchemaValidator.js:171-179 | a non-empty array or string under a schema without `$childsDef` fails with a TypeError at path `.0`, with the element as value and the container as parent |
| `ValidatorProperties.NonEmptyStringsFail` | src/validator/JSONSchemaValidator.js:171-179 | a non-empty string never passes the walk, whatever the schema |
| `ValidatorProperties.ChildrenAllPass` | src/validator/JSONSchemaValidator.js:174-180 | the child loop passes exactly when every remaining element passes its own walk |
| `ValidatorProperties.FirstFailureWins` | src/validator/JSONSchemaValidator.js:174-180 | a failing loop reports the failure of the first failing element; every element before it passed |
| `ValidatorProperties.ChildPathExtends` | src/validator/JSONSchemaValidator.js:177 | a child path strictly extends its parent's path |
| `SchemaWalk.ChildPath` | src/validator/JSONSchemaValidator.js:177 | a child path is the parent's path, then a dot, then the index in decimal |
| `JsValues.NatToStringInjective` | src/validator/JSONSchemaValidator.js:177 | different indices render as different decimal texts |
| `ValidatorProperties.ChildPathsDistinct` | src/validator/JSONSchemaValidator.js:177 | two children of one node get the same path exactly when they have the same index, so a failure's path tells which element failed |
| `ValidatorProperties.FailurePathNamesNode` | src/validator/JSONSchemaValidator.js:139-180 | the failing context's path extends the starting path; it equals the starting path only when the starting node itself failed, and then the context names that node |
| `ValidatorProperties.FailurePathNamesNodeItems` | src/validator/JSONSchemaValidator.js:174-180 | a failure in the child loop has a path strictly longer than the container's |
| `ValidatorExamples.MatchingDataReturnsTrue` | test/unit/spec/JSONObjectValidator.unit.js:59-73 | `{data: 'some value'}` against `{data: String}` returns true |
| `ValidatorExamples.EmptySchemaRaisesDefaultTitle` | test/unit/spec/JSONObjectValidator.unit.js:92-99 | an empty schema raises the unexpected schema error titled `Validation Error` |
| `ValidatorExamples.StrictSchemaCounts` | test/unit/spec/JSONObjectValidator.unit.js:102 | `{validAttribute: String, $strict: true}` has its strict flag set and one domain key |
| `ValidatorExamples.StrictEmptyObjectFails` | test/unit/spec/JSONObjectValidator.unit.js:101-108 | the empty object fails that schema with key counts 1 and 0 and the default title |
| `ValidatorExamples.StrictExtraKeyFails` | test/unit/spec/JSONObjectValidator.unit.js:110-114 | `{attribute, $strict}` fails it with key counts 1 and 2 |
| `ValidatorExamples.ValidAttributePasses` | test/unit/spec/JSONObjectValidator.unit.js:117-123 | `{validAttribute: 'value'}` passes `{validAttribute: String}` |
| `ValidatorExamples.SubstitutedSchemaCounts` | src/validator/JSONSchemaValidator.js:145 | `{a: String, b: String, $strict: true}` has its strict flag set and two domain keys |
| `ValidatorExamples.StrictMissesSubstitution` | src/validator/JSONSchemaValidator.js:162 | `{a, c}` passes a strict schema that declares `{a, b}` |
| `ValidatorExamples.ArrayOfObjectsWalk` | src/validator/JSONSchemaValidator.js:171-180 | the walk of an array of two objects, one lacking `name`, passes |
| `ValidatorExamples.ArrayOfObjectsPasses` | src/validator/JSONSchemaValidator.js:63-84 | so `validate` returns true for it |
| `ValidatorExamples.NestedMissingLeafPasses` | src/validator/JSONSchemaValidator.js:181-194 | a nested object that lacks a declared `zip` passes |
| `ValidatorExamples.DeclaredTypeIgnored` | src/validator/JSONSchemaValidator.js:155 | a number passes a node declared `$type: 'string'` |
| `ValidatorExamples.RootStringFails` | src/validator/JSONSchemaValidator.js:73-78 | a root string fails with a TypeError, and is raised even though the caller switched exceptions off |
| `ValidatorExamples.LengthKeyedObjectWalked` | src/validator/JSONSchemaValidator.js:171-179 | `{length: 1}` under a schema with `$childsDef: {b: String}` fails at `.0`, where its missing property `"0"` is an absent attribute |
| `ValidatorExamples.LengthKeyedChildMissing` | src/validator/JSONSchemaValidator.js:148-153 | the undefined element `"0"` of `{length: 1}` under `{b: String}` throws the missing-attribute object with no custom title or body |
| `ValidatorExamples.ClassificationQuirks` | src/validator/JSONSchemaValidator.js:93-115 | `"42"` is a string; `null`, `[]` and `[5]` are numbers; `[1, 2]` is an array; `{}` is an object; undefined gets the runtime's name |
| `ValidatorExamples.PaddedNumericText` | src/validator/JSONSchemaValidator.js:101-103 | `["\u00A05"]` is a number, since `Number` trims the no-break space; `["5x"]` is NaN and so an array |

## Left out

- Message text: the rendered titles and bodies of the thrown objects are not modelled. That covers the JSON rendering of the parent schema, the path in the missing-attribute title, and the key lists of the strict message. The thrown objects are kept as `Mismatch` kinds. `toString` (`JSON.stringify(this)`) is not modelled.
- A custom `exceptionBuilder` option is not modelled. It is arbitrary caller code. The model always uses the default `buildExceptionFor`, and line 53 (storing the builder on the options) has no effect in the model.
- The options object is modelled as an `Options` instance or none. A truthy non-object `options` argument is not modelled. `throwsException` is kept as its truthiness, and `customAttributesPrefix` is kept as a string, where the empty string stands for falsy.
- The directives in the validator file's head comment are documentation only, and the code never reads them: `$exceptionMessage`, `$exceptionBuilder`, `$maxLength`, `$minLength`, `$in`, `$contains`.
- The object-property loop (lines 181-194) is not modelled as code. `HasValidType` proves the branch cannot be reached: an object is walked only through the array loop, by its numeric `length`, never by property name.
- Numbers are integers: NaN, the infinities and fractions are not modelled. `isNaN` on strings accepts only trimmed integer literals with an optional sign. Hexadecimal, exponent and `Infinity` spellings are not modelled.
- Boxed primitives (`new String(...)`, `new Boolean(...)`, `new Number(...)`), functions other than the five builtin constructors, and objects with their own `valueOf` or `toString` are not modelled.
- Property reads on non-plain objects read as undefined. That covers inherited properties, properties of arrays, strings and functions other than indices, and the properties of `Error` and of the thrown literals. The validator reads only its directive keys and the exception's configuration keys, so this is exact except for a schema that uses such a value as a node.
- The shared context object is modelled as its five fields and whether `doValidate` has added the two validated ones, and the one `Context` instance is updated in place through the whole walk. Only its state at the moment of a throw is observable, so its state after a walk that passes is not stated.
- `ValidationException.Construct`: the JSON round-trip copy of `extraArguments` (line 3) is the identity. The source's copy drops functions and undefined members and turns `Error` instances into plain objects. Only the three-argument form sees that copy; `validate` never uses that form.
- `ValidationException.JSONSchemaValidationException.constructor`: it requires a readable configuration object in the one-argument form. The source throws a TypeError when it reads a property of null or undefined there, and that throw is not modelled.
- `Validator.JSONObjectValidator.constructor`: the unit test at lines 21-31 expects an options object with a `defaultExceptionMessage` key that the code never sets. The model follows the code.
- Strings are sequences of Unicode characters. The source's `.length`, `Object.keys` and `s[j]` on a string count UTF-16 code units, so a string holding a character outside the Basic Multilingual Plane (an emoji, say) has a different key count, and different elements, in the model than in the source. A lone surrogate half cannot be represented.
- Plain objects are lists of properties. A key listed twice, which no JavaScript object has, reads as its first occurrence and is counted twice by `Object.keys`; the model does not rule such values out.
- `Validator.JSONObjectValidator.BuildExceptionFor`: the defaulted `titleKey` and `bodyKey` (lines 57-58) are written into the caller's own argument object in place before it is handed on. Values have no identity in the model, so the caller's object is not shown to change; only the exception built from it is described. `validate` passes a fresh literal (line 78), so nothing it can observe depends on this.
- `ValidationException.JSONSchemaValidationException.constructor`: `delete this.arguments.e` (line 25) removes `e` from the very object the caller passed as `extraArguments` in the one-argument form. Values have no identity in the model, so this change to the caller's object is not captured; only the exception's own `arguments` lose `e`. In `validate` the stored arguments are the context object, which has no `e`, so nothing is deleted there.
- Deep or cyclic values: the walk follows the schema, which is a finite value in the model, so recursion depth and cycles are not modelled.
