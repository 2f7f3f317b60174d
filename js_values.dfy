/** JavaScript values as the validator sees them.

    One datatype serves as the data being validated, as the schema (schemas are
    plain objects whose leaves are builtin constructors such as `String`), as
    option values and as the configuration handed to the exception constructor.
    Numbers are integers only: there is no NaN and no floating point. A plain
    object is a list of properties; a key listed twice (which no JavaScript
    object has) reads as its first occurrence. */
module JsValues {

  /** The builtin constructors that schemas use as type markers. */
  datatype Builtin = StringCtor | NumberCtor | BooleanCtor | ArrayCtor | ObjectCtor

  /** The `Error` instances the validator can throw. */
  datatype ErrorKind =
    | SchemaMissing      // new Error('Should have validationSchema')
    | ObjectMissing      // new Error('Should have objectToValidate')
    | RuntimeTypeError   // a TypeError raised by the runtime (property read on undefined, ...)

  /** The plain (non-Error) objects thrown on a validation mismatch; their
      rendered message text is abstracted into the kind. */
  datatype MismatchKind =
    | AttributeMissing(customTitle: Value, customBody: Value)
    | InvalidType
    | StrictKeyCount(schemaKeys: nat, valueKeys: nat)

  datatype Value =
    | Undef
    | Null
    | Bool(b: bool)
    | Num(n: int)
    | Str(s: string)
    | Arr(items: seq<Value>)
    | Obj(fields: seq<(string, Value)>)
    | Ctor(ctor: Builtin)
    | Error(kind: ErrorKind)
    | Mismatch(mismatch: MismatchKind)

  /** A value or the value a JavaScript expression threw instead. */
  datatype Result<T> = Ok(value: T) | Throws(thrown: Value)

  datatype Option<T> = None | Some(value: T)

  /** JavaScript truthiness (`!!v`). */
  predicate Truthy(v: Value)
  {
    match v
    case Undef => false
    case Null => false
    case Bool(b) => b
    case Num(n) => n != 0
    case Str(s) => s != ""
    case _ => true
  }

  /** `a || b` */
  function Or(a: Value, b: Value): (r: Value)
    ensures Truthy(a) ==> r == a
    ensures !Truthy(a) ==> r == b
  {
    if Truthy(a) then a else b
  }

  /** Reading a property of `v` does not throw a TypeError. */
  predicate Dereferenceable(v: Value)
  {
    !v.Undef? && !v.Null?
  }

  /** A measure that property reads make smaller; the walk terminates on it. */
  function Size(v: Value): nat
  {
    match v
    case Undef => 0
    case Arr(items) => 1 + ItemsSize(items)
    case Obj(fields) => 1 + FieldsSize(fields)
    case _ => 1
  }

  function ItemsSize(items: seq<Value>): nat
  {
    if items == [] then 0 else Size(items[0]) + ItemsSize(items[1..])
  }

  function FieldsSize(fields: seq<(string, Value)>): nat
  {
    if fields == [] then 0
    else
      assert fields[0] in fields && fields[0].1 < fields[0];
      Size(fields[0].1) + FieldsSize(fields[1..])
  }

  /** The value stored under `key` in a list of properties; the first one wins. */
  function LookupField(fields: seq<(string, Value)>, key: string): (r: Value)
    ensures Size(r) <= FieldsSize(fields)
  {
    if fields == [] then Undef
    else if fields[0].0 == key then fields[0].1
    else LookupField(fields[1..], key)
  }

  /** A key that no property carries reads as undefined. */
  lemma {:induction false} LookupAbsent(fields: seq<(string, Value)>, key: string)
    requires forall i :: 0 <= i < |fields| ==> fields[i].0 != key
    ensures LookupField(fields, key) == Undef
  {
    if fields != [] {
      LookupAbsent(fields[1..], key);
    }
  }

  /** `v[key]` for the keys the validator reads (`optional`, the prefixed
      directives, and the exception's configuration keys). Only plain objects
      own such properties; on every other receiver the read yields undefined. */
  function Lookup(v: Value, key: string): (r: Value)
    requires Dereferenceable(v)
    ensures Size(r) < Size(v)
  {
    match v
    case Obj(fields) => LookupField(fields, key)
    case _ => Undef
  }

  /** The properties with `key` taken out. */
  function RemoveField(fields: seq<(string, Value)>, key: string): (r: seq<(string, Value)>)
    ensures LookupField(r, key) == Undef
    ensures forall other :: other != key ==> LookupField(r, other) == LookupField(fields, other)
    ensures |r| <= |fields|
  {
    if fields == [] then []
    else if fields[0].0 == key then RemoveField(fields[1..], key)
    else [fields[0]] + RemoveField(fields[1..], key)
  }

  /** `delete v[key]` */
  function RemoveKey(v: Value, key: string): Value
  {
    match v
    case Obj(fields) => Obj(RemoveField(fields, key))
    case _ => v
  }

  /** The properties after `key` is assigned `x`: replaced in place when present,
      appended otherwise. */
  function PutField(fields: seq<(string, Value)>, key: string, x: Value): (r: seq<(string, Value)>)
    ensures LookupField(r, key) == x
    ensures forall other :: other != key ==> LookupField(r, other) == LookupField(fields, other)
  {
    if fields == [] then [(key, x)]
    else if fields[0].0 == key then [(key, x)] + fields[1..]
    else [fields[0]] + PutField(fields[1..], key, x)
  }

  /** `v[key] = x` on a plain object. */
  function Put(v: Value, key: string, x: Value): (r: Value)
    requires v.Obj?
    ensures r.Obj? && Lookup(r, key) == x
    ensures forall other :: other != key ==> Lookup(r, other) == Lookup(v, other)
  {
    Obj(PutField(v.fields, key, x))
  }

  /** The decimal digit for `d`. */
  function DigitChar(d: nat): (r: char)
    requires d < 10
    ensures r as int == '0' as int + d
  {
    "0123456789"[d]
  }

  /** The decimal text of `n`, as `${n}` renders an index. */
  function NatToString(n: nat): (r: string)
    ensures |r| > 0
    ensures n >= 10 ==> |r| > 1
  {
    if n < 10 then [DigitChar(n)] else NatToString(n / 10) + [DigitChar(n % 10)]
  }

  /** Different indices render as different texts. */
  lemma {:induction false} NatToStringInjective(m: nat, n: nat)
    ensures NatToString(m) == NatToString(n) ==> m == n
    decreases m
  {
    if NatToString(m) == NatToString(n) && m >= 10 && n >= 10 {
      var s := NatToString(m);
      assert s[..|s| - 1] == NatToString(m / 10);
      assert s[..|s| - 1] == NatToString(n / 10);
      assert s[|s| - 1] == DigitChar(m % 10) == DigitChar(n % 10);
      NatToStringInjective(m / 10, n / 10);
    }
  }

  /** `Object.keys(v)`; defined where it does not throw. */
  function OwnKeys(v: Value): seq<string>
    requires Dereferenceable(v)
  {
    match v
    case Obj(fields) => seq(|fields|, i requires 0 <= i < |fields| => fields[i].0)
    case Arr(items) => seq(|items|, i requires 0 <= i < |items| => NatToString(i))
    case Str(s) => seq(|s|, i requires 0 <= i < |s| => NatToString(i))
    case Mismatch(_) => ["titlekey", "bodyKey"]
    case _ => []
  }

  /** `key.indexOf(prefix) === 0` */
  predicate StartsWith(key: string, prefix: string)
  {
    |prefix| <= |key| && key[..|prefix|] == prefix
  }

  /** The number of keys that do not start with `prefix`; it is zero exactly
      when every key does. */
  function CountUnprefixed(keys: seq<string>, prefix: string): (r: nat)
    ensures r <= |keys|
    ensures r == 0 <==> forall i :: 0 <= i < |keys| ==> StartsWith(keys[i], prefix)
  {
    if keys == [] then 0
    else (if StartsWith(keys[0], prefix) then 0 else 1) + CountUnprefixed(keys[1..], prefix)
  }

  // ---- numeric coercion (`Number`, `isNaN`, `j < v.length`) ----

  /** The characters `Number` trims: WhiteSpace (tab, vertical tab, form
      feed, no-break space, the byte order mark and every space separator)
      and LineTerminator (line feed, carriage return, U+2028, U+2029). */
  predicate IsJsSpace(c: char)
  {
    c == '\t' || c == '\n' || c == '\U{000B}' || c == '\U{000C}' || c == '\r' ||
    c == ' ' || c == '\U{00A0}' || c == '\U{1680}' || ('\U{2000}' <= c <= '\U{200A}') ||
    c == '\U{2028}' || c == '\U{2029}' || c == '\U{202F}' || c == '\U{205F}' ||
    c == '\U{3000}' || c == '\U{FEFF}'
  }

  function TrimStart(s: string): string
  {
    if s != [] && IsJsSpace(s[0]) then TrimStart(s[1..]) else s
  }

  function TrimEnd(s: string): string
  {
    if s != [] && IsJsSpace(s[|s| - 1]) then TrimEnd(s[..|s| - 1]) else s
  }

  predicate AllDigits(s: string)
  {
    forall i :: 0 <= i < |s| ==> '0' <= s[i] <= '9'
  }

  /** The value of a run of decimal digits. */
  function DigitsValue(s: string): nat
    requires AllDigits(s)
  {
    if s == [] then 0
    else
      assert AllDigits(s[..|s| - 1]) by { assert forall i :: 0 <= i < |s| - 1 ==> s[..|s| - 1][i] == s[i]; }
      10 * DigitsValue(s[..|s| - 1]) + (s[|s| - 1] as int - '0' as int)
  }

  /** `Number(s)`, restricted to integer literals (`None` is NaN): after
      trimming, the empty text is 0, and otherwise an optional sign must be
      followed by decimal digits. */
  function StringNumber(s: string): Option<int>
  {
    var t := TrimEnd(TrimStart(s));
    if t == "" then Some(0)
    else if t[0] == '+' || t[0] == '-' then
      if |t| > 1 && AllDigits(t[1..])
      then Some(if t[0] == '-' then -(DigitsValue(t[1..]) as int) else DigitsValue(t[1..]))
      else None
    else if AllDigits(t) then Some(DigitsValue(t))
    else None
  }

  /** `Number(v)` (`None` is NaN). An array converts through its comma-joined
      text, so only an empty array or a one-element array whose element's
      text is numeric is a number. Functions, errors and plain objects render
      as text that is not numeric. */
  function ToNumber(v: Value): Option<int>
  {
    match v
    case Undef => None
    case Null => Some(0)
    case Bool(b) => Some(if b then 1 else 0)
    case Num(n) => Some(n)
    case Str(s) => StringNumber(s)
    case Arr(items) => if |items| == 0 then Some(0) else if |items| == 1 then JoinedNumber(items[0]) else None
    case _ => None
  }

  /** `Number` of the text `Array.prototype.join` gives an element (null and
      undefined join as the empty string, booleans as `true` or `false`). */
  function JoinedNumber(v: Value): Option<int>
  {
    match v
    case Undef => Some(0)
    case Null => Some(0)
    case Num(n) => Some(n)
    case Str(s) => StringNumber(s)
    case Arr(items) => if |items| == 0 then Some(0) else if |items| == 1 then JoinedNumber(items[0]) else None
    case _ => None
  }

  /** `!isNaN(v)` */
  predicate NotNaN(v: Value)
  {
    ToNumber(v).Some?
  }

  /** How many times `for (let j = 0; j < len; j++)` runs: `j < len` compares
      with `len` converted to a number, and a NaN bound runs no iteration. */
  function LoopBound(len: Value): nat
  {
    match ToNumber(len)
    case Some(n) => if n > 0 then n else 0
    case None => 0
  }

  /** `v.length` read by the child loop, and `v[j]` for each index below it:
      the elements of an array; the one-character strings of a string; for a
      builtin constructor (a function, whose `length` is 1) the single
      undefined `v[0]`; and for a plain object its own properties `"0"`,
      `"1"`, ... up to the bound its `length` property gives. Numbers,
      booleans and errors have no `length`, so the loop runs no iteration. */
  function Elements(v: Value): (r: seq<Value>)
    ensures v.Arr? ==> r == v.items
    ensures v.Str? ==> |r| == |v.s| && forall j :: 0 <= j < |v.s| ==> r[j] == Str([v.s[j]])
    ensures v.Obj? ==> |r| == LoopBound(Lookup(v, "length"))
    ensures v.Obj? ==> forall j :: 0 <= j < |r| ==> r[j] == Lookup(v, NatToString(j))
  {
    match v
    case Arr(items) => items
    case Str(s) => seq(|s|, j requires 0 <= j < |s| => Str([s[j]]))
    case Obj(fields) => seq(LoopBound(LookupField(fields, "length")), j requires 0 <= j => LookupField(fields, NatToString(j)))
    case Ctor(_) => [Undef]
    case _ => []
  }

  /** `v instanceof Object || typeof v === 'object'`: arrays, objects,
      functions, errors and (through `typeof`) null. */
  predicate IsObjectLike(v: Value)
  {
    v.Null? || v.Arr? || v.Obj? || v.Ctor? || v.Error? || v.Mismatch?
  }

  /** The name inside `Object.prototype.toString`'s `[object X]`. */
  function RuntimeTagName(v: Value): string
  {
    match v
    case Undef => "Undefined"
    case Null => "Null"
    case Bool(_) => "Boolean"
    case Num(_) => "Number"
    case Str(_) => "String"
    case Arr(_) => "Array"
    case Ctor(_) => "Function"
    case Error(_) => "Error"
    case _ => "Object"
  }
}
