/**
 The slice of JavaScript semantics the chat gateway relies on: decoded JSON
 values, truthiness, property reads with and without optional chaining,
 strict-mode property assignment, exceptions, and the decimal rendering of
 integers used inside template literals.
 */
module JsValues {

  /** An optional field of a decoded body: `None` when the field is absent. */
  datatype Option<+T> = None | Some(value: T)

  /** A JavaScript value as produced by `JSON.parse`, plus `undefined`.
      Numbers are restricted to integers. Values are the in-memory ones the
      handler computes with; the only effect of serialising the response
      envelope that the model reflects is that an array keeps no named
      properties (`Arr` has no room for them). Serialisation's other effects,
      such as dropping object fields whose value is `undefined`, are not
      modelled. */
  datatype Value =
    | Undefined
    | Null
    | Bool(b: bool)
    | Num(n: int)
    | Str(s: string)
    | Arr(items: seq<Value>)
    | Obj(fields: map<string, Value>)

  /** A thrown value: an `Error` instance (carrying its `message`) or anything else. */
  datatype Thrown = ErrorObject(message: string) | OtherValue(v: Value)

  /** How an evaluation ended: with a value, or by throwing. */
  datatype Completion<+T> = Normal(value: T) | Abrupt(thrown: Thrown)

  /** JavaScript's ToBoolean. */
  predicate Truthy(v: Value) {
    match v
    case Undefined => false
    case Null => false
    case Bool(b) => b
    case Num(n) => n != 0
    case Str(s) => s != ""
    case Arr(_) => true
    case Obj(_) => true
  }

  /** `null` or `undefined`: the values a plain property read throws on. */
  predicate Nullish(v: Value) {
    v == Undefined || v == Null
  }

  /** `a || b` */
  function Or(a: Value, b: Value): (r: Value)
    ensures Truthy(a) ==> r == a
    ensures !Truthy(a) ==> r == b
  {
    if Truthy(a) then a else b
  }

  // ---------------------------------------------------------------------
  // Decimal rendering of integers

  predicate IsDigit(c: char) {
    '0' <= c <= '9'
  }

  predicate AllDigits(s: string) {
    forall i :: 0 <= i < |s| ==> IsDigit(s[i])
  }

  function DigitChar(d: nat): (c: char)
    requires d < 10
    ensures IsDigit(c)
    ensures c as int - '0' as int == d
  {
    ('0' as int + d) as char
  }

  /** The value of a string of decimal digits, most significant first. */
  function DecimalValue(s: string): nat
    requires AllDigits(s)
  {
    if s == [] then 0
    else DecimalValue(s[..|s| - 1]) * 10 + (s[|s| - 1] as int - '0' as int)
  }

  /** `String(n)` for a natural number: shortest decimal digits, no leading zero. */
  function NatToString(n: nat): (s: string)
    ensures |s| >= 1
    ensures AllDigits(s)
    ensures n >= 10 ==> s[0] != '0'
    ensures n < 10 <==> |s| == 1
  {
    if n < 10 then [DigitChar(n)] else NatToString(n / 10) + [DigitChar(n % 10)]
  }

  /** `String(n)` for an integer. */
  function IntToString(n: int): (s: string)
    ensures n >= 0 ==> AllDigits(s)
    ensures n < 0 ==> |s| >= 2 && s[0] == '-' && AllDigits(s[1..])
  {
    if n < 0 then "-" + NatToString(-n) else NatToString(n)
  }

  /** Reading back the digits `NatToString` writes gives the number again. */
  lemma {:induction false} DecimalRoundTrip(n: nat)
    ensures DecimalValue(NatToString(n)) == n
  {
    var s := NatToString(n);
    if n >= 10 {
      DecimalRoundTrip(n / 10);
      assert s[..|s| - 1] == NatToString(n / 10);
    }
  }

  /** A canonical numeric string: digits, and no leading zero unless it is "0". */
  predicate IsCanonicalIndex(key: string) {
    |key| >= 1 && AllDigits(key) && (key[0] == '0' ==> |key| == 1)
  }

  /** The array index a property key denotes, if any. */
  function ArrayIndex(key: string): (r: Option<nat>)
    ensures r.Some? <==> IsCanonicalIndex(key)
  {
    if IsCanonicalIndex(key) then Some(DecimalValue(key)) else None
  }

  /** `xs[i]` reads the key `String(i)`, and that key denotes index `i`. */
  lemma IndexKeyRoundTrip(i: nat)
    ensures ArrayIndex(NatToString(i)) == Some(i)
  {
    DecimalRoundTrip(i);
  }

  // ---------------------------------------------------------------------
  // Property access

  function TypeOf(v: Value): string {
    match v
    case Undefined => "undefined"
    case Null => "object"
    case Bool(_) => "boolean"
    case Num(_) => "number"
    case Str(_) => "string"
    case Arr(_) => "object"
    case Obj(_) => "object"
  }

  /** `String(v)` for the primitive values that appear in error texts. */
  function PrimitiveText(v: Value): string {
    match v
    case Undefined => "undefined"
    case Null => "null"
    case Bool(b) => if b then "true" else "false"
    case Num(n) => IntToString(n)
    case Str(s) => s
    case Arr(_) => ""
    case Obj(_) => "[object Object]"
  }

  /** The TypeError a property read on `null` or `undefined` throws. */
  function CannotRead(v: Value, key: string): Thrown
    requires Nullish(v)
  {
    ErrorObject("Cannot read properties of " + (if v == Null then "null" else "undefined") + " (reading '" + key + "')")
  }

  /** Own-property lookup; prototype members are not part of the model.
      Objects are looked up by key; arrays and strings by the index the key
      denotes; booleans and numbers have no own properties. */
  function Lookup(v: Value, key: string): (r: Value)
    requires !Nullish(v)
    ensures v.Obj? && key !in v.fields ==> r == Undefined
    ensures v.Obj? && key in v.fields ==> r == v.fields[key]
    ensures v.Arr? && ArrayIndex(key).Some? && ArrayIndex(key).value < |v.items| ==> r == v.items[ArrayIndex(key).value]
    ensures v.Arr? && !(ArrayIndex(key).Some? && ArrayIndex(key).value < |v.items|) ==> r == Undefined
    ensures v.Str? && ArrayIndex(key).Some? && ArrayIndex(key).value < |v.s| ==> r == Str([v.s[ArrayIndex(key).value]])
    ensures v.Str? && !(ArrayIndex(key).Some? && ArrayIndex(key).value < |v.s|) ==> r == Undefined
    ensures v.Bool? || v.Num? ==> r == Undefined
  {
    match v
    case Obj(m) => if key in m then m[key] else Undefined
    case Arr(xs) =>
      var i := ArrayIndex(key);
      if i.Some? && i.value < |xs| then xs[i.value] else Undefined
    case Str(s) =>
      var i := ArrayIndex(key);
      if i.Some? && i.value < |s| then Str([s[i.value]]) else Undefined
    case Bool(_) => Undefined
    case Num(_) => Undefined
  }

  /** `v.key` / `v[key]`: throws a TypeError on `null` and `undefined`. */
  function GetProp(v: Value, key: string): (r: Completion<Value>)
    ensures r.Abrupt? <==> Nullish(v)
    ensures r.Abrupt? ==> r.thrown.ErrorObject?
    // V8's wording, naming the nullish value and the key
    ensures v == Null ==> r == Abrupt(ErrorObject("Cannot read properties of null (reading '" + key + "')"))
    ensures v == Undefined ==> r == Abrupt(ErrorObject("Cannot read properties of undefined (reading '" + key + "')"))
    ensures r.Normal? ==> r.value == Lookup(v, key)
  {
    if Nullish(v) then Abrupt(CannotRead(v, key)) else Normal(Lookup(v, key))
  }

  /** `v?.key` / `v?.[key]`: `undefined` on `null` and `undefined`, never throws. */
  function OptProp(v: Value, key: string): (r: Value)
    ensures Nullish(v) ==> r == Undefined
    ensures !Nullish(v) ==> Normal(r) == GetProp(v, key)
  {
    if Nullish(v) then Undefined else Lookup(v, key)
  }

  /** `v.key = x` in strict-mode code, for a key that is not an array index.
      An array keeps no named property (see `Value`). */
  function SetProp(v: Value, key: string, x: Value): (r: Completion<Value>)
    requires ArrayIndex(key).None?
    ensures v.Obj? ==> r == Normal(Obj(v.fields[key := x]))
    ensures v.Arr? ==> r == Normal(v)
    ensures r.Normal? <==> v.Obj? || v.Arr?
    ensures r.Abrupt? ==> r.thrown.ErrorObject?
  {
    match v
    case Obj(m) => Normal(Obj(m[key := x]))
    case Arr(_) => Normal(v)
    case Undefined => Abrupt(ErrorObject("Cannot set properties of undefined (setting '" + key + "')"))
    case Null => Abrupt(ErrorObject("Cannot set properties of null (setting '" + key + "')"))
    case _ => Abrupt(ErrorObject("Cannot create property '" + key + "' on " + TypeOf(v) + " '" + PrimitiveText(v) + "'"))
  }
}
