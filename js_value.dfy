/**
  The JavaScript values a request body can hold once it has been decoded (what JSON can
  express, plus `undefined` for an absent body), and the few language operations the
  checkout handler applies to them: truthiness, property reads and conversion to a
  primitive, as a template literal, `+` and `*` apply it.
 */
module JsValue {
  import opened Wrappers
  import JsString

  /** A number is held as a finite `real`. JSON text can also decode to -0 and to the
      infinities (`-0`, `1e400`); those are not represented. An object is its own
      properties; decoded JSON never holds functions, getters or a prototype other than
      `Object.prototype`. A string is a sequence of Unicode scalar values: a JSON string
      holding an unpaired surrogate escape such as `\ud800` is not represented; the handler
      only tests such strings for emptiness and concatenates them. */
  datatype Value =
    | Undefined
    | Null
    | Bool(b: bool)
    | Num(n: real)
    | Str(s: string)
    | Arr(elems: seq<Value>)
    | Obj(props: map<string, Value>)

  const EmptyObject: Value := Obj(map[])

  /** The values ToBoolean maps to false (section 7.1.2 of ECMA-262). */
  const FalsyValues: set<Value> := {Undefined, Null, Bool(false), Num(0.0), Str("")}

  /** `Boolean(v)`: every value is truthy except the five falsy ones; arrays and objects
      are truthy even when empty. */
  predicate Truthy(v: Value): (b: bool)
    ensures b <==> v !in FalsyValues
  {
    match v
    case Undefined => false
    case Null => false
    case Bool(b) => b
    case Num(n) => n != 0.0
    case Str(s) => s != []
    case Arr(_) => true
    case Obj(_) => true
  }

  predicate Nullish(v: Value) {
    v.Undefined? || v.Null?
  }

  /** The property names the handler reads. None of them is defined by the prototype of an
      object, string, number, boolean or array, so where `v` has no own property of that
      name, it reads as undefined. */
  const HandlerKeys: set<string> := {"cart", "price", "name", "option", "qty"}

  /** Reading `v[key]`: a TypeError when `v` is null or undefined. */
  datatype Read = Found(value: Value) | NullishBase(baseIsNull: bool)

  function GetProperty(v: Value, key: string): (r: Read)
    requires key in HandlerKeys
    ensures r.NullishBase? <==> Nullish(v)
    ensures r.NullishBase? ==> r.baseIsNull == v.Null?
    ensures r.Found? && r.value != Undefined ==> v.Obj? && key in v.props && v.props[key] == r.value
    ensures v.Obj? ==> r == Found(if key in v.props then v.props[key] else Undefined)
    ensures !Nullish(v) && !v.Obj? ==> r == Found(Undefined)
  {
    match v
    case Undefined => NullishBase(false)
    case Null => NullishBase(true)
    case Obj(props) => Found(if key in props then props[key] else Undefined)
    case _ => Found(Undefined)
  }

  /** V8's message for the TypeError of a failed conversion to a primitive. */
  const ConvertMessage := "Cannot convert object to primitive value"

  /** Whether converting `v` to a primitive succeeds. An object is converted by its
      `toString` and `valueOf` methods (section 7.1.1.1 of ECMA-262, OrdinaryToPrimitive).
      An own property named `toString` shadows the inherited method and, holding a JSON
      value, is not callable; the inherited `valueOf` returns the object itself, so the
      conversion throws. An own `valueOf` is skipped and the inherited `toString` answers.
      An array converts through `join`, which converts each element that is not null or
      undefined. */
  predicate Convertible(v: Value) {
    match v
    case Obj(props) => "toString" !in props
    case Arr(es) => forall i :: 0 <= i < |es| ==> Convertible(es[i])
    case _ => true
  }

  /** `String(v)`, as a template literal or `+` with a string applies it. Number formatting
      is the engine's Number::toString and is passed in as `numeral`. Arrays print as their
      elements joined with commas, null and undefined elements printing as empty; objects
      print as "[object Object]". The conversion throws where `Convertible` says it does. */
  function ToStr(v: Value, numeral: real -> string): (r: Result<string, string>)
    ensures r.Ok? <==> Convertible(v)
    ensures r.Err? ==> r.error == ConvertMessage
    ensures v == Undefined ==> r == Ok("undefined")
    ensures v == Null ==> r == Ok("null")
    ensures v.Bool? ==> r == Ok(if v.b then "true" else "false")
    ensures v.Num? ==> r == Ok(numeral(v.n))
    ensures v.Str? ==> r == Ok(v.s)
    ensures v.Arr? && v.elems == [] ==> r == Ok("")
    ensures v.Arr? && v.elems != [] && r.Ok? ==> r.value == JsString.Join(ElementStrings(v.elems, numeral))
    ensures v.Obj? && r.Ok? ==> r.value == "[object Object]"
  {
    match v
    case Undefined => Ok("undefined")
    case Null => Ok("null")
    case Bool(b) => Ok(if b then "true" else "false")
    case Num(n) => Ok(numeral(n))
    case Str(s) => Ok(s)
    case Arr(es) =>
      if !(forall i :: 0 <= i < |es| ==> ToStr(es[i], numeral).Ok?) then Err(ConvertMessage)
      else if es == [] then Ok("")
      else Ok(JsString.Join(ElementStrings(es, numeral)))
    case Obj(props) => if "toString" in props then Err(ConvertMessage) else Ok("[object Object]")
  }

  /** The pieces `join` glues together: empty for null and undefined, otherwise the
      element's string. */
  function ElementStrings(es: seq<Value>, numeral: real -> string): (parts: seq<string>)
    requires forall i :: 0 <= i < |es| ==> Convertible(es[i])
    ensures |parts| == |es|
    decreases es, 0
  {
    seq(|es|, i requires 0 <= i < |es| => if Nullish(es[i]) then "" else ToStr(es[i], numeral).value)
  }

  /** An array of comma-free strings prints as their comma-joined text, so splitting that
      text at commas gives the strings back. */
  lemma ArrayOfStringsSplits(es: seq<Value>, numeral: real -> string)
    requires |es| >= 1
    requires forall i :: 0 <= i < |es| ==> es[i].Str? && JsString.CommaFree(es[i].s)
    ensures ToStr(Arr(es), numeral).Ok?
    ensures JsString.Split(ToStr(Arr(es), numeral).value) == seq(|es|, i requires 0 <= i < |es| => es[i].s)
  {
    var parts := ElementStrings(es, numeral);
    assert forall i :: 0 <= i < |es| ==> parts[i] == es[i].s;
    JsString.SplitJoin(parts);
    assert parts == seq(|es|, i requires 0 <= i < |es| => es[i].s);
  }
}
