/**
 * The slice of JavaScript value semantics the store and the chart fold depend on:
 * the values a parsed JSON body can hold (plus `undefined`), truthiness as used by
 * `if (x)` and `!x`, property access `v.name`, and the spread `push(...v)`.
 */
module Js {

  /** `undefined` or a present value, as returned by `Array.prototype.find`
      or read from an optional environment variable. */
  datatype Option<T> = None | Some(value: T)

  /** A JavaScript value. Numbers are modelled as integers. */
  datatype Value =
    | Undefined
    | Null
    | Bool(b: bool)
    | Num(n: int)
    | Str(s: string)
    | Arr(elems: seq<Value>)
    | Obj(fields: map<string, Value>)

  /** The completion of an expression that may throw (a rejected promise,
      a failed `res.json()`, a TypeError). The thrown value is never inspected
      by the code modelled here, so it is not carried. */
  datatype Result<T> = Ok(value: T) | Threw

  /** `!!v`: `undefined`, `null`, `false`, `0` and `""` are falsy; every array
      and every object, empty or not, is truthy. */
  predicate Truthy(v: Value)
  {
    match v
    case Undefined => false
    case Null => false
    case Bool(b) => b
    case Num(n) => n != 0
    case Str(s) => s != ""
    case Arr(_) => true
    case Obj(_) => true
  }

  /** `v.name` for a property that no built-in prototype defines (such as `data`
      or `type`): reading it from `null` or `undefined` throws a TypeError, an
      object yields its own field or `undefined`, any other value `undefined`. */
  function Property(v: Value, name: string): (r: Result<Value>)
    ensures r.Threw? <==> v == Null || v == Undefined
    ensures r.Ok? && r.value != Undefined ==> v.Obj? && name in v.fields && r.value == v.fields[name]
    ensures v.Obj? ==> r == Ok(if name in v.fields then v.fields[name] else Undefined)
  {
    match v
    case Undefined => Threw
    case Null => Threw
    case Obj(m) => if name in m then Ok(m[name]) else Ok(Undefined)
    case _ => Ok(Undefined)
  }

  /** Arrays and strings are the iterable values a parsed body can hold. */
  predicate Iterable(v: Value)
  {
    v.Arr? || v.Str?
  }

  /** `[...v]`: the elements of an array, the characters of a string (each as a
      one-character string), and a TypeError for anything that is not iterable. */
  function Spread(v: Value): (r: Result<seq<Value>>)
    ensures r.Ok? <==> Iterable(v)
    ensures v.Arr? ==> r == Ok(v.elems)
    ensures v.Str? ==> r.Ok? && |r.value| == |v.s|
    ensures v.Str? ==> forall i :: 0 <= i < |v.s| ==> r.value[i] == Str([v.s[i]])
  {
    match v
    case Arr(es) => Ok(es)
    case Str(s) => Ok(seq(|s|, i requires 0 <= i < |s| => Str([s[i]])))
    case _ => Threw
  }
}
