/** The untyped values the TypeScript code handles as `any`: what
    `JSON.parse` returns and what a property read yields. */
module JsValues {

  datatype Option<T> = None | Some(value: T)

  datatype Result<T, E> = Ok(value: T) | Err(error: E)

  /** A JavaScript value as far as the recipe pipeline can observe it.
      `Undefined` is what reading an absent property gives. */
  datatype Value =
    | Undefined
    | Null
    | Bool(b: bool)
    | Num(n: real)
    | Str(s: string)
    | Arr(items: seq<Value>)
    | Obj(fields: map<string, Value>)

  /** JavaScript truthiness: `""`, `0`, `false`, `null` and `undefined` are
      falsy, every array and object (also `[]` and `{}`) is truthy. */
  predicate Truthy(v: Value) {
    match v
    case Undefined => false
    case Null => false
    case Bool(b) => b
    case Num(n) => n != 0.0
    case Str(s) => s != ""
    case Arr(_) => true
    case Obj(_) => true
  }

  /** `a || b`. */
  function Or(a: Value, b: Value): Value {
    if Truthy(a) then a else b
  }

  /** Reading a property that throws a TypeError: the receiver is `null`
      or `undefined`. */
  predicate IsNullish(v: Value) {
    v.Undefined? || v.Null?
  }

  /** `v.key` for a receiver that is not nullish. None of the keys the
      pipeline reads is an inherited property of strings, numbers, booleans,
      arrays or plain objects, so such a read yields `undefined` unless `v`
      is an object that owns the key. */
  function Prop(v: Value, key: string): Value {
    if v.Obj? && key in v.fields then v.fields[key] else Undefined
  }

  /** `v.key = x` on an object. */
  function SetProp(v: Value, key: string, x: Value): (r: Value)
    requires v.Obj?
    ensures r.Obj? && Prop(r, key) == x
    ensures forall k :: k != key ==> Prop(r, k) == Prop(v, k)
  {
    Obj(v.fields[key := x])
  }

  /** Writing back the value a property already has changes nothing. */
  lemma SetPropSame(v: Value, key: string, x: Value)
    requires v.Obj? && key in v.fields && v.fields[key] == x
    ensures SetProp(v, key, x) == v
  {
    assert v.fields[key := x] == v.fields;
  }

  /** An array of string literals. */
  function Strings(xs: seq<string>): (r: Value)
    ensures r.Arr? && |r.items| == |xs|
    ensures forall k :: 0 <= k < |xs| ==> r.items[k] == Str(xs[k])
    decreases |xs|
  {
    if xs == [] then Arr([]) else Arr([Str(xs[0])] + Strings(xs[1..]).items)
  }

  predicate IsNonEmptyArray(v: Value) {
    v.Arr? && |v.items| > 0
  }
}
