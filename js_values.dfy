/** JavaScript values as the React pages see them: an object is a map from
    property names to values, and a property that is not in the map reads as
    `undefined`. Object spread `{...a, ...b}` is the map union `a + b`, in
    which the properties of `b` win. */
module JsValues {

  datatype Value =
    | Undefined
    | Null
    | Bool(b: bool)
    | Num(n: real)
    | Str(s: string)
    | Arr(items: seq<Value>)
    | Obj(fields: map<string, Value>)

  type Object = map<string, Value>

  /** JavaScript truthiness: undefined, null, false, 0 and "" are falsy,
      every array and object is truthy. */
  predicate Truthy(v: Value)
  {
    match v
    case Undefined => false
    case Null => false
    case Bool(b) => b
    case Num(n) => n != 0.0
    case Str(s) => s != ""
    case Arr(_) => true
    case Obj(_) => true
  }

  /** `o.k`: the property, or undefined when it is absent. */
  function Get(o: Object, k: string): Value
  {
    if k in o then o[k] else Undefined
  }

  /** `v?.k`: a property of an object value; undefined on anything else. */
  function Prop(v: Value, k: string): Value
  {
    if v.Obj? then Get(v.fields, k) else Undefined
  }

  /** The properties `{...v}` contributes: those of an object, none for
      undefined, null, false or a number. */
  function SpreadOf(v: Value): Object
  {
    if v.Obj? then v.fields else map[]
  }

  /** `a ?? b` */
  function Coalesce(a: Value, b: Value): Value
  {
    if a.Undefined? || a.Null? then b else a
  }

  /** A destructuring default `const { k = b } = o`: only undefined is
      replaced, null is kept. */
  function WithDefault(v: Value, d: Value): (r: Value)
    ensures v.Undefined? ==> r == d
    ensures !v.Undefined? ==> r == v
  {
    if v.Undefined? then d else v
  }

  /** lodash `omitBy(o, isUndefined)`. */
  function OmitUndefined(o: Object): (r: Object)
    ensures forall k :: k in r <==> k in o && o[k] != Undefined
    ensures forall k :: Get(r, k) == Get(o, k)
  {
    map k | k in o && o[k] != Undefined :: o[k]
  }
}
