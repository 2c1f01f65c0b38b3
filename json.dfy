/**
 A parsed JSON document, as `response.json()` hands it to the screen, together with
 JavaScript's notion of a truthy value restricted to what JSON can express.
 */
module Json {

  datatype Value =
    | Null
    | Bool(b: bool)
    | Num(x: real)
    | Str(s: string)
    | Arr(items: seq<Value>)
    | Obj(fields: map<string, Value>)

  /** JavaScript truthiness: `null`, `false`, `0` and `""` are falsy; every array and
      every object, empty or not, is truthy. JSON cannot express `NaN` or `undefined`. */
  predicate Truthy(v: Value)
  {
    match v
    case Null => false
    case Bool(b) => b
    case Num(x) => x != 0.0
    case Str(s) => s != ""
    case Arr(_) => true
    case Obj(_) => true
  }
}
