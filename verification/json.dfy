/**
 A decoded JSON value, as the script sees it after `json.loads`, together with
 the two Python behaviours the script relies on: truthiness (`if not x`) and
 `dict.get(key, default)`.
 */
module Json {

  /** JSON numbers are modelled as integers; an object is a map from keys to
      values (when a key repeats, the decoder keeps the last one). */
  datatype Value =
    | Null
    | Bool(b: bool)
    | Num(n: int)
    | Str(s: string)
    | Arr(items: seq<Value>)
    | Obj(fields: map<string, Value>)

  /** Python truthiness of a decoded JSON value: `None`, `False`, `0`, `""`,
      `[]` and `{}` are falsy, everything else is truthy. */
  predicate Truthy(v: Value)
  {
    match v
    case Null => false
    case Bool(b) => b
    case Num(n) => n != 0
    case Str(s) => |s| > 0
    case Arr(items) => |items| > 0
    case Obj(fields) => |fields| > 0
  }

  /** `fields.get(key, default)` on a decoded JSON object. */
  function Get(fields: map<string, Value>, key: string, default: Value): Value
  {
    if key in fields then fields[key] else default
  }
}
