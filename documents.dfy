/** JSON-like values as they arrive in request bodies and as the document
    store keeps them: a payload and a stored document are both a map from
    field name to value. */
module Documents {

  datatype Option<+T> = None | Some(value: T)

  datatype Result<+T, +E> = Ok(value: T) | Err(error: E)

  /** One JSON value. `Num` is a JSON number with a fraction (a Python
      float); `Int` is a JSON integer. */
  datatype Value =
    | Null
    | Bool(b: bool)
    | Int(i: int)
    | Num(x: real)
    | Str(s: string)
    | List(items: seq<Value>)
    | Obj(fields: map<string, Value>)

  /** A request payload or a stored document. */
  type Doc = map<string, Value>

  /** `d.get(key)`: the value stored under `key`, if any. */
  function Get(d: Doc, key: string): (r: Option<Value>)
    ensures r.Some? <==> key in d
    ensures r.Some? ==> r.value == d[key]
  {
    if key in d then Some(d[key]) else None
  }
}
