/** JSON values as the `json` module hands them to the service. */
module Json {

  /** A decoded JSON value. Integers and floats are both numbers here. */
  datatype Value =
    | Null
    | Bool(b: bool)
    | Num(n: real)
    | Str(s: string)
    | Arr(items: seq<Value>)
    | Obj(fields: map<string, Value>)
}
