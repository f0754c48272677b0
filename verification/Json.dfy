// JSON documents, and the two small result types every module shares.

module Json {

  /** Numbers are integers here; the engine's floating-point numbers are left out. */
  datatype Json =
    | Null
    | Bool(flag: bool)
    | Num(num: int)
    | Str(text: string)
    | Arr(items: seq<Json>)
    | Obj(fields: map<string, Json>)

  datatype Option<+T> = None | Some(value: T)

  datatype Result<+T, +E> = Ok(value: T) | Err(error: E)
}
