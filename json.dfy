/** The JSON values that travel between the node and the scraping provider. */
module Json {

  datatype Value =
    | Null
    | Bool(b: bool)
    | Int(i: int)
    | Num(r: real)
    | Str(s: string)
    | Arr(items: seq<Value>)
    | Obj(fields: map<string, Value>)

  /** A JSON object as a Python `dict` with string keys: a job payload or a response envelope. */
  type Dict = map<string, Value>
}
