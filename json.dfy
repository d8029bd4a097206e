/**
 * The JSON values that json.loads produces, as Python sees them:
 * null, booleans, numbers, str, list and dict.
 */
module Json {

  datatype Value =
    | Null
    | Bool(b: bool)
    | Num(n: int)
    | Str(s: string)
    | Arr(elems: seq<Value>)
    | Obj(fields: map<string, Value>)
}
