/** JSON values as the Python scripts see them after decoding. */
module Json {

  /** A decoded JSON value. Python's bool, int, float and str are kept apart because the
      scripts test them with isinstance and type(). */
  datatype Json =
    | Null
    | Bool(b: bool)
    | Num(n: int)
    | Float(r: real)
    | Str(s: string)
    | Arr(items: seq<Json>)
    | Obj(fields: Object)

  type Object = map<string, Json>

  /** dict.get(key): a missing key reads as None. */
  function Get(o: Object, key: string): Json {
    if key in o then o[key] else Null
  }

  /** A str that is not empty. */
  predicate IsText(j: Json) {
    j.Str? && j.s != ""
  }
}
