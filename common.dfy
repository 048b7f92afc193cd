/** Values shared by every part of the request pipeline: optional values,
    results, and the JavaScript values that arrive in a request. */
module Common {

  datatype Option<+T> = None | Some(value: T)

  datatype Result<+T, +E> = Ok(value: T) | Err(error: E)

  /** A JavaScript value as it can appear in `req.body`, `req.query` or
      `req.params`. `Undefined` is the value of a missing key. Numbers are
      integers here: fractions and floating-point rounding are not modelled. */
  datatype Value =
    | Undefined
    | Null
    | Bool(b: bool)
    | Num(n: int)
    | Str(s: string)
    | Arr(items: seq<Value>)
    | Obj(fields: map<string, Value>)

  /** Property lookup `v[key]`: a missing key, or a value that is not an
      object, reads as `undefined`. */
  function Field(v: Value, key: string): (r: Value)
    ensures r != Undefined ==> v.Obj? && key in v.fields && v.fields[key] == r
    ensures v.Obj? && key in v.fields ==> r == v.fields[key]
  {
    if v.Obj? && key in v.fields then v.fields[key] else Undefined
  }

  /** JavaScript truthiness of a string: only the empty string is falsy. */
  predicate TruthyString(s: Option<string>)
  {
    s.Some? && s.value != ""
  }
}
