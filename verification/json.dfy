/** JavaScript values as a runtime schema validator sees them. */
module Json {

  /** A JavaScript value. `Undefined` stands both for an explicit `undefined`
      and for the result of reading a property an object does not have.
      Numbers are kept as integers: no shape of the port constrains them. */
  datatype Value =
    | Undefined
    | Null
    | Bool(b: bool)
    | Num(n: int)
    | Str(s: string)
    | Arr(items: seq<Value>)
    | Obj(props: map<string, Value>)

  /** The property read `o[key]`: an absent property reads as `Undefined`. */
  function Get(props: map<string, Value>, key: string): Value
  {
    if key in props then props[key] else Undefined
  }
}
