/**
 * The dynamically typed value that carries every request and reply between the
 * C binding and a plugin (class Value of the C++ binding).
 */
module LsmValue {
  import opened Wrappers

  datatype Value =
    | Null
    | Bool(b: bool)
    | Num(n: int)
    | Str(s: string)
    | Arr(items: seq<Value>)
    | Obj(fields: map<string, Value>)

  /**
   * The text of the ValueException the Value class raises on a wrong variant.
   * The Value class is not part of this model, so the text is left unspecified.
   */
  const TYPE_MISMATCH: string

  const INT32_MIN: int := -0x8000_0000
  const INT32_LIMIT: int := 0x8000_0000
  const UINT32_LIMIT: int := 0x1_0000_0000

  /** asInt32_t: a number in the signed 32-bit range, otherwise a type error (ValueException). */
  function AsInt32(v: Value): (r: Option<int>)
    ensures r.Some? <==> v.Num? && INT32_MIN <= v.n < INT32_LIMIT
    ensures r.Some? ==> r.value == v.n
  {
    if v.Num? && INT32_MIN <= v.n < INT32_LIMIT then Some(v.n) else None
  }

  /** asUint32_t: a number in the unsigned 32-bit range, otherwise a type error (ValueException). */
  function AsUint32(v: Value): (r: Option<int>)
    ensures r.Some? <==> v.Num? && 0 <= v.n < UINT32_LIMIT
    ensures r.Some? ==> r.value == v.n
  {
    if v.Num? && 0 <= v.n < UINT32_LIMIT then Some(v.n) else None
  }
}
