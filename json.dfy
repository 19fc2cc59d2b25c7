/** A JSON value as the runtime's JSON parser produces it (the body of a POST). */
module Json {

  datatype Value =
    | Null
    | Bool(b: bool)
    | Num(n: real)
    | Str(s: string)
    | Arr(items: seq<Value>)
    | Obj(fields: map<string, Value>)

  /** `typeof v === 'object' && v !== null`: true of objects AND of arrays. */
  predicate IsObject(v: Value)
    ensures IsObject(v) <==> !(v.Null? || v.Bool? || v.Num? || v.Str?)
  {
    v.Obj? || v.Arr?
  }

  /**
   * `key in v` for a value that is an object or an array. Only the six
   * record field names are ever asked about; none of them is an array index,
   * `length`, or a property inherited from the object prototype, so only an
   * object's own keys can make the answer true.
   */
  predicate Has(v: Value, key: string)
    ensures Has(v, key) ==> IsObject(v)
  {
    v.Obj? && key in v.fields
  }
}
