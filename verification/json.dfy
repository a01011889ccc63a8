/**
 * The JavaScript values a source document is made of, as far as the job
 * looks at them: truthiness (`if (x)`, `x && y`) and property access.
 */
module Json {
  import opened Wrappers

  datatype Json =
    | Null
    | Bool(b: bool)
    | Num(n: int)
    | Str(s: string)
    | Arr(items: seq<Json>)
    | Obj(fields: map<string, Json>)

  /** JavaScript truthiness of a property read; a missing property (`undefined`) is falsy. */
  predicate Truthy(v: Option<Json>): (b: bool)
    ensures b ==> v.Some?
    ensures v.Some? && (v.value.Arr? || v.value.Obj?) ==> b
  {
    v.Some? && v.value != Null && v.value != Bool(false) && v.value != Num(0) && v.value != Str("")
  }

  /** `v[key]` on a value that is not `undefined`: only objects have the properties the job reads. */
  function Get(v: Option<Json>, key: string): Option<Json>
  {
    if v.Some? && v.value.Obj? && key in v.value.fields then Some(v.value.fields[key]) else None
  }
}
