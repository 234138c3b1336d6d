/**
 * Plain JavaScript objects as the booking core uses them: records keyed by
 * property name. A property that is not present reads as `undefined` (None).
 */
module JsObjects {
  import opened Wrappers

  /** The property values an appointment record holds. */
  datatype Value = Str(s: string) | Num(n: int) | StrList(items: seq<string>)

  /** A plain object: property name to value. */
  type Record = map<string, Value>

  /** Property access `obj.key`: None when the property is absent (`undefined`). */
  function Get(obj: Record, key: string): (r: Option<Value>)
    ensures r.Some? <==> key in obj
    ensures r.Some? ==> r.value == obj[key]
  {
    if key in obj then Some(obj[key]) else None
  }

  /** Object spread `{ ...base, ...overrides }`: every property of both, the overriding value winning. */
  function Spread(base: Record, overrides: Record): (r: Record)
    ensures r.Keys == base.Keys + overrides.Keys
    ensures forall k :: k in overrides ==> r[k] == overrides[k]
    ensures forall k :: k in base && k !in overrides ==> r[k] == base[k]
  {
    base + overrides
  }
}
