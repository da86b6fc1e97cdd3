/** The few JavaScript value semantics the plugin relies on: property access
    that yields `undefined` for a missing key, truthiness of optional strings,
    the nullish-coalescing operator `??`, and object spread `{...a, ...b}`. */
module Js {
  import opened Wrappers

  /** A decoded JavaScript value, as far as the plugin inspects one. */
  datatype Value =
    | Undefined
    | Null
    | Bool(b: bool)
    | Num(n: int)
    | Str(s: string)
    | Obj(fields: map<string, Value>)

  /** A plain object: its own enumerable properties. */
  type Record = map<string, Value>

  /** Property access `r[k]`: `undefined` when the property is missing. */
  function Get(r: Record, k: string): Value
  {
    if k in r then r[k] else Undefined
  }

  predicate Nullish(v: Value)
  {
    v == Undefined || v == Null
  }

  /** `a ?? b`. */
  function Coalesce(a: Value, b: Value): Value
  {
    if Nullish(a) then b else a
  }

  /** Truthiness of a setting or property that is a string or unset:
      `undefined` and `""` are falsy. */
  predicate Truthy(o: Option<string>)
  {
    o.Some? && o.value != ""
  }

  function OptStr(o: Option<string>): Value
  {
    if o.Some? then Str(o.value) else Undefined
  }

  /** What an abstract handler function (metadata or progress) returns:
      `undefined`, `null` or an object. */
  datatype Meta = MetaUndefined | MetaNull | MetaObject(fields: Record)

  /** The properties that `...m` contributes to an object literal: spreading
      `undefined` or `null` contributes nothing. */
  function Spread(m: Meta): Record
  {
    if m.MetaObject? then m.fields else map[]
  }

  /** `{ ...first, ...second }`: a property of `second` overrides a property of
      `first` with the same name; every other property is kept. */
  function Merge(first: Meta, second: Meta): (r: Record)
    ensures r.Keys == Spread(first).Keys + Spread(second).Keys
    ensures forall k :: k in Spread(second) ==> r[k] == Spread(second)[k]
    ensures forall k :: k in Spread(first) && k !in Spread(second) ==> r[k] == Spread(first)[k]
  {
    Spread(first) + Spread(second)
  }
}
