/**
 * The loosely typed values that the site hands to the tracking handle:
 * payload values, payload objects (`Record<string, any>`), JavaScript
 * truthiness, the `||` fallback and object spread.
 */
module JsValues {
  import opened Wrappers

  /** A payload value. `Undefined` is a key that is present with the value `undefined`. */
  datatype Value = Str(s: string) | Num(n: int) | Bool(b: bool) | Undefined

  /** A payload object: its own enumerable keys and their values. */
  type Payload = map<string, Value>

  /** JavaScript truthiness of a payload value. */
  predicate Truthy(v: Value)
  {
    match v
    case Str(s) => s != ""
    case Num(n) => n != 0
    case Bool(b) => b
    case Undefined => false
  }

  /** `s || fallback` where `s` is a `string | undefined`. */
  function OrElse(s: Option<string>, fallback: string): (r: string)
    ensures s.Some? && s.value != "" ==> r == s.value
    ensures s.None? || s.value == "" ==> r == fallback
  {
    if s.Some? && s.value != "" then s.value else fallback
  }

  /** The value stored under `key`, `undefined` when the key is missing. */
  function Get(p: Payload, key: string): (v: Value)
    ensures key !in p ==> v == Undefined
    ensures key in p ==> v == p[key]
  {
    if key in p then p[key] else Undefined
  }

  /** `{...p}`: spreading `undefined` contributes no key. */
  function Spread(p: Option<Payload>): (r: Payload)
    ensures p.None? ==> r == map[]
    ensures p.Some? ==> r == p.value
  {
    p.GetOr(map[])
  }

  /** `obj[name]` on a string-valued object (`process.env`, a form's fields): `undefined` when the key is missing. */
  function Lookup(obj: map<string, string>, name: string): (v: Option<string>)
    ensures v.Some? <==> name in obj
    ensures v.Some? ==> v.value == obj[name]
  {
    if name in obj then Some(obj[name]) else None
  }
}
