/** The few pieces of JavaScript value semantics the drawing classes rely on:
    option-bag entries that may be missing or null, the three defaulting
    operators (`??`, `||`, `!== undefined`), destructuring defaults, and numbers
    that may be NaN. */
module Js {

  /** An entry read from an options object: missing (`undefined`), `null`, or a value. */
  datatype Opt<T> = Undefined | Null | Given(value: T) {
    /** `undefined` or `null`, the two values `??` replaces. */
    predicate IsNullish() { !Given? }
  }

  /** A field that may hold `null`. */
  datatype Nullable<T> = Nil | NonNull(value: T)

  /** A parameter with a destructuring default: omitted (`undefined`) or given. */
  datatype Option<T> = None | Some(value: T)

  /** A number that may be NaN (what `Number(...)`, `undefined` in arithmetic and
      `Math.round(NaN)` produce). */
  datatype Num = NaN | Val(r: real)

  /** `o ?? d` */
  function Coalesce<T>(o: Opt<T>, d: T): T
  {
    if o.Given? then o.value else d
  }

  /** `o ?? d` stored in a field that may be `null`. */
  function CoalesceNullable<T>(o: Opt<T>, d: Nullable<T>): Nullable<T>
  {
    if o.Given? then NonNull(o.value) else d
  }

  /** `if (o !== undefined) field = o`: unlike `??`, a `null` entry is applied. */
  function IfDefined<T>(o: Opt<T>, current: Nullable<T>): Nullable<T>
  {
    match o
    case Undefined => current
    case Null => Nil
    case Given(v) => NonNull(v)
  }

  /** `o || d` on a number: 0 is falsy. */
  function OrNumber(o: Opt<real>, d: real): real
  {
    if o.Given? && o.value != 0.0 then o.value else d
  }

  /** `o || d` on a string: the empty string is falsy. */
  function OrString(o: Opt<string>, d: string): string
  {
    if o.Given? && o.value != "" then o.value else d
  }

  /** `o || d` on a boolean: false is falsy. */
  function OrBool(o: Opt<bool>, d: bool): bool
  {
    if o.Given? && o.value then true else d
  }

  /** JavaScript truthiness of an optional boolean entry (`if (o)`). */
  predicate Truthy(o: Opt<bool>)
  {
    o.Given? && o.value
  }

  /** A destructured parameter `{ p = d }`: the default applies only when omitted. */
  function Default<T>(o: Option<T>, d: T): T
  {
    if o.Some? then o.value else d
  }

  /** A boolean parameter `p = d` that is later tested with `if (p)`: the default
      applies only to a missing argument, and a `null` argument reads as false. */
  function DefaultedFlag(o: Opt<bool>, d: bool): (on: bool)
    ensures o.Undefined? ==> on == d
    ensures o.Null? ==> !on
    ensures o.Given? ==> on == o.value
  {
    match o
    case Undefined => d
    case Null => false
    case Given(v) => v
  }

  /** `a + b`, NaN-propagating. */
  function Add(a: Num, b: Num): Num
  {
    if a.Val? && b.Val? then Val(a.r + b.r) else NaN
  }

  /** `a - b`, NaN-propagating. */
  function Sub(a: Num, b: Num): Num
  {
    if a.Val? && b.Val? then Val(a.r - b.r) else NaN
  }

  /** `a * b`, NaN-propagating. */
  function Mul(a: Num, b: Num): Num
  {
    if a.Val? && b.Val? then Val(a.r * b.r) else NaN
  }

  /** `a < b`: every comparison with NaN is false. */
  predicate Less(a: Num, b: Num)
  {
    a.Val? && b.Val? && a.r < b.r
  }

  /** `isNaN(c) ? 0 : c` */
  function ZeroIfNaN(c: Num): real
  {
    if c.NaN? then 0.0 else c.r
  }

  /** `Math.round(x)`: rounds half-way values up, toward positive infinity. */
  function Round(x: real): (n: int)
    ensures n as real - 0.5 <= x < n as real + 0.5
  {
    (x + 0.5).Floor
  }

  /** `Math.floor(x)` */
  function Floor(x: real): (n: int)
    ensures n as real <= x < n as real + 1.0
  {
    x.Floor
  }

  lemma RoundOfInteger(n: int)
    ensures Round(n as real) == n
  {
  }
}
