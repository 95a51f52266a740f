/** Python truthiness and `a or b` on the optional values the core passes around. */
module PyValue {
  import opened Wrappers

  /** `bool(v)` for an optional string: neither `None` nor `""`. */
  predicate Truthy(v: Option<string>) {
    v.Some? && v.value != ""
  }

  /** `a or b` for optional strings. */
  function Or(a: Option<string>, b: Option<string>): (r: Option<string>)
    ensures Truthy(r) <==> Truthy(a) || Truthy(b)
    ensures Truthy(a) ==> r == a
    ensures !Truthy(a) ==> r == b
  {
    if Truthy(a) then a else b
  }

  /** `n or default` for an optional integer: `None` and `0` are falsy. */
  function IntOr(n: Option<int>, default: int): (r: int)
    ensures n.Some? && n.value != 0 ==> r == n.value
    ensures n.None? || n.value == 0 ==> r == default
  {
    if n.Some? && n.value != 0 then n.value else default
  }

  /** `x or y` for an optional float: `None` and `0.0` are falsy. */
  function RealOr(x: Option<real>, y: real): (r: real)
    ensures x.Some? && x.value != 0.0 ==> r == x.value
    ensures x.None? || x.value == 0.0 ==> r == y
  {
    if x.Some? && x.value != 0.0 then x.value else y
  }
}
