/**
 * The few JavaScript value rules the handlers rely on. Strings that may be
 * `undefined` are `Option<string>`; a string is truthy exactly when it is
 * present and not empty.
 */
module Js {
  import opened Wrappers

  /** `!!v` for a string-or-undefined value. */
  predicate Truthy(v: Option<string>) {
    v.Some? && v.value != ""
  }

  /** `a || b`: `a` when it is truthy, otherwise `b` as it is (possibly falsy). */
  function Or(a: Option<string>, b: Option<string>): (r: Option<string>)
    ensures Truthy(r) <==> Truthy(a) || Truthy(b)
    ensures Truthy(a) ==> r == a
    ensures !Truthy(a) ==> r == b
  {
    if Truthy(a) then a else b
  }

  /** `a || d` where `d` is a string literal. */
  function OrDefault(a: Option<string>, d: string): (r: string)
    ensures Truthy(a) ==> Some(r) == a
    ensures !Truthy(a) ==> r == d
    ensures d != "" ==> r != ""
  {
    if Truthy(a) then a.value else d
  }

  /** `a || undefined`: an empty string becomes absent. */
  function OrUndefined(a: Option<string>): (r: Option<string>)
    ensures r.None? <==> !Truthy(a)
    ensures r.Some? ==> r == a && r.value != ""
  {
    if Truthy(a) then a else None
  }
}

/** The HTTP status codes the handlers reply with. */
module Http {
  const Ok := 200
  const BadRequest := 400
  const InternalError := 500
}
