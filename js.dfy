/** The few JavaScript value rules the extension relies on: a prompt answer is a
    string or `undefined`, `a || b` falls back when `a` is falsy, and `${v}`
    inside a template literal renders `undefined` as the text "undefined". */
module Js {

  /** `None` is JavaScript's `undefined` (a dismissed prompt). */
  datatype Option<+T> = None | Some(value: T)

  /** JavaScript truthiness of a `string | undefined`: both `undefined` and
      the empty string are falsy. */
  predicate Truthy(v: Option<string>)
  {
    v.Some? && v.value != ""
  }

  /** `a || b` where both sides may be `undefined`. */
  function Or(a: Option<string>, b: Option<string>): Option<string>
  {
    if Truthy(a) then a else b
  }

  /** `a || d` where the fallback `d` is a string literal: the result is
      always a string. */
  function OrElse(a: Option<string>, d: string): string
  {
    if Truthy(a) then a.value else d
  }

  /** What `${v}` contributes to a template literal for `v: string | undefined`. */
  function Render(v: Option<string>): string
  {
    match v
    case Some(s) => s
    case None => "undefined"
  }
}
