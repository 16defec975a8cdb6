/** Optional props and the `||` fallback of JavaScript, restricted to the
    strings the components pass through it. */
module JsValues {

  /** An optional prop: `None` is `undefined`. */
  datatype Option<+T> = None | Some(value: T)

  /** A string prop is truthy when it is present and not the empty string. */
  predicate Truthy(o: Option<string>) {
    o.Some? && o.value != ""
  }

  /** `o || fallback` for an optional string prop. */
  function OrElse(o: Option<string>, fallback: string): string
  {
    if Truthy(o) then o.value else fallback
  }

  /** `s || fallback` for a required string prop. */
  function StrOr(s: string, fallback: string): string
  {
    if s != "" then s else fallback
  }
}
