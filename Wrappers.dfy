/** Option stands in for the source's `undefined` / `null`: an optional
    criterion, a product cleared through the "none" menu entry, a persona
    id missing from the route, a lookup that finds nothing. */
module Wrappers {

  datatype Option<+T> = None | Some(value: T)

  /** JavaScript truthiness of a `string | undefined`: both `undefined`
      and the empty string are falsy. */
  predicate Truthy(o: Option<string>) {
    o.Some? && o.value != ""
  }
}
