/** Vocabulary shared by the storefront model: optional values, database
    identifiers and the JavaScript notion of a truthy string. */
module Common {

  /** A value that may be missing (`undefined`/`null` in the source). */
  datatype Option<T> = None | Some(value: T)

  /** Database identifiers of catalog items, users, cart entries and orders. */
  type ItemId = nat
  type UserId = nat
  type EntryId = nat
  type OrderId = nat

  /** A JavaScript string is truthy when it is present and not empty. */
  predicate Truthy(s: Option<string>)
  {
    s.Some? && s.value != ""
  }

  /** `Math.max` on two integers. */
  function Max(a: int, b: int): int
  {
    if a >= b then a else b
  }
}
