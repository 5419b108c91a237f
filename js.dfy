/**
 * JavaScript truthiness as the service's code relies on it. Request fields
 * arrive as optional strings or numbers. A string is falsy when it is missing
 * or empty, and a number when it is missing or zero.
 */
module Js {
  import opened Wrappers

  predicate TruthyText(o: Option<string>) {
    o.Some? && o.value != ""
  }

  predicate TruthyNumber(o: Option<int>) {
    o.Some? && o.value != 0
  }

  /** `x || null` for a string field. */
  function TextOrNull(o: Option<string>): Option<string> {
    if TruthyText(o) then o else None
  }

  /** `x || d` for a numeric field. */
  function NumberOr(o: Option<int>, d: int): int {
    if TruthyNumber(o) then o.value else d
  }
}
