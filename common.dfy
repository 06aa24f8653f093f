/** Shared vocabulary: optional values, the outcome of an awaited call that may throw,
    JavaScript truthiness of the values the core tests, and small string helpers. */
module Common {

  datatype Option<+T> = None | Some(value: T) {
    function GetOr(default: T): T {
      match this
      case Some(v) => v
      case None => default
    }
  }

  /** What an awaited call (an SDK, wallet or HTTP request) does: it resolves with a value
      or throws an error carrying a message. */
  datatype Outcome<+T> = Done(value: T) | Threw(error: string)

  /** The status of a mined EVM transaction's receipt. */
  datatype TxStatus = Success | Reverted

  /** The unit value, for calls whose resolved value is not used. */
  datatype Unit = Unit

  /** `!!s` for an optional string: undefined and "" are falsy. */
  predicate Truthy(s: Option<string>) {
    s.Some? && s.value != ""
  }

  /** `!!n` for an optional integer: undefined and 0 are falsy. */
  predicate TruthyNat(n: Option<nat>) {
    n.Some? && n.value != 0
  }

  predicate IsPrefix(p: string, s: string) {
    |p| <= |s| && s[..|p|] == p
  }

  function Pow10(n: nat): (r: nat)
    ensures r >= 1
  {
    if n == 0 then 1 else 10 * Pow10(n - 1)
  }

  /** The first index at or after `from` holding `c`, scanning left to right. */
  function IndexOfFrom(s: string, c: char, from: nat): (r: Option<nat>)
    decreases |s| - from
    ensures r.Some? ==> from <= r.value < |s| && s[r.value] == c
    ensures r.Some? ==> forall k :: from <= k < r.value ==> s[k] != c
    ensures r.None? ==> forall k :: from <= k < |s| ==> s[k] != c
  {
    if from >= |s| then None
    else if s[from] == c then Some(from)
    else IndexOfFrom(s, c, from + 1)
  }
}
