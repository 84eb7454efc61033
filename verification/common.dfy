/** Types and text helpers shared by the models. */
module Common {

  datatype Option<+T> = None | Some(value: T)

  datatype Result<+T, +E> = Ok(value: T) | Err(error: E)

  /** In seconds, as the clocks of the models count, unless a model says otherwise. */
  const MINUTE := 60

  /** When a provider allows another try. */
  datatype Cooldown = NoCooldown | RetryAt(until: nat) | RetryBlocked

  /** codex.Category: what kind of failure an attempt met. */
  type Category = string

  const ACCOUNT_PROBLEM: Category := "account_problem"
  const PROVIDER_LIMIT: Category := "provider_limit"
  const TRANSPORT_FAILURE: Category := "transport_failure"
  const INVALID_RESPONSE: Category := "invalid_response"

  /** Unicode white space, as Go's `strings.TrimSpace` removes it. */
  predicate IsSpace(c: char) {
    || c in {'\t', '\n', '\U{0B}', '\U{0C}', '\r', ' ', '\U{85}', '\U{A0}', '\U{1680}'}
    || '\U{2000}' <= c <= '\U{200A}'
    || c in {'\U{2028}', '\U{2029}', '\U{202F}', '\U{205F}', '\U{3000}'}
  }

  /** `strings.TrimSpace(s) == ""` */
  predicate Blank(s: string) {
    forall i :: 0 <= i < |s| ==> IsSpace(s[i])
  }

  function Max(a: int, b: int): int {
    if a < b then b else a
  }

  function Min(a: int, b: int): int {
    if a < b then a else b
  }

  function Lookup<K, V>(m: map<K, V>, k: K): Option<V> {
    if k in m then Some(m[k]) else None
  }

  lemma {:induction false} SubsetSize<T>(a: set<T>, b: set<T>)
    requires a <= b
    ensures |a| <= |b|
  {
    if a != {} {
      var x :| x in a;
      SubsetSize(a - {x}, b - {x});
    }
  }
}
