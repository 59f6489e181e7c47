// What the modelled code sees of an HTTP exchange. The transport is an
// oracle: `replies(k)` is what the k-th attempt (counting from 0) yields.
// Sleeping between attempts, Retry-After parsing and jitter are not modelled.

module Http {
  import opened Base

  /** One attempt: a response with its status and parsed JSON body, or a raised client exception. */
  datatype Reply<B> = Response(status: int, body: B) | Thrown

  /** `range(max_retries)` has this many attempts: none when `max_retries <= 0`. */
  function Attempts(maxRetries: int): (n: nat)
    ensures maxRetries >= 0 ==> n == maxRetries
    ensures maxRetries < 0 ==> n == 0
  {
    if maxRetries < 0 then 0 else maxRetries
  }

  /**
   * The first of the first `n` attempts whose reply ends the retry loop
   * (`final` holds of it), if there is one.
   */
  function FirstFinal<R>(replies: nat -> R, final: R -> bool, n: nat): (r: Option<nat>)
    ensures r.Some? ==> r.value < n && final(replies(r.value))
    ensures r.Some? ==> forall k :: 0 <= k < r.value ==> !final(replies(k))
    ensures r.None? ==> forall k :: 0 <= k < n ==> !final(replies(k))
  {
    if n == 0 then None
    else
      match FirstFinal(replies, final, n - 1)
      case Some(k) => Some(k)
      case None => if final(replies(n - 1)) then Some(n - 1) else None
  }

  /** A loop that has seen `i` non-final replies and then a final one found it first. */
  lemma FirstFinalAt<R>(replies: nat -> R, final: R -> bool, n: nat, i: nat)
    requires i < n && final(replies(i))
    requires forall k :: 0 <= k < i ==> !final(replies(k))
    ensures FirstFinal(replies, final, n) == Some(i)
  {
    var r := FirstFinal(replies, final, n);
    assert r.Some?;
  }
}
