/**
 * The contract shared by both rate limiters: one decision operation,
 * `Allow(key) -> (allowed, error)`, and the per-key state of the
 * in-process limiter.
 *
 * Dafny has no interfaces here, so the contract is the shape every
 * limiter's `Allow` method returns: a `Decision` carrying the boolean
 * verdict and an optional transport error. A refusal is
 * `Decision(false, None)`; an error is reserved for a backing store that
 * could not be reached.
 */
module Limiter {

  datatype Option<+T> = None | Some(value: T)

  /** An error reported by a backing store (network failure, timeout, protocol error). */
  datatype Error = Error(message: string)

  /** The pair `(allowed, err)` that `Allow` returns. */
  datatype Decision = Decision(allowed: bool, err: Option<Error>)

  const ALLOWED := Decision(true, None)
  const DENIED := Decision(false, None)

  /**
   * The in-process limiter's record for one key: when its current window
   * began and how many requests it has admitted in that window.
   */
  datatype WindowState = WindowState(windowStart: int, count: int)

  /** Number of allowed decisions in `ds`. */
  function CountAllowed(ds: seq<Decision>): (n: nat)
    ensures n <= |ds|
  {
    if ds == [] then 0
    else (if ds[0].allowed then 1 else 0) + CountAllowed(ds[1..])
  }

  /**
   * A run of decisions that admits exactly while `c + i < limit` (the i-th
   * decision counted from 0) admits `limit - c` of them, clamped to the
   * length of the run.
   */
  lemma {:induction false} CountBelowThreshold(ds: seq<Decision>, c: int, limit: int)
    requires forall i :: 0 <= i < |ds| ==> ds[i].allowed == (c + i < limit)
    ensures CountAllowed(ds) == Clamp(limit - c, |ds|)
    decreases |ds|
  {
    if ds != [] {
      forall i | 0 <= i < |ds| - 1
        ensures ds[1..][i].allowed == (c + 1 + i < limit)
      {
        assert ds[1..][i] == ds[i + 1];
      }
      CountBelowThreshold(ds[1..], c + 1, limit);
    }
  }

  /** `x` clamped into the range `[0, n]`. */
  function Clamp(x: int, n: nat): (r: nat)
    ensures r <= n
    ensures x <= 0 ==> r == 0
    ensures 0 <= x <= n ==> r == x
    ensures n <= x ==> r == n
  {
    if x <= 0 then 0 else if x >= n then n else x
  }
}
