/**
 * The in-process fixed-window limiter: a map from key to `WindowState`,
 * updated in place by every `Allow`.
 *
 * Each key's window is anchored at the instant of the request that opened
 * it (first sight of the key, or the first request once the previous
 * window has run out), not at an epoch boundary. Instants and the window
 * size are integers in the clock's unit; the clock is the `now` argument.
 */
module FixedWindow {
  import opened Limiter

  /** The outcome of one decision for one key: the verdict and the key's new record. */
  datatype StepResult = StepResult(allowed: bool, state: WindowState)

  /** A trace of decisions and the key's record after the last of them. */
  datatype Run = Run(decisions: seq<Decision>, last: Option<WindowState>)

  /** The record's window is still open at `now`. */
  predicate InWindow(st: WindowState, now: int, windowSize: int) {
    now < st.windowStart + windowSize
  }

  /** The quota invariant of one record: at least one and at most `limit` admissions. */
  predicate WithinQuota(st: WindowState, limit: int) {
    1 <= st.count <= limit
  }

  function Lookup(states: map<string, WindowState>, key: string): (r: Option<WindowState>)
    ensures r.Some? <==> key in states
    ensures r.Some? ==> r.value == states[key]
  {
    if key in states then Some(states[key]) else None
  }

  /**
   * One decision for one key whose previous record is `prev` (None for a
   * key never seen): open a new window at `now` when there is no live
   * window, otherwise admit while the count is below `limit`.
   */
  function Step(prev: Option<WindowState>, now: int, limit: int, windowSize: int): (r: StepResult)
    requires limit > 0
    // with no live window the request is admitted and opens a window at `now`
    ensures prev.None? || !InWindow(prev.value, now, windowSize) ==>
      r == StepResult(true, WindowState(now, 1))
    // in a live window it is admitted exactly while the count is below the
    // limit, and counted there; the anchor does not move
    ensures prev.Some? && InWindow(prev.value, now, windowSize) ==>
      && r.allowed == (prev.value.count < limit)
      && (r.allowed ==> r.state == prev.value.(count := prev.value.count + 1))
    // a refusal happens only in a live, full window, and changes nothing
    ensures !r.allowed ==>
      prev.Some? && InWindow(prev.value, now, windowSize) &&
      prev.value.count >= limit && r.state == prev.value
    // the quota invariant is kept
    ensures (prev.None? || WithinQuota(prev.value, limit)) ==> WithinQuota(r.state, limit)
  {
    match prev
    case None => StepResult(true, WindowState(now, 1))
    case Some(st) =>
      if now >= st.windowStart + windowSize then StepResult(true, WindowState(now, 1))
      else if st.count < limit then StepResult(true, st.(count := st.count + 1))
      else StepResult(false, st)
  }

  /** The decisions for successive requests for one key at the instants `times`. */
  function RunFrom(prev: Option<WindowState>, times: seq<int>, limit: int, windowSize: int): (r: Run)
    requires limit > 0
    ensures |r.decisions| == |times|
    // the in-process limiter never reports an error
    ensures forall i :: 0 <= i < |r.decisions| ==> r.decisions[i].err.None?
    // after at least one request the key has a record, and the quota invariant holds for it
    ensures times != [] ==> r.last.Some?
    ensures (prev.None? || WithinQuota(prev.value, limit)) ==>
      r.last.None? || WithinQuota(r.last.value, limit)
    decreases |times|
  {
    if times == [] then Run([], prev)
    else
      var s := Step(prev, times[0], limit, windowSize);
      var rest := RunFrom(Some(s.state), times[1..], limit, windowSize);
      Run([Decision(s.allowed, None)] + rest.decisions, rest.last)
  }

  /** A key that has never been seen is admitted and opens its window at `now`. */
  lemma FirstRequestAllowed(now: int, limit: int, windowSize: int)
    requires limit > 0
    ensures Step(None, now, limit, windowSize) == StepResult(true, WindowState(now, 1))
  {
  }

  /**
   * Once `windowSize` has elapsed since the window opened (the boundary
   * itself included), the next request is admitted whatever the count, and
   * the window is re-anchored at that request.
   */
  lemma ResetAtWindowEnd(st: WindowState, now: int, limit: int, windowSize: int)
    requires limit > 0
    requires now >= st.windowStart + windowSize
    ensures Step(Some(st), now, limit, windowSize) == StepResult(true, WindowState(now, 1))
  {
  }

  /**
   * Requests that arrive before the window anchored at `t0` closes: the
   * i-th is admitted exactly when `c + i < limit`, so the window admits
   * `limit - c` more requests at most, and the anchor never moves.
   */
  lemma {:induction false} RunInWindow(t0: int, c: int, times: seq<int>, limit: int, windowSize: int)
    requires limit > 0
    requires forall i :: 0 <= i < |times| ==> times[i] < t0 + windowSize
    ensures var r := RunFrom(Some(WindowState(t0, c)), times, limit, windowSize);
      && (forall i :: 0 <= i < |times| ==> r.decisions[i] == Decision(c + i < limit, None))
      && CountAllowed(r.decisions) == Clamp(limit - c, |times|)
      && r.last == Some(WindowState(t0, c + Clamp(limit - c, |times|)))
    decreases |times|
  {
    var r := RunFrom(Some(WindowState(t0, c)), times, limit, windowSize);
    if times != [] {
      var s := Step(Some(WindowState(t0, c)), times[0], limit, windowSize);
      var c' := if c < limit then c + 1 else c;
      assert s == StepResult(c < limit, WindowState(t0, c'));
      RunInWindow(t0, c', times[1..], limit, windowSize);
      var rest := RunFrom(Some(WindowState(t0, c')), times[1..], limit, windowSize);
      assert r.decisions == [Decision(c < limit, None)] + rest.decisions;
      assert r.decisions[1..] == rest.decisions;
      forall i | 0 <= i < |times|
        ensures r.decisions[i] == Decision(c + i < limit, None)
      {
        if i > 0 {
          assert r.decisions[i] == rest.decisions[i - 1];
        }
      }
    }
    CountBelowThreshold(r.decisions, c, limit);
  }

  /**
   * A fresh key whose requests all arrive within `windowSize` of the first:
   * exactly the first `min(N, limit)` of the N requests are admitted, and
   * none of the refusals is an error.
   */
  lemma FreshKeyQuota(times: seq<int>, limit: int, windowSize: int)
    requires limit > 0
    requires times != []
    requires forall i :: 0 <= i < |times| ==> times[i] < times[0] + windowSize
    ensures var r := RunFrom(None, times, limit, windowSize);
      && (forall i :: 0 <= i < |times| ==> r.decisions[i] == Decision(i < limit, None))
      && CountAllowed(r.decisions) == Clamp(limit, |times|)
  {
    var r := RunFrom(None, times, limit, windowSize);
    var rest := RunFrom(Some(WindowState(times[0], 1)), times[1..], limit, windowSize);
    RunInWindow(times[0], 1, times[1..], limit, windowSize);
    assert r.decisions == [ALLOWED] + rest.decisions;
    assert r.decisions[1..] == rest.decisions;
    forall i | 0 <= i < |times|
      ensures r.decisions[i] == Decision(i < limit, None)
    {
      if i > 0 {
        assert r.decisions[i] == rest.decisions[i - 1];
      }
    }
  }

  /**
   * The in-process limiter. One instance serves every key; the exclusion
   * lock of the original is not modelled, each `Allow` is one atomic step.
   */
  class FixedWindowLimiter {
    const limit: int
    const windowSize: int
    var states: map<string, WindowState>

    ghost predicate Valid()
      reads this
    {
      && limit > 0
      && windowSize > 0
      && forall k :: k in states ==> WithinQuota(states[k], limit)
    }

    /** Construction with a non-positive limit or window size is refused. */
    constructor (limit: int, windowSize: int)
      requires limit > 0 && windowSize > 0
      ensures Valid()
      ensures this.limit == limit && this.windowSize == windowSize
      ensures states == map[]
    {
      this.limit := limit;
      this.windowSize := windowSize;
      states := map[];
    }

    /**
     * Decide one request for `key` at instant `now`. A refusal is
     * `(false, no error)`; this limiter never reports an error. Only the
     * entry for `key` changes.
     */
    method Allow(key: string, now: int) returns (d: Decision)
      requires Valid()
      modifies this
      ensures Valid()
      ensures d.err.None?
      ensures var r := Step(Lookup(old(states), key), now, limit, windowSize);
        d.allowed == r.allowed && states == old(states)[key := r.state]
    {
      if key !in states {
        states := states[key := WindowState(now, 1)];
        return ALLOWED;
      }
      var st := states[key];
      if now >= st.windowStart + windowSize {
        states := states[key := WindowState(now, 1)];
        return ALLOWED;
      }
      if st.count < limit {
        states := states[key := st.(count := st.count + 1)];
        return ALLOWED;
      }
      return DENIED;
    }
  }

  /**
   * The table of the limiter's unit test: limit 2, a one-second window
   * (in nanoseconds), a clock fixed at `t0`; three requests for "user1",
   * a fourth one second later, then one for "user2".
   */
  method TableScenario(t0: int) returns (decisions: seq<Decision>)
    ensures decisions == [ALLOWED, ALLOWED, DENIED, ALLOWED, ALLOWED]
  {
    var rl := new FixedWindowLimiter(2, 1_000_000_000);
    var current := t0;
    var d1 := rl.Allow("user1", current);
    var d2 := rl.Allow("user1", current);
    var d3 := rl.Allow("user1", current);
    current := current + 1_000_000_000;
    var d4 := rl.Allow("user1", current);
    var d5 := rl.Allow("user2", current);
    decisions := [d1, d2, d3, d4, d5];
  }
}
