# Fixed-window rate limiters, modelled in Dafny

This project models the decision engine of a per-key request quota
service. Callers depend on one operation, `Allow(key) -> (allowed, error)`.
A refusal is `(false, no error)`. An error is reserved for a backing store
that could not be reached. Two engines implement it:

- **The in-process limiter** (`fixed_window.dfy`). It keeps a map from key
  to `WindowState{windowStart, count}` and updates it in place. A key's
  window opens at the instant of its first request, or of the first request
  once `windowSize` has elapsed (the boundary is inclusive). Within a live
  window, requests are admitted while `count < limit`. The class
  `FixedWindowLimiter` holds the map; `Allow` is a state-changing method
  proved against the pure `Step`.
- **The distributed limiter** (`redis_fixed_window.dfy`, `redis_script.dfy`).
  Counting is delegated to a shared key-value store:
  - The storage key is `rl:<namespace>:<hex digest of key>:<window start>`.
  - The window start is the Unix time rounded down to a multiple of the
    window in seconds, so windows are aligned to the epoch.
  - A server-side script runs atomically. It increments the counter, sets a
    time-to-live of `window + 1` seconds on the first increment, and replies
    1 when the new value is within the limit.
  - When the store call fails, the failure mode decides: fail-open admits
    and hides the error; fail-closed refuses and returns the error.

  The store is the class `Store`, holding a counter map and a TTL map.
  Construction validates its inputs and returns an error result instead of
  aborting.

Shared pieces live in `limiter.dfy`: the `Decision` returned by both engines,
`WindowState`, and the error type. `decimal.dfy` holds the base-10 rendering
used in storage keys and its inverse.

Clocks are parameters. The in-process limiter takes `now` in the clock's own
unit. The distributed limiter takes `nowUnix` in whole seconds. A store call
either applies the script as one step or fails with the transport error given
as the `fault` argument.

## Model

| member | source | states |
|---|---|---|
| `FixedWindow.Step` | internal/limiter/fixed_window_test.go:20-52 | With no record, or once the record's window has run out, the request is admitted and a window opens at `now` with count 1. In a live window the request is admitted exactly when the count is below the limit; an admission adds one and keeps the anchor, a refusal leaves the record unchanged. The quota invariant `1 <= count <= limit` is preserved. |
| `FixedWindow.FirstRequestAllowed` | internal/limiter/fixed_window_test.go:26-30 | A key never seen before is admitted and its window opens at `now`. |
| `FixedWindow.ResetAtWindowEnd` | internal/limiter/fixed_window_test.go:41-46 | Once `now >= windowStart + windowSize` (boundary included), the next request is admitted whatever the count, and the window is re-anchored at `now`. |
| `FixedWindow.RunInWindow` | internal/limiter/fixed_window_test.go:31-40 | Requests arriving before a window anchored at `t0` with count `c` closes: the i-th is admitted iff `c + i < limit`. The admitted total is `clamp(limit - c)`. None of them is an error, and the anchor stays put. |
| `FixedWindow.RunFrom` | internal/limiter/fixed_window_test.go:54-69 | Successive requests for one key each get a decision that is never an error. After at least one request the key has a record, and the quota invariant holds for it. |
| `FixedWindow.FreshKeyQuota` | internal/limiter/fixed_window_test.go:26-40 | For a fresh key whose N requests all fall within one window of the first, exactly the first `min(N, limit)` are admitted, and the refusals carry no error. |
| `FixedWindow.FixedWindowLimiter.constructor` | internal/limiter/fixed_window_test.go:13 | A limiter is built only with a positive limit and window, and starts with no per-key state. |
| `FixedWindow.FixedWindowLimiter.Allow` | internal/limiter/limiter.go:5-12 | Returns `Step`'s verdict and never an error. Only `key`'s `(windowStart, count)` entry is rewritten; every other key's entry is unchanged. The quota invariant holds for every key. |
| `FixedWindow.TableScenario` | internal/limiter/fixed_window_test.go:9-70 | With limit 2, a one-second window and a fixed clock, the test table's five calls decide allow, allow, deny, allow after the reset, and allow for the second key. None of them reports an error. |
| `Decimal.Render` | internal/limiter/redis_fixed_window.go:119 | `%d` of a non-negative number is a non-empty run of digits with no leading zero. |
| `Decimal.ParseRender` | internal/limiter/redis_fixed_window.go:119 | Reading back a rendered window start gives the same number. |
| `Decimal.RenderInjective` | internal/limiter/redis_fixed_window.go:119 | Different window starts render differently. |
| `RedisScript.Script` | internal/limiter/redis_fixed_window.go:54-64 | The counter at the key rises by exactly 1 (absent counts as 0) and keeps rising past the limit. No other counter changes. The TTL is written only when the new value is 1. The reply is 1 exactly when the new value is at most the limit, else 0. |
| `RedisScript.ExpireKey` | internal/limiter/redis_fixed_window.go:56-58 | Expiry removes the key's counter and TTL. The set of counters loses exactly that key, and every other key keeps its counter and its TTL (present or absent). |
| `RedisScript.ScriptAfterExpiry` | internal/limiter/redis_fixed_window.go:55-58 | After expiry, the next increment starts again at 1. It is admitted and gets a new TTL. |
| `RedisScript.Store.EvalScript` | internal/limiter/redis_fixed_window.go:85-91 | A completed call leaves the store and reply exactly as `Script` gives them. A failed call returns the same error and changes nothing. |
| `RedisScript.Store.Expire` | internal/limiter/redis_fixed_window.go:56-58 | The store's state after an expiry step is `ExpireKey` of the old state. |
| `RedisFixedWindow.ValidateAsWritten` | internal/limiter/redis_fixed_window.go:41-52 | Accepted iff there is a client, `limit > 0` and `windowSize > 0`. The checks run in source order: nil client, then limit, then window. An empty namespace becomes `"fw"` and any other is kept. The failure mode starts as fail-closed. |
| `RedisFixedWindow.Validate` | internal/limiter/redis_fixed_window.go:41-52 | The corrected checks accept iff there is a client, `limit > 0` and the window is at least one second. Every accepted configuration has a positive window in seconds. It agrees with the checks as written except on sub-second windows, which it refuses. |
| `RedisFixedWindow.SubSecondWindowAccepted` | internal/limiter/redis_fixed_window.go:47-49 | Any window in (0, 1s) passes the checks as written, yet its whole seconds are 0. The corrected checks refuse it. |
| `RedisFixedWindow.Settings.WindowSeconds` | internal/limiter/redis_fixed_window.go:82 | The window in whole seconds, as lines 82 and 106 take it: the largest `secs` with `secs * 10^9 <= windowSize`, so `windowSize < (secs + 1) * 10^9`. |
| `RedisFixedWindow.WindowStart` | internal/limiter/redis_fixed_window.go:105-109 | For `now >= 0` and a positive window, the start is a multiple of the window and `start <= now < start + window`. |
| `RedisFixedWindow.WindowStartUnique` | internal/limiter/redis_fixed_window.go:105-109 | Any aligned `m` with `m <= now < m + window` is the window start, so the start is unique. |
| `RedisFixedWindow.NextWindowStart` | internal/limiter/redis_fixed_window.go:105-109 | Advancing `now` by one window moves the start by exactly one window. |
| `RedisFixedWindow.KeyHash` | internal/limiter/redis_fixed_window.go:116-117 | The digest of a key is 40 lowercase hex characters. |
| `RedisFixedWindow.ParseFormatKey` | internal/limiter/redis_fixed_window.go:119 | The storage key `FormatKey` writes, `rl:<ns>:<digest>:<start>`, parses back from the right to the same namespace, digest and start, even when the namespace contains ':'. |
| `RedisFixedWindow.RedisKey` | internal/limiter/redis_fixed_window.go:113-120 | The storage key for a key at `nowUnix` reads back as the limiter's namespace, the key's digest and the start of the aligned window holding `nowUnix`. |
| `RedisFixedWindow.FormatParsedKey` | internal/limiter/redis_fixed_window.go:113-120 | Whatever parses is exactly the storage key of its parts, and its digest is well-formed. Together with `ParseFormatKey`, parsing is the inverse of formatting. |
| `RedisFixedWindow.FormatKeyInjective` | internal/limiter/redis_fixed_window.go:113-120 | Different (namespace, digest, start) triples give different storage keys. |
| `RedisFixedWindow.SameWindowSameKey` | internal/limiter/redis_fixed_window.go:113-120 | The storage key depends on the instant only through its aligned window start. |
| `RedisFixedWindow.NextWindowNewKey` | internal/limiter/redis_fixed_window.go:113-120 | The same key one window later gets a different storage key. |
| `RedisFixedWindow.DistinctKeysDistinctCounters` | internal/limiter/redis_fixed_window.go:113-120 | Keys with different digests, or limiters with different namespaces, never share a storage key at any instants. |
| `RedisFixedWindow.AllowStep` | internal/limiter/redis_fixed_window.go:79-101 | On a store error nothing changes. Fail-open gives `(true, no error)`; fail-closed gives `(false, the same error)`. On success one request is counted under the current window's key. It is admitted exactly when the prior count is below the limit, and a refusal is not an error. Only that key's counter and entry change, and its TTL `window + 1` is set on its first count. |
| `RedisFixedWindow.AllowRun` | internal/limiter/redis_fixed_window_test.go:46-54 | Successive completed calls for one key never report an error, and they only ever add counters to the store. |
| `RedisFixedWindow.DecisionsWithinWindow` | internal/limiter/redis_fixed_window_test.go:45-63 | N calls within one aligned window, starting from a count c: the i-th is admitted iff `c + i < limit`, with no error. |
| `RedisFixedWindow.QuotaWithinWindow` | internal/limiter/redis_fixed_window_test.go:45-63 | The same calls admit exactly `clamp(limit - c)` of the N, so at most `limit - c`. For c = 0 exactly `min(N, limit)` are admitted. |
| `RedisFixedWindow.CountingWithinWindow` | internal/limiter/redis_fixed_window.go:54-64 | The same calls raise the window's counter to `c + N`. Its TTL `window + 1` is set once, by the window's first call, and no other TTL changes. |
| `RedisFixedWindow.OthersWithinWindow` | internal/limiter/redis_fixed_window.go:113-120 | The same calls add only the window's own entry to the store and change no other counter. |
| `RedisFixedWindow.NextWindowAllowed` | internal/limiter/redis_fixed_window_test.go:65-75 | After any calls in the current window, a call one window later is admitted, as long as the next window's key was uncounted. |
| `RedisFixedWindow.KeysIndependent` | internal/limiter/redis_fixed_window.go:113-120 | A call for one key never changes a later decision for a key with a different digest, whether the call completed or failed. |
| `RedisFixedWindow.RedisFixedWindowLimiter.constructor` | internal/limiter/redis_fixed_window.go:67-75 | The limiter holds the store and exactly the validated configuration. |
| `RedisFixedWindow.RedisFixedWindowLimiter.New` | internal/limiter/redis_fixed_window.go:35-76 | It applies the corrected checks `Validate`: it returns a limiter iff they accept, with the resulting settings, and otherwise the refusal reason. Unlike the source's constructor it refuses a window shorter than one second (see Findings). |
| `RedisFixedWindow.RedisFixedWindowLimiter.Allow` | internal/limiter/redis_fixed_window.go:79-101 | The decision and the new store are exactly `AllowStep`'s, for the limiter's configuration and the store's state before the call. |
| `RedisFixedWindow.ResetTrace` | internal/limiter/redis_fixed_window_test.go:45-75 | On the store's states, from an empty store with limit 3 and a ten-second window: four calls for one key at `t0` decide allow, allow, allow, deny, and a call at `t0 + 10` is allowed; none reports an error. |
| `RedisFixedWindow.ResetScenario` | internal/limiter/redis_fixed_window_test.go:12-76 | The test run through the limiter object: with limit 3, a ten-second window and a fixed clock, four calls for one key decide allow, allow, allow, deny. A call ten seconds later is allowed. None of them reports an error. |

## Left out

- The HTTP boundary (cmd/server/main.go): request decoding, status codes and
  the listener are I/O and are not modelled.
- The store client, script caching and context cancellation are not modelled.
  A store call is one atomic step or a transport error, given as the `fault`
  argument. A failed call is taken to have changed nothing. A reply lost
  after the script ran is not modelled.
- Concurrency is not modelled: the in-process limiter's lock and interleavings
  of calls on the store. Each `Allow` and each script run is one indivisible
  step.
- `RedisFixedWindow.KeyHash` is a stand-in, not SHA-1: a polynomial checksum
  written as 40 lowercase hex digits. It collides on easily found pairs, for
  example "Aa" and "BB", which SHA-1 keeps apart. Runs of the model for such
  keys share a counter and do not reflect the source. The lemmas about
  different keys are stated for keys whose digests differ.
- `RedisFixedWindow.KeysIndependent` and
  `RedisFixedWindow.DistinctKeysDistinctCounters` assume the two keys'
  digests differ. SHA-1 collisions are out of scope.
- Real-time expiry inside the store is not modelled. Only the TTL value is
  recorded, and expiry is the explicit step `Store.Expire`.
- Durations use integer arithmetic. Whole seconds are `windowSize / 10^9`.
  The source goes through a float (`Seconds()`), which can differ for windows
  above about 2^53 nanoseconds.
- Instants before 1970 are not modelled: `nowUnix >= 0` is required, because
  there Go's truncating division and Dafny's agree.
- 64-bit overflow of counters, limits and instants is not modelled: integers
  are unbounded.
- The implementation of the in-process limiter (`NewFixedWindowLimiter` and
  its `Allow`) is not part of this model. Its behaviour is taken from its
  unit test: open on first sight, admit while below the limit, reset once a
  full window has elapsed. Its constructor's refusal of a non-positive limit
  or window is a precondition.
- The `RateLimiter` interface has no Dafny counterpart, because no interface
  type is used. Both classes offer an `Allow` that returns a
  `Limiter.Decision`.
- The failure mode is fixed when a limiter is built. The source's
  constructor always sets fail-closed and offers no setter. The plain
  constructor here takes any settings, so fail-open stands for a limiter
  the package itself builds with the other mode.

## Findings

| source | as written | input that shows it | evidently intended | confidence | as-written member | corrected member |
|---|---|---|---|---|---|---|
| internal/limiter/redis_fixed_window.go:47-49 | Only `windowSize <= 0` is refused, but lines 82 and 106-108 use `int64(windowSize.Seconds())` as a divisor. | `windowSize = 500ms`: construction succeeds, the window in seconds is 0, and the first `Allow` divides by zero. | Windows shorter than one second are refused at construction. | high; not executed | `RedisFixedWindow.ValidateAsWritten` (shown by `RedisFixedWindow.SubSecondWindowAccepted`) | `RedisFixedWindow.Validate` |
