/**
 * The distributed fixed-window limiter: counting is delegated to the shared
 * store (see `RedisScript`), one counter per namespace, key and
 * epoch-aligned window.
 *
 * Times are whole Unix seconds (`nowUnix`, the injected clock read once per
 * call); the window size is configured as a duration in nanoseconds and
 * used in whole seconds, truncated. A call to the store either runs the
 * script as one atomic step or fails with a transport error (`fault`).
 */
module RedisFixedWindow {
  import opened Limiter
  import Decimal
  import opened RedisScript

  const NANOS_PER_SECOND := 1_000_000_000
  const DEFAULT_NAMESPACE := "fw"
  const HEX_DIGITS := "0123456789abcdef"
  const DIGEST_LENGTH := 40

  /** What `Allow` does when the store cannot be reached. */
  datatype FailureMode = FailOpen | FailClosed

  /** Why construction is refused. */
  datatype ConfigError = NilClient | NonPositiveLimit | NonPositiveWindow | SubSecondWindow

  datatype Result<+T> = Ok(value: T) | Err(error: ConfigError)

  /** The configuration a constructed limiter holds. */
  datatype Settings = Settings(namespace: string, limit: int, windowSize: int, failureMode: FailureMode)
  {
    /** The window in whole seconds: the duration's seconds, truncated. */
    function WindowSeconds(): (secs: nat)
      requires windowSize >= 0
      ensures secs * NANOS_PER_SECOND <= windowSize < (secs + 1) * NANOS_PER_SECOND
    {
      windowSize / NANOS_PER_SECOND
    }

    predicate Valid() {
      limit > 0 && windowSize >= 0 && WindowSeconds() > 0
    }
  }

  /* ---------------------------------------------------------------------
   * Construction
   * --------------------------------------------------------------------- */

  /**
   * The constructor's checks as the source has them, in order: a missing
   * client, then a non-positive limit, then a non-positive window size. An
   * empty namespace becomes "fw"; the failure mode starts as fail-closed.
   * This accepts a positive window shorter than one second, whose whole
   * seconds are 0 (see `SubSecondWindowAccepted`).
   */
  function ValidateAsWritten(hasClient: bool, namespace: string, limit: int, windowSize: int)
    : (r: Result<Settings>)
    ensures r.Ok? <==> hasClient && limit > 0 && windowSize > 0
    ensures !hasClient ==> r == Err(NilClient)
    ensures hasClient && limit <= 0 ==> r == Err(NonPositiveLimit)
    ensures hasClient && limit > 0 && windowSize <= 0 ==> r == Err(NonPositiveWindow)
    ensures r.Ok? ==>
      && r.value.limit == limit
      && r.value.windowSize == windowSize
      && r.value.failureMode == FailClosed
      && r.value.namespace == (if namespace == "" then DEFAULT_NAMESPACE else namespace)
      && r.value.namespace != ""
  {
    if !hasClient then Err(NilClient)
    else if limit <= 0 then Err(NonPositiveLimit)
    else if windowSize <= 0 then Err(NonPositiveWindow)
    else Ok(Settings(if namespace == "" then DEFAULT_NAMESPACE else namespace, limit, windowSize, FailClosed))
  }

  /**
   * The constructor's checks with the window also required to last at
   * least one second, so that every accepted configuration has a positive
   * window in seconds. It refuses exactly what the checks as written
   * refuse, plus the sub-second windows.
   */
  function Validate(hasClient: bool, namespace: string, limit: int, windowSize: int)
    : (r: Result<Settings>)
    ensures r.Ok? <==> hasClient && limit > 0 && windowSize >= NANOS_PER_SECOND
    ensures r.Ok? ==> r.value.Valid() && r == ValidateAsWritten(hasClient, namespace, limit, windowSize)
    ensures windowSize >= NANOS_PER_SECOND ==> r == ValidateAsWritten(hasClient, namespace, limit, windowSize)
    ensures 0 < windowSize < NANOS_PER_SECOND && hasClient && limit > 0 ==> r == Err(SubSecondWindow)
  {
    var r := ValidateAsWritten(hasClient, namespace, limit, windowSize);
    if r.Ok? && r.value.WindowSeconds() == 0 then Err(SubSecondWindow) else r
  }

  /**
   * A positive window shorter than a second passes the checks as written,
   * yet its whole seconds are 0: the window-start computation then divides
   * by zero on the first call.
   */
  lemma SubSecondWindowAccepted(windowSize: int)
    requires 0 < windowSize < NANOS_PER_SECOND
    ensures var r := ValidateAsWritten(true, "api", 5, windowSize);
      r.Ok? && r.value.WindowSeconds() == 0 && !r.value.Valid()
    ensures Validate(true, "api", 5, windowSize) == Err(SubSecondWindow)
  {
  }

  /* ---------------------------------------------------------------------
   * Window alignment
   * --------------------------------------------------------------------- */

  /** Multiplying by a positive number keeps distinct integers at least that far apart. */
  lemma {:induction false} MulGap(a: int, b: int, w: int)
    requires a > b && w > 0
    ensures a * w >= b * w + w
    decreases a - b
  {
    if a > b + 1 {
      MulGap(a - 1, b, w);
      assert a * w == (a - 1) * w + w;
    }
  }

  /** Quotient and remainder are the only pair that rebuilds `x`. */
  lemma DivModUnique(x: int, w: int, q: int, r: int)
    requires w > 0 && x == q * w + r && 0 <= r < w
    ensures x / w == q && x % w == r
  {
    var q0, r0 := x / w, x % w;
    assert x == q0 * w + r0;
    assert q0 == q by {
      if q0 > q {
        MulGap(q0, q, w);
        assert false;
      } else if q0 < q {
        MulGap(q, q0, w);
        assert false;
      }
    }
  }

  /** The start of the epoch-aligned window of `windowSec` seconds that holds `nowUnix`. */
  function WindowStart(nowUnix: int, windowSec: int): (start: nat)
    requires nowUnix >= 0 && windowSec > 0
    ensures start % windowSec == 0
    ensures start <= nowUnix < start + windowSec
  {
    var q := nowUnix / windowSec;
    assert nowUnix == q * windowSec + nowUnix % windowSec;
    DivModUnique(q * windowSec, windowSec, q, 0);
    q * windowSec
  }

  /**
   * The aligned window holding an instant is the only one: an aligned start
   * at most one window before `nowUnix` is its window start.
   */
  lemma WindowStartUnique(nowUnix: int, windowSec: int, m: int)
    requires nowUnix >= 0 && windowSec > 0
    requires m % windowSec == 0 && m <= nowUnix < m + windowSec
    ensures WindowStart(nowUnix, windowSec) == m
  {
    var p := m / windowSec;
    assert m == p * windowSec + m % windowSec;
    DivModUnique(nowUnix, windowSec, p, nowUnix - m);
  }

  /** Advancing the clock by one window moves the window start by exactly one window. */
  lemma NextWindowStart(nowUnix: int, windowSec: int)
    requires nowUnix >= 0 && windowSec > 0
    ensures WindowStart(nowUnix + windowSec, windowSec) == WindowStart(nowUnix, windowSec) + windowSec
  {
    var s := WindowStart(nowUnix, windowSec);
    var q := nowUnix / windowSec;
    assert s == q * windowSec;
    assert s + windowSec == (q + 1) * windowSec;
    DivModUnique(s + windowSec, windowSec, q + 1, 0);
    WindowStartUnique(nowUnix + windowSec, windowSec, s + windowSec);
  }

  /* ---------------------------------------------------------------------
   * Storage keys
   * --------------------------------------------------------------------- */

  /** A lowercase hexadecimal digest of the length SHA-1 produces. */
  predicate IsDigest(h: string) {
    |h| == DIGEST_LENGTH && forall i :: 0 <= i < |h| ==> h[i] in HEX_DIGITS
  }

  /** `n` modulo 16^width, as `width` lowercase hexadecimal digits. */
  function Hex(n: nat, width: nat): (h: string)
    ensures |h| == width
    ensures forall i :: 0 <= i < |h| ==> h[i] in HEX_DIGITS
  {
    if width == 0 then [] else Hex(n / 16, width - 1) + [HEX_DIGITS[n % 16]]
  }

  function Checksum(key: string): nat {
    if key == [] then 0 else Checksum(key[..|key| - 1]) * 31 + key[|key| - 1] as nat
  }

  /**
   * The digest of a logical key. A stand-in for the hex-encoded SHA-1 of
   * the key's bytes with the same shape (40 lowercase hex digits, so no
   * ':'). Its values are not SHA-1's: distinct keys such as "Aa" and "BB"
   * share a digest here, so statements about different keys are stated
   * for keys whose digests differ.
   */
  function KeyHash(key: string): (h: string)
    ensures IsDigest(h)
  {
    Hex(Checksum(key), DIGEST_LENGTH)
  }

  /** The three parts a storage key is made of. */
  datatype KeyParts = KeyParts(namespace: string, keyHash: string, windowStart: nat)

  /** `rl:<namespace>:<keyHash>:<windowStart>`, the start in decimal. */
  function FormatKey(p: KeyParts): string {
    "rl:" + p.namespace + ":" + p.keyHash + ":" + Decimal.Render(p.windowStart)
  }

  /**
   * The storage key `Allow` uses for `key` at `nowUnix`: it names the
   * limiter's namespace, the key's digest and the start of the aligned
   * window holding `nowUnix`.
   */
  function RedisKey(cfg: Settings, key: string, nowUnix: int): (sk: string)
    requires cfg.Valid() && nowUnix >= 0
    ensures ParseKey(sk) == Some(KeyParts(cfg.namespace, KeyHash(key), WindowStart(nowUnix, cfg.WindowSeconds())))
  {
    var p := KeyParts(cfg.namespace, KeyHash(key), WindowStart(nowUnix, cfg.WindowSeconds()));
    ParseFormatKey(p);
    FormatKey(p)
  }

  /** The position of the last ':' in `s`. */
  function LastColon(s: string): (r: Option<nat>)
    ensures r.Some? ==> r.value < |s| && s[r.value] == ':'
    ensures r.Some? ==> forall j :: r.value < j < |s| ==> s[j] != ':'
    ensures r.None? ==> forall j :: 0 <= j < |s| ==> s[j] != ':'
  {
    if s == [] then None
    else if s[|s| - 1] == ':' then Some(|s| - 1)
    else LastColon(s[..|s| - 1])
  }

  /**
   * Split a storage key back into its parts, from the right: the window
   * start follows the last ':', the digest is the 40 characters before the
   * ':' that precedes it, and the namespace (which may itself contain ':')
   * is everything between the "rl:" prefix and the digest.
   */
  function ParseKey(s: string): Option<KeyParts> {
    match LastColon(s)
    case None => None
    case Some(i) =>
      var head, digits := s[..i], s[i + 1..];
      if |head| < 4 + DIGEST_LENGTH || head[..3] != "rl:" || head[|head| - DIGEST_LENGTH - 1] != ':'
        || !IsDigest(head[|head| - DIGEST_LENGTH..]) || !Decimal.IsCanonical(digits)
      then None
      else Some(KeyParts(head[3..|head| - DIGEST_LENGTH - 1], head[|head| - DIGEST_LENGTH..], Decimal.Parse(digits)))
  }

  lemma LastColonIs(s: string, i: nat)
    requires i < |s| && s[i] == ':'
    requires forall j :: i < j < |s| ==> s[j] != ':'
    ensures LastColon(s) == Some(i)
  {
  }

  /** Every storage key with a well-formed digest parses back to its parts. */
  lemma ParseFormatKey(p: KeyParts)
    requires IsDigest(p.keyHash)
    ensures ParseKey(FormatKey(p)) == Some(p)
  {
    var digits := Decimal.Render(p.windowStart);
    var head := "rl:" + p.namespace + ":" + p.keyHash;
    var s := FormatKey(p);
    assert s == head + ":" + digits;
    assert s[|head|] == ':';
    forall j | |head| < j < |s|
      ensures s[j] != ':'
    {
      assert s[j] == digits[j - |head| - 1];
    }
    LastColonIs(s, |head|);
    assert s[..|head|] == head;
    assert s[|head| + 1..] == digits;
    Decimal.ParseRender(p.windowStart);
    assert head[..3] == "rl:";
    assert head[|head| - DIGEST_LENGTH..] == p.keyHash;
    assert head[3..|head| - DIGEST_LENGTH - 1] == p.namespace;
  }

  /** Whatever parses is the storage key of the parts it parses to. */
  lemma FormatParsedKey(s: string)
    requires ParseKey(s).Some?
    ensures IsDigest(ParseKey(s).value.keyHash)
    ensures FormatKey(ParseKey(s).value) == s
  {
  }

  /**
   * Storage keys determine namespace, digest and window start: keys built
   * from different parts never collide.
   */
  lemma FormatKeyInjective(p: KeyParts, q: KeyParts)
    requires IsDigest(p.keyHash) && IsDigest(q.keyHash)
    requires p != q
    ensures FormatKey(p) != FormatKey(q)
  {
    ParseFormatKey(p);
    ParseFormatKey(q);
  }

  /**
   * The storage key depends on the instant only through its aligned window:
   * all instants of one window share it.
   */
  lemma SameWindowSameKey(cfg: Settings, key: string, start: nat, t1: int, t2: int)
    requires cfg.Valid() && start % cfg.WindowSeconds() == 0
    requires start <= t1 < start + cfg.WindowSeconds()
    requires start <= t2 < start + cfg.WindowSeconds()
    ensures RedisKey(cfg, key, t1) == RedisKey(cfg, key, t2)
      == FormatKey(KeyParts(cfg.namespace, KeyHash(key), start))
  {
    WindowStartUnique(t1, cfg.WindowSeconds(), start);
    WindowStartUnique(t2, cfg.WindowSeconds(), start);
  }

  /** The next window of the same key is counted under a different storage key. */
  lemma NextWindowNewKey(cfg: Settings, key: string, nowUnix: int)
    requires cfg.Valid() && nowUnix >= 0
    ensures RedisKey(cfg, key, nowUnix + cfg.WindowSeconds()) != RedisKey(cfg, key, nowUnix)
  {
  }

  /**
   * Two logical keys with different digests, or two limiters with different
   * namespaces, never share a storage key, whatever the instants.
   */
  lemma DistinctKeysDistinctCounters(cfg1: Settings, key1: string, now1: int,
                                     cfg2: Settings, key2: string, now2: int)
    requires cfg1.Valid() && cfg2.Valid() && now1 >= 0 && now2 >= 0
    requires KeyHash(key1) != KeyHash(key2) || cfg1.namespace != cfg2.namespace
    ensures RedisKey(cfg1, key1, now1) != RedisKey(cfg2, key2, now2)
  {
    FormatKeyInjective(
      KeyParts(cfg1.namespace, KeyHash(key1), WindowStart(now1, cfg1.WindowSeconds())),
      KeyParts(cfg2.namespace, KeyHash(key2), WindowStart(now2, cfg2.WindowSeconds())));
  }

  /* ---------------------------------------------------------------------
   * Decisions
   * --------------------------------------------------------------------- */

  datatype Outcome = Outcome(decision: Decision, store: StoreState)

  /**
   * One call of `Allow`: run the script on the key's storage key for the
   * current window, with the limit and a time-to-live of the window plus
   * one second; on a transport error apply the failure mode.
   */
  function AllowStep(cfg: Settings, s: StoreState, key: string, nowUnix: int, fault: Option<Error>)
    : (r: Outcome)
    requires cfg.Valid() && nowUnix >= 0
    // a failed call changes nothing; fail-open admits with no error,
    // fail-closed refuses and passes on the same error
    ensures fault.Some? ==> r.store == s
    ensures fault.Some? && cfg.failureMode == FailOpen ==> r.decision == ALLOWED
    ensures fault.Some? && cfg.failureMode == FailClosed ==> r.decision == Decision(false, fault)
    // a completed call counts one request in the current window and admits
    // it exactly when the count is still within the limit; a refusal is
    // not an error
    ensures fault.None? ==>
      var sk := RedisKey(cfg, key, nowUnix);
      && r.decision == Decision(Counter(s, sk) < cfg.limit, None)
      && Counter(r.store, sk) == Counter(s, sk) + 1
      && r.store.counters.Keys == s.counters.Keys + {sk}
      && (forall k :: k != sk ==> Counter(r.store, k) == Counter(s, k))
      && r.store.ttls == if Counter(s, sk) == 0 then s.ttls[sk := cfg.WindowSeconds() + 1] else s.ttls
  {
    var sk := RedisKey(cfg, key, nowUnix);
    match fault
    case Some(e) =>
      Outcome(if cfg.failureMode == FailOpen then ALLOWED else Decision(false, Some(e)), s)
    case None =>
      var reply := Script(s, sk, cfg.limit, cfg.WindowSeconds() + 1);
      Outcome(Decision(reply.result == 1, None), reply.store)
  }

  datatype Trace = Trace(decisions: seq<Decision>, store: StoreState)

  /** Successive completed calls of `Allow` for `key` at the instants `times`. */
  function AllowRun(cfg: Settings, s: StoreState, key: string, times: seq<int>): (r: Trace)
    requires cfg.Valid()
    requires forall i :: 0 <= i < |times| ==> times[i] >= 0
    ensures |r.decisions| == |times|
    // completed calls never report an error
    ensures forall i :: 0 <= i < |r.decisions| ==> r.decisions[i].err.None?
    // counters are only ever added and incremented
    ensures r.store.counters.Keys >= s.counters.Keys
    decreases |times|
  {
    if times == [] then Trace([], s)
    else
      var o := AllowStep(cfg, s, key, times[0], None);
      var rest := AllowRun(cfg, o.store, key, times[1..]);
      Trace([o.decision] + rest.decisions, rest.store)
  }

  /** All of `times` fall in the aligned window that starts at `start`. */
  predicate AllInWindow(times: seq<int>, start: nat, windowSec: int)
    requires windowSec > 0
  {
    forall i :: 0 <= i < |times| ==> start <= times[i] < start + windowSec
  }

  /**
   * Calls for one key within one aligned window, starting from a counter
   * of c for that window: the i-th is admitted exactly when `c + i < limit`,
   * and none is an error.
   */
  lemma {:induction false} DecisionsWithinWindow(cfg: Settings, s: StoreState, key: string, start: nat, times: seq<int>)
    requires cfg.Valid()
    requires start % cfg.WindowSeconds() == 0
    requires AllInWindow(times, start, cfg.WindowSeconds())
    ensures forall i :: 0 <= i < |times| ==>
      AllowRun(cfg, s, key, times).decisions[i] ==
        Decision(Counter(s, FormatKey(KeyParts(cfg.namespace, KeyHash(key), start))) + i < cfg.limit, None)
    decreases |times|
  {
    var sk := FormatKey(KeyParts(cfg.namespace, KeyHash(key), start));
    var c := Counter(s, sk);
    if times != [] {
      SameWindowSameKey(cfg, key, start, times[0], times[0]);
      var o := AllowStep(cfg, s, key, times[0], None);
      assert o.decision == Decision(c < cfg.limit, None);
      assert Counter(o.store, sk) == c + 1;
      DecisionsWithinWindow(cfg, o.store, key, start, times[1..]);
      var r, rest := AllowRun(cfg, s, key, times), AllowRun(cfg, o.store, key, times[1..]);
      assert r.decisions == [o.decision] + rest.decisions;
      forall i | 0 < i < |times|
        ensures r.decisions[i] == Decision(c + i < cfg.limit, None)
      {
        assert r.decisions[i] == rest.decisions[i - 1];
        assert rest.decisions[i - 1] == Decision(c + 1 + (i - 1) < cfg.limit, None);
      }
    }
  }

  /**
   * The quota of one window: calls for one key within one aligned window,
   * starting from a counter of c for that window, admit `limit - c` calls
   * at most, and exactly that many when there are enough calls; every
   * refusal comes after every admission. For a window not yet counted
   * (c = 0) exactly `min(N, limit)` calls are admitted.
   */
  lemma QuotaWithinWindow(cfg: Settings, s: StoreState, key: string, start: nat, times: seq<int>)
    requires cfg.Valid()
    requires start % cfg.WindowSeconds() == 0
    requires AllInWindow(times, start, cfg.WindowSeconds())
    ensures var c := Counter(s, FormatKey(KeyParts(cfg.namespace, KeyHash(key), start)));
      var r := AllowRun(cfg, s, key, times);
      && (forall i :: 0 <= i < |times| ==> r.decisions[i] == Decision(c + i < cfg.limit, None))
      && CountAllowed(r.decisions) == Clamp(cfg.limit - c, |times|)
      && (c == 0 ==> CountAllowed(r.decisions) == Clamp(cfg.limit, |times|))
  {
    var c := Counter(s, FormatKey(KeyParts(cfg.namespace, KeyHash(key), start)));
    var ds := AllowRun(cfg, s, key, times).decisions;
    DecisionsWithinWindow(cfg, s, key, start, times);
    assert forall i :: 0 <= i < |ds| ==> ds[i].allowed == (c + i < cfg.limit);
    CountBelowThreshold(ds, c, cfg.limit);
  }

  /**
   * What calls for one key within one aligned window do to that window's
   * entry: its counter goes up by one per call, and its time-to-live is set
   * once, by the window's first call.
   */
  lemma {:induction false} CountingWithinWindow(cfg: Settings, s: StoreState, key: string, start: nat, times: seq<int>)
    requires cfg.Valid()
    requires start % cfg.WindowSeconds() == 0
    requires AllInWindow(times, start, cfg.WindowSeconds())
    ensures var sk := FormatKey(KeyParts(cfg.namespace, KeyHash(key), start));
      var c := Counter(s, sk);
      var r := AllowRun(cfg, s, key, times);
      && Counter(r.store, sk) == c + |times|
      && r.store.ttls == if c == 0 && |times| > 0 then s.ttls[sk := cfg.WindowSeconds() + 1] else s.ttls
    decreases |times|
  {
    var sk := FormatKey(KeyParts(cfg.namespace, KeyHash(key), start));
    if times != [] {
      SameWindowSameKey(cfg, key, start, times[0], times[0]);
      var o := AllowStep(cfg, s, key, times[0], None);
      assert Counter(o.store, sk) == Counter(s, sk) + 1;
      assert o.store.ttls == if Counter(s, sk) == 0 then s.ttls[sk := cfg.WindowSeconds() + 1] else s.ttls;
      CountingWithinWindow(cfg, o.store, key, start, times[1..]);
      assert AllowRun(cfg, s, key, times).store == AllowRun(cfg, o.store, key, times[1..]).store;
    }
  }

  /**
   * Calls for one key within one aligned window leave every other entry of
   * the store alone: no other counter changes and only that window's entry
   * is added.
   */
  lemma {:induction false} OthersWithinWindow(cfg: Settings, s: StoreState, key: string, start: nat, times: seq<int>)
    requires cfg.Valid()
    requires start % cfg.WindowSeconds() == 0
    requires AllInWindow(times, start, cfg.WindowSeconds())
    ensures var sk := FormatKey(KeyParts(cfg.namespace, KeyHash(key), start));
      var r := AllowRun(cfg, s, key, times);
      && r.store.counters.Keys == (if |times| > 0 then s.counters.Keys + {sk} else s.counters.Keys)
      && (forall k :: k != sk ==> Counter(r.store, k) == Counter(s, k))
    decreases |times|
  {
    if times != [] {
      SameWindowSameKey(cfg, key, start, times[0], times[0]);
      var o := AllowStep(cfg, s, key, times[0], None);
      OthersWithinWindow(cfg, o.store, key, start, times[1..]);
      assert AllowRun(cfg, s, key, times).store == AllowRun(cfg, o.store, key, times[1..]).store;
    }
  }

  /**
   * After any number of calls at instants of the current window, a call one
   * window later is admitted, provided the next window's storage key has
   * not been counted yet (the counting of this window never touches it).
   */
  lemma NextWindowAllowed(cfg: Settings, s: StoreState, key: string, nowUnix: int, times: seq<int>)
    requires cfg.Valid() && nowUnix >= 0
    requires AllInWindow(times, WindowStart(nowUnix, cfg.WindowSeconds()), cfg.WindowSeconds())
    requires Counter(s, RedisKey(cfg, key, nowUnix + cfg.WindowSeconds())) == 0
    ensures var r := AllowRun(cfg, s, key, times);
      AllowStep(cfg, r.store, key, nowUnix + cfg.WindowSeconds(), None).decision == ALLOWED
  {
    var w := cfg.WindowSeconds();
    OthersWithinWindow(cfg, s, key, WindowStart(nowUnix, w), times);
    NextWindowNewKey(cfg, key, nowUnix);
  }

  /**
   * A call for one key, completed or not, never changes what a later call
   * for a key with a different digest decides.
   */
  lemma KeysIndependent(cfg: Settings, s: StoreState, key1: string, now1: int, fault1: Option<Error>,
                        key2: string, now2: int, fault2: Option<Error>)
    requires cfg.Valid() && now1 >= 0 && now2 >= 0
    requires KeyHash(key1) != KeyHash(key2)
    ensures var s' := AllowStep(cfg, s, key1, now1, fault1).store;
      AllowStep(cfg, s', key2, now2, fault2).decision == AllowStep(cfg, s, key2, now2, fault2).decision
  {
    DistinctKeysDistinctCounters(cfg, key1, now1, cfg, key2, now2);
  }

  /** The distributed limiter: its configuration and the store it talks to. */
  class RedisFixedWindowLimiter {
    const rdb: Store
    const namespace: string
    const limit: int
    const windowSize: int
    const failureMode: FailureMode

    function Config(): Settings
    {
      Settings(namespace, limit, windowSize, failureMode)
    }

    constructor (rdb: Store, cfg: Settings)
      requires cfg.Valid()
      ensures this.rdb == rdb && Config() == cfg
    {
      this.rdb := rdb;
      namespace := cfg.namespace;
      limit := cfg.limit;
      windowSize := cfg.windowSize;
      failureMode := cfg.failureMode;
    }

    /**
     * Build a limiter on the store `rdb` (null: no client). A refused
     * configuration is an error result instead of a limiter.
     */
    static method New(rdb: Store?, namespace: string, limit: int, windowSize: int)
      returns (r: Result<RedisFixedWindowLimiter>)
      ensures var v := Validate(rdb != null, namespace, limit, windowSize);
        && (r.Ok? <==> v.Ok?)
        && (r.Err? ==> r.error == v.error)
        && (r.Ok? ==> fresh(r.value) && r.value.rdb == rdb && r.value.Config() == v.value)
    {
      var v := Validate(rdb != null, namespace, limit, windowSize);
      if v.Err? {
        return Err(v.error);
      }
      var rl := new RedisFixedWindowLimiter(rdb, v.value);
      return Ok(rl);
    }

    /**
     * Decide one request for `key` at `nowUnix`; `fault` is the transport
     * error of the store call, if it fails.
     */
    method Allow(key: string, nowUnix: int, fault: Option<Error>) returns (d: Decision)
      requires Config().Valid() && nowUnix >= 0
      modifies rdb
      ensures var o := AllowStep(Config(), old(rdb.State()), key, nowUnix, fault);
        d == o.decision && rdb.State() == o.store
    {
      var redisKey := RedisKey(Config(), key, nowUnix);
      var windowSec := windowSize / NANOS_PER_SECOND;
      var ttlSeconds := windowSec + 1;
      var result, err := rdb.EvalScript(redisKey, limit, ttlSeconds, fault);
      if err.Some? {
        if failureMode == FailOpen {
          return ALLOWED;
        }
        return Decision(false, err);
      }
      return Decision(result == 1, None);
    }
  }

  /**
   * The decisions of the limiter's reset test, on store states: limit 3, a
   * ten-second window, an empty store; four calls for one key at `t0`, then
   * one ten seconds later.
   */
  lemma ResetTrace(cfg: Settings, key: string, t0: int)
    requires cfg.Valid() && cfg.limit == 3 && cfg.WindowSeconds() == 10 && t0 >= 0
    ensures var o1 := AllowStep(cfg, StoreState(map[], map[]), key, t0, None);
      var o2 := AllowStep(cfg, o1.store, key, t0, None);
      var o3 := AllowStep(cfg, o2.store, key, t0, None);
      var o4 := AllowStep(cfg, o3.store, key, t0, None);
      var o5 := AllowStep(cfg, o4.store, key, t0 + 10, None);
      [o1.decision, o2.decision, o3.decision, o4.decision, o5.decision] == [ALLOWED, ALLOWED, ALLOWED, DENIED, ALLOWED]
  {
  }

  /**
   * The limiter's reset test: limit 3, a ten-second window, the clock fixed
   * at `t0`; four calls for one key ("userA" in the test), then one ten
   * seconds later. No call reports an error.
   */
  method ResetScenario(t0: int, user: string) returns (decisions: seq<Decision>)
    requires t0 >= 0
    ensures decisions == [ALLOWED, ALLOWED, ALLOWED, DENIED, ALLOWED]
  {
    var store := new Store();
    ghost var cfg := Settings("fw", 3, 10 * NANOS_PER_SECOND, FailClosed);
    assert cfg.WindowSeconds() == 10;
    assert Validate(true, "fw", 3, 10 * NANOS_PER_SECOND) == Ok(cfg);
    var created := RedisFixedWindowLimiter.New(store, "fw", 3, 10 * NANOS_PER_SECOND);
    if created.Err? {
      assert false;
    }
    var limiter := created.value;
    var now := t0;
    var d1 := limiter.Allow(user, now, None);
    var d2 := limiter.Allow(user, now, None);
    var d3 := limiter.Allow(user, now, None);
    var d4 := limiter.Allow(user, now, None);
    now := now + 10;
    var d5 := limiter.Allow(user, now, None);
    ResetTrace(cfg, user, t0);
    decisions := [d1, d2, d3, d4, d5];
  }
}
