/**
 * The shared counter store of the distributed limiter and the server-side
 * script the limiter runs against it.
 *
 * The store holds integer counters and, for some of them, a time-to-live
 * in seconds. The script is executed by the store as one indivisible
 * step: increment the counter at the given storage key (an absent key
 * counts as 0), set its time-to-live when the new value is 1, and reply 1
 * when the new value is within the limit, 0 otherwise. Expiry is not
 * driven by a clock here; it is the explicit `Expire` step.
 */
module RedisScript {
  import opened Limiter

  datatype StoreState = StoreState(counters: map<string, nat>, ttls: map<string, int>)

  /** The script's reply and the store it leaves behind. */
  datatype Reply = Reply(store: StoreState, result: int)

  /** The value an increment of `key` starts from: absent keys read as 0. */
  function Counter(s: StoreState, key: string): nat {
    if key in s.counters then s.counters[key] else 0
  }

  /**
   * The rate-limiting script run on `key` with arguments `limit` and
   * `ttlSeconds`.
   */
  function Script(s: StoreState, key: string, limit: int, ttlSeconds: int): (r: Reply)
    // the counter goes up by exactly one, past the limit too
    ensures Counter(r.store, key) == Counter(s, key) + 1
    ensures r.store.counters.Keys == s.counters.Keys + {key}
    // no other counter changes
    ensures forall k :: k != key ==> Counter(r.store, k) == Counter(s, k)
    // the time-to-live is written by the first increment only
    ensures r.store.ttls == if Counter(s, key) == 0 then s.ttls[key := ttlSeconds] else s.ttls
    // 1 exactly when the incremented value is within the limit, 0 otherwise
    ensures r.result == (if Counter(s, key) + 1 <= limit then 1 else 0)
  {
    var current := Counter(s, key) + 1;
    var ttls := if current == 1 then s.ttls[key := ttlSeconds] else s.ttls;
    Reply(StoreState(s.counters[key := current], ttls), if current <= limit then 1 else 0)
  }

  /** The store dropping `key` when its time-to-live runs out. */
  function ExpireKey(s: StoreState, key: string): (r: StoreState)
    ensures Counter(r, key) == 0 && key !in r.ttls
    ensures r.counters.Keys == s.counters.Keys - {key}
    // every other key keeps its counter and its time-to-live
    ensures forall k :: k != key ==> Counter(r, k) == Counter(s, k)
    ensures forall k :: k != key ==> (k in r.ttls <==> k in s.ttls) && (k in r.ttls ==> r.ttls[k] == s.ttls[k])
  {
    StoreState(s.counters - {key}, s.ttls - {key})
  }

  /**
   * After its entry has expired, a key's next increment starts a new count:
   * it is admitted under any positive limit and gets a new time-to-live.
   */
  lemma ScriptAfterExpiry(s: StoreState, key: string, limit: int, ttlSeconds: int)
    requires limit > 0
    ensures var r := Script(ExpireKey(s, key), key, limit, ttlSeconds);
      r.result == 1 && Counter(r.store, key) == 1 && r.store.ttls[key] == ttlSeconds
  {
  }

  /** The shared store, reached over the network. */
  class Store {
    var counters: map<string, nat>
    var ttls: map<string, int>

    function State(): StoreState
      reads this
    {
      StoreState(counters, ttls)
    }

    constructor ()
      ensures State() == StoreState(map[], map[])
    {
      counters := map[];
      ttls := map[];
    }

    /**
     * Run the script on `key`. When the call cannot be completed
     * (`fault` holds the transport error) the store is left as it was and
     * the error is returned instead of a reply.
     */
    method EvalScript(key: string, limit: int, ttlSeconds: int, fault: Option<Error>)
      returns (result: int, err: Option<Error>)
      modifies this
      ensures err == fault
      ensures fault.Some? ==> State() == old(State())
      ensures fault.None? ==> Reply(State(), result) == Script(old(State()), key, limit, ttlSeconds)
    {
      if fault.Some? {
        return 0, fault;
      }
      var current := (if key in counters then counters[key] else 0) + 1;
      counters := counters[key := current];
      if current == 1 {
        ttls := ttls[key := ttlSeconds];
      }
      result := if current <= limit then 1 else 0;
      err := None;
    }

    /** The time-to-live of `key` runs out. */
    method Expire(key: string)
      modifies this
      ensures State() == ExpireKey(old(State()), key)
    {
      counters := counters - {key};
      ttls := ttls - {key};
    }
  }
}
