/** The read-through cache in front of the Stripe calls (`withCache`,
    `clearCache`, `clearCachePattern`), over a Redis-style key/value store
    with per-key expiry.

    The store is a map from the prefixed key to an entry holding the stored
    value (`None` for a stored `null`) and the second at which it expires.
    The backend's failures are inputs: `getFails` makes the read throw,
    `setFails` makes the write throw, and the write also throws for a
    non-positive TTL, which Redis rejects for SETEX. The fetcher is a function
    of the call number: `fetch(0)` is the first call's outcome, `fetch(1)` the
    second's. */
module Cache {
  import opened Wrappers

  /** `DEFAULT_TTL_SECONDS` */
  const DefaultTtlSeconds: int := 30 * 60

  datatype Entry<V> = Entry(value: Option<V>, expiresAt: int)

  type Store<V> = map<string, Entry<V>>

  datatype Backend = Backend(getFails: bool, setFails: bool)

  /** The value `withCache` returns (or the error it rejects with), the number
      of fetcher calls it made, and the store afterwards. */
  datatype Outcome<V> = Outcome(result: Result<Option<V>, string>, calls: nat, store: Store<V>)

  const Prefix: string := "cache:"

  /** `` `cache:${key}` ``: the prefix can be stripped again, so distinct keys never share an entry. */
  function CacheKey(key: string): (r: string)
    ensures |r| == |Prefix| + |key|
    ensures r[..|Prefix|] == Prefix && r[|Prefix|..] == key
  {
    Prefix + key
  }

  lemma CacheKeyInjective(a: string, b: string)
    ensures CacheKey(a) == CacheKey(b) <==> a == b
  {
    if CacheKey(a) == CacheKey(b) {
      assert a == CacheKey(a)[|Prefix|..];
    }
  }

  /** `ttlMs ? Math.floor(ttlMs / 1000) : DEFAULT_TTL_SECONDS`: an absent or
      zero TTL gives the default, any other is whole seconds rounded down. */
  function TtlSeconds(ttlMs: Option<int>): (r: int)
    ensures ttlMs.None? || ttlMs.value == 0 ==> r == DefaultTtlSeconds
    ensures ttlMs.Some? && ttlMs.value != 0 ==> r * 1000 <= ttlMs.value < r * 1000 + 1000
  {
    if ttlMs.None? || ttlMs.value == 0 then DefaultTtlSeconds else ttlMs.value / 1000
  }

  /** A TTL under one second, given as milliseconds, rounds down to zero seconds. */
  lemma SubSecondTtlIsZero(ttlMs: int)
    requires 0 < ttlMs < 1000
    ensures TtlSeconds(Some(ttlMs)) == 0
  {
  }

  /** What `kv.get` returns at second `now`: the stored value while the entry
      has not expired, `null` otherwise. */
  function Stored<V>(store: Store<V>, now: int, k: string): Option<V>
  {
    if k in store && now < store[k].expiresAt then store[k].value else None
  }

  /** The `catch` branch: call the fetcher once more and return its outcome. */
  function Fallback<V>(store: Store<V>, fetch: nat -> Result<Option<V>, string>, calls: nat): Outcome<V>
  {
    Outcome(fetch(calls), calls + 1, store)
  }

  /** `withCache`: a non-null live value is returned as is; otherwise the
      fetcher runs and its data is written with the TTL; any throw inside
      the `try` (the read, the fetcher, the write) falls back to calling
      the fetcher again. */
  function WithCacheSpec<V>(store: Store<V>, now: int, key: string, fetch: nat -> Result<Option<V>, string>,
                            ttlMs: Option<int>, backend: Backend): Outcome<V>
  {
    var k := CacheKey(key);
    if backend.getFails then Fallback(store, fetch, 0)
    else if Stored(store, now, k).Some? then Outcome(Ok(Stored(store, now, k)), 0, store)
    else match fetch(0)
      case Err(_) => Fallback(store, fetch, 1)
      case Ok(data) =>
        var ttl := TtlSeconds(ttlMs);
        if backend.setFails || ttl <= 0 then Fallback(store, fetch, 1)
        else Outcome(Ok(data), 1, store[k := Entry(data, now + ttl)])
  }

  /** Hit: a live non-null value is returned without calling the fetcher, and nothing is written. */
  lemma Hit<V>(store: Store<V>, now: int, key: string, fetch: nat -> Result<Option<V>, string>,
               ttlMs: Option<int>, backend: Backend)
    requires !backend.getFails && Stored(store, now, CacheKey(key)).Some?
    ensures WithCacheSpec(store, now, key, fetch, ttlMs, backend)
         == Outcome(Ok(Stored(store, now, CacheKey(key))), 0, store)
  {
  }

  /** Miss: the fetcher is called once, its data is returned unchanged and is
      what the key holds until the TTL runs out. */
  lemma Miss<V>(store: Store<V>, now: int, key: string, fetch: nat -> Result<Option<V>, string>,
                ttlMs: Option<int>, backend: Backend)
    requires !backend.getFails && !backend.setFails
    requires Stored(store, now, CacheKey(key)).None?
    requires fetch(0).Ok? && TtlSeconds(ttlMs) > 0
    ensures var o := WithCacheSpec(store, now, key, fetch, ttlMs, backend);
      && o.result == fetch(0) && o.calls == 1
      && forall t :: now <= t < now + TtlSeconds(ttlMs) ==> Stored(o.store, t, CacheKey(key)) == fetch(0).value
  {
  }

  /** A stored `null` is read as a miss: the fetcher runs. */
  lemma StoredNullIsMiss<V>(store: Store<V>, now: int, key: string, fetch: nat -> Result<Option<V>, string>,
                            ttlMs: Option<int>, backend: Backend)
    requires CacheKey(key) in store && store[CacheKey(key)].value.None?
    ensures WithCacheSpec(store, now, key, fetch, ttlMs, backend).calls >= 1
  {
  }

  /** Whatever happens, the fetcher runs at most twice; when it runs, its last
      outcome is what `withCache` returns; when it does not, the value came
      from a hit. Only the entry under the prefixed key may change. */
  lemma Outcomes<V>(store: Store<V>, now: int, key: string, fetch: nat -> Result<Option<V>, string>,
                    ttlMs: Option<int>, backend: Backend)
    ensures var o := WithCacheSpec(store, now, key, fetch, ttlMs, backend);
      && o.calls <= 2
      && (o.calls == 0 <==> !backend.getFails && Stored(store, now, CacheKey(key)).Some?)
      && (o.calls > 0 ==> o.result == fetch(o.calls - 1))
      && (o.store == store || o.store == store[CacheKey(key) := o.store[CacheKey(key)]])
      && (forall k :: k != CacheKey(key) ==> (k in o.store <==> k in store) && (k in store ==> o.store[k] == store[k]))
  {
  }

  /** A throw after the fetcher has run (the fetcher's own, or the write's)
      makes the fetcher run a second time, and nothing is stored. */
  lemma FailureAfterFetchCallsTwice<V>(store: Store<V>, now: int, key: string, fetch: nat -> Result<Option<V>, string>,
                                       ttlMs: Option<int>, backend: Backend)
    requires !backend.getFails && Stored(store, now, CacheKey(key)).None?
    requires fetch(0).Err? || backend.setFails || TtlSeconds(ttlMs) <= 0
    ensures WithCacheSpec(store, now, key, fetch, ttlMs, backend) == Outcome(fetch(1), 2, store)
  {
  }

  /** A sub-second TTL never caches: every call is a miss, and a successful
      fetch is followed by a second one. */
  lemma SubSecondTtlNeverCaches<V>(store: Store<V>, now: int, key: string, fetch: nat -> Result<Option<V>, string>,
                                   ttlMs: int, backend: Backend)
    requires 0 < ttlMs < 1000
    requires Stored(store, now, CacheKey(key)).None?
    ensures WithCacheSpec(store, now, key, fetch, Some(ttlMs), backend).store == store
    ensures !backend.getFails ==> WithCacheSpec(store, now, key, fetch, Some(ttlMs), backend).calls == 2
  {
    SubSecondTtlIsZero(ttlMs);
  }

  /** A call made while a non-null entry written by an earlier call is still
      live is a hit returning that entry's data. */
  lemma SecondCallHits<V>(store: Store<V>, now: int, later: int, key: string,
                          fetch: nat -> Result<Option<V>, string>, fetch2: nat -> Result<Option<V>, string>,
                          ttlMs: Option<int>, ttlMs2: Option<int>, backend: Backend, backend2: Backend)
    requires !backend.getFails && !backend.setFails && !backend2.getFails
    requires Stored(store, now, CacheKey(key)).None?
    requires fetch(0).Ok? && fetch(0).value.Some? && TtlSeconds(ttlMs) > 0
    requires now <= later < now + TtlSeconds(ttlMs)
    ensures var first := WithCacheSpec(store, now, key, fetch, ttlMs, backend);
      WithCacheSpec(first.store, later, key, fetch2, ttlMs2, backend2) == Outcome(fetch(0), 0, first.store)
  {
    Miss(store, now, key, fetch, ttlMs, backend);
  }

  /** Once the TTL written by an earlier call has run out, the entry has
      expired: the next call is a miss and calls its fetcher. */
  lemma ExpiredCallFetches<V>(store: Store<V>, now: int, later: int, key: string,
                              fetch: nat -> Result<Option<V>, string>, fetch2: nat -> Result<Option<V>, string>,
                              ttlMs: Option<int>, ttlMs2: Option<int>, backend: Backend, backend2: Backend)
    requires !backend.getFails && !backend.setFails
    requires Stored(store, now, CacheKey(key)).None?
    requires fetch(0).Ok? && TtlSeconds(ttlMs) > 0
    requires later >= now + TtlSeconds(ttlMs)
    ensures var first := WithCacheSpec(store, now, key, fetch, ttlMs, backend);
      && Stored(first.store, later, CacheKey(key)).None?
      && WithCacheSpec(first.store, later, key, fetch2, ttlMs2, backend2).calls >= 1
  {
    var first := WithCacheSpec(store, now, key, fetch, ttlMs, backend);
    assert first.store == store[CacheKey(key) := Entry(fetch(0).value, now + TtlSeconds(ttlMs))];
  }

  /** `clearCache`'s `kv.del`: the entry under the prefixed key is gone. */
  function Remove<V>(store: Store<V>, key: string): (r: Store<V>)
    ensures CacheKey(key) !in r
    ensures forall k :: k != CacheKey(key) ==> (k in r <==> k in store) && (k in r ==> r[k] == store[k])
  {
    store - {CacheKey(key)}
  }

  /** After `clearCache(key)` the next `withCache(key, …)` is a miss (or a read failure): the fetcher runs. */
  lemma ClearedIsMiss<V>(store: Store<V>, now: int, key: string, fetch: nat -> Result<Option<V>, string>,
                         ttlMs: Option<int>, backend: Backend)
    ensures WithCacheSpec(Remove(store, key), now, key, fetch, ttlMs, backend).calls >= 1
  {
  }

  /** The store itself: the entries and the clock in seconds. */
  class KvCache<V> {
    var store: Store<V>
    var now: int

    constructor (start: int)
      ensures store == map[] && now == start
    {
      store := map[];
      now := start;
    }

    /** `withCache(key, fetcher, ttlMs)` */
    method WithCache(key: string, fetch: nat -> Result<Option<V>, string>, ttlMs: Option<int>, backend: Backend)
      returns (r: Result<Option<V>, string>, calls: nat)
      modifies this
      ensures now == old(now)
      ensures Outcome(r, calls, store) == WithCacheSpec(old(store), now, key, fetch, ttlMs, backend)
    {
      var k := CacheKey(key);
      calls := 0;
      if !backend.getFails {
        var cached := Stored(store, now, k);
        if cached.Some? {
          return Ok(cached), 0;
        }
        var data := fetch(0);
        calls := 1;
        if data.Ok? {
          var ttlSeconds := TtlSeconds(ttlMs);
          if !backend.setFails && ttlSeconds > 0 {
            store := store[k := Entry(data.value, now + ttlSeconds)];
            return data, 1;
          }
        }
      }
      r := fetch(calls);
      calls := calls + 1;
    }

    /** `clearCache(key)`: a failing delete is swallowed, so it never throws. */
    method ClearCache(key: string, delFails: bool)
      modifies this
      ensures now == old(now)
      ensures store == if delFails then old(store) else Remove(old(store), key)
    {
      if !delFails {
        store := Remove(store, key);
      }
    }

    /** `clearCachePattern(pattern)` only logs. */
    method ClearCachePattern(pattern: string)
      ensures unchanged(this)
    {
    }

    /** The clock moves on; entries past their expiry read as absent. */
    method Tick(seconds: nat)
      modifies this
      ensures store == old(store) && now == old(now) + seconds
    {
      now := now + seconds;
    }
  }

  /** The keys the dashboard's cache-clear route deletes, for a request
      period (`body.period || "last4weeks"`). */
  function ClearedKeys(period: Option<string>): (r: seq<string>)
    ensures |r| == 4
  {
    var p := if period.None? || period.value == "" then "last4weeks" else period.value;
    ["dashboard-metrics-v4-" + p, "trends-v4-" + p, "recent-activity-v2", "analytics-metrics-v2"]
  }

  /** The keys the metrics functions cache under. */
  const MetricsKeys: seq<string> := [
    "current-members", "new-signups-month", "cancellations-month", "total-revenue",
    "dashboard-metrics", "growth-trends-v2", "recent-activity"]

  function RemoveAll<V>(store: Store<V>, keys: seq<string>): Store<V>
  {
    if keys == [] then store else Remove(RemoveAll(store, keys[..|keys| - 1]), keys[|keys| - 1])
  }

  lemma {:induction false} RemoveAllKeeps<V>(store: Store<V>, keys: seq<string>, k: string)
    requires forall i :: 0 <= i < |keys| ==> CacheKey(keys[i]) != k
    ensures (k in RemoveAll(store, keys) <==> k in store)
    ensures k in store ==> RemoveAll(store, keys)[k] == store[k]
    decreases |keys|
  {
    if keys != [] {
      RemoveAllKeeps(store, keys[..|keys| - 1], k);
    }
  }

  /** No key the route clears is one the metrics functions write. */
  lemma ClearedKeysMissMetrics(period: Option<string>)
    ensures forall i, j :: 0 <= i < 4 && 0 <= j < |MetricsKeys| ==> ClearedKeys(period)[i] != MetricsKeys[j]
  {
    var c := ClearedKeys(period);
    forall i, j | 0 <= i < 4 && 0 <= j < |MetricsKeys| ensures c[i] != MetricsKeys[j] {
      var m := MetricsKeys[j];
      if i == 0 {
        assert |m| < 21 <= |c[i]|;
      } else if i == 1 {
        assert c[i][0] == 't' && c[i][1] == 'r';
        assert m[0] != 't' || m[1] != 'r';
      } else {
        assert |c[i]| != |m|;
      }
    }
  }

  /** Clearing the route's keys leaves every metrics entry as it was. */
  lemma ClearRouteKeepsMetrics<V>(store: Store<V>, now: int, period: Option<string>)
    ensures forall j :: 0 <= j < |MetricsKeys| ==>
      Stored(RemoveAll(store, ClearedKeys(period)), now, CacheKey(MetricsKeys[j])) == Stored(store, now, CacheKey(MetricsKeys[j]))
  {
    ClearedKeysMissMetrics(period);
    var c := ClearedKeys(period);
    forall j | 0 <= j < |MetricsKeys|
      ensures Stored(RemoveAll(store, c), now, CacheKey(MetricsKeys[j])) == Stored(store, now, CacheKey(MetricsKeys[j]))
    {
      forall i | 0 <= i < |c| ensures CacheKey(c[i]) != CacheKey(MetricsKeys[j]) {
        CacheKeyInjective(c[i], MetricsKeys[j]);
      }
      RemoveAllKeeps(store, c, CacheKey(MetricsKeys[j]));
    }
  }
}
