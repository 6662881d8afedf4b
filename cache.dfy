/**
 * The gateway's response cache (gateway-fiber/main.go, CacheEntry and Cache):
 * a key -> entry store where every entry lives for one fixed TTL and an
 * expired entry is removed only when it is looked up.
 *
 * Time is an integer count of nanoseconds, the unit of Go's time.Duration;
 * the caller passes the current instant `now` where the source reads the clock.
 */
module ResponseCache {

  /** One cached body and the instant from which it is stale. */
  datatype Entry = Entry(data: string, expiresAt: int)

  const SECOND: int := 1_000_000_000
  const MINUTE: int := 60 * SECOND
  /** The one TTL every entry gets: 5 minutes. */
  const TTL: int := 5 * MINUTE

  /** time.Now().Before(e.ExpiresAt). */
  predicate Live(e: Entry, now: int)
  {
    now < e.expiresAt
  }

  /** What Get returns: the body and true for a live entry, otherwise "" and false. */
  function Lookup(store: map<string, Entry>, key: string, now: int): (string, bool)
  {
    if key in store && Live(store[key], now) then (store[key].data, true) else ("", false)
  }

  /** The store Get leaves behind: an expired entry for `key` is deleted, nothing else changes. */
  function Evict(store: map<string, Entry>, key: string, now: int): map<string, Entry>
  {
    if key in store && !Live(store[key], now) then store - {key} else store
  }

  /** The store Set leaves behind. */
  function Put(store: map<string, Entry>, key: string, data: string, now: int): map<string, Entry>
  {
    store[key := Entry(data, now + TTL)]
  }

  class Cache {
    var store: map<string, Entry>
    const ttl: int

    ghost predicate Valid()
      reads this
    {
      ttl == TTL
    }

    /** NewCache: an empty store with the 5-minute TTL. */
    constructor ()
      ensures Valid() && store == map[]
    {
      store := map[];
      ttl := TTL;
    }

    method Get(key: string, now: int) returns (data: string, found: bool)
      modifies this
      ensures (data, found) == Lookup(old(store), key, now)
      ensures store == Evict(old(store), key, now)
    {
      if key in store {
        var entry := store[key];
        if now < entry.expiresAt {
          return entry.data, true;
        }
        store := store - {key};
      }
      return "", false;
    }

    method Set(key: string, data: string, now: int)
      requires Valid()
      modifies this
      ensures store == Put(old(store), key, data, now)
    {
      store := store[key := Entry(data, now + ttl)];
    }
  }

  /** Get reports a hit exactly for a present entry that has not reached its expiry instant. */
  lemma LookupHitIff(store: map<string, Entry>, key: string, now: int)
    ensures Lookup(store, key, now).1 <==> key in store && now < store[key].expiresAt
    ensures Lookup(store, key, now).1 ==> Lookup(store, key, now).0 == store[key].data
    ensures !Lookup(store, key, now).1 ==> Lookup(store, key, now).0 == ""
  {
  }

  /** Get deletes exactly the expired entry it looked up and changes no other entry. */
  lemma EvictRemovesOnlyExpiredKey(store: map<string, Entry>, key: string, now: int)
    ensures Evict(store, key, now).Keys ==
      if key in store && !Live(store[key], now) then store.Keys - {key} else store.Keys
    ensures forall k :: k in Evict(store, key, now) ==> k in store && Evict(store, key, now)[k] == store[k]
    ensures forall k :: k in store && k != key ==> k in Evict(store, key, now)
    ensures |Evict(store, key, now)| <= |store|
  {
  }

  /** A repeated Get at the same instant finds nothing more, and deletes nothing more. */
  lemma GetTwice(store: map<string, Entry>, key: string, now: int)
    ensures Evict(Evict(store, key, now), key, now) == Evict(store, key, now)
    ensures Lookup(Evict(store, key, now), key, now) == Lookup(store, key, now)
    ensures !Lookup(store, key, now).1 ==> key !in Evict(store, key, now)
  {
  }

  /**
   * Lazy eviction cannot be observed: once Get has removed an entry, no later
   * lookup of any key answers differently from the store without the removal.
   */
  lemma EvictUnobservable(store: map<string, Entry>, key: string, now: int, k: string, later: int)
    requires now <= later
    ensures Lookup(Evict(store, key, now), k, later) == Lookup(store, k, later)
  {
  }

  /** After Set at `now`, Get returns the stored body through the TTL window and nothing from its end on. */
  lemma SetThenGet(store: map<string, Entry>, key: string, data: string, now: int, t: int)
    ensures now <= t < now + TTL ==> Lookup(Put(store, key, data, now), key, t) == (data, true)
    ensures t >= now + TTL ==> Lookup(Put(store, key, data, now), key, t) == ("", false)
  {
  }

  /** Set replaces: the later write wins and the earlier one leaves no trace. */
  lemma SetOverwrites(store: map<string, Entry>, key: string, a: string, b: string, t1: int, t2: int)
    ensures Put(Put(store, key, a, t1), key, b, t2) == Put(store, key, b, t2)
    ensures forall t :: t2 <= t < t2 + TTL ==> Lookup(Put(Put(store, key, a, t1), key, b, t2), key, t) == (b, true)
  {
  }

  /** Set touches no other key. */
  lemma SetLeavesOthers(store: map<string, Entry>, key: string, data: string, now: int, k: string, t: int)
    requires k != key
    ensures Lookup(Put(store, key, data, now), k, t) == Lookup(store, k, t)
    ensures Put(store, key, data, now).Keys == store.Keys + {key}
  {
  }

  /** The cache's worked example: set at T, still there at T+4m59s, gone at T+5m and at T+5m1s. */
  lemma TtlExample(store: map<string, Entry>, t: int)
    ensures Lookup(Put(store, "GET:/courses", "X", t), "GET:/courses", t + 4 * MINUTE + 59 * SECOND) == ("X", true)
    ensures Lookup(Put(store, "GET:/courses", "X", t), "GET:/courses", t + 5 * MINUTE) == ("", false)
    ensures Lookup(Put(store, "GET:/courses", "X", t), "GET:/courses", t + 5 * MINUTE + SECOND) == ("", false)
  {
  }

  /** A client of the class: Set "A", Set "B", then Get within the TTL returns "B". */
  method OverwriteScenario(c: Cache, key: string, t: int) returns (data: string, found: bool)
    requires c.Valid()
    modifies c
    ensures data == "B" && found
  {
    c.Set(key, "A", t);
    c.Set(key, "B", t + SECOND);
    data, found := c.Get(key, t + 2 * SECOND);
  }
}
