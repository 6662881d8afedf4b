/**
 * The gateway's metrics registry (gateway-fiber/main.go, Metrics): three
 * int64 counters, each with its own increment. The mutex is not modelled;
 * every increment is one atomic step.
 */
module GatewayMetrics {
  import opened Int64

  /** A snapshot of the three counters, as the /metrics endpoint reads them. */
  datatype Counters = Counters(total: int64, hits: int64, misses: int64)

  const ZERO: Counters := Counters(0, 0, 0)

  function CountRequest(c: Counters): Counters
  {
    c.(total := Inc(c.total))
  }

  function CountHit(c: Counters): Counters
  {
    c.(hits := Inc(c.hits))
  }

  function CountMiss(c: Counters): Counters
  {
    c.(misses := Inc(c.misses))
  }

  /** The registry's invariant: no counter is negative and every hit or miss belongs to a counted request. */
  predicate Sound(c: Counters)
  {
    0 <= c.hits as int && 0 <= c.misses as int && c.hits as int + c.misses as int <= c.total as int
  }

  /** No counter has gone down from `c` to `d`. */
  predicate NoneDecreased(c: Counters, d: Counters)
  {
    c.total <= d.total && c.hits <= d.hits && c.misses <= d.misses
  }

  /**
   * Each increment leaves the other two counters as they were, and raises its
   * own counter by exactly one whenever that counter is below the int64 maximum.
   */
  lemma IncrementsAreIndependent(c: Counters)
    ensures CountRequest(c).hits == c.hits && CountRequest(c).misses == c.misses
    ensures CountHit(c).total == c.total && CountHit(c).misses == c.misses
    ensures CountMiss(c).total == c.total && CountMiss(c).hits == c.hits
    ensures c.total as int < MAX ==>
      CountRequest(c) == Counters((c.total as int + 1) as int64, c.hits, c.misses) && NoneDecreased(c, CountRequest(c))
    ensures c.hits as int < MAX ==>
      CountHit(c) == Counters(c.total, (c.hits as int + 1) as int64, c.misses) && NoneDecreased(c, CountHit(c))
    ensures c.misses as int < MAX ==>
      CountMiss(c) == Counters(c.total, c.hits, (c.misses as int + 1) as int64) && NoneDecreased(c, CountMiss(c))
  {
  }

  /** The one place monotonicity fails: an increment at the int64 maximum wraps to the minimum. */
  lemma IncrementWrapsAtMax(c: Counters)
    requires c.total as int == MAX
    ensures CountRequest(c).total as int == MIN
    ensures !NoneDecreased(c, CountRequest(c))
  {
  }

  class Metrics {
    var totalRequests: int64
    var cacheHits: int64
    var cacheMisses: int64

    /** &Metrics{}: all three counters start at zero. */
    constructor ()
      ensures Snapshot() == ZERO
    {
      totalRequests, cacheHits, cacheMisses := 0, 0, 0;
    }

    function Snapshot(): Counters
      reads this
    {
      Counters(totalRequests, cacheHits, cacheMisses)
    }

    method IncrementRequests()
      modifies this
      ensures Snapshot() == CountRequest(old(Snapshot()))
    {
      totalRequests := Inc(totalRequests);
    }

    method IncrementCacheHits()
      modifies this
      ensures Snapshot() == CountHit(old(Snapshot()))
    {
      cacheHits := Inc(cacheHits);
    }

    method IncrementCacheMisses()
      modifies this
      ensures Snapshot() == CountMiss(old(Snapshot()))
    {
      cacheMisses := Inc(cacheMisses);
    }
  }
}
