/** The time-boxed model cache of types/models.go.

    Times are nanoseconds counted from Go's zero `time.Time`, so a refresher
    that was never stashed has `lastUpdated == ZeroTime`. The clock
    (`time.Now`, `time.Since`) is an explicit `now` parameter. */
module ModelCache {
  import opened Types

  const NanosPerSecond: int := 1_000_000_000
  const ZeroTime: int := 0
  const TwoTo63: int := 0x8000_0000_0000_0000

  /** The values of Go's `int64`. */
  type Int64 = x: int | -TwoTo63 <= x < TwoTo63

  /** Two's-complement wrap-around of an `int64` product. */
  function WrapInt64(x: int): (r: Int64)
    ensures -TwoTo63 <= x < TwoTo63 ==> r == x
    ensures (r - x) % (2 * TwoTo63) == 0
  {
    (x + TwoTo63) % (2 * TwoTo63) - TwoTo63
  }

  class ModelRefresher {
    var expiry: int
    var models: seq<Model>
    var lastUpdated: int

    /** `refreshTimeMS` is multiplied by one SECOND, whatever its name says;
        the product is an `int64` duration and wraps like one. */
    constructor (refreshTimeMS: Int64)
      ensures expiry == WrapInt64(refreshTimeMS * NanosPerSecond)
      ensures models == []
      ensures lastUpdated == ZeroTime
      ensures forall now :: now > expiry ==> IsStale(now)
    {
      expiry := WrapInt64(refreshTimeMS * NanosPerSecond);
      models := [];
      lastUpdated := ZeroTime;
    }

    /** Replaces the whole list and restamps the cache; never fails. */
    method StashModels(newModels: seq<Model>, now: int) returns (ok: bool)
      modifies this
      ensures ok
      ensures models == newModels && lastUpdated == now && expiry == old(expiry)
      ensures expiry >= 0 ==> !IsStale(now)
    {
      models := newModels;
      lastUpdated := now;
      ok := true;
    }

    /** A copy of the stored list; the refresher itself is not changed. */
    method RetrieveModels() returns (copy: seq<Model>)
      ensures |copy| == |models|
      ensures forall k :: 0 <= k < |copy| ==> copy[k] == models[k]
    {
      copy := [];
      copy := copy + models;
    }

    function IsStale(now: int): (stale: bool)
      reads this
      ensures now <= lastUpdated + expiry ==> !stale
      ensures now > lastUpdated + expiry ==> stale
    {
      now - lastUpdated > expiry
    }
  }

  /** Whatever is stashed comes back, element for element, in order. */
  method StashThenRetrieve(cache: ModelRefresher, xs: seq<Model>, now: int) returns (ys: seq<Model>)
    modifies cache
    ensures ys == xs
    ensures cache.models == xs && cache.lastUpdated == now
  {
    var _ := cache.StashModels(xs, now);
    ys := cache.RetrieveModels();
  }

  /** For every argument up to the largest one whose product fits in an
      `int64`, the expiry is exactly that many seconds. */
  lemma ExpiryIsSeconds(refreshTime: int)
    requires 0 <= refreshTime <= (TwoTo63 - 1) / NanosPerSecond
    ensures WrapInt64(refreshTime * NanosPerSecond) == refreshTime * NanosPerSecond
    ensures WrapInt64(refreshTime * NanosPerSecond) >= 0
  {
  }
}
