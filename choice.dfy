/** Selection from a pool, standing in for Python's `random.choice`. */
module Choice {
  /**
   * The element at `pick`, wrapping around the pool. The caller supplies the pick, so
   * every element of the pool is a possible result and nothing else is.
   */
  function Choose<T>(pool: seq<T>, pick: nat): (x: T)
    requires |pool| > 0
    ensures x in pool
    ensures pick < |pool| ==> x == pool[pick]
  {
    pool[pick % |pool|]
  }
}
