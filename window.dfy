/** Bounded windows over a sequence: Python's `items[-n:]`, used for every rolling history. */
module Window {

  /**
   * The last `n` items (all of them when there are at most `n`). As in Python,
   * `items[-0:]` is the whole list, so `n == 0` keeps everything.
   */
  function KeepLast<T>(s: seq<T>, n: nat): (r: seq<T>)
    ensures n == 0 ==> r == s
    ensures n > 0 ==> |r| == if |s| <= n then |s| else n
    ensures r == s[|s| - |r|..]
  {
    if n > 0 && |s| > n then s[|s| - n..] else s
  }

  /**
   * Appending one item to a window of at most `n > 0` items and keeping the last `n`
   * is FIFO eviction: below the bound nothing is lost; at the bound only the oldest goes.
   */
  lemma AppendEvictsOldest<T>(w: seq<T>, x: T, n: nat)
    requires 0 < n && |w| <= n
    ensures |w| < n ==> KeepLast(w + [x], n) == w + [x]
    ensures |w| == n ==> KeepLast(w + [x], n) == w[1..] + [x]
    ensures |KeepLast(w + [x], n)| <= n && KeepLast(w + [x], n)[|KeepLast(w + [x], n)| - 1] == x
  {
    if |w| == n {
      assert (w + [x])[1..] == w[1..] + [x];
    }
  }
}
