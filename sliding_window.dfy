/**
 * Bounded FIFO windows: appending a sample and then dropping from the front
 * while the buffer is over capacity.
 */
module SlidingWindow {

  /** The last `min(|s|, cap)` elements of `s`, in order. */
  function Last<T>(s: seq<T>, cap: nat): (r: seq<T>)
    ensures |r| == if |s| <= cap then |s| else cap
    ensures r == s[|s| - |r|..]
  {
    if |s| <= cap then s else s[|s| - cap..]
  }

  /** One push into a window of capacity `cap`: add at the back, evict from the front. */
  function Push<T>(buf: seq<T>, x: T, cap: nat): seq<T>
  {
    Last(buf + [x], cap)
  }

  /**
   * The pruning loop `while (buffer.size > cap) buffer.poll()`: drop the
   * oldest element until the buffer is within capacity.
   */
  method PruneFront<T>(buf: seq<T>, cap: nat) returns (r: seq<T>)
    ensures r == Last(buf, cap)
  {
    r := buf;
    while |r| > cap
      invariant r == buf[|buf| - |r|..]
      invariant |buf| > cap ==> |r| >= cap
      invariant |buf| <= cap ==> r == buf
      decreases |r|
    {
      r := r[1..];
    }
  }

  /** Evicting before a push loses nothing the push would have kept. */
  lemma PushAfterLast<T>(a: seq<T>, x: T, cap: nat)
    ensures Push(Last(a, cap), x, cap) == Last(a + [x], cap)
  {
    if |a| > cap && cap > 0 {
      assert (a + [x])[|a| + 1 - cap..] == a[|a| + 1 - cap..] + [x];
      assert (a[|a| - cap..] + [x])[1..] == a[|a| + 1 - cap..] + [x];
    }
  }
}
