/** Fixed-capacity deques with drop-oldest insertion, as used for every
    output store of the performance analyser (histograms, outlier records,
    peak timestamps). */
module BoundedDeque {

  function Min(a: nat, b: nat): nat
  {
    if a <= b then a else b
  }

  /** The newest (right-most) `n` entries of `s`, or all of `s` when it is
      shorter: drop the oldest entry until at most `n` are left. */
  function Newest<T>(s: seq<T>, n: nat): (r: seq<T>)
    ensures |r| == Min(|s|, n)
    decreases |s|
  {
    if |s| <= n then s else Newest(s[1..], n)
  }

  /** `Newest` is the suffix of length `min(|s|, n)`. */
  lemma {:induction false} NewestIsSuffix<T>(s: seq<T>, n: nat)
    ensures Newest(s, n) == s[|s| - Min(|s|, n)..]
    decreases |s|
  {
    if |s| > n {
      var tail := s[1..];
      NewestIsSuffix(tail, n);
      assert Min(|tail|, n) == n && Min(|s|, n) == n;
      assert tail[|tail| - n..] == s[|s| - n..];
    } else {
      assert s[0..] == s;
    }
  }

  /** `push_back(x)`, then `pop_front()` when the deque has grown past `cap`. */
  function PushBounded<T>(d: seq<T>, x: T, cap: nat): (r: seq<T>)
    requires 0 < cap && |d| <= cap
    ensures |r| <= cap
    ensures |r| == Min(|d| + 1, cap)
    ensures r[|r| - 1] == x
    ensures r == Newest(d + [x], cap)
  {
    var e := d + [x];
    if |e| > cap then e[1..] else e
  }

  /** Insertion into a full deque drops only its oldest entry: every other
      entry survives, in order, shifted down by one. */
  lemma PushFullDropsOldest<T>(d: seq<T>, x: T, cap: nat)
    requires 0 < cap && |d| == cap
    ensures |PushBounded(d, x, cap)| == cap
    ensures forall i :: 1 <= i < |d| ==> PushBounded(d, x, cap)[i - 1] == d[i]
    ensures PushBounded(d, x, cap)[cap - 1] == x
  {
  }

  /** Insertion into a deque that is not full keeps every entry where it was. */
  lemma PushNotFullKeepsAll<T>(d: seq<T>, x: T, cap: nat)
    requires |d| < cap
    ensures PushBounded(d, x, cap) == d + [x]
  {
  }

  /** Taking the newest entries of any suffix that is long enough gives the
      same result as taking them of the whole sequence. */
  lemma NewestOfSuffix<T>(w: seq<T>, k: nat, n: nat)
    requires k <= |w| && |w| - k >= Min(|w|, n)
    ensures Newest(w[k..], n) == Newest(w, n)
  {
    var v := w[k..];
    NewestIsSuffix(v, n);
    NewestIsSuffix(w, n);
    assert Min(|v|, n) == Min(|w|, n);
    assert v[|v| - Min(|v|, n)..] == w[|w| - Min(|w|, n)..];
  }

  /** Truncating to the newest `n` entries between appends changes nothing:
      a bounded store fed in several batches holds what one fed all at once holds. */
  lemma NewestAppend<T>(s: seq<T>, t: seq<T>, n: nat)
    ensures Newest(Newest(s, n) + t, n) == Newest(s + t, n)
  {
    var k := |s| - Min(|s|, n);
    NewestIsSuffix(s, n);
    assert Newest(s, n) + t == (s + t)[k..];
    NewestOfSuffix(s + t, k, n);
  }

  /** Drop-oldest insertion, repeated: pushing `xs` one by one leaves exactly
      the newest `cap` entries of the whole history. */
  function PushAll<T>(d: seq<T>, xs: seq<T>, cap: nat): (r: seq<T>)
    requires 0 < cap && |d| <= cap
    ensures |r| <= cap
    decreases |xs|
  {
    if xs == [] then d
    else PushBounded(PushAll(d, xs[..|xs| - 1], cap), xs[|xs| - 1], cap)
  }

  /** Pushing two batches one after the other is pushing their concatenation. */
  lemma {:induction false} PushAllAppend<T>(d: seq<T>, xs: seq<T>, ys: seq<T>, cap: nat)
    requires 0 < cap && |d| <= cap
    ensures PushAll(PushAll(d, xs, cap), ys, cap) == PushAll(d, xs + ys, cap)
    decreases |ys|
  {
    if ys == [] {
      assert xs + ys == xs;
    } else {
      var init, last := ys[..|ys| - 1], ys[|ys| - 1];
      PushAllAppend(d, xs, init, cap);
      assert (xs + ys)[..|xs + ys| - 1] == xs + init;
      assert (xs + ys)[|xs + ys| - 1] == last;
    }
  }

  lemma PushAllOne<T>(d: seq<T>, x: T, cap: nat)
    requires 0 < cap && |d| <= cap
    ensures PushAll(d, [x], cap) == PushBounded(d, x, cap)
  {
  }

  lemma {:induction false} PushAllNewest<T>(d: seq<T>, xs: seq<T>, cap: nat)
    requires 0 < cap && |d| <= cap
    ensures PushAll(d, xs, cap) == Newest(d + xs, cap)
    decreases |xs|
  {
    if xs == [] {
      assert d + xs == d;
    } else {
      var init, last := xs[..|xs| - 1], xs[|xs| - 1];
      PushAllNewest(d, init, cap);
      NewestAppend(d + init, [last], cap);
      assert d + init + [last] == d + xs;
    }
  }
}
