/** Filtering and mapping a sequence in one pass, where the step sees each item
    together with its position in the whole sequence. */
module FilterMap {
  import opened Wrappers

  /** The Some values `f` gives on the first `n` items, in order. */
  function FilterMapPrefix<A, B>(f: (nat, A) -> Option<B>, xs: seq<A>, n: nat): (ys: seq<B>)
    requires n <= |xs|
    ensures |ys| <= n
  {
    if n == 0 then []
    else
      var y := f(n - 1, xs[n - 1]);
      FilterMapPrefix(f, xs, n - 1) + (if y.Some? then [y.value] else [])
  }

  /** The positions, among the first `n` items, where `f` gives a value: increasing,
      and all of them. */
  function KeptPositions<A, B>(f: (nat, A) -> Option<B>, xs: seq<A>, n: nat): (ks: seq<nat>)
    requires n <= |xs|
    ensures forall k :: 0 <= k < |ks| ==> ks[k] < n && f(ks[k], xs[ks[k]]).Some?
    ensures forall k1, k2 :: 0 <= k1 < k2 < |ks| ==> ks[k1] < ks[k2]
    ensures forall i :: 0 <= i < n && f(i, xs[i]).Some? ==> i in ks
  {
    if n == 0 then []
    else KeptPositions(f, xs, n - 1) + (if f(n - 1, xs[n - 1]).Some? then [n - 1] else [])
  }

  /** The k-th output is what `f` gives on the k-th kept item, at that item's own position. */
  lemma {:induction false} FilterMapShape<A, B>(f: (nat, A) -> Option<B>, xs: seq<A>, n: nat)
    requires n <= |xs|
    ensures |FilterMapPrefix(f, xs, n)| == |KeptPositions(f, xs, n)|
    ensures forall k :: 0 <= k < |KeptPositions(f, xs, n)| ==>
      f(KeptPositions(f, xs, n)[k], xs[KeptPositions(f, xs, n)[k]]) == Some(FilterMapPrefix(f, xs, n)[k])
  {
    if n > 0 {
      FilterMapShape(f, xs, n - 1);
      var ys, ks := FilterMapPrefix(f, xs, n - 1), KeptPositions(f, xs, n - 1);
      var y := f(n - 1, xs[n - 1]);
      if y.Some? {
        assert FilterMapPrefix(f, xs, n) == ys + [y.value];
        assert KeptPositions(f, xs, n) == ks + [n - 1];
      } else {
        assert FilterMapPrefix(f, xs, n) == ys;
        assert KeptPositions(f, xs, n) == ks;
      }
    }
  }

  /** When `f` keeps every item, nothing is dropped: output k comes from item k. */
  lemma {:induction false} FilterMapKeepsAll<A, B>(f: (nat, A) -> Option<B>, xs: seq<A>, n: nat)
    requires n <= |xs|
    requires forall i :: 0 <= i < n ==> f(i, xs[i]).Some?
    ensures |FilterMapPrefix(f, xs, n)| == n
    ensures forall k :: 0 <= k < n ==> f(k, xs[k]) == Some(FilterMapPrefix(f, xs, n)[k])
  {
    if n > 0 {
      FilterMapKeepsAll(f, xs, n - 1);
      var ys := FilterMapPrefix(f, xs, n - 1);
      var y := f(n - 1, xs[n - 1]);
      assert FilterMapPrefix(f, xs, n) == ys + [y.value];
      forall k | 0 <= k < n
        ensures f(k, xs[k]) == Some(FilterMapPrefix(f, xs, n)[k])
      {
        if k < n - 1 {
          assert FilterMapPrefix(f, xs, n)[k] == ys[k];
        }
      }
    }
  }
}
