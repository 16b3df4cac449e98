/** Element-wise images of sequences, and what permuting a sequence does to them. */
module Permutations {

  function Map<A, B>(f: A -> B, s: seq<A>): (r: seq<B>)
    ensures |r| == |s|
    ensures forall i :: 0 <= i < |s| ==> r[i] == f(s[i])
  {
    seq(|s|, i requires 0 <= i < |s| => f(s[i]))
  }

  lemma MapInsert<A, B>(f: A -> B, before: seq<A>, x: A, after: seq<A>)
    ensures multiset(Map(f, before + [x] + after)) == multiset{f(x)} + multiset(Map(f, before + after))
  {
    assert Map(f, before + [x] + after) == Map(f, before) + [f(x)] + Map(f, after);
    assert Map(f, before + after) == Map(f, before) + Map(f, after);
  }

  lemma RemoveMiddle<A>(xs: seq<A>, before: seq<A>, x: A, after: seq<A>)
    requires multiset([x] + xs) == multiset(before + [x] + after)
    ensures multiset(xs) == multiset(before + after)
  {
    assert multiset(xs) == multiset([x] + xs) - multiset{x};
    assert multiset(before + after) == multiset(before + [x] + after) - multiset{x};
  }

  /** Images of permutations are permutations. */
  lemma {:induction false} MapPermuted<A, B>(f: A -> B, xs: seq<A>, ys: seq<A>)
    requires multiset(xs) == multiset(ys)
    ensures multiset(Map(f, xs)) == multiset(Map(f, ys))
    decreases |xs|
  {
    if xs == [] {
      assert |multiset(ys)| == 0;
    } else {
      var x, rest := xs[0], xs[1..];
      assert x in multiset(ys);
      var k :| 0 <= k < |ys| && ys[k] == x;
      var before, after := ys[..k], ys[k + 1..];
      assert xs == [x] + rest == [] + [x] + rest;
      assert ys == before + [x] + after;
      RemoveMiddle(rest, before, x, after);
      MapPermuted(f, rest, before + after);
      MapInsert(f, [], x, rest);
      assert [] + rest == rest;
      MapInsert(f, before, x, after);
    }
  }
}
