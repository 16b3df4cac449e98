/** Whole runs: what a sequence of Block requests leaves in the store and returns. */
module Runs {
  import opened Wrappers
  import opened BigEndian
  import opened StakeStore

  /** The chain withdraws the same stakes at one height, however often its block is served.
      Anything else about the block, such as its status, may change between requests. */
  ghost predicate Consistent(run: seq<Block>) {
    forall b, b' :: b in run && b' in run && b.height == b'.height ==> Returns(b.txs) == Returns(b'.txs)
  }

  /** Some block of height h is served. */
  predicate Serves(run: seq<Block>, h: int) {
    exists b :: b in run && b.height == h
  }

  function StoreAfter(s: Store, run: seq<Block>): Store {
    if run == [] then s else ServeStore(StoreAfter(s, run[..|run| - 1]), run[|run| - 1])
  }

  /** The stakes returned by the response to request t of a run. */
  function DueAt(s: Store, run: seq<Block>, t: nat): seq<ReturnStakeTx>
    requires t < |run|
  {
    Due(StoreAfter(s, run[..t]), run[t])
  }

  // ---------- Keys ----------

  lemma DueApart(h: uint64, h': uint64)
    ensures DueHeight(h) == DueHeight(h') <==> h == h'
    ensures DueHeight(h) != h
  {
  }

  lemma DueLater(h: uint64, h': uint64)
    requires h' == h + RETURN_LOCKING_PERIOD
    ensures DueHeight(h) == h'
  {
  }

  lemma KeysApart(h: uint64, h': uint64)
    ensures WriteKey(h) == WriteKey(h') <==> h == h'
    ensures WriteKey(h) == ReadKey(h') <==> DueHeight(h) == h'
    ensures WriteKey(h) != ReadKey(h)
  {
    DueApart(h, h');
    KeysInjective(DueHeight(h), DueHeight(h'));
    KeysInjective(DueHeight(h), h');
    KeysInjective(DueHeight(h), h);
  }

  /** Writes made while serving a block never change the stakes that its response returns. */
  lemma ResponseStable(s: Store, b: Block)
    ensures Due(s, b) == Items(Lookup(s, ReadKey(b.height)))
  {
    KeysApart(b.height, b.height);
    RecordStoreLookup(s, b.height, Returns(b.txs), ReadKey(b.height));
  }

  // ---------- The store after a run ----------

  lemma {:induction false} UnservedKey(s: Store, run: seq<Block>, k: Key)
    requires forall b :: b in run ==> WriteKey(b.height) != k
    ensures Lookup(StoreAfter(s, run), k) == Lookup(s, k)
  {
    if run != [] {
      var front, last := run[..|run| - 1], run[|run| - 1];
      assert forall b :: b in front ==> b in run;
      assert last in run;
      UnservedKey(s, front, k);
      RecordStoreLookup(StoreAfter(s, front), last.height, Returns(last.txs), k);
    }
  }

  lemma UnservedHeight(s: Store, run: seq<Block>, h: uint64)
    requires !Serves(run, h)
    ensures Lookup(StoreAfter(s, run), WriteKey(h)) == Lookup(s, WriteKey(h))
  {
    forall x | x in run
      ensures WriteKey(x.height) != WriteKey(h)
    {
      KeysApart(x.height, h);
    }
    UnservedKey(s, run, WriteKey(h));
  }

  /** A served block's key holds its withdrawals recorded once, however often and in
      whatever company the block was served. */
  lemma {:induction false} ServedKey(s: Store, run: seq<Block>, b: Block)
    requires Consistent(run + [b]) && Serves(run, b.height)
    ensures Lookup(StoreAfter(s, run), WriteKey(b.height)) == Record(Lookup(s, WriteKey(b.height)), Returns(b.txs))
    decreases |run|
  {
    var key := WriteKey(b.height);
    var front, last := run[..|run| - 1], run[|run| - 1];
    assert run == front + [last];
    RecordStoreLookup(StoreAfter(s, front), last.height, Returns(last.txs), key);
    KeysApart(b.height, last.height);
    assert last in run + [b] && b in run + [b];
    if Serves(front, b.height) {
      assert forall x :: x in front + [b] ==> x in run + [b];
      ServedKey(s, front, b);
      RecordIdempotent(Lookup(s, key), Returns(b.txs));
    } else {
      UnservedHeight(s, front, b.height);
    }
  }

  lemma EqualLookups(s: Store, s': Store)
    requires forall k: Key :: Lookup(s, k) == Lookup(s', k)
    ensures s == s'
  {
    forall k: Key
      ensures k in s <==> k in s'
      ensures k in s ==> s[k] == s'[k]
    {
      assert Lookup(s, k) == Lookup(s', k);
    }
  }

  /** The store depends only on which heights were served, not on order or repetition. */
  lemma SameBlocksSameStore(s: Store, run: seq<Block>, run': seq<Block>)
    requires Consistent(run + run')
    requires forall h :: Serves(run, h) <==> Serves(run', h)
    ensures StoreAfter(s, run) == StoreAfter(s, run')
  {
    assert forall x :: x in run || x in run' ==> x in run + run';
    forall k: Key
      ensures Lookup(StoreAfter(s, run), k) == Lookup(StoreAfter(s, run'), k)
    {
      if b :| b in run && WriteKey(b.height) == k {
        assert Serves(run, b.height);
        ServedKey(s, run, b);
        ServedKey(s, run', b);
      } else {
        UnservedKey(s, run, k);
        forall x | x in run'
          ensures WriteKey(x.height) != k
        {
          assert Serves(run', x.height);
          assert Serves(run, x.height);
        }
        UnservedKey(s, run', k);
      }
    }
    EqualLookups(StoreAfter(s, run), StoreAfter(s, run'));
  }

  /** Serving a height again leaves the store unchanged, whatever was served in between and
      whatever else the node reports of the block by then. */
  lemma ServeAgain(s: Store, run: seq<Block>, b: Block)
    requires Consistent(run + [b]) && Serves(run, b.height)
    ensures ServeStore(StoreAfter(s, run), b) == StoreAfter(s, run)
  {
    assert (run + [b])[..|run|] == run;
    assert forall x :: x in run + (run + [b]) ==> x in run + [b];
    forall h
      ensures Serves(run, h) <==> Serves(run + [b], h)
    {
      if x :| x in run + [b] && x.height == h {
        assert x in run || x.height == b.height;
      }
      if x :| x in run && x.height == h {
        assert x in run + [b];
      }
    }
    SameBlocksSameStore(s, run, run + [b]);
  }

  // ---------- Exactly-once return ----------

  /** Transaction hashes are unique: within a block, between blocks, and against the seed. */
  ghost predicate UniqueHashes(s: Store, run: seq<Block>) {
    && (forall b :: b in run ==> DistinctHashes(Returns(b.txs)))
    && (forall b, b' :: b in run && b' in run && b.height != b'.height ==>
          Hashes(Returns(b.txs)) !! Hashes(Returns(b'.txs)))
    && (forall b, k :: b in run && k in s ==> Hashes(s[k]) !! Hashes(Returns(b.txs)))
  }

  function Count(l: seq<ReturnStakeTx>, hash: string): nat {
    if l == [] then 0 else Count(l[..|l| - 1], hash) + if l[|l| - 1].hash == hash then 1 else 0
  }

  lemma {:induction false} CountConcat(xs: seq<ReturnStakeTx>, ys: seq<ReturnStakeTx>, hash: string)
    ensures Count(xs + ys, hash) == Count(xs, hash) + Count(ys, hash)
  {
    if ys == [] {
      assert xs + ys == xs;
    } else {
      assert (xs + ys)[..|xs + ys| - 1] == xs + ys[..|ys| - 1];
      CountConcat(xs, ys[..|ys| - 1], hash);
    }
  }

  lemma {:induction false} CountDistinct(l: seq<ReturnStakeTx>, hash: string)
    requires DistinctHashes(l)
    ensures Count(l, hash) == if hash in Hashes(l) then 1 else 0
  {
    if l != [] {
      var front, last := l[..|l| - 1], l[|l| - 1];
      assert l == front + [last];
      CountDistinct(front, hash);
      assert forall x :: x in l <==> x in front || x == last;
      if last.hash == hash {
        assert last in l;
      }
    }
  }

  lemma {:induction false} CountAbsent(l: seq<ReturnStakeTx>, hash: string)
    requires hash !in Hashes(l)
    ensures Count(l, hash) == 0
  {
    if l != [] {
      assert l[|l| - 1] in l;
      assert forall x :: x in l[..|l| - 1] ==> x in l;
      CountAbsent(l[..|l| - 1], hash);
    }
  }

  /** A response returns the seeded stakes of its height and, if the block that withdrew
      for this height was served before, that block's withdrawals. */
  lemma DueIsSeedAndWithdrawn(s: Store, run: seq<Block>, t: nat, b: Block)
    requires Consistent(run) && t < |run| && b in run && DueHeight(b.height) == run[t].height
    ensures var seeded := Lookup(s, WriteKey(b.height));
      DueAt(s, run, t) == Items(if Serves(run[..t], b.height) then Record(seeded, Returns(b.txs)) else seeded)
  {
    ResponseStable(StoreAfter(s, run[..t]), run[t]);
    KeysApart(b.height, run[t].height);
    if Serves(run[..t], b.height) {
      assert forall x :: x in run[..t] + [b] ==> x in run;
      ServedKey(s, run[..t], b);
    } else {
      UnservedHeight(s, run[..t], b.height);
    }
  }

  /** Without such a block only seeded stakes are returned. */
  lemma DueIsSeed(s: Store, run: seq<Block>, t: nat)
    requires t < |run| && forall b :: b in run[..t] ==> DueHeight(b.height) != run[t].height
    ensures DueAt(s, run, t) == Items(Lookup(s, ReadKey(run[t].height)))
  {
    ResponseStable(StoreAfter(s, run[..t]), run[t]);
    forall x | x in run[..t]
      ensures WriteKey(x.height) != ReadKey(run[t].height)
    {
      KeysApart(x.height, run[t].height);
    }
    UnservedKey(s, run[..t], ReadKey(run[t].height));
  }

  /** Each withdrawal of a block is returned exactly once by every response at its due
      height after the block was served, and by no other response at all. */
  lemma ExactlyOnce(s: Store, run: seq<Block>, t: nat, b: Block, r: ReturnStakeTx)
    requires Consistent(run) && UniqueHashes(s, run)
    requires t < |run| && b in run && r in Returns(b.txs)
    ensures Count(DueAt(s, run, t), r.hash)
         == if Serves(run[..t], b.height) && DueHeight(b.height) == run[t].height then 1 else 0
    ensures Serves(run[..t], b.height) && DueHeight(b.height) == run[t].height ==> r in DueAt(s, run, t)
  {
    var seeded := Lookup(s, ReadKey(run[t].height));
    assert r.hash in Hashes(Returns(b.txs));
    assert r.hash !in Hashes(Items(seeded));
    CountAbsent(Items(seeded), r.hash);
    if x :| x in run[..t] && DueHeight(x.height) == run[t].height {
      assert x in run && Serves(run[..t], x.height);
      DueIsSeedAndWithdrawn(s, run, t, x);
      KeysApart(x.height, run[t].height);
      RecordFresh(seeded, Returns(x.txs));
      CountConcat(Items(seeded), Returns(x.txs), r.hash);
      CountDistinct(Returns(x.txs), r.hash);
      DueApart(x.height, b.height);
    } else {
      DueIsSeed(s, run, t);
    }
  }

  lemma {:induction false} RecordMember(o: Option<seq<ReturnStakeTx>>, rs: seq<ReturnStakeTx>, r: ReturnStakeTx)
    requires r in Items(Record(o, rs))
    ensures r in Items(o) || r in rs
  {
    if rs != [] && r != rs[|rs| - 1] {
      RecordMember(o, rs[..|rs| - 1], r);
    }
  }

  /** Nothing is returned that was not seeded for this height or withdrawn for it earlier. */
  lemma NothingForeign(s: Store, run: seq<Block>, t: nat, r: ReturnStakeTx)
    requires Consistent(run) && t < |run| && r in DueAt(s, run, t)
    ensures r in Items(Lookup(s, ReadKey(run[t].height)))
         || exists b :: b in run[..t] && DueHeight(b.height) == run[t].height && r in Returns(b.txs)
  {
    if b :| b in run[..t] && DueHeight(b.height) == run[t].height {
      assert b in run && Serves(run[..t], b.height);
      DueIsSeedAndWithdrawn(s, run, t, b);
      KeysApart(b.height, run[t].height);
      RecordMember(Lookup(s, WriteKey(b.height)), Returns(b.txs), r);
    } else {
      DueIsSeed(s, run, t);
    }
  }
}
