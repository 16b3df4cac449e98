/** From the snapshot to the responses: what a run pays out, read off the stake pools. */
module Seeding {
  import opened Wrappers
  import opened Transactions
  import opened BigEndian
  import opened StakeStore
  import opened Conservation
  import opened Snapshot
  import Parsers

  /** A pool's withdrawn stakes with a given return height. */
  function PoolStakes(pool: Option<Pool>, h: uint64): seq<Stake> {
    if pool.Some? then DueStakes(AllStakes(pool.value.candidates), h) else []
  }

  /** Elite edge nodes stake TFuel, validators and guardians Theta. */
  function StakeWei(kind: PoolKind, x: Stake, a: Address, c: Currency): int {
    if x.source == a && c == (if kind == Eenp then TFuel else Theta) then x.amount else 0
  }

  function StakesWei(kind: PoolKind, xs: seq<Stake>, a: Address, c: Currency): int {
    if xs == [] then 0 else
      StakesWei(kind, xs[..|xs| - 1], a, c) + StakeWei(kind, xs[|xs| - 1], a, c)
  }

  /** What the snapshot keeps of the stakes with return height h: all of the validators', or
      else the first guardian's, or else the first elite edge node's. */
  function KeptWei(ps: Answers, h: uint64, a: Address, c: Currency): int {
    var v, g, e := PoolStakes(ps.vcp, h), PoolStakes(ps.gcp, h), PoolStakes(ps.eenp, h);
    if v != [] then StakesWei(Vcp, v, a, c)
    else if g != [] then StakeWei(Gcp, g[0], a, c)
    else if e != [] then StakeWei(Eenp, e[0], a, c)
    else 0
  }

  lemma SeedTxHeld(kind: PoolKind, x: Stake, a: Address, c: Currency)
    ensures var source := SeedTx(kind, x).source;
      Parsers.Held(source.address, source.coins, a, c) == StakeWei(kind, x, a, c)
  {
  }

  lemma {:induction false} SeededHeld(
    kind: PoolKind, rs: seq<ReturnStakeTx>, xs: seq<Stake>, a: Address, c: Currency)
    requires Txs(rs) == SeedTxs(kind, xs)
    ensures |rs| == |xs| && Held(rs, a, c) == StakesWei(kind, xs, a, c)
    decreases |xs|
  {
    assert |Txs(rs)| == |SeedTxs(kind, xs)|;
    if xs != [] {
      var n := |xs| - 1;
      assert Txs(rs)[n] == SeedTxs(kind, xs)[n];
      SeedTxHeld(kind, xs[n], a, c);
      assert Txs(rs[..n]) == Txs(rs)[..n] == SeedTxs(kind, xs)[..n] == SeedTxs(kind, xs[..n]);
      SeededHeld(kind, rs[..n], xs[..n], a, c);
    }
  }

  lemma FirstHeld(kind: PoolKind, rs: seq<ReturnStakeTx>, xs: seq<Stake>, a: Address, c: Currency)
    requires Txs(rs) == SeedTxs(kind, xs) && xs != []
    ensures rs != [] && Held([rs[0]], a, c) == StakeWei(kind, xs[0], a, c)
  {
    assert |Txs(rs)| == |SeedTxs(kind, xs)|;
    assert Txs(rs)[0] == SeedTxs(kind, xs)[0];
    SeedTxHeld(kind, xs[0], a, c);
    assert [rs[0]][..0] == [];
  }

  lemma AnswerOrdered(keccak: string -> string, kind: PoolKind, pool: Option<Pool>, h: uint64)
    ensures Txs(At(AnswerEntries(keccak, kind, pool), h)) == SeedTxs(kind, PoolStakes(pool, h))
    ensures |At(AnswerEntries(keccak, kind, pool), h)| == |PoolStakes(pool, h)|
  {
    if pool.Some? {
      PoolOrdered(keccak, kind, pool.value.blockHash, pool.value.candidates, h);
    }
    assert |Txs(At(AnswerEntries(keccak, kind, pool), h))| == |SeedTxs(kind, PoolStakes(pool, h))|;
  }

  /** What is stored for a height holds exactly the kept stakes. */
  lemma KeptHeld(keccak: string -> string, ps: Answers, h: uint64, a: Address, c: Currency)
    ensures Held(AsCoded(keccak, ps, h), a, c) == KeptWei(ps, h, a, c)
    ensures AsCoded(keccak, ps, h) == []
       <==> PoolStakes(ps.vcp, h) == [] && PoolStakes(ps.gcp, h) == [] && PoolStakes(ps.eenp, h) == []
  {
    var v := At(AnswerEntries(keccak, Vcp, ps.vcp), h);
    var g := At(AnswerEntries(keccak, Gcp, ps.gcp), h);
    var e := At(AnswerEntries(keccak, Eenp, ps.eenp), h);
    KeptEntries(v, g, e);
    AnswerOrdered(keccak, Vcp, ps.vcp, h);
    AnswerOrdered(keccak, Gcp, ps.gcp, h);
    AnswerOrdered(keccak, Eenp, ps.eenp, h);
    if v != [] {
      SeededHeld(Vcp, v, PoolStakes(ps.vcp, h), a, c);
    } else if g != [] {
      FirstHeld(Gcp, g, PoolStakes(ps.gcp, h), a, c);
    } else if e != [] {
      FirstHeld(Eenp, e, PoolStakes(ps.eenp, h), a, c);
    }
  }

  /** Every pool's withdrawn stakes are due, one above their return height, by the limit. */
  ghost predicate DueBy(ps: Answers, limit: nat) {
    forall h: uint64 :: PoolStakes(ps.vcp, h) != [] || PoolStakes(ps.gcp, h) != [] || PoolStakes(ps.eenp, h) != [] ==>
      h + 1 <= limit
  }

  /** The kept stakes that are due at the heights a run serves. */
  function KeptByRun(ps: Answers, run: seq<Block>, a: Address, c: Currency): int
    requires forall b :: b in run ==> b.height > 0
  {
    if run == [] then 0 else
      KeptByRun(ps, run[..|run| - 1], a, c) + KeptWei(ps, run[|run| - 1].height - 1, a, c)
  }

  function Lists(keccak: string -> string, ps: Answers): uint64 -> seq<ReturnStakeTx> {
    (h: uint64) => StoredAll(AsCoded(keccak, ps, h))
  }

  /** s is what GenStakesForSnapshot makes of an empty store. */
  ghost predicate SeededFrom(keccak: string -> string, ps: Answers, s: Store) {
    Seeded(map[], s, Lists(keccak, ps))
  }

  lemma SeedKeyRead(h: uint64)
    requires h > 0
    ensures SeedKey(h - 1) == ReadKey(h)
  {
  }

  lemma SeededLookup(s: Store, lists: uint64 -> seq<ReturnStakeTx>, h: uint64)
    requires Seeded(map[], s, lists)
    ensures Items(Lookup(s, SeedKey(h))) == lists(h)
  {
    assert Lookup(s, SeedKey(h)) == if lists(h) != [] then Some(lists(h)) else None;
  }

  lemma SeededList(s: Store, lists: uint64 -> seq<ReturnStakeTx>, h: uint64)
    requires Seeded(map[], s, lists) && h > 0
    ensures Items(Lookup(s, ReadKey(h))) == lists(h - 1)
  {
    SeedKeyRead(h);
    SeededLookup(s, lists, h - 1);
  }

  /** Nil or zero, a stored list is worth the same. */
  lemma {:induction false} StoredHeld(l: seq<ReturnStakeTx>, a: Address, c: Currency)
    ensures Held(StoredAll(l), a, c) == Held(l, a, c)
  {
    if l != [] {
      var front, r := l[..|l| - 1], l[|l| - 1];
      StoredHeld(front, a, c);
      assert StoredAll(l) == StoredAll(front) + [Stored(r)] && l == front + [r];
      HeldAppend(StoredAll(front), Stored(r), a, c);
      HeldAppend(front, r, a, c);
    }
  }

  lemma ListHeld(keccak: string -> string, ps: Answers, h: uint64, a: Address, c: Currency)
    ensures Held(Lists(keccak, ps)(h), a, c) == KeptWei(ps, h, a, c)
  {
    KeptHeld(keccak, ps, h, a, c);
    StoredHeld(AsCoded(keccak, ps, h), a, c);
  }

  /** The store holds the kept stakes for every height. */
  ghost predicate HoldsKept(ps: Answers, s: Store, a: Address, c: Currency) {
    forall h: uint64 :: h > 0 ==> Held(Items(Lookup(s, ReadKey(h))), a, c) == KeptWei(ps, h - 1, a, c)
  }

  lemma ListsKept(
    s: Store, lists: uint64 -> seq<ReturnStakeTx>, ps: Answers, a: Address, c: Currency)
    requires Seeded(map[], s, lists)
    requires forall h: uint64 :: Held(lists(h), a, c) == KeptWei(ps, h, a, c)
    ensures HoldsKept(ps, s, a, c)
  {
    forall h: uint64 | h > 0
      ensures Held(Items(Lookup(s, ReadKey(h))), a, c) == KeptWei(ps, h - 1, a, c)
    {
      SeededList(s, lists, h);
    }
  }

  lemma SeededHoldsKept(keccak: string -> string, ps: Answers, s: Store, a: Address, c: Currency)
    requires SeededFrom(keccak, ps, s)
    ensures HoldsKept(ps, s, a, c)
  {
    var lists := Lists(keccak, ps);
    forall h: uint64
      ensures Held(lists(h), a, c) == KeptWei(ps, h, a, c)
    {
      ListHeld(keccak, ps, h, a, c);
    }
    ListsKept(s, lists, ps, a, c);
  }

  lemma SeededForStep(s: Store, run: seq<Block>, a: Address, c: Currency)
    requires run != []
    ensures SeededFor(s, run, a, c)
         == SeededFor(s, run[..|run| - 1], a, c) + Held(Items(Lookup(s, ReadKey(run[|run| - 1].height))), a, c)
  {
  }

  lemma {:induction false} SeededIsKept(ps: Answers, s: Store, run: seq<Block>, a: Address, c: Currency)
    requires HoldsKept(ps, s, a, c)
    requires forall b :: b in run ==> b.height > 0
    ensures SeededFor(s, run, a, c) == KeptByRun(ps, run, a, c)
  {
    if run != [] {
      SeededForStep(s, run, a, c);
      SeededIsKept(ps, s, run[..|run| - 1], a, c);
      assert run[|run| - 1] in run;
    }
  }

  /** After an empty store was seeded from the pools, a complete run pays every account
      exactly the stakes that the snapshot kept for the heights served, and the withdrawals
      that matured. */
  lemma SnapshotThenRun(
    keccak: string -> string, ps: Answers, s: Store, run: seq<Block>, lo: nat, a: Address, c: Currency)
    requires SeededFrom(keccak, ps, s) && DueBy(ps, lo + RETURN_LOCKING_PERIOD)
    requires Complete(run, lo) && forall b :: b in run ==> DistinctHashes(Returns(b.txs))
    ensures forall b :: b in run ==> b.height > 0
    ensures PaidByRun(s, run, a, c) == KeptByRun(ps, run, a, c) + Matured(run, a, c)
  {
    forall h: uint64 | Lists(keccak, ps)(h) != []
      ensures h + 1 <= lo + RETURN_LOCKING_PERIOD
    {
      KeptHeld(keccak, ps, h, a, c);
    }
    SeedIsBounded(s, Lists(keccak, ps), lo);
    forall b | b in run
      ensures b.height > 0
    {
      var i :| 0 <= i < |run| && run[i] == b;
    }
    Conserved(s, run, lo, a, c);
    SeededHoldsKept(keccak, ps, s, a, c);
    SeededIsKept(ps, s, run, a, c);
  }
}
