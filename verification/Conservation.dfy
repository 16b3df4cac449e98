/** Value is conserved over a complete run: what the responses pay out is what was seeded
    and withdrawn for their heights, per account and currency. */
module Conservation {
  import opened Wrappers
  import opened Transactions
  import opened Operations
  import opened BigEndian
  import opened StakeStore
  import opened Runs
  import Parsers

  /** Balance change of a list of transactions, read off their operations. */
  function Paid(txs: seq<Transaction>, a: Address, c: Currency): int {
    if txs == [] then 0 else Paid(txs[..|txs| - 1], a, c) + Delta(txs[|txs| - 1].ops, a, c)
  }

  /** Everything that the responses of a run return. */
  function PaidByRun(s: Store, run: seq<Block>, a: Address, c: Currency): int {
    if run == [] then 0 else
      var front, b := run[..|run| - 1], run[|run| - 1];
      PaidByRun(s, front, a, c) + Paid(ReturnTransactions(Due(StoreAfter(s, front), b), b.status), a, c)
  }

  function StakeCurrency(purpose: nat): Currency {
    if purpose == STAKE_FOR_VALIDATOR || purpose == STAKE_FOR_GUARDIAN then Theta else TFuel
  }

  /** The stakes a block's withdrawals take out, read off the stakes themselves. */
  function Withdrawn(txs: seq<BlockTx>, a: Address, c: Currency): int {
    if txs == [] then 0 else
      var x := txs[|txs| - 1];
      Withdrawn(txs[..|txs| - 1], a, c) +
      if x.Withdraw? && x.tx.source.address == a && c == StakeCurrency(x.tx.purpose) then x.stake.amount else 0
  }

  /** What the block at height h withdraws, if it is served. */
  function WithdrawnAt(run: seq<Block>, h: int, a: Address, c: Currency): int {
    if run == [] then 0 else
      var b := run[|run| - 1];
      WithdrawnAt(run[..|run| - 1], h, a, c) + if b.height == h then Withdrawn(b.txs, a, c) else 0
  }

  /** What a run withdraws in blocks whose due heights later blocks serve. */
  function MaturedIn(run: seq<Block>, later: seq<Block>, a: Address, c: Currency): int {
    if run == [] then 0 else
      var b := run[|run| - 1];
      MaturedIn(run[..|run| - 1], later, a, c) +
      if Serves(later, b.height + RETURN_LOCKING_PERIOD) then Withdrawn(b.txs, a, c) else 0
  }

  /** The withdrawals of a run that it also returns. */
  function Matured(run: seq<Block>, a: Address, c: Currency): int {
    MaturedIn(run, run, a, c)
  }

  /** Coins recorded in a list of stakes to return. */
  function Held(rs: seq<ReturnStakeTx>, a: Address, c: Currency): int {
    if rs == [] then 0 else
      var source := rs[|rs| - 1].tx.source;
      Held(rs[..|rs| - 1], a, c) + Parsers.Held(source.address, source.coins, a, c)
  }

  function SeededFor(s: Store, run: seq<Block>, a: Address, c: Currency): int {
    if run == [] then 0 else
      SeededFor(s, run[..|run| - 1], a, c) + Held(Items(Lookup(s, ReadKey(run[|run| - 1].height))), a, c)
  }

  lemma {:induction false} PaidIsHeld(rs: seq<ReturnStakeTx>, status: string, a: Address, c: Currency)
    ensures Paid(ReturnTransactions(rs, status), a, c) == Held(rs, a, c)
  {
    if rs != [] {
      var front, r := rs[..|rs| - 1], rs[|rs| - 1];
      PaidIsHeld(front, status, a, c);
      assert ReturnTransactions(rs, status)[..|front|] == ReturnTransactions(front, status);
      Parsers.ReturnMeaning(r.tx, Some(status), a, c);
    }
  }

  lemma HeldAppend(rs: seq<ReturnStakeTx>, r: ReturnStakeTx, a: Address, c: Currency)
    ensures Held(rs + [r], a, c) == Held(rs, a, c) + Parsers.Held(r.tx.source.address, r.tx.source.coins, a, c)
  {
    assert (rs + [r])[..|rs|] == rs;
  }

  lemma ReturnedCoins(x: BlockTx, a: Address, c: Currency)
    requires x.Withdraw?
    ensures var source := Returned(x).tx.source;
      Parsers.Held(source.address, source.coins, a, c)
        == if x.tx.source.address == a && c == StakeCurrency(x.tx.purpose) then x.stake.amount else 0
  {
  }

  lemma {:induction false} HeldIsWithdrawn(txs: seq<BlockTx>, a: Address, c: Currency)
    ensures Held(Returns(txs), a, c) == Withdrawn(txs, a, c)
  {
    if txs != [] {
      var front, x := txs[..|txs| - 1], txs[|txs| - 1];
      HeldIsWithdrawn(front, a, c);
      if x.Withdraw? {
        HeldAppend(Returns(front), Returned(x), a, c);
        ReturnedCoins(x, a, c);
      }
    }
  }

  // ---------- Complete runs ----------

  /** Seeded stakes are due at most one locking period after the snapshot at height lo. */
  ghost predicate SeedBounded(s: Store, lo: nat) {
    forall k :: k in s ==> Value(k) <= lo + RETURN_LOCKING_PERIOD
  }

  ghost predicate DistinctHeights(run: seq<Block>) {
    forall i, j :: 0 <= i < j < |run| ==> run[i].height != run[j].height
  }

  /** No height is served twice and none up to lo; with any height, the one a locking period
      earlier is served too, unless that is lo or below. */
  ghost predicate Closed(run: seq<Block>, lo: nat) {
    && DistinctHeights(run)
    && (forall i :: 0 <= i < |run| ==> run[i].height > lo)
    && (forall i :: 0 <= i < |run| && run[i].height > lo + RETURN_LOCKING_PERIOD ==>
          Serves(run, run[i].height - RETURN_LOCKING_PERIOD))
  }

  /** Blocks may be served in any order, but a block precedes the one that returns its stakes. */
  ghost predicate InTurn(run: seq<Block>) {
    forall i, j :: 0 <= i < |run| && 0 <= j < |run| && DueHeight(run[i].height) == run[j].height ==>
      (i < j <==> run[i].height < run[j].height)
  }

  ghost predicate Complete(run: seq<Block>, lo: nat) {
    Closed(run, lo) && InTurn(run)
  }

  lemma DistinctConsistent(run: seq<Block>)
    requires DistinctHeights(run)
    ensures Consistent(run)
  {
    forall b, b' | b in run && b' in run && b.height == b'.height
      ensures b == b'
    {
      var i :| 0 <= i < |run| && run[i] == b;
      var j :| 0 <= j < |run| && run[j] == b';
    }
  }

  /** The block that withdrew for block t has been served by then. */
  lemma EarlierServed(run: seq<Block>, lo: nat, t: nat) returns (i: nat)
    requires Complete(run, lo) && t < |run| && run[t].height > lo + RETURN_LOCKING_PERIOD
    ensures i < t && run[i].height == run[t].height - RETURN_LOCKING_PERIOD && DueHeight(run[i].height) == run[t].height
  {
    var b :| b in run && b.height == run[t].height - RETURN_LOCKING_PERIOD;
    i :| 0 <= i < |run| && run[i] == b;
    DueLater(run[i].height, run[t].height);
  }

  lemma OnlySeed(run: seq<Block>, lo: nat, t: nat)
    requires Complete(run, lo) && t < |run| && run[t].height <= lo + RETURN_LOCKING_PERIOD
    ensures forall b :: b in run[..t] ==> DueHeight(b.height) != run[t].height
  {
    forall i | 0 <= i < t
      ensures DueHeight(run[i].height) != run[t].height
    {
      assert run[i].height > lo;
    }
    forall b | b in run[..t]
      ensures DueHeight(b.height) != run[t].height
    {
      var i :| 0 <= i < t && run[..t][i] == b;
      assert run[i] == b;
    }
  }

  lemma Unseeded(s: Store, lo: nat, h: uint64)
    requires SeedBounded(s, lo) && h > lo + RETURN_LOCKING_PERIOD
    ensures ReadKey(h) !in s && Lookup(s, ReadKey(h)) == None
  {
    assert Value(ReadKey(h)) == h;
  }

  lemma FreshList(rs: seq<ReturnStakeTx>)
    requires DistinctHashes(rs)
    ensures Items(Record(None, rs)) == rs
  {
    RecordFresh(None, rs);
    assert Items(None) + rs == rs;
  }

  lemma UnseededDue(s: Store, run: seq<Block>, lo: nat, t: nat, i: nat)
    requires Complete(run, lo) && SeedBounded(s, lo) && i < t < |run|
    requires run[t].height > lo + RETURN_LOCKING_PERIOD && DueHeight(run[i].height) == run[t].height
    requires DistinctHashes(Returns(run[i].txs))
    ensures ReadKey(run[t].height) !in s && DueAt(s, run, t) == Returns(run[i].txs)
  {
    var b := run[i];
    assert b in run && run[..t][i] == b;
    assert Serves(run[..t], b.height);
    DistinctConsistent(run);
    DueIsSeedAndWithdrawn(s, run, t, b);
    KeysApart(b.height, run[t].height);
    Unseeded(s, lo, run[t].height);
    FreshList(Returns(b.txs));
  }

  /** Seeded and live stakes never share a key: up to lo + P only seeded stakes are due,
      afterwards only the withdrawals of the block one locking period earlier. */
  lemma DueInCompleteRun(s: Store, run: seq<Block>, lo: nat, t: nat)
    requires Complete(run, lo) && SeedBounded(s, lo) && t < |run|
    requires forall b :: b in run ==> DistinctHashes(Returns(b.txs))
    ensures run[t].height <= lo + RETURN_LOCKING_PERIOD ==> DueAt(s, run, t) == Items(Lookup(s, ReadKey(run[t].height)))
    ensures run[t].height > lo + RETURN_LOCKING_PERIOD ==>
      && ReadKey(run[t].height) !in s
      && exists b :: b in run && b.height == run[t].height - RETURN_LOCKING_PERIOD && DueAt(s, run, t) == Returns(b.txs)
  {
    if run[t].height <= lo + RETURN_LOCKING_PERIOD {
      OnlySeed(run, lo, t);
      DueIsSeed(s, run, t);
    } else {
      var i := EarlierServed(run, lo, t);
      UnseededDue(s, run, lo, t, i);
    }
  }

  // ---------- What matures ----------

  lemma {:induction false} WithdrawnNever(run: seq<Block>, h: int, a: Address, c: Currency)
    requires !Serves(run, h)
    ensures WithdrawnAt(run, h, a, c) == 0
  {
    if run != [] {
      assert run[|run| - 1] in run;
      assert forall b :: b in run[..|run| - 1] ==> b in run;
      WithdrawnNever(run[..|run| - 1], h, a, c);
    }
  }

  /** With distinct heights, at most one block is served at a height. */
  lemma {:induction false} WithdrawnOnce(run: seq<Block>, i: nat, a: Address, c: Currency)
    requires DistinctHeights(run) && i < |run|
    ensures WithdrawnAt(run, run[i].height, a, c) == Withdrawn(run[i].txs, a, c)
  {
    var front := run[..|run| - 1];
    if i < |front| {
      assert front[i] == run[i];
      WithdrawnOnce(front, i, a, c);
    } else {
      assert !Serves(front, run[i].height);
      WithdrawnNever(front, run[i].height, a, c);
    }
  }

  /** What the blocks one locking period before those of `later` withdraw. */
  function MaturesFor(run: seq<Block>, later: seq<Block>, a: Address, c: Currency): int {
    if later == [] then 0 else
      MaturesFor(run, later[..|later| - 1], a, c)
      + WithdrawnAt(run, later[|later| - 1].height - RETURN_LOCKING_PERIOD, a, c)
  }

  lemma {:induction false} MaturesForNothing(later: seq<Block>, a: Address, c: Currency)
    ensures MaturesFor([], later, a, c) == 0
  {
    if later != [] {
      MaturesForNothing(later[..|later| - 1], a, c);
    }
  }

  lemma ServesLast(run: seq<Block>, h: int)
    requires DistinctHeights(run) && run != []
    ensures Serves(run, h) <==> Serves(run[..|run| - 1], h) || run[|run| - 1].height == h
    ensures !(Serves(run[..|run| - 1], h) && run[|run| - 1].height == h)
  {
    var front, last := run[..|run| - 1], run[|run| - 1];
    assert run == front + [last];
    assert last in run;
    assert forall b :: b in front ==> b in run;
    forall b | b in front
      ensures b.height != last.height
    {
      var i :| 0 <= i < |front| && front[i] == b;
      assert run[i] == b;
    }
  }

  /** One more block counts once if its due height is served, and else not at all. */
  lemma {:induction false} MaturesForOne(run: seq<Block>, b: Block, later: seq<Block>, a: Address, c: Currency)
    requires DistinctHeights(later)
    ensures MaturesFor(run + [b], later, a, c) == MaturesFor(run, later, a, c)
      + if Serves(later, b.height + RETURN_LOCKING_PERIOD) then Withdrawn(b.txs, a, c) else 0
    decreases |later|
  {
    if later != [] {
      var front, last := later[..|later| - 1], later[|later| - 1];
      MaturesForOne(run, b, front, a, c);
      assert (run + [b])[..|run|] == run;
      ServesLast(later, b.height + RETURN_LOCKING_PERIOD);
    }
  }

  /** Summing over the returning blocks and summing over the withdrawing ones agree. */
  lemma {:induction false} MaturedEitherWay(run: seq<Block>, later: seq<Block>, a: Address, c: Currency)
    requires DistinctHeights(later)
    ensures MaturesFor(run, later, a, c) == MaturedIn(run, later, a, c)
    decreases |run|
  {
    if run == [] {
      MaturesForNothing(later, a, c);
    } else {
      var front, b := run[..|run| - 1], run[|run| - 1];
      assert run == front + [b];
      MaturesForOne(front, b, later, a, c);
      MaturedEitherWay(front, later, a, c);
    }
  }

  // ---------- Conservation ----------

  /** What is seeded for a height and what the block one locking period earlier withdraws. */
  function Expected(s: Store, run: seq<Block>, h: uint64, a: Address, c: Currency): int {
    Held(Items(Lookup(s, ReadKey(h))), a, c) + WithdrawnAt(run, h - RETURN_LOCKING_PERIOD, a, c)
  }

  lemma NothingBelow(run: seq<Block>, lo: nat, h: int)
    requires Closed(run, lo) && h <= lo
    ensures !Serves(run, h)
  {
    forall b | b in run
      ensures b.height != h
    {
      var i :| 0 <= i < |run| && run[i] == b;
    }
  }

  lemma SeedExpected(s: Store, run: seq<Block>, lo: nat, h: uint64, a: Address, c: Currency)
    requires Closed(run, lo) && h <= lo + RETURN_LOCKING_PERIOD
    ensures Expected(s, run, h, a, c) == Held(Items(Lookup(s, ReadKey(h))), a, c)
  {
    NothingBelow(run, lo, h - RETURN_LOCKING_PERIOD);
    WithdrawnNever(run, h - RETURN_LOCKING_PERIOD, a, c);
  }

  lemma LiveExpected(s: Store, run: seq<Block>, lo: nat, h: uint64, i: nat, a: Address, c: Currency)
    requires Closed(run, lo) && SeedBounded(s, lo) && h > lo + RETURN_LOCKING_PERIOD
    requires i < |run| && run[i].height == h - RETURN_LOCKING_PERIOD
    ensures Expected(s, run, h, a, c) == Held(Returns(run[i].txs), a, c)
  {
    Unseeded(s, lo, h);
    assert Held([], a, c) == 0;
    HeldIsWithdrawn(run[i].txs, a, c);
    WithdrawnOnce(run, i, a, c);
  }

  ghost predicate PaysAt(s: Store, run: seq<Block>, t: nat, a: Address, c: Currency)
    requires t < |run|
  {
    Paid(ReturnTransactions(DueAt(s, run, t), run[t].status), a, c) == Expected(s, run, run[t].height, a, c)
  }

  /** A response pays exactly that. */
  lemma PaidAt(s: Store, run: seq<Block>, lo: nat, t: nat, a: Address, c: Currency)
    requires Complete(run, lo) && SeedBounded(s, lo) && t < |run|
    requires forall b :: b in run ==> DistinctHashes(Returns(b.txs))
    ensures PaysAt(s, run, t, a, c)
  {
    PaidIsHeld(DueAt(s, run, t), run[t].status, a, c);
    if run[t].height <= lo + RETURN_LOCKING_PERIOD {
      OnlySeed(run, lo, t);
      DueIsSeed(s, run, t);
      SeedExpected(s, run, lo, run[t].height, a, c);
    } else {
      var i := EarlierServed(run, lo, t);
      UnseededDue(s, run, lo, t, i);
      LiveExpected(s, run, lo, run[t].height, i, a, c);
    }
  }

  function ExpectedFor(s: Store, run: seq<Block>, part: seq<Block>, a: Address, c: Currency): int {
    if part == [] then 0 else
      ExpectedFor(s, run, part[..|part| - 1], a, c) + Expected(s, run, part[|part| - 1].height, a, c)
  }

  lemma {:induction false} ExpectedSum(s: Store, run: seq<Block>, part: seq<Block>, a: Address, c: Currency)
    ensures ExpectedFor(s, run, part, a, c) == SeededFor(s, part, a, c) + MaturesFor(run, part, a, c)
  {
    if part != [] {
      ExpectedSum(s, run, part[..|part| - 1], a, c);
    }
  }

  lemma {:induction false} PaidByPrefix(s: Store, run: seq<Block>, n: nat, a: Address, c: Currency)
    requires n <= |run| && forall t :: 0 <= t < |run| ==> PaysAt(s, run, t, a, c)
    ensures PaidByRun(s, run[..n], a, c) == ExpectedFor(s, run, run[..n], a, c)
    decreases n
  {
    if n > 0 {
      PaidByPrefix(s, run, n - 1, a, c);
      assert run[..n][..n - 1] == run[..n - 1];
      assert PaysAt(s, run, n - 1, a, c);
    }
  }

  /** Over a complete run, the operations in the responses pay every account exactly its
      seeded stakes and the stakes withdrawn in blocks whose due height the run serves. */
  lemma Conserved(s: Store, run: seq<Block>, lo: nat, a: Address, c: Currency)
    requires Complete(run, lo) && SeedBounded(s, lo)
    requires forall b :: b in run ==> DistinctHashes(Returns(b.txs))
    ensures PaidByRun(s, run, a, c) == SeededFor(s, run, a, c) + Matured(run, a, c)
  {
    assert run[..|run|] == run;
    forall t | 0 <= t < |run|
      ensures PaysAt(s, run, t, a, c)
    {
      PaidAt(s, run, lo, t, a, c);
    }
    PaidByPrefix(s, run, |run|, a, c);
    ExpectedSum(s, run, run, a, c);
    MaturedEitherWay(run, run, a, c);
  }

  // ---------- In order ----------

  /** Every block above height lo is served once, in order. */
  ghost predicate InOrder(run: seq<Block>, lo: nat) {
    forall i :: 0 <= i < |run| ==> run[i].height == lo + 1 + i
  }

  function WithdrawnByRun(run: seq<Block>, a: Address, c: Currency): int {
    if run == [] then 0 else
      WithdrawnByRun(run[..|run| - 1], a, c) + Withdrawn(run[|run| - 1].txs, a, c)
  }

  lemma ServedInOrder(run: seq<Block>, lo: nat, i: nat)
    requires InOrder(run, lo) && i < |run|
    ensures Serves(run, run[i].height + RETURN_LOCKING_PERIOD) <==> i + RETURN_LOCKING_PERIOD < |run|
  {
    if i + RETURN_LOCKING_PERIOD < |run| {
      assert run[i + RETURN_LOCKING_PERIOD] in run;
    }
  }

  lemma {:induction false} MaturedInOrder(run: seq<Block>, lo: nat, n: nat, a: Address, c: Currency)
    requires InOrder(run, lo) && n <= |run|
    ensures var last := |run| - RETURN_LOCKING_PERIOD;
      MaturedIn(run[..n], run, a, c)
        == if last <= 0 then 0 else WithdrawnByRun(run[..if n <= last then n else last], a, c)
    decreases n
  {
    if n > 0 {
      assert run[..n][..n - 1] == run[..n - 1];
      MaturedInOrder(run, lo, n - 1, a, c);
      ServedInOrder(run, lo, n - 1);
    }
  }

  /** Such a run is complete, and what matures is what it withdraws at least one locking
      period before its end. */
  lemma InOrderComplete(run: seq<Block>, lo: nat, a: Address, c: Currency)
    requires InOrder(run, lo)
    ensures Complete(run, lo)
    ensures Matured(run, a, c)
         == if |run| <= RETURN_LOCKING_PERIOD then 0 else WithdrawnByRun(run[..|run| - RETURN_LOCKING_PERIOD], a, c)
  {
    forall i | 0 <= i < |run| && run[i].height > lo + RETURN_LOCKING_PERIOD
      ensures Serves(run, run[i].height - RETURN_LOCKING_PERIOD)
    {
      assert run[i - RETURN_LOCKING_PERIOD] in run;
    }
    assert run[..|run|] == run;
    MaturedInOrder(run, lo, |run|, a, c);
  }
}
