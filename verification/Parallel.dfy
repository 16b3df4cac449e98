/** Conservation when requests overlap: heights are synced in parallel, in any order and in
    any interleaving of their Get and Put steps. */
module Parallel {
  import opened Transactions
  import opened BigEndian
  import opened StakeStore
  import opened Runs
  import opened Conservation
  import opened Interleaving
  import opened Races

  /** What the responses of the first n requests pay. */
  function PaidByAnswers(st: State, blocks: seq<Block>, n: nat, a: Address, c: Currency): int
    requires n <= |blocks| == |st.requests| && AllAnswered(st)
  {
    if n == 0 then 0 else
      PaidByAnswers(st, blocks, n - 1, a, c)
      + Paid(ReturnTransactions(Items(st.requests[n - 1].phase.due), blocks[n - 1].status), a, c)
  }

  /** By some step, request i has not answered yet, and the requests for height h have put
      everything. */
  ghost predicate SettledBefore(s: Store, blocks: seq<Block>, schedule: seq<nat>, i: nat, h: uint64, n: nat) {
    n <= |schedule| && var mid := Run(Start(s, blocks), schedule[..n]);
      i < |mid.requests| && !mid.requests[i].phase.Answered? && !Pending(mid, h)
  }

  /** A request answers after the block whose stakes it returns has recorded them; other
      requests may overlap it in any way. */
  ghost predicate InTime(s: Store, blocks: seq<Block>, schedule: seq<nat>) {
    forall i, j :: 0 <= i < |blocks| && 0 <= j < |blocks| && DueHeight(blocks[j].height) == blocks[i].height ==>
      && blocks[j].height < blocks[i].height
      && exists n :: SettledBefore(s, blocks, schedule, i, blocks[j].height, n)
  }

  lemma DistinctShareable(s: Store, blocks: seq<Block>)
    requires DistinctHeights(blocks)
    ensures Consistent(blocks) && Shareable(s, blocks)
  {
    DistinctConsistent(blocks);
  }

  lemma NoWrap(h: uint64, h': uint64)
    ensures DueHeight(h) == h' && h < h' ==> h' == h + RETURN_LOCKING_PERIOD
  {
  }

  lemma NoneWithdrawn(s: Store, blocks: seq<Block>, schedule: seq<nat>, lo: nat, i: nat)
    requires Closed(blocks, lo) && InTime(s, blocks, schedule)
    requires i < |blocks| && blocks[i].height <= lo + RETURN_LOCKING_PERIOD
    ensures forall b :: b in blocks ==> DueHeight(b.height) != blocks[i].height
  {
    forall b | b in blocks
      ensures DueHeight(b.height) != blocks[i].height
    {
      var j :| 0 <= j < |blocks| && blocks[j] == b;
      assert blocks[j].height > lo;
      NoWrap(blocks[j].height, blocks[i].height);
    }
  }

  lemma SeedAnswer(s: Store, blocks: seq<Block>, schedule: seq<nat>, lo: nat, i: nat)
    requires Closed(blocks, lo) && InTime(s, blocks, schedule)
    requires i < |blocks| && blocks[i].height <= lo + RETURN_LOCKING_PERIOD
    ensures var st := Run(Start(s, blocks), schedule);
      |st.requests| == |blocks| && (st.requests[i].phase.Answered? ==>
        Items(st.requests[i].phase.due) == Items(Lookup(s, ReadKey(blocks[i].height))))
  {
    DistinctConsistent(blocks);
    NoneWithdrawn(s, blocks, schedule, lo, i);
    AnswersSound(s, blocks, schedule, i);
  }

  lemma SplitAt(schedule: seq<nat>, n: nat)
    requires n <= |schedule|
    ensures schedule[..n] + schedule[n..] == schedule
  {
  }

  lemma SettledAnswer(s: Store, blocks: seq<Block>, schedule: seq<nat>, i: nat, j: nat, n: nat)
    requires DistinctHeights(blocks) && i < |blocks| && j < |blocks|
    requires DueHeight(blocks[j].height) == blocks[i].height
    requires SettledBefore(s, blocks, schedule, i, blocks[j].height, n)
    ensures var st := Run(Start(s, blocks), schedule);
      |st.requests| == |blocks| && (st.requests[i].phase.Answered? ==>
        st.requests[i].phase.due == Record(Lookup(s, ReadKey(blocks[i].height)), Returns(blocks[j].txs)))
  {
    DistinctShareable(s, blocks);
    RunSafe(s, blocks, schedule[..n]);
    SplitAt(schedule, n);
    AnswerComplete(s, blocks, schedule[..n], schedule[n..], i, blocks[j]);
  }

  lemma LiveAnswer(s: Store, blocks: seq<Block>, schedule: seq<nat>, lo: nat, i: nat, j: nat)
    requires Closed(blocks, lo) && SeedBounded(s, lo) && InTime(s, blocks, schedule)
    requires i < |blocks| && j < |blocks| && DueHeight(blocks[j].height) == blocks[i].height
    requires blocks[i].height > lo + RETURN_LOCKING_PERIOD && DistinctHashes(Returns(blocks[j].txs))
    ensures var st := Run(Start(s, blocks), schedule);
      |st.requests| == |blocks| && (st.requests[i].phase.Answered? ==>
        Items(st.requests[i].phase.due) == Returns(blocks[j].txs))
  {
    var n :| SettledBefore(s, blocks, schedule, i, blocks[j].height, n);
    SettledAnswer(s, blocks, schedule, i, j, n);
    Unseeded(s, lo, blocks[i].height);
    FreshList(Returns(blocks[j].txs));
  }

  lemma WithdrawnEarlier(blocks: seq<Block>, lo: nat, i: nat) returns (j: nat)
    requires Closed(blocks, lo) && i < |blocks| && blocks[i].height > lo + RETURN_LOCKING_PERIOD
    ensures j < |blocks| && blocks[j].height == blocks[i].height - RETURN_LOCKING_PERIOD
    ensures DueHeight(blocks[j].height) == blocks[i].height
  {
    var b :| b in blocks && b.height == blocks[i].height - RETURN_LOCKING_PERIOD;
    j :| 0 <= j < |blocks| && blocks[j] == b;
    DueLater(blocks[j].height, blocks[i].height);
  }

  lemma PaidByAnswer(
    s: Store, blocks: seq<Block>, schedule: seq<nat>, lo: nat, i: nat, a: Address, c: Currency)
    requires Closed(blocks, lo) && SeedBounded(s, lo) && InTime(s, blocks, schedule)
    requires forall b :: b in blocks ==> DistinctHashes(Returns(b.txs))
    requires i < |blocks| && AllAnswered(Run(Start(s, blocks), schedule))
    ensures var st := Run(Start(s, blocks), schedule);
      && |st.requests| == |blocks|
      && Paid(ReturnTransactions(Items(st.requests[i].phase.due), blocks[i].status), a, c)
          == Expected(s, blocks, blocks[i].height, a, c)
  {
    var st, h := Run(Start(s, blocks), schedule), blocks[i].height;
    if h <= lo + RETURN_LOCKING_PERIOD {
      SeedAnswer(s, blocks, schedule, lo, i);
      SeedExpected(s, blocks, lo, h, a, c);
    } else {
      var j := WithdrawnEarlier(blocks, lo, i);
      LiveAnswer(s, blocks, schedule, lo, i, j);
      LiveExpected(s, blocks, lo, h, j, a, c);
    }
    PaidIsHeld(Items(st.requests[i].phase.due), blocks[i].status, a, c);
  }

  ghost predicate PaysExpected(s: Store, st: State, blocks: seq<Block>, i: nat, a: Address, c: Currency)
    requires i < |blocks| == |st.requests| && AllAnswered(st)
  {
    Paid(ReturnTransactions(Items(st.requests[i].phase.due), blocks[i].status), a, c)
      == Expected(s, blocks, blocks[i].height, a, c)
  }

  lemma {:induction false} PaidByFirst(
    s: Store, st: State, blocks: seq<Block>, n: nat, a: Address, c: Currency)
    requires n <= |blocks| == |st.requests| && AllAnswered(st)
    requires forall i :: 0 <= i < |blocks| ==> PaysExpected(s, st, blocks, i, a, c)
    ensures PaidByAnswers(st, blocks, n, a, c) == ExpectedFor(s, blocks, blocks[..n], a, c)
    decreases n
  {
    if n > 0 {
      PaidByFirst(s, st, blocks, n - 1, a, c);
      assert blocks[..n][..n - 1] == blocks[..n - 1];
      assert PaysExpected(s, st, blocks, n - 1, a, c);
    }
  }

  /** Whatever order the heights are requested in and however the requests overlap, as long
      as each answers after the stakes due at its height were recorded, the responses pay
      every account exactly what a sequential run pays. */
  lemma ConservedInParallel(
    s: Store, blocks: seq<Block>, schedule: seq<nat>, lo: nat, a: Address, c: Currency)
    requires Closed(blocks, lo) && SeedBounded(s, lo) && InTime(s, blocks, schedule)
    requires forall b :: b in blocks ==> DistinctHashes(Returns(b.txs))
    requires AllAnswered(Run(Start(s, blocks), schedule))
    ensures var st := Run(Start(s, blocks), schedule);
      && |st.requests| == |blocks|
      && PaidByAnswers(st, blocks, |blocks|, a, c) == SeededFor(s, blocks, a, c) + Matured(blocks, a, c)
  {
    DistinctConsistent(blocks);
    RunSafe(s, blocks, schedule);
    var st := Run(Start(s, blocks), schedule);
    forall i | 0 <= i < |blocks|
      ensures PaysExpected(s, st, blocks, i, a, c)
    {
      PaidByAnswer(s, blocks, schedule, lo, i, a, c);
    }
    assert blocks[..|blocks|] == blocks;
    PaidByFirst(s, st, blocks, |blocks|, a, c);
    ExpectedSum(s, blocks, blocks, a, c);
    MaturedEitherWay(blocks, blocks, a, c);
  }
}
