/** The life of one withdrawal, told in terms of the block that makes it and the responses
    that return it. */
module Payouts {
  import opened Wrappers
  import opened Transactions
  import opened Operations
  import opened BigEndian
  import opened StakeStore
  import opened Runs
  import Conservation
  import Parsers

  /** Transaction hashes are unique among the withdrawals of a block, between blocks of
      different heights, and against the seed. */
  ghost predicate UniqueTransactions(s: Store, run: seq<Block>) {
    && (forall b, i, j :: b in run && 0 <= i < j < |b.txs| && b.txs[i].Withdraw? && b.txs[j].Withdraw? ==>
          b.txs[i].hash != b.txs[j].hash)
    && (forall b, b' :: b in run && b' in run && b.height != b'.height ==>
          forall x, y :: x in b.txs && y in b'.txs && x.Withdraw? && y.Withdraw? ==> x.hash != y.hash)
    && (forall b, k, x, r :: b in run && k in s && x in b.txs && x.Withdraw? && r in s[k] ==> r.hash != x.hash)
  }

  /** The records of a block are its withdrawals', under their own hashes. */
  lemma {:induction false} ReturnsOf(txs: seq<BlockTx>, r: ReturnStakeTx)
    ensures r in Returns(txs) <==> exists x :: x in txs && x.Withdraw? && Returned(x) == r
  {
    if txs != [] {
      var front, last := txs[..|txs| - 1], txs[|txs| - 1];
      ReturnsOf(front, r);
      assert txs == front + [last];
      assert last in txs;
      assert forall x :: x in txs <==> x in front || x == last;
    }
  }

  lemma ReturnedHash(x: BlockTx)
    requires x.Withdraw?
    ensures Returned(x).hash == x.hash
  {
  }

  lemma {:induction false} DistinctRecords(txs: seq<BlockTx>)
    requires forall i, j :: 0 <= i < j < |txs| && txs[i].Withdraw? && txs[j].Withdraw? ==> txs[i].hash != txs[j].hash
    ensures DistinctHashes(Returns(txs))
  {
    if txs != [] {
      var front, last := txs[..|txs| - 1], txs[|txs| - 1];
      DistinctRecords(front);
      if last.Withdraw? {
        forall r | r in Returns(front)
          ensures r.hash != Returned(last).hash
        {
          ReturnsOf(front, r);
          var x :| x in front && x.Withdraw? && Returned(x) == r;
          var i :| 0 <= i < |front| && front[i] == x;
          assert txs[i] == x;
        }
      }
    }
  }

  lemma RecordHash(txs: seq<BlockTx>, h: string) returns (x: BlockTx)
    requires h in Hashes(Returns(txs))
    ensures x in txs && x.Withdraw? && x.hash == h
  {
    var r :| r in Returns(txs) && r.hash == h;
    ReturnsOf(txs, r);
    x :| x in txs && x.Withdraw? && Returned(x) == r;
  }

  lemma UniqueRecords(s: Store, run: seq<Block>)
    requires UniqueTransactions(s, run)
    ensures UniqueHashes(s, run)
  {
    forall b | b in run
      ensures DistinctHashes(Returns(b.txs))
    {
      DistinctRecords(b.txs);
    }
    forall b, b' | b in run && b' in run && b.height != b'.height
      ensures Hashes(Returns(b.txs)) !! Hashes(Returns(b'.txs))
    {
      forall h | h in Hashes(Returns(b.txs))
        ensures h !in Hashes(Returns(b'.txs))
      {
        var x := RecordHash(b.txs, h);
        if h in Hashes(Returns(b'.txs)) {
          var y := RecordHash(b'.txs, h);
        }
      }
    }
    forall b, k | b in run && k in s
      ensures Hashes(s[k]) !! Hashes(Returns(b.txs))
    {
      forall h | h in Hashes(Returns(b.txs))
        ensures h !in Hashes(s[k])
      {
        var x := RecordHash(b.txs, h);
      }
    }
  }

  // ---------- Responses ----------

  /** How many transactions of a response have the given identifier. */
  function CountIds(txs: seq<Transaction>, id: string): nat {
    if txs == [] then 0 else CountIds(txs[..|txs| - 1], id) + if txs[|txs| - 1].hash == id then 1 else 0
  }

  lemma {:induction false} CountIdsReturned(rs: seq<ReturnStakeTx>, status: string, id: string)
    ensures CountIds(ReturnTransactions(rs, status), id) == Count(rs, id)
  {
    if rs != [] {
      CountIdsReturned(rs[..|rs| - 1], status, id);
      assert ReturnTransactions(rs, status)[..|rs| - 1] == ReturnTransactions(rs[..|rs| - 1], status);
    }
  }

  lemma {:induction false} CountedOnce(l: seq<ReturnStakeTx>, i: nat)
    requires i < |l|
    ensures Count(l, l[i].hash) >= 1
  {
    if i < |l| - 1 {
      CountedOnce(l[..|l| - 1], i);
    }
  }

  lemma {:induction false} CountedTwice(l: seq<ReturnStakeTx>, i: nat, j: nat)
    requires i < j < |l| && l[i].hash == l[j].hash
    ensures Count(l, l[i].hash) >= 2
    decreases |l|
  {
    var front := l[..|l| - 1];
    if j < |front| {
      CountedTwice(front, i, j);
    } else {
      CountedOnce(front, i);
    }
  }

  /** The height at which the withdrawals of a block are due: 28800 later, as a uint64. */
  ghost predicate DueAfter(h: uint64, h': uint64) {
    h' == h + 28800 || h' + 0x1_0000_0000_0000_0000 == h + 28800
  }

  /** The currency of a stake: Theta for validators and guardians, TFuel for others. */
  function CurrencyOf(purpose: nat): Currency {
    if purpose == 0 || purpose == 1 then Theta else TFuel
  }

  /** The return of withdrawal x: it pays the source the stake and does nothing else, in two
      operations, one of them zero, with the status of the returning block. */
  ghost predicate ReturnOf(t: Transaction, x: BlockTx, status: string)
    requires x.Withdraw?
  {
    var a, wei, c := x.tx.source.address, x.stake.amount, CurrencyOf(x.tx.purpose);
    var meta := Some(Metadata(x.tx.source.sequence, x.tx.source.signature));
    && t.hash == x.hash
    && (forall b, d :: Delta(t.ops, b, d) == if b == a && d == c then wei else 0)
    && Chained(t.ops, Some(status)) && |t.ops| == 2
    && Says(t.ops[0], WithdrawStakeTxSource, a, if c == Theta then wei else 0, Theta, meta)
    && Says(t.ops[1], WithdrawStakeTxSource, a, if c == Theta then 0 else wei, TFuel, meta)
  }

  lemma ReturnPays(x: BlockTx, status: string)
    requires x.Withdraw?
    ensures ReturnOf(Transaction(x.hash, Parsers.ReturnOps(Returned(x).tx, Some(status))), x, status)
  {
    var t := Transaction(x.hash, Parsers.ReturnOps(Returned(x).tx, Some(status)));
    Parsers.ReturnShown(Returned(x).tx, Some(status));
    forall b, d
      ensures Delta(t.ops, b, d)
           == if b == x.tx.source.address && d == CurrencyOf(x.tx.purpose) then x.stake.amount else 0
    {
      Parsers.ReturnMeaning(Returned(x).tx, Some(status), b, d);
      Conservation.ReturnedCoins(x, b, d);
    }
  }

  /** Position k of a response is the withdrawal x's return. */
  lemma ReturnAt(l: seq<ReturnStakeTx>, status: string, x: BlockTx, k: nat)
    requires x.Withdraw? && Returned(x) in l && Count(l, x.hash) == 1 && k < |l| && l[k].hash == x.hash
    ensures l[k] == Returned(x)
    ensures ReturnTransactions(l, status)[k] == Transaction(x.hash, Parsers.ReturnOps(Returned(x).tx, Some(status)))
  {
    var j :| 0 <= j < |l| && l[j] == Returned(x);
    if j < k {
      CountedTwice(l, j, k);
    } else if k < j {
      CountedTwice(l, k, j);
    }
  }

  /** Each withdrawal of a served block is returned under its own identifier by every later
      response at the height 28800 blocks on, exactly once there and by no other response;
      and what it returns is the stake, to the account that staked it, in the currency of
      the stake's purpose. */
  lemma ReturnedOnce(s: Store, run: seq<Block>, t: nat, b: Block, x: BlockTx)
    requires Consistent(run) && UniqueTransactions(s, run)
    requires t < |run| && b in run && x in b.txs && x.Withdraw?
    ensures var answer := ReturnTransactions(DueAt(s, run, t), run[t].status);
      && CountIds(answer, x.hash)
          == (if Serves(run[..t], b.height) && DueAfter(b.height, run[t].height) then 1 else 0)
      && forall k :: 0 <= k < |answer| && answer[k].hash == x.hash ==>
        ReturnOf(answer[k], x, run[t].status)
  {
    var l, status := DueAt(s, run, t), run[t].status;
    UniqueRecords(s, run);
    ReturnsOf(b.txs, Returned(x));
    ReturnedHash(x);
    ExactlyOnce(s, run, t, b, Returned(x));
    CountIdsReturned(l, status, x.hash);
    assert DueAfter(b.height, run[t].height) <==> DueHeight(b.height) == run[t].height;
    forall k | 0 <= k < |l| && ReturnTransactions(l, status)[k].hash == x.hash
      ensures ReturnOf(ReturnTransactions(l, status)[k], x, status)
    {
      CountedOnce(l, k);
      ReturnAt(l, status, x, k);
      ReturnPays(x, status);
    }
  }
}
