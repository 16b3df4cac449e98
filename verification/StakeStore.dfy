/** The store of stakes waiting to be returned, and the Block request that fills and reads it. */
module StakeStore {
  import opened Wrappers
  import opened Transactions
  import opened Operations
  import opened BigEndian
  import Parsers

  /** core.ReturnLockingPeriod: stakes are returned this many blocks after their withdrawal. */
  const RETURN_LOCKING_PERIOD: nat := 28800

  datatype ReturnStakeTx = ReturnStakeTx(hash: string, tx: WithdrawStakeTx)

  type Key = seq<byte>

  type Store = map<Key, seq<ReturnStakeTx>>

  datatype Stake = Stake(source: Address, holder: Address, amount: int, withdrawn: bool, returnHeight: uint64)

  datatype Transaction = Transaction(hash: string, ops: seq<Operation>)

  /** A block's transaction as the node reports it: a withdrawal together with the stake
      that is found for it, or any other transaction, already parsed. */
  datatype BlockTx =
    | Withdraw(hash: string, tx: WithdrawStakeTx, stake: Stake)
    | Other(transaction: Transaction)

  datatype Block = Block(height: uint64, status: string, txs: seq<BlockTx>)

  const STAKE_FOR_VALIDATOR: nat := 0
  const STAKE_FOR_GUARDIAN: nat := 1

  // ---------- What a block withdraws ----------

  /** Validator and guardian stakes are Theta, elite edge node stakes are TFuel. */
  function StakeCoins(purpose: nat, amount: int): Coins {
    if purpose == STAKE_FOR_VALIDATOR || purpose == STAKE_FOR_GUARDIAN
    then Coins(Some(amount), None) else Coins(None, Some(amount))
  }

  /** What a withdrawal asks the store to keep. */
  function Recorded(x: BlockTx): ReturnStakeTx
    requires x.Withdraw?
  {
    ReturnStakeTx(x.hash, x.tx.(source := x.tx.source.(coins := StakeCoins(x.tx.purpose, x.stake.amount))))
  }

  /** A record as it comes back: RLP has no nil, so every nil coin comes back as zero. */
  function Stored(r: ReturnStakeTx): ReturnStakeTx {
    var source, holder := r.tx.source, r.tx.holder;
    r.(tx := r.tx.(fee := r.tx.fee.NoNil(),
                   source := source.(coins := source.coins.NoNil()),
                   holder := holder.(coins := holder.coins.NoNil())))
  }

  function StoredAll(l: seq<ReturnStakeTx>): (r: seq<ReturnStakeTx>)
    ensures |r| == |l|
    ensures forall i :: 0 <= i < |l| ==> r[i] == Stored(l[i])
  {
    seq(|l|, i requires 0 <= i < |l| => Stored(l[i]))
  }

  /** What the store keeps of a withdrawal. */
  function Returned(x: BlockTx): ReturnStakeTx
    requires x.Withdraw?
  {
    Stored(Recorded(x))
  }

  function Returns(txs: seq<BlockTx>): seq<ReturnStakeTx> {
    if txs == [] then [] else
      var front, x := Returns(txs[..|txs| - 1]), txs[|txs| - 1];
      if x.Withdraw? then front + [Returned(x)] else front
  }

  function DueHeight(h: uint64): uint64 {
    Plus(h, RETURN_LOCKING_PERIOD)
  }

  /** The key that serving the block at height h writes. */
  function WriteKey(h: uint64): Key {
    Bytes(DueHeight(h))
  }

  /** The key that it reads. */
  function ReadKey(h: uint64): Key {
    Bytes(h)
  }

  // ---------- One key's list ----------

  function Lookup(s: Store, k: Key): Option<seq<ReturnStakeTx>> {
    if k in s then Some(s[k]) else None
  }

  function Hashes(l: seq<ReturnStakeTx>): set<string> {
    set r | r in l :: r.hash
  }

  /** What the list holds, where an absent key holds nothing. */
  function Items(o: Option<seq<ReturnStakeTx>>): seq<ReturnStakeTx> {
    o.GetOr([])
  }

  /** The list after one withdrawal: appended unless its hash is there. */
  function Add(o: Option<seq<ReturnStakeTx>>, r: ReturnStakeTx): seq<ReturnStakeTx> {
    if r.hash in Hashes(Items(o)) then Items(o) else Items(o) + [r]
  }

  /** Putting an extended list keeps the records that were there and the new one's stored form. */
  lemma StoredAdd(o: Option<seq<ReturnStakeTx>>, r: ReturnStakeTx)
    requires StoredAll(Items(o)) == Items(o)
    ensures StoredAll(Add(o, r)) == Add(o, Stored(r))
  {
  }

  /** The list after a series of withdrawals. */
  function Record(o: Option<seq<ReturnStakeTx>>, rs: seq<ReturnStakeTx>): Option<seq<ReturnStakeTx>> {
    if rs == [] then o else Some(Add(Record(o, rs[..|rs| - 1]), rs[|rs| - 1]))
  }

  lemma AddHashes(o: Option<seq<ReturnStakeTx>>, r: ReturnStakeTx)
    ensures Hashes(Add(o, r)) == Hashes(Items(o)) + {r.hash}
  {
    if r.hash !in Hashes(Items(o)) {
      var l := Items(o) + [r];
      assert l[|l| - 1] == r;
      forall h | h in Hashes(Items(o)) + {r.hash}
        ensures h in Hashes(l)
      {
        if h == r.hash {
          assert r in l;
        } else {
          var x :| x in Items(o) && x.hash == h;
          assert x in l;
        }
      }
    }
  }

  lemma {:induction false} RecordHashes(o: Option<seq<ReturnStakeTx>>, rs: seq<ReturnStakeTx>)
    ensures Hashes(Items(Record(o, rs))) == Hashes(Items(o)) + Hashes(rs)
  {
    if rs != [] {
      var front, r := rs[..|rs| - 1], rs[|rs| - 1];
      RecordHashes(o, front);
      AddHashes(Record(o, front), r);
      assert rs == front + [r];
      assert forall x :: x in rs <==> x in front || x == r;
    }
  }

  /** Recording again what is already there changes nothing. */
  lemma {:induction false} RecordKnown(o: Option<seq<ReturnStakeTx>>, rs: seq<ReturnStakeTx>)
    requires Hashes(rs) <= Hashes(Items(o))
    ensures Record(o, rs) == o
  {
    if rs != [] {
      var front, r := rs[..|rs| - 1], rs[|rs| - 1];
      assert r in rs && r.hash in Hashes(rs);
      assert forall x :: x in front ==> x in rs;
      RecordKnown(o, front);
    }
  }

  lemma RecordIdempotent(o: Option<seq<ReturnStakeTx>>, rs: seq<ReturnStakeTx>)
    ensures Record(Record(o, rs), rs) == Record(o, rs)
  {
    RecordHashes(o, rs);
    RecordKnown(Record(o, rs), rs);
  }

  ghost predicate DistinctHashes(l: seq<ReturnStakeTx>) {
    forall i, j :: 0 <= i < j < |l| ==> l[i].hash != l[j].hash
  }

  lemma FreshFront(rs: seq<ReturnStakeTx>)
    requires DistinctHashes(rs) && rs != []
    ensures var front, r := rs[..|rs| - 1], rs[|rs| - 1];
      DistinctHashes(front) && Hashes(front) <= Hashes(rs) && r.hash in Hashes(rs) && r.hash !in Hashes(front)
  {
    var front, r := rs[..|rs| - 1], rs[|rs| - 1];
    assert r in rs;
    assert forall x :: x in front ==> x in rs;
    forall x | x in front
      ensures x.hash != r.hash
    {
      var i :| 0 <= i < |front| && front[i] == x;
    }
  }

  /** Withdrawals with new, distinct hashes are appended, all of them and in order. */
  lemma {:induction false} RecordFresh(o: Option<seq<ReturnStakeTx>>, rs: seq<ReturnStakeTx>)
    requires DistinctHashes(rs) && Hashes(rs) !! Hashes(Items(o))
    ensures Items(Record(o, rs)) == Items(o) + rs
  {
    if rs == [] {
      assert Items(o) + rs == Items(o);
    } else {
      var front, r := rs[..|rs| - 1], rs[|rs| - 1];
      FreshFront(rs);
      RecordFresh(o, front);
      RecordHashes(o, front);
      assert Items(o) + front + [r] == Items(o) + rs;
    }
  }

  // ---------- One Block request ----------

  /** The store after the block at height h recorded the given withdrawals. */
  function RecordStore(s: Store, h: uint64, rs: seq<ReturnStakeTx>): Store {
    if rs == [] then s else s[WriteKey(h) := Items(Record(Lookup(s, WriteKey(h)), rs))]
  }

  lemma RecordStoreLookup(s: Store, h: uint64, rs: seq<ReturnStakeTx>, k: Key)
    ensures Lookup(RecordStore(s, h, rs), k) == if k == WriteKey(h) then Record(Lookup(s, k), rs) else Lookup(s, k)
  {
  }

  /** Recording one more withdrawal is one more read and write of the key. */
  lemma RecordStoreAppend(s: Store, h: uint64, rs: seq<ReturnStakeTx>, r: ReturnStakeTx)
    ensures var s' := RecordStore(s, h, rs);
      RecordStore(s, h, rs + [r]) == s'[WriteKey(h) := Add(Lookup(s', WriteKey(h)), r)]
  {
    assert (rs + [r])[..|rs|] == rs;
    var before := Lookup(s, WriteKey(h));
    RecordStoreLookup(s, h, rs, WriteKey(h));
    assert Record(before, rs + [r]) == Some(Add(Record(before, rs), r));
  }

  /** The store after a block was served. */
  function ServeStore(s: Store, b: Block): Store {
    RecordStore(s, b.height, Returns(b.txs))
  }

  /** Serving a prefix of a block's transactions and then one more withdrawal. */
  lemma ServeOneMore(s: Store, b: Block, i: nat)
    requires i < |b.txs| && b.txs[i].Withdraw?
    ensures var s', key := ServeStore(s, b.(txs := b.txs[..i])), WriteKey(b.height);
      ServeStore(s, b.(txs := b.txs[..i + 1])) == s'[key := Add(Lookup(s', key), Returned(b.txs[i]))]
  {
    assert b.txs[..i + 1][..i] == b.txs[..i];
    RecordStoreAppend(s, b.height, Returns(b.txs[..i]), Returned(b.txs[i]));
  }

  /** The stakes that the response returns: the store is read after it was written. */
  function Due(s: Store, b: Block): seq<ReturnStakeTx> {
    Items(Lookup(ServeStore(s, b), ReadKey(b.height)))
  }

  function ReturnTransactions(rs: seq<ReturnStakeTx>, status: string): seq<Transaction> {
    seq(|rs|, i requires 0 <= i < |rs| => Transaction(rs[i].hash, Parsers.ReturnOps(rs[i].tx, Some(status))))
  }

  predicate ValidTx(x: BlockTx) {
    x.Withdraw? ==> x.tx.fee.tfuel.Some?
  }

  predicate ValidBlock(b: Block) {
    forall i :: 0 <= i < |b.txs| ==> ValidTx(b.txs[i])
  }

  /** A withdrawal gets an identifier derived from its hash, so that the later return can
      keep the hash itself. */
  function OwnTransaction(withdrawId: string -> string, x: BlockTx, status: string): Transaction
    requires ValidTx(x)
  {
    match x
    case Withdraw(hash, tx, _) => Transaction(withdrawId(hash), Parsers.WithdrawOps(tx, Some(status)))
    case Other(transaction) => transaction
  }

  /** A withdrawal is shown as its fee, under an identifier of its own; what else the block
      has is shown as it was parsed. */
  ghost predicate ShowsOwn(withdrawId: string -> string, x: BlockTx, status: string, t: Transaction)
    requires ValidTx(x)
  {
    match x
    case Withdraw(hash, tx, _) =>
      && t.hash == withdrawId(hash) && |t.ops| == 1 && Chained(t.ops, Some(status))
      && Says(t.ops[0], TxFee, tx.source.address, -tx.fee.tfuel.value, TFuel, None)
    case Other(transaction) => t == transaction
  }

  function OwnTransactions(withdrawId: string -> string, txs: seq<BlockTx>, status: string): seq<Transaction>
    requires forall i :: 0 <= i < |txs| ==> ValidTx(txs[i])
  {
    seq(|txs|, i requires 0 <= i < |txs| => OwnTransaction(withdrawId, txs[i], status))
  }

  lemma OwnShown(withdrawId: string -> string, txs: seq<BlockTx>, status: string)
    requires forall i :: 0 <= i < |txs| ==> ValidTx(txs[i])
    ensures var own := OwnTransactions(withdrawId, txs, status);
      |own| == |txs| && forall i :: 0 <= i < |txs| ==> ShowsOwn(withdrawId, txs[i], status, own[i])
  {
    forall i | 0 <= i < |txs|
      ensures ShowsOwn(withdrawId, txs[i], status, OwnTransactions(withdrawId, txs, status)[i])
    {
      if txs[i].Withdraw? {
        Parsers.WithdrawShown(txs[i].tx, Some(status));
      }
    }
  }

  /** The key-value store; Get fails exactly on absent keys.  The entries are the values as
      Get decodes them, so Put is what turns nil coins into zeros. */
  class KVStore {
    var entries: Store

    ghost predicate Valid()
      reads this
    {
      forall k :: k in entries ==> StoredAll(entries[k]) == entries[k]
    }

    constructor ()
      ensures entries == map[] && Valid()
    {
      entries := map[];
    }

    method Get(key: Key) returns (value: Option<seq<ReturnStakeTx>>)
      ensures value == Lookup(entries, key)
    {
      value := if key in entries then Some(entries[key]) else None;
    }

    method Put(key: Key, value: seq<ReturnStakeTx>)
      modifies this
      ensures entries == old(entries)[key := StoredAll(value)]
      ensures old(Valid()) ==> Valid()
    {
      entries := entries[key := StoredAll(value)];
    }
  }

  class BlockService {
    const db: KVStore
    const withdrawId: string -> string  // Keccak of "stake_withdraw_" and the hash

    constructor (db: KVStore, withdrawId: string -> string)
      ensures this.db == db && this.withdrawId == withdrawId
    {
      this.db := db;
      this.withdrawId := withdrawId;
    }

    /** The withdrawal branch of ParseTx: read the list, append unless known, write it back. */
    method ParseWithdrawal(x: BlockTx, height: uint64, status: string) returns (t: Transaction)
      requires x.Withdraw? && ValidTx(x) && db.Valid()
      modifies db
      ensures db.Valid()
      ensures var key := WriteKey(height);
        db.entries == old(db.entries)[key := Add(Lookup(old(db.entries), key), Returned(x))]
      ensures t == Transaction(withdrawId(x.hash), Parsers.WithdrawOps(x.tx, Some(status)))
    {
      var ops := Parsers.ParseWithdrawStakeTx(x.tx, Some(status));
      var returnStakeTx := Recorded(x);
      var heightBytes := Bytes(Plus(height, RETURN_LOCKING_PERIOD));
      var found := db.Get(heightBytes);
      var returnStakes;
      if found.Some? {
        returnStakes := found.value;
        var exists' := false;
        for i := 0 to |returnStakes|
          invariant exists' <==> returnStakeTx.hash in Hashes(returnStakes[..i])
        {
          if returnStakeTx.hash == returnStakes[i].hash {
            exists' := true;
          }
          assert forall r :: r in returnStakes[..i + 1] <==> r in returnStakes[..i] || r == returnStakes[i];
        }
        assert returnStakes[..|returnStakes|] == returnStakes;
        if !exists' {
          returnStakes := returnStakes + [returnStakeTx];
        }
      } else {
        returnStakes := [returnStakeTx];
      }
      assert returnStakes == Add(found, returnStakeTx);
      StoredAdd(found, returnStakeTx);
      db.Put(heightBytes, returnStakes);
      t := Transaction(withdrawId(x.hash), ops);
    }

    /** The loop over the block's own transactions. */
    method ParseTransactions(b: Block) returns (txs: seq<Transaction>)
      requires ValidBlock(b) && db.Valid()
      modifies db
      ensures db.Valid()
      ensures db.entries == ServeStore(old(db.entries), b)
      ensures txs == OwnTransactions(withdrawId, b.txs, b.status)
    {
      txs := [];
      ghost var s := db.entries;
      for i := 0 to |b.txs|
        invariant db.Valid()
        invariant db.entries == ServeStore(s, b.(txs := b.txs[..i]))
        invariant |txs| == i
        invariant forall j :: 0 <= j < i ==> txs[j] == OwnTransaction(withdrawId, b.txs[j], b.status)
      {
        var x := b.txs[i];
        var t;
        if x.Withdraw? {
          ServeOneMore(s, b, i);
          t := ParseWithdrawal(x, b.height, b.status);
        } else {
          t := x.transaction;
          assert b.txs[..i + 1][..i] == b.txs[..i];
        }
        txs := txs + [t];
      }
      assert b.(txs := b.txs[..|b.txs|]) == b;
    }

    /** The loop over the stakes that are due. */
    method AppendReturns(own: seq<Transaction>, due: seq<ReturnStakeTx>, status: string) returns (txs: seq<Transaction>)
      ensures txs == own + ReturnTransactions(due, status)
    {
      txs := own;
      for i := 0 to |due|
        invariant txs == own + ReturnTransactions(due[..i], status)
      {
        var ops := Parsers.ParseReturnStakeTx(due[i].tx, Some(status));
        txs := txs + [Transaction(due[i].hash, ops)];
      }
      assert due[..|due|] == due;
    }

    /** The Block endpoint: parse the block's transactions, recording its withdrawals, and
        append the stakes that are due at its height. */
    method Block(b: Block) returns (txs: seq<Transaction>)
      requires ValidBlock(b) && db.Valid()
      modifies db
      ensures db.Valid()
      ensures db.entries == ServeStore(old(db.entries), b)
      ensures txs == OwnTransactions(withdrawId, b.txs, b.status)
                     + ReturnTransactions(Due(old(db.entries), b), b.status)
      ensures forall i :: 0 <= i < |b.txs| ==> ShowsOwn(withdrawId, b.txs[i], b.status, txs[i])
    {
      OwnShown(withdrawId, b.txs, b.status);
      txs := ParseTransactions(b);
      var found := db.Get(Bytes(b.height));
      if found.Some? {
        txs := AppendReturns(txs, found.value, b.status);
      }
    }
  }
}
