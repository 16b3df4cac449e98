/** The stake service: seeding the store from the snapshot's stake pools, and finding the
    stake that a withdrawal takes out. */
module Snapshot {
  import opened Wrappers
  import opened Transactions
  import opened BigEndian
  import opened StakeStore
  import Conservation
  import Decimal

  datatype PoolKind = Vcp | Gcp | Eenp

  datatype Candidate = Candidate(holder: Address, stakes: seq<Stake>)

  /** The first block-hash pair of a pool answer. */
  datatype Pool = Pool(blockHash: string, candidates: seq<Candidate>)

  // ---------- What a pool seeds ----------

  function Prefix(kind: PoolKind): string {
    match kind
    case Vcp => "vcp"
    case Gcp => "gcp"
    case Eenp => "eenp"
  }

  function Stem(kind: PoolKind, blockHash: string): string {
    Prefix(kind) + "_stake_return_" + blockHash + "_"
  }

  function SeedHash(keccak: string -> string, kind: PoolKind, blockHash: string, i: nat): string {
    keccak(Stem(kind, blockHash) + Decimal.Print(i))
  }

  function SeedTx(kind: PoolKind, x: Stake): WithdrawStakeTx {
    var coins := if kind == Eenp then Coins(Some(0), Some(x.amount)) else Coins(Some(x.amount), Some(0));
    WithdrawStakeTx(Coins(None, None), TxInput(x.source, coins, 0, ""), TxOutput(x.holder, Coins(None, None)), 0)
  }

  datatype Entry = Entry(height: uint64, item: ReturnStakeTx)

  /** The withdrawn stakes of one candidate; the hash counts from zero in each candidate. */
  function StakeEntries(keccak: string -> string, kind: PoolKind, blockHash: string, stakes: seq<Stake>): seq<Entry> {
    if stakes == [] then [] else
      var i := |stakes| - 1;
      StakeEntries(keccak, kind, blockHash, stakes[..i]) +
      if stakes[i].withdrawn
      then [Entry(stakes[i].returnHeight, ReturnStakeTx(SeedHash(keccak, kind, blockHash, i), SeedTx(kind, stakes[i])))]
      else []
  }

  function CandidateEntries(keccak: string -> string, kind: PoolKind, blockHash: string, cs: seq<Candidate>)
    : seq<Entry>
  {
    if cs == [] then [] else
      CandidateEntries(keccak, kind, blockHash, cs[..|cs| - 1])
      + StakeEntries(keccak, kind, blockHash, cs[|cs| - 1].stakes)
  }

  function PoolEntries(keccak: string -> string, kind: PoolKind, pool: Pool): seq<Entry> {
    CandidateEntries(keccak, kind, pool.blockHash, pool.candidates)
  }

  /** The entries for one return height, in order. */
  function At(es: seq<Entry>, h: uint64): seq<ReturnStakeTx> {
    if es == [] then [] else
      At(es[..|es| - 1], h) + if es[|es| - 1].height == h then [es[|es| - 1].item] else []
  }

  lemma {:induction false} AtConcat(xs: seq<Entry>, ys: seq<Entry>, h: uint64)
    ensures At(xs + ys, h) == At(xs, h) + At(ys, h)
  {
    if ys == [] {
      assert xs + ys == xs;
    } else {
      assert (xs + ys)[..|xs + ys| - 1] == xs + ys[..|ys| - 1];
      AtConcat(xs, ys[..|ys| - 1], h);
    }
  }

  lemma AtAppend(es: seq<Entry>, e: Entry, h: uint64)
    ensures At(es + [e], h) == if e.height == h then At(es, h) + [e.item] else At(es, h)
  {
    assert (es + [e])[..|es|] == es;
  }

  /** The withdrawn stakes of a pool with a given return height, in pool order. */
  function DueStakes(stakes: seq<Stake>, h: uint64): seq<Stake> {
    if stakes == [] then [] else
      var x := stakes[|stakes| - 1];
      DueStakes(stakes[..|stakes| - 1], h) + if x.withdrawn && x.returnHeight == h then [x] else []
  }

  function AllStakes(cs: seq<Candidate>): seq<Stake> {
    if cs == [] then [] else AllStakes(cs[..|cs| - 1]) + cs[|cs| - 1].stakes
  }

  function Txs(rs: seq<ReturnStakeTx>): seq<WithdrawStakeTx> {
    seq(|rs|, i requires 0 <= i < |rs| => rs[i].tx)
  }

  function SeedTxs(kind: PoolKind, xs: seq<Stake>): seq<WithdrawStakeTx> {
    seq(|xs|, i requires 0 <= i < |xs| => SeedTx(kind, xs[i]))
  }

  lemma TxsConcat(kind: PoolKind, xs: seq<ReturnStakeTx>, ys: seq<ReturnStakeTx>, us: seq<Stake>, vs: seq<Stake>)
    ensures Txs(xs + ys) == Txs(xs) + Txs(ys)
    ensures SeedTxs(kind, us + vs) == SeedTxs(kind, us) + SeedTxs(kind, vs)
  {
  }

  /** A candidate's entries for a height, given those of its earlier stakes. */
  lemma AtNext(keccak: string -> string, kind: PoolKind, blockHash: string, stakes: seq<Stake>, h: uint64)
    requires stakes != []
    ensures var i := |stakes| - 1;
      var x, front := stakes[i], At(StakeEntries(keccak, kind, blockHash, stakes[..i]), h);
      At(StakeEntries(keccak, kind, blockHash, stakes), h)
        == if x.withdrawn && x.returnHeight == h
           then front + [ReturnStakeTx(SeedHash(keccak, kind, blockHash, i), SeedTx(kind, x))] else front
  {
    var i := |stakes| - 1;
    var es := StakeEntries(keccak, kind, blockHash, stakes[..i]);
    if stakes[i].withdrawn {
      var r := ReturnStakeTx(SeedHash(keccak, kind, blockHash, i), SeedTx(kind, stakes[i]));
      AtAppend(es, Entry(stakes[i].returnHeight, r), h);
    } else {
      assert es + [] == es;
    }
  }

  lemma TxsAppend(kind: PoolKind, rs: seq<ReturnStakeTx>, due: seq<Stake>, hash: string, x: Stake)
    requires Txs(rs) == SeedTxs(kind, due)
    ensures Txs(rs + [ReturnStakeTx(hash, SeedTx(kind, x))]) == SeedTxs(kind, due + [x])
  {
    var r := ReturnStakeTx(hash, SeedTx(kind, x));
    TxsConcat(kind, rs, [r], due, [x]);
    assert Txs([r]) == SeedTxs(kind, [x]);
  }

  lemma {:induction false} StakesOrdered(
    keccak: string -> string, kind: PoolKind, blockHash: string, stakes: seq<Stake>, h: uint64)
    ensures Txs(At(StakeEntries(keccak, kind, blockHash, stakes), h)) == SeedTxs(kind, DueStakes(stakes, h))
  {
    if stakes != [] {
      var i := |stakes| - 1;
      StakesOrdered(keccak, kind, blockHash, stakes[..i], h);
      AtNext(keccak, kind, blockHash, stakes, h);
      var rs, due := At(StakeEntries(keccak, kind, blockHash, stakes[..i]), h), DueStakes(stakes[..i], h);
      if stakes[i].withdrawn && stakes[i].returnHeight == h {
        TxsAppend(kind, rs, due, SeedHash(keccak, kind, blockHash, i), stakes[i]);
      } else {
        assert due + [] == due;
      }
    }
  }

  lemma {:induction false} DueStakesConcat(xs: seq<Stake>, ys: seq<Stake>, h: uint64)
    ensures DueStakes(xs + ys, h) == DueStakes(xs, h) + DueStakes(ys, h)
  {
    if ys == [] {
      assert xs + ys == xs;
    } else {
      assert (xs + ys)[..|xs + ys| - 1] == xs + ys[..|ys| - 1];
      DueStakesConcat(xs, ys[..|ys| - 1], h);
    }
  }

  /** A pool's entries for a height are exactly its withdrawn stakes with that return height,
      all of them and in pool order. */
  lemma {:induction false} PoolOrdered(
    keccak: string -> string, kind: PoolKind, blockHash: string, cs: seq<Candidate>, h: uint64)
    ensures Txs(At(CandidateEntries(keccak, kind, blockHash, cs), h)) == SeedTxs(kind, DueStakes(AllStakes(cs), h))
  {
    if cs != [] {
      var front, stakes := cs[..|cs| - 1], cs[|cs| - 1].stakes;
      PoolOrdered(keccak, kind, blockHash, front, h);
      StakesOrdered(keccak, kind, blockHash, stakes, h);
      AtConcat(CandidateEntries(keccak, kind, blockHash, front), StakeEntries(keccak, kind, blockHash, stakes), h);
      DueStakesConcat(AllStakes(front), stakes, h);
      TxsConcat(kind,
                At(CandidateEntries(keccak, kind, blockHash, front), h),
                At(StakeEntries(keccak, kind, blockHash, stakes), h),
                DueStakes(AllStakes(front), h), DueStakes(stakes, h));
    }
  }

  /** Seeded hashes under one block hash agree exactly when the pool and the position within
      the candidate do, so two candidates' stakes at one position always clash. */
  lemma SeedHashClashIff(keccak: string -> string, blockHash: string, kind: PoolKind, i: nat, kind': PoolKind, i': nat)
    requires forall x, y :: keccak(x) == keccak(y) ==> x == y
    ensures SeedHash(keccak, kind, blockHash, i) == SeedHash(keccak, kind', blockHash, i') <==> kind == kind' && i == i'
  {
    if SeedHash(keccak, kind, blockHash, i) == SeedHash(keccak, kind', blockHash, i') {
      var x, x' := Stem(kind, blockHash) + Decimal.Print(i), Stem(kind', blockHash) + Decimal.Print(i');
      assert x == x';
      assert x[0] == Prefix(kind)[0] && x'[0] == Prefix(kind')[0];
      assert kind == kind';
      assert x[|Stem(kind, blockHash)|..] == Decimal.Print(i) && x'[|Stem(kind, blockHash)|..] == Decimal.Print(i');
      Decimal.PrintInjective(i, i');
    }
  }

  // ---------- Grouping by return height ----------

  type Groups = map<uint64, seq<ReturnStakeTx>>

  function Found(g: Groups, h: uint64): seq<ReturnStakeTx> {
    if h in g then g[h] else []
  }

  ghost predicate NonEmpty(g: Groups) {
    forall h :: h in g ==> g[h] != []
  }

  /** What a height holds after a pool brought new entries for it: all of them are appended
      if appended lists are stored back, else only a first one is ever stored. */
  function Grouped(before: seq<ReturnStakeTx>, new': seq<ReturnStakeTx>, writeBack: bool): seq<ReturnStakeTx> {
    if writeBack then before + new'
    else if before == [] && new' != [] then [new'[0]]
    else before
  }

  ghost predicate GroupedBy(g0: Groups, g: Groups, es: seq<Entry>, writeBack: bool) {
    NonEmpty(g) && forall h :: Found(g, h) == Grouped(Found(g0, h), At(es, h), writeBack)
  }

  /** A height's list after one more entry for it. */
  function Extended(l: seq<ReturnStakeTx>, r: ReturnStakeTx, writeBack: bool): seq<ReturnStakeTx> {
    if l == [] || writeBack then l + [r] else l
  }

  /** One entry: `if list, ok := m[h]; ok { append, perhaps store back } else { m[h] = [entry] }`. */
  method AddEntry(g: Groups, e: Entry, writeBack: bool) returns (g': Groups)
    requires NonEmpty(g)
    ensures NonEmpty(g')
    ensures forall h :: Found(g', h) == if h == e.height then Extended(Found(g, h), e.item, writeBack) else Found(g, h)
  {
    g' := g;
    if e.height in g {
      var appended := g[e.height] + [e.item];
      if writeBack {
        g' := g[e.height := appended];
      }
    } else {
      g' := g[e.height := [e.item]];
    }
  }

  lemma GroupedAppend(before: seq<ReturnStakeTx>, new': seq<ReturnStakeTx>, r: ReturnStakeTx, writeBack: bool)
    ensures Grouped(before, new' + [r], writeBack) == Extended(Grouped(before, new', writeBack), r, writeBack)
  {
    assert before + (new' + [r]) == before + new' + [r];
  }

  lemma EntryGrouped(g0: Groups, g: Groups, es: seq<Entry>, g': Groups, e: Entry, writeBack: bool)
    requires GroupedBy(g0, g, es, writeBack) && NonEmpty(g')
    requires forall h :: Found(g', h) == if h == e.height then Extended(Found(g, h), e.item, writeBack) else Found(g, h)
    ensures GroupedBy(g0, g', es + [e], writeBack)
  {
    forall h
      ensures Found(g', h) == Grouped(Found(g0, h), At(es + [e], h), writeBack)
    {
      AtAppend(es, e, h);
      if h == e.height {
        GroupedAppend(Found(g0, h), At(es, h), e.item, writeBack);
      }
    }
  }

  /** The inner loop, over one candidate's stakes. */
  method GroupStakes(
    keccak: string -> string, kind: PoolKind, blockHash: string, stakes: seq<Stake>,
    ghost g0: Groups, g: Groups, ghost es: seq<Entry>, writeBack: bool)
    returns (g': Groups)
    requires GroupedBy(g0, g, es, writeBack)
    ensures GroupedBy(g0, g', es + StakeEntries(keccak, kind, blockHash, stakes), writeBack)
  {
    g' := g;
    ghost var done := es;
    for i := 0 to |stakes|
      invariant done == es + StakeEntries(keccak, kind, blockHash, stakes[..i])
      invariant GroupedBy(g0, g', done, writeBack)
    {
      var x := stakes[i];
      assert stakes[..i + 1][..i] == stakes[..i];
      if x.withdrawn {
        var hash := SeedHash(keccak, kind, blockHash, i);
        var e := Entry(x.returnHeight, ReturnStakeTx(hash, SeedTx(kind, x)));
        ghost var before := g';
        g' := AddEntry(g', e, writeBack);
        EntryGrouped(g0, before, done, g', e, writeBack);
        done := done + [e];
      }
    }
    assert stakes[..|stakes|] == stakes;
  }

  lemma GroupedNothing(g: Groups, writeBack: bool)
    requires NonEmpty(g)
    ensures GroupedBy(g, g, [], writeBack)
  {
    assert forall h :: Found(g, h) + [] == Found(g, h);
  }

  lemma CandidateStep(keccak: string -> string, kind: PoolKind, pool: Pool, c: nat)
    requires c < |pool.candidates|
    ensures CandidateEntries(keccak, kind, pool.blockHash, pool.candidates[..c + 1])
         == CandidateEntries(keccak, kind, pool.blockHash, pool.candidates[..c])
            + StakeEntries(keccak, kind, pool.blockHash, pool.candidates[c].stakes)
  {
    assert pool.candidates[..c + 1][..c] == pool.candidates[..c];
  }

  /** The outer loop, over a pool's candidates.  The loop for validators stores appended
      lists back; those for guardians and elite edge nodes do not. */
  method GroupPool(keccak: string -> string, kind: PoolKind, pool: Pool, g: Groups, writeBack: bool)
    returns (g': Groups)
    requires NonEmpty(g)
    ensures GroupedBy(g, g', PoolEntries(keccak, kind, pool), writeBack)
  {
    g' := g;
    GroupedNothing(g, writeBack);
    for c := 0 to |pool.candidates|
      invariant GroupedBy(g, g', CandidateEntries(keccak, kind, pool.blockHash, pool.candidates[..c]), writeBack)
    {
      ghost var es := CandidateEntries(keccak, kind, pool.blockHash, pool.candidates[..c]);
      g' := GroupStakes(keccak, kind, pool.blockHash, pool.candidates[c].stakes, g, g', es, writeBack);
      CandidateStep(keccak, kind, pool, c);
    }
    assert pool.candidates[..|pool.candidates|] == pool.candidates;
  }

  // ---------- The whole snapshot ----------

  /** Nothing, if the node reports no pool. */
  function AnswerEntries(keccak: string -> string, kind: PoolKind, pool: Option<Pool>): seq<Entry> {
    if pool.Some? then PoolEntries(keccak, kind, pool.value) else []
  }

  /** The three pools' entries for one height. */
  datatype Answers = Answers(vcp: Option<Pool>, gcp: Option<Pool>, eenp: Option<Pool>)

  /** What the code stores for a return height. */
  function AsCoded(keccak: string -> string, a: Answers, h: uint64): seq<ReturnStakeTx> {
    var v := Grouped([], At(AnswerEntries(keccak, Vcp, a.vcp), h), true);
    var vg := Grouped(v, At(AnswerEntries(keccak, Gcp, a.gcp), h), false);
    Grouped(vg, At(AnswerEntries(keccak, Eenp, a.eenp), h), false)
  }

  /** What a snapshot without loss would store. */
  function AllEntries(keccak: string -> string, a: Answers, h: uint64): seq<ReturnStakeTx> {
    At(AnswerEntries(keccak, Vcp, a.vcp), h)
    + At(AnswerEntries(keccak, Gcp, a.gcp), h)
    + At(AnswerEntries(keccak, Eenp, a.eenp), h)
  }

  /** All validator entries are kept; without any, only the first guardian entry; without
      that, only the first elite edge node entry.  That is everything exactly when the other
      two pools bring nothing, or one entry where the validators bring none. */
  lemma KeptEntries(v: seq<ReturnStakeTx>, g: seq<ReturnStakeTx>, e: seq<ReturnStakeTx>)
    ensures Grouped(Grouped(Grouped([], v, true), g, false), e, false)
         == if v != [] then v else if g != [] then [g[0]] else if e != [] then [e[0]] else []
    ensures Grouped(Grouped(Grouped([], v, true), g, false), e, false) == v + g + e
       <==> |g| + |e| == 0 || (|g| + |e| == 1 && v == [])
  {
    assert [] + v == v;
    assert |v + g + e| == |v| + |g| + |e|;
  }

  /** Entries for a height from the two pools whose appends are not stored back. */
  function Others(keccak: string -> string, a: Answers, h: uint64): nat {
    |At(AnswerEntries(keccak, Gcp, a.gcp), h)| + |At(AnswerEntries(keccak, Eenp, a.eenp), h)|
  }

  /** The snapshot loses nothing exactly when no height with validator entries has any
      other, and no other height has more than one. */
  lemma SnapshotLosslessIff(keccak: string -> string, a: Answers)
    ensures (forall h :: AsCoded(keccak, a, h) == AllEntries(keccak, a, h))
       <==> (forall h :: Others(keccak, a, h) == 0
                      || (Others(keccak, a, h) == 1 && At(AnswerEntries(keccak, Vcp, a.vcp), h) == []))
  {
    forall h: uint64
      ensures AsCoded(keccak, a, h) == AllEntries(keccak, a, h) <==>
        Others(keccak, a, h) == 0 || (Others(keccak, a, h) == 1 && At(AnswerEntries(keccak, Vcp, a.vcp), h) == [])
    {
      KeptEntries(At(AnswerEntries(keccak, Vcp, a.vcp), h), At(AnswerEntries(keccak, Gcp, a.gcp), h),
                  At(AnswerEntries(keccak, Eenp, a.eenp), h));
    }
  }

  /** The key a group is stored under: one above the recorded return height. */
  function SeedKey(h: uint64): Key {
    Bytes(Plus(h, 1))
  }

  lemma SeedKeysApart(h: uint64, h': uint64)
    ensures SeedKey(h) == SeedKey(h') <==> h == h'
  {
    KeysInjective(Plus(h, 1), Plus(h', 1));
  }

  /** s' is s with every non-empty list stored under its height's key. */
  ghost predicate Seeded(s: Store, s': Store, lists: uint64 -> seq<ReturnStakeTx>) {
    && (forall h :: Lookup(s', SeedKey(h)) == if lists(h) != [] then Some(lists(h)) else Lookup(s, SeedKey(h)))
    && (forall k :: (forall h :: SeedKey(h) != k) ==> Lookup(s', k) == Lookup(s, k))
  }

  /** now is s with the groups stored, except those still left. */
  ghost predicate StoredButFor(s: Store, now: Store, g: Groups, left: set<uint64>) {
    && (forall h: uint64 ::
          Lookup(now, SeedKey(h)) == if h in g && h !in left then Some(StoredAll(g[h])) else Lookup(s, SeedKey(h)))
    && (forall k :: (forall h: uint64 :: SeedKey(h) != k) ==> Lookup(now, k) == Lookup(s, k))
  }

  lemma StoredStep(s: Store, now: Store, g: Groups, left: set<uint64>, height: uint64)
    requires StoredButFor(s, now, g, left) && height in g
    ensures StoredButFor(s, now[SeedKey(height) := StoredAll(g[height])], g, left - {height})
  {
    var next := now[SeedKey(height) := StoredAll(g[height])];
    forall h: uint64
      ensures Lookup(next, SeedKey(h))
           == if h in g && h !in left - {height} then Some(StoredAll(g[h])) else Lookup(s, SeedKey(h))
    {
      SeedKeysApart(height, h);
      assert Lookup(now, SeedKey(h)) == if h in g && h !in left then Some(StoredAll(g[h])) else Lookup(s, SeedKey(h));
    }
  }

  lemma StoredIsSeeded(s: Store, now: Store, g: Groups)
    requires NonEmpty(g) && StoredButFor(s, now, g, {})
    ensures Seeded(s, now, (h: uint64) => StoredAll(Found(g, h)))
  {
    var lists := (h: uint64) => StoredAll(Found(g, h));
    forall h: uint64
      ensures Lookup(now, SeedKey(h)) == if lists(h) != [] then Some(lists(h)) else Lookup(s, SeedKey(h))
    {
      assert h in g ==> Found(g, h) != [] && |lists(h)| == |Found(g, h)|;
    }
  }

  class StakeService {
    const db: KVStore
    const keccak: string -> string

    constructor (db: KVStore, keccak: string -> string)
      ensures this.db == db && this.keccak == keccak
    {
      this.db := db;
      this.keccak := keccak;
    }

    /** Stores the groups in whatever order the map is traversed. */
    method StoreGroups(g: Groups)
      requires NonEmpty(g) && db.Valid()
      modifies db
      ensures db.Valid()
      ensures Seeded(old(db.entries), db.entries, (h: uint64) => StoredAll(Found(g, h)))
    {
      var left := g.Keys;
      ghost var s := db.entries;
      while left != {}
        invariant left <= g.Keys
        invariant db.Valid()
        invariant StoredButFor(s, db.entries, g, left)
        decreases |left|
      {
        var height :| height in left;
        StoredStep(s, db.entries, g, left, height);
        db.Put(SeedKey(height), g[height]);
        left := left - {height};
      }
      StoredIsSeeded(s, db.entries, g);
    }

    /** A failing status answer is silently ignored; a failing pool answer is returned before
        anything is stored. */
    method GenStakesForSnapshot(
      status: Result<uint64, string>,
      vcp: Result<Option<Pool>, string>, gcp: Result<Option<Pool>, string>, eenp: Result<Option<Pool>, string>)
      returns (err: Option<string>)
      requires db.Valid()
      modifies db
      ensures db.Valid()
      ensures status.Failure? ==> err == None
      ensures status.Success? && vcp.Failure? ==> err == Some(vcp.error)
      ensures status.Success? && vcp.Success? && gcp.Failure? ==> err == Some(gcp.error)
      ensures status.Success? && vcp.Success? && gcp.Success? && eenp.Failure? ==> err == Some(eenp.error)
      ensures vcp.Success? && gcp.Success? && eenp.Success? ==> err == None
      ensures if status.Success? && err == None
              then Seeded(old(db.entries), db.entries,
                          (h: uint64) => StoredAll(AsCoded(keccak, Answers(vcp.value, gcp.value, eenp.value), h)))
              else db.entries == old(db.entries)
    {
      var groups: Groups := map[];
      if status.Failure? {
        return None;
      }
      if vcp.Failure? {
        return Some(vcp.error);
      }
      if vcp.value.Some? {
        groups := GroupPool(keccak, Vcp, vcp.value.value, groups, true);
      }
      if gcp.Failure? {
        return Some(gcp.error);
      }
      if gcp.value.Some? {
        groups := GroupPool(keccak, Gcp, gcp.value.value, groups, false);
      }
      if eenp.Failure? {
        return Some(eenp.error);
      }
      if eenp.value.Some? {
        groups := GroupPool(keccak, Eenp, eenp.value.value, groups, false);
      }
      StoreGroups(groups);
      err := None;
    }
  }

  /** Seeding an empty store from stakes that return within one locking period of the
      snapshot height gives what conservation assumes of the seed. */
  lemma SeedIsBounded(s: Store, lists: uint64 -> seq<ReturnStakeTx>, lo: nat)
    requires Seeded(map[], s, lists)
    requires forall h: uint64 :: lists(h) != [] ==> h + 1 <= lo + RETURN_LOCKING_PERIOD
    ensures Conservation.SeedBounded(s, lo)
  {
    forall k | k in s
      ensures Value(k) <= lo + RETURN_LOCKING_PERIOD
    {
      assert Lookup(s, k) != None;
      var h: uint64 :| SeedKey(h) == k;
      assert Value(k) == Plus(h, 1);
    }
  }

  // ---------- Finding a withdrawal's stake ----------

  /** Stake i of candidate c has the wanted source, under the wanted holder. */
  ghost predicate Hit(cs: seq<Candidate>, holder: Address, source: Address, c: int, i: int) {
    0 <= c < |cs| && cs[c].holder == holder && 0 <= i < |cs[c].stakes| && cs[c].stakes[i].source == source
  }

  /** The nested search of GetStakeForTx in the validator and guardian pools: the first hit
      in pool order, withdrawn or not, and nothing only if there is none. */
  method FindStake(cs: seq<Candidate>, holder: Address, source: Address) returns (r: Option<Stake>)
    ensures r.None? <==> forall c, i :: !Hit(cs, holder, source, c, i)
    ensures r.Some? ==> exists c, i ::
      && Hit(cs, holder, source, c, i) && r.value == cs[c].stakes[i]
      && forall c', i' :: Hit(cs, holder, source, c', i') ==> c < c' || (c == c' && i <= i')
  {
    for c := 0 to |cs|
      invariant forall c', i' :: Hit(cs, holder, source, c', i') ==> c <= c'
    {
      if cs[c].holder == holder {
        for i := 0 to |cs[c].stakes|
          invariant forall c', i' :: Hit(cs, holder, source, c', i') ==> c < c' || (c == c' && i <= i')
        {
          if cs[c].stakes[i].source == source {
            assert Hit(cs, holder, source, c, i);
            return Some(cs[c].stakes[i]);
          }
        }
      }
    }
    r := None;
  }
}
