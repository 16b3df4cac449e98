/** Which records the snapshot stores: which stake each of them stands for, and under what
    identifier it will be returned. */
module Records {
  import opened Wrappers
  import opened Transactions
  import opened BigEndian
  import opened StakeStore
  import opened Snapshot
  import Decimal

  /** A stake's place in a pool: candidate c, stake i of that candidate. */
  datatype Position = Position(c: nat, i: nat)

  ghost predicate Before(p: Position, q: Position) {
    p.c < q.c || (p.c == q.c && p.i < q.i)
  }

  /** The stake there is withdrawn and returns at height h. */
  ghost predicate DueStake(cs: seq<Candidate>, h: uint64, p: Position) {
    && p.c < |cs| && p.i < |cs[p.c].stakes|
    && cs[p.c].stakes[p.i].withdrawn && cs[p.c].stakes[p.i].returnHeight == h
  }

  /** The places of the stakes that return at height h, all of them, in pool order. */
  ghost predicate DueStakesAt(cs: seq<Candidate>, h: uint64, ps: seq<Position>) {
    && (forall e :: 0 <= e < |ps| ==> DueStake(cs, h, ps[e]))
    && (forall e, e' :: 0 <= e < e' < |ps| ==> Before(ps[e], ps[e']))
    && forall p :: DueStake(cs, h, p) ==> p in ps
  }

  /** The record of a stake: its identifier hashes the pool's prefix, the block hash and the
      position within the candidate, and its coins are Theta but for elite edge nodes. */
  ghost predicate RecordOf(
    keccak: string -> string, kind: PoolKind, blockHash: string, x: Stake, i: nat, r: ReturnStakeTx)
  {
    var prefix := match kind case Vcp => "vcp" case Gcp => "gcp" case Eenp => "eenp";
    && r.hash == keccak(prefix + "_stake_return_" + blockHash + "_" + Decimal.Print(i))
    && r.tx.source.address == x.source && r.tx.holder.address == x.holder
    && r.tx.source.coins == if kind == Eenp then Coins(Some(0), Some(x.amount)) else Coins(Some(x.amount), Some(0))
  }

  lemma EntryRecord(keccak: string -> string, kind: PoolKind, blockHash: string, x: Stake, i: nat)
    ensures var r := ReturnStakeTx(SeedHash(keccak, kind, blockHash, i), SeedTx(kind, x));
      RecordOf(keccak, kind, blockHash, x, i, r)
  {
    var prefix := Prefix(kind);
    assert prefix + "_stake_return_" + blockHash + "_" + Decimal.Print(i)
        == Stem(kind, blockHash) + Decimal.Print(i);
  }

  /** A list of records stands for the stakes at the given positions of one candidate. */
  ghost predicate StandFor(
    keccak: string -> string, kind: PoolKind, blockHash: string, stakes: seq<Stake>,
    rs: seq<ReturnStakeTx>, ks: seq<nat>)
  {
    |rs| == |ks| && forall e :: 0 <= e < |ks| ==>
      ks[e] < |stakes| && RecordOf(keccak, kind, blockHash, stakes[ks[e]], ks[e], rs[e])
  }

  ghost predicate DueIndex(stakes: seq<Stake>, h: uint64, k: nat) {
    k < |stakes| && stakes[k].withdrawn && stakes[k].returnHeight == h
  }

  ghost predicate DueIndexes(stakes: seq<Stake>, h: uint64, ks: seq<nat>) {
    && (forall e :: 0 <= e < |ks| ==> DueIndex(stakes, h, ks[e]))
    && (forall e, e' :: 0 <= e < e' < |ks| ==> ks[e] < ks[e'])
    && forall k: nat :: DueIndex(stakes, h, k) ==> k in ks
  }

  lemma DueIndexFront(stakes: seq<Stake>, h: uint64, k: nat)
    requires stakes != [] && k < |stakes| - 1
    ensures DueIndex(stakes, h, k) <==> DueIndex(stakes[..|stakes| - 1], h, k)
  {
  }

  lemma IndexesKept(stakes: seq<Stake>, h: uint64, front: seq<nat>)
    requires stakes != [] && DueIndexes(stakes[..|stakes| - 1], h, front)
    ensures forall e :: 0 <= e < |front| ==> front[e] < |stakes| - 1 && DueIndex(stakes, h, front[e])
    ensures forall k: nat :: k < |stakes| - 1 && DueIndex(stakes, h, k) ==> k in front
  {
    forall e | 0 <= e < |front|
      ensures front[e] < |stakes| - 1 && DueIndex(stakes, h, front[e])
    {
      DueIndexFront(stakes, h, front[e]);
    }
    forall k: nat | k < |stakes| - 1 && DueIndex(stakes, h, k)
      ensures k in front
    {
      DueIndexFront(stakes, h, k);
    }
  }

  lemma IndexesAppend(stakes: seq<Stake>, h: uint64, front: seq<nat>, n: nat)
    requires |stakes| == n + 1 && DueIndex(stakes, h, n)
    requires forall e :: 0 <= e < |front| ==> front[e] < n && DueIndex(stakes, h, front[e])
    requires forall e, e' :: 0 <= e < e' < |front| ==> front[e] < front[e']
    requires forall k: nat :: k < n && DueIndex(stakes, h, k) ==> k in front
    ensures DueIndexes(stakes, h, front + [n])
  {
    var ks := front + [n];
    assert ks[|front|] == n;
    forall k: nat | DueIndex(stakes, h, k)
      ensures k in ks
    {
      assert k in front || k == n;
    }
  }

  lemma IndexesNext(stakes: seq<Stake>, h: uint64, front: seq<nat>)
    requires stakes != [] && DueIndexes(stakes[..|stakes| - 1], h, front)
    ensures var n := |stakes| - 1;
      DueIndexes(stakes, h, if DueIndex(stakes, h, n) then front + [n] else front)
  {
    IndexesKept(stakes, h, front);
    if DueIndex(stakes, h, |stakes| - 1) {
      IndexesAppend(stakes, h, front, |stakes| - 1);
    }
  }

  lemma StandMore(
    keccak: string -> string, kind: PoolKind, blockHash: string, stakes: seq<Stake>, n: nat,
    rs: seq<ReturnStakeTx>, ks: seq<nat>)
    requires n <= |stakes| && StandFor(keccak, kind, blockHash, stakes[..n], rs, ks)
    ensures StandFor(keccak, kind, blockHash, stakes, rs, ks)
  {
    forall e | 0 <= e < |ks|
      ensures ks[e] < |stakes| && RecordOf(keccak, kind, blockHash, stakes[ks[e]], ks[e], rs[e])
    {
      assert stakes[..n][ks[e]] == stakes[ks[e]];
    }
  }

  lemma StandAppend(
    keccak: string -> string, kind: PoolKind, blockHash: string, stakes: seq<Stake>,
    rs: seq<ReturnStakeTx>, ks: seq<nat>, r: ReturnStakeTx, k: nat)
    requires StandFor(keccak, kind, blockHash, stakes, rs, ks)
    requires k < |stakes| && RecordOf(keccak, kind, blockHash, stakes[k], k, r)
    ensures StandFor(keccak, kind, blockHash, stakes, rs + [r], ks + [k])
  {
  }

  lemma StandNext(
    keccak: string -> string, kind: PoolKind, blockHash: string, stakes: seq<Stake>, h: uint64,
    before: seq<ReturnStakeTx>, ks: seq<nat>)
    requires stakes != [] && before == At(StakeEntries(keccak, kind, blockHash, stakes[..|stakes| - 1]), h)
    requires StandFor(keccak, kind, blockHash, stakes[..|stakes| - 1], before, ks)
    ensures var i := |stakes| - 1;
      StandFor(keccak, kind, blockHash, stakes, At(StakeEntries(keccak, kind, blockHash, stakes), h),
               if DueIndex(stakes, h, i) then ks + [i] else ks)
  {
    var i := |stakes| - 1;
    AtNext(keccak, kind, blockHash, stakes, h);
    StandMore(keccak, kind, blockHash, stakes, i, before, ks);
    if DueIndex(stakes, h, i) {
      var r := ReturnStakeTx(SeedHash(keccak, kind, blockHash, i), SeedTx(kind, stakes[i]));
      EntryRecord(keccak, kind, blockHash, stakes[i], i);
      StandAppend(keccak, kind, blockHash, stakes, before, ks, r, i);
    }
  }

  lemma {:induction false} CandidateRecords(
    keccak: string -> string, kind: PoolKind, blockHash: string, stakes: seq<Stake>, h: uint64) returns (ks: seq<nat>)
    ensures DueIndexes(stakes, h, ks)
    ensures StandFor(keccak, kind, blockHash, stakes, At(StakeEntries(keccak, kind, blockHash, stakes), h), ks)
    decreases |stakes|
  {
    if stakes == [] {
      ks := [];
    } else {
      var i := |stakes| - 1;
      var front := CandidateRecords(keccak, kind, blockHash, stakes[..i], h);
      IndexesNext(stakes, h, front);
      var before := At(StakeEntries(keccak, kind, blockHash, stakes[..i]), h);
      StandNext(keccak, kind, blockHash, stakes, h, before, front);
      ks := if DueIndex(stakes, h, i) then front + [i] else front;
    }
  }

  /** The records stand for the stakes at the given positions of a pool. */
  ghost predicate PoolStandFor(
    keccak: string -> string, kind: PoolKind, blockHash: string, cs: seq<Candidate>,
    rs: seq<ReturnStakeTx>, ps: seq<Position>)
  {
    |rs| == |ps| && forall e :: 0 <= e < |ps| ==>
      && ps[e].c < |cs| && ps[e].i < |cs[ps[e].c].stakes|
      && RecordOf(keccak, kind, blockHash, cs[ps[e].c].stakes[ps[e].i], ps[e].i, rs[e])
  }

  function Placed(c: nat, ks: seq<nat>): (ps: seq<Position>)
    ensures |ps| == |ks| && forall e :: 0 <= e < |ks| ==> ps[e] == Position(c, ks[e])
  {
    seq(|ks|, e requires 0 <= e < |ks| => Position(c, ks[e]))
  }

  lemma PositionsNext(cs: seq<Candidate>, h: uint64, front: seq<Position>, ks: seq<nat>)
    requires cs != [] && DueStakesAt(cs[..|cs| - 1], h, front) && DueIndexes(cs[|cs| - 1].stakes, h, ks)
    ensures DueStakesAt(cs, h, front + Placed(|cs| - 1, ks))
  {
    var n := |cs| - 1;
    var last := Placed(n, ks);
    var ps := front + last;
    forall e | 0 <= e < |ps|
      ensures DueStake(cs, h, ps[e])
    {
      if e < |front| {
        assert DueStake(cs[..n], h, front[e]);
      } else {
        assert ps[e] == last[e - |front|];
      }
    }
    forall p | DueStake(cs, h, p)
      ensures p in ps
    {
      if p.c < n {
        assert DueStake(cs[..n], h, p);
      } else {
        assert DueIndex(cs[n].stakes, h, p.i);
        var e :| 0 <= e < |ks| && ks[e] == p.i;
        assert ps[|front| + e] == p;
      }
    }
    forall e, e' | 0 <= e < e' < |ps|
      ensures Before(ps[e], ps[e'])
    {
      if e < |front| {
        assert DueStake(cs[..n], h, front[e]);
        if e' >= |front| {
          assert ps[e'] == last[e' - |front|];
        }
      } else {
        assert ps[e] == last[e - |front|] && ps[e'] == last[e' - |front|];
      }
    }
  }

  lemma StandForNext(
    keccak: string -> string, kind: PoolKind, blockHash: string, cs: seq<Candidate>,
    rs: seq<ReturnStakeTx>, front: seq<Position>, rs': seq<ReturnStakeTx>, ks: seq<nat>)
    requires cs != [] && PoolStandFor(keccak, kind, blockHash, cs[..|cs| - 1], rs, front)
    requires StandFor(keccak, kind, blockHash, cs[|cs| - 1].stakes, rs', ks)
    ensures PoolStandFor(keccak, kind, blockHash, cs, rs + rs', front + Placed(|cs| - 1, ks))
  {
    var last := Placed(|cs| - 1, ks);
    var ps := front + last;
    forall e | 0 <= e < |ps|
      ensures ps[e].c < |cs| && ps[e].i < |cs[ps[e].c].stakes|
      ensures RecordOf(keccak, kind, blockHash, cs[ps[e].c].stakes[ps[e].i], ps[e].i, (rs + rs')[e])
    {
      if e < |front| {
        assert ps[e] == front[e] && cs[..|cs| - 1][ps[e].c] == cs[ps[e].c];
      } else {
        assert ps[e] == last[e - |front|];
      }
    }
  }

  /** A pool's records for a height are those of its stakes that return there, all of them
      and in pool order, each under the identifier of its own position. */
  lemma {:induction false} PoolRecords(
    keccak: string -> string, kind: PoolKind, blockHash: string, cs: seq<Candidate>, h: uint64)
    returns (ps: seq<Position>)
    ensures DueStakesAt(cs, h, ps)
    ensures PoolStandFor(keccak, kind, blockHash, cs, At(CandidateEntries(keccak, kind, blockHash, cs), h), ps)
    decreases |cs|
  {
    if cs == [] {
      ps := [];
    } else {
      var n := |cs| - 1;
      var front := PoolRecords(keccak, kind, blockHash, cs[..n], h);
      var ks := CandidateRecords(keccak, kind, blockHash, cs[n].stakes, h);
      var es := CandidateEntries(keccak, kind, blockHash, cs[..n]);
      var es' := StakeEntries(keccak, kind, blockHash, cs[n].stakes);
      AtConcat(es, es', h);
      PositionsNext(cs, h, front, ks);
      StandForNext(keccak, kind, blockHash, cs, At(es, h), front, At(es', h), ks);
      ps := front + Placed(n, ks);
    }
  }

  /** Two records of one pool share an identifier exactly when their stakes are at the same
      position of their candidates. */
  lemma PoolClashIff(
    keccak: string -> string, kind: PoolKind, blockHash: string, cs: seq<Candidate>,
    rs: seq<ReturnStakeTx>, ps: seq<Position>, e: nat, e': nat)
    requires forall x, y :: keccak(x) == keccak(y) ==> x == y
    requires PoolStandFor(keccak, kind, blockHash, cs, rs, ps) && e < |rs| && e' < |rs|
    ensures rs[e].hash == rs[e'].hash <==> ps[e].i == ps[e'].i
  {
    EntryRecord(keccak, kind, blockHash, cs[ps[e].c].stakes[ps[e].i], ps[e].i);
    EntryRecord(keccak, kind, blockHash, cs[ps[e'].c].stakes[ps[e'].i], ps[e'].i);
    SeedHashClashIff(keccak, blockHash, kind, ps[e].i, kind, ps[e'].i);
  }

  // ---------- The stored lists ----------

  function Candidates(pool: Option<Pool>): seq<Candidate> {
    if pool.Some? then pool.value.candidates else []
  }

  function PoolOf(a: Answers, kind: PoolKind): Option<Pool> {
    match kind case Vcp => a.vcp case Gcp => a.gcp case Eenp => a.eenp
  }

  ghost predicate NoneDue(pool: Option<Pool>, h: uint64) {
    forall p :: !DueStake(Candidates(pool), h, p)
  }

  lemma AnswerRecords(keccak: string -> string, kind: PoolKind, pool: Option<Pool>, h: uint64)
    returns (ps: seq<Position>)
    ensures DueStakesAt(Candidates(pool), h, ps) && (ps == [] <==> NoneDue(pool, h))
    ensures |At(AnswerEntries(keccak, kind, pool), h)| == |ps|
    ensures pool.Some? ==> PoolStandFor(keccak, kind, pool.value.blockHash, pool.value.candidates,
                                        At(AnswerEntries(keccak, kind, pool), h), ps)
  {
    if pool.Some? {
      ps := PoolRecords(keccak, kind, pool.value.blockHash, pool.value.candidates, h);
    } else {
      ps := [];
    }
    assert ps != [] ==> DueStake(Candidates(pool), h, ps[0]);
  }

  /** The list stands for the first of the given stakes of the pool, and for no others. */
  ghost predicate StoredFrom(
    keccak: string -> string, kind: PoolKind, pool: Option<Pool>, h: uint64, l: seq<ReturnStakeTx>, ps: seq<Position>)
  {
    && pool.Some? && DueStakesAt(pool.value.candidates, h, ps) && |l| <= |ps|
    && PoolStandFor(keccak, kind, pool.value.blockHash, pool.value.candidates, l, ps[..|l|])
  }

  lemma StoredRecordOf(
    keccak: string -> string, kind: PoolKind, blockHash: string, x: Stake, i: nat, r: ReturnStakeTx)
    requires RecordOf(keccak, kind, blockHash, x, i, r)
    ensures RecordOf(keccak, kind, blockHash, x, i, Stored(r))
  {
  }

  lemma StoredStandFor(
    keccak: string -> string, kind: PoolKind, blockHash: string, cs: seq<Candidate>,
    rs: seq<ReturnStakeTx>, ps: seq<Position>, n: nat)
    requires PoolStandFor(keccak, kind, blockHash, cs, rs, ps) && n <= |rs|
    ensures PoolStandFor(keccak, kind, blockHash, cs, StoredAll(rs[..n]), ps[..n])
  {
    forall e | 0 <= e < n
      ensures RecordOf(keccak, kind, blockHash, cs[ps[e].c].stakes[ps[e].i], ps[e].i, StoredAll(rs[..n])[e])
    {
      StoredRecordOf(keccak, kind, blockHash, cs[ps[e].c].stakes[ps[e].i], ps[e].i, rs[e]);
    }
  }

  /** The first n of a pool's records, as they are stored. */
  lemma KeptFrom(
    keccak: string -> string, kind: PoolKind, pool: Option<Pool>, h: uint64, rs: seq<ReturnStakeTx>, ps: seq<Position>,
    n: nat)
    requires rs == At(AnswerEntries(keccak, kind, pool), h) && DueStakesAt(Candidates(pool), h, ps) && n <= |rs|
    requires pool.Some? ==>
      PoolStandFor(keccak, kind, pool.value.blockHash, pool.value.candidates, rs, ps)
    requires rs != []
    ensures StoredFrom(keccak, kind, pool, h, StoredAll(rs[..n]), ps)
  {
    assert pool.Some?;
    StoredStandFor(keccak, kind, pool.value.blockHash, pool.value.candidates, rs, ps, n);
  }

  /** The pool that a height's list comes from: the first with a stake that returns there. */
  ghost predicate Source(a: Answers, h: uint64, kind: PoolKind) {
    && !NoneDue(PoolOf(a, kind), h)
    && (kind != Vcp ==> NoneDue(a.vcp, h))
    && (kind == Eenp ==> NoneDue(a.gcp, h))
  }

  /** The stored list stands for all of that pool's stakes that return there if they are the
      validators', else for the first. */
  ghost predicate StoredAs(keccak: string -> string, a: Answers, h: uint64, kind: PoolKind, ps: seq<Position>) {
    && Source(a, h, kind)
    && StoredFrom(keccak, kind, PoolOf(a, kind), h, StoredAll(AsCoded(keccak, a, h)), ps)
    && |AsCoded(keccak, a, h)| == if kind == Vcp then |ps| else 1
  }

  lemma NoneDueIff(keccak: string -> string, kind: PoolKind, pool: Option<Pool>, h: uint64)
    ensures At(AnswerEntries(keccak, kind, pool), h) == [] <==> NoneDue(pool, h)
  {
    var ps := AnswerRecords(keccak, kind, pool, h);
  }

  lemma NothingStored(keccak: string -> string, a: Answers, h: uint64)
    ensures AsCoded(keccak, a, h) == [] <==> NoneDue(a.vcp, h) && NoneDue(a.gcp, h) && NoneDue(a.eenp, h)
  {
    KeptEntries(At(AnswerEntries(keccak, Vcp, a.vcp), h), At(AnswerEntries(keccak, Gcp, a.gcp), h),
                At(AnswerEntries(keccak, Eenp, a.eenp), h));
    NoneDueIff(keccak, Vcp, a.vcp, h);
    NoneDueIff(keccak, Gcp, a.gcp, h);
    NoneDueIff(keccak, Eenp, a.eenp, h);
  }

  lemma AsCodedFrom(keccak: string -> string, a: Answers, h: uint64, kind: PoolKind)
    requires Source(a, h, kind)
    ensures var rs := At(AnswerEntries(keccak, kind, PoolOf(a, kind)), h);
      rs != [] && AsCoded(keccak, a, h) == rs[..if kind == Vcp then |rs| else 1]
  {
    var rs := At(AnswerEntries(keccak, kind, PoolOf(a, kind)), h);
    KeptEntries(At(AnswerEntries(keccak, Vcp, a.vcp), h), At(AnswerEntries(keccak, Gcp, a.gcp), h),
                At(AnswerEntries(keccak, Eenp, a.eenp), h));
    NoneDueIff(keccak, Vcp, a.vcp, h);
    NoneDueIff(keccak, Gcp, a.gcp, h);
    NoneDueIff(keccak, kind, PoolOf(a, kind), h);
    assert rs[..if kind == Vcp then |rs| else 1] == if kind == Vcp then rs else [rs[0]];
  }

  lemma StoredAsFrom(keccak: string -> string, a: Answers, h: uint64, kind: PoolKind) returns (ps: seq<Position>)
    requires Source(a, h, kind)
    ensures StoredAs(keccak, a, h, kind, ps)
  {
    var pool := PoolOf(a, kind);
    ps := AnswerRecords(keccak, kind, pool, h);
    var rs := At(AnswerEntries(keccak, kind, pool), h);
    AsCodedFrom(keccak, a, h, kind);
    KeptFrom(keccak, kind, pool, h, rs, ps, if kind == Vcp then |rs| else 1);
  }

  /** What is stored for a return height: the records of all the validators' stakes that
      return there; without any, that of the guardians' first; without that, that of the
      elite edge nodes' first. */
  lemma StoredRecords(keccak: string -> string, a: Answers, h: uint64) returns (kind: PoolKind, ps: seq<Position>)
    ensures AsCoded(keccak, a, h) == [] <==> NoneDue(a.vcp, h) && NoneDue(a.gcp, h) && NoneDue(a.eenp, h)
    ensures AsCoded(keccak, a, h) != [] ==> StoredAs(keccak, a, h, kind, ps)
  {
    NothingStored(keccak, a, h);
    kind, ps := if !NoneDue(a.vcp, h) then Vcp else if !NoneDue(a.gcp, h) then Gcp else Eenp, [];
    if AsCoded(keccak, a, h) != [] {
      ps := StoredAsFrom(keccak, a, h, kind);
    }
  }
}
