/** Overlapping requests that lose withdrawals, and when none can. */
module Losses {
  import opened Wrappers
  import opened StakeStore
  import opened Runs
  import opened Interleaving
  import opened Serial
  import opened Races

  // ---------- A schedule that loses a withdrawal ----------

  /** Request i, the leader, is in phase p and request j in phase q; of the others, those
      before n have finished and the rest have not begun. */
  ghost predicate Standing(st: State, blocks: seq<Block>, i: nat, j: nat, n: nat, p: Phase, q: Phase) {
    && SameBlocks(st, blocks) && i < |blocks| && j < |blocks| && i != j
    && st.requests[i].phase == p && st.requests[j].phase == q
    && forall k :: 0 <= k < |blocks| && k != i && k != j ==>
      if k < n then st.requests[k].phase.Answered? else st.requests[k].phase == Reading(0)
  }

  lemma MovedLeader(
    st: State, st': State, blocks: seq<Block>, i: nat, j: nat, n: nat, p: Phase, q: Phase, p': Phase)
    requires Standing(st, blocks, i, j, n, p, q) && st'.requests == st.requests[i := st.requests[i].(phase := p')]
    ensures Standing(st', blocks, i, j, n, p', q)
  {
  }

  lemma MovedStale(
    st: State, st': State, blocks: seq<Block>, i: nat, j: nat, n: nat, p: Phase, q: Phase, q': Phase)
    requires Standing(st, blocks, i, j, n, p, q) && st'.requests == st.requests[j := st.requests[j].(phase := q')]
    ensures Standing(st', blocks, i, j, n, p, q')
  {
  }

  lemma MovedOther(
    st: State, st': State, blocks: seq<Block>, i: nat, j: nat, n: nat, p: Phase, q: Phase, r: Phase)
    requires Standing(st, blocks, i, j, n, p, q) && n < |blocks| && n != i && n != j && r.Answered?
    requires st'.requests == st.requests[n := st.requests[n].(phase := r)]
    ensures Standing(st', blocks, i, j, n + 1, p, q)
  {
  }

  lemma RunOne(st: State, i: nat)
    ensures Run(st, [i]) == Step(st, i)
  {
    assert [i][..0] == [];
  }

  lemma RunPair(st: State, i: nat, j: nat)
    ensures Run(st, [i] + [j]) == Step(Step(st, i), j)
  {
    RunOne(st, i);
    RunSnoc(st, [i], j);
  }

  /** Request j reads before anything is put. */
  lemma StaleRead(s: Store, blocks: seq<Block>, i: nat, j: nat)
    requires i < |blocks| && j < |blocks| && i != j && Returns(blocks[j].txs) != []
    ensures Standing(Run(Start(s, blocks), [j]), blocks, i, j, 0,
                     Reading(0), Holding(0, Lookup(s, WriteKey(blocks[j].height))))
  {
    var st := Start(s, blocks);
    RunOne(st, j);
    GetStep(st, j);
    assert Standing(st, blocks, i, j, 0, Reading(0), Reading(0));
    MovedStale(st, Step(st, j), blocks, i, j, 0, Reading(0), Reading(0),
               Holding(0, Lookup(s, WriteKey(blocks[j].height))));
  }

  /** The leader records its first m withdrawals. */
  lemma LeaderAhead(st: State, blocks: seq<Block>, i: nat, j: nat, m: nat, q: Phase)
    requires Standing(st, blocks, i, j, 0, Reading(0), q) && m <= |Returns(blocks[i].txs)|
    ensures Standing(Run(st, Repeat(i, 2 * m)), blocks, i, j, 0, Reading(m), q)
  {
    SoloPart(st, i, m);
    MovedLeader(st, Part(st, i, m), blocks, i, j, 0, Reading(0), q, Reading(m));
  }

  lemma OtherFinishes(
    st: State, blocks: seq<Block>, i: nat, j: nat, n: nat, p: Phase, q: Phase) returns (schedule: seq<nat>)
    requires Standing(st, blocks, i, j, n, p, q) && n < |blocks|
    ensures Standing(Run(st, schedule), blocks, i, j, n + 1, p, q)
  {
    if n == i || n == j {
      schedule := [];
    } else {
      schedule := Repeat(n, 2 * |st.requests[n].rs| + 1);
      Solo(st, n, 2 * |st.requests[n].rs| + 1);
      MovedOther(st, Finish(st, n), blocks, i, j, n, p, q, Finish(st, n).requests[n].phase);
    }
  }

  /** The other requests, whatever they are for, run one after the other. */
  lemma {:induction false} OthersFinish(
    st: State, blocks: seq<Block>, i: nat, j: nat, n: nat, p: Phase, q: Phase) returns (schedule: seq<nat>)
    requires Standing(st, blocks, i, j, 0, p, q) && n <= |blocks|
    ensures Standing(Run(st, schedule), blocks, i, j, n, p, q)
    decreases n
  {
    if n == 0 {
      schedule := [];
    } else {
      var front := OthersFinish(st, blocks, i, j, n - 1, p, q);
      var next := OtherFinishes(Run(st, front), blocks, i, j, n - 1, p, q);
      schedule := front + next;
      RunConcat(st, front, next);
    }
  }

  /** Request j puts its stale list, and the leader reads it for withdrawal m. */
  lemma StaleWrite(
    st: State, blocks: seq<Block>, i: nat, j: nat, m: nat, before: Option<seq<ReturnStakeTx>>)
    requires Standing(st, blocks, i, j, |blocks|, Reading(m), Holding(0, before))
    requires blocks[i].height == blocks[j].height && m < |Returns(blocks[i].txs)| && Returns(blocks[j].txs) != []
    ensures Standing(Run(st, [j] + [i]), blocks, i, j, |blocks|,
                     Holding(m, Some(Add(before, Returns(blocks[j].txs)[0]))), Reading(1))
  {
    RunPair(st, j, i);
    PutStep(st, j);
    var st' := Step(st, j);
    MovedStale(st, st', blocks, i, j, |blocks|, Reading(m), Holding(0, before), Reading(1));
    GetStep(st', i);
    MovedLeader(st', Step(st', i), blocks, i, j, |blocks|, Reading(m), Reading(1),
                Holding(m, Some(Add(before, Returns(blocks[j].txs)[0]))));
  }

  /** Request j finishes. */
  lemma StaleFinishes(st: State, blocks: seq<Block>, i: nat, j: nat, p: Phase) returns (schedule: seq<nat>, q: Phase)
    requires Standing(st, blocks, i, j, |blocks|, p, Reading(1)) && Returns(blocks[j].txs) != []
    ensures q.Answered? && Standing(Run(st, schedule), blocks, i, j, |blocks|, p, q)
  {
    var n := 2 * |st.requests[j].rs| + 1;
    schedule, q := Repeat(j, n), Finish(st, j).requests[j].phase;
    Solo(st, j, n);
    MovedStale(st, Finish(st, j), blocks, i, j, |blocks|, p, Reading(1), q);
  }

  lemma LeaderAnswers(st: State, blocks: seq<Block>, i: nat, j: nat, m: nat, q: Phase, n: nat)
    requires Standing(st, blocks, i, j, |blocks|, Reading(m), q) && q.Answered?
    requires m <= |Returns(blocks[i].txs)| && n > 2 * |Returns(blocks[i].txs)|
    ensures var end, h := Run(st, Repeat(i, n)), blocks[i].height;
      && AllAnswered(end)
      && Lookup(end.store, WriteKey(h)) == Record(Lookup(st.store, WriteKey(h)), Returns(blocks[i].txs)[m..])
  {
    Solo(st, i, n);
    MovedLeader(st, Finish(st, i), blocks, i, j, |blocks|, Reading(m), q, Finish(st, i).requests[i].phase);
    RecordStoreLookup(st.store, blocks[i].height, Returns(blocks[i].txs)[m..], WriteKey(blocks[i].height));
  }

  lemma LeaderPuts(
    st: State, blocks: seq<Block>, i: nat, j: nat, m: nat, stale: seq<ReturnStakeTx>, q: Phase)
    requires Standing(st, blocks, i, j, |blocks|, Holding(m, Some(stale)), q)
    requires m < |Returns(blocks[i].txs)|
    ensures var st', h := Run(st, [i]), blocks[i].height;
      && Standing(st', blocks, i, j, |blocks|, Reading(m + 1), q)
      && Lookup(st'.store, WriteKey(h)) == Some(Add(Some(stale), Returns(blocks[i].txs)[m]))
  {
    RunOne(st, i);
    PutStep(st, i);
    MovedLeader(st, Step(st, i), blocks, i, j, |blocks|, Holding(m, Some(stale)), q, Reading(m + 1));
  }

  /** The leader overwrites what request j has recorded, and finishes. */
  lemma LeaderFinishes(
    st: State, blocks: seq<Block>, i: nat, j: nat, m: nat, stale: seq<ReturnStakeTx>, q: Phase)
    returns (schedule: seq<nat>)
    requires Standing(st, blocks, i, j, |blocks|, Holding(m, Some(stale)), q) && q.Answered?
    requires m < |Returns(blocks[i].txs)|
    ensures AllAnswered(Run(st, schedule))
    ensures var rs := Returns(blocks[i].txs);
      Lookup(Run(st, schedule).store, WriteKey(blocks[i].height))
        == Record(Some(Add(Some(stale), rs[m])), rs[m + 1..])
  {
    LeaderPuts(st, blocks, i, j, m, stale, q);
    var n := 2 * |Returns(blocks[i].txs)| + 1;
    LeaderAnswers(Run(st, [i]), blocks, i, j, m + 1, q, n);
    schedule := [i] + Repeat(i, n);
    RunConcat(st, [i], Repeat(i, n));
  }

  lemma StalePrefix(s: Store, blocks: seq<Block>, i: nat, j: nat, m: nat) returns (schedule: seq<nat>)
    requires i < |blocks| && j < |blocks| && i != j && blocks[i].height == blocks[j].height
    requires Returns(blocks[i].txs) == Returns(blocks[j].txs) && m < |Returns(blocks[i].txs)|
    ensures var stale := Add(Lookup(s, WriteKey(blocks[i].height)), Returns(blocks[i].txs)[0]);
      Standing(Run(Start(s, blocks), schedule), blocks, i, j, |blocks|, Holding(m, Some(stale)), Reading(1))
  {
    var st, before := Start(s, blocks), Lookup(s, WriteKey(blocks[i].height));
    StaleRead(s, blocks, i, j);
    LeaderAhead(Run(st, [j]), blocks, i, j, m, Holding(0, before));
    RunConcat(st, [j], Repeat(i, 2 * m));
    var front := [j] + Repeat(i, 2 * m);
    var middle := OthersFinish(Run(st, front), blocks, i, j, |blocks|, Reading(m), Holding(0, before));
    RunConcat(st, front, middle);
    StaleWrite(Run(st, front + middle), blocks, i, j, m, before);
    schedule := front + middle + ([j] + [i]);
    RunConcat(st, front + middle, [j] + [i]);
  }

  /** Whatever else is requested, two requests for one height can end in a list that has the
      first withdrawal and those from number m + 1 on, but was never given number m. */
  lemma StaleSchedule(s: Store, blocks: seq<Block>, i: nat, j: nat, m: nat) returns (schedule: seq<nat>)
    requires i < |blocks| && j < |blocks| && i != j && blocks[i].height == blocks[j].height
    requires Returns(blocks[i].txs) == Returns(blocks[j].txs) && m + 1 < |Returns(blocks[i].txs)|
    ensures var st, rs, key := Run(Start(s, blocks), schedule), Returns(blocks[i].txs), WriteKey(blocks[i].height);
      && AllAnswered(st)
      && Lookup(st.store, key) == Record(Some(Add(Some(Add(Lookup(s, key), rs[0])), rs[m + 1])), rs[m + 2..])
  {
    var rs, before := Returns(blocks[i].txs), Lookup(s, WriteKey(blocks[i].height));
    var prefix := StalePrefix(s, blocks, i, j, m + 1);
    var st := Run(Start(s, blocks), prefix);
    var p := Holding(m + 1, Some(Add(before, rs[0])));
    var middle, q := StaleFinishes(st, blocks, i, j, p);
    var rest := LeaderFinishes(Run(st, middle), blocks, i, j, m + 1, Add(before, rs[0]), q);
    RunConcat(st, middle, rest);
    schedule := prefix + (middle + rest);
    RunConcat(Start(s, blocks), prefix, middle + rest);
  }

  lemma NotLater(rs: seq<ReturnStakeTx>, j: nat)
    requires DistinctHashes(rs) && j + 1 < |rs|
    ensures rs[j].hash !in Hashes(rs[j + 2..])
  {
    forall x | x in rs[j + 2..]
      ensures x.hash != rs[j].hash
    {
      var i :| 0 <= i < |rs[j + 2..]| && rs[j + 2..][i] == x;
      assert rs[i + j + 2] == x;
    }
  }

  lemma NeverSeen(before: Option<seq<ReturnStakeTx>>, rs: seq<ReturnStakeTx>, m: nat)
    requires DistinctHashes(rs) && 0 < m < |rs| - 1 && !Has(Items(before), rs[m])
    ensures !Has(Items(Record(Some(Add(Some(Add(before, rs[0])), rs[m + 1])), rs[m + 2..])), rs[m])
  {
    var stale := Add(before, rs[0]);
    AddHashes(before, rs[0]);
    AddHashes(Some(stale), rs[m + 1]);
    RecordHashes(Some(Add(Some(stale), rs[m + 1])), rs[m + 2..]);
    NotLater(rs, m);
  }

  /** Whatever else is requested, two requests for one height have a complete schedule that
      loses any withdrawal strictly between the first and the last that is not in the store
      yet. */
  lemma LosingSchedule(s: Store, blocks: seq<Block>, i: nat, j: nat, m: nat) returns (schedule: seq<nat>)
    requires i < |blocks| && j < |blocks| && i != j && blocks[i].height == blocks[j].height
    requires Returns(blocks[i].txs) == Returns(blocks[j].txs) && DistinctHashes(Returns(blocks[i].txs))
    requires 0 < m < |Returns(blocks[i].txs)| - 1
    requires !Has(Items(Lookup(s, WriteKey(blocks[i].height))), Returns(blocks[i].txs)[m])
    ensures var st := Run(Start(s, blocks), schedule);
      && AllAnswered(st)
      && !Has(Items(Lookup(st.store, WriteKey(blocks[i].height))), Returns(blocks[i].txs)[m])
  {
    schedule := StaleSchedule(s, blocks, i, j, m);
    NeverSeen(Lookup(s, WriteKey(blocks[i].height)), Returns(blocks[i].txs), m);
  }

  // ---------- When no schedule loses any ----------

  /** Blocks of one height, as often served as one likes. */
  ghost predicate Alike(blocks: seq<Block>, b: Block) {
    forall x :: x in blocks ==> x.height == b.height && Returns(x.txs) == Returns(b.txs)
  }

  /** Whatever number of requests for the height overlap in whatever way, all the block's
      withdrawals are in the store once they have finished. */
  ghost predicate Lossless(s: Store, b: Block) {
    forall blocks: seq<Block>, schedule: seq<nat> ::
      blocks != [] && Alike(blocks, b) && AllAnswered(Run(Start(s, blocks), schedule)) ==>
        Hashes(Returns(b.txs)) <= Hashes(Items(Lookup(Run(Start(s, blocks), schedule).store, WriteKey(b.height))))
  }

  lemma AlikeEnds(s: Store, b: Block, blocks: seq<Block>, schedule: seq<nat>)
    requires blocks != [] && Alike(blocks, b) && AllAnswered(Run(Start(s, blocks), schedule))
    ensures var now := Items(Lookup(Run(Start(s, blocks), schedule).store, WriteKey(b.height)));
      Sound(Items(Lookup(s, WriteKey(b.height))), Returns(b.txs), now) && HasEnds(now, Returns(b.txs))
  {
    assert blocks[0] in blocks;
    assert Consistent(blocks);
    assert !Pending(Run(Start(s, blocks), schedule), b.height);
    RaceSafety(s, blocks, schedule, blocks[0]);
  }

  lemma EndsAndInner(before: seq<ReturnStakeTx>, now: seq<ReturnStakeTx>, rs: seq<ReturnStakeTx>)
    requires Hashes(before) <= Hashes(now) && HasInner(before, rs) && HasEnds(now, rs)
    ensures Hashes(rs) <= Hashes(now)
  {
    forall x | x in rs
      ensures x.hash in Hashes(now)
    {
      var j :| 0 <= j < |rs| && rs[j] == x;
      assert j == 0 || j == |rs| - 1 || Has(before, rs[j]);
    }
  }

  lemma AlikeLossless(s: Store, b: Block, blocks: seq<Block>, schedule: seq<nat>)
    requires HasInner(Items(Lookup(s, WriteKey(b.height))), Returns(b.txs))
    requires blocks != [] && Alike(blocks, b) && AllAnswered(Run(Start(s, blocks), schedule))
    ensures Hashes(Returns(b.txs)) <= Hashes(Items(Lookup(Run(Start(s, blocks), schedule).store, WriteKey(b.height))))
  {
    var rs, before := Returns(b.txs), Items(Lookup(s, WriteKey(b.height)));
    var now := Items(Lookup(Run(Start(s, blocks), schedule).store, WriteKey(b.height)));
    AlikeEnds(s, b, blocks, schedule);
    SoundKeeps(before, rs, now);
    EndsAndInner(before, now, rs);
  }

  /** For a block with distinct hashes, overlapping requests are harmless exactly when every
      withdrawal strictly between the first and the last is in the store already.  If none of
      the withdrawals is, that means at most two withdrawals. */
  lemma LosslessIff(s: Store, b: Block)
    requires DistinctHashes(Returns(b.txs))
    ensures var rs, before := Returns(b.txs), Items(Lookup(s, WriteKey(b.height)));
      && (Lossless(s, b) <==> HasInner(before, rs))
      && (Hashes(rs) !! Hashes(before) ==> (Lossless(s, b) <==> |rs| <= 2))
  {
    var rs, before := Returns(b.txs), Items(Lookup(s, WriteKey(b.height)));
    if HasInner(before, rs) {
      forall blocks: seq<Block>, schedule: seq<nat>
        | blocks != [] && Alike(blocks, b) && AllAnswered(Run(Start(s, blocks), schedule))
        ensures Hashes(rs) <= Hashes(Items(Lookup(Run(Start(s, blocks), schedule).store, WriteKey(b.height))))
      {
        AlikeLossless(s, b, blocks, schedule);
      }
    } else {
      var j :| 0 < j < |rs| - 1 && !Has(before, rs[j]);
      var schedule := LosingSchedule(s, [b, b], 0, 1, j);
      assert Alike([b, b], b) && AllAnswered(Run(Start(s, [b, b]), schedule));
      assert rs[j] in rs && rs[j].hash in Hashes(rs);
    }
    if |rs| > 2 {
      assert rs[1] in rs && rs[1].hash in Hashes(rs);
    }
  }

  // ---------- When every schedule agrees ----------

  /** Every interleaving of complete requests ends in the store of serving the same heights
      one after the other. */
  ghost predicate Confluent(s: Store, blocks: seq<Block>, order: seq<Block>) {
    forall schedule: seq<nat> :: AllAnswered(Run(Start(s, blocks), schedule)) ==>
      Run(Start(s, blocks), schedule).store == StoreAfter(s, order)
  }

  lemma Divergence(s: Store, blocks: seq<Block>, order: seq<Block>, i: nat, j: nat)
    requires Consistent(blocks + order) && forall b :: b in blocks ==> DistinctHashes(Returns(b.txs))
    requires forall h :: Serves(order, h) <==> Serves(blocks, h)
    requires i < j < |blocks| && blocks[i].height == blocks[j].height
    requires !HasInner(Items(Lookup(s, WriteKey(blocks[i].height))), Returns(blocks[i].txs))
    ensures !Confluent(s, blocks, order)
  {
    var b, rs := blocks[i], Returns(blocks[i].txs);
    assert b in blocks && blocks[j] in blocks && b in blocks + order && blocks[j] in blocks + order;
    var m :| 0 < m < |rs| - 1 && !Has(Items(Lookup(s, WriteKey(b.height))), rs[m]);
    var schedule := LosingSchedule(s, blocks, i, j, m);
    assert Serves(blocks, b.height);
    assert forall x :: x in order + [b] ==> x in blocks + order;
    ServedKey(s, order, b);
    RecordHashes(Lookup(s, WriteKey(b.height)), rs);
    assert rs[m] in rs && rs[m].hash in Hashes(rs);
  }

  /** For distinct hashes, that is so exactly when for every height requested twice the store
      has the inner withdrawals already. */
  lemma ConfluenceIff(s: Store, blocks: seq<Block>, order: seq<Block>)
    requires Consistent(blocks + order) && forall b :: b in blocks ==> DistinctHashes(Returns(b.txs))
    requires forall h :: Serves(order, h) <==> Serves(blocks, h)
    ensures Confluent(s, blocks, order) <==> Shareable(s, blocks)
  {
    if Shareable(s, blocks) {
      forall schedule: seq<nat> | AllAnswered(Run(Start(s, blocks), schedule))
        ensures Run(Start(s, blocks), schedule).store == StoreAfter(s, order)
      {
        Confluence(s, blocks, schedule, order);
      }
    } else {
      var i, j :| 0 <= i < j < |blocks| && blocks[i].height == blocks[j].height
        && !HasInner(Items(Lookup(s, WriteKey(blocks[i].height))), Returns(blocks[i].txs));
      Divergence(s, blocks, order, i, j);
    }
  }
}
