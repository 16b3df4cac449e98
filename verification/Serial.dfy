/** Requests that do not overlap: the machine of Get and Put steps refines the sequential
    endpoint, response by response. */
module Serial {
  import opened BigEndian
  import opened StakeStore
  import opened Runs
  import opened Interleaving

  function Repeat(i: nat, n: nat): seq<nat> {
    seq(n, _ => i)
  }

  lemma RunRepeat(st: State, i: nat, n: nat)
    ensures Run(st, Repeat(i, n + 1)) == Step(Run(st, Repeat(i, n)), i)
  {
    assert Repeat(i, n + 1) == Repeat(i, n) + [i];
    RunSnoc(st, Repeat(i, n), i);
  }

  lemma RunTwice(st: State, i: nat, n: nat)
    ensures Run(st, Repeat(i, n + 2)) == Step(Step(Run(st, Repeat(i, n)), i), i)
  {
    RunRepeat(st, i, n);
    RunRepeat(st, i, n + 1);
  }

  lemma UpdateTwice<A>(s: seq<A>, i: nat, x: A, y: A)
    requires i < |s|
    ensures s[i := x][i] == x && s[i := x][i := y] == s[i := y]
  {
  }

  /** A Get directly followed by the Put of the same request. */
  lemma GetThenPut(st: State, i: nat)
    requires i < |st.requests| && st.requests[i].phase.Reading? && st.requests[i].Pc() < |st.requests[i].rs|
    ensures var r := st.requests[i];
      Step(Step(st, i), i)
        == State(st.store[WriteKey(r.height) := Add(Lookup(st.store, WriteKey(r.height)), r.rs[r.Pc()])],
                 st.requests[i := r.(phase := Reading(r.Pc() + 1))])
  {
    var r := st.requests[i];
    var held := r.(phase := Holding(r.Pc(), Lookup(st.store, WriteKey(r.height))));
    UpdateTwice(st.requests, i, held, r.(phase := Reading(r.Pc() + 1)));
    GetStep(st, i);
    PutStep(State(st.store, st.requests[i := held]), i);
  }

  /** The state once request i has recorded its next q withdrawals. */
  function Part(st: State, i: nat, q: nat): State
    requires i < |st.requests| && st.requests[i].Pc() + q <= |st.requests[i].rs|
  {
    var r := st.requests[i];
    State(RecordStore(st.store, r.height, r.rs[r.Pc()..r.Pc() + q]),
          st.requests[i := r.(phase := Reading(r.Pc() + q))])
  }

  lemma PartNone(st: State, i: nat)
    requires i < |st.requests| && st.requests[i].phase.Reading? && st.requests[i].Pc() <= |st.requests[i].rs|
    ensures Part(st, i, 0) == st
  {
    var r := st.requests[i];
    assert r.rs[r.Pc()..r.Pc()] == [];
    assert st.requests[i := r] == st.requests;
  }

  lemma PartRequests(st: State, i: nat, q: nat)
    requires i < |st.requests| && st.requests[i].Pc() + q + 1 <= |st.requests[i].rs|
    ensures var r, requests := st.requests[i], Part(st, i, q).requests;
      && requests[i] == r.(phase := Reading(r.Pc() + q))
      && requests[i := r.(phase := Reading(r.Pc() + q + 1))] == Part(st, i, q + 1).requests
  {
    var r := st.requests[i];
    var now, next := r.(phase := Reading(r.Pc() + q)), r.(phase := Reading(r.Pc() + q + 1));
    UpdateTwice(st.requests, i, now, next);
    assert Part(st, i, q).requests == st.requests[i := now];
    assert Part(st, i, q + 1).requests == st.requests[i := next];
  }

  lemma RecordNext(s: Store, h: uint64, rs: seq<ReturnStakeTx>, p: nat, m: nat)
    requires p <= m < |rs|
    ensures var s' := RecordStore(s, h, rs[p..m]);
      RecordStore(s, h, rs[p..m + 1]) == s'[WriteKey(h) := Add(Lookup(s', WriteKey(h)), rs[m])]
  {
    RecordStoreAppend(s, h, rs[p..m], rs[m]);
    assert rs[p..m] + [rs[m]] == rs[p..m + 1];
  }

  lemma PartStore(st: State, i: nat, q: nat)
    requires i < |st.requests| && st.requests[i].Pc() + q + 1 <= |st.requests[i].rs|
    ensures var r, s := st.requests[i], Part(st, i, q).store;
      s[WriteKey(r.height) := Add(Lookup(s, WriteKey(r.height)), r.rs[r.Pc() + q])] == Part(st, i, q + 1).store
  {
    var r := st.requests[i];
    RecordNext(st.store, r.height, r.rs, r.Pc(), r.Pc() + q);
  }

  lemma GetThenPutIs(st: State, i: nat, next: State)
    requires i < |st.requests| && st.requests[i].phase.Reading? && st.requests[i].Pc() < |st.requests[i].rs|
    requires var r := st.requests[i];
      && st.store[WriteKey(r.height) := Add(Lookup(st.store, WriteKey(r.height)), r.rs[r.Pc()])] == next.store
      && st.requests[i := r.(phase := Reading(r.Pc() + 1))] == next.requests
    ensures Step(Step(st, i), i) == next
  {
    GetThenPut(st, i);
  }

  lemma PartNext(st: State, i: nat, q: nat)
    requires i < |st.requests| && st.requests[i].Pc() + q + 1 <= |st.requests[i].rs|
    ensures Step(Step(Part(st, i, q), i), i) == Part(st, i, q + 1)
  {
    PartRequests(st, i, q);
    PartStore(st, i, q);
    GetThenPutIs(Part(st, i, q), i, Part(st, i, q + 1));
  }

  /** A request that moves alone for 2q steps records its next q withdrawals. */
  lemma {:induction false} SoloPart(st: State, i: nat, q: nat)
    requires i < |st.requests| && st.requests[i].phase.Reading? && st.requests[i].Pc() + q <= |st.requests[i].rs|
    ensures Run(st, Repeat(i, 2 * q)) == Part(st, i, q)
    decreases q
  {
    if q == 0 {
      PartNone(st, i);
    } else {
      SoloPart(st, i, q - 1);
      RunTwice(st, i, 2 * (q - 1));
      PartNext(st, i, q - 1);
    }
  }

  /** The state once request i has recorded its remaining withdrawals and answered. */
  function Finish(st: State, i: nat): State
    requires i < |st.requests| && st.requests[i].Pc() <= |st.requests[i].rs|
  {
    var r := st.requests[i];
    var s' := RecordStore(st.store, r.height, r.rs[r.Pc()..]);
    State(s', st.requests[i := r.(phase := Answered(Lookup(s', ReadKey(r.height))))])
  }

  lemma PartFinish(st: State, i: nat, q: nat)
    requires i < |st.requests| && st.requests[i].Pc() + q == |st.requests[i].rs|
    ensures Step(Part(st, i, q), i) == Finish(st, i)
  {
    var r := st.requests[i];
    assert r.rs[r.Pc()..r.Pc() + q] == r.rs[r.Pc()..];
    AnswerStep(Part(st, i, q), i);
    UpdateTwice(st.requests, i, r.(phase := Reading(|r.rs|)), Finish(st, i).requests[i]);
  }

  lemma FinishStays(st: State, i: nat)
    requires i < |st.requests| && st.requests[i].Pc() <= |st.requests[i].rs|
    ensures Step(Finish(st, i), i) == Finish(st, i)
  {
  }

  lemma SoloFirst(st: State, i: nat, q: nat)
    requires i < |st.requests| && st.requests[i].phase.Reading? && st.requests[i].Pc() + q == |st.requests[i].rs|
    ensures Run(st, Repeat(i, 2 * q + 1)) == Finish(st, i)
  {
    RunRepeat(st, i, 2 * q);
    SoloPart(st, i, q);
    PartFinish(st, i, q);
  }

  /** A request that moves alone often enough records all its remaining withdrawals and
      answers; after that it moves no more. */
  lemma {:induction false} Solo(st: State, i: nat, n: nat)
    requires i < |st.requests| && st.requests[i].phase.Reading? && st.requests[i].Pc() <= |st.requests[i].rs|
    requires n > 2 * (|st.requests[i].rs| - st.requests[i].Pc())
    ensures Run(st, Repeat(i, n)) == Finish(st, i)
    decreases n
  {
    if n == 2 * (|st.requests[i].rs| - st.requests[i].Pc()) + 1 {
      SoloFirst(st, i, |st.requests[i].rs| - st.requests[i].Pc());
    } else {
      Solo(st, i, n - 1);
      RunRepeat(st, i, n - 1);
      FinishStays(st, i);
    }
  }

  /** Request 0 moves counts[0] times, then request 1 moves counts[1] times, and so on. */
  function SerialSchedule(counts: seq<nat>): seq<nat> {
    if counts == [] then [] else
      SerialSchedule(counts[..|counts| - 1]) + Repeat(|counts| - 1, counts[|counts| - 1])
  }

  /** Each request gets a step for every Get, every Put and the final read. */
  ghost predicate LongEnough(blocks: seq<Block>, counts: seq<nat>) {
    |counts| <= |blocks| && forall i :: 0 <= i < |counts| ==> counts[i] > 2 * |Returns(blocks[i].txs)|
  }

  /** The first n requests have been served one after the other, the others not at all. */
  ghost predicate ServedFirst(s: Store, blocks: seq<Block>, st: State, n: nat)
    requires n <= |blocks|
  {
    && st.store == StoreAfter(s, blocks[..n])
    && |st.requests| == |blocks|
    && (forall i :: 0 <= i < n ==>
          st.requests[i].phase == Answered(Lookup(StoreAfter(s, blocks[..i + 1]), ReadKey(blocks[i].height))))
    && (forall i :: n <= i < |blocks| ==>
          st.requests[i] == Request(blocks[i].height, Returns(blocks[i].txs), Reading(0)))
  }

  lemma FinishServes(s: Store, blocks: seq<Block>, st: State, k: nat)
    requires k < |blocks| && ServedFirst(s, blocks, st, k)
    ensures ServedFirst(s, blocks, Finish(st, k), k + 1)
  {
    var r := st.requests[k];
    assert r.rs[0..] == r.rs;
    assert blocks[..k + 1][..k] == blocks[..k];
    assert Finish(st, k).store == StoreAfter(s, blocks[..k + 1]);
  }

  lemma ServedNext(s: Store, blocks: seq<Block>, st: State, k: nat, n: nat)
    requires k < |blocks| && ServedFirst(s, blocks, st, k) && n > 2 * |Returns(blocks[k].txs)|
    ensures ServedFirst(s, blocks, Run(st, Repeat(k, n)), k + 1)
  {
    Solo(st, k, n);
    FinishServes(s, blocks, st, k);
  }

  lemma {:induction false} SerialPrefix(s: Store, blocks: seq<Block>, counts: seq<nat>)
    requires LongEnough(blocks, counts)
    ensures ServedFirst(s, blocks, Run(Start(s, blocks), SerialSchedule(counts)), |counts|)
    decreases |counts|
  {
    if counts != [] {
      var k := |counts| - 1;
      SerialPrefix(s, blocks, counts[..k]);
      var front := SerialSchedule(counts[..k]);
      RunConcat(Start(s, blocks), front, Repeat(k, counts[k]));
      ServedNext(s, blocks, Run(Start(s, blocks), front), k, counts[k]);
    }
  }

  /** Requests served one after the other leave the store and give the responses that the
      sequential endpoint does, whatever blocks they are for. */
  lemma SerialRefines(s: Store, blocks: seq<Block>, counts: seq<nat>)
    requires |counts| == |blocks| && LongEnough(blocks, counts)
    ensures var st := Run(Start(s, blocks), SerialSchedule(counts));
      && AllAnswered(st) && |st.requests| == |blocks|
      && st.store == StoreAfter(s, blocks)
      && forall t :: 0 <= t < |blocks| ==> Items(st.requests[t].phase.due) == DueAt(s, blocks, t)
  {
    SerialPrefix(s, blocks, counts);
    assert blocks[..|blocks|] == blocks;
    forall t | 0 <= t < |blocks|
      ensures Items(Lookup(StoreAfter(s, blocks[..t + 1]), ReadKey(blocks[t].height))) == DueAt(s, blocks, t)
    {
      assert blocks[..t + 1][..t] == blocks[..t];
    }
  }
}
