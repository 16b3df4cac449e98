/** Concurrent Block requests.  The server runs them without locks, so every withdrawal is a
    Get and a later Put of the whole list, and any schedule of these steps can happen. */
module Interleaving {
  import opened Wrappers
  import opened BigEndian
  import opened StakeStore
  import opened Runs

  /** Where a request is: about to read for withdrawal pc (or, past the last one, to read
      what is due), holding the list it read for withdrawal pc, or finished. */
  datatype Phase =
    | Reading(pc: nat)
    | Holding(pc: nat, seen: Option<seq<ReturnStakeTx>>)
    | Answered(due: Option<seq<ReturnStakeTx>>)

  /** A request, as far as the store is concerned: its block's height and withdrawals. */
  datatype Request = Request(height: uint64, rs: seq<ReturnStakeTx>, phase: Phase) {
    /** How many withdrawals the request has put. */
    function Pc(): nat {
      if phase.Answered? then |rs| else phase.pc
    }
  }

  datatype State = State(store: Store, requests: seq<Request>)

  function Step(st: State, i: nat): State {
    if i >= |st.requests| then st else
      var r := st.requests[i];
      match r.phase
      case Reading(pc) =>
        var next := if pc < |r.rs| then Holding(pc, Lookup(st.store, WriteKey(r.height)))
                    else Answered(Lookup(st.store, ReadKey(r.height)));
        st.(requests := st.requests[i := r.(phase := next)])
      case Holding(pc, seen) =>
        if pc < |r.rs| then
          State(st.store[WriteKey(r.height) := Add(seen, r.rs[pc])], st.requests[i := r.(phase := Reading(pc + 1))])
        else st
      case Answered(_) => st
  }

  /** A schedule names the request that moves at each step. */
  function Run(st: State, schedule: seq<nat>): State {
    if schedule == [] then st else Step(Run(st, schedule[..|schedule| - 1]), schedule[|schedule| - 1])
  }

  function Start(s: Store, blocks: seq<Block>): State {
    State(s, seq(|blocks|, i requires 0 <= i < |blocks| =>
      Request(blocks[i].height, Returns(blocks[i].txs), Reading(0))))
  }

  predicate AllAnswered(st: State) {
    forall i :: 0 <= i < |st.requests| ==> st.requests[i].phase.Answered?
  }

  ghost predicate SameBlocks(st: State, blocks: seq<Block>) {
    && |st.requests| == |blocks|
    && forall i :: 0 <= i < |blocks| ==>
      st.requests[i].height == blocks[i].height && st.requests[i].rs == Returns(blocks[i].txs)
  }

  // ---------- Runs and single steps ----------

  lemma RunSnoc(st: State, xs: seq<nat>, i: nat)
    ensures Run(st, xs + [i]) == Step(Run(st, xs), i)
  {
    assert (xs + [i])[..|xs|] == xs;
  }

  lemma {:induction false} RunConcat(st: State, xs: seq<nat>, ys: seq<nat>)
    ensures Run(st, xs + ys) == Run(Run(st, xs), ys)
  {
    if ys == [] {
      assert xs + ys == xs;
    } else {
      assert (xs + ys)[..|xs + ys| - 1] == xs + ys[..|ys| - 1];
      RunConcat(st, xs, ys[..|ys| - 1]);
    }
  }

  /** What a Get does to the state. */
  lemma GetStep(st: State, i: nat)
    requires i < |st.requests| && st.requests[i].phase.Reading? && st.requests[i].Pc() < |st.requests[i].rs|
    ensures var r := st.requests[i];
      Step(st, i)
        == State(st.store, st.requests[i := r.(phase := Holding(r.Pc(), Lookup(st.store, WriteKey(r.height))))])
  {
  }

  /** What the last read does to the state. */
  lemma AnswerStep(st: State, i: nat)
    requires i < |st.requests| && st.requests[i].phase.Reading? && st.requests[i].Pc() >= |st.requests[i].rs|
    ensures var r := st.requests[i];
      Step(st, i) == State(st.store, st.requests[i := r.(phase := Answered(Lookup(st.store, ReadKey(r.height))))])
  {
  }

  /** What a Put does to the state. */
  lemma PutStep(st: State, i: nat)
    requires i < |st.requests| && st.requests[i].phase.Holding? && st.requests[i].Pc() < |st.requests[i].rs|
    ensures var r := st.requests[i];
      Step(st, i) == State(st.store[WriteKey(r.height) := Add(r.phase.seen, r.rs[r.Pc()])],
                           st.requests[i := r.(phase := Reading(r.Pc() + 1))])
  {
  }

  /** Keys that no request writes keep what they hold. */
  lemma {:induction false} UnwrittenKey(s: Store, blocks: seq<Block>, schedule: seq<nat>, k: Key)
    requires forall b :: b in blocks ==> WriteKey(b.height) != k
    ensures var st := Run(Start(s, blocks), schedule);
      SameBlocks(st, blocks) && Lookup(st.store, k) == Lookup(s, k)
  {
    if schedule != [] {
      var front, i := schedule[..|schedule| - 1], schedule[|schedule| - 1];
      UnwrittenKey(s, blocks, front, k);
      if i < |blocks| {
        assert blocks[i] in blocks;
      }
    }
  }

  // ---------- Confluence ----------

  ghost predicate Has(l: seq<ReturnStakeTx>, r: ReturnStakeTx) {
    r.hash in Hashes(l)
  }

  /** Every withdrawal strictly between the first and the last is there. */
  ghost predicate HasInner(l: seq<ReturnStakeTx>, rs: seq<ReturnStakeTx>) {
    forall j :: 0 < j < |rs| - 1 ==> Has(l, rs[j])
  }

  /** Requests for one height may overlap only if the store has the block's inner withdrawals,
      of which there are none if it withdraws at most twice. */
  ghost predicate Shareable(s: Store, blocks: seq<Block>) {
    forall i, j :: 0 <= i < j < |blocks| && blocks[i].height == blocks[j].height ==>
      HasInner(Items(Lookup(s, WriteKey(blocks[i].height))), Returns(blocks[i].txs))
  }

  /** A list that some request for height h has put, or the list before any did: the first
      j withdrawals are recorded. */
  function Stage(s: Store, h: uint64, rs: seq<ReturnStakeTx>, j: nat): Option<seq<ReturnStakeTx>>
    requires j <= |rs|
  {
    Record(Lookup(s, WriteKey(h)), rs[..j])
  }

  /** Putting withdrawal p into a list of stage j >= p gives the later of stages j and p + 1. */
  lemma AddStage(s: Store, h: uint64, rs: seq<ReturnStakeTx>, p: nat, j: nat)
    requires p <= j <= |rs| && p < |rs|
    ensures Some(Add(Stage(s, h, rs, j), rs[p])) == Stage(s, h, rs, if j == p then p + 1 else j)
  {
    if j == p {
      assert rs[..p + 1][..p] == rs[..p];
    } else {
      RecordHashes(Lookup(s, WriteKey(h)), rs[..j]);
      assert rs[..j][p] in rs[..j];
    }
  }

  /** Inner withdrawals that are there already do not change the list. */
  lemma {:induction false} StageInner(s: Store, h: uint64, rs: seq<ReturnStakeTx>, j: nat)
    requires HasInner(Items(Lookup(s, WriteKey(h))), rs) && 0 < j < |rs|
    ensures Stage(s, h, rs, j) == Stage(s, h, rs, |rs| - 1)
    decreases |rs| - j
  {
    if j < |rs| - 1 {
      var before := Lookup(s, WriteKey(h));
      assert rs[..j + 1][..j] == rs[..j];
      RecordHashes(before, rs[..j]);
      assert Has(Items(before), rs[j]);
      StageInner(s, h, rs, j + 1);
    }
  }

  /** Some request for height h has withdrawals left to put. */
  ghost predicate Pending(st: State, h: uint64) {
    exists i :: 0 <= i < |st.requests| && st.requests[i].height == h && st.requests[i].Pc() < |st.requests[i].rs|
  }

  /** Steps that move no request for a height leave its pending requests pending. */
  lemma StillPending(st: State, st': State, h: uint64)
    requires |st.requests| == |st'.requests|
    requires forall i :: 0 <= i < |st.requests| && st.requests[i].height == h ==>
      && st'.requests[i].height == h && st'.requests[i].rs == st.requests[i].rs
      && st'.requests[i].Pc() == st.requests[i].Pc()
    ensures Pending(st, h) ==> Pending(st', h)
  {
    if Pending(st, h) {
      var i :| 0 <= i < |st.requests| && st.requests[i].height == h && st.requests[i].Pc() < |st.requests[i].rs|;
      assert st'.requests[i].height == h;
    }
  }

  ghost predicate InPhase(s: Store, r: Request, stage: nat) {
    && r.Pc() <= |r.rs|
    && (r.Pc() < |r.rs| ==> r.Pc() <= stage)
    && (r.phase.Holding? ==>
          r.Pc() < |r.rs| && exists j :: r.Pc() <= j <= |r.rs| && r.phase.seen == Stage(s, r.height, r.rs, j))
  }

  /** What holds for request i, when the list of its block's key is at the given stage. */
  ghost predicate Consonant(s: Store, st: State, stage: map<uint64, nat>, i: nat)
    requires i < |st.requests|
  {
    var r := st.requests[i];
    && r.height in stage && stage[r.height] <= |r.rs|
    && Lookup(st.store, WriteKey(r.height)) == Stage(s, r.height, r.rs, stage[r.height])
    && InPhase(s, r, stage[r.height])
    && (stage[r.height] < |r.rs| ==> Pending(st, r.height))
  }

  ghost predicate Invariant(s: Store, blocks: seq<Block>, st: State, stage: map<uint64, nat>) {
    SameBlocks(st, blocks) && forall i :: 0 <= i < |st.requests| ==> Consonant(s, st, stage, i)
  }

  lemma StartInvariant(s: Store, blocks: seq<Block>) returns (stage: map<uint64, nat>)
    ensures Invariant(s, blocks, Start(s, blocks), stage)
  {
    var st := Start(s, blocks);
    stage := map b | b in blocks :: b.height := 0;
    forall i | 0 <= i < |blocks|
      ensures Consonant(s, st, stage, i)
    {
      assert blocks[i] in blocks;
      assert st.requests[i].rs[..0] == [];
    }
  }

  /** Steps that only read keep the invariant. */
  lemma ReadInvariant(s: Store, blocks: seq<Block>, st: State, stage: map<uint64, nat>, i: nat)
    requires Invariant(s, blocks, st, stage)
    requires i < |blocks| ==> !st.requests[i].phase.Holding?
    ensures Invariant(s, blocks, Step(st, i), stage)
  {
    var st' := Step(st, i);
    assert i < |blocks| ==> Consonant(s, st, stage, i);
    forall k | 0 <= k < |blocks|
      ensures Consonant(s, st', stage, k)
    {
      assert Consonant(s, st, stage, k);
      StillPending(st, st', st.requests[k].height);
    }
  }

  /** Another request is for the same height. */
  ghost predicate Shared(blocks: seq<Block>, i: nat)
    requires i < |blocks|
  {
    exists k :: 0 <= k < |blocks| && k != i && blocks[k].height == blocks[i].height
  }

  lemma SharedInner(s: Store, blocks: seq<Block>, st: State, i: nat)
    requires Consistent(blocks) && Shareable(s, blocks) && SameBlocks(st, blocks) && i < |blocks| && Shared(blocks, i)
    ensures var r := st.requests[i]; HasInner(Items(Lookup(s, WriteKey(r.height))), r.rs)
  {
    var k :| 0 <= k < |blocks| && k != i && blocks[k].height == blocks[i].height;
    assert blocks[i] in blocks && blocks[k] in blocks;
    var x, y := if i < k then i else k, if i < k then k else i;
    assert HasInner(Items(Lookup(s, WriteKey(blocks[x].height))), Returns(blocks[x].txs));
  }

  /** Request i is about to put a list that leaves its key at stage next. */
  ghost predicate PutsStage(s: Store, st: State, i: nat, next: nat)
    requires i < |st.requests|
  {
    var r := st.requests[i];
    && r.phase.Holding? && r.Pc() + 1 <= next <= |r.rs|
    && Some(Add(r.phase.seen, r.rs[r.Pc()])) == Stage(s, r.height, r.rs, next)
    && (next < |r.rs| ==> r.Pc() + 1 < |r.rs|)
  }

  lemma PutConsonantSame(s: Store, st: State, stage: map<uint64, nat>, i: nat, k: nat, next: nat)
    requires i < |st.requests| && k < |st.requests| && Consonant(s, st, stage, k) && PutsStage(s, st, i, next)
    requires st.requests[k].height == st.requests[i].height && st.requests[k].rs == st.requests[i].rs
    requires k != i ==> next >= |st.requests[k].rs| - 1
    ensures Consonant(s, Step(st, i), stage[st.requests[i].height := next], k)
  {
    var st', r := Step(st, i), st.requests[i];
    PutStep(st, i);
    assert st'.requests[i] == r.(phase := Reading(r.Pc() + 1));
    assert next < |r.rs| ==> Pending(st', r.height);
    assert k != i ==> st'.requests[k] == st.requests[k];
  }

  lemma PutConsonantOther(s: Store, st: State, stage: map<uint64, nat>, i: nat, k: nat, next: nat)
    requires i < |st.requests| && k < |st.requests| && Consonant(s, st, stage, k) && PutsStage(s, st, i, next)
    requires st.requests[k].height != st.requests[i].height
    ensures Consonant(s, Step(st, i), stage[st.requests[i].height := next], k)
  {
    var st', r, x := Step(st, i), st.requests[i], st.requests[k];
    KeysApart(r.height, x.height);
    PutStep(st, i);
    assert st'.requests[k] == x;
    StillPending(st, st', x.height);
  }

  lemma PutConsonant(s: Store, blocks: seq<Block>, st: State, stage: map<uint64, nat>, i: nat, k: nat, next: nat)
    requires Consistent(blocks) && Invariant(s, blocks, st, stage)
    requires i < |blocks| && k < |blocks| && PutsStage(s, st, i, next)
    requires Shared(blocks, i) ==> next >= |st.requests[i].rs| - 1
    ensures Consonant(s, Step(st, i), stage[st.requests[i].height := next], k)
  {
    var r, x := st.requests[i], st.requests[k];
    assert Consonant(s, st, stage, k);
    assert blocks[i] in blocks && blocks[k] in blocks;
    if x.height == r.height {
      assert x.rs == r.rs;
      assert k != i ==> Shared(blocks, i);
      PutConsonantSame(s, st, stage, i, k, next);
    } else {
      PutConsonantOther(s, st, stage, i, k, next);
    }
  }

  lemma AddedStage(s: Store, r: Request, stage: nat) returns (next: nat)
    requires InPhase(s, r, stage) && r.phase.Holding?
    ensures r.Pc() + 1 <= next <= |r.rs|
    ensures Some(Add(r.phase.seen, r.rs[r.Pc()])) == Stage(s, r.height, r.rs, next)
  {
    var p := r.phase.pc;
    var j :| p <= j <= |r.rs| && r.phase.seen == Stage(s, r.height, r.rs, j);
    AddStage(s, r.height, r.rs, p, j);
    next := if j == p then p + 1 else j;
  }

  /** The stage that a Put leaves its key at; inner stages count as the last of them where
      requests share the height. */
  lemma NextStage(s: Store, blocks: seq<Block>, st: State, stage: map<uint64, nat>, i: nat) returns (next: nat)
    requires Consistent(blocks) && Shareable(s, blocks)
    requires Invariant(s, blocks, st, stage)
    requires i < |blocks| && st.requests[i].phase.Holding?
    ensures PutsStage(s, st, i, next)
    ensures Shared(blocks, i) ==> next >= |st.requests[i].rs| - 1
  {
    var r := st.requests[i];
    assert Consonant(s, st, stage, i);
    next := AddedStage(s, r, stage[r.height]);
    if Shared(blocks, i) && next < |r.rs| - 1 {
      SharedInner(s, blocks, st, i);
      StageInner(s, r.height, r.rs, next);
      next := |r.rs| - 1;
    }
  }

  lemma StepSameBlocks(blocks: seq<Block>, st: State, i: nat)
    requires SameBlocks(st, blocks)
    ensures SameBlocks(Step(st, i), blocks)
  {
  }

  /** A Put moves its key to a stage that suits every other request for the same height. */
  lemma PutInvariant(s: Store, blocks: seq<Block>, st: State, stage: map<uint64, nat>, i: nat)
    returns (stage': map<uint64, nat>)
    requires Consistent(blocks) && Shareable(s, blocks)
    requires Invariant(s, blocks, st, stage)
    requires i < |blocks| && st.requests[i].phase.Holding?
    ensures Invariant(s, blocks, Step(st, i), stage')
  {
    var next := NextStage(s, blocks, st, stage, i);
    stage' := stage[st.requests[i].height := next];
    StepSameBlocks(blocks, st, i);
    forall k | 0 <= k < |blocks|
      ensures Consonant(s, Step(st, i), stage', k)
    {
      PutConsonant(s, blocks, st, stage, i, k, next);
    }
  }

  lemma {:induction false} RunInvariant(s: Store, blocks: seq<Block>, schedule: seq<nat>)
    returns (stage: map<uint64, nat>)
    requires Consistent(blocks) && Shareable(s, blocks)
    ensures Invariant(s, blocks, Run(Start(s, blocks), schedule), stage)
  {
    if schedule == [] {
      stage := StartInvariant(s, blocks);
    } else {
      var front, i := schedule[..|schedule| - 1], schedule[|schedule| - 1];
      stage := RunInvariant(s, blocks, front);
      var st := Run(Start(s, blocks), front);
      if i < |blocks| && st.requests[i].phase.Holding? {
        stage := PutInvariant(s, blocks, st, stage, i);
      } else {
        ReadInvariant(s, blocks, st, stage, i);
      }
    }
  }

  /** Once no request for its height is pending, a key holds all of the block's withdrawals. */
  lemma SettledKey(s: Store, blocks: seq<Block>, schedule: seq<nat>, b: Block)
    requires Consistent(blocks) && Shareable(s, blocks) && b in blocks
    requires !Pending(Run(Start(s, blocks), schedule), b.height)
    ensures Lookup(Run(Start(s, blocks), schedule).store, WriteKey(b.height))
         == Record(Lookup(s, WriteKey(b.height)), Returns(b.txs))
  {
    var st := Run(Start(s, blocks), schedule);
    var stage := RunInvariant(s, blocks, schedule);
    var i :| 0 <= i < |blocks| && blocks[i] == b;
    assert Consonant(s, st, stage, i);
    var rs := st.requests[i].rs;
    assert rs[..|rs|] == rs;
  }

  /** Every interleaving of complete requests ends in the store of serving the same heights
      one after the other, in whatever order, if for heights requested twice the store has the
      inner withdrawals. */
  lemma Confluence(s: Store, blocks: seq<Block>, schedule: seq<nat>, order: seq<Block>)
    requires Consistent(blocks + order) && Shareable(s, blocks)
    requires AllAnswered(Run(Start(s, blocks), schedule))
    requires forall h :: Serves(order, h) <==> Serves(blocks, h)
    ensures Run(Start(s, blocks), schedule).store == StoreAfter(s, order)
  {
    var st := Run(Start(s, blocks), schedule);
    assert forall x :: x in blocks || x in order ==> x in blocks + order;
    forall k: Key
      ensures Lookup(st.store, k) == Lookup(StoreAfter(s, order), k)
    {
      if b :| b in blocks && WriteKey(b.height) == k {
        assert Serves(blocks, b.height);
        SettledKey(s, blocks, schedule, b);
        ServedKey(s, order, b);
      } else {
        UnwrittenKey(s, blocks, schedule, k);
        forall x | x in order
          ensures WriteKey(x.height) != k
        {
          assert Serves(order, x.height);
          assert Serves(blocks, x.height);
        }
        UnservedKey(s, order, k);
      }
    }
    EqualLookups(st.store, StoreAfter(s, order));
  }
}
