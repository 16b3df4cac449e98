/** Requests for the same height that overlap: what no schedule can break. */
module Races {
  import opened Wrappers
  import opened BigEndian
  import opened StakeStore
  import opened Runs
  import opened Interleaving

  // ---------- What no schedule can break ----------

  /** The list continues the one before all requests by distinct withdrawals of the block
      that were not there yet. */
  ghost predicate Sound(before: seq<ReturnStakeTx>, rs: seq<ReturnStakeTx>, l: seq<ReturnStakeTx>) {
    && before <= l
    && (forall i :: |before| <= i < |l| ==> l[i] in rs)
    && (forall i, j :: 0 <= i < j < |l| && |before| <= j ==> l[i].hash != l[j].hash)
  }

  lemma AddSound(before: seq<ReturnStakeTx>, rs: seq<ReturnStakeTx>, o: Option<seq<ReturnStakeTx>>, r: ReturnStakeTx)
    requires Sound(before, rs, Items(o)) && r in rs
    ensures Sound(before, rs, Add(o, r))
  {
    var l, l' := Items(o), Add(o, r);
    if l' != l {
      forall i, j | 0 <= i < j < |l'| && |before| <= j
        ensures l'[i].hash != l'[j].hash
      {
        if j == |l| {
          assert l[i] in l && l[i].hash in Hashes(l);
        }
      }
    }
  }

  lemma SoundKeeps(before: seq<ReturnStakeTx>, rs: seq<ReturnStakeTx>, l: seq<ReturnStakeTx>)
    requires Sound(before, rs, l)
    ensures Hashes(before) <= Hashes(l)
  {
    forall h | h in Hashes(before)
      ensures h in Hashes(l)
    {
      var x :| x in before && x.hash == h;
      assert x in l;
    }
  }

  /** Both ends of a block's withdrawals are there, if it has any. */
  ghost predicate HasEnds(l: seq<ReturnStakeTx>, rs: seq<ReturnStakeTx>) {
    rs != [] ==> Has(l, rs[0]) && Has(l, rs[|rs| - 1])
  }

  ghost predicate SafeLists(r: Request, before: seq<ReturnStakeTx>, now: seq<ReturnStakeTx>) {
    && Sound(before, r.rs, now)
    && r.Pc() <= |r.rs|
    && (r.phase.Holding? ==> r.Pc() < |r.rs| && Sound(before, r.rs, Items(r.phase.seen)))
    && (r.Pc() > 0 ==> Has(now, r.rs[0]) && (r.phase.Holding? ==> Has(Items(r.phase.seen), r.rs[0])))
  }

  /** What holds for request i throughout: its key's list and the list it holds are sound,
      they contain the first withdrawal once the request has put it, and the last
      withdrawal is missing only while some request for the height is still to put it. */
  ghost predicate Safe(s: Store, st: State, i: nat)
    requires i < |st.requests|
  {
    var r := st.requests[i];
    var before, now := Items(Lookup(s, WriteKey(r.height))), Items(Lookup(st.store, WriteKey(r.height)));
    && SafeLists(r, before, now)
    && (r.rs != [] && !Has(now, r.rs[|r.rs| - 1]) ==> Pending(st, r.height))
  }

  ghost predicate AllSafe(s: Store, blocks: seq<Block>, st: State) {
    SameBlocks(st, blocks) && forall i :: 0 <= i < |st.requests| ==> Safe(s, st, i)
  }

  lemma StartSafe(s: Store, blocks: seq<Block>)
    ensures AllSafe(s, blocks, Start(s, blocks))
  {
    var st := Start(s, blocks);
    forall i | 0 <= i < |blocks|
      ensures Safe(s, st, i)
    {
      assert st.requests[i].height == blocks[i].height && st.requests[i].Pc() == 0;
    }
  }

  /** A step that only reads changes nothing but what its request holds. */
  lemma ReadKeeps(st: State, i: nat)
    requires i < |st.requests| ==> !st.requests[i].phase.Holding? && st.requests[i].Pc() <= |st.requests[i].rs|
    ensures var st' := Step(st, i);
      && st'.store == st.store && |st'.requests| == |st.requests|
      && forall k :: 0 <= k < |st.requests| ==>
        var r, r' := st.requests[k], st'.requests[k];
        && r'.height == r.height && r'.rs == r.rs && r'.Pc() == r.Pc()
        && (r'.phase.Holding? && r' != r ==>
              r.Pc() < |r.rs| && r'.phase.seen == Lookup(st.store, WriteKey(r.height)))
  {
  }

  lemma ReadSafeAt(s: Store, st: State, i: nat, k: nat)
    requires k < |st.requests| && Safe(s, st, k)
    requires i < |st.requests| ==> Safe(s, st, i) && !st.requests[i].phase.Holding?
    ensures Safe(s, Step(st, i), k)
  {
    ReadKeeps(st, i);
    StillPending(st, Step(st, i), st.requests[k].height);
  }

  lemma ReadSafe(s: Store, blocks: seq<Block>, st: State, i: nat)
    requires AllSafe(s, blocks, st)
    requires i < |blocks| ==> !st.requests[i].phase.Holding?
    ensures AllSafe(s, blocks, Step(st, i))
  {
    assert i < |blocks| ==> Safe(s, st, i);
    forall k | 0 <= k < |blocks|
      ensures Safe(s, Step(st, i), k)
    {
      assert Safe(s, st, k);
      ReadSafeAt(s, st, i, k);
    }
  }

  lemma PutSafeSame(s: Store, st: State, i: nat, k: nat)
    requires i < |st.requests| && k < |st.requests| && Safe(s, st, i) && Safe(s, st, k)
    requires st.requests[i].phase.Holding?
    requires st.requests[k].height == st.requests[i].height && st.requests[k].rs == st.requests[i].rs
    ensures Safe(s, Step(st, i), k)
  {
    var st', r := Step(st, i), st.requests[i];
    var p, seen, rs := r.phase.pc, r.phase.seen, r.rs;
    var now := Add(seen, rs[p]);
    PutStep(st, i);
    assert Lookup(st'.store, WriteKey(r.height)) == Some(now);
    AddSound(Items(Lookup(s, WriteKey(r.height))), rs, seen, rs[p]);
    AddHashes(seen, rs[p]);
    assert Has(now, rs[0]) && Has(now, rs[p]);
    if p + 1 < |rs| {
      assert st'.requests[i] == r.(phase := Reading(p + 1));
      assert Pending(st', r.height);
    }
    assert k != i ==> st'.requests[k] == st.requests[k];
  }

  lemma PutSafeOther(s: Store, st: State, i: nat, k: nat)
    requires i < |st.requests| && k < |st.requests| && Safe(s, st, i) && Safe(s, st, k)
    requires st.requests[i].phase.Holding? && st.requests[k].height != st.requests[i].height
    ensures Safe(s, Step(st, i), k)
  {
    var st', r, x := Step(st, i), st.requests[i], st.requests[k];
    KeysApart(r.height, x.height);
    PutStep(st, i);
    assert st'.requests[k] == x;
    assert Lookup(st'.store, WriteKey(x.height)) == Lookup(st.store, WriteKey(x.height));
    StillPending(st, st', x.height);
  }

  lemma PutSafe(s: Store, blocks: seq<Block>, st: State, i: nat)
    requires Consistent(blocks) && AllSafe(s, blocks, st)
    requires i < |blocks| && st.requests[i].phase.Holding?
    ensures AllSafe(s, blocks, Step(st, i))
  {
    var r := st.requests[i];
    assert Safe(s, st, i);
    PutStep(st, i);
    forall k | 0 <= k < |blocks|
      ensures Safe(s, Step(st, i), k)
    {
      assert blocks[i] in blocks && blocks[k] in blocks;
      if st.requests[k].height == r.height {
        PutSafeSame(s, st, i, k);
      } else {
        PutSafeOther(s, st, i, k);
      }
    }
  }

  lemma {:induction false} RunSafe(s: Store, blocks: seq<Block>, schedule: seq<nat>)
    requires Consistent(blocks)
    ensures AllSafe(s, blocks, Run(Start(s, blocks), schedule))
  {
    if schedule == [] {
      StartSafe(s, blocks);
    } else {
      var front, i := schedule[..|schedule| - 1], schedule[|schedule| - 1];
      RunSafe(s, blocks, front);
      var st := Run(Start(s, blocks), front);
      if i < |blocks| && st.requests[i].phase.Holding? {
        PutSafe(s, blocks, st, i);
      } else {
        ReadSafe(s, blocks, st, i);
      }
    }
  }

  /** After any schedule, finished or not, a block's list never repeats a hash it did not
      repeat before, holds nothing foreign and keeps what it held; once no request for its
      height has anything left to put, the block's first and last withdrawals are there. */
  lemma RaceSafety(s: Store, blocks: seq<Block>, schedule: seq<nat>, b: Block)
    requires Consistent(blocks) && b in blocks
    ensures var st := Run(Start(s, blocks), schedule);
      var now := Items(Lookup(st.store, WriteKey(b.height)));
      && Sound(Items(Lookup(s, WriteKey(b.height))), Returns(b.txs), now)
      && (!Pending(st, b.height) ==> HasEnds(now, Returns(b.txs)))
  {
    var st := Run(Start(s, blocks), schedule);
    RunSafe(s, blocks, schedule);
    var i :| 0 <= i < |blocks| && blocks[i] == b;
    assert Safe(s, st, i);
    var r := st.requests[i];
    if !Pending(st, b.height) && r.rs != [] {
      assert r.Pc() == |r.rs|;
    }
  }

  // ---------- What responses show ----------

  /** Request i answered at step t: with what the store held for its height by then. */
  ghost predicate AnsweredAt(st: State, schedule: seq<nat>, i: nat, t: nat)
    requires t <= |schedule|
  {
    var mid, end := Run(st, schedule[..t]), Run(st, schedule);
    && i < |st.requests| && i < |end.requests|
    && end.requests[i].phase == Answered(Lookup(mid.store, ReadKey(st.requests[i].height)))
  }

  lemma StepAnswers(st: State, j: nat, i: nat)
    requires i < |st.requests|
    ensures |Step(st, j).requests| == |st.requests|
    ensures var r, r' := st.requests[i], Step(st, j).requests[i];
      && r'.height == r.height
      && (r.phase.Answered? ==> r' == r)
      && (!r.phase.Answered? && r'.phase.Answered? ==> r'.phase == Answered(Lookup(st.store, ReadKey(r.height))))
  {
  }

  lemma {:induction false} AnsweredWhen(st: State, schedule: seq<nat>, i: nat) returns (t: nat)
    requires i < |st.requests| && !st.requests[i].phase.Answered?
    ensures |Run(st, schedule).requests| == |st.requests|
    ensures Run(st, schedule).requests[i].height == st.requests[i].height
    ensures Run(st, schedule).requests[i].phase.Answered? ==> t < |schedule| && AnsweredAt(st, schedule, i, t)
  {
    t := 0;
    if schedule != [] {
      var n := |schedule| - 1;
      var front := schedule[..n];
      t := AnsweredWhen(st, front, i);
      StepAnswers(Run(st, front), schedule[n], i);
      if Run(st, front).requests[i].phase.Answered? {
        assert front[..t] == schedule[..t];
      } else {
        t := n;
      }
    }
  }

  /** Whatever overlapped, a response shows the stakes seeded for its height, followed by
      distinct withdrawals of the block that withdraws for its height and nothing else; with
      no such block among the requests, it shows the seeded stakes alone. */
  lemma AnswersSound(s: Store, blocks: seq<Block>, schedule: seq<nat>, i: nat)
    requires Consistent(blocks) && i < |blocks|
    ensures var st := Run(Start(s, blocks), schedule);
      var seeded := Items(Lookup(s, ReadKey(blocks[i].height)));
      |st.requests| == |blocks| && (st.requests[i].phase.Answered? ==>
        var shown := Items(st.requests[i].phase.due);
        && (forall b :: b in blocks && DueHeight(b.height) == blocks[i].height ==> Sound(seeded, Returns(b.txs), shown))
        && ((forall b :: b in blocks ==> DueHeight(b.height) != blocks[i].height) ==> shown == seeded))
  {
    var st := Run(Start(s, blocks), schedule);
    var t := AnsweredWhen(Start(s, blocks), schedule, i);
    if st.requests[i].phase.Answered? {
      var h := blocks[i].height;
      forall b | b in blocks && DueHeight(b.height) == h
        ensures Sound(Items(Lookup(s, ReadKey(h))), Returns(b.txs), Items(st.requests[i].phase.due))
      {
        KeysApart(b.height, h);
        RaceSafety(s, blocks, schedule[..t], b);
      }
      if forall b :: b in blocks ==> DueHeight(b.height) != h {
        forall b | b in blocks
          ensures WriteKey(b.height) != ReadKey(h)
        {
          KeysApart(b.height, h);
        }
        UnwrittenKey(s, blocks, schedule[..t], ReadKey(h));
      }
    }
  }

  lemma PcRises(st: State, i: nat, k: nat)
    requires k < |st.requests|
    ensures |Step(st, i).requests| == |st.requests|
    ensures var r, r' := st.requests[k], Step(st, i).requests[k];
      r'.height == r.height && r'.rs == r.rs && (r.Pc() >= |r.rs| ==> r'.Pc() >= |r.rs|)
  {
  }

  lemma PutsStay(st: State, i: nat, h: uint64)
    requires !Pending(st, h)
    ensures !Pending(Step(st, i), h)
  {
    var st' := Step(st, i);
    if Pending(st', h) {
      var k :| 0 <= k < |st'.requests| && st'.requests[k].height == h && st'.requests[k].Pc() < |st'.requests[k].rs|;
      PcRises(st, i, k);
      assert false;
    }
  }

  lemma {:induction false} NeverPendingAgain(st: State, schedule: seq<nat>, h: uint64)
    requires !Pending(st, h)
    ensures !Pending(Run(st, schedule), h)
  {
    if schedule != [] {
      var front, i := schedule[..|schedule| - 1], schedule[|schedule| - 1];
      NeverPendingAgain(st, front, h);
      PutsStay(Run(st, front), i, h);
    }
  }

  /** A response is complete if it came after the last Put of the requests for the height
      that withdraws for it: it has that block's first and last withdrawals, and all of
      them, recorded once, if the heights requested twice are shareable. */
  lemma AnswerComplete(s: Store, blocks: seq<Block>, prefix: seq<nat>, rest: seq<nat>, i: nat, b: Block)
    requires Consistent(blocks) && i < |blocks| && b in blocks && DueHeight(b.height) == blocks[i].height
    requires var mid := Run(Start(s, blocks), prefix);
      |mid.requests| == |blocks| && !mid.requests[i].phase.Answered? && !Pending(mid, b.height)
    ensures var end := Run(Start(s, blocks), prefix + rest);
      var seeded := Lookup(s, ReadKey(blocks[i].height));
      |end.requests| == |blocks| && (end.requests[i].phase.Answered? ==>
        && HasEnds(Items(end.requests[i].phase.due), Returns(b.txs))
        && (Shareable(s, blocks) ==> end.requests[i].phase.due == Record(seeded, Returns(b.txs))))
  {
    var mid := Run(Start(s, blocks), prefix);
    RunSafe(s, blocks, prefix);
    var t := AnsweredWhen(mid, rest, i);
    RunConcat(Start(s, blocks), prefix, rest);
    if Run(mid, rest).requests[i].phase.Answered? {
      RunConcat(Start(s, blocks), prefix, rest[..t]);
      NeverPendingAgain(mid, rest[..t], b.height);
      KeysApart(b.height, blocks[i].height);
      RaceSafety(s, blocks, prefix + rest[..t], b);
      if Shareable(s, blocks) {
        SettledKey(s, blocks, prefix + rest[..t], b);
      }
    }
  }

  /** Every complete schedule of a request that nothing overlaps does what the sequential
      endpoint does. */
  lemma LoneIsBlock(s: Store, b: Block, schedule: seq<nat>)
    requires AllAnswered(Run(Start(s, [b]), schedule))
    ensures var st := Run(Start(s, [b]), schedule);
      && |st.requests| == 1
      && st.store == ServeStore(s, b)
      && Items(st.requests[0].phase.due) == Due(s, b)
  {
    Confluence(s, [b], schedule, [b]);
    assert [b][..0] == [];
    assert StoreAfter(s, [b]) == ServeStore(s, b);
    KeysApart(b.height, b.height);
    AnswersSound(s, [b], schedule, 0);
    ResponseStable(s, b);
  }
}
