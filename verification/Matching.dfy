/** `parser.MatchOperations` of the Rosetta SDK, which is not part of the repository, as the
    adaptor relies on it: every operation takes the first free description it satisfies,
    no operation may be left over and every description must be taken.  What it means to
    satisfy a description is a parameter. */
module Matching {
  import opened Wrappers
  import opened Permutations

  /** No operation satisfies two of the descriptions. */
  ghost predicate Disjoint<Op(!new), D(!new)>(sat: (Op, D) -> bool, ds: seq<D>) {
    forall op, i, j :: 0 <= i < |ds| && 0 <= j < |ds| && sat(op, ds[i]) && sat(op, ds[j]) ==> i == j
  }

  /** The first free description that the operation satisfies, at or after position i. */
  function FirstFree<Op, D>(sat: (Op, D) -> bool, ds: seq<D>, slots: seq<Option<Op>>, op: Op, i: nat): (r: Option<nat>)
    requires i <= |ds| == |slots|
    ensures r.Some? ==> r.value < |ds| && slots[r.value].None? && sat(op, ds[r.value])
    ensures r.None? ==> forall j :: i <= j < |ds| && slots[j].None? ==> !sat(op, ds[j])
    decreases |ds| - i
  {
    if i == |ds| then None
    else if slots[i].None? && sat(op, ds[i]) then Some(i)
    else FirstFree(sat, ds, slots, op, i + 1)
  }

  function Fill<Op, D>(sat: (Op, D) -> bool, ds: seq<D>, slots: seq<Option<Op>>, ops: seq<Op>)
    : (r: Option<seq<Option<Op>>>)
    requires |ds| == |slots|
    ensures r.Some? ==> |r.value| == |ds|
    decreases |ops|
  {
    if ops == [] then Some(slots) else
      var free := FirstFree(sat, ds, slots, ops[0], 0);
      if free.None? then None else Fill(sat, ds, slots[free.value := Some(ops[0])], ops[1..])
  }

  function Match<Op, D>(sat: (Op, D) -> bool, ds: seq<D>, ops: seq<Op>): Option<seq<Op>> {
    var filled := Fill(sat, ds, seq(|ds|, i => None), ops);
    if filled.Some? && forall j :: 0 <= j < |ds| ==> filled.value[j].Some?
    then Some(seq(|ds|, j requires 0 <= j < |ds| => filled.value[j].value))
    else None
  }

  /** m lists the given operations in the order of the descriptions they satisfy. */
  ghost predicate Assignment<Op, D>(sat: (Op, D) -> bool, ds: seq<D>, ops: seq<Op>, m: seq<Op>) {
    && |m| == |ds|
    && multiset(m) == multiset(ops)
    && forall j :: 0 <= j < |ds| ==> sat(m[j], ds[j])
  }

  /** m agrees with the slots already taken and satisfies the descriptions still free. */
  ghost predicate Completes<Op, D>(sat: (Op, D) -> bool, ds: seq<D>, slots: seq<Option<Op>>, m: seq<Op>) {
    && |ds| == |slots| == |m|
    && forall j :: 0 <= j < |m| ==> if slots[j].Some? then slots[j].value == m[j] else sat(m[j], ds[j])
  }

  /** What m puts into the free slots from position i on. */
  ghost function Rest<Op>(slots: seq<Option<Op>>, m: seq<Op>, i: nat): multiset<Op>
    requires i <= |slots| == |m|
    decreases |m| - i
  {
    if i == |m| then multiset{} else
      (if slots[i].None? then multiset{m[i]} else multiset{}) + Rest(slots, m, i + 1)
  }

  lemma {:induction false} RestTake<Op>(slots: seq<Option<Op>>, m: seq<Op>, j: nat, i: nat)
    requires i <= |slots| == |m| && j < |m| && slots[j].None?
    ensures Rest(slots, m, i) == Rest(slots[j := Some(m[j])], m, i) + if i <= j then multiset{m[j]} else multiset{}
    decreases |m| - i
  {
    if i < |m| {
      RestTake(slots, m, j, i + 1);
    }
  }

  lemma {:induction false} RestMember<Op>(slots: seq<Option<Op>>, m: seq<Op>, op: Op, i: nat) returns (j: nat)
    requires i <= |slots| == |m| && op in Rest(slots, m, i)
    ensures j < |m| && slots[j].None? && m[j] == op
    decreases |m| - i
  {
    if slots[i].None? && m[i] == op {
      j := i;
    } else {
      j := RestMember(slots, m, op, i + 1);
    }
  }

  lemma {:induction false} RestAll<Op>(slots: seq<Option<Op>>, m: seq<Op>, i: nat)
    requires i <= |slots| == |m|
    requires forall j :: i <= j < |slots| ==> slots[j].None?
    ensures Rest(slots, m, i) == multiset(m[i..])
    decreases |m| - i
  {
    if i < |m| {
      RestAll(slots, m, i + 1);
      assert m[i..] == [m[i]] + m[i + 1..];
    }
  }

  lemma {:induction false} RestNone<Op>(slots: seq<Option<Op>>, m: seq<Op>, i: nat)
    requires i <= |slots| == |m|
    ensures Rest(slots, m, i) == multiset{} <==> forall j :: i <= j < |slots| ==> slots[j].Some?
    decreases |m| - i
  {
    if i < |m| {
      RestNone(slots, m, i + 1);
      if slots[i].None? {
        assert m[i] in Rest(slots, m, i);
      }
    }
  }

  function Filled<Op>(m: seq<Op>): seq<Option<Op>> {
    seq(|m|, j requires 0 <= j < |m| => Some(m[j]))
  }

  lemma MultisetHead<A>(s: seq<A>)
    requires s != []
    ensures multiset(s) == multiset{s[0]} + multiset(s[1..])
    ensures multiset(s[1..]) == multiset(s) - multiset{s[0]}
  {
    assert s == [s[0]] + s[1..];
  }

  lemma CompletesBefore<Op, D>(sat: (Op, D) -> bool, ds: seq<D>, slots: seq<Option<Op>>, m: seq<Op>, j: nat)
    requires |ds| == |slots| == |m| && j < |m| && slots[j].None? && sat(m[j], ds[j])
    requires Completes(sat, ds, slots[j := Some(m[j])], m)
    ensures Completes(sat, ds, slots, m)
  {
    forall k | 0 <= k < |m|
      ensures if slots[k].Some? then slots[k].value == m[k] else sat(m[k], ds[k])
    {
      assert k != j ==> slots[j := Some(m[j])][k] == slots[k];
    }
  }

  /** If greedy filling ends in m, then m completes the slots by the given operations. */
  lemma {:induction false} FillSound<Op, D>(
    sat: (Op, D) -> bool, ds: seq<D>, slots: seq<Option<Op>>, ops: seq<Op>, m: seq<Op>)
    requires |ds| == |slots| == |m| && Fill(sat, ds, slots, ops) == Some(Filled(m))
    ensures Completes(sat, ds, slots, m) && multiset(ops) == Rest(slots, m, 0)
    decreases |ops|
  {
    if ops == [] {
      RestNone(slots, m, 0);
    } else {
      var j := FirstFree(sat, ds, slots, ops[0], 0).value;
      var slots' := slots[j := Some(ops[0])];
      FillSound(sat, ds, slots', ops[1..], m);
      assert slots'[j].value == m[j] == ops[0];
      RestTake(slots, m, j, 0);
      MultisetHead(ops);
      CompletesBefore(sat, ds, slots, m, j);
    }
  }

  /** If m completes the slots by the given operations, then greedy filling ends in m:
      no operation can take a description that m wants for another. */
  lemma {:induction false} FillComplete<Op(!new), D(!new)>(
    sat: (Op, D) -> bool, ds: seq<D>, slots: seq<Option<Op>>, ops: seq<Op>, m: seq<Op>)
    requires Disjoint(sat, ds) && Completes(sat, ds, slots, m) && multiset(ops) == Rest(slots, m, 0)
    ensures Fill(sat, ds, slots, ops) == Some(Filled(m))
    decreases |ops|
  {
    if ops == [] {
      RestNone(slots, m, 0);
      assert slots == Filled(m);
    } else {
      assert ops[0] in multiset(ops);
      var j := RestMember(slots, m, ops[0], 0);
      assert FirstFree(sat, ds, slots, ops[0], 0) == Some(j);
      RestTake(slots, m, j, 0);
      MultisetHead(ops);
      var slots' := slots[j := Some(m[j])];
      assert multiset(ops[1..]) == Rest(slots', m, 0);
      assert Completes(sat, ds, slots', m);
      FillComplete(sat, ds, slots', ops[1..], m);
    }
  }

  /** Matching succeeds with m exactly when m is an assignment of the operations. */
  lemma MatchIff<Op(!new), D(!new)>(sat: (Op, D) -> bool, ds: seq<D>, ops: seq<Op>, m: seq<Op>)
    requires Disjoint(sat, ds)
    ensures Match(sat, ds, ops) == Some(m) <==> Assignment(sat, ds, ops, m)
  {
    var free := seq(|ds|, i => None);
    if |m| == |ds| {
      RestAll(free, m, 0);
      assert m[0..] == m;
      if Match(sat, ds, ops) == Some(m) {
        assert Fill(sat, ds, free, ops).value == Filled(m);
        FillSound(sat, ds, free, ops, m);
      }
      if Assignment(sat, ds, ops, m) {
        FillComplete(sat, ds, free, ops, m);
        assert Match(sat, ds, ops).value == m;
      }
    }
  }

  /** At most one assignment exists, so the order of the operations does not matter. */
  lemma MatchPermutation<Op(!new), D(!new)>(sat: (Op, D) -> bool, ds: seq<D>, ops: seq<Op>, ops': seq<Op>)
    requires Disjoint(sat, ds) && multiset(ops) == multiset(ops')
    ensures Match(sat, ds, ops) == Match(sat, ds, ops')
  {
    if Match(sat, ds, ops).Some? {
      var m := Match(sat, ds, ops).value;
      MatchIff(sat, ds, ops, m);
      MatchIff(sat, ds, ops', m);
    } else if Match(sat, ds, ops').Some? {
      var m := Match(sat, ds, ops').value;
      MatchIff(sat, ds, ops', m);
      MatchIff(sat, ds, ops, m);
    }
  }

  // ---------- Matching what the descriptions can see ----------

  function MapSlots<Op, C>(f: Op -> C, slots: seq<Option<Op>>): (r: seq<Option<C>>)
    ensures |r| == |slots|
  {
    seq(|slots|, j requires 0 <= j < |slots| => if slots[j].Some? then Some(f(slots[j].value)) else None)
  }

  function MapMatch<Op, C>(f: Op -> C, m: Option<seq<Op>>): Option<seq<C>> {
    if m.Some? then Some(Map(f, m.value)) else None
  }

  /** Satisfying a description depends on the operation only through its image under f. */
  ghost predicate SeenThrough<Op(!new), C, D(!new)>(sat: (Op, D) -> bool, sat': (C, D) -> bool, f: Op -> C) {
    forall op, d :: sat(op, d) <==> sat'(f(op), d)
  }

  lemma {:induction false} FirstFreeMap<Op(!new), C, D(!new)>(
    sat: (Op, D) -> bool, sat': (C, D) -> bool, f: Op -> C, ds: seq<D>, slots: seq<Option<Op>>, op: Op, i: nat)
    requires i <= |ds| == |slots| && SeenThrough(sat, sat', f)
    ensures FirstFree(sat', ds, MapSlots(f, slots), f(op), i) == FirstFree(sat, ds, slots, op, i)
    decreases |ds| - i
  {
    if i < |ds| {
      FirstFreeMap(sat, sat', f, ds, slots, op, i + 1);
    }
  }

  lemma {:induction false} FillMap<Op(!new), C, D(!new)>(
    sat: (Op, D) -> bool, sat': (C, D) -> bool, f: Op -> C, ds: seq<D>, slots: seq<Option<Op>>, ops: seq<Op>)
    requires |ds| == |slots| && SeenThrough(sat, sat', f)
    ensures var r, r' := Fill(sat, ds, slots, ops), Fill(sat', ds, MapSlots(f, slots), Map(f, ops));
      if r.Some? then r' == Some(MapSlots(f, r.value)) else r' == None
    decreases |ops|
  {
    if ops != [] {
      FirstFreeMap(sat, sat', f, ds, slots, ops[0], 0);
      var free := FirstFree(sat, ds, slots, ops[0], 0);
      assert Map(f, ops)[1..] == Map(f, ops[1..]);
      if free.Some? {
        var slots' := slots[free.value := Some(ops[0])];
        assert MapSlots(f, slots)[free.value := Some(f(ops[0]))] == MapSlots(f, slots');
        FillMap(sat, sat', f, ds, slots', ops[1..]);
      }
    }
  }

  /** Matching images gives the images of the match. */
  lemma MatchMap<Op(!new), C, D(!new)>(sat: (Op, D) -> bool, sat': (C, D) -> bool, f: Op -> C, ds: seq<D>, ops: seq<Op>)
    requires SeenThrough(sat, sat', f)
    ensures Match(sat', ds, Map(f, ops)) == MapMatch(f, Match(sat, ds, ops))
  {
    var free: seq<Option<Op>> := seq(|ds|, i => None);
    var free': seq<Option<C>> := seq(|ds|, i => None);
    assert MapSlots(f, free) == free';
    FillMap(sat, sat', f, ds, free, ops);
    var filled, filled' := Fill(sat, ds, free, ops), Fill(sat', ds, free', Map(f, ops));
    if filled.Some? {
      assert forall j :: 0 <= j < |ds| ==> filled'.value[j].Some? == filled.value[j].Some?;
      if Match(sat, ds, ops).Some? {
        assert Match(sat', ds, Map(f, ops)).value == Map(f, Match(sat, ds, ops).value);
      }
    }
  }

  /** Lists whose images are permutations of each other have matches with equal images, or
      none. */
  lemma MatchImages<Op(!new), C(!new), D(!new)>(
    sat: (Op, D) -> bool, sat': (C, D) -> bool, f: Op -> C, ds: seq<D>, ops: seq<Op>, ops': seq<Op>)
    requires SeenThrough(sat, sat', f) && Disjoint(sat', ds)
    requires multiset(Map(f, ops)) == multiset(Map(f, ops'))
    ensures MapMatch(f, Match(sat, ds, ops)) == MapMatch(f, Match(sat, ds, ops'))
  {
    MatchMap(sat, sat', f, ds, ops);
    MatchMap(sat, sat', f, ds, ops');
    MatchPermutation(sat', ds, Map(f, ops), Map(f, ops'));
  }
}
