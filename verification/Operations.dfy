/** Rosetta operations and their meaning as balance changes. */
module Operations {
  import opened Wrappers
  import opened Transactions
  import Decimal

  datatype OpType =
    | SendTxInput | SendTxOutput
    | ReserveFundTxSource | ReleaseFundTxSource
    | SmartContractTxFrom | SmartContractTxTo
    | DepositStakeTxSource | WithdrawStakeTxSource
    | StakeRewardDistributionTxBeneficiary
    | TxFee
    | OtherOp(name: string)

  datatype Amount = Amount(value: string, currency: Currency)

  datatype Metadata = Metadata(sequence: nat, signature: string)

  datatype Operation = Operation(
    index: int,
    related: seq<int>,
    opType: OpType,
    status: Option<string>,
    account: Option<string>,
    amount: Option<Amount>,
    metadata: Option<Metadata>)

  function NewOp(index: int, opType: OpType, status: Option<string>, address: Address, wei: int, currency: Currency)
    : Operation
  {
    Operation(index, [], opType, status, Some(address), Some(Amount(Decimal.Print(wei), currency)), None)
  }

  /** Every operation but the first is related to its predecessor. */
  function Linked(op: Operation): Operation {
    if op.index > 0 then op.(related := [op.index - 1]) else op
  }

  function Account(op: Operation): string {
    op.account.GetOr("")
  }

  /** What one operation adds to account a in currency c; a malformed one adds nothing. */
  function Effect(op: Operation, a: Address, c: Currency): int {
    if op.account == Some(a) && op.amount.Some? && op.amount.value.currency == c
    then Decimal.Parse(op.amount.value.value).GetOr(0)
    else 0
  }

  function Delta(ops: seq<Operation>, a: Address, c: Currency): int {
    if ops == [] then 0 else Delta(ops[..|ops| - 1], a, c) + Effect(ops[|ops| - 1], a, c)
  }

  lemma {:induction false} DeltaConcat(xs: seq<Operation>, ys: seq<Operation>, a: Address, c: Currency)
    ensures Delta(xs + ys, a, c) == Delta(xs, a, c) + Delta(ys, a, c)
  {
    if ys == [] {
      assert xs + ys == xs;
    } else {
      assert (xs + ys)[..|xs + ys| - 1] == xs + ys[..|ys| - 1];
      DeltaConcat(xs, ys[..|ys| - 1], a, c);
    }
  }

  /** Indexes count from zero and every related operation comes earlier, as Rosetta demands. */
  ghost predicate WellFormed(ops: seq<Operation>) {
    forall i :: 0 <= i < |ops| ==>
      && ops[i].index == i
      && forall r :: r in ops[i].related ==> 0 <= r < i
  }

  /** An operation before it has a place in the list.  `related` is what the source puts in
      RelatedOperations when the operation comes first; later ones relate to their predecessor. */
  datatype Draft = Draft(
    opType: OpType,
    account: Address,
    wei: int,
    currency: Currency,
    metadata: Option<Metadata>,
    related: seq<int>)
  {
    function At(i: nat, status: Option<string>): Operation {
      Operation(i, if i > 0 then [i - 1] else related, opType, status,
                Some(account), Some(Amount(Decimal.Print(wei), currency)), metadata)
    }

    function Wei(a: Address, c: Currency): int {
      if account == a && currency == c then wei else 0
    }
  }

  function Number(ds: seq<Draft>, status: Option<string>): seq<Operation> {
    seq(|ds|, i requires 0 <= i < |ds| => ds[i].At(i, status))
  }

  function Sum(ds: seq<Draft>, a: Address, c: Currency): int {
    if ds == [] then 0 else Sum(ds[..|ds| - 1], a, c) + ds[|ds| - 1].Wei(a, c)
  }

  lemma NumberAppend(ds: seq<Draft>, d: Draft, status: Option<string>)
    ensures Number(ds + [d], status) == Number(ds, status) + [d.At(|ds|, status)]
  {
  }

  lemma NumberPair(ds: seq<Draft>, pair: seq<Draft>, status: Option<string>)
    requires |pair| == 2
    ensures Number(ds + pair, status)
         == Number(ds, status) + [pair[0].At(|ds|, status)] + [pair[1].At(|ds| + 1, status)]
  {
  }

  lemma {:induction false} SumConcat(xs: seq<Draft>, ys: seq<Draft>, a: Address, c: Currency)
    ensures Sum(xs + ys, a, c) == Sum(xs, a, c) + Sum(ys, a, c)
  {
    if ys == [] {
      assert xs + ys == xs;
    } else {
      assert (xs + ys)[..|xs + ys| - 1] == xs + ys[..|ys| - 1];
      SumConcat(xs, ys[..|ys| - 1], a, c);
    }
  }

  lemma SumAppend(ds: seq<Draft>, d: Draft, a: Address, c: Currency)
    ensures Sum(ds + [d], a, c) == Sum(ds, a, c) + d.Wei(a, c)
  {
    assert (ds + [d])[..|ds|] == ds;
  }

  lemma SumOne(x: Draft, a: Address, c: Currency)
    ensures Sum([x], a, c) == x.Wei(a, c)
  {
    assert [x][..0] == [];
  }

  lemma SumTwo(x: Draft, y: Draft, a: Address, c: Currency)
    ensures Sum([x, y], a, c) == x.Wei(a, c) + y.Wei(a, c)
  {
    assert [x, y][..1] == [x];
    SumOne(x, a, c);
  }

  lemma EffectAt(d: Draft, i: nat, status: Option<string>, a: Address, c: Currency)
    ensures Effect(d.At(i, status), a, c) == d.Wei(a, c)
  {
    Decimal.ParsePrint(d.wei);
  }

  lemma NumberFront(ds: seq<Draft>, status: Option<string>)
    requires ds != []
    ensures var n, ops := |ds| - 1, Number(ds, status);
      ops[..n] == Number(ds[..n], status) && ops[n] == ds[n].At(n, status)
  {
  }

  /** The printed list means what its drafts mean. */
  lemma {:induction false} DeltaNumber(ds: seq<Draft>, status: Option<string>, a: Address, c: Currency)
    ensures Delta(Number(ds, status), a, c) == Sum(ds, a, c)
  {
    if ds != [] {
      var front, last := ds[..|ds| - 1], ds[|ds| - 1];
      DeltaNumber(front, status, a, c);
      EffectAt(last, |front|, status, a, c);
      NumberFront(ds, status);
    }
  }

  /** A chained list is well formed exactly when its head relates to nothing. */
  lemma WellFormedNumber(ds: seq<Draft>, status: Option<string>)
    ensures WellFormed(Number(ds, status)) <==> (ds == [] || ds[0].related == [])
  {
    var ops := Number(ds, status);
    if ds != [] && ds[0].related != [] {
      var r := ds[0].related[0];
      assert r in ops[0].related && !(0 <= r < 0);
    }
  }

  // ---------- Operation by operation ----------

  /** Numbered from zero, all with the same status, every one but the first related to its
      predecessor alone. */
  ghost predicate Chained(ops: seq<Operation>, status: Option<string>) {
    forall i :: 0 <= i < |ops| ==>
      && ops[i].index == i && ops[i].status == status
      && (i > 0 ==> ops[i].related == [i - 1])
  }

  /** What one operation tells the client, apart from its place in the list. */
  ghost predicate Says(op: Operation, t: OpType, a: Address, wei: int, c: Currency, meta: Option<Metadata>) {
    && op.opType == t && op.account == Some(a) && op.metadata == meta
    && op.amount == Some(Amount(Decimal.Print(wei), c))
  }

  lemma NumberSays(ds: seq<Draft>, status: Option<string>)
    ensures var ops := Number(ds, status);
      && |ops| == |ds| && Chained(ops, status)
      && (ds != [] ==> ops[0].related == ds[0].related)
      && forall i :: 0 <= i < |ds| ==>
        Says(ops[i], ds[i].opType, ds[i].account, ds[i].wei, ds[i].currency, ds[i].metadata)
  {
  }

  ghost predicate IsDraft(d: Draft, t: OpType, a: Address, wei: int, c: Currency, meta: Option<Metadata>) {
    d.opType == t && d.account == a && d.wei == wei && d.currency == c && d.metadata == meta
  }

  lemma SaysAt(
    ds: seq<Draft>, status: Option<string>, i: nat,
    t: OpType, a: Address, wei: int, c: Currency, meta: Option<Metadata>)
    requires i < |ds| && IsDraft(ds[i], t, a, wei, c, meta)
    ensures Says(Number(ds, status)[i], t, a, wei, c, meta)
  {
  }

  /** Balance change by the operations of one type. */
  function TypedDelta(ops: seq<Operation>, t: OpType, a: Address, c: Currency): int {
    if ops == [] then 0 else
      var op := ops[|ops| - 1];
      TypedDelta(ops[..|ops| - 1], t, a, c) + if op.opType == t then Effect(op, a, c) else 0
  }

  function TypedSum(ds: seq<Draft>, t: OpType, a: Address, c: Currency): int {
    if ds == [] then 0 else
      var d := ds[|ds| - 1];
      TypedSum(ds[..|ds| - 1], t, a, c) + if d.opType == t then d.Wei(a, c) else 0
  }

  lemma TypedSumAppend(ds: seq<Draft>, d: Draft, t: OpType, a: Address, c: Currency)
    ensures TypedSum(ds + [d], t, a, c) == TypedSum(ds, t, a, c) + if d.opType == t then d.Wei(a, c) else 0
  {
    assert (ds + [d])[..|ds|] == ds;
  }

  lemma {:induction false} TypedDeltaNumber(ds: seq<Draft>, status: Option<string>, t: OpType, a: Address, c: Currency)
    ensures TypedDelta(Number(ds, status), t, a, c) == TypedSum(ds, t, a, c)
  {
    if ds != [] {
      var front, last := ds[..|ds| - 1], ds[|ds| - 1];
      TypedDeltaNumber(front, status, t, a, c);
      EffectAt(last, |front|, status, a, c);
      NumberFront(ds, status);
    }
  }
}
