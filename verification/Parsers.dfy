/** The other `Parse...Tx` functions: stake, fund, reward and smart-contract transactions
    as lists of operations. */
module Parsers {
  import opened Wrappers
  import opened Transactions
  import opened Operations

  /** The drafts of one account's coins: an operation per coin that is not nil.  The test
      against `big.NewInt(0)` in the source compares pointers and never fails. */
  function CoinDrafts(
    t: OpType, a: Address, theta: Option<int>, tfuel: Option<int>, meta: Option<Metadata>, related: seq<int>
  ): seq<Draft> {
    (if theta.Some? then [Draft(t, a, theta.value, Theta, meta, related)] else []) +
    (if tfuel.Some? then [Draft(t, a, tfuel.value, TFuel, meta, related)] else [])
  }

  function FeeDraft(a: Address, fee: int, related: seq<int>): Draft {
    Draft(TxFee, a, -fee, TFuel, None, related)
  }

  lemma CoinDraftsSum(
    t: OpType, a: Address, theta: Option<int>, tfuel: Option<int>, meta: Option<Metadata>, related: seq<int>,
    b: Address, c: Currency)
    ensures Sum(CoinDrafts(t, a, theta, tfuel, meta, related), b, c)
         == if a == b then Coins(theta, tfuel).Wei(c) else 0
  {
    var x := if theta.Some? then [Draft(t, a, theta.value, Theta, meta, related)] else [];
    var y := if tfuel.Some? then [Draft(t, a, tfuel.value, TFuel, meta, related)] else [];
    SumConcat(x, y, b, c);
    if theta.Some? { SumOne(x[0], b, c); }
    if tfuel.Some? { SumOne(y[0], b, c); }
  }

  /** Paid in TFuel by the given account. */
  function FeePaid(payer: Address, fee: int, a: Address, c: Currency): int {
    if a == payer && c == TFuel then fee else 0
  }

  /** Coins that a transaction field assigns to its account. */
  function Held(owner: Address, coins: Coins, a: Address, c: Currency): int {
    if a == owner then coins.Wei(c) else 0
  }

  ghost predicate BothNil(coins: Coins) {
    coins.theta.None? && coins.tfuel.None?
  }

  function Negated(x: Option<int>): Option<int> {
    if x.Some? then Some(-x.value) else None
  }

  function SourceMeta(x: TxInput): Option<Metadata> {
    Some(Metadata(x.sequence, x.signature))
  }

  /** The two `if coin != nil` blocks that begin most parsers. */
  method CoinOps(
    t: OpType, status: Option<string>, a: Address, theta: Option<int>, tfuel: Option<int>, meta: Option<Metadata>,
    related: seq<int>)
    returns (ops: seq<Operation>)
    ensures ops == Number(CoinDrafts(t, a, theta, tfuel, meta, related), status)
  {
    ops := [];
    var i := 0;
    if theta.Some? {
      var op := Linked(NewOp(i, t, status, a, theta.value, Theta).(metadata := meta, related := related));
      ops := ops + [op];
      i := i + 1;
    }
    if tfuel.Some? {
      var op := Linked(NewOp(i, t, status, a, tfuel.value, TFuel).(metadata := meta, related := related));
      assert op == Draft(t, a, tfuel.value, TFuel, meta, related).At(i, status);
      ops := ops + [op];
    }
  }

  /** One operation per coin that is not nil, Theta first, then the given number of others. */
  ghost predicate ShowsCoins(
    ops: seq<Operation>, t: OpType, a: Address, theta: Option<int>, tfuel: Option<int>, meta: Option<Metadata>,
    others: nat)
  {
    var n := if theta.Some? then 1 else 0;
    && |ops| == n + (if tfuel.Some? then 1 else 0) + others
    && (theta.Some? ==> Says(ops[0], t, a, theta.value, Theta, meta))
    && (tfuel.Some? ==> Says(ops[n], t, a, tfuel.value, TFuel, meta))
  }

  lemma CoinsShown(
    t: OpType, a: Address, theta: Option<int>, tfuel: Option<int>, meta: Option<Metadata>, related: seq<int>,
    rest: seq<Draft>, status: Option<string>)
    ensures var ops := Number(CoinDrafts(t, a, theta, tfuel, meta, related) + rest, status);
      ShowsCoins(ops, t, a, theta, tfuel, meta, |rest|) && Chained(ops, status)
  {
    NumberSays(CoinDrafts(t, a, theta, tfuel, meta, related) + rest, status);
  }

  /** The operations of the coins, and last that of the fee. */
  ghost predicate ShowsCoinsAndFee(
    ops: seq<Operation>, t: OpType, a: Address, theta: Option<int>, tfuel: Option<int>, meta: Option<Metadata>,
    payer: Address, fee: int)
  {
    ShowsCoins(ops, t, a, theta, tfuel, meta, 1) && Says(ops[|ops| - 1], TxFee, payer, -fee, TFuel, None)
  }

  function CoinsAndFeeOps(
    t: OpType, status: Option<string>, a: Address, theta: Option<int>, tfuel: Option<int>, meta: Option<Metadata>,
    related: seq<int>, payer: Address, fee: int, feeRelated: seq<int>
  ): seq<Operation> {
    Number(CoinDrafts(t, a, theta, tfuel, meta, related) + [FeeDraft(payer, fee, feeRelated)], status)
  }

  lemma CoinsAndFeeShown(
    t: OpType, status: Option<string>, a: Address, theta: Option<int>, tfuel: Option<int>, meta: Option<Metadata>,
    related: seq<int>, payer: Address, fee: int, feeRelated: seq<int>)
    ensures var ops := CoinsAndFeeOps(t, status, a, theta, tfuel, meta, related, payer, fee, feeRelated);
      && ShowsCoinsAndFee(ops, t, a, theta, tfuel, meta, payer, fee) && Chained(ops, status)
      && ops[0].related == if theta.None? && tfuel.None? then feeRelated else related
  {
    CoinsShown(t, a, theta, tfuel, meta, related, [FeeDraft(payer, fee, feeRelated)], status);
    NumberSays(CoinDrafts(t, a, theta, tfuel, meta, related) + [FeeDraft(payer, fee, feeRelated)], status);
  }

  lemma CoinDraftsHeld(
    t: OpType, a: Address, theta: Option<int>, tfuel: Option<int>, meta: Option<Metadata>, related: seq<int>,
    b: Address, c: Currency)
    ensures Sum(CoinDrafts(t, a, theta, tfuel, meta, related), b, c) == Held(a, Coins(theta, tfuel), b, c)
  {
    CoinDraftsSum(t, a, theta, tfuel, meta, related, b, c);
  }

  lemma FeeWei(payer: Address, fee: int, related: seq<int>, a: Address, c: Currency)
    ensures FeeDraft(payer, fee, related).Wei(a, c) == -FeePaid(payer, fee, a, c)
  {
  }

  lemma CoinsAndFeeSum(
    t: OpType, a: Address, theta: Option<int>, tfuel: Option<int>, meta: Option<Metadata>, related: seq<int>,
    payer: Address, fee: int, feeRelated: seq<int>, b: Address, c: Currency)
    ensures Sum(CoinDrafts(t, a, theta, tfuel, meta, related) + [FeeDraft(payer, fee, feeRelated)], b, c)
         == Held(a, Coins(theta, tfuel), b, c) - FeePaid(payer, fee, b, c)
  {
    SumAppend(CoinDrafts(t, a, theta, tfuel, meta, related), FeeDraft(payer, fee, feeRelated), b, c);
    CoinDraftsHeld(t, a, theta, tfuel, meta, related, b, c);
    FeeWei(payer, fee, feeRelated, b, c);
  }

  lemma CoinsAndFeeMeaning(
    t: OpType, status: Option<string>, a: Address, theta: Option<int>, tfuel: Option<int>, meta: Option<Metadata>,
    related: seq<int>, payer: Address, fee: int, feeRelated: seq<int>, b: Address, c: Currency)
    ensures Delta(CoinsAndFeeOps(t, status, a, theta, tfuel, meta, related, payer, fee, feeRelated), b, c)
         == Held(a, Coins(theta, tfuel), b, c) - FeePaid(payer, fee, b, c)
  {
    CoinsAndFeeSum(t, a, theta, tfuel, meta, related, payer, fee, feeRelated, b, c);
    DeltaNumber(CoinDrafts(t, a, theta, tfuel, meta, related) + [FeeDraft(payer, fee, feeRelated)], status, b, c);
  }

  /** Coins of one account followed by the fee of a payer: the common shape. */
  method CoinsAndFee(
    t: OpType, status: Option<string>, a: Address, theta: Option<int>, tfuel: Option<int>, meta: Option<Metadata>,
    related: seq<int>, payer: Address, fee: int, feeRelated: seq<int>)
    returns (ops: seq<Operation>)
    ensures ops == CoinsAndFeeOps(t, status, a, theta, tfuel, meta, related, payer, fee, feeRelated)
    ensures ShowsCoinsAndFee(ops, t, a, theta, tfuel, meta, payer, fee) && Chained(ops, status)
    ensures ops[0].related == if theta.None? && tfuel.None? then feeRelated else related
    ensures forall b, c :: Delta(ops, b, c) == Held(a, Coins(theta, tfuel), b, c) - FeePaid(payer, fee, b, c)
    ensures WellFormed(ops) <==> (if theta.None? && tfuel.None? then feeRelated else related) == []
  {
    ghost var ds, last := CoinDrafts(t, a, theta, tfuel, meta, related), FeeDraft(payer, fee, feeRelated);
    ops := CoinOps(t, status, a, theta, tfuel, meta, related);
    var op := Linked(NewOp(|ops|, TxFee, status, payer, -fee, TFuel).(related := feeRelated));
    assert op == last.At(|ops|, status);
    NumberAppend(ds, last, status);
    ops := ops + [op];
    WellFormedNumber(ds + [last], status);
    CoinsAndFeeShown(t, status, a, theta, tfuel, meta, related, payer, fee, feeRelated);
    forall b, c
      ensures Delta(ops, b, c) == Held(a, Coins(theta, tfuel), b, c) - FeePaid(payer, fee, b, c)
    {
      CoinsAndFeeMeaning(t, status, a, theta, tfuel, meta, related, payer, fee, feeRelated, b, c);
    }
  }

  method ParseReserveFundTx(tx: SourceTx, status: Option<string>) returns (ops: seq<Operation>)
    requires tx.fee.tfuel.Some?
    ensures ShowsCoinsAndFee(
      ops, ReserveFundTxSource, tx.source.address, Negated(tx.source.coins.theta), Negated(tx.source.coins.tfuel),
      Some(Metadata(tx.source.sequence, tx.source.signature)), tx.source.address, tx.fee.tfuel.value)
    ensures Chained(ops, status) && ops[0].related == if BothNil(tx.source.coins) then [1] else []
    ensures forall a, c ::
      Delta(ops, a, c) == -Held(tx.source.address, tx.source.coins, a, c)
      - FeePaid(tx.source.address, tx.fee.tfuel.value, a, c)
    ensures WellFormed(ops) <==> !BothNil(tx.source.coins)
  {
    var x := tx.source;
    ops := CoinsAndFee(ReserveFundTxSource, status, x.address, Negated(x.coins.theta), Negated(x.coins.tfuel),
                       SourceMeta(x), [], x.address, tx.fee.tfuel.value, [1]);
  }

  /** The released Theta is credited, but the released TFuel is debited, so the list is a
      refund minus the fee exactly when no TFuel is released. */
  method ParseReleaseFundTx(tx: SourceTx, status: Option<string>) returns (ops: seq<Operation>)
    requires tx.fee.tfuel.Some?
    ensures ShowsCoinsAndFee(
      ops, ReleaseFundTxSource, tx.source.address, tx.source.coins.theta, Negated(tx.source.coins.tfuel),
      Some(Metadata(tx.source.sequence, tx.source.signature)), tx.source.address, tx.fee.tfuel.value)
    ensures Chained(ops, status) && ops[0].related == if BothNil(tx.source.coins) then [1] else []
    ensures forall a, c ::
      Delta(ops, a, c) == (if c == TFuel then -1 else 1) * Held(tx.source.address, tx.source.coins, a, c)
      - FeePaid(tx.source.address, tx.fee.tfuel.value, a, c)
    ensures tx.source.coins.Wei(TFuel) == 0 <==> forall a, c ::
      Delta(ops, a, c) == Held(tx.source.address, tx.source.coins, a, c)
      - FeePaid(tx.source.address, tx.fee.tfuel.value, a, c)
    ensures WellFormed(ops) <==> !BothNil(tx.source.coins)
  {
    var x := tx.source;
    ops := CoinsAndFee(ReleaseFundTxSource, status, x.address, x.coins.theta, Negated(x.coins.tfuel),
                       SourceMeta(x), [], x.address, tx.fee.tfuel.value, [1]);
    assert Delta(ops, x.address, TFuel) == -x.coins.Wei(TFuel) - tx.fee.tfuel.value;
  }

  method ParseDepositStakeTx(tx: SourceTx, status: Option<string>) returns (ops: seq<Operation>)
    requires tx.fee.tfuel.Some?
    ensures ShowsCoinsAndFee(
      ops, DepositStakeTxSource, tx.source.address, Negated(tx.source.coins.theta), Negated(tx.source.coins.tfuel),
      Some(Metadata(tx.source.sequence, tx.source.signature)), tx.source.address, tx.fee.tfuel.value)
    ensures Chained(ops, status)
    ensures forall a, c ::
      Delta(ops, a, c) == -Held(tx.source.address, tx.source.coins, a, c)
      - FeePaid(tx.source.address, tx.fee.tfuel.value, a, c)
    ensures WellFormed(ops)
  {
    var x := tx.source;
    ops := CoinsAndFee(DepositStakeTxSource, status, x.address, Negated(x.coins.theta), Negated(x.coins.tfuel),
                       SourceMeta(x), [], x.address, tx.fee.tfuel.value, []);
  }

  method ParseStakeRewardDistributionTx(tx: RewardTx, status: Option<string>) returns (ops: seq<Operation>)
    requires tx.fee.tfuel.Some?
    ensures ShowsCoinsAndFee(
      ops, StakeRewardDistributionTxBeneficiary, tx.beneficiary.address,
      tx.beneficiary.coins.theta, tx.beneficiary.coins.tfuel, None, tx.holder, tx.fee.tfuel.value)
    ensures Chained(ops, status) && ops[0].related == if BothNil(tx.beneficiary.coins) then [] else [-1]
    ensures forall a, c ::
      Delta(ops, a, c) == Held(tx.beneficiary.address, tx.beneficiary.coins, a, c)
      - FeePaid(tx.holder, tx.fee.tfuel.value, a, c)
    ensures WellFormed(ops) <==> BothNil(tx.beneficiary.coins)
  {
    var x := tx.beneficiary;
    ops := CoinsAndFee(StakeRewardDistributionTxBeneficiary, status, x.address, x.coins.theta, x.coins.tfuel,
                       None, [-1], tx.holder, tx.fee.tfuel.value, []);
  }

  // ---------- Stake withdrawals ----------

  function WithdrawOps(tx: WithdrawStakeTx, status: Option<string>): seq<Operation>
    requires tx.fee.tfuel.Some?
  {
    Number([FeeDraft(tx.source.address, tx.fee.tfuel.value, [])], status)
  }

  lemma WithdrawShown(tx: WithdrawStakeTx, status: Option<string>)
    requires tx.fee.tfuel.Some?
    ensures var ops := WithdrawOps(tx, status);
      && |ops| == 1 && Chained(ops, status)
      && Says(ops[0], TxFee, tx.source.address, -tx.fee.tfuel.value, TFuel, None)
  {
    NumberSays([FeeDraft(tx.source.address, tx.fee.tfuel.value, [])], status);
  }

  /** Withdrawing moves no stake yet: only the fee is charged. */
  method ParseWithdrawStakeTx(tx: WithdrawStakeTx, status: Option<string>) returns (ops: seq<Operation>)
    requires tx.fee.tfuel.Some?
    ensures ops == WithdrawOps(tx, status) && WellFormed(ops) && Chained(ops, status)
    ensures |ops| == 1 && Says(ops[0], TxFee, tx.source.address, -tx.fee.tfuel.value, TFuel, None)
    ensures forall a, c :: Delta(ops, a, c) == -FeePaid(tx.source.address, tx.fee.tfuel.value, a, c)
  {
    ops := [NewOp(0, TxFee, status, tx.source.address, -tx.fee.tfuel.value, TFuel)];
    ghost var fee := FeeDraft(tx.source.address, tx.fee.tfuel.value, []);
    WellFormedNumber([fee], status);
    WithdrawShown(tx, status);
    forall a, c
      ensures Delta(ops, a, c) == -FeePaid(tx.source.address, tx.fee.tfuel.value, a, c)
    {
      DeltaNumber([fee], status, a, c);
      SumOne(fee, a, c);
    }
  }

  function ReturnOps(tx: WithdrawStakeTx, status: Option<string>): seq<Operation> {
    var x := tx.source;
    Number(CoinDrafts(WithdrawStakeTxSource, x.address, x.coins.theta, x.coins.tfuel, SourceMeta(x), []), status)
  }

  lemma ReturnShown(tx: WithdrawStakeTx, status: Option<string>)
    ensures Chained(ReturnOps(tx, status), status)
    ensures ShowsCoins(ReturnOps(tx, status), WithdrawStakeTxSource, tx.source.address,
                       tx.source.coins.theta, tx.source.coins.tfuel,
                       Some(Metadata(tx.source.sequence, tx.source.signature)), 0)
  {
    var x := tx.source;
    var ds := CoinDrafts(WithdrawStakeTxSource, x.address, x.coins.theta, x.coins.tfuel, SourceMeta(x), []);
    CoinsShown(WithdrawStakeTxSource, x.address, x.coins.theta, x.coins.tfuel, SourceMeta(x), [], [], status);
    assert ds + [] == ds;
  }

  method ParseReturnStakeTx(tx: WithdrawStakeTx, status: Option<string>) returns (ops: seq<Operation>)
    ensures ops == ReturnOps(tx, status) && Chained(ops, status)
    ensures ShowsCoins(ops, WithdrawStakeTxSource, tx.source.address, tx.source.coins.theta, tx.source.coins.tfuel,
                       Some(Metadata(tx.source.sequence, tx.source.signature)), 0)
  {
    var x := tx.source;
    ReturnShown(tx, status);
    ops := CoinOps(WithdrawStakeTxSource, status, x.address, x.coins.theta, x.coins.tfuel, SourceMeta(x), []);
  }

  /** A returned stake credits its source with the stake's coins, whether a zero coin is
      stored as nil or as zero. */
  lemma ReturnMeaning(tx: WithdrawStakeTx, status: Option<string>, a: Address, c: Currency)
    ensures Delta(ReturnOps(tx, status), a, c) == Held(tx.source.address, tx.source.coins, a, c)
    ensures WellFormed(ReturnOps(tx, status))
  {
    var x := tx.source;
    var ds := CoinDrafts(WithdrawStakeTxSource, x.address, x.coins.theta, x.coins.tfuel, SourceMeta(x), []);
    DeltaNumber(ds, status, a, c);
    CoinDraftsSum(WithdrawStakeTxSource, x.address, x.coins.theta, x.coins.tfuel, SourceMeta(x), [], a, c);
    WellFormedNumber(ds, status);
  }

  // ---------- Smart contracts ----------

  /** What one change does: token type 0 is Theta, 1 is TFuel, others move neither. */
  function Change(x: BalanceChange, a: Address, c: Currency): int {
    if x.address == a && ((x.tokenType == 0 && c == Theta) || (x.tokenType == 1 && c == TFuel))
    then if x.isNegative then -x.delta else x.delta
    else 0
  }

  /** The chain's own record. */
  function ChangeSum(changes: seq<BalanceChange>, a: Address, c: Currency): int {
    if changes == [] then 0 else
      ChangeSum(changes[..|changes| - 1], a, c) + Change(changes[|changes| - 1], a, c)
  }

  function ChangeDraft(x: BalanceChange): Draft {
    var currency := if x.tokenType == 0 then Theta else TFuel;
    if x.isNegative then Draft(SmartContractTxFrom, x.address, -x.delta, currency, None, [])
    else Draft(SmartContractTxTo, x.address, x.delta, currency, None, [])
  }

  /** Changes of token types 0 and 1, in order. */
  function ChangeDrafts(changes: seq<BalanceChange>): (ds: seq<Draft>)
    ensures ds != [] ==> ds[0].related == []
  {
    if changes == [] then [] else
      var front, x := ChangeDrafts(changes[..|changes| - 1]), changes[|changes| - 1];
      if x.tokenType > 1 then front else front + [ChangeDraft(x)]
  }

  lemma ChangeDraftWei(x: BalanceChange, a: Address, c: Currency)
    ensures Change(x, a, c) == if x.tokenType > 1 then 0 else ChangeDraft(x).Wei(a, c)
  {
  }

  lemma {:induction false} ChangeDraftsSum(changes: seq<BalanceChange>, a: Address, c: Currency)
    ensures Sum(ChangeDrafts(changes), a, c) == ChangeSum(changes, a, c)
  {
    if changes != [] {
      var front, x := changes[..|changes| - 1], changes[|changes| - 1];
      ChangeDraftsSum(front, a, c);
      ChangeDraftWei(x, a, c);
      if x.tokenType <= 1 {
        SumConcat(ChangeDrafts(front), [ChangeDraft(x)], a, c);
        SumOne(ChangeDraft(x), a, c);
      }
    }
  }

  lemma ChangeStep(changes: seq<BalanceChange>, k: nat, status: Option<string>)
    requires k < |changes|
    ensures var ops, x := Number(ChangeDrafts(changes[..k]), status), changes[k];
      Number(ChangeDrafts(changes[..k + 1]), status)
        == if x.tokenType > 1 then ops else ops + [ChangeDraft(x).At(|ops|, status)]
  {
    assert changes[..k + 1][..k] == changes[..k];
    NumberAppend(ChangeDrafts(changes[..k]), ChangeDraft(changes[k]), status);
  }

  /** The operation for one change of token type 0 or 1. */
  method ChangeOp(i: nat, x: BalanceChange, status: Option<string>) returns (op: Operation)
    requires x.tokenType <= 1
    ensures op == ChangeDraft(x).At(i, status)
  {
    var currency := if x.tokenType == 0 then Theta else TFuel;
    var amount, opType := x.delta, SmartContractTxTo;
    if x.isNegative {
      amount, opType := -x.delta, SmartContractTxFrom;
    }
    op := Linked(NewOp(i, opType, status, x.address, amount, currency));
  }

  /** The loop over the balance changes, which skips unknown token types. */
  method ChangeOps(changes: seq<BalanceChange>, status: Option<string>) returns (ops: seq<Operation>)
    ensures ops == Number(ChangeDrafts(changes), status)
  {
    ops := [];
    var i := 0;
    for k := 0 to |changes|
      invariant i == |ops| && ops == Number(ChangeDrafts(changes[..k]), status)
    {
      ChangeStep(changes, k, status);
      if changes[k].tokenType > 1 {
        continue;
      }
      var op := ChangeOp(i, changes[k], status);
      ops := ops + [op];
      i := i + 1;
    }
    assert changes[..|changes|] == changes;
  }

  /** The changes, and the gas unless none was used. */
  function ExecutionDrafts(tx: SmartContractTx, gasUsed: nat, changes: seq<BalanceChange>): (ds: seq<Draft>)
    ensures ds != [] ==> ds[0].related == []
  {
    ChangeDrafts(changes) + if gasUsed == 0 then [] else [FeeDraft(tx.from.address, tx.gasPrice * gasUsed, [])]
  }

  /** Changes that are printed: token type 0 is Theta, 1 is TFuel, others are skipped. */
  function KnownChanges(changes: seq<BalanceChange>): seq<BalanceChange> {
    if changes == [] then [] else
      var front, x := KnownChanges(changes[..|changes| - 1]), changes[|changes| - 1];
      if x.tokenType == 0 || x.tokenType == 1 then front + [x] else front
  }

  lemma {:induction false} ChangeDraftsAt(changes: seq<BalanceChange>)
    ensures |ChangeDrafts(changes)| == |KnownChanges(changes)|
    ensures forall k :: 0 <= k < |KnownChanges(changes)| ==>
      ChangeDrafts(changes)[k] == ChangeDraft(KnownChanges(changes)[k]) && KnownChanges(changes)[k].tokenType <= 1
  {
    if changes != [] {
      ChangeDraftsAt(changes[..|changes| - 1]);
    }
  }

  /** A change is printed as a debit of type From or a credit of type To. */
  ghost predicate ShowsChange(op: Operation, x: BalanceChange) {
    var c := if x.tokenType == 0 then Theta else TFuel;
    if x.isNegative then Says(op, SmartContractTxFrom, x.address, -x.delta, c, None)
    else Says(op, SmartContractTxTo, x.address, x.delta, c, None)
  }

  /** Operation k is change k of those that are printed, and the gas comes last, if any. */
  ghost predicate ShowsExecution(
    ops: seq<Operation>, payer: Address, gas: int, gasUsed: nat, changes: seq<BalanceChange>)
  {
    var known := KnownChanges(changes);
    && |ops| == |known| + (if gasUsed == 0 then 0 else 1)
    && (forall k :: 0 <= k < |known| ==> ShowsChange(ops[k], known[k]))
    && (gasUsed != 0 ==> Says(ops[|known|], TxFee, payer, -gas, TFuel, None))
  }

  lemma ChangeShown(x: BalanceChange, i: nat, status: Option<string>)
    requires x.tokenType <= 1
    ensures ShowsChange(ChangeDraft(x).At(i, status), x)
  {
  }

  lemma ChangesShown(tx: SmartContractTx, gasUsed: nat, changes: seq<BalanceChange>, status: Option<string>)
    ensures var known, ops := KnownChanges(changes), Number(ExecutionDrafts(tx, gasUsed, changes), status);
      |known| <= |ops| && forall k :: 0 <= k < |known| ==> ShowsChange(ops[k], known[k])
  {
    var known, ds := KnownChanges(changes), ExecutionDrafts(tx, gasUsed, changes);
    ChangeDraftsAt(changes);
    forall k | 0 <= k < |known|
      ensures ShowsChange(Number(ds, status)[k], known[k])
    {
      assert ds[k] == ChangeDraft(known[k]);
      ChangeShown(known[k], k, status);
    }
  }

  lemma GasShown(tx: SmartContractTx, gasUsed: nat, changes: seq<BalanceChange>, status: Option<string>)
    ensures var n, ops := |KnownChanges(changes)|, Number(ExecutionDrafts(tx, gasUsed, changes), status);
      && |ops| == n + (if gasUsed == 0 then 0 else 1)
      && (gasUsed != 0 ==> Says(ops[n], TxFee, tx.from.address, -(tx.gasPrice * gasUsed), TFuel, None))
  {
    ChangeDraftsAt(changes);
  }

  lemma ExecutionShown(tx: SmartContractTx, gasUsed: nat, changes: seq<BalanceChange>, status: Option<string>)
    ensures var ops := Number(ExecutionDrafts(tx, gasUsed, changes), status);
      ShowsExecution(ops, tx.from.address, tx.gasPrice * gasUsed, gasUsed, changes) && Chained(ops, status)
  {
    ChangesShown(tx, gasUsed, changes, status);
    GasShown(tx, gasUsed, changes, status);
    NumberSays(ExecutionDrafts(tx, gasUsed, changes), status);
  }

  /** What the chain took from an account, and what it gave it. */
  function Taken(changes: seq<BalanceChange>, a: Address, c: Currency): int {
    if changes == [] then 0 else
      var x := changes[|changes| - 1];
      Taken(changes[..|changes| - 1], a, c) + if x.isNegative then Change(x, a, c) else 0
  }

  function Given(changes: seq<BalanceChange>, a: Address, c: Currency): int {
    if changes == [] then 0 else
      var x := changes[|changes| - 1];
      Given(changes[..|changes| - 1], a, c) + if x.isNegative then 0 else Change(x, a, c)
  }

  lemma {:induction false} ChangesByType(changes: seq<BalanceChange>, a: Address, c: Currency)
    ensures TypedSum(ChangeDrafts(changes), SmartContractTxFrom, a, c) == Taken(changes, a, c)
    ensures TypedSum(ChangeDrafts(changes), SmartContractTxTo, a, c) == Given(changes, a, c)
  {
    if changes != [] {
      var front, x := changes[..|changes| - 1], changes[|changes| - 1];
      ChangesByType(front, a, c);
      ChangeDraftWei(x, a, c);
      if x.tokenType <= 1 {
        TypedSumAppend(ChangeDrafts(front), ChangeDraft(x), SmartContractTxFrom, a, c);
        TypedSumAppend(ChangeDrafts(front), ChangeDraft(x), SmartContractTxTo, a, c);
      }
    }
  }

  /** The From operations alone are what the chain took, and the To operations alone what it
      gave; the gas is neither. */
  lemma ExecutionByType(
    tx: SmartContractTx, gasUsed: nat, changes: seq<BalanceChange>, status: Option<string>, a: Address, c: Currency)
    ensures var ops := Number(ExecutionDrafts(tx, gasUsed, changes), status);
      && TypedDelta(ops, SmartContractTxFrom, a, c) == Taken(changes, a, c)
      && TypedDelta(ops, SmartContractTxTo, a, c) == Given(changes, a, c)
  {
    var ds, fee := ExecutionDrafts(tx, gasUsed, changes), FeeDraft(tx.from.address, tx.gasPrice * gasUsed, []);
    TypedDeltaNumber(ds, status, SmartContractTxFrom, a, c);
    TypedDeltaNumber(ds, status, SmartContractTxTo, a, c);
    ChangesByType(changes, a, c);
    TypedSumAppend(ChangeDrafts(changes), fee, SmartContractTxFrom, a, c);
    TypedSumAppend(ChangeDrafts(changes), fee, SmartContractTxTo, a, c);
    assert gasUsed == 0 ==> ds == ChangeDrafts(changes);
  }

  lemma GasSum(changes: seq<BalanceChange>, payer: Address, fee: int, a: Address, c: Currency)
    ensures Sum(ChangeDrafts(changes) + [FeeDraft(payer, fee, [])], a, c)
         == ChangeSum(changes, a, c) - FeePaid(payer, fee, a, c)
  {
    SumAppend(ChangeDrafts(changes), FeeDraft(payer, fee, []), a, c);
    FeeWei(payer, fee, [], a, c);
    ChangeDraftsSum(changes, a, c);
  }

  lemma ExecutionSum(tx: SmartContractTx, gasUsed: nat, changes: seq<BalanceChange>, a: Address, c: Currency)
    ensures Sum(ExecutionDrafts(tx, gasUsed, changes), a, c)
         == ChangeSum(changes, a, c) - FeePaid(tx.from.address, tx.gasPrice * gasUsed, a, c)
  {
    if gasUsed == 0 {
      assert ExecutionDrafts(tx, gasUsed, changes) == ChangeDrafts(changes);
      ChangeDraftsSum(changes, a, c);
    } else {
      GasSum(changes, tx.from.address, tx.gasPrice * gasUsed, a, c);
    }
  }

  lemma ExecutionMeaning(
    tx: SmartContractTx, gasUsed: nat, changes: seq<BalanceChange>, status: Option<string>, a: Address, c: Currency)
    ensures Delta(Number(ExecutionDrafts(tx, gasUsed, changes), status), a, c)
         == ChangeSum(changes, a, c) - FeePaid(tx.from.address, tx.gasPrice * gasUsed, a, c)
  {
    ExecutionSum(tx, gasUsed, changes, a, c);
    DeltaNumber(ExecutionDrafts(tx, gasUsed, changes), status, a, c);
  }

  /** An execution's operations change every account exactly as the chain's record says,
      with the gas paid by the sender. */
  method ParseSmartContractTx(
    tx: SmartContractTx, status: Option<string>, gasUsed: nat, changes: seq<BalanceChange>)
    returns (ops: seq<Operation>)
    ensures ops == Number(ExecutionDrafts(tx, gasUsed, changes), status)
    ensures ShowsExecution(ops, tx.from.address, tx.gasPrice * gasUsed, gasUsed, changes) && Chained(ops, status)
    ensures forall a, c ::
      && TypedDelta(ops, SmartContractTxFrom, a, c) == Taken(changes, a, c)
      && TypedDelta(ops, SmartContractTxTo, a, c) == Given(changes, a, c)
    ensures forall a, c ::
      Delta(ops, a, c) == ChangeSum(changes, a, c) - FeePaid(tx.from.address, tx.gasPrice * gasUsed, a, c)
    ensures WellFormed(ops)
  {
    var txFee := tx.gasPrice * gasUsed;
    ops := ChangeOps(changes, status);
    if gasUsed != 0 {
      var op := Linked(NewOp(|ops|, TxFee, status, tx.from.address, -txFee, TFuel));
      assert op == FeeDraft(tx.from.address, txFee, []).At(|ops|, status);
      NumberAppend(ChangeDrafts(changes), FeeDraft(tx.from.address, txFee, []), status);
      ops := ops + [op];
    }
    assert ops == Number(ExecutionDrafts(tx, gasUsed, changes), status);
    WellFormedNumber(ExecutionDrafts(tx, gasUsed, changes), status);
    ExecutionShown(tx, gasUsed, changes, status);
    forall a, c
      ensures TypedDelta(ops, SmartContractTxFrom, a, c) == Taken(changes, a, c)
      ensures TypedDelta(ops, SmartContractTxTo, a, c) == Given(changes, a, c)
    {
      ExecutionByType(tx, gasUsed, changes, status, a, c);
    }
    forall a, c
      ensures Delta(ops, a, c) == ChangeSum(changes, a, c) - FeePaid(tx.from.address, txFee, a, c)
    {
      ExecutionMeaning(tx, gasUsed, changes, status, a, c);
    }
  }

  // ---------- Smart contracts under construction ----------

  /** A coin that is nil or zero yields no operation here. */
  function Nonzero(x: Option<int>): Option<int> {
    if x == Some(0) then None else x
  }

  function CallerDrafts(x: TxInput): seq<Draft> {
    CoinDrafts(SmartContractTxFrom, x.address, Negated(Nonzero(x.coins.theta)), Negated(Nonzero(x.coins.tfuel)),
               SourceMeta(x), [])
  }

  function CalleeDrafts(x: TxOutput): seq<Draft> {
    CoinDrafts(SmartContractTxTo, x.address, Nonzero(x.coins.theta), Nonzero(x.coins.tfuel), None, [])
  }

  function ContractDrafts(tx: SmartContractTx): seq<Draft> {
    CallerDrafts(tx.from) + CalleeDrafts(tx.to)
  }

  ghost predicate Moves(x: Option<int>) {
    x.Some? && x.value != 0
  }

  /** The coins that move something, each with an operation: the caller's, then the callee's. */
  ghost predicate ShowsCall(ops: seq<Operation>, x: TxInput, y: TxOutput) {
    var meta := Some(Metadata(x.sequence, x.signature));
    var i := if Moves(x.coins.theta) then 1 else 0;
    var j := i + if Moves(x.coins.tfuel) then 1 else 0;
    var k := j + if Moves(y.coins.theta) then 1 else 0;
    && |ops| == k + (if Moves(y.coins.tfuel) then 1 else 0)
    && (Moves(x.coins.theta) ==> Says(ops[0], SmartContractTxFrom, x.address, -x.coins.theta.value, Theta, meta))
    && (Moves(x.coins.tfuel) ==> Says(ops[i], SmartContractTxFrom, x.address, -x.coins.tfuel.value, TFuel, meta))
    && (Moves(y.coins.theta) ==> Says(ops[j], SmartContractTxTo, y.address, y.coins.theta.value, Theta, None))
    && (Moves(y.coins.tfuel) ==> Says(ops[k], SmartContractTxTo, y.address, y.coins.tfuel.value, TFuel, None))
  }

  lemma CallerDraftsAt(x: TxInput)
    ensures var ds, meta := CallerDrafts(x), Some(Metadata(x.sequence, x.signature));
      var i := if Moves(x.coins.theta) then 1 else 0;
      && |ds| == i + (if Moves(x.coins.tfuel) then 1 else 0)
      && (Moves(x.coins.theta) ==> IsDraft(ds[0], SmartContractTxFrom, x.address, -x.coins.theta.value, Theta, meta))
      && (Moves(x.coins.tfuel) ==> IsDraft(ds[i], SmartContractTxFrom, x.address, -x.coins.tfuel.value, TFuel, meta))
  {
  }

  lemma CalleeDraftsAt(y: TxOutput)
    ensures var ds, i := CalleeDrafts(y), if Moves(y.coins.theta) then 1 else 0;
      && |ds| == i + (if Moves(y.coins.tfuel) then 1 else 0)
      && (Moves(y.coins.theta) ==> IsDraft(ds[0], SmartContractTxTo, y.address, y.coins.theta.value, Theta, None))
      && (Moves(y.coins.tfuel) ==> IsDraft(ds[i], SmartContractTxTo, y.address, y.coins.tfuel.value, TFuel, None))
  {
  }

  lemma AtConcat(xs: seq<Draft>, ys: seq<Draft>)
    ensures forall i :: 0 <= i < |xs| ==> (xs + ys)[i] == xs[i]
    ensures forall i :: 0 <= i < |ys| ==> (xs + ys)[|xs| + i] == ys[i]
  {
  }

  lemma CallDraftsAt(tx: SmartContractTx)
    ensures var x, y, ds := tx.from, tx.to, ContractDrafts(tx);
      var meta := Some(Metadata(x.sequence, x.signature));
      var i := if Moves(x.coins.theta) then 1 else 0;
      var j := i + if Moves(x.coins.tfuel) then 1 else 0;
      var k := j + if Moves(y.coins.theta) then 1 else 0;
      && |ds| == k + (if Moves(y.coins.tfuel) then 1 else 0)
      && (Moves(x.coins.theta) ==> IsDraft(ds[0], SmartContractTxFrom, x.address, -x.coins.theta.value, Theta, meta))
      && (Moves(x.coins.tfuel) ==> IsDraft(ds[i], SmartContractTxFrom, x.address, -x.coins.tfuel.value, TFuel, meta))
      && (Moves(y.coins.theta) ==> IsDraft(ds[j], SmartContractTxTo, y.address, y.coins.theta.value, Theta, None))
      && (Moves(y.coins.tfuel) ==> IsDraft(ds[k], SmartContractTxTo, y.address, y.coins.tfuel.value, TFuel, None))
  {
    CallerDraftsAt(tx.from);
    CalleeDraftsAt(tx.to);
    var from, to := CallerDrafts(tx.from), CalleeDrafts(tx.to);
    AtConcat(from, to);
  }

  lemma CallShown(tx: SmartContractTx)
    ensures ShowsCall(Number(ContractDrafts(tx), None), tx.from, tx.to)
    ensures Chained(Number(ContractDrafts(tx), None), None)
  {
    CallDraftsAt(tx);
    NumberSays(ContractDrafts(tx), None);
  }

  lemma MovedWei(coins: Coins, c: Currency)
    ensures Coins(Nonzero(coins.theta), Nonzero(coins.tfuel)).Wei(c) == coins.Wei(c)
    ensures Coins(Negated(Nonzero(coins.theta)), Negated(Nonzero(coins.tfuel))).Wei(c) == -coins.Wei(c)
  {
  }

  lemma CallerSum(tx: SmartContractTx, a: Address, c: Currency)
    ensures Sum(CallerDrafts(tx.from), a, c) == -Held(tx.from.address, tx.from.coins, a, c)
  {
    var x := tx.from;
    CoinDraftsSum(SmartContractTxFrom, x.address, Negated(Nonzero(x.coins.theta)), Negated(Nonzero(x.coins.tfuel)),
                  SourceMeta(x), [], a, c);
    MovedWei(x.coins, c);
  }

  lemma CalleeSum(tx: SmartContractTx, a: Address, c: Currency)
    ensures Sum(CalleeDrafts(tx.to), a, c) == Held(tx.to.address, tx.to.coins, a, c)
  {
    var x := tx.to;
    CoinDraftsSum(SmartContractTxTo, x.address, Nonzero(x.coins.theta), Nonzero(x.coins.tfuel), None, [], a, c);
    MovedWei(x.coins, c);
  }

  lemma ContractMeaning(tx: SmartContractTx, a: Address, c: Currency)
    ensures Delta(Number(ContractDrafts(tx), None), a, c)
         == Held(tx.to.address, tx.to.coins, a, c) - Held(tx.from.address, tx.from.coins, a, c)
  {
    DeltaNumber(ContractDrafts(tx), None, a, c);
    SumConcat(CallerDrafts(tx.from), CalleeDrafts(tx.to), a, c);
    CallerSum(tx, a, c);
    CalleeSum(tx, a, c);
  }

  /** What one of the callee's coins adds. */
  function CalleeCoin(a: Address, coin: Option<int>, currency: Currency): seq<Draft> {
    if Nonzero(coin).Some? then [Draft(SmartContractTxTo, a, coin.value, currency, None, [])] else []
  }

  lemma CalleeCoins(y: TxOutput)
    ensures CalleeDrafts(y) == CalleeCoin(y.address, y.coins.theta, Theta) + CalleeCoin(y.address, y.coins.tfuel, TFuel)
  {
  }

  /** One of the `if coin != nil && len(coin.Bits()) != 0` blocks for the callee. */
  method AppendCallee(
    ghost ds: seq<Draft>, before: seq<Operation>, a: Address, coin: Option<int>, currency: Currency)
    returns (ops: seq<Operation>)
    requires before == Number(ds, None)
    ensures ops == Number(ds + CalleeCoin(a, coin, currency), None)
  {
    ops := before;
    if coin.Some? && coin.value != 0 {
      var op := Linked(NewOp(|before|, SmartContractTxTo, None, a, coin.value, currency));
      ghost var d := Draft(SmartContractTxTo, a, coin.value, currency, None, []);
      assert op == d.At(|before|, None);
      NumberAppend(ds, d, None);
      ops := before + [op];
    } else {
      assert ds + [] == ds;
    }
  }

  /** The four blocks, in order. */
  method CallOps(tx: SmartContractTx) returns (ops: seq<Operation>)
    ensures ops == Number(ContractDrafts(tx), None)
  {
    var from, to := tx.from, tx.to;
    var theta, tfuel := Negated(Nonzero(from.coins.theta)), Negated(Nonzero(from.coins.tfuel));
    ops := CoinOps(SmartContractTxFrom, None, from.address, theta, tfuel, SourceMeta(from), []);
    ghost var ds, first := CallerDrafts(from), CalleeCoin(to.address, to.coins.theta, Theta);
    ops := AppendCallee(ds, ops, to.address, to.coins.theta, Theta);
    ops := AppendCallee(ds + first, ops, to.address, to.coins.tfuel, TFuel);
    CalleeCoins(to);
    assert ds + (first + CalleeCoin(to.address, to.coins.tfuel, TFuel))
        == ds + first + CalleeCoin(to.address, to.coins.tfuel, TFuel);
  }

  lemma ContractWellFormed(tx: SmartContractTx)
    ensures WellFormed(Number(ContractDrafts(tx), None))
  {
    WellFormedNumber(ContractDrafts(tx), None);
  }

  /** One operation per coin that is neither nil nor zero: the coins are taken from the
      sender and given to the callee. */
  method ParseSmartContractTxForConstruction(tx: SmartContractTx) returns (ops: seq<Operation>)
    ensures ops == Number(ContractDrafts(tx), None)
    ensures ShowsCall(ops, tx.from, tx.to) && Chained(ops, None)
    ensures WellFormed(ops)
    ensures forall a, c ::
      Delta(ops, a, c) == Held(tx.to.address, tx.to.coins, a, c) - Held(tx.from.address, tx.from.coins, a, c)
  {
    ops := CallOps(tx);
    CallShown(tx);
    ContractWellFormed(tx);
    forall a, c
      ensures Delta(ops, a, c) == Held(tx.to.address, tx.to.coins, a, c) - Held(tx.from.address, tx.from.coins, a, c)
    {
      ContractMeaning(tx, a, c);
    }
  }
}
