/** `ParseSendTx`: a transfer as a list of operations, and what the list means. */
module Transfers {
  import opened Wrappers
  import opened Transactions
  import opened Operations
  import Decimal

  function InputPair(x: TxInput, fee: int): seq<Draft> {
    var meta := Some(Metadata(x.sequence, x.signature));
    [Draft(SendTxInput, x.address, -x.coins.Wei(Theta), Theta, meta, []),
     Draft(SendTxInput, x.address, fee - x.coins.Wei(TFuel), TFuel, meta, [])]
  }

  function InputDrafts(inputs: seq<TxInput>, fee: int): seq<Draft> {
    if inputs == [] then [] else InputDrafts(inputs[..|inputs| - 1], fee) + InputPair(inputs[|inputs| - 1], fee)
  }

  function OutputPair(x: TxOutput): seq<Draft> {
    [Draft(SendTxOutput, x.address, x.coins.Wei(Theta), Theta, None, [-1]),
     Draft(SendTxOutput, x.address, x.coins.Wei(TFuel), TFuel, None, [-1])]
  }

  function OutputDrafts(outputs: seq<TxOutput>): seq<Draft> {
    if outputs == [] then [] else OutputDrafts(outputs[..|outputs| - 1]) + OutputPair(outputs[|outputs| - 1])
  }

  /** The account charged with the fee: the last input's, or none at all. */
  function FeePayer(inputs: seq<TxInput>): Address {
    if inputs == [] then "" else inputs[|inputs| - 1].address
  }

  function SendDrafts(tx: SendTx): seq<Draft>
    requires tx.fee.tfuel.Some?
  {
    var fee := tx.fee.tfuel.value;
    InputDrafts(tx.inputs, fee) + OutputDrafts(tx.outputs) +
    [Draft(TxFee, FeePayer(tx.inputs), -fee, TFuel, None, [])]
  }

  function SendOps(tx: SendTx, status: Option<string>): seq<Operation>
    requires tx.fee.tfuel.Some?
  {
    Number(SendDrafts(tx), status)
  }

  /** One input's two operations: its Theta, and its TFuel less the fee. */
  method InputOpPair(i: nat, input: TxInput, fee: int, status: Option<string>)
    returns (thetaOp: Operation, tfuelOp: Operation)
    ensures thetaOp == InputPair(input, fee)[0].At(i, status)
    ensures tfuelOp == InputPair(input, fee)[1].At(i + 1, status)
  {
    var meta := Some(Metadata(input.sequence, input.signature));
    thetaOp := NewOp(i, SendTxInput, status, input.address, -input.coins.theta.GetOr(0), Theta);
    thetaOp := Linked(thetaOp.(metadata := meta));
    var tfuelInput := input.coins.tfuel.GetOr(0) - fee;
    tfuelOp := NewOp(i + 1, SendTxInput, status, input.address, -tfuelInput, TFuel);
    tfuelOp := Linked(tfuelOp.(metadata := meta));
  }

  lemma InputStep(inputs: seq<TxInput>, k: nat, fee: int, status: Option<string>)
    requires k < |inputs|
    ensures FeePayer(inputs[..k + 1]) == inputs[k].address
    ensures var ops, pair := Number(InputDrafts(inputs[..k], fee), status), InputPair(inputs[k], fee);
      Number(InputDrafts(inputs[..k + 1], fee), status)
        == ops + [pair[0].At(|ops|, status)] + [pair[1].At(|ops| + 1, status)]
  {
    assert inputs[..k + 1][..k] == inputs[..k];
    NumberPair(InputDrafts(inputs[..k], fee), InputPair(inputs[k], fee), status);
  }

  /** The loop over the inputs, which also remembers the last input's address. */
  method InputOps(inputs: seq<TxInput>, fee: int, status: Option<string>)
    returns (ops: seq<Operation>, inputAddr: Address)
    ensures ops == Number(InputDrafts(inputs, fee), status)
    ensures inputAddr == FeePayer(inputs)
  {
    ops := [];
    inputAddr := "";
    var i := 0;
    for k := 0 to |inputs|
      invariant i == |ops| && inputAddr == FeePayer(inputs[..k])
      invariant ops == Number(InputDrafts(inputs[..k], fee), status)
    {
      inputAddr := inputs[k].address;
      var thetaOp, tfuelOp := InputOpPair(i, inputs[k], fee, status);
      ops := ops + [thetaOp] + [tfuelOp];
      i := i + 2;
      InputStep(inputs, k, fee, status);
    }
    assert inputs[..|inputs|] == inputs;
  }

  /** One output's two operations. */
  method OutputOpPair(i: nat, output: TxOutput, status: Option<string>) returns (thetaOp: Operation, tfuelOp: Operation)
    ensures thetaOp == OutputPair(output)[0].At(i, status)
    ensures tfuelOp == OutputPair(output)[1].At(i + 1, status)
  {
    thetaOp := NewOp(i, SendTxOutput, status, output.address, output.coins.theta.GetOr(0), Theta);
    thetaOp := Linked(thetaOp.(related := [i - 1]));
    tfuelOp := NewOp(i + 1, SendTxOutput, status, output.address, output.coins.tfuel.GetOr(0), TFuel);
    tfuelOp := Linked(tfuelOp.(related := [i]));
  }

  lemma OutputStep(ds: seq<Draft>, outputs: seq<TxOutput>, k: nat, status: Option<string>)
    requires k < |outputs|
    ensures var ops, pair := Number(ds + OutputDrafts(outputs[..k]), status), OutputPair(outputs[k]);
      Number(ds + OutputDrafts(outputs[..k + 1]), status)
        == ops + [pair[0].At(|ops|, status)] + [pair[1].At(|ops| + 1, status)]
  {
    assert outputs[..k + 1][..k] == outputs[..k];
    var front := OutputDrafts(outputs[..k]);
    assert ds + (front + OutputPair(outputs[k])) == (ds + front) + OutputPair(outputs[k]);
    NumberPair(ds + front, OutputPair(outputs[k]), status);
  }

  /** The loop over the outputs, continuing a list that means the drafts ds. */
  method OutputOps(ghost ds: seq<Draft>, before: seq<Operation>, outputs: seq<TxOutput>, status: Option<string>)
    returns (ops: seq<Operation>)
    requires before == Number(ds, status)
    ensures ops == Number(ds + OutputDrafts(outputs), status)
  {
    ops := before;
    var i := |ops|;
    assert ds + OutputDrafts(outputs[..0]) == ds;
    for k := 0 to |outputs|
      invariant i == |ops|
      invariant ops == Number(ds + OutputDrafts(outputs[..k]), status)
    {
      var thetaOp, tfuelOp := OutputOpPair(i, outputs[k], status);
      ops := ops + [thetaOp] + [tfuelOp];
      i := i + 2;
      OutputStep(ds, outputs, k, status);
    }
    assert outputs[..|outputs|] == outputs;
  }

  /** A nil fee would be dereferenced, so callers must supply one. */
  method ParseSendTx(tx: SendTx, status: Option<string>) returns (ops: seq<Operation>)
    requires tx.fee.tfuel.Some?
    ensures ops == SendOps(tx, status)
  {
    var fee := tx.fee.tfuel.value;
    var inputAddr;
    ops, inputAddr := InputOps(tx.inputs, fee, status);
    ops := OutputOps(InputDrafts(tx.inputs, fee), ops, tx.outputs, status);
    var feeOp := Linked(NewOp(|ops|, TxFee, status, inputAddr, -fee, TFuel));
    ghost var last := Draft(TxFee, FeePayer(tx.inputs), -fee, TFuel, None, []);
    assert feeOp == last.At(|ops|, status);
    NumberAppend(InputDrafts(tx.inputs, fee) + OutputDrafts(tx.outputs), last, status);
    ops := ops + [feeOp];
  }

  // ---------- Operation by operation ----------

  lemma {:induction false} InputDraftsAt(inputs: seq<TxInput>, fee: int, k: nat)
    requires k < |inputs|
    ensures |InputDrafts(inputs, fee)| == 2 * |inputs|
    ensures InputDrafts(inputs, fee)[2 * k] == InputPair(inputs[k], fee)[0]
    ensures InputDrafts(inputs, fee)[2 * k + 1] == InputPair(inputs[k], fee)[1]
  {
    if |inputs| > 1 {
      InputDraftsAt(inputs[..|inputs| - 1], fee, if k < |inputs| - 1 then k else 0);
    }
  }

  lemma {:induction false} OutputDraftsAt(outputs: seq<TxOutput>, k: nat)
    requires k < |outputs|
    ensures |OutputDrafts(outputs)| == 2 * |outputs|
    ensures OutputDrafts(outputs)[2 * k] == OutputPair(outputs[k])[0]
    ensures OutputDrafts(outputs)[2 * k + 1] == OutputPair(outputs[k])[1]
  {
    if |outputs| > 1 {
      OutputDraftsAt(outputs[..|outputs| - 1], if k < |outputs| - 1 then k else 0);
    }
  }

  lemma SendLength(tx: SendTx)
    requires tx.fee.tfuel.Some?
    ensures |InputDrafts(tx.inputs, tx.fee.tfuel.value)| == 2 * |tx.inputs|
    ensures |SendDrafts(tx)| == 2 * |tx.inputs| + 2 * |tx.outputs| + 1
  {
    if tx.inputs != [] {
      InputDraftsAt(tx.inputs, tx.fee.tfuel.value, 0);
    }
    if tx.outputs != [] {
      OutputDraftsAt(tx.outputs, 0);
    }
  }

  /** An input is printed as its Theta, then its TFuel less the fee. */
  ghost predicate ShowsInput(ops: seq<Operation>, i: nat, x: TxInput, fee: int) {
    var meta := Some(Metadata(x.sequence, x.signature));
    && i + 1 < |ops|
    && Says(ops[i], SendTxInput, x.address, -x.coins.theta.GetOr(0), Theta, meta)
    && Says(ops[i + 1], SendTxInput, x.address, fee - x.coins.tfuel.GetOr(0), TFuel, meta)
  }

  /** An output is printed as its Theta, then its TFuel. */
  ghost predicate ShowsOutput(ops: seq<Operation>, i: nat, x: TxOutput) {
    && i + 1 < |ops|
    && Says(ops[i], SendTxOutput, x.address, x.coins.theta.GetOr(0), Theta, None)
    && Says(ops[i + 1], SendTxOutput, x.address, x.coins.tfuel.GetOr(0), TFuel, None)
  }

  lemma InputDraft(tx: SendTx, k: nat)
    requires tx.fee.tfuel.Some? && k < |tx.inputs|
    ensures var ds, pair := SendDrafts(tx), InputPair(tx.inputs[k], tx.fee.tfuel.value);
      2 * k + 1 < |ds| && ds[2 * k] == pair[0] && ds[2 * k + 1] == pair[1]
  {
    SendLength(tx);
    InputDraftsAt(tx.inputs, tx.fee.tfuel.value, k);
  }

  lemma OutputDraft(tx: SendTx, k: nat)
    requires tx.fee.tfuel.Some? && k < |tx.outputs|
    ensures var ds, pair, i := SendDrafts(tx), OutputPair(tx.outputs[k]), 2 * |tx.inputs| + 2 * k;
      i + 1 < |ds| && ds[i] == pair[0] && ds[i + 1] == pair[1]
  {
    SendLength(tx);
    OutputDraftsAt(tx.outputs, k);
    var ins, outs := InputDrafts(tx.inputs, tx.fee.tfuel.value), OutputDrafts(tx.outputs);
    assert (ins + outs)[|ins| + 2 * k] == outs[2 * k] && (ins + outs)[|ins| + 2 * k + 1] == outs[2 * k + 1];
  }

  lemma InputPairIs(x: TxInput, fee: int)
    ensures var meta := Some(Metadata(x.sequence, x.signature));
      && IsDraft(InputPair(x, fee)[0], SendTxInput, x.address, -x.coins.theta.GetOr(0), Theta, meta)
      && IsDraft(InputPair(x, fee)[1], SendTxInput, x.address, fee - x.coins.tfuel.GetOr(0), TFuel, meta)
  {
  }

  lemma OutputPairIs(x: TxOutput)
    ensures IsDraft(OutputPair(x)[0], SendTxOutput, x.address, x.coins.theta.GetOr(0), Theta, None)
    ensures IsDraft(OutputPair(x)[1], SendTxOutput, x.address, x.coins.tfuel.GetOr(0), TFuel, None)
  {
  }

  lemma InputShown(tx: SendTx, status: Option<string>, k: nat)
    requires tx.fee.tfuel.Some? && k < |tx.inputs|
    ensures ShowsInput(SendOps(tx, status), 2 * k, tx.inputs[k], tx.fee.tfuel.value)
  {
    var ds, x, fee := SendDrafts(tx), tx.inputs[k], tx.fee.tfuel.value;
    var meta := Some(Metadata(x.sequence, x.signature));
    InputDraft(tx, k);
    InputPairIs(x, fee);
    SaysAt(ds, status, 2 * k, SendTxInput, x.address, -x.coins.theta.GetOr(0), Theta, meta);
    SaysAt(ds, status, 2 * k + 1, SendTxInput, x.address, fee - x.coins.tfuel.GetOr(0), TFuel, meta);
  }

  lemma OutputShown(tx: SendTx, status: Option<string>, k: nat)
    requires tx.fee.tfuel.Some? && k < |tx.outputs|
    ensures ShowsOutput(SendOps(tx, status), 2 * |tx.inputs| + 2 * k, tx.outputs[k])
  {
    var ds, x, i := SendDrafts(tx), tx.outputs[k], 2 * |tx.inputs| + 2 * k;
    OutputDraft(tx, k);
    OutputPairIs(x);
    SaysAt(ds, status, i, SendTxOutput, x.address, x.coins.theta.GetOr(0), Theta, None);
    SaysAt(ds, status, i + 1, SendTxOutput, x.address, x.coins.tfuel.GetOr(0), TFuel, None);
  }

  lemma FeeShown(tx: SendTx, status: Option<string>)
    requires tx.fee.tfuel.Some?
    ensures var ops, n := SendOps(tx, status), |tx.inputs|;
      && |ops| == 2 * n + 2 * |tx.outputs| + 1 && Chained(ops, status)
      && Says(ops[|ops| - 1], TxFee, if n == 0 then "" else tx.inputs[n - 1].address,
              -tx.fee.tfuel.value, TFuel, None)
  {
    SendLength(tx);
    NumberSays(SendDrafts(tx), status);
  }

  lemma {:induction false} InputHead(inputs: seq<TxInput>, fee: int)
    requires inputs != []
    ensures InputDrafts(inputs, fee) != [] && InputDrafts(inputs, fee)[0].related == []
  {
    if |inputs| > 1 {
      InputHead(inputs[..|inputs| - 1], fee);
    }
  }

  lemma {:induction false} OutputHead(outputs: seq<TxOutput>)
    requires outputs != []
    ensures OutputDrafts(outputs) != [] && OutputDrafts(outputs)[0].related == [-1]
  {
    if |outputs| > 1 {
      OutputHead(outputs[..|outputs| - 1]);
    }
  }

  lemma HeadShown(tx: SendTx, status: Option<string>)
    requires tx.fee.tfuel.Some?
    ensures SendOps(tx, status)[0].related == if tx.inputs == [] && tx.outputs != [] then [-1] else []
  {
    NumberSays(SendDrafts(tx), status);
    if tx.inputs != [] {
      InputHead(tx.inputs, tx.fee.tfuel.value);
    } else if tx.outputs != [] {
      OutputHead(tx.outputs);
    }
  }

  /** The printed list, operation by operation: two for every input, two for every output,
      and the fee, charged to the last input's account; all chained. */
  lemma SendPrinted(tx: SendTx, status: Option<string>)
    requires tx.fee.tfuel.Some?
    ensures var ops, n, m := SendOps(tx, status), |tx.inputs|, |tx.outputs|;
      && |ops| == 2 * n + 2 * m + 1 && Chained(ops, status)
      && ops[0].related == (if n == 0 && m != 0 then [-1] else [])
      && (forall k: nat :: k < n ==> ShowsInput(ops, 2 * k, tx.inputs[k], tx.fee.tfuel.value))
      && (forall k: nat :: k < m ==> ShowsOutput(ops, 2 * n + 2 * k, tx.outputs[k]))
      && Says(ops[2 * n + 2 * m], TxFee, if n == 0 then "" else tx.inputs[n - 1].address,
              -tx.fee.tfuel.value, TFuel, None)
  {
    FeeShown(tx, status);
    HeadShown(tx, status);
    forall k: nat | k < |tx.inputs|
      ensures ShowsInput(SendOps(tx, status), 2 * k, tx.inputs[k], tx.fee.tfuel.value)
    {
      InputShown(tx, status, k);
    }
    forall k: nat | k < |tx.outputs|
      ensures ShowsOutput(SendOps(tx, status), 2 * |tx.inputs| + 2 * k, tx.outputs[k])
    {
      OutputShown(tx, status, k);
    }
  }

  // ---------- What the list means ----------

  function InputSum(inputs: seq<TxInput>, a: Address, c: Currency): int {
    if inputs == [] then 0 else
      InputSum(inputs[1..], a, c) + if inputs[0].address == a then inputs[0].coins.Wei(c) else 0
  }

  function OutputSum(outputs: seq<TxOutput>, a: Address, c: Currency): int {
    if outputs == [] then 0 else
      OutputSum(outputs[1..], a, c) + if outputs[0].address == a then outputs[0].coins.Wei(c) else 0
  }

  function InputCount(inputs: seq<TxInput>, a: Address): nat {
    if inputs == [] then 0 else InputCount(inputs[1..], a) + if inputs[0].address == a then 1 else 0
  }

  /** What the chain does to account a: inputs are debited in full, outputs credited. */
  function TrueEffect(tx: SendTx, a: Address, c: Currency): int {
    OutputSum(tx.outputs, a, c) - InputSum(tx.inputs, a, c)
  }

  lemma {:induction false} InputSnoc(inputs: seq<TxInput>, x: TxInput, a: Address, c: Currency)
    ensures InputSum(inputs + [x], a, c) == InputSum(inputs, a, c) + if x.address == a then x.coins.Wei(c) else 0
    ensures InputCount(inputs + [x], a) == InputCount(inputs, a) + if x.address == a then 1 else 0
  {
    if inputs == [] {
      assert inputs + [x] == [x];
      assert [x][1..] == [];
    } else {
      assert (inputs + [x])[1..] == inputs[1..] + [x];
      InputSnoc(inputs[1..], x, a, c);
    }
  }

  lemma {:induction false} OutputSnoc(outputs: seq<TxOutput>, x: TxOutput, a: Address, c: Currency)
    ensures OutputSum(outputs + [x], a, c) == OutputSum(outputs, a, c) + if x.address == a then x.coins.Wei(c) else 0
  {
    if outputs == [] {
      assert outputs + [x] == [x];
      assert [x][1..] == [];
    } else {
      assert (outputs + [x])[1..] == outputs[1..] + [x];
      OutputSnoc(outputs[1..], x, a, c);
    }
  }

  lemma Distribute(n: int, y: int)
    ensures (n - 1) * y == n * y - y && (n - 0) * y == n * y
  {
  }

  lemma {:induction false} InputDraftsSum(inputs: seq<TxInput>, fee: int, a: Address, c: Currency)
    ensures Sum(InputDrafts(inputs, fee), a, c)
         == (if c == TFuel then InputCount(inputs, a) * fee else 0) - InputSum(inputs, a, c)
  {
    if inputs != [] {
      var front, x := inputs[..|inputs| - 1], inputs[|inputs| - 1];
      assert inputs == front + [x];
      InputDraftsSum(front, fee, a, c);
      InputSnoc(front, x, a, c);
      var pair := InputPair(x, fee);
      SumConcat(InputDrafts(front, fee), pair, a, c);
      SumTwo(pair[0], pair[1], a, c);
      Distribute(InputCount(front, a) + 1, fee);
    }
  }

  lemma {:induction false} OutputDraftsSum(outputs: seq<TxOutput>, a: Address, c: Currency)
    ensures Sum(OutputDrafts(outputs), a, c) == OutputSum(outputs, a, c)
  {
    if outputs != [] {
      var front, x := outputs[..|outputs| - 1], outputs[|outputs| - 1];
      assert outputs == front + [x];
      OutputDraftsSum(front, a, c);
      OutputSnoc(front, x, a, c);
      var pair := OutputPair(x);
      SumConcat(OutputDrafts(front), pair, a, c);
      SumTwo(pair[0], pair[1], a, c);
    }
  }

  /** How many fees the list gives back to an account beyond the one it charges. */
  function ExtraFees(tx: SendTx, a: Address): int {
    InputCount(tx.inputs, a) - if a == FeePayer(tx.inputs) then 1 else 0
  }

  /** The exact ledger meaning of a parsed transfer: the true effect, plus one fee for
      every input of the account, minus one fee for the account of the last input. */
  lemma SendMeaning(tx: SendTx, status: Option<string>, a: Address, c: Currency)
    requires tx.fee.tfuel.Some?
    ensures Delta(SendOps(tx, status), a, c)
         == TrueEffect(tx, a, c) + if c == TFuel then ExtraFees(tx, a) * tx.fee.tfuel.value else 0
  {
    var fee := tx.fee.tfuel.value;
    var ins, outs := InputDrafts(tx.inputs, fee), OutputDrafts(tx.outputs);
    var last := Draft(TxFee, FeePayer(tx.inputs), -fee, TFuel, None, []);
    DeltaNumber(SendDrafts(tx), status, a, c);
    SumConcat(ins + outs, [last], a, c);
    SumConcat(ins, outs, a, c);
    InputDraftsSum(tx.inputs, fee, a, c);
    OutputDraftsSum(tx.outputs, a, c);
    SumOne(last, a, c);
    Distribute(InputCount(tx.inputs, a), fee);
  }

  ghost predicate Faithful(tx: SendTx, status: Option<string>)
    requires tx.fee.tfuel.Some?
  {
    forall a, c :: Delta(SendOps(tx, status), a, c) == TrueEffect(tx, a, c)
  }

  lemma OneInput(tx: SendTx, a: Address)
    ensures |tx.inputs| == 1 ==> ExtraFees(tx, a) == 0
  {
    if |tx.inputs| == 1 {
      assert tx.inputs[1..] == [];
      assert InputCount(tx.inputs[1..], a) == 0;
    }
  }

  lemma SomeoneOvercredited(tx: SendTx) returns (a: Address)
    requires |tx.inputs| != 1
    ensures ExtraFees(tx, a) != 0
  {
    var inputs := tx.inputs;
    if inputs == [] {
      a := "";
    } else {
      a := inputs[0].address;
      var front, last := inputs[..|inputs| - 1], inputs[|inputs| - 1];
      assert inputs == front + [last];
      InputSnoc(front, last, a, TFuel);
      assert front[0].address == a && InputCount(front, a) >= 1;
    }
  }

  lemma NonzeroProduct(x: int, y: int)
    requires x != 0 && y != 0
    ensures x * y != 0
  {
  }

  /** The operations give every account its true balance change exactly when the
      transfer has one input or no fee. */
  lemma SendFaithfulIff(tx: SendTx, status: Option<string>)
    requires tx.fee.tfuel.Some?
    ensures Faithful(tx, status) <==> |tx.inputs| == 1 || tx.fee.tfuel.value == 0
  {
    if |tx.inputs| == 1 || tx.fee.tfuel.value == 0 {
      forall a, c
        ensures Delta(SendOps(tx, status), a, c) == TrueEffect(tx, a, c)
      {
        SendMeaning(tx, status, a, c);
        OneInput(tx, a);
      }
    } else {
      var a := SomeoneOvercredited(tx);
      SendMeaning(tx, status, a, TFuel);
      NonzeroProduct(ExtraFees(tx, a), tx.fee.tfuel.value);
    }
  }

  // ---------- The net of a transfer ----------

  /** All of a list's amounts in one currency. */
  function Net(ops: seq<Operation>, c: Currency): int {
    if ops == [] then 0 else Net(ops[..|ops| - 1], c) + Effect(ops[|ops| - 1], Account(ops[|ops| - 1]), c)
  }

  function DraftNet(ds: seq<Draft>, c: Currency): int {
    if ds == [] then 0 else
      DraftNet(ds[..|ds| - 1], c) + if ds[|ds| - 1].currency == c then ds[|ds| - 1].wei else 0
  }

  function InputTotal(inputs: seq<TxInput>, c: Currency): int {
    if inputs == [] then 0 else InputTotal(inputs[..|inputs| - 1], c) + inputs[|inputs| - 1].coins.Wei(c)
  }

  function OutputTotal(outputs: seq<TxOutput>, c: Currency): int {
    if outputs == [] then 0 else OutputTotal(outputs[..|outputs| - 1], c) + outputs[|outputs| - 1].coins.Wei(c)
  }

  lemma {:induction false} NetNumber(ds: seq<Draft>, status: Option<string>, c: Currency)
    ensures Net(Number(ds, status), c) == DraftNet(ds, c)
  {
    if ds != [] {
      var front, last := ds[..|ds| - 1], ds[|ds| - 1];
      NetNumber(front, status, c);
      Decimal.ParsePrint(last.wei);
      assert ds == front + [last];
      NumberAppend(front, last, status);
      assert Number(ds, status)[..|ds| - 1] == Number(front, status);
    }
  }

  lemma DraftNetAppend(ds: seq<Draft>, d: Draft, c: Currency)
    ensures DraftNet(ds + [d], c) == DraftNet(ds, c) + if d.currency == c then d.wei else 0
  {
    assert (ds + [d])[..|ds|] == ds;
  }

  lemma DraftNetPair(ds: seq<Draft>, x: Draft, y: Draft, c: Currency)
    requires x.currency == Theta && y.currency == TFuel
    ensures DraftNet(ds + [x, y], c)
         == DraftNet(ds, c) + if c == Theta then x.wei else if c == TFuel then y.wei else 0
  {
    DraftNetAppend(ds, x, c);
    DraftNetAppend(ds + [x], y, c);
    assert ds + [x] + [y] == ds + [x, y];
  }

  lemma {:induction false} InputNet(inputs: seq<TxInput>, fee: int, c: Currency)
    ensures DraftNet(InputDrafts(inputs, fee), c)
         == (if c == TFuel then |inputs| * fee else 0) - InputTotal(inputs, c)
  {
    if inputs != [] {
      var front, pair := inputs[..|inputs| - 1], InputPair(inputs[|inputs| - 1], fee);
      InputNet(front, fee, c);
      DraftNetPair(InputDrafts(front, fee), pair[0], pair[1], c);
      Distribute(|inputs|, fee);
    }
  }

  lemma {:induction false} OutputNet(ds: seq<Draft>, outputs: seq<TxOutput>, c: Currency)
    ensures DraftNet(ds + OutputDrafts(outputs), c) == DraftNet(ds, c) + OutputTotal(outputs, c)
  {
    if outputs == [] {
      assert ds + [] == ds;
    } else {
      var front, pair := outputs[..|outputs| - 1], OutputPair(outputs[|outputs| - 1]);
      OutputNet(ds, front, c);
      DraftNetPair(ds + OutputDrafts(front), pair[0], pair[1], c);
      assert ds + (OutputDrafts(front) + pair) == ds + OutputDrafts(front) + [pair[0], pair[1]];
    }
  }

  lemma NetCurrency(tx: SendTx, status: Option<string>, c: Currency)
    requires tx.fee.tfuel.Some?
    ensures var fee := tx.fee.tfuel.value;
      Net(SendOps(tx, status), c)
        == OutputTotal(tx.outputs, c) - InputTotal(tx.inputs, c) + if c == TFuel then (|tx.inputs| - 1) * fee else 0
  {
    var fee := tx.fee.tfuel.value;
    NetNumber(SendDrafts(tx), status, c);
    InputNet(tx.inputs, fee, c);
    OutputNet(InputDrafts(tx.inputs, fee), tx.outputs, c);
    DraftNetAppend(InputDrafts(tx.inputs, fee) + OutputDrafts(tx.outputs),
                   Draft(TxFee, FeePayer(tx.inputs), -fee, TFuel, None, []), c);
    Distribute(|tx.inputs|, fee);
  }

  lemma ProductZero(x: int, y: int)
    ensures x * y == 0 <==> x == 0 || y == 0
  {
    if x != 0 && y != 0 {
      NonzeroProduct(x, y);
    }
  }

  /** The operations' Theta adds up to outputs less inputs.  Their TFuel adds up to that and
      one fee for every input but one, so it is outputs less inputs, whatever the accounts
      are, exactly when the transfer has one input or no fee. */
  lemma SendNet(tx: SendTx, status: Option<string>)
    requires tx.fee.tfuel.Some?
    ensures Net(SendOps(tx, status), Theta) == OutputTotal(tx.outputs, Theta) - InputTotal(tx.inputs, Theta)
    ensures Net(SendOps(tx, status), TFuel)
         == OutputTotal(tx.outputs, TFuel) - InputTotal(tx.inputs, TFuel) + (|tx.inputs| - 1) * tx.fee.tfuel.value
    ensures Net(SendOps(tx, status), TFuel) == OutputTotal(tx.outputs, TFuel) - InputTotal(tx.inputs, TFuel)
       <==> |tx.inputs| == 1 || tx.fee.tfuel.value == 0
  {
    var fee := tx.fee.tfuel.value;
    NetCurrency(tx, status, Theta);
    NetCurrency(tx, status, TFuel);
    ProductZero(|tx.inputs| - 1, fee);
  }

  // ---------- Well-formedness ----------

  /** A transfer's list is well formed unless outputs come first, where index -1 is named. */
  lemma SendWellFormedIff(tx: SendTx, status: Option<string>)
    requires tx.fee.tfuel.Some?
    ensures WellFormed(SendOps(tx, status)) <==> tx.inputs != [] || tx.outputs == []
  {
    var ds := SendDrafts(tx);
    WellFormedNumber(ds, status);
    if tx.inputs != [] {
      InputHead(tx.inputs, tx.fee.tfuel.value);
    } else if tx.outputs != [] {
      OutputHead(tx.outputs);
    }
  }
}
