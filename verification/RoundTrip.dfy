/** What the construction endpoints preserve. */
module RoundTrip {
  import opened Wrappers
  import opened Transactions
  import opened Operations
  import opened BigEndian
  import opened Construction
  import Decimal
  import Float64
  import Parsers
  import Permutations
  import Transfers

  // ---------- Order of the operations ----------

  lemma SameContents(m: seq<Operation>, m': seq<Operation>)
    requires Permutations.Map(CONTENT, m) == Permutations.Map(CONTENT, m')
    ensures |m| == |m'| && forall j :: 0 <= j < |m| ==>
      m'[j].account == m[j].account && Account(m'[j]) == Account(m[j]) && Wei(m'[j]) == Wei(m[j])
  {
    forall j | 0 <= j < |m|
      ensures Content(m'[j]) == Content(m[j])
    {
      assert Permutations.Map(CONTENT, m)[j] == Permutations.Map(CONTENT, m')[j];
    }
  }

  lemma BuiltFromContents(canon: string -> Address, m: seq<Operation>, m': seq<Operation>, sequence: nat, gas: GasTerms)
    requires |m| == |m'|
    requires forall j :: 0 <= j < |m| ==> Account(m'[j]) == Account(m[j]) && Wei(m'[j]) == Wei(m[j])
    ensures |m| == 2 ==> BuildContract(canon, m, sequence, gas) == BuildContract(canon, m', sequence, gas)
    ensures |m| == 5 ==> BuildSend(canon, m, sequence) == BuildSend(canon, m', sequence)
  {
  }

  /** Listing the same operations in another order, numbered anew, changes neither what
      Preprocess answers nor whether Payloads succeeds nor the transaction it builds. */
  lemma PermutationInvariance(
    canon: string -> Address, ops: seq<Operation>, ops': seq<Operation>, sequence: Option<nat>, gas: GasTerms)
    requires multiset(Permutations.Map(CONTENT, ops)) == multiset(Permutations.Map(CONTENT, ops'))
    ensures Preprocess(ops) == Preprocess(ops')
    ensures var p, p' := Payloads(canon, ops, sequence, gas), Payloads(canon, ops', sequence, gas);
      if p.Success? then p'.Success? && p.value.tx == p'.value.tx else p == p'
  {
    DescriptionsPermutation(ops, ops');
    if GetOperationDescriptions(ops).Success? {
      var m, m' := GetOperationDescriptions(ops).value, GetOperationDescriptions(ops').value;
      MatchedOperations(ops, m);
      MatchedOperations(ops', m');
      SameContents(m, m');
      BuiltFromContents(canon, m, m', sequence.GetOr(0), gas);
    }
  }

  /** The five matched operations of a transfer. */
  ghost predicate Matched(m: seq<Operation>) {
    |m| == 5 && forall j :: 0 <= j < 5 ==> Satisfies(m[j], TRANSFER[j])
  }

  /** The first operation stands somewhere among the matched ones. */
  lemma SomeMatched(m: seq<Operation>, ops: seq<Operation>)
    requires Matched(m) && SameParties(m) && multiset(m) == multiset(ops) && |ops| == 5
    ensures ops[0].account == if ops[0].opType == SendTxOutput then m[2].account else m[0].account
  {
    assert ops[0] in multiset(m);
    var j :| 0 <= j < 5 && m[j] == ops[0];
    assert Satisfies(m[j], TRANSFER[j]);
    assert TRANSFER[j].opType == SendTxOutput <==> j == 2 || j == 3;
  }

  /** The transaction depends on the operations only through their assignment. */
  lemma PayloadOfMatch(canon: string -> Address, ops: seq<Operation>, sequence: nat, gas: GasTerms)
    returns (m: seq<Operation>)
    requires |ops| == 5 && GetOperationDescriptions(ops).Success?
    ensures m == GetOperationDescriptions(ops).value && Matched(m) && multiset(m) == multiset(ops)
    ensures Payloads(canon, ops, Some(sequence), gas)
         == Success(Payload(Send(BuildSend(canon, m, sequence)), Account(ops[0])))
  {
    m := GetOperationDescriptions(ops).value;
    MatchedOperations(ops, m);
  }

  /** Preprocess and Payloads name the same signer exactly when no output comes first. */
  lemma SignerIff(canon: string -> Address, ops: seq<Operation>, sequence: nat, gas: GasTerms)
    requires Preprocess(ops).Success? && |ops| == 5
    ensures Payloads(canon, ops, Some(sequence), gas).Success?
    ensures Payloads(canon, ops, Some(sequence), gas).value.account == Preprocess(ops).value.signer
       <==> ops[0].opType != SendTxOutput
  {
    var m := PayloadOfMatch(canon, ops, sequence, gas);
    SomeMatched(m, ops);
    assert m[0].account != m[3].account;
    assert m[0].account.Some? && m[3].account.Some? by {
      assert Satisfies(m[0], TRANSFER[0]) && Satisfies(m[3], TRANSFER[3]);
    }
  }

  // ---------- Operations to transaction to operations ----------

  predicate CanonicalAmount(op: Operation) {
    op.amount.Some? && Decimal.Canonical(op.amount.value.value)
  }

  /** A matched operation's amount is printed back unchanged exactly when it is canonical. */
  lemma AmountPrinted(op: Operation, d: Description)
    requires Satisfies(op, d)
    ensures op.amount == Some(Amount(Decimal.Print(Wei(op)), d.currency)) <==> CanonicalAmount(op)
  {
    Decimal.PrintParse(op.amount.value.value);
  }

  /** The five operations that a one-to-one transfer is printed as. */
  function FiveDrafts(x: TxInput, y: TxOutput, fee: int): seq<Draft> {
    var meta := Some(Metadata(x.sequence, x.signature));
    [Draft(SendTxInput, x.address, -x.coins.Wei(Theta), Theta, meta, []),
     Draft(SendTxInput, x.address, fee - x.coins.Wei(TFuel), TFuel, meta, []),
     Draft(SendTxOutput, y.address, y.coins.Wei(Theta), Theta, None, [-1]),
     Draft(SendTxOutput, y.address, y.coins.Wei(TFuel), TFuel, None, [-1]),
     Draft(TxFee, x.address, -fee, TFuel, None, [])]
  }

  lemma SendOneToOne(tx: SendTx, status: Option<string>)
    requires tx.fee.tfuel.Some? && |tx.inputs| == |tx.outputs| == 1
    ensures Transfers.SendOps(tx, status) == Number(FiveDrafts(tx.inputs[0], tx.outputs[0], tx.fee.tfuel.value), status)
  {
    var fee := tx.fee.tfuel.value;
    assert tx.inputs[..0] == [] && tx.outputs[..0] == [];
    assert Transfers.InputDrafts(tx.inputs, fee) == Transfers.InputPair(tx.inputs[0], fee);
    assert Transfers.OutputDrafts(tx.outputs) == Transfers.OutputPair(tx.outputs[0]);
    assert Transfers.SendDrafts(tx) == FiveDrafts(tx.inputs[0], tx.outputs[0], fee);
  }

  /** Content of a printed draft. */
  function DraftContent(d: Draft): Contents {
    (d.opType, Some(d.account), Some(Amount(Decimal.Print(d.wei), d.currency)))
  }

  lemma NumberContent(ds: seq<Draft>, status: Option<string>, j: nat)
    requires j < |ds|
    ensures Content(Number(ds, status)[j]) == DraftContent(ds[j])
  {
  }

  /** The operation whose account the rebuilt operation j gets. */
  function Party(j: nat): nat {
    if j == 2 || j == 3 then 2 else 0
  }

  lemma BuiltDrafts(canon: string -> Address, m: seq<Operation>, sequence: nat, j: nat)
    requires |m| == 5 && j < 5
    ensures var tx := BuildSend(canon, m, sequence);
      var d := FiveDrafts(tx.inputs[0], tx.outputs[0], tx.fee.tfuel.value)[j];
      && d.opType == TRANSFER[j].opType && d.currency == TRANSFER[j].currency
      && d.account == canon(Account(m[Party(j)])) && d.wei == Wei(m[j])
  {
  }

  lemma BuiltOps(canon: string -> Address, m: seq<Operation>, sequence: nat)
    requires |m| == 5
    ensures var back := Transfers.SendOps(BuildSend(canon, m, sequence), None);
      && |back| == 5 && WellFormed(back)
      && forall j :: 0 <= j < 5 ==>
        Content(back[j]) == (TRANSFER[j].opType, Some(canon(Account(m[Party(j)]))),
                             Some(Amount(Decimal.Print(Wei(m[j])), TRANSFER[j].currency)))
  {
    var tx := BuildSend(canon, m, sequence);
    SendOneToOne(tx, None);
    Transfers.SendWellFormedIff(tx, None);
    var ds := FiveDrafts(tx.inputs[0], tx.outputs[0], tx.fee.tfuel.value);
    forall j: nat | j < 5
      ensures Content(Number(ds, None)[j]) == (TRANSFER[j].opType, Some(canon(Account(m[Party(j)]))),
        Some(Amount(Decimal.Print(Wei(m[j])), TRANSFER[j].currency)))
    {
      NumberContent(ds, None, j);
      BuiltDrafts(canon, m, sequence, j);
    }
  }

  /** Payloads followed by Parse keeps every operation's type and amount, gives the three
      paying operations operation 0's account and the two receiving ones operation 2's,
      and lists them in canonical, well-formed order. */
  lemma TransferParsed(canon: string -> Address, ops: seq<Operation>, sequence: nat, gas: GasTerms)
    requires |ops| == 5 && GetOperationDescriptions(ops).Success?
    ensures Payloads(canon, ops, Some(sequence), gas).Success?
    ensures var m := GetOperationDescriptions(ops).value;
      var back := ParsedOps(Payloads(canon, ops, Some(sequence), gas).value.tx);
      && |back| == |m| == 5 && WellFormed(back)
      && forall j :: 0 <= j < 5 ==>
        Content(back[j]) == (m[j].opType, Some(canon(Account(m[Party(j)]))),
                             Some(Amount(Decimal.Print(Wei(m[j])), TRANSFER[j].currency)))
  {
    var m := PayloadOfMatch(canon, ops, sequence, gas);
    BuiltOps(canon, m, sequence);
  }

  /** One operation comes back unchanged exactly when it names its party, in canonical
      spelling, and its amount is canonical. */
  lemma SameContentIff(canon: string -> Address, m: seq<Operation>, j: nat)
    requires Matched(m) && j < 5
    ensures (TRANSFER[j].opType, Some(canon(Account(m[Party(j)]))),
             Some(Amount(Decimal.Print(Wei(m[j])), TRANSFER[j].currency))) == Content(m[j])
       <==> canon(Account(m[Party(j)])) == Account(m[j]) && CanonicalAmount(m[j])
    ensures m[j].account == Some(Account(m[j]))
  {
    assert Satisfies(m[j], TRANSFER[j]);
    AmountPrinted(m[j], TRANSFER[j]);
  }

  lemma PartiesIff(canon: string -> Address, m: seq<Operation>)
    requires |m| == 5 && forall j :: 0 <= j < 5 ==> m[j].account == Some(Account(m[j]))
    ensures (forall j: nat :: j < 5 ==> canon(Account(m[Party(j)])) == Account(m[j]))
       <==> SameParties(m) && canon(Account(m[0])) == Account(m[0]) && canon(Account(m[2])) == Account(m[2])
  {
    if forall j: nat :: j < 5 ==> canon(Account(m[Party(j)])) == Account(m[j]) {
      assert Party(0) == Party(1) == Party(4) == 0 && Party(2) == Party(3) == 2;
    }
  }

  lemma BuiltUnchangedIff(canon: string -> Address, m: seq<Operation>, sequence: nat)
    requires Matched(m)
    ensures var back := Transfers.SendOps(BuildSend(canon, m, sequence), None);
      |back| == 5 &&
      ((forall j :: 0 <= j < 5 ==> Content(back[j]) == Content(m[j]))
        <==> && SameParties(m)
             && canon(Account(m[0])) == Account(m[0]) && canon(Account(m[2])) == Account(m[2])
             && forall j :: 0 <= j < 5 ==> CanonicalAmount(m[j]))
  {
    BuiltOps(canon, m, sequence);
    var back := Transfers.SendOps(BuildSend(canon, m, sequence), None);
    var same := forall j :: 0 <= j < 5 ==> Content(back[j]) == Content(m[j]);
    forall j: nat | j < 5
      ensures Content(back[j]) == Content(m[j])
         <==> canon(Account(m[Party(j)])) == Account(m[j]) && CanonicalAmount(m[j])
      ensures m[j].account == Some(Account(m[j]))
    {
      SameContentIff(canon, m, j);
    }
    assert same <==> forall j: nat :: j < 5 ==> canon(Account(m[Party(j)])) == Account(m[j]) && CanonicalAmount(m[j]);
    PartiesIff(canon, m);
  }

  /** The client gets its operations back unchanged exactly when they name one payer and
      one payee, spell both addresses canonically and spell every amount canonically. */
  lemma TransferRoundTripIff(canon: string -> Address, ops: seq<Operation>, sequence: nat, gas: GasTerms)
    requires |ops| == 5 && GetOperationDescriptions(ops).Success?
    ensures Payloads(canon, ops, Some(sequence), gas).Success?
    ensures var m := GetOperationDescriptions(ops).value;
      var back := ParsedOps(Payloads(canon, ops, Some(sequence), gas).value.tx);
      |m| == |back| == 5 &&
      ((forall j :: 0 <= j < 5 ==> Content(back[j]) == Content(m[j]))
        <==> && SameParties(m)
             && canon(Account(m[0])) == Account(m[0]) && canon(Account(m[2])) == Account(m[2])
             && forall j :: 0 <= j < 5 ==> CanonicalAmount(m[j]))
  {
    var m := PayloadOfMatch(canon, ops, sequence, gas);
    BuiltUnchangedIff(canon, m, sequence);
  }

  lemma BuiltContents(canon: string -> Address, m: seq<Operation>, sequence: nat)
    requires Matched(m) && SameParties(m)
    requires forall j :: 0 <= j < |m| ==> canon(Account(m[j])) == Account(m[j]) && CanonicalAmount(m[j])
    ensures var back := Transfers.SendOps(BuildSend(canon, m, sequence), None);
      Permutations.Map(CONTENT, back) == Permutations.Map(CONTENT, m) && WellFormed(back)
  {
    BuiltUnchangedIff(canon, m, sequence);
    BuiltOps(canon, m, sequence);
  }

  lemma Spelled(ops: seq<Operation>, m: seq<Operation>, canon: string -> Address)
    requires multiset(m) == multiset(ops)
    requires forall op :: op in ops ==> canon(Account(op)) == Account(op) && CanonicalAmount(op)
    ensures forall j :: 0 <= j < |m| ==> canon(Account(m[j])) == Account(m[j]) && CanonicalAmount(m[j])
  {
    forall j | 0 <= j < |m|
      ensures m[j] in ops
    {
      assert m[j] in multiset(m);
    }
  }

  /** For operations that Preprocess accepts, canonical spelling is all that is needed, and
      the list that comes back is then a permutation of the list that was sent. */
  lemma AcceptedRoundTrip(canon: string -> Address, ops: seq<Operation>, sequence: nat, gas: GasTerms)
    requires |ops| == 5 && Preprocess(ops).Success?
    requires forall op :: op in ops ==> canon(Account(op)) == Account(op) && CanonicalAmount(op)
    ensures Payloads(canon, ops, Some(sequence), gas).Success?
    ensures var back := ParsedOps(Payloads(canon, ops, Some(sequence), gas).value.tx);
      multiset(Permutations.Map(CONTENT, back)) == multiset(Permutations.Map(CONTENT, ops)) && WellFormed(back)
  {
    var m := PayloadOfMatch(canon, ops, sequence, gas);
    Spelled(ops, m, canon);
    BuiltContents(canon, m, sequence);
    Permutations.MapPermuted(CONTENT, m, ops);
  }

  // ---------- Transaction to operations to transaction ----------

  /** Amounts that the descriptions' signs admit: nothing negative, and enough TFuel in the
      input to cover the fee. */
  predicate Payable(tx: SendTx)
    requires tx.fee.tfuel.Some? && |tx.inputs| == |tx.outputs| == 1
  {
    var x, y, fee := tx.inputs[0].coins, tx.outputs[0].coins, tx.fee.tfuel.value;
    x.Wei(Theta) >= 0 && x.Wei(TFuel) >= fee >= 0 && y.Wei(Theta) >= 0 && y.Wei(TFuel) >= 0
  }

  /** The transaction with nil coins as zeros, no Theta fee, canonical addresses, the given
      sequence and no signature. */
  function Normalized(canon: string -> Address, tx: SendTx, sequence: nat): SendTx
    requires tx.fee.tfuel.Some? && |tx.inputs| == |tx.outputs| == 1
  {
    var x, y := tx.inputs[0], tx.outputs[0];
    SendTx(
      Coins(Some(0), tx.fee.tfuel),
      [TxInput(canon(x.address), Coins(Some(x.coins.Wei(Theta)), Some(x.coins.Wei(TFuel))), sequence, "")],
      [TxOutput(canon(y.address), Coins(Some(y.coins.Wei(Theta)), Some(y.coins.Wei(TFuel))))])
  }

  lemma FiveSatisfied(x: TxInput, y: TxOutput, fee: int, status: Option<string>, j: nat)
    requires j < 5
    ensures var op := Number(FiveDrafts(x, y, fee), status)[j];
      && Wei(op) == FiveDrafts(x, y, fee)[j].wei
      && Account(op) == FiveDrafts(x, y, fee)[j].account
      && (Satisfies(op, TRANSFER[j]) <==> if TRANSFER[j].sign == NegativeOrZero then Wei(op) <= 0 else Wei(op) >= 0)
  {
    Decimal.ParsePrint(FiveDrafts(x, y, fee)[j].wei);
  }

  predicate SignAgrees(wei: int, sign: Sign) {
    if sign == NegativeOrZero then wei <= 0 else wei >= 0
  }

  lemma PayableSigns(x: TxInput, y: TxOutput, fee: int)
    ensures (&& x.coins.Wei(Theta) >= 0 && x.coins.Wei(TFuel) >= fee >= 0
             && y.coins.Wei(Theta) >= 0 && y.coins.Wei(TFuel) >= 0)
       <==> forall j: nat :: j < 5 ==> SignAgrees(FiveDrafts(x, y, fee)[j].wei, TRANSFER[j].sign)
  {
    var ds := FiveDrafts(x, y, fee);
    if forall j: nat :: j < 5 ==> SignAgrees(ds[j].wei, TRANSFER[j].sign) {
      assert SignAgrees(ds[0].wei, TRANSFER[0].sign) && SignAgrees(ds[1].wei, TRANSFER[1].sign);
      assert SignAgrees(ds[2].wei, TRANSFER[2].sign) && SignAgrees(ds[3].wei, TRANSFER[3].sign);
      assert SignAgrees(ds[4].wei, TRANSFER[4].sign);
    }
  }

  lemma PayableIff(tx: SendTx, status: Option<string>)
    requires tx.fee.tfuel.Some? && |tx.inputs| == |tx.outputs| == 1
    ensures |Transfers.SendOps(tx, status)| == 5
    ensures Payable(tx) <==> Matched(Transfers.SendOps(tx, status))
  {
    var x, y, fee := tx.inputs[0], tx.outputs[0], tx.fee.tfuel.value;
    var ops := Transfers.SendOps(tx, status);
    SendOneToOne(tx, status);
    forall j: nat | j < 5
      ensures Satisfies(ops[j], TRANSFER[j]) <==> SignAgrees(FiveDrafts(x, y, fee)[j].wei, TRANSFER[j].sign)
    {
      FiveSatisfied(x, y, fee, status, j);
    }
    PayableSigns(x, y, fee);
    assert Matched(ops) <==> forall j: nat :: j < 5 ==> SignAgrees(FiveDrafts(x, y, fee)[j].wei, TRANSFER[j].sign);
  }

  lemma Rebuild(canon: string -> Address, m: seq<Operation>, x: TxInput, y: TxOutput, fee: int, sequence: nat)
    requires |m| == 5
    requires forall j :: 0 <= j < 5 ==>
      Wei(m[j]) == FiveDrafts(x, y, fee)[j].wei && Account(m[j]) == FiveDrafts(x, y, fee)[j].account
    ensures var tx := BuildSend(canon, m, sequence);
      && tx.fee == Coins(Some(0), Some(fee))
      && tx.inputs
          == [TxInput(canon(x.address), Coins(Some(x.coins.Wei(Theta)), Some(x.coins.Wei(TFuel))), sequence, "")]
      && tx.outputs == [TxOutput(canon(y.address), Coins(Some(y.coins.Wei(Theta)), Some(y.coins.Wei(TFuel))))]
  {
    var ds := FiveDrafts(x, y, fee);
    assert Wei(m[0]) == ds[0].wei && Wei(m[1]) == ds[1].wei && Wei(m[2]) == ds[2].wei;
    assert Wei(m[3]) == ds[3].wei && Wei(m[4]) == ds[4].wei;
    assert Account(m[0]) == ds[0].account && Account(m[2]) == ds[2].account;
  }

  lemma RebuiltFrom(canon: string -> Address, tx: SendTx, status: Option<string>, sequence: nat)
    requires tx.fee.tfuel.Some? && |tx.inputs| == |tx.outputs| == 1
    ensures |Transfers.SendOps(tx, status)| == 5
    ensures BuildSend(canon, Transfers.SendOps(tx, status), sequence) == Normalized(canon, tx, sequence)
  {
    var x, y, fee := tx.inputs[0], tx.outputs[0], tx.fee.tfuel.value;
    var m := Transfers.SendOps(tx, status);
    SendOneToOne(tx, status);
    forall j: nat | j < 5
      ensures Wei(m[j]) == FiveDrafts(x, y, fee)[j].wei && Account(m[j]) == FiveDrafts(x, y, fee)[j].account
    {
      FiveSatisfied(x, y, fee, status, j);
    }
    Rebuild(canon, m, x, y, fee, sequence);
  }

  lemma KindsApart(j: nat, k: nat)
    requires j < 5 && k < 5
    requires TRANSFER[j].opType == TRANSFER[k].opType && TRANSFER[j].currency == TRANSFER[k].currency
    ensures j == k
  {
  }

  /** Operations that already have the right types and currencies are matched in place. */
  lemma MatchedInPlace(ops: seq<Operation>, m: seq<Operation>)
    requires |ops| == 5 && Matched(m) && multiset(m) == multiset(ops)
    requires forall j :: 0 <= j < 5 ==>
      ops[j].opType == TRANSFER[j].opType && ops[j].amount.Some? && ops[j].amount.value.currency == TRANSFER[j].currency
    ensures m == ops
  {
    forall j | 0 <= j < 5
      ensures m[j] == ops[j]
    {
      assert ops[j] in multiset(m);
      var k :| 0 <= k < 5 && m[k] == ops[j];
      assert Satisfies(m[k], TRANSFER[k]);
      KindsApart(j, k);
    }
  }

  lemma DescribedInPlaceIff(ops: seq<Operation>)
    requires |ops| == 5
    requires forall j :: 0 <= j < 5 ==>
      ops[j].opType == TRANSFER[j].opType && ops[j].amount.Some? && ops[j].amount.value.currency == TRANSFER[j].currency
    ensures GetOperationDescriptions(ops).Success? ==> GetOperationDescriptions(ops).value == ops
    ensures GetOperationDescriptions(ops).Success? <==> Matched(ops)
  {
    var r := GetOperationDescriptions(ops);
    if r.Success? {
      MatchedOperations(ops, r.value);
      MatchedInPlace(ops, r.value);
    }
    if Matched(ops) {
      forall j | 0 <= j < 5
        ensures SATISFIES(ops[j], TRANSFER[j])
      {
        assert Satisfies(ops[j], TRANSFER[j]);
      }
      DescribedIff(ops, ops);
    }
  }

  lemma KindsOfSendOps(tx: SendTx, status: Option<string>)
    requires tx.fee.tfuel.Some? && |tx.inputs| == |tx.outputs| == 1
    ensures var ops := Transfers.SendOps(tx, status); |ops| == 5 && forall j :: 0 <= j < 5 ==>
      ops[j].opType == TRANSFER[j].opType && ops[j].amount.Some? && ops[j].amount.value.currency == TRANSFER[j].currency
  {
    SendOneToOne(tx, status);
  }

  /** The operations of a one-to-one transfer are accepted exactly when it is payable, and
      rebuilding from them gives the transfer back, normalized. */
  lemma TransferRebuiltIff(
    canon: string -> Address, tx: SendTx, status: Option<string>, sequence: nat, gas: GasTerms)
    requires tx.fee.tfuel.Some? && |tx.inputs| == |tx.outputs| == 1
    ensures var p := Payloads(canon, Transfers.SendOps(tx, status), Some(sequence), gas);
      && (p.Success? <==> Payable(tx))
      && (p.Success? ==> p.value.tx == Send(Normalized(canon, tx, sequence)))
  {
    var ops := Transfers.SendOps(tx, status);
    PayableIff(tx, status);
    RebuiltFrom(canon, tx, status, sequence);
    KindsOfSendOps(tx, status);
    DescribedInPlaceIff(ops);
    if GetOperationDescriptions(ops).Success? {
      var m := PayloadOfMatch(canon, ops, sequence, gas);
    }
  }

  /** Nothing but the signature is lost exactly when the transfer was normalized already. */
  lemma RebuiltUnchangedIff(
    canon: string -> Address, tx: SendTx, status: Option<string>, sequence: nat, gas: GasTerms)
    requires tx.fee.tfuel.Some? && |tx.inputs| == |tx.outputs| == 1 && Payable(tx)
    ensures Payloads(canon, Transfers.SendOps(tx, status), Some(sequence), gas).Success?
    ensures var x, y := tx.inputs[0], tx.outputs[0];
      Payloads(canon, Transfers.SendOps(tx, status), Some(sequence), gas).value.tx
        == Send(tx.(inputs := [x.(signature := "")]))
      <==> && tx.fee.theta == Some(0) && x.sequence == sequence
           && canon(x.address) == x.address && canon(y.address) == y.address
           && x.coins.theta.Some? && x.coins.tfuel.Some? && y.coins.theta.Some? && y.coins.tfuel.Some?
  {
    TransferRebuiltIff(canon, tx, status, sequence, gas);
    assert tx.outputs == [tx.outputs[0]];
  }

  // ---------- From operations to a signed transaction ----------

  lemma OneInputSigned(inputs: seq<TxInput>, signer: Address, signature: string)
    requires |inputs| == 1
    ensures SignFirst(inputs, signer, signature)
         == [if inputs[0].address == signer then inputs[0].(signature := signature) else inputs[0]]
  {
    assert inputs[1..] == [];
  }

  /** A transfer that Preprocess accepted and that the account named by Payloads signed
      comes out of Combine with its sender's signature exactly when no output operation came
      first (or both parties are one address spelled twice); its operations are the same. */
  lemma SignedBySenderIff(
    canon: string -> Address, verify: (Tx, Address, string) -> bool, ops: seq<Operation>, sequence: nat, gas: GasTerms,
    signature: string)
    requires |ops| == 5 && Preprocess(ops).Success? && Payloads(canon, ops, Some(sequence), gas).Success?
    requires var p := Payloads(canon, ops, Some(sequence), gas).value; verify(p.tx, canon(p.account), signature)
    requires signature != ""
    ensures var p := Payloads(canon, ops, Some(sequence), gas).value;
      var r := Combine(canon, verify, p.tx, [AccountSignature(p.account, signature)]);
      var m := GetOperationDescriptions(ops).value;
      && r.Success? && r.value.Send? && |r.value.send.inputs| == 1 && r.value.send.fee == p.tx.send.fee
      && r.value.send.outputs == p.tx.send.outputs
      && r.value.send.inputs[0].(signature := "") == p.tx.send.inputs[0]
      && (r.value.send.inputs[0].signature == signature
          <==> ops[0].opType != SendTxOutput || canon(Account(m[2])) == canon(Account(m[0])))
  {
    var p := Payloads(canon, ops, Some(sequence), gas).value;
    var m := PayloadOfMatch(canon, ops, sequence, gas);
    SomeMatched(m, ops);
    OneInputSigned(p.tx.send.inputs, canon(p.account), signature);
  }

  predicate SameButMeta(d: Draft, d': Draft) {
    d.(metadata := None) == d'.(metadata := None)
  }

  lemma {:induction false} SignFirstKeeps(inputs: seq<TxInput>, signer: Address, signature: string)
    ensures var signed := SignFirst(inputs, signer, signature);
      && |signed| == |inputs|
      && forall i :: 0 <= i < |inputs| ==> inputs[i].(signature := "") == signed[i].(signature := "")
  {
    if inputs != [] {
      SignFirstKeeps(inputs[1..], signer, signature);
      assert forall i :: 1 <= i < |inputs| ==> inputs[i] == inputs[1..][i - 1];
    }
  }

  ghost predicate AllSame(ds: seq<Draft>, ds': seq<Draft>) {
    |ds| == |ds'| && forall j :: 0 <= j < |ds| ==> SameButMeta(ds[j], ds'[j])
  }

  lemma AllSameConcat(xs: seq<Draft>, ys: seq<Draft>, xs': seq<Draft>, ys': seq<Draft>)
    requires AllSame(xs, xs') && AllSame(ys, ys')
    ensures AllSame(xs + ys, xs' + ys')
  {
  }

  lemma {:induction false} SigningKeepsDrafts(inputs: seq<TxInput>, signed: seq<TxInput>, fee: int)
    requires |signed| == |inputs|
    requires forall i :: 0 <= i < |inputs| ==> inputs[i].(signature := "") == signed[i].(signature := "")
    ensures AllSame(Transfers.InputDrafts(inputs, fee), Transfers.InputDrafts(signed, fee))
    ensures Transfers.FeePayer(inputs) == Transfers.FeePayer(signed)
  {
    if inputs != [] {
      var n := |inputs| - 1;
      var x, y := inputs[n], signed[n];
      assert x.(signature := "") == y.(signature := "");
      SigningKeepsDrafts(inputs[..n], signed[..n], fee);
      var pair, pair' := Transfers.InputPair(x, fee), Transfers.InputPair(y, fee);
      assert SameButMeta(pair[0], pair'[0]) && SameButMeta(pair[1], pair'[1]);
      var front, front' := Transfers.InputDrafts(inputs[..n], fee), Transfers.InputDrafts(signed[..n], fee);
      AllSameConcat(front, pair, front', pair');
    }
  }

  lemma SendDraftsKept(tx: SendTx, signed: SendTx)
    requires tx.fee.tfuel.Some? && signed == tx.(inputs := signed.inputs) && |signed.inputs| == |tx.inputs|
    requires forall i :: 0 <= i < |tx.inputs| ==> tx.inputs[i].(signature := "") == signed.inputs[i].(signature := "")
    ensures AllSame(Transfers.SendDrafts(tx), Transfers.SendDrafts(signed))
  {
    var fee := tx.fee.tfuel.value;
    SigningKeepsDrafts(tx.inputs, signed.inputs, fee);
    var ins, ins' := Transfers.InputDrafts(tx.inputs, fee), Transfers.InputDrafts(signed.inputs, fee);
    var outs := Transfers.OutputDrafts(tx.outputs);
    var last := [Draft(TxFee, Transfers.FeePayer(tx.inputs), -fee, TFuel, None, [])];
    AllSameConcat(ins, outs, ins', outs);
    AllSameConcat(ins + outs, last, ins' + outs, last);
  }

  /** Metadata is no part of an operation's content. */
  lemma SameContentsPrinted(ds: seq<Draft>, ds': seq<Draft>, status: Option<string>)
    requires AllSame(ds, ds')
    ensures Permutations.Map(CONTENT, Number(ds', status)) == Permutations.Map(CONTENT, Number(ds, status))
  {
    forall j | 0 <= j < |ds|
      ensures Content(Number(ds', status)[j]) == Content(Number(ds, status)[j])
    {
      assert SameButMeta(ds[j], ds'[j]);
      NumberContent(ds, status, j);
      NumberContent(ds', status, j);
    }
  }

  /** Signing changes nothing a client sees of the operations. */
  lemma SigningKeepsContent(tx: SendTx, signer: Address, signature: string, status: Option<string>)
    requires tx.fee.tfuel.Some?
    ensures var signed := tx.(inputs := SignFirst(tx.inputs, signer, signature));
      Permutations.Map(CONTENT, Transfers.SendOps(signed, status))
        == Permutations.Map(CONTENT, Transfers.SendOps(tx, status))
  {
    var signed := tx.(inputs := SignFirst(tx.inputs, signer, signature));
    SignFirstKeeps(tx.inputs, signer, signature);
    SendDraftsKept(tx, signed);
    SameContentsPrinted(Transfers.SendDrafts(tx), Transfers.SendDrafts(signed), status);
  }

  // ---------- Smart contracts ----------

  /** The two operations of a contract call, without those that move nothing. */
  function MovingDrafts(canon: string -> Address, m: seq<Operation>, sequence: nat): seq<Draft>
    requires |m| == 2
  {
    (if Wei(m[0]) == 0 then [] else
       [Draft(SmartContractTxFrom, canon(Account(m[0])), Wei(m[0]), TFuel, Some(Metadata(sequence, "")), [])]) +
    (if Wei(m[1]) == 0 then [] else
       [Draft(SmartContractTxTo, canon(Account(m[1])), Wei(m[1]), TFuel, None, [])])
  }

  ghost predicate MatchedCall(m: seq<Operation>) {
    |m| == 2 && Satisfies(m[0], CONTRACT[0]) && Satisfies(m[1], CONTRACT[1])
  }

  lemma CallDrafts(canon: string -> Address, m: seq<Operation>, sequence: nat, gas: GasTerms)
    requires |m| == 2
    ensures Parsers.ContractDrafts(BuildContract(canon, m, sequence, gas)) == MovingDrafts(canon, m, sequence)
  {
  }

  lemma CallWellFormed(canon: string -> Address, m: seq<Operation>, sequence: nat)
    requires |m| == 2
    ensures WellFormed(Number(MovingDrafts(canon, m, sequence), None))
  {
    WellFormedNumber(MovingDrafts(canon, m, sequence), None);
  }

  predicate Canonical(canon: string -> Address, op: Operation) {
    canon(Account(op)) == Account(op) && CanonicalAmount(op)
  }

  lemma CallUnchangedIff(canon: string -> Address, m: seq<Operation>, sequence: nat)
    requires MatchedCall(m)
    ensures var back := Number(MovingDrafts(canon, m, sequence), None);
      (|back| == 2 && Content(back[0]) == Content(m[0]) && Content(back[1]) == Content(m[1]))
      <==> Wei(m[0]) != 0 && Wei(m[1]) != 0 && Canonical(canon, m[0]) && Canonical(canon, m[1])
  {
    var ds := MovingDrafts(canon, m, sequence);
    AmountPrinted(m[0], CONTRACT[0]);
    AmountPrinted(m[1], CONTRACT[1]);
    if |ds| == 2 {
      NumberContent(ds, None, 0);
      NumberContent(ds, None, 1);
    }
  }

  /** Payloads followed by Parse returns exactly the operations that move something, numbered
      from zero; the client's two operations come back unchanged exactly when both do and
      their addresses and amounts are spelled canonically. */
  lemma ContractRoundTripIff(canon: string -> Address, ops: seq<Operation>, sequence: nat, gas: GasTerms)
    requires |ops| == 2 && GetOperationDescriptions(ops).Success?
    ensures Payloads(canon, ops, Some(sequence), gas).Success?
    ensures var m := GetOperationDescriptions(ops).value;
      var back := ParsedOps(Payloads(canon, ops, Some(sequence), gas).value.tx);
      && |m| == 2
      && back == Number(MovingDrafts(canon, m, sequence), None)
      && WellFormed(back)
      && ((|back| == 2 && Content(back[0]) == Content(m[0]) && Content(back[1]) == Content(m[1]))
          <==> Wei(m[0]) != 0 && Wei(m[1]) != 0 && Canonical(canon, m[0]) && Canonical(canon, m[1]))
  {
    var m := GetOperationDescriptions(ops).value;
    MatchedOperations(ops, m);
    assert MatchedCall(m) by {
      assert Satisfies(m[0], Descriptions(2)[0]) && Satisfies(m[1], Descriptions(2)[1]);
    }
    CallDrafts(canon, m, sequence, gas);
    CallWellFormed(canon, m, sequence);
    CallUnchangedIff(canon, m, sequence);
  }

  // ---------- Sequence numbers ----------

  /** The next sequence number reaches the transaction unchanged exactly when it is
      representable in 53 bits, in particular up to two to the 53 and not right after it.
      A float64 of two to the 64 does not fit a uint64 and says nothing. */
  lemma SequenceSurvivesIff(accountSequence: uint64)
    ensures var n: nat := if accountSequence == 0xFFFF_FFFF_FFFF_FFFF then 0 else accountSequence + 1;
      && (Float64.Round(n) < 0x1_0000_0000_0000_0000 ==>
            (MetadataSequence(accountSequence) == n <==> Float64.Representable(n)))
      && (n <= 0x20_0000_0000_0000 ==> MetadataSequence(accountSequence) == n)
      && (n == 0x20_0000_0000_0001 ==> MetadataSequence(accountSequence) == n - 1)
  {
    Float64.Survives(NextSequence(accountSequence));
  }
}
