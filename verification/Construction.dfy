/** The construction endpoints: operations to transaction and back. */
module Construction {
  import opened Wrappers
  import opened Transactions
  import opened Operations
  import opened BigEndian
  import Decimal
  import Float64
  import Matching
  import Parsers
  import Permutations
  import Transfers

  // ---------- Descriptions ----------

  datatype Sign = NegativeOrZero | PositiveOrZero

  datatype Description = Description(opType: OpType, sign: Sign, currency: Currency)

  const CONTRACT: seq<Description> :=
    [Description(SmartContractTxFrom, NegativeOrZero, TFuel),
     Description(SmartContractTxTo, PositiveOrZero, TFuel)]

  const TRANSFER: seq<Description> :=
    [Description(SendTxInput, NegativeOrZero, Theta),
     Description(SendTxInput, NegativeOrZero, TFuel),
     Description(SendTxOutput, PositiveOrZero, Theta),
     Description(SendTxOutput, PositiveOrZero, TFuel),
     Description(TxFee, NegativeOrZero, TFuel)]

  /** The amount an operation carries, as the matcher reads it. */
  function Wei(op: Operation): int {
    if op.amount.Some? then Decimal.Parse(op.amount.value.value).GetOr(0) else 0
  }

  predicate Satisfies(op: Operation, d: Description) {
    && op.opType == d.opType
    && op.account.Some?
    && op.amount.Some?
    && op.amount.value.currency == d.currency
    && Decimal.Parse(op.amount.value.value).Some?
    && (if d.sign == NegativeOrZero then Wei(op) <= 0 else Wei(op) >= 0)
  }

  const SATISFIES: (Operation, Description) -> bool := (op, d) => Satisfies(op, d)

  datatype Error =
    | InvalidNumberOfOperations | NoMatch | FromAddressMismatch | ToAddressMismatch | SameAccount | MissingSequence
    | NotOneSignature | VerificationFailed
    | UnsupportedTx

  function Descriptions(n: nat): seq<Description> {
    if n == 2 then CONTRACT else TRANSFER
  }

  function GetOperationDescriptions(ops: seq<Operation>): Result<seq<Operation>, Error> {
    if |ops| != 2 && |ops| != 5 then Failure(InvalidNumberOfOperations) else
      match Matching.Match(SATISFIES, Descriptions(|ops|), ops)
      case Some(m) => Success(m)
      case None => Failure(NoMatch)
  }

  lemma DescriptionsDisjoint(n: nat)
    ensures Matching.Disjoint(SATISFIES, Descriptions(n))
  {
    forall op, i, j | 0 <= i < |Descriptions(n)| && 0 <= j < |Descriptions(n)|
                      && SATISFIES(op, Descriptions(n)[i]) && SATISFIES(op, Descriptions(n)[j])
      ensures i == j
    {
    }
  }

  /** The endpoints see exactly the one assignment of the operations to the descriptions. */
  lemma DescribedIff(ops: seq<Operation>, m: seq<Operation>)
    ensures GetOperationDescriptions(ops) == Success(m)
       <==> (|ops| == 2 || |ops| == 5) && Matching.Assignment(SATISFIES, Descriptions(|ops|), ops, m)
  {
    DescriptionsDisjoint(|ops|);
    Matching.MatchIff(SATISFIES, Descriptions(|ops|), ops, m);
  }

  /** An operation of the given type that takes from, or gives to, a named account an amount
      in the given currency. */
  ghost predicate Debit(op: Operation, t: OpType, c: Currency) {
    && op.opType == t && op.account.Some? && op.amount.Some? && op.amount.value.currency == c
    && exists wei: int :: wei <= 0 && Decimal.Parse(op.amount.value.value) == Some(wei)
  }

  ghost predicate Credit(op: Operation, t: OpType, c: Currency) {
    && op.opType == t && op.account.Some? && op.amount.Some? && op.amount.value.currency == c
    && exists wei: int :: wei >= 0 && Decimal.Parse(op.amount.value.value) == Some(wei)
  }

  ghost predicate CallShape(m: seq<Operation>) {
    |m| == 2 && Debit(m[0], SmartContractTxFrom, TFuel) && Credit(m[1], SmartContractTxTo, TFuel)
  }

  ghost predicate TransferShape(m: seq<Operation>) {
    && |m| == 5
    && Debit(m[0], SendTxInput, Theta) && Debit(m[1], SendTxInput, TFuel)
    && Credit(m[2], SendTxOutput, Theta) && Credit(m[3], SendTxOutput, TFuel)
    && Debit(m[4], TxFee, TFuel)
  }

  lemma SatisfiesIff(op: Operation, d: Description)
    ensures d.sign == NegativeOrZero ==> (Satisfies(op, d) <==> Debit(op, d.opType, d.currency))
    ensures d.sign == PositiveOrZero ==> (Satisfies(op, d) <==> Credit(op, d.opType, d.currency))
  {
  }

  lemma CallShapeIff(m: seq<Operation>)
    ensures CallShape(m) <==> |m| == 2 && forall j :: 0 <= j < 2 ==> SATISFIES(m[j], CONTRACT[j])
  {
    if |m| == 2 {
      SatisfiesIff(m[0], CONTRACT[0]);
      SatisfiesIff(m[1], CONTRACT[1]);
      assert (forall j :: 0 <= j < 2 ==> SATISFIES(m[j], CONTRACT[j])) <==>
        SATISFIES(m[0], CONTRACT[0]) && SATISFIES(m[1], CONTRACT[1]);
    }
  }

  lemma TransferShapeIff(m: seq<Operation>)
    ensures TransferShape(m) <==> |m| == 5 && forall j :: 0 <= j < 5 ==> SATISFIES(m[j], TRANSFER[j])
  {
    if |m| == 5 {
      SatisfiesIff(m[0], TRANSFER[0]);
      SatisfiesIff(m[1], TRANSFER[1]);
      SatisfiesIff(m[2], TRANSFER[2]);
      SatisfiesIff(m[3], TRANSFER[3]);
      SatisfiesIff(m[4], TRANSFER[4]);
      assert (forall j :: 0 <= j < 5 ==> SATISFIES(m[j], TRANSFER[j])) <==>
        SATISFIES(m[0], TRANSFER[0]) && SATISFIES(m[1], TRANSFER[1]) && SATISFIES(m[2], TRANSFER[2])
        && SATISFIES(m[3], TRANSFER[3]) && SATISFIES(m[4], TRANSFER[4]);
    }
  }

  /** What the endpoints accept: a debit and a credit of TFuel for a contract call; Theta and
      TFuel debits and credits and a TFuel fee for a transfer; in any order. */
  lemma ShapesIff(ops: seq<Operation>, m: seq<Operation>)
    ensures GetOperationDescriptions(ops) == Success(m)
       <==> multiset(m) == multiset(ops) && (CallShape(m) || TransferShape(m))
    ensures GetOperationDescriptions(ops).Failure? ==>
      GetOperationDescriptions(ops).error == (if |ops| != 2 && |ops| != 5 then InvalidNumberOfOperations else NoMatch)
  {
    DescribedIff(ops, m);
    CallShapeIff(m);
    TransferShapeIff(m);
    if multiset(m) == multiset(ops) {
      assert |multiset(m)| == |m| && |multiset(ops)| == |ops|;
    }
  }

  lemma MatchedOperations(ops: seq<Operation>, m: seq<Operation>)
    requires GetOperationDescriptions(ops) == Success(m)
    ensures |m| == |ops| && multiset(m) == multiset(ops)
    ensures |ops| == 2 || |ops| == 5
    ensures forall j :: 0 <= j < |m| ==> Satisfies(m[j], Descriptions(|ops|)[j])
  {
    DescribedIff(ops, m);
    assert |multiset(m)| == |multiset(ops)|;
    forall j | 0 <= j < |m|
      ensures Satisfies(m[j], Descriptions(|ops|)[j])
    {
      assert SATISFIES(m[j], Descriptions(|ops|)[j]);
    }
  }

  /** What a client says in an operation apart from its place in the list: indexes and
      relations follow from the place, so reordering a request renumbers its operations. */
  type Contents = (OpType, Option<string>, Option<Amount>)

  function Content(op: Operation): Contents {
    (op.opType, op.account, op.amount)
  }

  const CONTENT: Operation -> Contents := op => Content(op)

  predicate SatisfiesContent(c: Contents, d: Description) {
    Satisfies(Operation(0, [], c.0, None, c.1, c.2, None), d)
  }

  const SATISFIES_CONTENT: (Contents, Description) -> bool := (c, d) => SatisfiesContent(c, d)

  lemma ContentsDisjoint(n: nat)
    ensures Matching.Disjoint(SATISFIES_CONTENT, Descriptions(n))
    ensures Matching.SeenThrough(SATISFIES, SATISFIES_CONTENT, CONTENT)
  {
    forall c, i, j | 0 <= i < |Descriptions(n)| && 0 <= j < |Descriptions(n)|
                     && SATISFIES_CONTENT(c, Descriptions(n)[i]) && SATISFIES_CONTENT(c, Descriptions(n)[j])
      ensures i == j
    {
    }
  }

  /** Requests with the same contents in different orders are both matched, with the same
      contents at every description, or both refused with the same error. */
  lemma DescriptionsPermutation(ops: seq<Operation>, ops': seq<Operation>)
    requires multiset(Permutations.Map(CONTENT, ops)) == multiset(Permutations.Map(CONTENT, ops'))
    ensures |ops| == |ops'|
    ensures var r, r' := GetOperationDescriptions(ops), GetOperationDescriptions(ops');
      if r.Success? then r'.Success? && Permutations.Map(CONTENT, r.value) == Permutations.Map(CONTENT, r'.value)
      else r' == r
  {
    assert |multiset(Permutations.Map(CONTENT, ops))| == |multiset(Permutations.Map(CONTENT, ops'))|;
    ContentsDisjoint(|ops|);
    Matching.MatchImages(SATISFIES, SATISFIES_CONTENT, CONTENT, Descriptions(|ops|), ops, ops');
  }

  // ---------- Preprocess ----------

  datatype Kind = SmartContractKind | SendKind

  datatype Preprocessed = Preprocessed(kind: Kind, fee: Option<int>, signer: string)

  /** One payer and one payee, each named consistently. */
  predicate SameParties(m: seq<Operation>)
    requires |m| == 5
  {
    && m[0].account == m[1].account == m[4].account
    && m[2].account == m[3].account
  }

  function Preprocess(ops: seq<Operation>): Result<Preprocessed, Error> {
    var r := GetOperationDescriptions(ops);
    if r.Failure? then Failure(r.error) else
      var m := r.value;
      if |m| == 2 then Success(Preprocessed(SmartContractKind, None, Account(m[0])))
      else if |m| == 5 then
        if m[0].account != m[1].account || m[1].account != m[4].account then Failure(FromAddressMismatch)
        else if m[2].account != m[3].account then Failure(ToAddressMismatch)
        else if m[1].account == m[3].account then Failure(SameAccount)
        else Success(Preprocessed(SendKind, Some(Wei(m[4])), Account(m[0])))
      else Failure(InvalidNumberOfOperations)
  }

  /** m lists the operations in the order of their roles and names one payer and another payee. */
  ghost predicate Acceptable(ops: seq<Operation>, m: seq<Operation>) {
    && multiset(m) == multiset(ops)
    && (CallShape(m) || TransferShape(m))
    && (|m| == 5 ==> SameParties(m) && m[0].account != m[2].account)
  }

  /** Preprocess accepts exactly what has such an order, and takes the fee and the signer
      from it. */
  lemma PreprocessIff(ops: seq<Operation>)
    ensures Preprocess(ops).Success? <==> exists m :: Acceptable(ops, m)
    ensures forall m :: Acceptable(ops, m) ==>
      Preprocess(ops) == Success(if |m| == 2 then Preprocessed(SmartContractKind, None, Account(m[0]))
                                 else Preprocessed(SendKind, Some(Wei(m[4])), Account(m[0])))
  {
    forall m | Acceptable(ops, m)
      ensures GetOperationDescriptions(ops) == Success(m)
    {
      ShapesIff(ops, m);
    }
    if Preprocess(ops).Success? {
      var m := GetOperationDescriptions(ops).value;
      ShapesIff(ops, m);
      assert Acceptable(ops, m);
    }
  }

  ghost predicate Mismatch(m: seq<Operation>, e: Error)
    requires |m| == 5
  {
    if !(m[0].account == m[1].account == m[4].account) then e == FromAddressMismatch
    else if m[2].account != m[3].account then e == ToAddressMismatch
    else m[0].account == m[2].account && e == SameAccount
  }

  /** Why operations are refused: their number, else that they have no such order, else the
      payers, else the payees, else that payer and payee are one. */
  ghost predicate Refusal(ops: seq<Operation>, e: Error) {
    if |ops| != 2 && |ops| != 5 then e == InvalidNumberOfOperations
    else if forall m :: multiset(m) == multiset(ops) ==> !CallShape(m) && !TransferShape(m) then e == NoMatch
    else exists m: seq<Operation> :: multiset(m) == multiset(ops) && TransferShape(m) && Mismatch(m, e)
  }

  lemma RefusedShape(ops: seq<Operation>)
    requires |ops| == 2 || |ops| == 5
    ensures GetOperationDescriptions(ops).Failure?
       <==> forall m :: multiset(m) == multiset(ops) ==> !CallShape(m) && !TransferShape(m)
  {
    forall m | multiset(m) == multiset(ops) && (CallShape(m) || TransferShape(m))
      ensures GetOperationDescriptions(ops) == Success(m)
    {
      ShapesIff(ops, m);
    }
    var r := GetOperationDescriptions(ops);
    if r.Success? {
      ShapesIff(ops, r.value);
    }
  }

  lemma MismatchRefusal(ops: seq<Operation>, m: seq<Operation>)
    requires GetOperationDescriptions(ops) == Success(m) && Preprocess(ops).Failure?
    ensures multiset(m) == multiset(ops) && TransferShape(m) && Mismatch(m, Preprocess(ops).error)
  {
    ShapesIff(ops, m);
  }

  lemma PreprocessRefusal(ops: seq<Operation>)
    requires Preprocess(ops).Failure?
    ensures Refusal(ops, Preprocess(ops).error)
  {
    var r := GetOperationDescriptions(ops);
    if |ops| == 2 || |ops| == 5 {
      RefusedShape(ops);
    }
    if r.Success? {
      MatchedOperations(ops, r.value);
      MismatchRefusal(ops, r.value);
    } else {
      ShapesIff(ops, []);
    }
  }

  datatype OptionValue =
    | TypeOption(kind: Kind) | FeeOption(wei: int) | SignerOption(address: string) | Copied(json: string)

  function CopiedOptions(metadata: map<string, string>): map<string, OptionValue> {
    map k | k in metadata && k in {"gas_limit", "gas_price", "data"} :: Copied(metadata[k])
  }

  /** The three keys are copied if they are there, with their values. */
  ghost predicate CopiesMetadata(options: map<string, OptionValue>, metadata: map<string, string>) {
    && (if "gas_limit" in metadata then "gas_limit" in options && options["gas_limit"] == Copied(metadata["gas_limit"])
        else "gas_limit" !in options)
    && (if "gas_price" in metadata then "gas_price" in options && options["gas_price"] == Copied(metadata["gas_price"])
        else "gas_price" !in options)
    && (if "data" in metadata then "data" in options && options["data"] == Copied(metadata["data"])
        else "data" !in options)
  }

  lemma CopiedMetadata(base: map<string, OptionValue>, metadata: map<string, string>)
    requires base.Keys <= {"type", "signer", "fee"}
    ensures CopiesMetadata(base + CopiedOptions(metadata), metadata)
    ensures var options := base + CopiedOptions(metadata);
      && (forall k :: k in base ==> k in options && options[k] == base[k])
      && (forall k :: k in options ==> k in base || k in {"gas_limit", "gas_price", "data"})
  {
  }

  method CopyMetadata(base: map<string, OptionValue>, metadata: map<string, string>)
    returns (options: map<string, OptionValue>)
    ensures options == base + CopiedOptions(metadata)
  {
    options := base;
    if "gas_limit" in metadata {
      options := options["gas_limit" := Copied(metadata["gas_limit"])];
    }
    if "gas_price" in metadata {
      options := options["gas_price" := Copied(metadata["gas_price"])];
    }
    if "data" in metadata {
      options := options["data" := Copied(metadata["data"])];
    }
  }

  /** The options before the metadata is copied. */
  function BaseOptions(p: Preprocessed): map<string, OptionValue> {
    (if p.fee.Some? then map["type" := TypeOption(p.kind), "fee" := FeeOption(p.fee.value)]
     else map["type" := TypeOption(p.kind)])
    ["signer" := SignerOption(p.signer)]
  }

  /** The checks of the matched operations, in the order in which the endpoint makes them. */
  method CheckOperations(ops: seq<Operation>) returns (r: Result<map<string, OptionValue>, Error>)
    ensures Preprocess(ops).Failure? ==> r == Failure(Preprocess(ops).error)
    ensures Preprocess(ops).Success? ==> r == Success(BaseOptions(Preprocess(ops).value))
  {
    var options: map<string, OptionValue> := map[];
    var d := GetOperationDescriptions(ops);
    if d.Failure? {
      return Failure(d.error);
    }
    var matches := d.value;
    MatchedOperations(ops, matches);
    if |matches| == 2 {
      options := options["type" := TypeOption(SmartContractKind)];
    } else {
      var from, fromTFuel, to, toTFuel, fee := matches[0], matches[1], matches[2], matches[3], matches[4];
      if from.account != fromTFuel.account || fromTFuel.account != fee.account {
        return Failure(FromAddressMismatch);
      }
      if to.account != toTFuel.account {
        return Failure(ToAddressMismatch);
      }
      if fromTFuel.account == toTFuel.account {
        return Failure(SameAccount);
      }
      options := options["type" := TypeOption(SendKind)];
      options := options["fee" := FeeOption(Wei(fee))];
    }
    options := options["signer" := SignerOption(Account(matches[0]))];
    r := Success(options);
  }

  /** The options say what is being built: a contract call, or a transfer with its fee; and
      who signs. */
  ghost predicate Describes(options: map<string, OptionValue>, m: seq<Operation>)
    requires |m| == 2 || |m| == 5
  {
    && "type" in options && options["type"] == TypeOption(if |m| == 2 then SmartContractKind else SendKind)
    && "signer" in options && options["signer"] == SignerOption(Account(m[0]))
    && (if |m| == 5 then "fee" in options && options["fee"] == FeeOption(Wei(m[4])) else "fee" !in options)
  }

  lemma BaseDescribes(ops: seq<Operation>, m: seq<Operation>)
    requires Acceptable(ops, m) && Preprocess(ops).Success?
    ensures Describes(BaseOptions(Preprocess(ops).value), m)
  {
    PreprocessIff(ops);
  }

  lemma CopyDescribes(base: map<string, OptionValue>, metadata: map<string, string>, m: seq<Operation>)
    requires base.Keys <= {"type", "signer", "fee"} && (|m| == 2 || |m| == 5) && Describes(base, m)
    ensures Describes(base + CopiedOptions(metadata), m)
  {
    CopiedMetadata(base, metadata);
  }

  lemma OptionsDescribe(ops: seq<Operation>, metadata: map<string, string>)
    requires Preprocess(ops).Success?
    ensures var options := BaseOptions(Preprocess(ops).value) + CopiedOptions(metadata);
      forall m :: Acceptable(ops, m) ==> Describes(options, m)
  {
    forall m | Acceptable(ops, m)
      ensures Describes(BaseOptions(Preprocess(ops).value) + CopiedOptions(metadata), m)
    {
      BaseDescribes(ops, m);
      CopyDescribes(BaseOptions(Preprocess(ops).value), metadata, m);
    }
  }

  /** The options are the type, the signer, a transfer's fee and what the metadata has of the
      three keys that are copied; the error is the first check that fails. */
  method ConstructionPreprocess(ops: seq<Operation>, metadata: map<string, string>)
    returns (r: Result<map<string, OptionValue>, Error>)
    ensures r.Success? <==> exists m :: Acceptable(ops, m)
    ensures r.Success? ==> forall m :: Acceptable(ops, m) ==> Describes(r.value, m)
    ensures r.Success? ==> CopiesMetadata(r.value, metadata)
    ensures r.Success? ==> r.value.Keys <= {"type", "signer", "fee", "gas_limit", "gas_price", "data"}
    ensures r.Failure? ==> Refusal(ops, r.error)
  {
    PreprocessIff(ops);
    r := CheckOperations(ops);
    if r.Failure? {
      PreprocessRefusal(ops);
      return;
    }
    var base := r.value;
    var options := CopyMetadata(base, metadata);
    CopiedMetadata(base, metadata);
    OptionsDescribe(ops, metadata);
    r := Success(options);
  }

  // ---------- Payloads ----------

  /** A decoded transaction; the endpoints support two of Theta's types. */
  datatype Tx = Send(send: SendTx) | Contract(contract: SmartContractTx) | OtherTx(name: string)

  /** Gas terms and contract data come from the request's metadata, already decoded. */
  datatype GasTerms = GasTerms(limit: nat, price: int, data: string)

  /** The unsigned transaction and the account that is asked to sign it. */
  datatype Payload = Payload(tx: Tx, account: string)

  /** `canon` is HexToAddress followed by Address.String: the checksummed spelling. */
  function BuildContract(canon: string -> Address, m: seq<Operation>, sequence: nat, gas: GasTerms): SmartContractTx
    requires |m| == 2
  {
    SmartContractTx(
      TxInput(canon(Account(m[0])), Coins(Some(0), Some(-Wei(m[0]))), sequence, ""),
      TxOutput(canon(Account(m[1])), Coins(Some(0), Some(Wei(m[1])))),
      gas.limit, gas.price, gas.data)
  }

  function BuildSend(canon: string -> Address, m: seq<Operation>, sequence: nat): SendTx
    requires |m| == 5
  {
    var feeWei := -Wei(m[4]);
    SendTx(
      Coins(Some(0), Some(feeWei)),
      [TxInput(canon(Account(m[0])), Coins(Some(-Wei(m[0])), Some(-Wei(m[1]) + feeWei)), sequence, "")],
      [TxOutput(canon(Account(m[2])), Coins(Some(Wei(m[2])), Some(Wei(m[3]))))])
  }

  /** `sequence` is the metadata's JSON number truncated to uint64, if it is there at all. */
  function Payloads(canon: string -> Address, ops: seq<Operation>, sequence: Option<nat>, gas: GasTerms)
    : Result<Payload, Error>
  {
    if sequence.None? then Failure(MissingSequence) else
      var r := GetOperationDescriptions(ops);
      if r.Failure? then Failure(r.error)
      else if |ops| == 2 && |r.value| == 2 then
        Success(Payload(Contract(BuildContract(canon, r.value, sequence.value, gas)), Account(ops[0])))
      else if |ops| == 5 && |r.value| == 5 then
        Success(Payload(Send(BuildSend(canon, r.value, sequence.value)), Account(ops[0])))
      else Failure(InvalidNumberOfOperations)
  }

  // ---------- Parse ----------

  datatype ParseMetadata = SendMetadata(fee: Coins) | ContractMetadata(gas: GasTerms)

  datatype ParseResponse = ParseResponse(metadata: ParseMetadata, ops: seq<Operation>, signers: seq<Address>)

  function ParsedOps(tx: Tx): seq<Operation>
    requires tx.Send? ==> tx.send.fee.tfuel.Some?
    requires !tx.OtherTx?
  {
    match tx
    case Send(send) => Transfers.SendOps(send, None)
    case Contract(contract) => Number(Parsers.ContractDrafts(contract), None)
  }

  /** What the coins in a transaction's inputs and outputs do to an account. */
  function TxEffect(tx: Tx, a: Address, c: Currency): int
    requires !tx.OtherTx?
  {
    match tx
    case Send(send) => Transfers.TrueEffect(send, a, c)
    case Contract(x) => Parsers.Held(x.to.address, x.to.coins, a, c) - Parsers.Held(x.from.address, x.from.coins, a, c)
  }

  /** The operations change every balance as the transaction does. */
  ghost predicate ShowsEffect(ops: seq<Operation>, tx: Tx)
    requires !tx.OtherTx?
  {
    forall a, c :: Delta(ops, a, c) == TxEffect(tx, a, c)
  }

  lemma SendShowsEffect(tx: SendTx)
    requires tx.fee.tfuel.Some?
    ensures ShowsEffect(Transfers.SendOps(tx, None), Send(tx)) <==> |tx.inputs| == 1 || tx.fee.tfuel.value == 0
  {
    Transfers.SendFaithfulIff(tx, None);
    if ShowsEffect(Transfers.SendOps(tx, None), Send(tx)) {
      forall a, c
        ensures Delta(Transfers.SendOps(tx, None), a, c) == Transfers.TrueEffect(tx, a, c)
      {
        assert Delta(Transfers.SendOps(tx, None), a, c) == TxEffect(Send(tx), a, c);
      }
    }
  }

  /** ConstructionParse, after the codec: a transfer's fee and first input are dereferenced.
      The answer is well formed; as balance changes, it is what the transaction does unless a
      fee is taken off the inputs of a transfer that has several. */
  method ConstructionParse(tx: Tx, signed: bool) returns (r: Result<ParseResponse, Error>)
    requires tx.Send? ==> tx.send.fee.tfuel.Some? && tx.send.inputs != []
    ensures tx.OtherTx? ==> r == Failure(UnsupportedTx)
    ensures r.Failure? ==> tx.OtherTx?
    ensures r.Success? ==>
      && r.value.ops == ParsedOps(tx)
      && WellFormed(r.value.ops) && Chained(r.value.ops, None)
      && (ShowsEffect(r.value.ops, tx) <==> (tx.Send? ==> |tx.send.inputs| == 1 || tx.send.fee.tfuel.value == 0))
    ensures r.Success? && tx.Send? ==>
      && r.value.metadata == SendMetadata(tx.send.fee)
      && r.value.signers == if signed then [tx.send.inputs[0].address] else []
    ensures r.Success? && tx.Contract? ==>
      && r.value.metadata == ContractMetadata(GasTerms(tx.contract.gasLimit, tx.contract.gasPrice, tx.contract.data))
      && r.value.signers == if signed then [tx.contract.from.address] else []
  {
    var signer, metadata, ops;
    match tx {
      case Send(send) =>
        signer := send.inputs[0].address;
        metadata := SendMetadata(send.fee);
        ops := Transfers.ParseSendTx(send, None);
        Transfers.SendWellFormedIff(send, None);
        SendShowsEffect(send);
        Transfers.SendPrinted(send, None);
      case Contract(contract) =>
        signer := contract.from.address;
        metadata := ContractMetadata(GasTerms(contract.gasLimit, contract.gasPrice, contract.data));
        ops := Parsers.ParseSmartContractTxForConstruction(contract);
      case OtherTx(_) =>
        return Failure(UnsupportedTx);
    }
    r := Success(ParseResponse(metadata, ops, if signed then [signer] else []));
  }

  // ---------- Combine ----------

  /** `SetSignature` of Theta's ledger types, which is not part of the repository: it signs
      the first input of the given address, if there is one. */
  function SignFirst(inputs: seq<TxInput>, signer: Address, signature: string): seq<TxInput> {
    if inputs == [] then []
    else if inputs[0].address == signer then [inputs[0].(signature := signature)] + inputs[1..]
    else [inputs[0]] + SignFirst(inputs[1..], signer, signature)
  }

  function SetSignature(tx: Tx, signer: Address, signature: string): Tx
    requires !tx.OtherTx?
  {
    match tx
    case Send(send) => Send(send.(inputs := SignFirst(send.inputs, signer, signature)))
    case Contract(contract) =>
      if contract.from.address == signer
      then Contract(contract.(from := contract.from.(signature := signature))) else tx
  }

  datatype AccountSignature = AccountSignature(account: string, signature: string)

  /** The signature is checked against the account it claims, not against the sender. */
  function Combine(
    canon: string -> Address, verify: (Tx, Address, string) -> bool, tx: Tx, signatures: seq<AccountSignature>)
    : Result<Tx, Error>
  {
    if |signatures| != 1 then Failure(NotOneSignature) else
      var signer := canon(signatures[0].account);
      if !verify(tx, signer, signatures[0].signature) then Failure(VerificationFailed)
      else if tx.OtherTx? then Failure(UnsupportedTx)
      else Success(SetSignature(tx, signer, signatures[0].signature))
  }

  /** Input k is the first of the signer's. */
  ghost predicate First(inputs: seq<TxInput>, signer: Address, k: nat)
    requires k < |inputs|
  {
    inputs[k].address == signer && forall i :: 0 <= i < k ==> inputs[i].address != signer
  }

  lemma FirstLater(inputs: seq<TxInput>, signer: Address, k: nat)
    requires 0 < k < |inputs| && inputs[0].address != signer
    ensures First(inputs, signer, k) <==> First(inputs[1..], signer, k - 1)
  {
    if First(inputs[1..], signer, k - 1) {
      forall i | 0 <= i < k
        ensures inputs[i].address != signer
      {
        assert i > 0 ==> inputs[i] == inputs[1..][i - 1];
      }
    }
  }

  lemma {:induction false} SignFirstAt(inputs: seq<TxInput>, signer: Address, signature: string, k: nat)
    requires k < |inputs|
    ensures |SignFirst(inputs, signer, signature)| == |inputs|
    ensures SignFirst(inputs, signer, signature)[k]
         == if First(inputs, signer, k) then inputs[k].(signature := signature) else inputs[k]
  {
    if inputs[0].address != signer && k > 0 {
      SignFirstAt(inputs[1..], signer, signature, k - 1);
      FirstLater(inputs, signer, k);
    } else if inputs[0].address != signer && |inputs| > 1 {
      SignFirstAt(inputs[1..], signer, signature, 0);
    }
  }

  /** signed is the transaction with the signature at the signer's first input, if it has
      one, and nothing else changed. */
  ghost predicate Signed(tx: Tx, signed: Tx, signer: Address, signature: string) {
    match tx
    case Send(x) =>
      && signed.Send? && signed.send.fee == x.fee && signed.send.outputs == x.outputs
      && |signed.send.inputs| == |x.inputs|
      && forall k :: 0 <= k < |x.inputs| ==>
        signed.send.inputs[k]
          == if First(x.inputs, signer, k) then x.inputs[k].(signature := signature) else x.inputs[k]
    case Contract(x) =>
      signed == if x.from.address == signer then Contract(x.(from := x.from.(signature := signature))) else tx
    case OtherTx(_) => false
  }

  lemma SetSignatureSigns(tx: Tx, signer: Address, signature: string)
    requires !tx.OtherTx?
    ensures Signed(tx, SetSignature(tx, signer, signature), signer, signature)
  {
    if tx.Send? {
      var inputs := tx.send.inputs;
      forall k | 0 <= k < |inputs|
        ensures |SignFirst(inputs, signer, signature)| == |inputs|
        ensures SignFirst(inputs, signer, signature)[k]
             == if First(inputs, signer, k) then inputs[k].(signature := signature) else inputs[k]
      {
        SignFirstAt(inputs, signer, signature, k);
      }
    }
  }

  /** Combine succeeds exactly with one signature that verifies for the account it claims, on
      a supported transaction, and then signs for that account and changes nothing else. */
  lemma CombineIff(
    canon: string -> Address, verify: (Tx, Address, string) -> bool, tx: Tx, signatures: seq<AccountSignature>)
    ensures var r := Combine(canon, verify, tx, signatures);
      && (r.Success? <==>
            |signatures| == 1 && verify(tx, canon(signatures[0].account), signatures[0].signature) && !tx.OtherTx?)
      && (r.Success? ==> Signed(tx, r.value, canon(signatures[0].account), signatures[0].signature))
      && (|signatures| != 1 ==> r == Failure(NotOneSignature))
      && (|signatures| == 1 && !verify(tx, canon(signatures[0].account), signatures[0].signature) ==>
            r == Failure(VerificationFailed))
      && (r.Failure? && r.error != NotOneSignature && r.error != VerificationFailed ==>
            tx.OtherTx? && r.error == UnsupportedTx)
  {
    if !tx.OtherTx? && |signatures| == 1 {
      SetSignatureSigns(tx, canon(signatures[0].account), signatures[0].signature);
    }
  }

  // ---------- Sequence ----------

  /** One more than the account's sequence, as a uint64. */
  function NextSequence(accountSequence: uint64): uint64 {
    Plus(accountSequence, 1)
  }

  /** The next sequence as it comes back from the metadata's JSON number. */
  function MetadataSequence(accountSequence: uint64): nat {
    Float64.Round(NextSequence(accountSequence))
  }
}
