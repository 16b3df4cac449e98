/** What Payloads accepts and builds, and what becomes of contract calls. */
module Calls {
  import opened Wrappers
  import opened Transactions
  import opened Operations
  import opened Construction
  import Decimal
  import Parsers

  // ---------- What is accepted and built ----------

  /** Payloads needs a sequence and operations that can be ordered as a contract call or as a
      transfer, and says which of these is missing. */
  lemma PayloadsIff(canon: string -> Address, ops: seq<Operation>, sequence: Option<nat>, gas: GasTerms)
    ensures var p := Payloads(canon, ops, sequence, gas);
      && (p.Success? <==>
            && sequence.Some?
            && exists m :: multiset(m) == multiset(ops) && (CallShape(m) || TransferShape(m)))
      && (sequence.None? ==> p == Failure(MissingSequence))
      && (sequence.Some? && |ops| != 2 && |ops| != 5 ==> p == Failure(InvalidNumberOfOperations))
      && (p.Failure? && sequence.Some? && (|ops| == 2 || |ops| == 5) ==> p.error == NoMatch)
  {
    var r := GetOperationDescriptions(ops);
    ShapesIff(ops, if r.Success? then r.value else []);
    if r.Success? {
      MatchedOperations(ops, r.value);
    } else {
      forall m | multiset(m) == multiset(ops) && (CallShape(m) || TransferShape(m))
        ensures false
      {
        ShapesIff(ops, m);
      }
    }
  }

  /** The call that two operations describe, whatever their order: the caller and what it
      sends, the callee and what it gets, and the request's sequence and gas terms.  The
      first operation's account is asked to sign. */
  lemma CallBuilt(canon: string -> Address, ops: seq<Operation>, m: seq<Operation>, sequence: nat, gas: GasTerms)
    requires multiset(m) == multiset(ops) && CallShape(m)
    ensures var p := Payloads(canon, ops, Some(sequence), gas);
      && p.Success? && p.value.tx.Contract? && |ops| == 2 && p.value.account == Account(ops[0])
      && p.value.tx.contract.from
          == TxInput(canon(Account(m[0])), Coins(Some(0), Some(-Wei(m[0]))), sequence, "")
      && p.value.tx.contract.to == TxOutput(canon(Account(m[1])), Coins(Some(0), Some(Wei(m[1]))))
      && GasTerms(p.value.tx.contract.gasLimit, p.value.tx.contract.gasPrice, p.value.tx.contract.data) == gas
  {
    ShapesIff(ops, m);
    MatchedOperations(ops, m);
  }

  /** The transfer that five operations describe. */
  lemma TransferBuilt(canon: string -> Address, ops: seq<Operation>, m: seq<Operation>, sequence: nat, gas: GasTerms)
    requires multiset(m) == multiset(ops) && TransferShape(m)
    ensures var p := Payloads(canon, ops, Some(sequence), gas);
      && p.Success? && p.value.tx.Send? && |ops| == 5 && p.value.account == Account(ops[0])
      && p.value.tx.send.fee == Coins(Some(0), Some(-Wei(m[4])))
      && p.value.tx.send.inputs
          == [TxInput(canon(Account(m[0])), Coins(Some(-Wei(m[0])), Some(-Wei(m[1]) - Wei(m[4]))), sequence, "")]
      && p.value.tx.send.outputs == [TxOutput(canon(Account(m[2])), Coins(Some(Wei(m[2])), Some(Wei(m[3]))))]
  {
    ShapesIff(ops, m);
    MatchedOperations(ops, m);
  }

  // ---------- From a call to its operations and back ----------

  /** A call that moves nothing but TFuel, and some of it on both sides. */
  predicate Callable(tx: SmartContractTx) {
    && tx.from.coins.Wei(Theta) == 0 && tx.to.coins.Wei(Theta) == 0
    && tx.from.coins.Wei(TFuel) > 0 && tx.to.coins.Wei(TFuel) > 0
  }

  /** The call with nil Theta as zero, canonical addresses, no signature, and the request's
      sequence and gas terms. */
  function NormalizedCall(canon: string -> Address, tx: SmartContractTx, sequence: nat, gas: GasTerms)
    : SmartContractTx
  {
    SmartContractTx(
      TxInput(canon(tx.from.address), Coins(Some(0), tx.from.coins.tfuel), sequence, ""),
      TxOutput(canon(tx.to.address), Coins(Some(0), tx.to.coins.tfuel)),
      gas.limit, gas.price, gas.data)
  }

  lemma SaysWei(op: Operation, t: OpType, a: Address, wei: int, c: Currency, meta: Option<Metadata>)
    requires Says(op, t, a, wei, c, meta)
    ensures Wei(op) == wei && Account(op) == a
    ensures wei <= 0 ==> Debit(op, t, c)
    ensures wei >= 0 ==> Credit(op, t, c)
  {
    Decimal.ParsePrint(wei);
  }

  /** The printed operations of a callable call are its debit and its credit. */
  lemma CallableShape(tx: SmartContractTx)
    requires Callable(tx)
    ensures var ops := ParsedOps(Contract(tx));
      && CallShape(ops)
      && Wei(ops[0]) == -tx.from.coins.tfuel.value && Account(ops[0]) == tx.from.address
      && Wei(ops[1]) == tx.to.coins.tfuel.value && Account(ops[1]) == tx.to.address
  {
    Parsers.CallShown(tx);
    var ops := ParsedOps(Contract(tx));
    SaysWei(ops[0], SmartContractTxFrom, tx.from.address, -tx.from.coins.tfuel.value, TFuel,
            Some(Metadata(tx.from.sequence, tx.from.signature)));
    SaysWei(ops[1], SmartContractTxTo, tx.to.address, tx.to.coins.tfuel.value, TFuel, None);
  }

  lemma CallerDraft(tx: SmartContractTx, d: Draft)
    requires d in Parsers.ContractDrafts(tx) && d.opType == SmartContractTxFrom && d.currency == TFuel
    ensures Parsers.Moves(tx.from.coins.tfuel) && d.wei == -tx.from.coins.tfuel.value
  {
    assert d in Parsers.CallerDrafts(tx.from) || d in Parsers.CalleeDrafts(tx.to);
  }

  lemma CalleeDraft(tx: SmartContractTx, d: Draft)
    requires d in Parsers.ContractDrafts(tx) && d.opType == SmartContractTxTo && d.currency == TFuel
    ensures Parsers.Moves(tx.to.coins.tfuel) && d.wei == tx.to.coins.tfuel.value
  {
    assert d in Parsers.CallerDrafts(tx.from) || d in Parsers.CalleeDrafts(tx.to);
  }

  lemma PrintedDraft(ds: seq<Draft>, op: Operation) returns (d: Draft)
    requires op in Number(ds, None)
    ensures d in ds && Says(op, d.opType, d.account, d.wei, d.currency, d.metadata) && Wei(op) == d.wei
  {
    NumberSays(ds, None);
    var i :| 0 <= i < |ds| && Number(ds, None)[i] == op;
    d := ds[i];
    SaysWei(op, d.opType, d.account, d.wei, d.currency, d.metadata);
  }

  /** A TFuel debit of a caller, or credit of a callee, that a call prints moves something. */
  lemma PrintedFrom(tx: SmartContractTx, op: Operation)
    requires op in ParsedOps(Contract(tx)) && Debit(op, SmartContractTxFrom, TFuel)
    ensures tx.from.coins.Wei(TFuel) > 0
  {
    var d := PrintedDraft(Parsers.ContractDrafts(tx), op);
    CallerDraft(tx, d);
  }

  lemma PrintedTo(tx: SmartContractTx, op: Operation)
    requires op in ParsedOps(Contract(tx)) && Credit(op, SmartContractTxTo, TFuel)
    ensures tx.to.coins.Wei(TFuel) > 0
  {
    var d := PrintedDraft(Parsers.ContractDrafts(tx), op);
    CalleeDraft(tx, d);
  }

  /** At most four operations are printed, and two are the TFuel's only if no Theta moves. */
  lemma CallSize(tx: SmartContractTx)
    ensures |ParsedOps(Contract(tx))| <= 4
    ensures |ParsedOps(Contract(tx))| == 2 && tx.from.coins.Wei(TFuel) > 0 && tx.to.coins.Wei(TFuel) > 0
        ==> Callable(tx)
  {
    Parsers.CallDraftsAt(tx);
  }

  lemma CallableIff(tx: SmartContractTx, m: seq<Operation>)
    requires multiset(m) == multiset(ParsedOps(Contract(tx))) && (CallShape(m) || TransferShape(m))
    ensures Callable(tx)
  {
    var ops := ParsedOps(Contract(tx));
    assert |multiset(m)| == |m| && |multiset(ops)| == |ops|;
    assert m[0] in multiset(m) && m[1] in multiset(m);
    CallSize(tx);
    PrintedFrom(tx, m[0]);
    PrintedTo(tx, m[1]);
  }

  /** The operations of a contract call are accepted exactly when it is callable, and
      rebuilding from them gives the call back, normalized, to be signed by its caller. */
  lemma CallRebuiltIff(canon: string -> Address, tx: SmartContractTx, sequence: nat, gas: GasTerms)
    ensures var p := Payloads(canon, ParsedOps(Contract(tx)), Some(sequence), gas);
      && (p.Success? <==> Callable(tx))
      && (p.Success? ==>
            p.value == Payload(Contract(NormalizedCall(canon, tx, sequence, gas)), tx.from.address))
  {
    var ops := ParsedOps(Contract(tx));
    PayloadsIff(canon, ops, Some(sequence), gas);
    if Callable(tx) {
      CallableShape(tx);
      CallBuilt(canon, ops, ops, sequence, gas);
    }
    if m :| multiset(m) == multiset(ops) && (CallShape(m) || TransferShape(m)) {
      CallableIff(tx, m);
    }
  }

  /** Nothing but the signature is lost exactly when the call was normalized already. */
  lemma CallUnchangedIff(canon: string -> Address, tx: SmartContractTx, sequence: nat, gas: GasTerms)
    requires Callable(tx)
    ensures Payloads(canon, ParsedOps(Contract(tx)), Some(sequence), gas).Success?
    ensures Payloads(canon, ParsedOps(Contract(tx)), Some(sequence), gas).value.tx
         == Contract(tx.(from := tx.from.(signature := "")))
       <==> && tx.from.coins.theta == Some(0) && tx.to.coins.theta == Some(0) && tx.from.sequence == sequence
            && canon(tx.from.address) == tx.from.address && canon(tx.to.address) == tx.to.address
            && gas == GasTerms(tx.gasLimit, tx.gasPrice, tx.data)
  {
    CallRebuiltIff(canon, tx, sequence, gas);
  }

  // ---------- From operations to a signed call ----------

  lemma SomeRole(ops: seq<Operation>, m: seq<Operation>)
    requires multiset(m) == multiset(ops) && CallShape(m)
    ensures |ops| == 2 && Account(ops[0]) == Account(if ops[0].opType == SmartContractTxFrom then m[0] else m[1])
  {
    assert |multiset(m)| == |m| && |multiset(ops)| == |ops|;
    assert ops[0] in multiset(m);
  }

  /** A call signed by the account that Payloads names comes out of Combine unchanged but for
      its caller's signature, exactly when the caller's operation came first (or caller and
      callee are one address); otherwise it comes out unsigned. */
  lemma SignedByCallerIff(
    canon: string -> Address, verify: (Tx, Address, string) -> bool, ops: seq<Operation>, m: seq<Operation>,
    sequence: nat, gas: GasTerms, signature: string)
    requires multiset(m) == multiset(ops) && CallShape(m)
    requires Payloads(canon, ops, Some(sequence), gas).Success?
    requires var p := Payloads(canon, ops, Some(sequence), gas).value; verify(p.tx, canon(p.account), signature)
    ensures var p := Payloads(canon, ops, Some(sequence), gas).value;
      p.tx.Contract? &&
      Combine(canon, verify, p.tx, [AccountSignature(p.account, signature)]) == Success(
        if ops[0].opType == SmartContractTxFrom || canon(Account(m[1])) == canon(Account(m[0]))
        then Contract(p.tx.contract.(from := p.tx.contract.from.(signature := signature)))
        else p.tx)
  {
    var p := Payloads(canon, ops, Some(sequence), gas).value;
    CallBuilt(canon, ops, m, sequence, gas);
    SomeRole(ops, m);
    CombineIff(canon, verify, p.tx, [AccountSignature(p.account, signature)]);
  }
}
