/** Theta's transactions, as far as the adaptor reads and writes them. */
module Transactions {
  import opened Wrappers

  /** An address is represented by its checksummed spelling, the result of `Address.String`. */
  type Address = string

  datatype Currency = Theta | TFuel | OtherCurrency(symbol: string, decimals: int)

  /** Amounts in wei; `None` is a nil `*big.Int`. */
  datatype Coins = Coins(theta: Option<int>, tfuel: Option<int>) {
    /** The amount a coin field stands for: nil counts as zero. */
    function Wei(c: Currency): int {
      match c
      case Theta => theta.GetOr(0)
      case TFuel => tfuel.GetOr(0)
      case OtherCurrency(_, _) => 0
    }

    function NoNil(): Coins {
      Coins(Some(theta.GetOr(0)), Some(tfuel.GetOr(0)))
    }
  }

  datatype TxInput = TxInput(address: Address, coins: Coins, sequence: nat, signature: string)

  datatype TxOutput = TxOutput(address: Address, coins: Coins)

  datatype SendTx = SendTx(fee: Coins, inputs: seq<TxInput>, outputs: seq<TxOutput>)

  datatype SmartContractTx =
    SmartContractTx(from: TxInput, to: TxOutput, gasLimit: nat, gasPrice: int, data: string)

  /** Reserve, release and deposit transactions, restricted to the fields that move coins. */
  datatype SourceTx = SourceTx(fee: Coins, source: TxInput)

  datatype WithdrawStakeTx = WithdrawStakeTx(fee: Coins, source: TxInput, holder: TxOutput, purpose: nat)

  datatype RewardTx = RewardTx(fee: Coins, holder: Address, beneficiary: TxOutput)

  /** One entry of the balance changes the node reports for a contract execution. */
  datatype BalanceChange =
    BalanceChange(address: Address, tokenType: nat, isNegative: bool, delta: int)
}
