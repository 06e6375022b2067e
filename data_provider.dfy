/**
 * The wallet-facing views the `DataProvider` computes from the stored records: the
 * description of one transaction, the balance of the spendable outputs and the description
 * of the highest block. The store's queries are given as sequences of records.
 */
module WalletView {
  import opened Common

  /** The key that owns an output, when the output is the wallet's. */
  datatype PublicKey = PublicKey(keyHash: Hash)

  /** A stored output; `spendingInputs` counts the stored inputs that spend it. */
  datatype TransactionOutput = TransactionOutput(
    value: int,
    publicKey: Option<PublicKey>,
    scriptType: ScriptType,
    address: Option<string>,
    spendingInputs: nat)

  /** A stored input, with the output it spends when that output is known. */
  datatype TransactionInput = TransactionInput(previousOutput: Option<TransactionOutput>, address: Option<string>)

  datatype Header = Header(timestamp: int)

  datatype Block = Block(reversedHeaderHashHex: string, height: int, header: Option<Header>)

  datatype Transaction = Transaction(
    reversedHashHex: string,
    inputs: seq<TransactionInput>,
    outputs: seq<TransactionOutput>,
    block: Option<Block>)

  datatype TransactionAddressInfo = TransactionAddressInfo(address: string, mine: bool)

  datatype TransactionInfo = TransactionInfo(
    transactionHash: string,
    from: seq<TransactionAddressInfo>,
    to: seq<TransactionAddressInfo>,
    amount: int,
    blockHeight: Option<int>,
    timestamp: Option<int>)

  datatype BlockInfo = BlockInfo(headerHash: string, height: int, timestamp: Option<int>)

  /** An output belongs to the wallet when a public key of the wallet is attached to it. */
  predicate IsMine(output: TransactionOutput) {
    output.publicKey.Some?
  }

  /** An input spends one of the wallet's outputs. */
  predicate SpendsMine(input: TransactionInput) {
    input.previousOutput.Some? && IsMine(input.previousOutput.value)
  }

  // ---------------------------------------------------------------------------------------
  // transactionInfo(fromTransaction:)
  // ---------------------------------------------------------------------------------------

  /** The value of the wallet's outputs that `inputs` spend. */
  function MineInputTotal(inputs: seq<TransactionInput>): (r: int)
    ensures (forall i :: 0 <= i < |inputs| ==> !SpendsMine(inputs[i])) ==> r == 0
    ensures (forall i :: 0 <= i < |inputs| && SpendsMine(inputs[i]) ==> inputs[i].previousOutput.value.value >= 0) ==> r >= 0
  {
    if inputs == [] then 0
    else
      var last := inputs[|inputs| - 1];
      MineInputTotal(inputs[..|inputs| - 1]) + (if SpendsMine(last) then last.previousOutput.value.value else 0)
  }

  /** The value `outputs` pay to the wallet. */
  function MineOutputTotal(outputs: seq<TransactionOutput>): (r: int)
    ensures (forall i :: 0 <= i < |outputs| ==> !IsMine(outputs[i])) ==> r == 0
    ensures (forall i :: 0 <= i < |outputs| && IsMine(outputs[i]) ==> outputs[i].value >= 0) ==> r >= 0
  {
    if outputs == [] then 0
    else
      var last := outputs[|outputs| - 1];
      MineOutputTotal(outputs[..|outputs| - 1]) + (if IsMine(last) then last.value else 0)
  }

  /** The `from` list: an entry for each input that has an address, in input order. */
  function FromAddresses(inputs: seq<TransactionInput>): (r: seq<TransactionAddressInfo>)
    ensures |r| <= |inputs|
  {
    if inputs == [] then []
    else
      var last := inputs[|inputs| - 1];
      FromAddresses(inputs[..|inputs| - 1])
        + (if last.address.Some? then [TransactionAddressInfo(last.address.value, SpendsMine(last))] else [])
  }

  /** The `to` list: an entry for each output that has an address, in output order. */
  function ToAddresses(outputs: seq<TransactionOutput>): (r: seq<TransactionAddressInfo>)
    ensures |r| <= |outputs|
  {
    if outputs == [] then []
    else
      var last := outputs[|outputs| - 1];
      ToAddresses(outputs[..|outputs| - 1])
        + (if last.address.Some? then [TransactionAddressInfo(last.address.value, IsMine(last))] else [])
  }

  /**
   * `transactionInfo(fromTransaction:)`: what the wallet received minus what it spent, the
   * addresses on both sides, and the block's height and time when the transaction is in one.
   */
  method TransactionInfoOf(transaction: Transaction) returns (info: TransactionInfo)
    ensures info.transactionHash == transaction.reversedHashHex
    ensures info.amount == MineOutputTotal(transaction.outputs) - MineInputTotal(transaction.inputs)
    ensures info.from == FromAddresses(transaction.inputs)
    ensures info.to == ToAddresses(transaction.outputs)
    ensures transaction.block.None? ==> info.blockHeight.None? && info.timestamp.None?
    ensures transaction.block.Some? ==>
      && info.blockHeight == Some(transaction.block.value.height)
      && info.timestamp == (match transaction.block.value.header
                            case None => None
                            case Some(h) => Some(h.timestamp))
  {
    var totalMineInput := 0;
    var totalMineOutput := 0;
    var fromAddresses: seq<TransactionAddressInfo> := [];
    var toAddresses: seq<TransactionAddressInfo> := [];

    var inputs := transaction.inputs;
    var k := 0;
    while k < |inputs|
      invariant 0 <= k <= |inputs|
      invariant totalMineInput == MineInputTotal(inputs[..k])
      invariant fromAddresses == FromAddresses(inputs[..k])
    {
      var input := inputs[k];
      assert inputs[..k + 1][..k] == inputs[..k];
      if input.previousOutput.Some? {
        if input.previousOutput.value.publicKey.Some? {
          totalMineInput := totalMineInput + input.previousOutput.value.value;
        }
      }
      var mine := input.previousOutput.Some? && input.previousOutput.value.publicKey.Some?;
      if input.address.Some? {
        fromAddresses := fromAddresses + [TransactionAddressInfo(input.address.value, mine)];
      }
      k := k + 1;
    }
    assert inputs[..k] == inputs;

    var outputs := transaction.outputs;
    k := 0;
    while k < |outputs|
      invariant 0 <= k <= |outputs|
      invariant totalMineOutput == MineOutputTotal(outputs[..k])
      invariant toAddresses == ToAddresses(outputs[..k])
    {
      var output := outputs[k];
      assert outputs[..k + 1][..k] == outputs[..k];
      var mine := false;
      if output.publicKey.Some? {
        totalMineOutput := totalMineOutput + output.value;
        mine := true;
      }
      if output.address.Some? {
        toAddresses := toAddresses + [TransactionAddressInfo(output.address.value, mine)];
      }
      k := k + 1;
    }
    assert outputs[..k] == outputs;

    var amount := totalMineOutput - totalMineInput;
    var blockHeight: Option<int> := None;
    var timestamp: Option<int> := None;
    if transaction.block.Some? {
      blockHeight := Some(transaction.block.value.height);
      if transaction.block.value.header.Some? {
        timestamp := Some(transaction.block.value.header.value.timestamp);
      }
    }
    info := TransactionInfo(transaction.reversedHashHex, fromAddresses, toAddresses, amount, blockHeight, timestamp);
  }

  /** The spent value adds up input by input. */
  lemma {:induction false} MineInputTotalConcat(a: seq<TransactionInput>, b: seq<TransactionInput>)
    ensures MineInputTotal(a + b) == MineInputTotal(a) + MineInputTotal(b)
    decreases |b|
  {
    if b == [] {
      assert a + b == a;
    } else {
      assert (a + b)[..|a + b| - 1] == a + b[..|b| - 1];
      MineInputTotalConcat(a, b[..|b| - 1]);
    }
  }

  /** The received value adds up output by output. */
  lemma {:induction false} MineOutputTotalConcat(a: seq<TransactionOutput>, b: seq<TransactionOutput>)
    ensures MineOutputTotal(a + b) == MineOutputTotal(a) + MineOutputTotal(b)
    decreases |b|
  {
    if b == [] {
      assert a + b == a;
    } else {
      assert (a + b)[..|a + b| - 1] == a + b[..|b| - 1];
      MineOutputTotalConcat(a, b[..|b| - 1]);
    }
  }

  /**
   * An input that does not spend one of the wallet's outputs — in particular one whose
   * previous output is unknown — leaves the spent value unchanged wherever it stands.
   */
  lemma InputNotSpendingMineAddsNothing(a: seq<TransactionInput>, input: TransactionInput, b: seq<TransactionInput>)
    requires !SpendsMine(input)
    ensures MineInputTotal(a + [input] + b) == MineInputTotal(a + b)
  {
    MineInputTotalConcat(a + [input], b);
    MineInputTotalConcat(a, [input]);
    MineInputTotalConcat(a, b);
    assert [input][..0] == [];
  }

  /** An input spending the wallet's output of value `v` adds exactly `v` to the spent value. */
  lemma InputSpendingMineAddsItsValue(a: seq<TransactionInput>, input: TransactionInput, b: seq<TransactionInput>)
    requires SpendsMine(input)
    ensures MineInputTotal(a + [input] + b) == MineInputTotal(a + b) + input.previousOutput.value.value
  {
    MineInputTotalConcat(a + [input], b);
    MineInputTotalConcat(a, [input]);
    MineInputTotalConcat(a, b);
    assert [input][..0] == [];
  }

  /** The `from` list of a concatenation is the concatenation of the `from` lists. */
  lemma {:induction false} FromAddressesConcat(a: seq<TransactionInput>, b: seq<TransactionInput>)
    ensures FromAddresses(a + b) == FromAddresses(a) + FromAddresses(b)
    decreases |b|
  {
    if b == [] {
      assert a + b == a;
    } else {
      assert (a + b)[..|a + b| - 1] == a + b[..|b| - 1];
      FromAddressesConcat(a, b[..|b| - 1]);
    }
  }

  /** The `to` list of a concatenation is the concatenation of the `to` lists. */
  lemma {:induction false} ToAddressesConcat(a: seq<TransactionOutput>, b: seq<TransactionOutput>)
    ensures ToAddresses(a + b) == ToAddresses(a) + ToAddresses(b)
    decreases |b|
  {
    if b == [] {
      assert a + b == a;
    } else {
      assert (a + b)[..|a + b| - 1] == a + b[..|b| - 1];
      ToAddressesConcat(a, b[..|b| - 1]);
    }
  }

  /**
   * When every input has an address, `from` has one entry per input, in input order, and an
   * entry is marked mine exactly when its input spends one of the wallet's outputs.
   */
  lemma {:induction false} FromAddressesOfAddressedInputs(inputs: seq<TransactionInput>)
    requires forall k :: 0 <= k < |inputs| ==> inputs[k].address.Some?
    ensures |FromAddresses(inputs)| == |inputs|
    ensures forall k :: 0 <= k < |inputs| ==>
      FromAddresses(inputs)[k] == TransactionAddressInfo(inputs[k].address.value, SpendsMine(inputs[k]))
    decreases |inputs|
  {
    if inputs != [] {
      var init := inputs[..|inputs| - 1];
      FromAddressesOfAddressedInputs(init);
      forall k | 0 <= k < |inputs|
        ensures FromAddresses(inputs)[k] == TransactionAddressInfo(inputs[k].address.value, SpendsMine(inputs[k]))
      {
        if k < |inputs| - 1 {
          assert inputs[k] == init[k];
        }
      }
    }
  }

  /** An input without an address adds no `from` entry. */
  lemma FromAddressesSkipUnaddressed(a: seq<TransactionInput>, input: TransactionInput, b: seq<TransactionInput>)
    requires input.address.None?
    ensures FromAddresses(a + [input] + b) == FromAddresses(a + b)
  {
    FromAddressesConcat(a + [input], b);
    FromAddressesConcat(a, [input]);
    FromAddressesConcat(a, b);
    assert [input][..0] == [];
  }

  /**
   * When every output has an address, `to` has one entry per output, in output order, and an
   * entry is marked mine exactly when the output is the wallet's.
   */
  lemma {:induction false} ToAddressesOfAddressedOutputs(outputs: seq<TransactionOutput>)
    requires forall k :: 0 <= k < |outputs| ==> outputs[k].address.Some?
    ensures |ToAddresses(outputs)| == |outputs|
    ensures forall k :: 0 <= k < |outputs| ==>
      ToAddresses(outputs)[k] == TransactionAddressInfo(outputs[k].address.value, IsMine(outputs[k]))
    decreases |outputs|
  {
    if outputs != [] {
      var init := outputs[..|outputs| - 1];
      ToAddressesOfAddressedOutputs(init);
      forall k | 0 <= k < |outputs|
        ensures ToAddresses(outputs)[k] == TransactionAddressInfo(outputs[k].address.value, IsMine(outputs[k]))
      {
        if k < |outputs| - 1 {
          assert outputs[k] == init[k];
        }
      }
    }
  }

  /** An output without an address adds no `to` entry. */
  lemma ToAddressesSkipUnaddressed(a: seq<TransactionOutput>, output: TransactionOutput, b: seq<TransactionOutput>)
    requires output.address.None?
    ensures ToAddresses(a + [output] + b) == ToAddresses(a + b)
  {
    ToAddressesConcat(a + [output], b);
    ToAddressesConcat(a, [output]);
    ToAddressesConcat(a, b);
    assert [output][..0] == [];
  }

  /** A payment of 30000 from the wallet's 50000 output, with 19000 coming back as change. */
  method SpendingTransactionExample() {
    var key := PublicKey([1]);
    var funding := TransactionOutput(50000, Some(key), P2PKH, Some("mine"), 1);
    var spend := TransactionInput(Some(funding), Some("mine"));
    var unknown := TransactionInput(None, None);
    var payment := TransactionOutput(30000, None, P2PKH, Some("theirs"), 0);
    var change := TransactionOutput(19000, Some(key), P2PKH, Some("change"), 0);
    var tx := Transaction("ab", [spend, unknown], [payment, change], None);
    var info := TransactionInfoOf(tx);
    assert [spend, unknown][..1] == [spend] && [spend][..0] == [];
    assert [payment, change][..1] == [payment] && [payment][..0] == [];
    assert MineInputTotal([spend]) == 50000;
    assert MineOutputTotal([payment]) == 0;
    assert info.amount == -31000;
    assert info.from == [TransactionAddressInfo("mine", true)];
    assert info.to == [TransactionAddressInfo("theirs", false), TransactionAddressInfo("change", true)];
    assert info.blockHeight == None && info.timestamp == None;
  }

  // ---------------------------------------------------------------------------------------
  // balance
  // ---------------------------------------------------------------------------------------

  /** The three filters of the unspent-output query: owned, of a known script, spent by no input. */
  predicate Spendable(output: TransactionOutput)
    ensures Spendable(output) ==> IsMine(output)
  {
    output.publicKey.Some? && output.scriptType != Unknown && output.spendingInputs == 0
  }

  /** The unspent-output query over the stored outputs, in store order. */
  function UnspentOutputs(outputs: seq<TransactionOutput>): (r: seq<TransactionOutput>)
    ensures |r| <= |outputs|
    ensures forall o :: o in r <==> o in outputs && Spendable(o)
  {
    if outputs == [] then []
    else
      var last := outputs[|outputs| - 1];
      UnspentOutputs(outputs[..|outputs| - 1]) + (if Spendable(last) then [last] else [])
  }

  /** The values of `outputs` added up; never negative when no value is. */
  function SumValues(outputs: seq<TransactionOutput>): (r: int)
    ensures (forall i :: 0 <= i < |outputs| ==> outputs[i].value >= 0) ==> r >= 0
  {
    if outputs == [] then 0 else SumValues(outputs[..|outputs| - 1]) + outputs[|outputs| - 1].value
  }

  /** `balance`: the values of the query's results added up in order. */
  method Balance(outputs: seq<TransactionOutput>) returns (balance: int)
    ensures balance == SumValues(UnspentOutputs(outputs))
  {
    var unspent := UnspentOutputs(outputs);
    balance := 0;
    var k := 0;
    while k < |unspent|
      invariant 0 <= k <= |unspent|
      invariant balance == SumValues(unspent[..k])
    {
      assert unspent[..k + 1][..k] == unspent[..k];
      balance := balance + unspent[k].value;
      k := k + 1;
    }
    assert unspent[..k] == unspent;
  }

  lemma {:induction false} UnspentOutputsConcat(a: seq<TransactionOutput>, b: seq<TransactionOutput>)
    ensures UnspentOutputs(a + b) == UnspentOutputs(a) + UnspentOutputs(b)
    decreases |b|
  {
    if b == [] {
      assert a + b == a;
    } else {
      assert (a + b)[..|a + b| - 1] == a + b[..|b| - 1];
      UnspentOutputsConcat(a, b[..|b| - 1]);
    }
  }

  lemma {:induction false} SumValuesConcat(a: seq<TransactionOutput>, b: seq<TransactionOutput>)
    ensures SumValues(a + b) == SumValues(a) + SumValues(b)
    decreases |b|
  {
    if b == [] {
      assert a + b == a;
    } else {
      assert (a + b)[..|a + b| - 1] == a + b[..|b| - 1];
      SumValuesConcat(a, b[..|b| - 1]);
    }
  }

  /** The balance of two groups of stored outputs is the sum of their balances. */
  lemma BalanceSplits(a: seq<TransactionOutput>, b: seq<TransactionOutput>)
    ensures SumValues(UnspentOutputs(a + b)) == SumValues(UnspentOutputs(a)) + SumValues(UnspentOutputs(b))
  {
    UnspentOutputsConcat(a, b);
    SumValuesConcat(UnspentOutputs(a), UnspentOutputs(b));
  }

  /** A stored output counts towards the balance with its whole value exactly when it is spendable. */
  lemma BalanceCountsOutput(a: seq<TransactionOutput>, output: TransactionOutput, b: seq<TransactionOutput>)
    ensures SumValues(UnspentOutputs(a + [output] + b)) ==
      SumValues(UnspentOutputs(a + b)) + (if Spendable(output) then output.value else 0)
  {
    BalanceSplits(a + [output], b);
    BalanceSplits(a, [output]);
    BalanceSplits(a, b);
    assert [output][..0] == [];
  }

  /** Once an input spends one of the wallet's unspent outputs, the balance drops by its value. */
  lemma SpendingLowersBalance(a: seq<TransactionOutput>, output: TransactionOutput, b: seq<TransactionOutput>)
    requires Spendable(output)
    ensures SumValues(UnspentOutputs(a + [output.(spendingInputs := 1)] + b)) ==
      SumValues(UnspentOutputs(a + [output] + b)) - output.value
  {
    BalanceCountsOutput(a, output, b);
    BalanceCountsOutput(a, output.(spendingInputs := 1), b);
  }

  // ---------------------------------------------------------------------------------------
  // blockInfo(fromBlock:) and lastBlockInfo
  // ---------------------------------------------------------------------------------------

  /** `blockInfo(fromBlock:)`. */
  function BlockInfoOf(block: Block): (r: BlockInfo)
    ensures r.headerHash == block.reversedHeaderHashHex && r.height == block.height
    ensures r.timestamp.None? <==> block.header.None?
    ensures block.header.Some? ==> r.timestamp == Some(block.header.value.timestamp)
  {
    BlockInfo(
      block.reversedHeaderHashHex,
      block.height,
      match block.header case None => None case Some(h) => Some(h.timestamp))
  }

  /**
   * The last row of the block table sorted by height: a block of maximal height, and among
   * blocks of that height the latest row.
   */
  function HighestIndex(blocks: seq<Block>): (r: nat)
    requires blocks != []
    ensures r < |blocks|
    ensures forall j :: 0 <= j < |blocks| ==> blocks[j].height <= blocks[r].height
    ensures forall j :: r < j < |blocks| ==> blocks[j].height < blocks[r].height
  {
    if |blocks| == 1 then 0
    else
      var k := HighestIndex(blocks[..|blocks| - 1]);
      if blocks[|blocks| - 1].height >= blocks[k].height then |blocks| - 1 else k
  }

  /** `lastBlockInfo`: nothing for an empty block table, otherwise the highest block's description. */
  function LastBlockInfo(blocks: seq<Block>): (r: Option<BlockInfo>)
    ensures r.None? <==> blocks == []
    ensures r.Some? ==> forall j :: 0 <= j < |blocks| ==> blocks[j].height <= r.value.height
    ensures r.Some? ==> exists k :: 0 <= k < |blocks| && r.value == BlockInfoOf(blocks[k])
  {
    if blocks == [] then None
    else
      var k := HighestIndex(blocks);
      Some(BlockInfoOf(blocks[k]))
  }

  /** Adding a block higher than all stored ones makes it the reported last block. */
  lemma LastBlockInfoOfNewTip(blocks: seq<Block>, tip: Block)
    requires forall j :: 0 <= j < |blocks| ==> blocks[j].height < tip.height
    ensures LastBlockInfo(blocks + [tip]) == Some(BlockInfoOf(tip))
  {
  }
}
