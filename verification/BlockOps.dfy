/** Translation of blocks to operations (thought/client.go): GetRawBlock, parseTransactions and their parts. */
module BlockOps {
  import opened Bytes

  datatype CoinId = CoinId(hash: string, vout: int)

  /** An account is named by an address or script, or, lacking both, by the output itself. */
  datatype Account = Named(address: string) | OfOutput(id: CoinId)

  datatype AccountCoin = AccountCoin(account: Account, amount: int)

  type Coins = map<CoinId, AccountCoin>

  datatype Input = Input(txHash: string, vout: int, coinbase: string) {
    function Id(): CoinId { CoinId(txHash, vout) }
  }
  datatype Output = Output(value: nat, addresses: seq<string>, hex: string, nullData: bool)
  datatype Transaction = Transaction(hash: string, inputs: seq<Input>, outputs: seq<Output>)
  type Block = seq<Transaction>

  datatype Change = Spent(id: CoinId) | Created(id: CoinId) | NoCoin

  datatype Operation = Operation(index: nat, networkIndex: nat, account: Option<Account>, amount: int, change: Change)

  /** thoughtIsCoinbaseInput. */
  predicate IsCoinbase(input: Input, txIndex: nat, inputIndex: nat) {
    txIndex == 0 && inputIndex == 0 && input.txHash == "" && input.coinbase != ""
  }

  // ----- single operations

  function CoinbaseOp(): Operation { Operation(0, 0, None, 0, NoCoin) }

  /** parseInputTransactionOperation. */
  function InputOp(input: Input, index: nat, coin: AccountCoin): Operation {
    Operation(index, index, Some(coin.account), -coin.amount, Spent(input.Id()))
  }

  function OutputAccount(o: Output, id: CoinId): Account {
    var address := if |o.addresses| != 1 then o.hex else o.addresses[0];
    if address == "" then OfOutput(id) else Named(address)
  }

  /** parseOutputTransactionOperation. */
  function OutputOp(o: Output, hash: string, index: nat, networkIndex: nat): Operation {
    var id := CoinId(hash, networkIndex);
    Operation(index, networkIndex, Some(OutputAccount(o, id)), o.value, if o.nullData then NoCoin else Created(id))
  }

  // ----- one transaction

  /** Inputs hydrated from the coins, or None when one is missing. */
  function InputOps(inputs: seq<Input>, coins: Coins): Option<seq<Operation>> {
    if inputs == [] then Some([])
    else
      var k := |inputs| - 1;
      var front := InputOps(inputs[..k], coins);
      if front.None? || inputs[k].Id() !in coins then None
      else Some(front.value + [InputOp(inputs[k], k, coins[inputs[k].Id()])])
  }

  function OutputOps(outputs: seq<Output>, hash: string, first: nat): seq<Operation> {
    if outputs == [] then []
    else
      var k := |outputs| - 1;
      OutputOps(outputs[..k], hash, first) + [OutputOp(outputs[k], hash, first + k, k)]
  }

  predicate HasCoinbase(tx: Transaction, txIndex: nat) { tx.inputs != [] && IsCoinbase(tx.inputs[0], txIndex, 0) }

  /** The inputs that spend something: a coinbase input ends the list before it starts. */
  function Spending(tx: Transaction, txIndex: nat): seq<Input> { if HasCoinbase(tx, txIndex) then [] else tx.inputs }

  function TxInputs(tx: Transaction, txIndex: nat, coins: Coins): Option<seq<Operation>> {
    if HasCoinbase(tx, txIndex) then Some([CoinbaseOp()]) else InputOps(tx.inputs, coins)
  }

  function TxOps(tx: Transaction, txIndex: nat, coins: Coins): Option<seq<Operation>> {
    var ins := TxInputs(tx, txIndex, coins);
    if ins.None? then None else Some(ins.value + OutputOps(tx.outputs, tx.hash, |ins.value|))
  }

  /** Coins the operations create are added to the map. */
  function AddCreated(coins: Coins, ops: seq<Operation>): Coins {
    if ops == [] then coins
    else
      var front, op := AddCreated(coins, ops[..|ops| - 1]), ops[|ops| - 1];
      if op.change.Created? && op.account.Some? then front[op.change.id := AccountCoin(op.account.value, op.amount)]
        else front
  }

  // ----- a block

  datatype Parsed = Parsed(txs: seq<seq<Operation>>, coins: Coins)

  /** The first n transactions, each seeing the coins of those before it. */
  function ParseTxs(block: Block, n: nat, coins: Coins): Option<Parsed>
    requires n <= |block|
  {
    if n == 0 then Some(Parsed([], coins))
    else
      var front := ParseTxs(block, n - 1, coins);
      if front.None? then None
      else
        var ops := TxOps(block[n - 1], n - 1, front.value.coins);
        if ops.None? then None
        else Some(Parsed(front.value.txs + [ops.value], AddCreated(front.value.coins, ops.value)))
  }

  function Hashes(block: Block, n: nat): set<string>
    requires n <= |block|
  {
    set i | 0 <= i < n :: block[i].hash
  }

  /** The coins GetRawBlock asks for on behalf of the first j inputs of transaction n. */
  function RawOfInputs(inputs: seq<Input>, n: nat, hashes: set<string>): seq<CoinId> {
    if inputs == [] then []
    else
      var k := |inputs| - 1;
      var front := RawOfInputs(inputs[..k], n, hashes);
      if IsCoinbase(inputs[k], n, k) || inputs[k].txHash in hashes then front else front + [inputs[k].Id()]
  }

  function RawCoins(block: Block, n: nat): seq<CoinId>
    requires n <= |block|
  {
    if n == 0 then []
    else RawCoins(block, n - 1) + RawOfInputs(block[n - 1].inputs, n - 1, Hashes(block, n))
  }

  // ----- the loops

  ghost predicate Numbered(ops: seq<Operation>) { forall i :: 0 <= i < |ops| ==> ops[i].index == i }

  /** The loop over the inputs; a coinbase input breaks it. */
  method ParseInputs(tx: Transaction, txIndex: nat, coins: Coins) returns (r: Option<seq<Operation>>)
    ensures r == TxInputs(tx, txIndex, coins)
    ensures r.Some? ==> Numbered(r.value)
  {
    hide InputOp;
    var txOps: seq<Operation> := [];
    for i := 0 to |tx.inputs|
      invariant |txOps| == i && Numbered(txOps)
      invariant i > 0 ==> !HasCoinbase(tx, txIndex)
      invariant InputOps(tx.inputs[..i], coins) == Some(txOps)
    {
      var input := tx.inputs[i];
      if IsCoinbase(input, txIndex, i) {
        txOps := txOps + [CoinbaseOp()];
        assert txOps == [CoinbaseOp()];
        return Some(txOps);
      }
      assert tx.inputs[..i + 1][..i] == tx.inputs[..i];
      if input.Id() !in coins {
        InputsMissing(tx.inputs, i, coins);
        return None;
      }
      InputIndex(input, i, coins[input.Id()]);
      txOps := txOps + [InputOp(input, |txOps|, coins[input.Id()])];
    }
    assert tx.inputs[..|tx.inputs|] == tx.inputs;
    return Some(txOps);
  }

  lemma InputIndex(input: Input, i: nat, coin: AccountCoin)
    ensures InputOp(input, i, coin).index == i
  {
  }

  /** parseTxOperations: operations are numbered by position. */
  method ParseTxOperations(tx: Transaction, txIndex: nat, coins: Coins) returns (r: Option<seq<Operation>>)
    ensures r == TxOps(tx, txIndex, coins)
    ensures r.Some? ==> Numbered(r.value)
  {
    hide TxInputs;
    var inputs := ParseInputs(tx, txIndex, coins);
    if inputs.None? { return None; }
    var ins := inputs.value;
    var txOps := ins;
    for j := 0 to |tx.outputs|
      invariant txOps == ins + OutputOps(tx.outputs[..j], tx.hash, |ins|) && |txOps| == |ins| + j && Numbered(txOps)
    {
      assert tx.outputs[..j + 1][..j] == tx.outputs[..j];
      txOps := txOps + [OutputOp(tx.outputs[j], tx.hash, |txOps|, j)];
    }
    assert tx.outputs[..|tx.outputs|] == tx.outputs;
    return Some(txOps);
  }

  lemma {:induction false} InputsMissing(inputs: seq<Input>, i: nat, coins: Coins)
    requires i < |inputs| && inputs[i].Id() !in coins
    ensures InputOps(inputs, coins) == None
  {
    var k := |inputs| - 1;
    if i < k { InputsMissing(inputs[..k], i, coins); }
  }

  /** parseTransactions: the caller's coin map grows as it goes. */
  method ParseTransactions(block: Block, coins: Coins) returns (r: Option<seq<seq<Operation>>>, grown: Coins)
    ensures var p := ParseTxs(block, |block|, coins);
            if p.None? then r == None else r == Some(p.value.txs) && grown == p.value.coins
  {
    hide TxOps, AddCreated;
    grown := coins;
    var txs: seq<seq<Operation>> := [];
    for index := 0 to |block|
      invariant ParseTxs(block, index, coins) == Some(Parsed(txs, grown))
    {
      var txOps := ParseTxOperations(block[index], index, grown);
      if txOps.None? {
        ParseStops(block, index + 1, |block|, coins);
        return None, grown;
      }
      txs := txs + [txOps.value];
      grown := RecordCreated(grown, txOps.value);
    }
    return Some(txs), grown;
  }

  lemma {:induction false} ParseStops(block: Block, i: nat, n: nat, coins: Coins)
    requires i <= n <= |block| && ParseTxs(block, i, coins).None?
    ensures ParseTxs(block, n, coins).None?
  {
    if i < n { ParseStops(block, i, n - 1, coins); }
  }

  method RecordCreated(coins: Coins, ops: seq<Operation>) returns (r: Coins)
    ensures r == AddCreated(coins, ops)
  {
    r := coins;
    for i := 0 to |ops|
      invariant r == AddCreated(coins, ops[..i])
    {
      assert ops[..i + 1][..i] == ops[..i];
      var op := ops[i];
      if op.change.Created? && op.account.Some? { r := r[op.change.id := AccountCoin(op.account.value, op.amount)]; }
    }
    assert ops[..|ops|] == ops;
  }

  /** GetRawBlock's coin list. */
  method GetRawCoins(block: Block) returns (coins: seq<CoinId>)
    ensures coins == RawCoins(block, |block|)
  {
    coins := [];
    var blockTxHashes: seq<string> := [];
    for txIndex := 0 to |block|
      invariant coins == RawCoins(block, txIndex)
      invariant forall h :: h in blockTxHashes <==> h in Hashes(block, txIndex)
    {
      var tx := block[txIndex];
      blockTxHashes := blockTxHashes + [tx.hash];
      HashesSnoc(block, txIndex);
      var more := RawInputs(tx.inputs, txIndex, blockTxHashes, Hashes(block, txIndex + 1));
      coins := coins + more;
    }
  }

  lemma HashesSnoc(block: Block, n: nat)
    requires n < |block|
    ensures Hashes(block, n + 1) == Hashes(block, n) + {block[n].hash}
  {
  }

  method RawInputs(inputs: seq<Input>, txIndex: nat, hashes: seq<string>, ghost hs: set<string>)
      returns (coins: seq<CoinId>)
    requires forall h :: h in hashes <==> h in hs
    ensures coins == RawOfInputs(inputs, txIndex, hs)
  {
    coins := [];
    for j := 0 to |inputs|
      invariant coins == RawOfInputs(inputs[..j], txIndex, hs)
    {
      assert inputs[..j + 1][..j] == inputs[..j];
      var input := inputs[j];
      if IsCoinbase(input, txIndex, j) { continue; }
      if input.txHash !in hashes { coins := coins + [input.Id()]; }
    }
    assert inputs[..|inputs|] == inputs;
  }
}
