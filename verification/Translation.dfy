/** What the translation of a block consists of, operation by operation, and which coins it asks for. */
module Translation {
  import opened Bytes
  import opened BlockOps
  import opened Ledger

  // ----- the operations of a transaction

  /** Only the first input of the first transaction can be a coinbase input. */
  predicate StartsWithCoinbase(tx: Transaction, n: nat) {
    n == 0 && tx.inputs != [] && tx.inputs[0].txHash == "" && tx.inputs[0].coinbase != ""
  }

  function InputCount(tx: Transaction, n: nat): nat { if StartsWithCoinbase(tx, n) then 1 else |tx.inputs| }

  /** Output j: its account, its value, and a new coin unless it is null data. */
  ghost predicate DescribesOutput(op: Operation, tx: Transaction, j: nat)
    requires j < |tx.outputs|
  {
    var o, id := tx.outputs[j], CoinId(tx.hash, j);
    && op.networkIndex == j && op.amount == o.value
    && op.account.Some? && Credits(o, id, op.account.value)
    && (o.nullData ==> op.change == NoCoin)
    && (!o.nullData ==> op.change == Created(id))
  }

  /** Input i: the coin it spends, taken from the coins known by then. */
  ghost predicate DescribesInput(op: Operation, tx: Transaction, i: nat, coins: Coins)
    requires i < |tx.inputs|
  {
    var id := CoinId(tx.inputs[i].txHash, tx.inputs[i].vout);
    && op.networkIndex == i && op.change == Spent(id) && id in coins
    && op.account == Some(coins[id].account) && op.amount == -coins[id].amount
  }

  /** The coinbase operation or one per input, then one per output, numbered by position. */
  ghost predicate Describes(ops: seq<Operation>, tx: Transaction, n: nat, coins: Coins) {
    var k := InputCount(tx, n);
    && |ops| == k + |tx.outputs|
    && (forall i :: 0 <= i < |ops| ==> ops[i].index == i)
    && (StartsWithCoinbase(tx, n) ==> ops[0] == Operation(0, 0, None, 0, NoCoin))
    && (!StartsWithCoinbase(tx, n) ==> forall i :: 0 <= i < |tx.inputs| ==> DescribesInput(ops[i], tx, i, coins))
    && (forall i :: k <= i < |ops| ==> DescribesOutput(ops[i], tx, i - k))
  }

  lemma {:induction false} InputsDescribed(tx: Transaction, coins: Coins, m: nat)
    requires m <= |tx.inputs| && InputOps(tx.inputs[..m], coins).Some?
    ensures var ops := InputOps(tx.inputs[..m], coins).value;
            && |ops| == m
            && forall i :: 0 <= i < m ==> ops[i].index == i && DescribesInput(ops[i], tx, i, coins)
  {
    if m > 0 {
      assert tx.inputs[..m][..m - 1] == tx.inputs[..m - 1];
      InputsDescribed(tx, coins, m - 1);
    }
  }

  lemma {:induction false} OutputsDescribed(tx: Transaction, first: nat, m: nat)
    requires m <= |tx.outputs|
    ensures var ops := OutputOps(tx.outputs[..m], tx.hash, first);
            && |ops| == m
            && forall j :: 0 <= j < m ==> ops[j].index == first + j && DescribesOutput(ops[j], tx, j)
  {
    if m > 0 {
      assert tx.outputs[..m][..m - 1] == tx.outputs[..m - 1];
      OutputsDescribed(tx, first, m - 1);
    }
  }

  lemma TxDescribed(tx: Transaction, n: nat, coins: Coins)
    requires TxOps(tx, n, coins).Some?
    ensures Describes(TxOps(tx, n, coins).value, tx, n, coins)
  {
    hide DescribesInput, DescribesOutput, InputOps, OutputOps;
    assert tx.inputs[..|tx.inputs|] == tx.inputs && tx.outputs[..|tx.outputs|] == tx.outputs;
    if !HasCoinbase(tx, n) { InputsDescribed(tx, coins, |tx.inputs|); }
    var ins := TxInputs(tx, n, coins).value;
    var outs := OutputOps(tx.outputs, tx.hash, |ins|);
    OutputsDescribed(tx, |ins|, |tx.outputs|);
    assert TxOps(tx, n, coins).value == ins + outs;
    assert forall i :: |ins| <= i < |ins + outs| ==> (ins + outs)[i] == outs[i - |ins|];
  }

  /** One of the inputs spends a coin that is not known. */
  ghost predicate SpendsUnknown(inputs: seq<Input>, coins: Coins) {
    exists i :: 0 <= i < |inputs| && CoinId(inputs[i].txHash, inputs[i].vout) !in coins
  }

  lemma {:induction false} InputsFailIff(inputs: seq<Input>, m: nat, coins: Coins)
    requires m <= |inputs|
    ensures InputOps(inputs[..m], coins).None? <==>
            exists i :: 0 <= i < m && CoinId(inputs[i].txHash, inputs[i].vout) !in coins
  {
    if m > 0 {
      assert inputs[..m][..m - 1] == inputs[..m - 1];
      InputsFailIff(inputs, m - 1, coins);
    }
  }

  lemma TxFailsIff(tx: Transaction, n: nat, coins: Coins)
    ensures TxOps(tx, n, coins).None? <==> !StartsWithCoinbase(tx, n) && SpendsUnknown(tx.inputs, coins)
  {
    InputsFailIff(tx.inputs, |tx.inputs|, coins);
    assert tx.inputs[..|tx.inputs|] == tx.inputs;
  }

  // ----- the operations of a block

  /** The coins known before transaction n: those given, and those created by the transactions before it. */
  function KnownBefore(block: Block, n: nat, coins: Coins): Coins
    requires n <= |block| && ParseTxs(block, n, coins).Some?
  {
    ParseTxs(block, n, coins).value.coins
  }

  lemma {:induction false} ParsesEarlier(block: Block, n: nat, m: nat, coins: Coins)
    requires n <= m <= |block| && ParseTxs(block, m, coins).Some?
    ensures ParseTxs(block, n, coins).Some?
  {
    if n < m { ParsesEarlier(block, n, m - 1, coins); }
  }

  /**
   * Every transaction of a translated block is described by its operations: inputs first, each with
   * the account and negated amount of the coin it spends, then outputs, each credited to its account.
   */
  lemma {:induction false} BlockDescribed(block: Block, m: nat, coins: Coins, n: nat)
    requires n < m <= |block| && ParseTxs(block, m, coins).Some?
    ensures ParseTxs(block, n, coins).Some? && |ParseTxs(block, m, coins).value.txs| == m
    ensures Describes(ParseTxs(block, m, coins).value.txs[n], block[n], n, KnownBefore(block, n, coins))
  {
    hide TxOps, Describes, AddCreated;
    ParsesEarlier(block, n, m, coins);
    ParsesEarlier(block, m - 1, m, coins);
    if n == m - 1 {
      if m > 1 { BlockDescribed(block, m - 1, coins, 0); }
      TxDescribed(block[n], n, KnownBefore(block, n, coins));
    } else {
      BlockDescribed(block, m - 1, coins, n);
    }
  }

  /** Transaction n is the first that cannot be translated. */
  ghost predicate FailsAt(block: Block, n: nat, coins: Coins) {
    && n < |block| && ParseTxs(block, n, coins).Some? && !StartsWithCoinbase(block[n], n)
    && SpendsUnknown(block[n].inputs, KnownBefore(block, n, coins))
  }

  /** The translation fails exactly when some transaction spends a coin that was neither given nor created before it. */
  lemma {:induction false} BlockFailsIff(block: Block, m: nat, coins: Coins)
    requires m <= |block|
    ensures ParseTxs(block, m, coins).None? <==> exists n: nat :: n < m && FailsAt(block, n, coins)
  {
    hide *;
    if m == 0 {
      ParseNone(block, coins);
    } else {
      BlockFailsIff(block, m - 1, coins);
      ParseStep(block, m, coins);
    }
  }

  lemma ParseNone(block: Block, coins: Coins)
    ensures ParseTxs(block, 0, coins).Some?
  {
  }

  lemma ParseStep(block: Block, m: nat, coins: Coins)
    requires 0 < m <= |block|
    ensures ParseTxs(block, m, coins).None? <==>
            ParseTxs(block, m - 1, coins).None? || FailsAt(block, m - 1, coins)
  {
    hide TxOps, AddCreated, SpendsUnknown, StartsWithCoinbase;
    if ParseTxs(block, m - 1, coins).Some? {
      TxFailsIff(block[m - 1], m - 1, KnownBefore(block, m - 1, coins));
    }
  }

  // ----- the coins known after a block

  /** The coin is a spendable output of the transaction. */
  predicate Offers(tx: Transaction, c: CoinId) {
    c.hash == tx.hash && 0 <= c.vout < |tx.outputs| && !tx.outputs[c.vout].nullData
  }

  lemma {:induction false} OutputsKnown(coins: Coins, tx: Transaction, first: nat, m: nat, c: CoinId)
    requires m <= |tx.outputs|
    ensures var grown := AddCreated(coins, OutputOps(tx.outputs[..m], tx.hash, first));
            if c.hash == tx.hash && 0 <= c.vout < m && !tx.outputs[c.vout].nullData
            then c in grown && MadeBy(tx, c, grown[c])
            else (c in grown <==> c in coins) && (c in coins ==> grown[c] == coins[c])
  {
    if m > 0 {
      assert tx.outputs[..m][..m - 1] == tx.outputs[..m - 1];
      OutputsKnown(coins, tx, first, m - 1, c);
      var ops := OutputOps(tx.outputs[..m], tx.hash, first);
      assert ops[..|ops| - 1] == OutputOps(tx.outputs[..m - 1], tx.hash, first);
    }
  }

  lemma TxKnown(tx: Transaction, n: nat, coins: Coins, c: CoinId)
    requires TxOps(tx, n, coins).Some?
    ensures var grown := AddCreated(coins, TxOps(tx, n, coins).value);
            if Offers(tx, c)
            then c in grown && MadeBy(tx, c, grown[c])
            else (c in grown <==> c in coins) && (c in coins ==> grown[c] == coins[c])
  {
    hide TxOps, MadeBy, AddCreated, OutputOps;
    TxRecords(tx, n, coins);
    var first: nat :|
      AddCreated(coins, TxOps(tx, n, coins).value) == AddCreated(coins, OutputOps(tx.outputs, tx.hash, first));
    assert tx.outputs[..|tx.outputs|] == tx.outputs;
    OutputsKnown(coins, tx, first, |tx.outputs|, c);
  }

  ghost predicate MadeIn(block: Block, m: nat, c: CoinId, v: AccountCoin)
    requires m <= |block|
  {
    exists n :: 0 <= n < m && MadeBy(block[n], c, v)
  }

  /** The map a block leaves: each coin was given or is an output of the block, and no output is missing. */
  lemma {:induction false} CoinsKnown(block: Block, m: nat, coins: Coins, c: CoinId)
    requires m <= |block| && ParseTxs(block, m, coins).Some?
    ensures var grown := ParseTxs(block, m, coins).value.coins;
            && (c in coins ==> c in grown)
            && (c in grown ==> MadeIn(block, m, c, grown[c]) || (c in coins && grown[c] == coins[c]))
            && forall n :: 0 <= n < m && Offers(block[n], c) ==> c in grown
  {
    hide TxOps, MadeBy, AddCreated;
    if m > 0 {
      CoinsKnown(block, m - 1, coins, c);
      TxKnown(block[m - 1], m - 1, ParseTxs(block, m - 1, coins).value.coins, c);
    }
  }

  // ----- the coins a block asks for

  /** Input i of transaction n spends an output of a transaction that is not among the first n + 1 of the block. */
  ghost predicate AsksFor(block: Block, n: nat, i: nat, c: CoinId) {
    && n < |block| && i < |block[n].inputs|
    && c == CoinId(block[n].inputs[i].txHash, block[n].inputs[i].vout)
    && !(i == 0 && StartsWithCoinbase(block[n], n))
    && forall k :: 0 <= k <= n ==> block[k].hash != c.hash
  }

  lemma {:induction false} AskedInputs(block: Block, n: nat, m: nat, c: CoinId)
    requires n < |block| && m <= |block[n].inputs|
    ensures c in RawOfInputs(block[n].inputs[..m], n, Hashes(block, n + 1)) <==>
            exists i: nat :: i < m && AsksFor(block, n, i, c)
  {
    if m > 0 {
      var ins := block[n].inputs;
      assert ins[..m][..m - 1] == ins[..m - 1];
      AskedInputs(block, n, m - 1, c);
      var last := ins[m - 1];
      assert last.txHash in Hashes(block, n + 1) <==> exists k :: 0 <= k <= n && block[k].hash == last.txHash;
      if AsksFor(block, n, m - 1, c) { assert c == last.Id(); }
    }
  }

  /** A coin is asked for exactly when some input spends it and the block has not yet come to its transaction. */
  lemma {:induction false} AskedCoins(block: Block, m: nat, c: CoinId)
    requires m <= |block|
    ensures c in RawCoins(block, m) <==> exists n: nat, i: nat :: n < m && AsksFor(block, n, i, c)
  {
    if m > 0 {
      AskedCoins(block, m - 1, c);
      var ins := block[m - 1].inputs;
      assert ins[..|ins|] == ins;
      AskedInputs(block, m - 1, |ins|, c);
      hide AsksFor;
      if exists n: nat, i: nat :: n < m && AsksFor(block, n, i, c) {
        var n: nat, i: nat :| n < m && AsksFor(block, n, i, c);
        AsksInRange(block, n, i, c);
        if n == m - 1 { assert i < |ins|; }
      }
    }
  }

  lemma AsksInRange(block: Block, n: nat, i: nat, c: CoinId)
    requires AsksFor(block, n, i, c)
    ensures n < |block| && i < |block[n].inputs|
  {
  }
}
