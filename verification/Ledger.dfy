/** The unspent coins behind a chain of blocks, and what its operations add up to. */
module Ledger {
  import opened Bytes
  import opened BlockOps

  // ----- the coins after each transaction

  function SpentIds(inputs: seq<Input>): set<CoinId> { set i | 0 <= i < |inputs| :: inputs[i].Id() }

  /** The coins with the spendable outputs of a transaction added. */
  function AddOutputs(u: Coins, outputs: seq<Output>, hash: string): Coins {
    if outputs == [] then u
    else
      var k := |outputs| - 1;
      var front, id := AddOutputs(u, outputs[..k], hash), CoinId(hash, k);
      if outputs[k].nullData then front else front[id := AccountCoin(OutputAccount(outputs[k], id), outputs[k].value)]
  }

  function AfterTx(u: Coins, tx: Transaction, txIndex: nat): Coins {
    AddOutputs(u - SpentIds(Spending(tx, txIndex)), tx.outputs, tx.hash)
  }

  /** The coins after the first n transactions of a block. */
  function After(u: Coins, block: Block, n: nat): Coins
    requires n <= |block|
  {
    if n == 0 then u else AfterTx(After(u, block, n - 1), block[n - 1], n - 1)
  }

  /** Spends existing coins, each once, under a transaction hash no coin carries yet. */
  ghost predicate TxOk(u: Coins, tx: Transaction, txIndex: nat) {
    var ins := Spending(tx, txIndex);
    && (forall i :: 0 <= i < |ins| ==> ins[i].Id() in u)
    && (forall i, j :: 0 <= i < j < |ins| ==> ins[i].Id() != ins[j].Id())
    && (forall c :: c in u ==> c.hash != tx.hash)
  }

  /** Each transaction spends only coins of earlier blocks or earlier transactions. */
  ghost predicate WellOrdered(u: Coins, block: Block) {
    forall n :: 0 <= n < |block| ==> TxOk(After(u, block, n), block[n], n)
  }

  // ----- the coin list suffices

  lemma {:induction false} AddOutputsOther(u: Coins, outputs: seq<Output>, hash: string, c: CoinId)
    requires c.hash != hash
    ensures c in AddOutputs(u, outputs, hash) <==> c in u
    ensures c in u ==> AddOutputs(u, outputs, hash)[c] == u[c]
  {
    if outputs != [] { AddOutputsOther(u, outputs[..|outputs| - 1], hash, c); }
  }

  /** What the parser records is what the ledger adds. */
  lemma {:induction false} RecordsOutputs(coins: Coins, u: Coins, outputs: seq<Output>, hash: string, first: nat,
      c: CoinId)
    requires c.hash == hash && c !in u
    ensures c in AddOutputs(u, outputs, hash) ==>
              var m := AddCreated(coins, OutputOps(outputs, hash, first));
              c in m && m[c] == AddOutputs(u, outputs, hash)[c]
  {
    if outputs != [] {
      var k := |outputs| - 1;
      RecordsOutputs(coins, u, outputs[..k], hash, first, c);
      var ops := OutputOps(outputs, hash, first);
      assert ops[..|ops| - 1] == OutputOps(outputs[..k], hash, first);
    }
  }

  lemma {:induction false} RecordsOnlyOwn(coins: Coins, outputs: seq<Output>, hash: string, first: nat, c: CoinId)
    requires c.hash != hash
    ensures var m := AddCreated(coins, OutputOps(outputs, hash, first));
            (c in m <==> c in coins) && (c in coins ==> m[c] == coins[c])
  {
    if outputs != [] {
      var k := |outputs| - 1;
      RecordsOnlyOwn(coins, outputs[..k], hash, first, c);
      var ops := OutputOps(outputs, hash, first);
      assert ops[..|ops| - 1] == OutputOps(outputs[..k], hash, first);
    }
  }

  ghost predicate CreatesNothing(ops: seq<Operation>) { forall i :: 0 <= i < |ops| ==> !ops[i].change.Created? }

  lemma {:induction false} InputsCreateNothing(inputs: seq<Input>, coins: Coins)
    requires InputOps(inputs, coins).Some?
    ensures CreatesNothing(InputOps(inputs, coins).value) && |InputOps(inputs, coins).value| == |inputs|
  {
    if inputs != [] { InputsCreateNothing(inputs[..|inputs| - 1], coins); }
  }

  lemma {:induction false} AddNothing(coins: Coins, ops: seq<Operation>)
    requires CreatesNothing(ops)
    ensures AddCreated(coins, ops) == coins
  {
    if ops != [] { AddNothing(coins, ops[..|ops| - 1]); }
  }

  lemma {:induction false} AddAppend(coins: Coins, a: seq<Operation>, b: seq<Operation>)
    ensures AddCreated(coins, a + b) == AddCreated(AddCreated(coins, a), b)
  {
    if b == [] {
      assert a + b == a;
    } else {
      var k := |b| - 1;
      AddAppend(coins, a, b[..k]);
      assert (a + b)[..|a| + k] == a + b[..k];
    }
  }

  /** The map after a transaction: the coins before it with its outputs recorded. */
  lemma TxRecords(tx: Transaction, txIndex: nat, coins: Coins)
    requires TxOps(tx, txIndex, coins).Some?
    ensures exists first: nat ::
              AddCreated(coins, TxOps(tx, txIndex, coins).value) ==
                AddCreated(coins, OutputOps(tx.outputs, tx.hash, first))
  {
    var ins := TxInputs(tx, txIndex, coins).value;
    if HasCoinbase(tx, txIndex) {
      assert CreatesNothing(ins);
    } else {
      InputsCreateNothing(tx.inputs, coins);
    }
    hide TxInputs, InputOps;
    AddNothing(coins, ins);
    AddAppend(coins, ins, OutputOps(tx.outputs, tx.hash, |ins|));
  }

  /**
   * Between the n-th and the next transaction: every coin of this block is in the parser's map as the
   * ledger has it, and every other coin is one the block started with.
   */
  ghost predicate Aligned(u: Coins, start: Coins, block: Block, n: nat, coins: Coins)
    requires n <= |block|
  {
    forall c: CoinId :: AlignedAt(u, start, Hashes(block, n), After(u, block, n), coins, c)
  }

  predicate AlignedAt(u: Coins, start: Coins, hashes: set<string>, now: Coins, coins: Coins, c: CoinId) {
    && (c in now && c.hash in hashes ==> c in coins && coins[c] == now[c])
    && (c in now && c.hash !in hashes ==> c in u && now[c] == u[c])
    && (c.hash !in hashes ==> (c in coins <==> c in start) && (c in start ==> coins[c] == start[c]))
  }

  /** The fetched coins are the ledger's, for every coin that GetRawBlock lists. */
  ghost predicate Fetched(u: Coins, block: Block, coins: Coins) {
    forall c :: c in RawCoins(block, |block|) && c in u ==> c in coins && coins[c] == u[c]
  }

  lemma {:induction false} RawListed(inputs: seq<Input>, n: nat, hashes: set<string>, i: nat)
    requires i < |inputs| && !IsCoinbase(inputs[i], n, i) && inputs[i].txHash !in hashes
    ensures inputs[i].Id() in RawOfInputs(inputs, n, hashes)
  {
    var k := |inputs| - 1;
    if i < k { RawListed(inputs[..k], n, hashes, i); }
  }

  lemma {:induction false} RawGrows(block: Block, n: nat, m: nat, c: CoinId)
    requires n <= m <= |block| && c in RawCoins(block, n)
    ensures c in RawCoins(block, m)
  {
    if n < m { RawGrows(block, n, m - 1, c); }
  }

  /** Every coin a transaction spends is in the map with the creator's account and amount. */
  lemma InputAvailable(u: Coins, start: Coins, block: Block, n: nat, coins: Coins, i: nat)
    requires n < |block| && WellOrdered(u, block) && Fetched(u, block, start) && Aligned(u, start, block, n, coins)
    requires i < |Spending(block[n], n)|
    ensures var c := Spending(block[n], n)[i].Id();
            c in coins && c in After(u, block, n) && coins[c] == After(u, block, n)[c]
  {
    hide After, RawOfInputs;
    var tx, now := block[n], After(u, block, n);
    assert TxOk(now, tx, n);
    var c := tx.inputs[i].Id();
    assert c in now && c.hash != tx.hash;
    assert AlignedAt(u, start, Hashes(block, n), now, coins, c);
    HashesSnoc(block, n);
    if c.hash !in Hashes(block, n) {
      RawListed(tx.inputs, n, Hashes(block, n + 1), i);
      assert RawCoins(block, n + 1) == RawCoins(block, n) + RawOfInputs(tx.inputs, n, Hashes(block, n + 1));
      RawGrows(block, n + 1, |block|, c);
    }
  }

  lemma {:induction false} InputsHydrate(inputs: seq<Input>, coins: Coins, now: Coins)
    requires forall i :: 0 <= i < |inputs| ==>
              inputs[i].Id() in coins && inputs[i].Id() in now && coins[inputs[i].Id()] == now[inputs[i].Id()]
    ensures InputOps(inputs, coins).Some? && InputOps(inputs, coins) == InputOps(inputs, now)
  {
    if inputs != [] {
      var k := |inputs| - 1;
      assert inputs[k].Id() in coins;
      InputsHydrate(inputs[..k], coins, now);
    }
  }

  /** The operations of a transaction are those the ledger's own coins give. */
  lemma TxHydrates(u: Coins, start: Coins, block: Block, n: nat, coins: Coins)
    requires n < |block| && WellOrdered(u, block) && Fetched(u, block, start) && Aligned(u, start, block, n, coins)
    ensures TxOps(block[n], n, coins).Some? && TxOps(block[n], n, coins) == TxOps(block[n], n, After(u, block, n))
  {
    hide WellOrdered, Fetched, Aligned, InputOps, After;
    var tx := block[n];
    if !HasCoinbase(tx, n) {
      forall i | 0 <= i < |tx.inputs|
        ensures tx.inputs[i].Id() in coins && tx.inputs[i].Id() in After(u, block, n)
                && coins[tx.inputs[i].Id()] == After(u, block, n)[tx.inputs[i].Id()]
      {
        InputAvailable(u, start, block, n, coins, i);
      }
      InputsHydrate(tx.inputs, coins, After(u, block, n));
    }
  }

  lemma AlignedAtStep(u: Coins, start: Coins, hashes: set<string>, now: Coins, coins: Coins, c: CoinId,
                      spent: set<CoinId>, tx: Transaction, first: nat)
    requires AlignedAt(u, start, hashes, now, coins, c) && (c in now ==> c.hash != tx.hash)
    ensures AlignedAt(u, start, hashes + {tx.hash}, AddOutputs(now - spent, tx.outputs, tx.hash),
                      AddCreated(coins, OutputOps(tx.outputs, tx.hash, first)), c)
  {
    hide AddCreated, OutputOps, AddOutputs;
    var left := now - spent;
    if c.hash == tx.hash {
      RecordsOutputs(coins, left, tx.outputs, tx.hash, first, c);
    } else {
      AddOutputsOther(left, tx.outputs, tx.hash, c);
      RecordsOnlyOwn(coins, tx.outputs, tx.hash, first, c);
    }
  }

  lemma AlignedStep(u: Coins, start: Coins, block: Block, n: nat, coins: Coins)
    requires n < |block| && WellOrdered(u, block) && Aligned(u, start, block, n, coins)
    requires TxOps(block[n], n, coins).Some?
    ensures Aligned(u, start, block, n + 1, AddCreated(coins, TxOps(block[n], n, coins).value))
  {
    hide TxOps, AddCreated, OutputOps, AddOutputs, AlignedAt, Hashes;
    var tx, now := block[n], After(u, block, n);
    assert TxOk(now, tx, n);
    TxRecords(tx, n, coins);
    var first: nat :|
      AddCreated(coins, TxOps(tx, n, coins).value) == AddCreated(coins, OutputOps(tx.outputs, tx.hash, first));
    HashesSnoc(block, n);
    var hashes', now', coins' := Hashes(block, n + 1), After(u, block, n + 1),
      AddCreated(coins, TxOps(tx, n, coins).value);
    forall c: CoinId
      ensures AlignedAt(u, start, hashes', now', coins', c)
    {
      AlignedAtStep(u, start, Hashes(block, n), now, coins, c, SpentIds(Spending(tx, n)), tx, first);
    }
  }

  /** The operations of the first n transactions as the ledger's coins give them. */
  function LedgerOps(u: Coins, block: Block, n: nat): seq<seq<Operation>>
    requires n <= |block|
  {
    if n == 0 then []
    else
      var ops := TxOps(block[n - 1], n - 1, After(u, block, n - 1));
      LedgerOps(u, block, n - 1) + [if ops.Some? then ops.value else []]
  }

  /**
   * GetRawBlock's list suffices: with those coins fetched, parsing a well-ordered block succeeds, and
   * each spend carries the account and the negated amount of the coin as its creator made it.
   */
  lemma {:induction false} ParseSucceeds(u: Coins, start: Coins, block: Block, n: nat)
    requires n <= |block| && WellOrdered(u, block) && Fetched(u, block, start)
    ensures var p := ParseTxs(block, n, start);
            p.Some? && p.value.txs == LedgerOps(u, block, n) && Aligned(u, start, block, n, p.value.coins)
  {
    hide WellOrdered, Fetched, TxOps, AddCreated, Aligned;
    if n == 0 {
      AlignedStart(u, start, block);
    } else {
      ParseSucceeds(u, start, block, n - 1);
      var p := ParseTxs(block, n - 1, start).value;
      TxHydrates(u, start, block, n - 1, p.coins);
      AlignedStep(u, start, block, n - 1, p.coins);
    }
  }

  lemma AlignedStart(u: Coins, start: Coins, block: Block)
    ensures Aligned(u, start, block, 0, start)
  {
  }

  // ----- what a spend carries

  /** The ledger after the first n blocks of a chain that starts with no coins. */
  function ChainCoins(chain: seq<Block>, n: nat): Coins
    requires n <= |chain|
  {
    if n == 0 then map[] else After(ChainCoins(chain, n - 1), chain[n - 1], |chain[n - 1]|)
  }

  lemma {:induction false} InputOpsAt(inputs: seq<Input>, coins: Coins, i: nat)
    requires i < |inputs| && InputOps(inputs, coins).Some?
    ensures |InputOps(inputs, coins).value| == |inputs| && inputs[i].Id() in coins
    ensures InputOps(inputs, coins).value[i] == InputOp(inputs[i], i, coins[inputs[i].Id()])
  {
    InputsCreateNothing(inputs, coins);
    var k := |inputs| - 1;
    if i < k {
      InputsCreateNothing(inputs[..k], coins);
      InputOpsAt(inputs[..k], coins, i);
    }
  }

  lemma {:induction false} LedgerOpsAt(u: Coins, block: Block, n: nat, m: nat)
    requires n < m <= |block| && TxOps(block[n], n, After(u, block, n)).Some?
    ensures |LedgerOps(u, block, m)| == m && LedgerOps(u, block, m)[n] == TxOps(block[n], n, After(u, block, n)).value
  {
    hide TxOps, After;
    LedgerOpsSize(u, block, m - 1);
    if n < m - 1 { LedgerOpsAt(u, block, n, m - 1); }
  }

  lemma {:induction false} LedgerOpsSize(u: Coins, block: Block, m: nat)
    requires m <= |block|
    ensures |LedgerOps(u, block, m)| == m
  {
    hide TxOps, After;
    if m > 0 { LedgerOpsSize(u, block, m - 1); }
  }

  /** The i-th operation of a transaction takes the spent coin's exact amount from the coin's own account. */
  lemma SpendCarriesCoin(u: Coins, start: Coins, block: Block, n: nat, i: nat)
    requires WellOrdered(u, block) && Fetched(u, block, start) && n < |block| && i < |Spending(block[n], n)|
    ensures var p := ParseTxs(block, |block|, start);
            var c := Spending(block[n], n)[i].Id();
            && p.Some? && |p.value.txs| == |block| && i < |p.value.txs[n]| && c in After(u, block, n)
            && p.value.txs[n][i].account == Some(After(u, block, n)[c].account)
            && p.value.txs[n][i].amount == -After(u, block, n)[c].amount
            && p.value.txs[n][i].change == Spent(c)
  {
    hide WellOrdered, Fetched, Aligned, InputOps, OutputOps, ParseTxs, After, LedgerOps;
    ParseSucceeds(u, start, block, |block|);
    ParseSucceeds(u, start, block, n);
    var coins := ParseTxs(block, n, start).value.coins;
    TxHydrates(u, start, block, n, coins);
    LedgerOpsAt(u, block, n, |block|);
    InputAvailable(u, start, block, n, coins, i);
    InputOpsAt(block[n].inputs, After(u, block, n), i);
  }

  /**
   * Whom an output credits: its only address, or its script when there is not exactly one address;
   * the output itself when that name is blank.
   */
  ghost predicate Credits(o: Output, id: CoinId, account: Account) {
    && (|o.addresses| == 1 && o.addresses[0] != "" ==> account == Named(o.addresses[0]))
    && (|o.addresses| == 1 && o.addresses[0] == "" ==> account == OfOutput(id))
    && (|o.addresses| != 1 && o.hex != "" ==> account == Named(o.hex))
    && (|o.addresses| != 1 && o.hex == "" ==> account == OfOutput(id))
  }

  /** The coin is an output of the transaction, under the account and value of that output. */
  ghost predicate MadeBy(tx: Transaction, c: CoinId, v: AccountCoin) {
    && c.hash == tx.hash && 0 <= c.vout < |tx.outputs| && !tx.outputs[c.vout].nullData
    && Credits(tx.outputs[c.vout], c, v.account) && v.amount == tx.outputs[c.vout].value
  }

  lemma {:induction false} AddedBy(u: Coins, tx: Transaction, n: nat, c: CoinId)
    requires n <= |tx.outputs| && c in AddOutputs(u, tx.outputs[..n], tx.hash)
    ensures var v := AddOutputs(u, tx.outputs[..n], tx.hash)[c];
            MadeBy(tx, c, v) || (c in u && u[c] == v)
  {
    if n > 0 {
      var k := n - 1;
      assert tx.outputs[..n][..k] == tx.outputs[..k];
      if c != CoinId(tx.hash, k) || tx.outputs[k].nullData { AddedBy(u, tx, k, c); }
    }
  }

  /** Some transaction among the first n of the chain's blocks made the coin as it stands. */
  ghost predicate HasMaker(chain: seq<Block>, n: nat, c: CoinId, v: AccountCoin)
    requires n <= |chain|
  {
    exists k, j :: 0 <= k < n && 0 <= j < |chain[k]| && MadeBy(chain[k][j], c, v)
  }

  lemma {:induction false} BlockMaker(chain: seq<Block>, b: nat, n: nat, c: CoinId)
    requires b < |chain| && n <= |chain[b]| && c in After(ChainCoins(chain, b), chain[b], n)
    ensures HasMaker(chain, b + 1, c, After(ChainCoins(chain, b), chain[b], n)[c])
    decreases b, n + 1
  {
    hide MadeBy, AddOutputs;
    var u, block := ChainCoins(chain, b), chain[b];
    if n == 0 {
      CoinHasMaker(chain, b, c);
    } else {
      var tx, before := block[n - 1], After(u, block, n - 1);
      var left := before - SpentIds(Spending(tx, n - 1));
      assert tx.outputs[..|tx.outputs|] == tx.outputs;
      AddedBy(left, tx, |tx.outputs|, c);
      if c in left && left[c] == After(u, block, n)[c] { BlockMaker(chain, b, n - 1, c); }
    }
  }

  /** Every unspent coin carries the account and amount of the output that created it. */
  lemma {:induction false} CoinHasMaker(chain: seq<Block>, n: nat, c: CoinId)
    requires n <= |chain| && c in ChainCoins(chain, n)
    ensures HasMaker(chain, n, c, ChainCoins(chain, n)[c])
    decreases n, 0
  {
    hide MadeBy, After;
    if n > 0 { BlockMaker(chain, n - 1, |chain[n - 1]|, c); }
  }

  // ----- conservation

  function ValueFor(v: AccountCoin, a: Account): int { if v.account == a then v.amount else 0 }

  /** The unspent amount of an account. */
  ghost function Unspent(u: Coins, a: Account): int
    decreases |u|
  {
    if u == map[] then 0
    else
      var c :| c in u;
      ValueFor(u[c], a) + Unspent(u - {c}, a)
  }

  lemma {:induction false} UnspentWithout(u: Coins, c: CoinId, a: Account)
    requires c in u
    ensures Unspent(u, a) == ValueFor(u[c], a) + Unspent(u - {c}, a)
    decreases |u|
  {
    var k :| k in u && Unspent(u, a) == ValueFor(u[k], a) + Unspent(u - {k}, a);
    if k != c {
      assert u - {k} - {c} == u - {c} - {k};
      Smaller(u, k);
      Smaller(u, c);
      UnspentWithout(u - {k}, c, a);
      UnspentWithout(u - {c}, k, a);
    }
  }

  lemma Smaller(u: Coins, c: CoinId)
    requires c in u
    ensures |u - {c}| < |u|
  {
    assert u.Keys == (u - {c}).Keys + {c};
  }

  lemma UnspentWith(u: Coins, c: CoinId, v: AccountCoin, a: Account)
    requires c !in u
    ensures Unspent(u[c := v], a) == Unspent(u, a) + ValueFor(v, a)
  {
    UnspentWithout(u[c := v], c, a);
    assert u[c := v] - {c} == u;
  }

  /** What an account gains over a list of operations. */
  function Total(ops: seq<Operation>, a: Account): int {
    if ops == [] then 0
    else Total(ops[..|ops| - 1], a) + (if ops[|ops| - 1].account == Some(a) then ops[|ops| - 1].amount else 0)
  }

  lemma {:induction false} TotalAppend(x: seq<Operation>, y: seq<Operation>, a: Account)
    ensures Total(x + y, a) == Total(x, a) + Total(y, a)
  {
    if y == [] {
      assert x + y == x;
    } else {
      TotalAppend(x, y[..|y| - 1], a);
      assert (x + y)[..|x + y| - 1] == x + y[..|y| - 1];
    }
  }

  /** The provably unspendable outputs of an account. */
  function NullData(outputs: seq<Output>, hash: string, a: Account): int {
    if outputs == [] then 0
    else
      var k := |outputs| - 1;
      NullData(outputs[..k], hash, a)
      + (if outputs[k].nullData && OutputAccount(outputs[k], CoinId(hash, k)) == a then outputs[k].value else 0)
  }

  /** Removing the spent coins takes away exactly what the input operations say. */
  lemma {:induction false} InputsConserve(u: Coins, inputs: seq<Input>, a: Account)
    requires forall i :: 0 <= i < |inputs| ==> inputs[i].Id() in u
    requires forall i, j :: 0 <= i < j < |inputs| ==> inputs[i].Id() != inputs[j].Id()
    ensures InputOps(inputs, u).Some?
    ensures Unspent(u - SpentIds(inputs), a) == Unspent(u, a) + Total(InputOps(inputs, u).value, a)
  {
    hide Unspent;
    if inputs == [] {
      assert u - SpentIds(inputs) == u;
    } else {
      var k := |inputs| - 1;
      var front, c := inputs[..k], inputs[k].Id();
      InputsConserve(u, front, a);
      var rest := u - SpentIds(front);
      assert c in rest && rest[c] == u[c];
      UnspentWithout(rest, c, a);
      SpentSnoc(inputs);
      assert rest - {c} == u - SpentIds(inputs);
      LastInput(inputs, u, a);
    }
  }

  lemma SpentSnoc(inputs: seq<Input>)
    requires inputs != []
    ensures SpentIds(inputs) == SpentIds(inputs[..|inputs| - 1]) + {inputs[|inputs| - 1].Id()}
  {
    var k := |inputs| - 1;
    assert forall i :: 0 <= i < k ==> inputs[..k][i] == inputs[i];
  }

  lemma LastInput(inputs: seq<Input>, u: Coins, a: Account)
    requires inputs != [] && InputOps(inputs[..|inputs| - 1], u).Some? && inputs[|inputs| - 1].Id() in u
    ensures InputOps(inputs, u).Some?
    ensures Total(InputOps(inputs, u).value, a) ==
            Total(InputOps(inputs[..|inputs| - 1], u).value, a) - ValueFor(u[inputs[|inputs| - 1].Id()], a)
  {
    var k := |inputs| - 1;
    var front := InputOps(inputs[..k], u).value;
    var op := InputOp(inputs[k], k, u[inputs[k].Id()]);
    assert (front + [op])[..|front|] == front;
  }

  lemma {:induction false} OutputsFresh(u: Coins, outputs: seq<Output>, hash: string, c: CoinId)
    requires forall d :: d in u ==> d.hash != hash
    requires c.hash == hash && c.vout >= |outputs|
    ensures c !in AddOutputs(u, outputs, hash)
  {
    if outputs != [] { OutputsFresh(u, outputs[..|outputs| - 1], hash, c); }
  }

  /** Adding the outputs adds what their operations say, less what can never be spent. */
  lemma {:induction false} OutputsConserve(u: Coins, outputs: seq<Output>, hash: string, first: nat, a: Account)
    requires forall c :: c in u ==> c.hash != hash
    ensures Unspent(AddOutputs(u, outputs, hash), a) + NullData(outputs, hash, a) ==
            Unspent(u, a) + Total(OutputOps(outputs, hash, first), a)
  {
    hide Unspent;
    if outputs != [] {
      var k := |outputs| - 1;
      OutputsConserve(u, outputs[..k], hash, first, a);
      var front, id := AddOutputs(u, outputs[..k], hash), CoinId(hash, k);
      OutputsFresh(u, outputs[..k], hash, id);
      var v := AccountCoin(OutputAccount(outputs[k], id), outputs[k].value);
      UnspentWith(front, id, v, a);
      var ops := OutputOps(outputs, hash, first);
      assert ops[..|ops| - 1] == OutputOps(outputs[..k], hash, first);
    }
  }

  /** Over one transaction, an account's operations change its unspent amount, plus its null-data outputs. */
  lemma TxConserves(u: Coins, tx: Transaction, txIndex: nat, a: Account)
    requires TxOk(u, tx, txIndex)
    ensures TxOps(tx, txIndex, u).Some?
    ensures Unspent(AfterTx(u, tx, txIndex), a) + NullData(tx.outputs, tx.hash, a) ==
            Unspent(u, a) + Total(TxOps(tx, txIndex, u).value, a)
  {
    hide Unspent, AddOutputs, NullData, OutputOps;
    var inputs := Spending(tx, txIndex);
    InputsConserve(u, inputs, a);
    var left := u - SpentIds(inputs);
    CoinbaseNothing(a);
    assert InputOps([], u) == Some([]);
    var ins := TxInputs(tx, txIndex, u).value;
    OutputsConserve(left, tx.outputs, tx.hash, |ins|, a);
    TotalAppend(ins, OutputOps(tx.outputs, tx.hash, |ins|), a);
  }

  lemma CoinbaseNothing(a: Account)
    ensures Total([CoinbaseOp()], a) == 0 && Total([], a) == 0
  {
    assert [CoinbaseOp()][..0] == [];
  }

  // ----- chains

  /** The operation total of an account over a block, transaction by transaction. */
  function BlockTotal(txs: seq<seq<Operation>>, a: Account): int {
    if txs == [] then 0 else BlockTotal(txs[..|txs| - 1], a) + Total(txs[|txs| - 1], a)
  }

  function BlockNull(block: Block, n: nat, a: Account): int
    requires n <= |block|
  {
    if n == 0 then 0 else BlockNull(block, n - 1, a) + NullData(block[n - 1].outputs, block[n - 1].hash, a)
  }

  lemma {:induction false} BlockConserves(u: Coins, block: Block, n: nat, a: Account)
    requires n <= |block| && WellOrdered(u, block)
    ensures Unspent(After(u, block, n), a) + BlockNull(block, n, a) ==
            Unspent(u, a) + BlockTotal(LedgerOps(u, block, n), a)
  {
    hide Unspent, TxOps, NullData, Total, AfterTx, TxOk;
    if n > 0 {
      BlockConserves(u, block, n - 1, a);
      assert TxOk(After(u, block, n - 1), block[n - 1], n - 1);
      TxConserves(After(u, block, n - 1), block[n - 1], n - 1, a);
      var front := LedgerOps(u, block, n - 1);
      var ops := LedgerOps(u, block, n);
      assert ops[..|ops| - 1] == front;
    }
  }

  ghost predicate ChainOk(chain: seq<Block>) {
    forall n :: 0 <= n < |chain| ==> WellOrdered(ChainCoins(chain, n), chain[n])
  }

  /** Coins handed to the parser for each block: at least those GetRawBlock lists, as the ledger has them. */
  ghost predicate AllFetched(chain: seq<Block>, fetched: seq<Coins>) {
    |fetched| == |chain| && forall n :: 0 <= n < |chain| ==> Fetched(ChainCoins(chain, n), chain[n], fetched[n])
  }

  function ChainTotal(chain: seq<Block>, fetched: seq<Coins>, n: nat, a: Account): int
    requires n <= |chain| == |fetched|
  {
    if n == 0 then 0
    else
      var p := ParseTxs(chain[n - 1], |chain[n - 1]|, fetched[n - 1]);
      ChainTotal(chain, fetched, n - 1, a) + (if p.Some? then BlockTotal(p.value.txs, a) else 0)
  }

  function ChainNull(chain: seq<Block>, n: nat, a: Account): int
    requires n <= |chain|
  {
    if n == 0 then 0 else ChainNull(chain, n - 1, a) + BlockNull(chain[n - 1], |chain[n - 1]|, a)
  }

  /**
   * Conservation: over every prefix of a well-ordered chain each block parses, and an account's
   * operation total is its unspent coins plus its null-data outputs.
   */
  lemma {:induction false} ChainConserves(chain: seq<Block>, fetched: seq<Coins>, n: nat, a: Account)
    requires ChainOk(chain) && AllFetched(chain, fetched) && n <= |chain|
    ensures forall k :: 0 <= k < n ==> ParseTxs(chain[k], |chain[k]|, fetched[k]).Some?
    ensures ChainTotal(chain, fetched, n, a) == Unspent(ChainCoins(chain, n), a) + ChainNull(chain, n, a)
  {
    hide Unspent, WellOrdered, Fetched, ParseTxs, BlockTotal, BlockNull, After, Aligned;
    if n == 0 {
      UnspentNothing(a);
    } else {
      ChainConserves(chain, fetched, n - 1, a);
      var u, block := ChainCoins(chain, n - 1), chain[n - 1];
      assert WellOrdered(u, block) && Fetched(u, block, fetched[n - 1]);
      ParseSucceeds(u, fetched[n - 1], block, |block|);
      BlockConserves(u, block, |block|, a);
    }
  }

  lemma UnspentNothing(a: Account)
    ensures Unspent(map[], a) == 0
  {
  }
}
