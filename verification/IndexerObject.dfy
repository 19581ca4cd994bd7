/** The shared fields of the indexer as an object, with the unlocked parts of its handlers (indexer.go). */
module IndexerObject {
  import opened Bytes
  import opened WaitTable
  import opened Indexer

  /** An operation of a block, as far as the cache looks at it. */
  datatype CoinOp = Creates(coin: Coin, value: AccountCoin) | Spends(coin: Coin) | NoCoinChange

  datatype SeenTx = SeenTx(hash: Tx, ops: seq<CoinOp>)

  function CreatedByOps(ops: seq<CoinOp>): map<Coin, AccountCoin> {
    if ops == [] then map[]
    else
      var front, op := CreatedByOps(ops[..|ops| - 1]), ops[|ops| - 1];
      if op.Creates? then front[op.coin := op.value] else front
  }

  /** The coins a block makes accessible. */
  function CreatedBy(txs: seq<SeenTx>): map<Coin, AccountCoin> {
    if txs == [] then map[] else CreatedBy(txs[..|txs| - 1]) + CreatedByOps(txs[|txs| - 1].ops)
  }

  function HashesOf(txs: seq<SeenTx>): seq<Tx> { seq(|txs|, i requires 0 <= i < |txs| => txs[i].hash) }

  /** The block of the chain that a list of transactions stands for. */
  ghost predicate Matches(txs: seq<SeenTx>, b: Block) {
    CreatedBy(txs) == b.creates && TxSet(HashesOf(txs)) == b.txs
  }

  class IndexerFields {
    var coinCache: map<Coin, AccountCoin>
    var seen: nat
    const waiter: WaitTableObject

    constructor ()
      ensures coinCache == map[] && seen == 0 && fresh(waiter) && waiter.Valid() && waiter.View() == map[]
      ensures waiter.closed == {} && waiter.next == 0
    {
      coinCache, seen := map[], 0;
      waiter := new WaitTableObject();
    }

    /** The fields hold what a state of the transition system says. */
    ghost predicate Shows(s: State)
      reads this, waiter, waiter.table.Values
    {
      && coinCache == s.cache && seen == s.seen
      && waiter.View() == s.table && waiter.closed == s.closed && waiter.next == s.next
    }

    /** The loop of BlockSeen under the cache lock. */
    method CacheCreated(txs: seq<SeenTx>)
      modifies this`coinCache
      ensures coinCache == old(coinCache) + CreatedBy(txs)
    {
      hide CreatedBy, CreatedByOps;
      NothingCreated(txs);
      for i := 0 to |txs|
        invariant coinCache == old(coinCache) + CreatedBy(txs[..i])
      {
        CreatedSnoc(txs, i);
        ghost var before := coinCache;
        var ops := txs[i].ops;
        NothingCreatedByOps(ops);
        for j := 0 to |ops|
          invariant coinCache == before + CreatedByOps(ops[..j])
        {
          OpsSnoc(ops, j);
          if ops[j].Creates? { coinCache := coinCache[ops[j].coin := ops[j].value]; }
        }
        assert ops[..|ops|] == ops;
      }
      assert txs[..|txs|] == txs;
    }

    /** The loop of BlockAdded under the cache lock. */
    method DropCreated(txs: seq<SeenTx>)
      modifies this`coinCache
      ensures coinCache == old(coinCache) - CreatedBy(txs).Keys
    {
      hide CreatedBy, CreatedByOps;
      NothingCreated(txs);
      for i := 0 to |txs|
        invariant coinCache == old(coinCache) - CreatedBy(txs[..i]).Keys
      {
        CreatedSnoc(txs, i);
        ghost var before := coinCache;
        var ops := txs[i].ops;
        NothingCreatedByOps(ops);
        for j := 0 to |ops|
          invariant coinCache == before - CreatedByOps(ops[..j]).Keys
        {
          OpsSnoc(ops, j);
          if ops[j].Creates? { coinCache := coinCache - {ops[j].coin}; }
        }
        assert ops[..|ops|] == ops;
      }
      assert txs[..|txs|] == txs;
    }

    // ----- each critical section is a step of the transition system

    method SeenLoad(txs: seq<SeenTx>, ghost ch: Chain, ghost s: State, ghost b: nat)
      requires Shows(s) && Enabled(ch, s, Load(b)) && Matches(txs, ch.blocks[b])
      modifies this`coinCache
      ensures Shows(Do(ch, s, Load(b)))
    {
      CacheCreated(txs);
    }

    method SeenCount(ghost ch: Chain, ghost s: State, ghost b: nat)
      requires Shows(s) && Enabled(ch, s, Count(b))
      modifies this`seen
      ensures Shows(Do(ch, s, Count(b)))
    {
      seen := seen + 1;
    }

    method SeenClose(txs: seq<SeenTx>, ghost ch: Chain, ghost s: State, ghost b: nat)
      requires Shows(s) && waiter.Valid() && Enabled(ch, s, Close(b)) && Matches(txs, ch.blocks[b])
      modifies waiter`closed, waiter.table.Values
      ensures waiter.Valid() && Shows(Do(ch, s, Close(b)))
    {
      waiter.ClosePass(HashesOf(txs));
    }

    method AddedClean(txs: seq<SeenTx>, ghost ch: Chain, ghost s: State)
      requires Shows(s) && Enabled(ch, s, Clean) && Matches(txs, ch.blocks[s.head - 1])
      modifies this`coinCache
      ensures Shows(Do(ch, s, Clean))
    {
      DropCreated(txs);
    }

    /** head is the height after the block just added. */
    method AddedAbort(head: nat, ghost ch: Chain, ghost s: State)
      requires Shows(s) && waiter.Valid() && Enabled(ch, s, Abort) && s.head == head
      modifies waiter`closed, waiter.table.Values
      ensures waiter.Valid() && Shows(Do(ch, s, Abort))
    {
      waiter.AbortPass(head);
    }

    /** findCoins takes the entry's channel from the table, under the lock, before it blocks. */
    method LookupWait(tx: Tx, ghost ch: Chain, ghost s: State, ghost g: Gid) returns (channel: Option<nat>)
      requires Shows(s) && waiter.Valid() && Enabled(ch, s, Wait(g)) && tx == ch.txOf(s.lookups[g].pending[0])
      ensures Shows(Do(ch, s, Wait(g)))
      ensures Do(ch, s, Wait(g)).lookups[g].pc == if channel.Some? then Parked(channel.value) else NotInWaiter
    {
      waiter.ViewAt(tx);
      if tx !in waiter.table { return None; }
      return Some(waiter.table[tx].channel);
    }

    /** The end of findCoin's critical section: register unless a block was seen meanwhile. */
    method LookupRegister(tx: Tx, height: nat, startSeen: nat, ghost ch: Chain, ghost s: State, ghost g: Gid)
        returns (registered: bool)
      requires Shows(s) && waiter.Valid() && Enabled(ch, s, Register(g))
      requires tx == ch.txOf(s.lookups[g].coins[0]) && height == s.lookups[g].height
                && startSeen == s.lookups[g].pc.seen
      modifies waiter, waiter.table.Values
      ensures waiter.Valid() && Shows(Do(ch, s, Register(g)))
      ensures registered <==> |Do(ch, s, Register(g)).lookups[g].pending| > |s.lookups[g].pending|
    {
      hide Registered;
      if seen != startSeen { return false; }
      waiter.Register(tx, height);
      return true;
    }

    /** The critical section after a wake-up. */
    method LookupRelease(tx: Tx, ghost ch: Chain, ghost s: State, ghost g: Gid) returns (present: bool, aborted: bool)
      requires Shows(s) && waiter.Valid() && Enabled(ch, s, Release(g)) && tx == ch.txOf(s.lookups[g].pending[0])
      modifies waiter, waiter.table.Values
      ensures waiter.Valid() && Shows(Do(ch, s, Release(g)))
      ensures present == (tx in s.table) && (present ==> aborted == s.table[tx].aborted)
    {
      hide Released, AfterRelease;
      present, aborted := waiter.Release(tx);
    }
  }

  /** The transactions whose entries a block closes are those it lists. */
  lemma HashesIff(txs: seq<SeenTx>, tx: Tx)
    ensures tx in TxSet(HashesOf(txs)) <==> exists i :: 0 <= i < |txs| && txs[i].hash == tx
  {
    forall i | 0 <= i < |txs| ensures txs[i].hash in HashesOf(txs) {
      assert HashesOf(txs)[i] == txs[i].hash;
    }
  }

  /** A coin is made accessible exactly when some operation of some transaction creates it. */
  lemma {:induction false} CreatedByIff(txs: seq<SeenTx>, n: nat, c: Coin)
    requires n <= |txs|
    ensures c in CreatedBy(txs[..n]) <==>
            exists i, v :: 0 <= i < n && Creates(c, v) in txs[i].ops
  {
    if n > 0 {
      assert txs[..n][..n - 1] == txs[..n - 1];
      CreatedByIff(txs, n - 1, c);
      var ops := txs[n - 1].ops;
      assert ops[..|ops|] == ops;
      CreatedByOpsIff(ops, |ops|, c);
    }
  }

  lemma {:induction false} CreatedByOpsIff(ops: seq<CoinOp>, n: nat, c: Coin)
    requires n <= |ops|
    ensures c in CreatedByOps(ops[..n]) <==> exists v :: Creates(c, v) in ops[..n]
    ensures c in CreatedByOps(ops[..n]) ==> Creates(c, CreatedByOps(ops[..n])[c]) in ops[..n]
  {
    if n > 0 {
      assert ops[..n] == ops[..n - 1] + [ops[n - 1]];
      assert ops[..n][..n - 1] == ops[..n - 1];
      CreatedByOpsIff(ops, n - 1, c);
    }
  }

  lemma NothingCreated(txs: seq<SeenTx>)
    ensures CreatedBy(txs[..0]) == map[]
  {
  }

  lemma NothingCreatedByOps(ops: seq<CoinOp>)
    ensures CreatedByOps(ops[..0]) == map[]
  {
  }

  lemma CreatedSnoc(txs: seq<SeenTx>, i: nat)
    requires i < |txs|
    ensures CreatedBy(txs[..i + 1]) == CreatedBy(txs[..i]) + CreatedByOps(txs[i].ops)
  {
    assert txs[..i + 1][..i] == txs[..i];
  }

  lemma OpsSnoc(ops: seq<CoinOp>, j: nat)
    requires j < |ops|
    ensures CreatedByOps(ops[..j + 1]) ==
            if ops[j].Creates? then CreatedByOps(ops[..j])[ops[j].coin := ops[j].value] else CreatedByOps(ops[..j])
  {
    assert ops[..j + 1][..j] == ops[..j];
  }
}
