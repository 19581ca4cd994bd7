/**
 * Coin lookups running beside BlockSeen and BlockAdded (indexer.go), as a transition system: one
 * step per critical section, storage snapshot or unlocked read, interleaved in any order.
 */
module Indexer {
  import opened Bytes
  import opened WaitTable

  type Coin = nat
  type Gid = nat

  datatype AccountCoin = AccountCoin(account: nat, amount: int)

  // ----- the chain

  datatype Block = Block(txs: set<Tx>, creates: map<Coin, AccountCoin>, spends: set<Coin>)

  /** One chain; txOf is the transaction named in a coin identifier. */
  datatype Chain = Chain(blocks: seq<Block>, txOf: Coin -> Tx) {
    predicate CreatedIn(c: Coin, b: nat) { b < |blocks| && c in blocks[b].creates }

    /** Coin identifiers and transactions are unique, and a coin is spent at most once. */
    ghost predicate Valid() {
      && (forall b: nat, c: Coin :: CreatedIn(c, b) ==> txOf(c) in blocks[b].txs)
      && (forall b, d :: 0 <= b < d < |blocks| ==> blocks[b].txs !! blocks[d].txs)
      && (forall b, d :: 0 <= b < d < |blocks| ==> blocks[b].spends !! blocks[d].spends)
    }

    /** Coin storage after the first n blocks were added. */
    function Stored(n: nat): map<Coin, AccountCoin>
      requires n <= |blocks|
    {
      if n == 0 then map[] else (Stored(n - 1) + blocks[n - 1].creates) - blocks[n - 1].spends
    }
  }

  lemma OneCreator(ch: Chain, c: Coin, b: nat, d: nat)
    requires ch.Valid() && ch.CreatedIn(c, b) && ch.CreatedIn(c, d)
    ensures b == d
  {
    assert ch.txOf(c) in ch.blocks[b].txs && ch.txOf(c) in ch.blocks[d].txs;
  }

  /** What storage holds was created by an added block, as stored. */
  lemma {:induction false} StoredIsCreated(ch: Chain, n: nat, c: Coin) returns (b: nat)
    requires n <= |ch.blocks| && c in ch.Stored(n)
    ensures b < n && ch.CreatedIn(c, b) && ch.Stored(n)[c] == ch.blocks[b].creates[c]
  {
    if c in ch.blocks[n - 1].creates { b := n - 1; } else { b := StoredIsCreated(ch, n - 1, c); }
  }

  /** A created coin stays in storage until a block spends it. */
  lemma {:induction false} CreatedIsStored(ch: Chain, n: nat, c: Coin, b: nat)
    requires b < n <= |ch.blocks| && ch.CreatedIn(c, b)
    requires forall d :: b <= d < n ==> c !in ch.blocks[d].spends
    ensures c in ch.Stored(n)
  {
    if n - 1 > b { CreatedIsStored(ch, n - 1, c, b); }
  }

  /** Storage holds the coins that were created and not spent since. */
  lemma {:induction false} StoredIff(ch: Chain, n: nat, c: Coin)
    requires n <= |ch.blocks|
    ensures c in ch.Stored(n) <==>
            exists b: nat :: b < n && ch.CreatedIn(c, b) && forall d :: b <= d < n ==> c !in ch.blocks[d].spends
  {
    if n > 0 {
      StoredIff(ch, n - 1, c);
      if c in ch.Stored(n - 1) && c !in ch.blocks[n - 1].spends {
        var b: nat :| b < n - 1 && ch.CreatedIn(c, b) && forall d :: b <= d < n - 1 ==> c !in ch.blocks[d].spends;
        assert forall d :: b <= d < n ==> c !in ch.blocks[d].spends;
      } else if c in ch.blocks[n - 1].creates {
        assert ch.CreatedIn(c, n - 1);
      }
    }
  }

  // ----- the state

  datatype Stage = NotSeen | Loaded | Counted | Closed

  /** Progress of BlockAdded for the head block. */
  datatype Adding = Idle | Committed | Cleaned

  /**
   * Where a lookup stands. seen is the value of the counter it read; at is the set of blocks counted at
   * that moment, kept only to state the invariant. HeadSame holds the waiter lock. Parked remembers the
   * channel taken from the table; Orphan is the end with the orphan-head error after an aborted wait.
   */
  datatype Pc =
    | Begin
    | SeenRead(seen: nat, at: set<nat>)
    | StorageMiss(seen: nat, at: set<nat>, head: nat)
    | CacheMiss(seen: nat, at: set<nat>, head: nat)
    | HeadSame(seen: nat, at: set<nat>)
    | Parked(channel: nat) | Woken
    | Done | Failed | Orphan | NotInWaiter

  /**
   * A findCoins call for a block: coins still to look up, coins registered and waited for, coins to
   * look up again after the wait, and what was found.
   */
  datatype Lookup = Lookup(
    height: nat, wanted: set<Coin>,
    coins: seq<Coin>, pending: seq<Coin>, again: seq<Coin>,
    found: map<Coin, AccountCoin>, shouldAbort: bool, pc: Pc)
  {
    predicate Active() { !pc.Done? && !pc.Failed? && !pc.Orphan? && !pc.NotInWaiter? }
  }

  /** Who registered since the entry was created and has not been decremented, and all heights registered. */
  datatype History = History(waiters: multiset<Gid>, heights: set<int>)

  /** closed holds the channels that were closed, next the first one not yet made. */
  datatype State = State(
    cache: map<Coin, AccountCoin>, seen: nat, head: nat,
    table: Table, closed: set<nat>, next: nat, lock: Option<Gid>,
    stage: seq<Stage>, adding: Adding, lookups: map<Gid, Lookup>,
    counted: set<nat>, history: map<Tx, History>)
  {
    function With(g: Gid, l: Lookup): State { this.(lookups := lookups[g := l]) }

    /** No BlockAdded can commit a block while a lookup for it, or for an earlier one, is running. */
    predicate NoActiveUpTo(b: nat) { forall g :: g in lookups && lookups[g].height <= b ==> !lookups[g].Active() }
  }

  datatype Action =
    | Start(g: Gid, height: nat, coins: seq<Coin>)
    | ReadSeen(g: Gid)
    | Snapshot(g: Gid)
    | Probe(g: Gid)
    | CheckHead(g: Gid)
    | Register(g: Gid)
    | Wait(g: Gid)
    | Wake(g: Gid)
    | Release(g: Gid)
    | Finish(g: Gid)
    | Cancel(g: Gid)
    | Load(b: nat)
    | Count(b: nat)
    | Close(b: nat)
    | Commit
    | Clean
    | Abort

  predicate At(s: State, g: Gid) { g in s.lookups }

  predicate Enabled(ch: Chain, s: State, a: Action) {
    match a
    case Start(g, h, coins) =>
      g !in s.lookups && s.head <= h < |ch.blocks| && forall c :: c in coins ==> c in ch.blocks[h].spends
    case ReadSeen(g) => At(s, g) && s.lookups[g].pc.Begin? && s.lookups[g].coins != []
    case Snapshot(g) => At(s, g) && s.lookups[g].pc.SeenRead? && s.lookups[g].coins != [] && s.head <= |ch.blocks|
    case Probe(g) => At(s, g) && s.lookups[g].pc.StorageMiss? && s.lookups[g].coins != []
    case CheckHead(g) => At(s, g) && s.lookups[g].pc.CacheMiss? && s.lock.None?
    case Register(g) => At(s, g) && s.lookups[g].pc.HeadSame? && s.lookups[g].coins != []
    case Wait(g) =>
      At(s, g) && s.lookups[g].pc.Begin? && s.lookups[g].coins == [] && s.lookups[g].pending != [] && s.lock.None?
    case Wake(g) =>
      At(s, g) && s.lookups[g].pc.Parked? && s.lookups[g].pc.channel in s.closed
    case Release(g) => At(s, g) && s.lookups[g].pc.Woken? && s.lookups[g].pending != [] && s.lock.None?
    case Finish(g) => At(s, g) && s.lookups[g].pc.Begin? && s.lookups[g].coins == [] && s.lookups[g].pending == []
    case Cancel(g) => At(s, g) && s.lookups[g].Active() && !s.lookups[g].pc.HeadSame?
    case Load(b) => b < |s.stage| == |ch.blocks| && s.stage[b].NotSeen?
    case Count(b) => b < |s.stage| && s.stage[b].Loaded?
    case Close(b) => b < |s.stage| == |ch.blocks| && s.stage[b].Counted? && s.lock.None?
    case Commit =>
      s.adding.Idle? && s.head < |s.stage| == |ch.blocks| && s.stage[s.head].Closed? && s.NoActiveUpTo(s.head)
    case Clean => s.adding.Committed? && 0 < s.head <= |ch.blocks|
    case Abort => s.adding.Cleaned? && s.lock.None?
  }

  function Found(l: Lookup, v: AccountCoin): Lookup
    requires l.coins != []
  {
    l.(found := l.found[l.coins[0] := v], coins := l.coins[1..], pc := Begin)
  }

  function DoSnapshot(ch: Chain, s: State, l: Lookup): Lookup
    requires l.pc.SeenRead? && l.coins != [] && s.head <= |ch.blocks|
  {
    // Without a head block the lookup sleeps and tries again.
    if s.head == 0 then l.(pc := Begin)
    else if l.coins[0] in ch.Stored(s.head) then Found(l, ch.Stored(s.head)[l.coins[0]])
    else l.(pc := StorageMiss(l.pc.seen, l.pc.at, s.head))
  }

  function DoRegister(ch: Chain, s: State, g: Gid, l: Lookup): State
    requires l.pc.HeadSame? && l.coins != []
  {
    if s.seen != l.pc.seen then s.(lock := None).With(g, l.(pc := Begin))
    else
      var tx := ch.txOf(l.coins[0]);
      var h := if tx in s.history then s.history[tx] else History(multiset{}, {});
      s.(lock := None, table := Registered(s.table, tx, l.height, s.next),
         next := if tx in s.table then s.next else s.next + 1,
         history := s.history[tx := History(h.waiters + multiset{g}, h.heights + {l.height})])
       .With(g, l.(pending := l.pending + [l.coins[0]], coins := l.coins[1..], pc := Begin))
  }

  /** The next wait, the next round, or the end with an error. */
  function AfterRelease(l: Lookup, aborted: bool): Lookup
    requires l.pending != []
  {
    var l' := l.(again := l.again + [l.pending[0]], pending := l.pending[1..],
                 shouldAbort := l.shouldAbort || aborted, pc := Begin);
    if l'.pending != [] then l'
    else if l'.shouldAbort then l'.(pc := Orphan)
    else l'.(coins := l'.again, again := [])
  }

  function DoRelease(ch: Chain, s: State, g: Gid, l: Lookup): State
    requires l.pending != []
  {
    var tx := ch.txOf(l.pending[0]);
    if tx !in s.table then s.(lock := Some(g)).With(g, l.(pc := NotInWaiter))
    else
      var waiters := (if tx in s.history then s.history[tx].waiters else multiset{}) - multiset{g};
      var heights := if tx in s.history then s.history[tx].heights else {};
      s.(table := Released(s.table, tx),
         history := if s.table[tx].listeners == 1 then s.history - {tx} else s.history[tx := History(waiters, heights)])
       .With(g, AfterRelease(l, s.table[tx].aborted))
  }

  function Do(ch: Chain, s: State, a: Action): State
    requires Enabled(ch, s, a)
  {
    match a
    case Start(g, h, coins) =>
      s.With(g, Lookup(h, (set c | c in coins), coins, [], [], map[], false, Begin))
    case ReadSeen(g) => s.With(g, s.lookups[g].(pc := SeenRead(s.seen, s.counted)))
    case Snapshot(g) => s.With(g, DoSnapshot(ch, s, s.lookups[g]))
    case Probe(g) =>
      var l := s.lookups[g];
      s.With(g, if l.coins[0] in s.cache then Found(l, s.cache[l.coins[0]])
                else l.(pc := CacheMiss(l.pc.seen, l.pc.at, l.pc.head)))
    case CheckHead(g) =>
      var l := s.lookups[g];
      if s.head != l.pc.head then s.With(g, l.(pc := Begin))
      else s.(lock := Some(g)).With(g, l.(pc := HeadSame(l.pc.seen, l.pc.at)))
    case Register(g) => DoRegister(ch, s, g, s.lookups[g])
    case Wait(g) =>
      var l := s.lookups[g];
      var tx := ch.txOf(l.pending[0]);
      s.With(g, l.(pc := if tx in s.table then Parked(s.table[tx].channel) else NotInWaiter))
    case Wake(g) => s.With(g, s.lookups[g].(pc := Woken))
    case Release(g) => DoRelease(ch, s, g, s.lookups[g])
    case Finish(g) => s.With(g, s.lookups[g].(pc := Done))
    case Cancel(g) => s.With(g, s.lookups[g].(pc := Failed))
    case Load(b) => s.(cache := s.cache + ch.blocks[b].creates, stage := s.stage[b := Loaded])
    case Count(b) => s.(seen := s.seen + 1, counted := s.counted + {b}, stage := s.stage[b := Counted])
    case Close(b) =>
      s.(closed := s.closed + ChannelsFor(s.table, ch.blocks[b].txs),
         table := ClosedFor(s.table, ch.blocks[b].txs), stage := s.stage[b := Closed])
    case Commit => s.(head := s.head + 1, adding := Committed)
    case Clean => s.(cache := s.cache - ch.blocks[s.head - 1].creates.Keys, adding := Cleaned)
    case Abort =>
      s.(closed := s.closed + ChannelsAt(s.table, s.head), table := AbortedAt(s.table, s.head), adding := Idle)
  }

  function Init(ch: Chain): State {
    State(map[], 0, 0, map[], {}, 0, None, seq(|ch.blocks|, i => NotSeen), Idle, map[], {}, map[])
  }

  /** The state after a run, when every step was possible. */
  function Run(ch: Chain, run: seq<Action>): Option<State> {
    if run == [] then Some(Init(ch))
    else
      var before := Run(ch, run[..|run| - 1]);
      if before.Some? && Enabled(ch, before.value, run[|run| - 1]) then Some(Do(ch, before.value, run[|run| - 1]))
      else None
  }
}
