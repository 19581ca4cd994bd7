/** What every interleaving of lookups, BlockSeen and BlockAdded keeps. */
module IndexerSafety {
  import opened Bytes
  import opened WaitTable
  import opened Indexer

  // ----- the invariant

  ghost predicate IsCreator(ch: Chain, c: Coin, v: AccountCoin) {
    exists b: nat :: ch.CreatedIn(c, b) && ch.blocks[b].creates[c] == v
  }

  /** Added blocks were seen to the end; the counter counts the blocks past their counting step. */
  ghost predicate BlocksOk(ch: Chain, s: State) {
    && |s.stage| == |ch.blocks| && s.head <= |ch.blocks|
    && (forall b :: 0 <= b < s.head ==> s.stage[b].Closed?)
    && (forall b: nat :: b in s.counted <==> b < |s.stage| && (s.stage[b].Counted? || s.stage[b].Closed?))
    && s.seen == |s.counted|
    && (!s.adding.Idle? ==> s.head > 0)
  }

  /** Loaded and not yet cleaned. */
  predicate InFlight(s: State, b: nat) { b >= s.head || (b + 1 == s.head && s.adding.Committed?) }

  /** The cache holds created coins only, and all those of blocks in flight. */
  ghost predicate CacheOk(ch: Chain, s: State) {
    && (forall c :: c in s.cache ==> IsCreator(ch, c, s.cache[c]))
    && (forall b: nat, c: Coin :: ch.CreatedIn(c, b) && b < |s.stage| && !s.stage[b].NotSeen? && InFlight(s, b) ==>
      c in s.cache)
  }

  /** listeners counts the outstanding registrations, and earliestBlock is the least height registered. */
  ghost predicate EntryOk(e: Entry, h: History) {
    && e.listeners == |h.waiters| && |h.waiters| > 0
    && (e.aborted ==> e.channelClosed)
    && e.earliestBlock in h.heights && (forall x :: x in h.heights ==> e.earliestBlock <= x)
  }

  ghost predicate TableOk(s: State) {
    s.table.Keys == s.history.Keys && forall tx :: tx in s.table ==> EntryOk(s.table[tx], s.history[tx])
  }

  /** How many of the coins come from a transaction. */
  function CountTx(ch: Chain, cs: seq<Coin>, tx: Tx): nat {
    if cs == [] then 0 else (if ch.txOf(cs[0]) == tx then 1 else 0) + CountTx(ch, cs[1..], tx)
  }

  function PendingOf(s: State, g: Gid): seq<Coin> { if g in s.lookups then s.lookups[g].pending else [] }

  function Waiters(s: State, tx: Tx): multiset<Gid> { if tx in s.history then s.history[tx].waiters else multiset{} }

  /** The outstanding registrations of an entry are those the lookups have not given back. */
  ghost predicate CountsOk(ch: Chain, s: State) {
    forall tx: Tx, g: Gid :: Waiters(s, tx)[g] == CountTx(ch, PendingOf(s, g), tx)
  }

  predicate CoinsOk(ch: Chain, height: nat, cs: seq<Coin>) {
    height < |ch.blocks| && forall c :: c in cs ==> c in ch.blocks[height].spends
  }

  /** What each program point knows about the coin being looked up. */
  ghost predicate PcOk(ch: Chain, head: nat, counted: set<nat>, l: Lookup) {
    match l.pc
    case Begin => l.again != [] ==> l.coins == [] && l.pending != []
    case SeenRead(n, at) => l.coins != [] && l.again == [] && |at| == n && at <= counted
    case StorageMiss(n, at, hd) =>
      && l.coins != [] && l.again == [] && |at| == n && at <= counted && hd <= head
      && forall b: nat :: ch.CreatedIn(l.coins[0], b) ==> hd <= b
    case CacheMiss(n, at, hd) =>
      && l.coins != [] && l.again == [] && |at| == n && at <= counted && hd <= head
      && (forall b: nat :: ch.CreatedIn(l.coins[0], b) ==> hd <= b)
      && (forall b: nat :: ch.CreatedIn(l.coins[0], b) && b in at ==> b < head)
    case HeadSame(n, at) =>
      && l.coins != [] && l.again == [] && |at| == n && at <= counted
      && forall b: nat :: ch.CreatedIn(l.coins[0], b) ==> b !in at
    case Parked(_) => l.coins == [] && l.pending != []
    case Woken => l.coins == [] && l.pending != []
    case Done => l.coins == [] && l.pending == [] && l.again == []
    case Failed => true
    case Orphan => true
    case NotInWaiter => false
  }

  /** Every wanted coin is found, still to be looked up, or waited for; what is found is right. */
  ghost predicate LookupOk(ch: Chain, head: nat, counted: set<nat>, l: Lookup) {
    && (l.Active() ==> head <= l.height)
    && CoinsOk(ch, l.height, l.coins) && CoinsOk(ch, l.height, l.pending) && CoinsOk(ch, l.height, l.again)
    && (forall c :: c in l.wanted <==> c in l.found || c in l.coins || c in l.pending || c in l.again)
    && (forall c :: c in l.found ==> IsCreator(ch, c, l.found[c]))
    && PcOk(ch, head, counted, l)
  }

  ghost predicate LookupsOk(ch: Chain, s: State) {
    forall g :: g in s.lookups ==> LookupOk(ch, s.head, s.counted, s.lookups[g])
  }

  /** Once a block's closing pass is over, no registration for one of its coins is on an open channel. */
  ghost predicate WakeOk(ch: Chain, s: State) {
    forall g: Gid, c: Coin, b: nat ::
      g in s.lookups && c in s.lookups[g].pending && ch.CreatedIn(c, b) && b < |s.stage| && s.stage[b].Closed?
      ==> ch.txOf(c) in s.table && s.table[ch.txOf(c)].channelClosed
  }

  ghost predicate LockOk(s: State) {
    forall g: Gid :: s.lock == Some(g) <==> g in s.lookups && s.lookups[g].pc.HeadSame?
  }

  ghost predicate Inv(ch: Chain, s: State) {
    && BlocksOk(ch, s) && CacheOk(ch, s) && TableOk(s) && CountsOk(ch, s)
    && LookupsOk(ch, s) && WakeOk(ch, s) && LockOk(s)
  }

  // ----- counting

  lemma {:induction false} CountSnoc(ch: Chain, cs: seq<Coin>, c: Coin, tx: Tx)
    ensures CountTx(ch, cs + [c], tx) == CountTx(ch, cs, tx) + (if ch.txOf(c) == tx then 1 else 0)
  {
    if cs == [] {
      assert (cs + [c])[1..] == [];
    } else {
      CountSnoc(ch, cs[1..], c, tx);
      assert (cs + [c])[1..] == cs[1..] + [c];
    }
  }

  lemma {:induction false} CountPositive(ch: Chain, cs: seq<Coin>, c: Coin)
    requires c in cs
    ensures CountTx(ch, cs, ch.txOf(c)) > 0
  {
    if cs[0] != c { CountPositive(ch, cs[1..], c); }
  }

  /** A registered lookup has an entry: neither "not in waiter" return can be taken. */
  lemma PendingHasEntry(ch: Chain, s: State, g: Gid, c: Coin)
    requires TableOk(s) && CountsOk(ch, s) && g in s.lookups && c in s.lookups[g].pending
    ensures ch.txOf(c) in s.table && g in Waiters(s, ch.txOf(c))
  {
    CountPositive(ch, s.lookups[g].pending, c);
    assert Waiters(s, ch.txOf(c))[g] == CountTx(ch, PendingOf(s, g), ch.txOf(c));
  }

  lemma SameSize(a: set<nat>, b: set<nat>)
    requires a <= b && |a| == |b|
    ensures a == b
  {
    if a != b {
      var x :| x in b && x !in a;
      SubsetSize(a, b - {x});
    }
  }

  lemma {:induction false} SubsetSize(a: set<nat>, b: set<nat>)
    requires a <= b
    ensures |a| <= |b|
    decreases |a|
  {
    if a != {} {
      var x :| x in a;
      SubsetSize(a - {x}, b - {x});
    }
  }

  // ----- steps of one lookup that leave the table alone

  lemma LocalStep(ch: Chain, s: State, g: Gid, l: Lookup, lock: Option<Gid>)
    requires Inv(ch, s) && LookupOk(ch, s.head, s.counted, l) && l.pending == PendingOf(s, g)
    requires LockOk(s.(lock := lock).With(g, l))
    ensures Inv(ch, s.(lock := lock).With(g, l))
  {
    hide LookupOk, EntryOk, IsCreator;
    var s' := s.(lock := lock).With(g, l);
    assert forall tx :: Waiters(s', tx) == Waiters(s, tx);
    assert forall h :: PendingOf(s', h) == PendingOf(s, h);
    assert CountsOk(ch, s');
    assert WakeOk(ch, s');
  }

  /** No lock changes hands when neither the old nor the new position holds it. */
  lemma LockUnchanged(s: State, g: Gid, l: Lookup)
    requires LockOk(s) && !l.pc.HeadSame? && (g in s.lookups ==> !s.lookups[g].pc.HeadSame?)
    ensures LockOk(s.(lock := s.lock).With(g, l))
  {
  }

  lemma Begins(ch: Chain, s: State, g: Gid, l: Lookup)
    requires Inv(ch, s) && g in s.lookups && !s.lookups[g].pc.HeadSame?
    requires LookupOk(ch, s.head, s.counted, l) && l.pending == s.lookups[g].pending && !l.pc.HeadSame?
    ensures Inv(ch, s.With(g, l))
  {
    hide LookupOk, BlocksOk, CacheOk, TableOk, CountsOk, WakeOk;
    LockUnchanged(s, g, l);
    LocalStep(ch, s, g, l, s.lock);
  }

  lemma StartKeeps(ch: Chain, s: State, g: Gid, h: nat, coins: seq<Coin>)
    requires ch.Valid() && Inv(ch, s) && Enabled(ch, s, Start(g, h, coins))
    ensures Inv(ch, Do(ch, s, Start(g, h, coins)))
  {
    hide BlocksOk, CacheOk, TableOk, CountsOk, WakeOk;
    var l := Lookup(h, (set c | c in coins), coins, [], [], map[], false, Begin);
    LockUnchanged(s, g, l);
    LocalStep(ch, s, g, l, s.lock);
  }

  lemma ReadSeenKeeps(ch: Chain, s: State, g: Gid)
    requires Inv(ch, s) && Enabled(ch, s, ReadSeen(g))
    ensures Inv(ch, Do(ch, s, ReadSeen(g)))
  {
    hide CacheOk, TableOk, CountsOk, WakeOk, LockOk, IsCreator;
    var l := s.lookups[g];
    assert LookupOk(ch, s.head, s.counted, l);
    Begins(ch, s, g, l.(pc := SeenRead(s.seen, s.counted)));
  }

  /** A coin found for the block goes to the result as its creator made it. */
  lemma FoundOk(ch: Chain, s: State, l: Lookup, v: AccountCoin)
    requires LookupOk(ch, s.head, s.counted, l) && l.coins != [] && l.again == [] && l.Active()
              && IsCreator(ch, l.coins[0], v)
    ensures LookupOk(ch, s.head, s.counted, Found(l, v))
  {
    hide IsCreator;
    var l' := Found(l, v);
    assert l.coins == [l.coins[0]] + l.coins[1..];
    forall c
      ensures c in l'.wanted <==> c in l'.found || c in l'.coins || c in l'.pending || c in l'.again
    {
      assert c in l.coins <==> c == l.coins[0] || c in l.coins[1..];
    }
  }

  /** A coin that storage lacks was created by none of the added blocks. */
  lemma NotStored(ch: Chain, s: State, l: Lookup, b: nat)
    requires ch.Valid() && BlocksOk(ch, s) && LookupOk(ch, s.head, s.counted, l) && l.Active() && l.coins != []
    requires l.coins[0] !in ch.Stored(s.head) && ch.CreatedIn(l.coins[0], b)
    ensures s.head <= b
  {
    hide IsCreator, PcOk;
    var c := l.coins[0];
    if b < s.head {
      forall d | b <= d < s.head
        ensures c !in ch.blocks[d].spends
      {
        assert c in ch.blocks[l.height].spends;
        assert d < l.height;
      }
      CreatedIsStored(ch, s.head, c, b);
    }
  }

  lemma SnapshotKeeps(ch: Chain, s: State, g: Gid)
    requires ch.Valid() && Inv(ch, s) && Enabled(ch, s, Snapshot(g))
    ensures Inv(ch, Do(ch, s, Snapshot(g)))
  {
    hide CacheOk, TableOk, CountsOk, WakeOk, LockOk, Chain.Stored;
    var l := s.lookups[g];
    assert LookupOk(ch, s.head, s.counted, l);
    var l' := DoSnapshot(ch, s, l);
    if s.head > 0 {
      var c := l.coins[0];
      if c in ch.Stored(s.head) {
        var b := StoredIsCreated(ch, s.head, c);
        FoundOk(ch, s, l, ch.Stored(s.head)[c]);
      } else {
        forall b: nat | ch.CreatedIn(c, b)
          ensures s.head <= b
        {
          NotStored(ch, s, l, b);
        }
      }
    }
    Begins(ch, s, g, l');
  }

  lemma ProbeKeeps(ch: Chain, s: State, g: Gid)
    requires ch.Valid() && Inv(ch, s) && Enabled(ch, s, Probe(g))
    ensures Inv(ch, Do(ch, s, Probe(g)))
  {
    hide TableOk, CountsOk, WakeOk, LockOk, IsCreator;
    var l := s.lookups[g];
    assert LookupOk(ch, s.head, s.counted, l);
    var c := l.coins[0];
    if c in s.cache {
      FoundOk(ch, s, l, s.cache[c]);
      Begins(ch, s, g, Found(l, s.cache[c]));
    } else {
      var l' := l.(pc := CacheMiss(l.pc.seen, l.pc.at, l.pc.head));
      assert LookupOk(ch, s.head, s.counted, l');
      Begins(ch, s, g, l');
    }
  }

  lemma CheckHeadKeeps(ch: Chain, s: State, g: Gid)
    requires Inv(ch, s) && Enabled(ch, s, CheckHead(g))
    ensures Inv(ch, Do(ch, s, CheckHead(g)))
  {
    hide CacheOk, TableOk, CountsOk, WakeOk, IsCreator;
    var l := s.lookups[g];
    assert LookupOk(ch, s.head, s.counted, l);
    if s.head != l.pc.head {
      Begins(ch, s, g, l.(pc := Begin));
    } else {
      LocalStep(ch, s, g, l.(pc := HeadSame(l.pc.seen, l.pc.at)), Some(g));
    }
  }

  lemma WaitKeeps(ch: Chain, s: State, g: Gid)
    requires Inv(ch, s) && Enabled(ch, s, Wait(g))
    ensures Inv(ch, Do(ch, s, Wait(g))) && Do(ch, s, Wait(g)).lookups[g].pc.Parked?
  {
    hide CacheOk, TableOk, CountsOk, WakeOk, LockOk, IsCreator, BlocksOk;
    var l := s.lookups[g];
    assert LookupOk(ch, s.head, s.counted, l);
    PendingHasEntry(ch, s, g, l.pending[0]);
    Begins(ch, s, g, l.(pc := Parked(s.table[ch.txOf(l.pending[0])].channel)));
  }

  lemma QuietKeeps(ch: Chain, s: State, a: Action)
    requires Inv(ch, s) && Enabled(ch, s, a) && (a.Wake? || a.Finish? || a.Cancel?)
    ensures Inv(ch, Do(ch, s, a))
  {
    hide CacheOk, TableOk, CountsOk, WakeOk, LockOk, IsCreator, BlocksOk;
    var l := s.lookups[a.g];
    assert LookupOk(ch, s.head, s.counted, l);
    var l' := l.(pc := if a.Wake? then Woken else if a.Finish? then Done else Failed);
    assert LookupOk(ch, s.head, s.counted, l');
    Begins(ch, s, a.g, l');
  }

  // ----- BlockSeen

  lemma LoadKeeps(ch: Chain, s: State, b: nat)
    requires ch.Valid() && Inv(ch, s) && Enabled(ch, s, Load(b))
    ensures Inv(ch, Do(ch, s, Load(b)))
  {
    hide LookupOk, EntryOk, IsCreator;
    var s' := Do(ch, s, Load(b));
    LoadCache(ch, s, b);
    assert forall tx :: Waiters(s', tx) == Waiters(s, tx);
    assert forall h :: PendingOf(s', h) == PendingOf(s, h);
    assert BlocksOk(ch, s') && WakeOk(ch, s') && CountsOk(ch, s');
  }

  lemma LoadCache(ch: Chain, s: State, b: nat)
    requires CacheOk(ch, s) && Enabled(ch, s, Load(b))
    ensures CacheOk(ch, Do(ch, s, Load(b)))
  {
    var s' := Do(ch, s, Load(b));
    forall c | c in s'.cache
      ensures IsCreator(ch, c, s'.cache[c])
    {
      if c in ch.blocks[b].creates { assert ch.CreatedIn(c, b); }
    }
  }

  lemma CountKeeps(ch: Chain, s: State, b: nat)
    requires Inv(ch, s) && Enabled(ch, s, Count(b))
    ensures Inv(ch, Do(ch, s, Count(b)))
  {
    hide EntryOk, IsCreator;
    var s' := Do(ch, s, Count(b));
    assert BlocksOk(ch, s') by {
      assert b !in s.counted;
      assert |s.counted + {b}| == |s.counted| + 1;
    }
    assert CacheOk(ch, s');
    CountFrame(ch, s, b);
  }

  lemma CountFrame(ch: Chain, s: State, b: nat)
    requires TableOk(s) && CountsOk(ch, s) && LookupsOk(ch, s) && WakeOk(ch, s) && LockOk(s) && Enabled(ch, s, Count(b))
    ensures var s' := Do(ch, s, Count(b));
            TableOk(s') && CountsOk(ch, s') && LookupsOk(ch, s') && WakeOk(ch, s') && LockOk(s')
  {
    hide EntryOk, IsCreator, LookupOk;
    var s' := Do(ch, s, Count(b));
    assert forall tx :: Waiters(s', tx) == Waiters(s, tx);
    assert forall h :: PendingOf(s', h) == PendingOf(s, h);
    forall g | g in s'.lookups
      ensures LookupOk(ch, s'.head, s'.counted, s'.lookups[g])
    {
      LookupGrows(ch, s.head, s.head, s.counted, s'.counted, s.lookups[g]);
    }
  }

  /** What a lookup knows stays true as blocks are counted and added. */
  lemma LookupGrows(ch: Chain, head: nat, head': nat, counted: set<nat>, counted': set<nat>, l: Lookup)
    requires LookupOk(ch, head, counted, l) && head <= head' && counted <= counted'
              && (head < head' && l.Active() ==> head' <= l.height)
    ensures LookupOk(ch, head', counted', l)
  {
    hide IsCreator, CoinsOk;
  }

  lemma CloseKeeps(ch: Chain, s: State, b: nat)
    requires ch.Valid() && Inv(ch, s) && Enabled(ch, s, Close(b))
    ensures Inv(ch, Do(ch, s, Close(b)))
  {
    hide LookupOk, IsCreator, CountTx;
    var s' := Do(ch, s, Close(b));
    assert forall tx :: Waiters(s', tx) == Waiters(s, tx);
    assert forall h :: PendingOf(s', h) == PendingOf(s, h);
    assert BlocksOk(ch, s') && CacheOk(ch, s') && TableOk(s') && LookupsOk(ch, s') && CountsOk(ch, s') && LockOk(s');
    CloseWakes(ch, s, b);
  }

  /** The closing pass wakes every registration for the block's coins. */
  lemma CloseWakes(ch: Chain, s: State, b: nat)
    requires ch.Valid() && TableOk(s) && CountsOk(ch, s) && WakeOk(ch, s) && Enabled(ch, s, Close(b))
    ensures WakeOk(ch, Do(ch, s, Close(b)))
  {
    hide EntryOk, CountTx, Waiters;
    var s' := Do(ch, s, Close(b));
    forall g: Gid, c: Coin, d: nat |
      g in s'.lookups && c in s'.lookups[g].pending && ch.CreatedIn(c, d) && d < |s'.stage| && s'.stage[d].Closed?
      ensures ch.txOf(c) in s'.table && s'.table[ch.txOf(c)].channelClosed
    {
      PendingHasEntry(ch, s, g, c);
      if d != b { assert s.stage[d].Closed?; }
    }
  }

  // ----- BlockAdded

  lemma CommitKeeps(ch: Chain, s: State)
    requires Inv(ch, s) && Enabled(ch, s, Commit)
    ensures Inv(ch, Do(ch, s, Commit))
  {
    hide EntryOk, IsCreator, LookupOk, CountTx;
    var s' := Do(ch, s, Commit);
    assert forall tx :: Waiters(s', tx) == Waiters(s, tx);
    assert forall h :: PendingOf(s', h) == PendingOf(s, h);
    forall g | g in s'.lookups
      ensures LookupOk(ch, s'.head, s'.counted, s'.lookups[g])
    {
      Ahead(ch, s, g);
      LookupGrows(ch, s.head, s'.head, s.counted, s'.counted, s.lookups[g]);
    }
    assert BlocksOk(ch, s') && CacheOk(ch, s') && CountsOk(ch, s') && WakeOk(ch, s');
  }

  lemma Ahead(ch: Chain, s: State, g: Gid)
    requires LookupsOk(ch, s) && g in s.lookups && s.NoActiveUpTo(s.head)
    ensures s.lookups[g].Active() ==> s.head + 1 <= s.lookups[g].height
  {
  }

  lemma CleanKeeps(ch: Chain, s: State)
    requires ch.Valid() && Inv(ch, s) && Enabled(ch, s, Clean)
    ensures Inv(ch, Do(ch, s, Clean))
  {
    hide EntryOk, IsCreator, LookupOk, CountTx;
    var s' := Do(ch, s, Clean);
    assert forall tx :: Waiters(s', tx) == Waiters(s, tx);
    assert forall h :: PendingOf(s', h) == PendingOf(s, h);
    assert BlocksOk(ch, s') && CountsOk(ch, s') && WakeOk(ch, s') && LookupsOk(ch, s');
    CleanCache(ch, s);
  }

  /** Cleaning after a block takes out that block's coins and no others. */
  lemma CleanCache(ch: Chain, s: State)
    requires ch.Valid() && BlocksOk(ch, s) && CacheOk(ch, s) && Enabled(ch, s, Clean)
    ensures CacheOk(ch, Do(ch, s, Clean))
  {
    hide IsCreator;
    var s' := Do(ch, s, Clean);
    forall b: nat, c: Coin | ch.CreatedIn(c, b) && b < |s'.stage| && !s'.stage[b].NotSeen? && InFlight(s', b)
      ensures c in s'.cache
    {
      assert InFlight(s, b);
      if c in ch.blocks[s.head - 1].creates { OneCreator(ch, c, b, s.head - 1); }
    }
  }

  lemma AbortKeeps(ch: Chain, s: State)
    requires Inv(ch, s) && Enabled(ch, s, Abort)
    ensures Inv(ch, Do(ch, s, Abort))
  {
    hide IsCreator, LookupOk, CountTx;
    var s' := Do(ch, s, Abort);
    assert forall tx :: Waiters(s', tx) == Waiters(s, tx);
    assert forall h :: PendingOf(s', h) == PendingOf(s, h);
    assert BlocksOk(ch, s') && CacheOk(ch, s') && CountsOk(ch, s') && WakeOk(ch, s') && LookupsOk(ch, s');
    assert TableOk(s');
  }

  // ----- registration

  /** The decisive step: nothing moved, so the creator's closing pass is still to come. */
  lemma NotClosedYet(ch: Chain, s: State, g: Gid, b: nat)
    requires BlocksOk(ch, s) && LookupsOk(ch, s) && g in s.lookups && s.lookups[g].pc.HeadSame?
    requires s.seen == s.lookups[g].pc.seen && s.lookups[g].coins != []
    requires ch.CreatedIn(s.lookups[g].coins[0], b)
    ensures !s.stage[b].Closed?
  {
    hide IsCreator, CoinsOk;
    var l := s.lookups[g];
    assert LookupOk(ch, s.head, s.counted, l);
    SameSize(l.pc.at, s.counted);
  }

  lemma RegisterKeeps(ch: Chain, s: State, g: Gid)
    requires Inv(ch, s) && Enabled(ch, s, Register(g))
    ensures Inv(ch, Do(ch, s, Register(g)))
  {
    var l := s.lookups[g];
    hide BlocksOk, CacheOk, TableOk, CountsOk, WakeOk, IsCreator;
    assert LookupOk(ch, s.head, s.counted, l);
    if s.seen != l.pc.seen {
      LocalStep(ch, s, g, l.(pc := Begin), None);
    } else {
      RegisterTable(ch, s, g);
      RegisterCounts(ch, s, g);
      RegisterLookup(ch, s, g);
      RegisterWake(ch, s, g);
      RegisterFrame(ch, s, g);
    }
  }

  /** The state after a registration that goes through. */
  predicate Registers(ch: Chain, s: State, g: Gid) {
    Enabled(ch, s, Register(g)) && s.seen == s.lookups[g].pc.seen
  }

  lemma RegisterFrame(ch: Chain, s: State, g: Gid)
    requires BlocksOk(ch, s) && CacheOk(ch, s) && LockOk(s) && Registers(ch, s, g)
    ensures var s' := Do(ch, s, Register(g)); BlocksOk(ch, s') && CacheOk(ch, s') && LockOk(s')
  {
    hide IsCreator, Registered;
  }

  lemma RegisterTable(ch: Chain, s: State, g: Gid)
    requires TableOk(s) && Registers(ch, s, g)
    ensures TableOk(Do(ch, s, Register(g)))
  {
    var l := s.lookups[g];
    var tx := ch.txOf(l.coins[0]);
    var s' := Do(ch, s, Register(g));
    if tx !in s.table { assert s'.history[tx].waiters == multiset{g}; }
    assert EntryOk(s'.table[tx], s'.history[tx]);
  }

  lemma RegisterCounts(ch: Chain, s: State, g: Gid)
    requires CountsOk(ch, s) && Registers(ch, s, g)
    ensures CountsOk(ch, Do(ch, s, Register(g)))
  {
    hide Registered, CountTx;
    var l := s.lookups[g];
    var s' := Do(ch, s, Register(g));
    forall tx: Tx, h: Gid
      ensures Waiters(s', tx)[h] == CountTx(ch, PendingOf(s', h), tx)
    {
      assert Waiters(s, tx)[h] == CountTx(ch, PendingOf(s, h), tx);
      if h == g { CountSnoc(ch, l.pending, l.coins[0], tx); }
    }
  }

  lemma RegisterLookup(ch: Chain, s: State, g: Gid)
    requires LookupsOk(ch, s) && Registers(ch, s, g)
    ensures LookupsOk(ch, Do(ch, s, Register(g)))
  {
    hide Registered, IsCreator;
    var l := s.lookups[g];
    assert LookupOk(ch, s.head, s.counted, l);
    MovedOk(ch, s.head, s.counted, l);
    hide LookupOk;
  }

  lemma MovedOk(ch: Chain, head: nat, counted: set<nat>, l: Lookup)
    requires LookupOk(ch, head, counted, l) && l.pc.HeadSame? && l.coins != []
    ensures LookupOk(ch, head, counted, l.(pending := l.pending + [l.coins[0]], coins := l.coins[1..], pc := Begin))
  {
    hide IsCreator;
    assert l.coins == [l.coins[0]] + l.coins[1..];
    assert forall c :: c in l.coins <==> c == l.coins[0] || c in l.coins[1..];
  }

  lemma RegisterWake(ch: Chain, s: State, g: Gid)
    requires BlocksOk(ch, s) && LookupsOk(ch, s) && WakeOk(ch, s) && Registers(ch, s, g)
    ensures WakeOk(ch, Do(ch, s, Register(g)))
  {
    hide LookupOk;
    var l := s.lookups[g];
    var s' := Do(ch, s, Register(g));
    forall h: Gid, c: Coin, b: nat |
      h in s'.lookups && c in s'.lookups[h].pending && ch.CreatedIn(c, b) && b < |s'.stage| && s'.stage[b].Closed?
      ensures ch.txOf(c) in s'.table && s'.table[ch.txOf(c)].channelClosed
    {
      if h == g && c !in l.pending { NotClosedYet(ch, s, g, b); }
    }
  }

  // ----- release

  lemma ReleaseKeeps(ch: Chain, s: State, g: Gid)
    requires Inv(ch, s) && Enabled(ch, s, Release(g))
    ensures Inv(ch, Do(ch, s, Release(g)))
  {
    hide BlocksOk, CacheOk, TableOk, CountsOk, WakeOk, IsCreator, LookupsOk, LockOk;
    PendingHasEntry(ch, s, g, s.lookups[g].pending[0]);
    ReleaseTable(ch, s, g);
    ReleaseCounts(ch, s, g);
    ReleaseLookup(ch, s, g);
    ReleaseWake(ch, s, g);
    ReleaseFrame(ch, s, g);
  }

  predicate Releases(ch: Chain, s: State, g: Gid) {
    && Enabled(ch, s, Release(g))
    && var tx := ch.txOf(s.lookups[g].pending[0]); tx in s.table && g in Waiters(s, tx)
  }

  lemma ReleaseFrame(ch: Chain, s: State, g: Gid)
    requires BlocksOk(ch, s) && CacheOk(ch, s) && LockOk(s) && Releases(ch, s, g)
    ensures var s' := Do(ch, s, Release(g)); BlocksOk(ch, s') && CacheOk(ch, s') && LockOk(s')
  {
    hide IsCreator, Released;
  }

  lemma ReleaseTable(ch: Chain, s: State, g: Gid)
    requires TableOk(s) && Releases(ch, s, g)
    ensures TableOk(Do(ch, s, Release(g)))
  {
    hide AfterRelease;
    var tx := ch.txOf(s.lookups[g].pending[0]);
    var s' := Do(ch, s, Release(g));
    var w := s.history[tx].waiters;
    assert EntryOk(s.table[tx], s.history[tx]);
    assert |w - multiset{g}| == |w| - 1;
    if s.table[tx].listeners != 1 { assert EntryOk(s'.table[tx], s'.history[tx]); }
  }

  lemma LastWaiter(w: multiset<Gid>, g: Gid)
    requires |w| == 1 && g in w
    ensures w == multiset{g}
  {
    assert |w - multiset{g}| == 0;
    assert w == (w - multiset{g}) + multiset{g};
  }

  lemma ReleaseCounts(ch: Chain, s: State, g: Gid)
    requires TableOk(s) && CountsOk(ch, s) && Releases(ch, s, g)
    ensures CountsOk(ch, Do(ch, s, Release(g)))
  {
    hide Released;
    var l := s.lookups[g];
    var t := ch.txOf(l.pending[0]);
    var s' := Do(ch, s, Release(g));
    assert EntryOk(s.table[t], s.history[t]);
    if s.table[t].listeners == 1 { LastWaiter(s.history[t].waiters, g); }
    assert PendingOf(s', g) == l.pending[1..];
    forall tx: Tx, h: Gid
      ensures Waiters(s', tx)[h] == CountTx(ch, PendingOf(s', h), tx)
    {
      assert Waiters(s, tx)[h] == CountTx(ch, PendingOf(s, h), tx);
    }
  }

  lemma ReleaseLookup(ch: Chain, s: State, g: Gid)
    requires LookupsOk(ch, s) && Releases(ch, s, g)
    ensures LookupsOk(ch, Do(ch, s, Release(g)))
  {
    hide Released, LookupOk, AfterRelease;
    var l := s.lookups[g];
    assert LookupOk(ch, s.head, s.counted, l);
    var tx := ch.txOf(l.pending[0]);
    AfterReleaseOk(ch, s.head, s.counted, l, s.table[tx].aborted);
  }

  lemma AfterReleaseOk(ch: Chain, head: nat, counted: set<nat>, l: Lookup, aborted: bool)
    requires LookupOk(ch, head, counted, l) && l.pc.Woken? && l.pending != []
    ensures LookupOk(ch, head, counted, AfterRelease(l, aborted))
  {
    hide IsCreator;
    assert l.pending == [l.pending[0]] + l.pending[1..];
    assert forall c :: c in l.pending <==> c == l.pending[0] || c in l.pending[1..];
  }

  lemma ReleaseWake(ch: Chain, s: State, g: Gid)
    requires TableOk(s) && CountsOk(ch, s) && WakeOk(ch, s) && Releases(ch, s, g)
    ensures WakeOk(ch, Do(ch, s, Release(g)))
  {
    hide LookupOk, CountTx;
    var l := s.lookups[g];
    var s' := Do(ch, s, Release(g));
    ReleaseTable(ch, s, g);
    ReleaseCounts(ch, s, g);
    forall h: Gid, c: Coin, b: nat |
      h in s'.lookups && c in s'.lookups[h].pending && ch.CreatedIn(c, b) && b < |s'.stage| && s'.stage[b].Closed?
      ensures ch.txOf(c) in s'.table && s'.table[ch.txOf(c)].channelClosed
    {
      assert c in s.lookups[h].pending;
      PendingHasEntry(ch, s', h, c);
    }
  }

  // ----- every run

  lemma StepKeeps(ch: Chain, s: State, a: Action)
    requires ch.Valid() && Inv(ch, s) && Enabled(ch, s, a)
    ensures Inv(ch, Do(ch, s, a))
  {
    hide *;
    match a
    case Start(g, h, coins) => StartKeeps(ch, s, g, h, coins);
    case ReadSeen(g) => ReadSeenKeeps(ch, s, g);
    case Snapshot(g) => SnapshotKeeps(ch, s, g);
    case Probe(g) => ProbeKeeps(ch, s, g);
    case CheckHead(g) => CheckHeadKeeps(ch, s, g);
    case Register(g) => RegisterKeeps(ch, s, g);
    case Wait(g) => WaitKeeps(ch, s, g);
    case Wake(g) => QuietKeeps(ch, s, a);
    case Release(g) => ReleaseKeeps(ch, s, g);
    case Finish(g) => QuietKeeps(ch, s, a);
    case Cancel(g) => QuietKeeps(ch, s, a);
    case Load(b) => LoadKeeps(ch, s, b);
    case Count(b) => CountKeeps(ch, s, b);
    case Close(b) => CloseKeeps(ch, s, b);
    case Commit => CommitKeeps(ch, s);
    case Clean => CleanKeeps(ch, s);
    case Abort => AbortKeeps(ch, s);
  }

  lemma InitOk(ch: Chain)
    ensures Inv(ch, Init(ch))
  {
    hide LookupOk, IsCreator, EntryOk;
  }

  lemma {:induction false} RunInv(ch: Chain, run: seq<Action>)
    requires ch.Valid() && Run(ch, run).Some?
    ensures Inv(ch, Run(ch, run).value)
  {
    hide Inv, Enabled, Do, Init, Chain.Valid;
    if run == [] {
      InitOk(ch);
    } else {
      var front := run[..|run| - 1];
      RunInv(ch, front);
      StepKeeps(ch, Run(ch, front).value, run[|run| - 1]);
    }
  }

  /** Wait-table accounting, in every reachable state. */
  lemma Accounting(ch: Chain, run: seq<Action>, tx: Tx)
    requires ch.Valid() && Run(ch, run).Some?
    ensures var s := Run(ch, run).value;
            && (tx in s.table <==> exists g, c :: g in s.lookups && c in s.lookups[g].pending && ch.txOf(c) == tx)
            && (tx in s.table ==>
                  && s.table[tx].listeners == |Waiters(s, tx)|
                  && (forall g :: Waiters(s, tx)[g] == CountTx(ch, PendingOf(s, g), tx))
                  && tx in s.history && s.table[tx].earliestBlock in s.history[tx].heights
                  && (forall h :: h in s.history[tx].heights ==> s.table[tx].earliestBlock <= h)
                  && (s.table[tx].aborted ==> s.table[tx].channelClosed))
  {
    hide Run, Chain.Valid, BlocksOk, CacheOk, LookupsOk, LockOk, WakeOk, CountTx;
    RunInv(ch, run);
    var s := Run(ch, run).value;
    if tx in s.table {
      assert EntryOk(s.table[tx], s.history[tx]);
      var g :| g in Waiters(s, tx);
      assert Waiters(s, tx)[g] == CountTx(ch, PendingOf(s, g), tx);
      var c := CountedCoin(ch, PendingOf(s, g), tx);
    }
    forall g, c | g in s.lookups && c in s.lookups[g].pending && ch.txOf(c) == tx
      ensures tx in s.table
    {
      PendingHasEntry(ch, s, g, c);
    }
  }

  lemma {:induction false} CountedCoin(ch: Chain, cs: seq<Coin>, tx: Tx) returns (c: Coin)
    requires CountTx(ch, cs, tx) > 0
    ensures c in cs && ch.txOf(c) == tx
  {
    if ch.txOf(cs[0]) == tx { c := cs[0]; } else { c := CountedCoin(ch, cs[1..], tx); }
  }

  /** Neither "not in waiter" return is ever taken. */
  lemma AlwaysInWaiter(ch: Chain, run: seq<Action>, g: Gid)
    requires ch.Valid() && Run(ch, run).Some? && g in Run(ch, run).value.lookups
    ensures !Run(ch, run).value.lookups[g].pc.NotInWaiter?
  {
    hide Run, Chain.Valid, BlocksOk, CacheOk, TableOk, CountsOk, LockOk, WakeOk, IsCreator, CoinsOk;
    RunInv(ch, run);
    assert LookupOk(ch, Run(ch, run).value.head, Run(ch, run).value.counted, Run(ch, run).value.lookups[g]);
  }

  predicate SameRequest(s: State, s': State, g: Gid) {
    g in s.lookups ==>
      && g in s'.lookups
      && s'.lookups[g].wanted == s.lookups[g].wanted && s'.lookups[g].height == s.lookups[g].height
  }

  /** A lookup keeps its block and its request from start to end. */
  lemma RequestKept(ch: Chain, s: State, a: Action, g: Gid)
    requires Enabled(ch, s, a)
    ensures SameRequest(s, Do(ch, s, a), g)
  {
    hide DoRegister, DoRelease, ClosedFor, AbortedAt, Chain.Stored;
    if a.Register? {
      RegisterSameRequest(ch, s, a.g, g);
    } else if a.Release? {
      ReleaseSameRequest(ch, s, a.g, g);
    }
  }

  lemma RegisterSameRequest(ch: Chain, s: State, h: Gid, g: Gid)
    requires h in s.lookups && s.lookups[h].pc.HeadSame? && s.lookups[h].coins != []
    ensures SameRequest(s, DoRegister(ch, s, h, s.lookups[h]), g)
  {
    hide Registered;
  }

  lemma ReleaseSameRequest(ch: Chain, s: State, h: Gid, g: Gid)
    requires h in s.lookups && s.lookups[h].pending != []
    ensures SameRequest(s, DoRelease(ch, s, h, s.lookups[h]), g)
  {
    hide Released;
  }

  lemma {:induction false} WantedIsRequest(ch: Chain, run: seq<Action>, i: nat)
    requires Run(ch, run).Some? && i < |run| && run[i].Start?
    ensures var s := Run(ch, run).value;
            run[i].g in s.lookups && s.lookups[run[i].g].wanted == (set c | c in run[i].coins)
  {
    hide Enabled, Init;
    var front := run[..|run| - 1];
    var s := Run(ch, front).value;
    if i < |front| {
      WantedIsRequest(ch, front, i);
      assert front[i] == run[i];
      hide Do;
      RequestKept(ch, s, run[|run| - 1], run[i].g);
    }
  }

  /**
   * Lookup result: a finished call returns exactly the coins it was asked for, each as its creator
   * made it, however blocks moved between cache and storage.
   */
  lemma LookupResult(ch: Chain, run: seq<Action>, i: nat)
    requires ch.Valid() && Run(ch, run).Some? && i < |run| && run[i].Start?
    requires var s := Run(ch, run).value; run[i].g in s.lookups && s.lookups[run[i].g].pc.Done?
    ensures var found := Run(ch, run).value.lookups[run[i].g].found;
            found.Keys == (set c | c in run[i].coins) && forall c :: c in found ==> IsCreator(ch, c, found[c])
  {
    hide Run, Chain.Valid, BlocksOk, CacheOk, TableOk, CountsOk, LockOk, WakeOk, IsCreator, CoinsOk;
    RunInv(ch, run);
    WantedIsRequest(ch, run, i);
    var s := Run(ch, run).value;
    assert LookupOk(ch, s.head, s.counted, s.lookups[run[i].g]);
  }
}
