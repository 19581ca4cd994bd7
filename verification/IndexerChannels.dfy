/** Which channel a waiting lookup blocks on, that it is closed in time, and that no wait is aborted without cause. */
module IndexerChannels {
  import opened Bytes
  import opened WaitTable
  import opened Indexer
  import opened IndexerSafety

  // ----- the invariant

  /** A parked lookup holds the channel of its transaction's entry; a woken one saw it closed. */
  ghost predicate LookupParked(ch: Chain, t: Table, l: Lookup) {
    l.pc.Parked? || l.pc.Woken? ==>
      && l.pending != [] && ch.txOf(l.pending[0]) in t
      && (l.pc.Parked? ==> t[ch.txOf(l.pending[0])].channel == l.pc.channel)
      && (l.pc.Woken? ==> t[ch.txOf(l.pending[0])].channelClosed)
  }

  ghost predicate ParkOk(ch: Chain, s: State) {
    forall g :: g in s.lookups ==> LookupParked(ch, s.table, s.lookups[g])
  }

  /** Some lookup of that height has a registration for the transaction that it did not give back. */
  ghost predicate HasWaiter(ch: Chain, lookups: map<Gid, Lookup>, tx: Tx, h: int) {
    exists g :: g in lookups && lookups[g].height == h && CountTx(ch, lookups[g].pending, tx) > 0
  }

  /** While an entry is open, each height registered in it still has a waiter. */
  ghost predicate HeightsOk(ch: Chain, s: State) {
    forall tx: Tx, h: int ::
      tx in s.table && !s.table[tx].channelClosed && tx in s.history && h in s.history[tx].heights ==>
        HasWaiter(ch, s.lookups, tx, h)
  }

  ghost predicate ChannelInv(ch: Chain, s: State) {
    Sane(s.table, s.closed, s.next) && ParkOk(ch, s) && HeightsOk(ch, s)
  }

  // ----- steps that leave the table alone

  lemma WaiterKept(ch: Chain, lookups: map<Gid, Lookup>, g: Gid, l: Lookup, tx: Tx, h: int)
    requires HasWaiter(ch, lookups, tx, h)
    requires g in lookups ==>
               && l.height == lookups[g].height
               && CountTx(ch, l.pending, tx) >= CountTx(ch, lookups[g].pending, tx)
    ensures HasWaiter(ch, lookups[g := l], tx, h)
  {
    var k :| k in lookups && lookups[k].height == h && CountTx(ch, lookups[k].pending, tx) > 0;
    assert k in lookups[g := l];
  }

  lemma LocalChannels(ch: Chain, s: State, s': State, g: Gid, l: Lookup)
    requires ChannelInv(ch, s) && LookupParked(ch, s.table, l)
    requires s'.lookups == s.lookups[g := l]
    requires s'.table == s.table && s'.closed == s.closed && s'.next == s.next && s'.history == s.history
    requires g in s.lookups ==> l.height == s.lookups[g].height && l.pending == s.lookups[g].pending
    ensures ChannelInv(ch, s')
  {
    hide Sane, HasWaiter, LookupParked, CountTx;
    forall tx: Tx, h: int |
      tx in s'.table && !s'.table[tx].channelClosed && tx in s'.history && h in s'.history[tx].heights
      ensures HasWaiter(ch, s'.lookups, tx, h)
    {
      WaiterKept(ch, s.lookups, g, l, tx, h);
    }
  }

  /** Steps of one lookup other than registering and releasing. */
  lemma LookupStep(ch: Chain, s: State, a: Action)
    requires Inv(ch, s) && ChannelInv(ch, s) && Enabled(ch, s, a)
    requires a.Start? || a.ReadSeen? || a.Snapshot? || a.Probe? || a.CheckHead? || a.Finish? || a.Cancel?
    ensures ChannelInv(ch, Do(ch, s, a))
  {
    hide Inv, ChannelInv, Chain.Stored;
    LocalChannels(ch, s, Do(ch, s, a), a.g, Do(ch, s, a).lookups[a.g]);
  }

  lemma WaitChannels(ch: Chain, s: State, g: Gid)
    requires Inv(ch, s) && ChannelInv(ch, s) && Enabled(ch, s, Wait(g))
    ensures ChannelInv(ch, Do(ch, s, Wait(g)))
  {
    hide ChannelInv, BlocksOk, CacheOk, LookupsOk, WakeOk, LockOk, TableOk, CountsOk;
    PendingHasEntry(ch, s, g, s.lookups[g].pending[0]);
    LocalChannels(ch, s, Do(ch, s, Wait(g)), g, Do(ch, s, Wait(g)).lookups[g]);
  }

  /** A lookup wakes only when its own entry was closed. */
  lemma WakeChannels(ch: Chain, s: State, g: Gid)
    requires ChannelInv(ch, s) && Enabled(ch, s, Wake(g))
    ensures ChannelInv(ch, Do(ch, s, Wake(g)))
  {
    hide HeightsOk;
    assert LookupParked(ch, s.table, s.lookups[g]);
    LocalChannels(ch, s, Do(ch, s, Wake(g)), g, Do(ch, s, Wake(g)).lookups[g]);
  }

  // ----- steps of the table

  /** Entries only gain listeners, closed flags and marks; those with waiters stay. */
  ghost predicate TableMoves(t: Table, t': Table) {
    forall tx :: tx in t && tx in t' ==>
      t'[tx].channel == t[tx].channel && (t[tx].channelClosed ==> t'[tx].channelClosed)
  }

  lemma ParkMoves(ch: Chain, t: Table, t': Table, l: Lookup)
    requires LookupParked(ch, t, l) && TableMoves(t, t')
    requires l.pending != [] ==> ch.txOf(l.pending[0]) in t'
    ensures LookupParked(ch, t', l)
  {
  }

  lemma EnvironmentStep(ch: Chain, s: State, a: Action)
    requires Inv(ch, s) && ChannelInv(ch, s) && Enabled(ch, s, a)
    requires a.Load? || a.Count? || a.Close? || a.Commit? || a.Clean? || a.Abort?
    ensures ChannelInv(ch, Do(ch, s, a))
  {
    hide Inv, HasWaiter, Sane, LookupParked, CountTx;
    var s' := Do(ch, s, a);
    assert s'.lookups == s.lookups && s'.history == s.history && s'.table.Keys == s.table.Keys;
    if a.Close? {
      CloseSane(s.table, s.closed, s.next, ch.blocks[a.b].txs);
    } else if a.Abort? {
      AbortSane(s.table, s.closed, s.next, s.head);
    }
    forall g | g in s'.lookups
      ensures LookupParked(ch, s'.table, s'.lookups[g])
    {
      PendingStays(ch, s, g);
      ParkMoves(ch, s.table, s'.table, s.lookups[g]);
    }
  }

  /** A registered lookup's first entry is in the table. */
  lemma PendingStays(ch: Chain, s: State, g: Gid)
    requires Inv(ch, s) && g in s.lookups
    ensures s.lookups[g].pending != [] ==> ch.txOf(s.lookups[g].pending[0]) in s.table
  {
    hide BlocksOk, CacheOk, LookupsOk, WakeOk, LockOk, TableOk, CountsOk;
    if s.lookups[g].pending != [] { PendingHasEntry(ch, s, g, s.lookups[g].pending[0]); }
  }

  lemma CloseSane(t: Table, closed: set<nat>, next: nat, txs: set<Tx>)
    requires Sane(t, closed, next)
    ensures Sane(ClosedFor(t, txs), closed + ChannelsFor(t, txs), next) && ChannelsFor(t, txs) !! closed
  {
  }

  lemma AbortSane(t: Table, closed: set<nat>, next: nat, height: int)
    requires Sane(t, closed, next)
    ensures Sane(AbortedAt(t, height), closed + ChannelsAt(t, height), next) && ChannelsAt(t, height) !! closed
  {
  }

  lemma RegisterChannels(ch: Chain, s: State, g: Gid)
    requires Inv(ch, s) && ChannelInv(ch, s) && Enabled(ch, s, Register(g))
    ensures ChannelInv(ch, Do(ch, s, Register(g)))
  {
    hide Inv, Sane, ParkOk, HeightsOk, LookupParked;
    var l := s.lookups[g];
    if s.seen != l.pc.seen {
      NotParked(ch, s.table, l.(pc := Begin));
      LocalChannels(ch, s, Do(ch, s, Register(g)), g, l.(pc := Begin));
    } else {
      SaneJoined(s.table, s.closed, s.next, ch.txOf(l.coins[0]), l.height);
      RegisterPark(ch, s, g);
      RegisterHeights(ch, s, g);
    }
  }

  lemma RegisterPark(ch: Chain, s: State, g: Gid)
    requires Inv(ch, s) && ParkOk(ch, s) && Registers(ch, s, g)
    ensures ParkOk(ch, Do(ch, s, Register(g)))
  {
    hide Inv, LookupParked;
    var s' := Do(ch, s, Register(g));
    NotParked(ch, s'.table, s'.lookups[g]);
    forall k | k in s'.lookups
      ensures LookupParked(ch, s'.table, s'.lookups[k])
    {
      if k != g {
        PendingStays(ch, s, k);
        ParkMoves(ch, s.table, s'.table, s.lookups[k]);
      }
    }
  }

  lemma RegisterHeights(ch: Chain, s: State, g: Gid)
    requires Inv(ch, s) && ChannelInv(ch, s) && Registers(ch, s, g)
    ensures HeightsOk(ch, Do(ch, s, Register(g)))
  {
    hide Inv, ChannelInv, HasWaiter, Do;
    var s' := Do(ch, s, Register(g));
    forall tx: Tx, h: int |
      tx in s'.table && !s'.table[tx].channelClosed && tx in s'.history && h in s'.history[tx].heights
      ensures HasWaiter(ch, s'.lookups, tx, h)
    {
      RegisterWaiter(ch, s, g, tx, h);
    }
  }

  lemma NotParked(ch: Chain, t: Table, l: Lookup)
    requires !l.pc.Parked? && !l.pc.Woken?
    ensures LookupParked(ch, t, l)
  {
  }

  lemma RegisterWaiter(ch: Chain, s: State, g: Gid, tx: Tx, h: int)
    requires Inv(ch, s) && ChannelInv(ch, s) && Registers(ch, s, g)
    requires var s' := Do(ch, s, Register(g));
             tx in s'.table && !s'.table[tx].channelClosed && tx in s'.history && h in s'.history[tx].heights
    ensures HasWaiter(ch, Do(ch, s, Register(g)).lookups, tx, h)
  {
    hide BlocksOk, CacheOk, LookupsOk, WakeOk, LockOk, CountsOk, Sane, ParkOk, HasWaiter, CountTx, EntryOk;
    var l, s' := s.lookups[g], Do(ch, s, Register(g));
    var l' := s'.lookups[g];
    CountSnoc(ch, l.pending, l.coins[0], tx);
    if tx == ch.txOf(l.coins[0]) && h == l.height {
      WaiterIs(ch, s'.lookups, g, tx);
    } else {
      WaiterKept(ch, s.lookups, g, l', tx, h);
    }
  }

  lemma WaiterIs(ch: Chain, lookups: map<Gid, Lookup>, g: Gid, tx: Tx)
    requires g in lookups && CountTx(ch, lookups[g].pending, tx) > 0
    ensures HasWaiter(ch, lookups, tx, lookups[g].height)
  {
  }

  lemma ReleaseChannels(ch: Chain, s: State, g: Gid)
    requires Inv(ch, s) && ChannelInv(ch, s) && Enabled(ch, s, Release(g))
    ensures ChannelInv(ch, Do(ch, s, Release(g)))
  {
    hide Inv, Sane, ParkOk, HeightsOk, AfterRelease;
    PendingStays(ch, s, g);
    SaneReleased(s.table, s.closed, s.next, ch.txOf(s.lookups[g].pending[0]));
    ReleasePark(ch, s, g);
    ReleaseHeights(ch, s, g);
  }

  /** What releasing does to the table and to the lookup. */
  ghost predicate ReleasedTo(ch: Chain, s: State, g: Gid, s': State) {
    && g in s.lookups && s.lookups[g].pending != [] && ch.txOf(s.lookups[g].pending[0]) in s.table
    && s'.lookups == s.lookups[g := AfterRelease(s.lookups[g], s.table[ch.txOf(s.lookups[g].pending[0])].aborted)]
    && TableMoves(s.table, s'.table)
    && forall tx :: tx in s'.table && tx in s'.history ==>
         && tx in s.table && tx in s.history && s'.history[tx].heights == s.history[tx].heights
         && s'.table[tx].channelClosed == s.table[tx].channelClosed
  }

  lemma ReleaseEffect(ch: Chain, s: State, g: Gid)
    requires Inv(ch, s) && Enabled(ch, s, Release(g))
    ensures Inv(ch, Do(ch, s, Release(g))) && ReleasedTo(ch, s, g, Do(ch, s, Release(g)))
  {
    hide Inv, AfterRelease;
    PendingStays(ch, s, g);
    ReleaseKeeps(ch, s, g);
    TableAndHistory(ch, s);
  }

  lemma TableAndHistory(ch: Chain, s: State)
    requires Inv(ch, s)
    ensures s.table.Keys == s.history.Keys
  {
    hide BlocksOk, CacheOk, LookupsOk, WakeOk, LockOk, CountsOk;
  }

  lemma ReleasePark(ch: Chain, s: State, g: Gid)
    requires Inv(ch, s) && ParkOk(ch, s) && Enabled(ch, s, Release(g))
    ensures ParkOk(ch, Do(ch, s, Release(g)))
  {
    hide Inv, LookupParked, AfterRelease, Do, TableMoves;
    ReleaseEffect(ch, s, g);
    var l, s' := s.lookups[g], Do(ch, s, Release(g));
    ReleasedNotParked(l, s.table[ch.txOf(l.pending[0])].aborted);
    NotParked(ch, s'.table, s'.lookups[g]);
    forall k | k in s'.lookups
      ensures LookupParked(ch, s'.table, s'.lookups[k])
    {
      if k != g {
        PendingStays(ch, s', k);
        ParkMoves(ch, s.table, s'.table, s.lookups[k]);
      }
    }
  }

  lemma ReleaseHeights(ch: Chain, s: State, g: Gid)
    requires Inv(ch, s) && ParkOk(ch, s) && HeightsOk(ch, s) && Enabled(ch, s, Release(g))
    ensures HeightsOk(ch, Do(ch, s, Release(g)))
  {
    hide Inv, HasWaiter, AfterRelease, Do, TableMoves, CountTx;
    ReleaseEffect(ch, s, g);
    var l, s' := s.lookups[g], Do(ch, s, Release(g));
    ReleasedNotParked(l, s.table[ch.txOf(l.pending[0])].aborted);
    assert LookupParked(ch, s.table, l);
    forall tx: Tx, h: int |
      tx in s'.table && !s'.table[tx].channelClosed && tx in s'.history && h in s'.history[tx].heights
      ensures HasWaiter(ch, s'.lookups, tx, h)
    {
      CountTail(ch, l.pending, tx);
      WaiterKept(ch, s.lookups, g, s'.lookups[g], tx, h);
    }
  }

  lemma ReleasedNotParked(l: Lookup, aborted: bool)
    requires l.pending != []
    ensures var l' := AfterRelease(l, aborted);
            !l'.pc.Parked? && !l'.pc.Woken? && l'.height == l.height && l'.pending == l.pending[1..]
  {
  }

  lemma CountTail(ch: Chain, cs: seq<Coin>, tx: Tx)
    requires cs != []
    ensures ch.txOf(cs[0]) != tx ==> CountTx(ch, cs[1..], tx) == CountTx(ch, cs, tx)
  {
  }

  // ----- every run

  lemma ChannelStep(ch: Chain, s: State, a: Action)
    requires ch.Valid() && Inv(ch, s) && ChannelInv(ch, s) && Enabled(ch, s, a)
    ensures ChannelInv(ch, Do(ch, s, a))
  {
    hide *;
    match a
    case Start(g, h, coins) => LookupStep(ch, s, a);
    case ReadSeen(g) => LookupStep(ch, s, a);
    case Snapshot(g) => LookupStep(ch, s, a);
    case Probe(g) => LookupStep(ch, s, a);
    case CheckHead(g) => LookupStep(ch, s, a);
    case Register(g) => RegisterChannels(ch, s, g);
    case Wait(g) => WaitChannels(ch, s, g);
    case Wake(g) => WakeChannels(ch, s, g);
    case Release(g) => ReleaseChannels(ch, s, g);
    case Finish(g) => LookupStep(ch, s, a);
    case Cancel(g) => LookupStep(ch, s, a);
    case Load(b) => EnvironmentStep(ch, s, a);
    case Count(b) => EnvironmentStep(ch, s, a);
    case Close(b) => EnvironmentStep(ch, s, a);
    case Commit => EnvironmentStep(ch, s, a);
    case Clean => EnvironmentStep(ch, s, a);
    case Abort => EnvironmentStep(ch, s, a);
  }

  lemma ChannelInit(ch: Chain)
    ensures ChannelInv(ch, Init(ch))
  {
  }

  lemma {:induction false} RunChannels(ch: Chain, run: seq<Action>)
    requires ch.Valid() && Run(ch, run).Some?
    ensures Inv(ch, Run(ch, run).value) && ChannelInv(ch, Run(ch, run).value)
  {
    hide Inv, ChannelInv, Enabled, Do, Init, Chain.Valid;
    RunInv(ch, run);
    if run == [] {
      ChannelInit(ch);
    } else {
      var front := run[..|run| - 1];
      RunChannels(ch, front);
      ChannelStep(ch, Run(ch, front).value, run[|run| - 1]);
    }
  }

  /**
   * No lost wake-up: in every reachable state, a lookup parked on a coin of a block whose closing pass
   * has finished can go on, because the very channel it took from the table is closed.
   */
  lemma NoLostWakeUp(ch: Chain, run: seq<Action>, g: Gid, b: nat)
    requires ch.Valid() && Run(ch, run).Some?
    requires var s := Run(ch, run).value;
             && g in s.lookups && s.lookups[g].pc.Parked?
             && s.lookups[g].pending != [] && ch.CreatedIn(s.lookups[g].pending[0], b)
             && b < |s.stage| && s.stage[b].Closed?
    ensures Enabled(ch, Run(ch, run).value, Wake(g))
  {
    hide Run, Chain.Valid, BlocksOk, CacheOk, TableOk, CountsOk, LookupsOk, LockOk, HeightsOk;
    RunChannels(ch, run);
    var s := Run(ch, run).value;
    assert s.lookups[g].pending[0] in s.lookups[g].pending;
    assert LookupParked(ch, s.table, s.lookups[g]);
  }

  /** A lookup for the block after the head is never stuck: its coins' creators have been added. */
  lemma NextBlockNotStuck(ch: Chain, run: seq<Action>, g: Gid, b: nat)
    requires ch.Valid() && Run(ch, run).Some?
    requires var s := Run(ch, run).value;
             && g in s.lookups && s.lookups[g].pc.Parked? && s.lookups[g].height == s.head
             && s.lookups[g].pending != [] && ch.CreatedIn(s.lookups[g].pending[0], b) && b < s.lookups[g].height
    ensures Enabled(ch, Run(ch, run).value, Wake(g))
  {
    hide Run, Chain.Valid, Enabled, CacheOk, TableOk, CountsOk, LookupsOk, LockOk, WakeOk;
    RunInv(ch, run);
    NoLostWakeUp(ch, run, g, b);
  }

  /** The channel a lookup waits on is the one its transaction's entry carries now: it is never stale. */
  lemma CapturedChannel(ch: Chain, run: seq<Action>, g: Gid)
    requires ch.Valid() && Run(ch, run).Some? && g in Run(ch, run).value.lookups
    requires Run(ch, run).value.lookups[g].pc.Parked?
    ensures var s := Run(ch, run).value;
            var l := s.lookups[g];
            && l.pending != [] && ch.txOf(l.pending[0]) in s.table
            && s.table[ch.txOf(l.pending[0])].channel == l.pc.channel
            && (s.table[ch.txOf(l.pending[0])].channelClosed <==> l.pc.channel in s.closed)
  {
    hide Run, Chain.Valid, Inv, HeightsOk;
    RunChannels(ch, run);
    var s := Run(ch, run).value;
    assert LookupParked(ch, s.table, s.lookups[g]);
  }

  /** No pass ever closes a channel that is closed already. */
  lemma NeverClosedTwice(ch: Chain, run: seq<Action>, txs: set<Tx>, height: int)
    requires ch.Valid() && Run(ch, run).Some?
    ensures var s := Run(ch, run).value;
            ChannelsFor(s.table, txs) !! s.closed && ChannelsAt(s.table, height) !! s.closed
  {
    hide Run, Chain.Valid, Inv, HeightsOk, ParkOk;
    RunChannels(ch, run);
    var s := Run(ch, run).value;
    CloseSane(s.table, s.closed, s.next, txs);
    AbortSane(s.table, s.closed, s.next, height);
  }

  // ----- aborts

  predicate CreatedBefore(ch: Chain, c: Coin, h: nat) { exists b: nat :: b < h && ch.CreatedIn(c, b) }

  /** Every lookup asks only for coins created by earlier blocks. */
  ghost predicate AsksEarlier(ch: Chain, a: Action) {
    a.Start? ==> forall c :: c in a.coins ==> CreatedBefore(ch, c, a.height)
  }

  /** No wait was aborted, and none is about to report it. */
  ghost predicate Calm(ch: Chain, s: State) {
    && (forall tx :: tx in s.table ==> !s.table[tx].aborted)
    && (forall g :: g in s.lookups ==>
          && !s.lookups[g].shouldAbort && !s.lookups[g].pc.Orphan?
          && forall c :: c in s.lookups[g].wanted ==> CreatedBefore(ch, c, s.lookups[g].height))
  }

  /** A waiter of the next block waits for a coin of an added block, so its entry is closed. */
  lemma NextWaiterClosed(ch: Chain, s: State, g: Gid, tx: Tx)
    requires Inv(ch, s) && Calm(ch, s) && tx in s.table
    requires g in s.lookups && s.lookups[g].height == s.head && CountTx(ch, s.lookups[g].pending, tx) > 0
    ensures s.table[tx].channelClosed
  {
    hide CacheOk, CountsOk, LockOk, CountTx, IsCreator, PcOk, CoinsOk, TableOk;
    var c := CountedCoin(ch, s.lookups[g].pending, tx);
    assert LookupOk(ch, s.head, s.counted, s.lookups[g]);
    var b: nat :| b < s.head && ch.CreatedIn(c, b);
    assert s.stage[b].Closed?;
  }

  /** At the aborting pass every entry whose earliest block comes next is closed. */
  lemma NothingToAbort(ch: Chain, s: State, tx: Tx)
    requires Inv(ch, s) && ChannelInv(ch, s) && Calm(ch, s) && tx in s.table
    ensures !Aborts(s.table[tx], s.head)
  {
    hide BlocksOk, CacheOk, CountsOk, LookupsOk, WakeOk, LockOk, Sane, ParkOk, CountTx, Calm;
    var e := s.table[tx];
    assert EntryOk(e, s.history[tx]);
    if e.earliestBlock == s.head && !e.channelClosed {
      assert HasWaiter(ch, s.lookups, tx, s.head);
      var g :| g in s.lookups && s.lookups[g].height == s.head && CountTx(ch, s.lookups[g].pending, tx) > 0;
      NextWaiterClosed(ch, s, g, tx);
    }
  }

  lemma CalmAbort(ch: Chain, s: State)
    requires Inv(ch, s) && ChannelInv(ch, s) && Calm(ch, s) && Enabled(ch, s, Abort)
    ensures Calm(ch, Do(ch, s, Abort))
  {
    hide Inv, ChannelInv;
    forall tx | tx in s.table
      ensures !Aborts(s.table[tx], s.head)
    {
      NothingToAbort(ch, s, tx);
    }
  }

  lemma CalmStep(ch: Chain, s: State, a: Action)
    requires Inv(ch, s) && ChannelInv(ch, s) && Calm(ch, s) && Enabled(ch, s, a) && AsksEarlier(ch, a)
    ensures Calm(ch, Do(ch, s, a))
  {
    hide Inv, ChannelInv, Calm, Enabled, Do, AsksEarlier;
    match a
    case Abort => CalmAbort(ch, s);
    case Release(g) => CalmRelease(ch, s, g);
    case Register(g) => CalmRegister(ch, s, g);
    case Load(b) => CalmEnvironment(ch, s, a);
    case Count(b) => CalmEnvironment(ch, s, a);
    case Close(b) => CalmEnvironment(ch, s, a);
    case Commit => CalmEnvironment(ch, s, a);
    case Clean => CalmEnvironment(ch, s, a);
    case _ => CalmLookup(ch, s, a);
  }

  lemma CalmEnvironment(ch: Chain, s: State, a: Action)
    requires Calm(ch, s) && Enabled(ch, s, a) && (a.Load? || a.Count? || a.Close? || a.Commit? || a.Clean?)
    ensures Calm(ch, Do(ch, s, a))
  {
    hide CreatedBefore;
  }

  lemma CalmWith(ch: Chain, s: State, g: Gid, l: Lookup, lock: Option<Gid>)
    requires Calm(ch, s) && !l.shouldAbort && !l.pc.Orphan?
    requires forall c :: c in l.wanted ==> CreatedBefore(ch, c, l.height)
    ensures Calm(ch, s.(lock := lock).With(g, l))
  {
    hide CreatedBefore;
  }

  lemma CalmLookup(ch: Chain, s: State, a: Action)
    requires Calm(ch, s) && Enabled(ch, s, a) && AsksEarlier(ch, a)
    requires || a.Start? || a.ReadSeen? || a.Snapshot? || a.Probe? || a.CheckHead?
             || a.Wait? || a.Wake? || a.Finish? || a.Cancel?
    ensures Calm(ch, Do(ch, s, a))
  {
    hide Chain.Stored, CreatedBefore;
    var s' := Do(ch, s, a);
    CalmWith(ch, s, a.g, s'.lookups[a.g], s'.lock);
  }

  lemma CalmRegister(ch: Chain, s: State, g: Gid)
    requires Calm(ch, s) && Enabled(ch, s, Register(g))
    ensures Calm(ch, Do(ch, s, Register(g)))
  {
    hide CreatedBefore;
  }

  lemma CalmRelease(ch: Chain, s: State, g: Gid)
    requires Calm(ch, s) && Enabled(ch, s, Release(g))
    ensures Calm(ch, Do(ch, s, Release(g)))
  {
    hide CreatedBefore;
  }

  /**
   * Aborts are never spurious: when every lookup asks only for coins created by earlier blocks, no
   * entry is ever marked aborted and no lookup ends with the orphan-head error.
   */
  lemma {:induction false} NoSpuriousAbort(ch: Chain, run: seq<Action>)
    requires ch.Valid() && Run(ch, run).Some? && forall i :: 0 <= i < |run| ==> AsksEarlier(ch, run[i])
    ensures var s := Run(ch, run).value;
            && (forall tx :: tx in s.table ==> !s.table[tx].aborted)
            && (forall g :: g in s.lookups ==> !s.lookups[g].shouldAbort && !s.lookups[g].pc.Orphan?)
  {
    RunCalm(ch, run);
  }

  lemma {:induction false} RunCalm(ch: Chain, run: seq<Action>)
    requires ch.Valid() && Run(ch, run).Some? && forall i :: 0 <= i < |run| ==> AsksEarlier(ch, run[i])
    ensures Calm(ch, Run(ch, run).value)
  {
    hide Inv, ChannelInv, Enabled, Do, Chain.Valid, AsksEarlier;
    if run != [] {
      var front := run[..|run| - 1];
      RunCalm(ch, front);
      RunChannels(ch, front);
      hide Calm;
      CalmStep(ch, Run(ch, front).value, run[|run| - 1]);
    }
  }
}
