/** What the passes over the table do, entry by entry, and what becomes of the lookups they wake. */
module IndexerAborts {
  import opened Bytes
  import opened WaitTable
  import opened Indexer
  import opened IndexerSafety
  import opened IndexerChannels

  // ----- the two passes

  /** The entries picked by a pass end as given, with their channels closed; nothing else changes. */
  ghost predicate PassDoes(s: State, s': State, picked: set<Tx>, mark: bool) {
    && s'.table.Keys == s.table.Keys
    && (forall tx :: tx in s.table && tx in picked ==>
          && s'.table[tx].channelClosed && s'.table[tx].channel == s.table[tx].channel
          && s'.table[tx].listeners == s.table[tx].listeners
          && s'.table[tx].earliestBlock == s.table[tx].earliestBlock
          && s'.table[tx].aborted == (s.table[tx].aborted || mark)
          && s.table[tx].channel in s'.closed)
    && (forall tx :: tx in s.table && tx !in picked ==> s'.table[tx] == s.table[tx])
    && (forall c :: c in s'.closed && c !in s.closed ==>
          exists tx :: tx in s.table && tx in picked && s.table[tx].channel == c)
    && s.closed <= s'.closed && s'.lookups == s.lookups && s'.history == s.history && s'.head == s.head
  }

  /**
   * The aborting pass after a block: every entry that was open and whose earliest waiting block comes next
   * is closed and marked aborted, and no such entry is left.
   */
  lemma AbortDoes(ch: Chain, run: seq<Action>)
    requires ch.Valid() && Run(ch, run).Some? && Enabled(ch, Run(ch, run).value, Abort)
    ensures var s := Run(ch, run).value;
            var s' := Do(ch, s, Abort);
            && PassDoes(s, s', (set tx | tx in s.table && s.table[tx].earliestBlock == s.head
                                         && !s.table[tx].channelClosed), true)
            && (forall tx :: tx in s'.table && s'.table[tx].earliestBlock == s'.head ==> s'.table[tx].channelClosed)
  {
    hide Run, Chain.Valid, Inv, ParkOk, HeightsOk;
    RunChannels(ch, run);
  }

  /** The closing pass of a block: the entries of its transactions end closed, and no others. */
  lemma CloseDoes(ch: Chain, run: seq<Action>, b: nat)
    requires ch.Valid() && Run(ch, run).Some? && Enabled(ch, Run(ch, run).value, Close(b))
    ensures var s := Run(ch, run).value;
            PassDoes(s, Do(ch, s, Close(b)), ch.blocks[b].txs, false)
  {
    hide Run, Chain.Valid, Inv, ParkOk, HeightsOk;
    RunChannels(ch, run);
  }

  // ----- the shape of steps

  /** A lookup that saw an aborted wait gives back its other registrations and then ends as an orphan. */
  ghost predicate FlagOk(l: Lookup) {
    && (l.pc.Orphan? ==> l.shouldAbort && l.pending == [])
    && (l.pc.Done? ==> !l.shouldAbort)
    && (l.Active() && l.shouldAbort ==> l.pending != [])
  }

  /** Steps of one lookup that leave the table alone. */
  predicate Looks(a: Action) {
    || a.Start? || a.ReadSeen? || a.Snapshot? || a.Probe? || a.CheckHead? || a.Wait? || a.Wake? || a.Finish?
    || a.Cancel?
  }

  predicate Handles(a: Action) { a.Load? || a.Count? || a.Close? || a.Commit? || a.Clean? || a.Abort? }

  lemma LooksShape(ch: Chain, s: State, a: Action)
    requires Looks(a) && Enabled(ch, s, a)
    ensures var s' := Do(ch, s, a); a.g in s'.lookups && s' == s.(lock := s'.lock).With(a.g, s'.lookups[a.g])
  {
    hide Chain.Stored, DoSnapshot;
  }

  /** What such a step leaves of the lookup that takes it. */
  ghost predicate LookupMoves(s: State, s': State, g: Gid, start: bool) {
    && g in s'.lookups && !s'.lookups[g].pc.Orphan?
    && if start then s'.lookups[g].pending == [] && !s'.lookups[g].shouldAbort
       else
         && g in s.lookups && s.lookups[g].Active()
         && s'.lookups[g].pending == s.lookups[g].pending
         && s'.lookups[g].height == s.lookups[g].height
         && s'.lookups[g].shouldAbort == s.lookups[g].shouldAbort
         && (s'.lookups[g].pc.Done? ==> s.lookups[g].pending == [])
  }

  lemma LooksLookup(ch: Chain, s: State, a: Action)
    requires Looks(a) && Enabled(ch, s, a)
    ensures LookupMoves(s, Do(ch, s, a), a.g, a.Start?)
  {
    hide Do, Enabled, LookupMoves;
    if a.ReadSeen? || a.Snapshot? || a.Probe? || a.CheckHead? { SearchMoves(ch, s, a); } else { OtherMoves(ch, s, a); }
  }

  lemma SearchMoves(ch: Chain, s: State, a: Action)
    requires (a.ReadSeen? || a.Snapshot? || a.Probe? || a.CheckHead?) && Enabled(ch, s, a)
    ensures LookupMoves(s, Do(ch, s, a), a.g, false)
  {
    hide Chain.Stored;
  }

  lemma OtherMoves(ch: Chain, s: State, a: Action)
    requires (a.Start? || a.Wait? || a.Wake? || a.Finish? || a.Cancel?) && Enabled(ch, s, a)
    ensures LookupMoves(s, Do(ch, s, a), a.g, a.Start?)
  {
  }

  lemma HandlesShape(ch: Chain, s: State, a: Action)
    requires Handles(a) && Enabled(ch, s, a)
    ensures Do(ch, s, a).lookups == s.lookups && Do(ch, s, a).history == s.history
  {
    hide ClosedFor, AbortedAt, ChannelsFor, ChannelsAt;
  }

  lemma RegisterShape(ch: Chain, s: State, g: Gid)
    requires Enabled(ch, s, Register(g))
    ensures var s' := Do(ch, s, Register(g));
            && g in s.lookups && g in s'.lookups && s'.lookups == s.lookups[g := s'.lookups[g]]
            && s'.cache == s.cache && s'.stage == s.stage && s'.head == s.head && s'.adding == s.adding
            && s'.lookups[g].shouldAbort == s.lookups[g].shouldAbort && s'.lookups[g].pc.Begin?
            && s.lookups[g].Active() && |s'.lookups[g].pending| >= |s.lookups[g].pending|
  {
    hide Registered;
  }

  lemma ReleaseShape(ch: Chain, s: State, g: Gid)
    requires Enabled(ch, s, Release(g))
    ensures var s' := Do(ch, s, Release(g));
            && g in s.lookups && g in s'.lookups && s'.lookups == s.lookups[g := s'.lookups[g]]
            && s'.cache == s.cache && s'.stage == s.stage && s'.head == s.head && s'.adding == s.adding
            && FlagOk(s'.lookups[g])
  {
    hide Released;
  }

  // ----- heights of registrations

  /** Each registration that was not given back has its height on record. */
  ghost predicate HeightsKnown(ch: Chain, s: State) {
    forall g: Gid, c: Coin :: g in s.lookups && c in s.lookups[g].pending ==>
      ch.txOf(c) in s.history && s.lookups[g].height in s.history[ch.txOf(c)].heights
  }

  lemma HeightsStep(ch: Chain, s: State, a: Action)
    requires Inv(ch, s) && HeightsKnown(ch, s) && Enabled(ch, s, a) && Inv(ch, Do(ch, s, a))
    ensures HeightsKnown(ch, Do(ch, s, a))
  {
    hide *;
    match a
    case Register(g) => HeightsRegister(ch, s, g);
    case Release(g) => HeightsRelease(ch, s, g);
    case _ => HeightsLocal(ch, s, a);
  }

  lemma HeightsLocal(ch: Chain, s: State, a: Action)
    requires HeightsKnown(ch, s) && Enabled(ch, s, a) && !a.Register? && !a.Release?
    ensures HeightsKnown(ch, Do(ch, s, a))
  {
    hide HeightsKnown;
    RecordsLocal(ch, s, a);
    HeightsFrame(ch, s, Do(ch, s, a));
  }

  /** No other step touches the records, a height or what a lookup waits for. */
  lemma RecordsLocal(ch: Chain, s: State, a: Action)
    requires Enabled(ch, s, a) && !a.Register? && !a.Release?
    ensures var s' := Do(ch, s, a);
            && s'.history == s.history
            && forall g :: g in s'.lookups && s'.lookups[g].pending != [] ==>
                 && g in s.lookups && s'.lookups[g].pending == s.lookups[g].pending
                 && s'.lookups[g].height == s.lookups[g].height
  {
    hide Do, Enabled;
    if Looks(a) {
      LooksShape(ch, s, a);
      LooksLookup(ch, s, a);
    } else {
      HandlesShape(ch, s, a);
    }
  }

  lemma HeightsFrame(ch: Chain, s: State, s': State)
    requires HeightsKnown(ch, s) && s'.history == s.history
    requires forall g :: g in s'.lookups && s'.lookups[g].pending != [] ==>
               && g in s.lookups && s'.lookups[g].pending == s.lookups[g].pending
               && s'.lookups[g].height == s.lookups[g].height
    ensures HeightsKnown(ch, s')
  {
  }

  lemma HeightsRegister(ch: Chain, s: State, g: Gid)
    requires HeightsKnown(ch, s) && Enabled(ch, s, Register(g))
    ensures HeightsKnown(ch, Do(ch, s, Register(g)))
  {
    hide Registered;
    var s' := Do(ch, s, Register(g));
    var l := s.lookups[g];
    forall k: Gid, c: Coin | k in s'.lookups && c in s'.lookups[k].pending
      ensures ch.txOf(c) in s'.history && s'.lookups[k].height in s'.history[ch.txOf(c)].heights
    {
      if k != g || c in l.pending { assert c in s.lookups[k].pending; } else { assert c == l.coins[0]; }
    }
  }

  lemma HeightsRelease(ch: Chain, s: State, g: Gid)
    requires Inv(ch, s) && HeightsKnown(ch, s) && Enabled(ch, s, Release(g)) && Inv(ch, Do(ch, s, Release(g)))
    ensures HeightsKnown(ch, Do(ch, s, Release(g)))
  {
    hide BlocksOk, CacheOk, LookupsOk, WakeOk, LockOk, CountsOk, TableOk, Do, HeightsKnown;
    var s' := Do(ch, s, Release(g));
    ReleaseEffect(ch, s, g);
    ReleasedNotParked(s.lookups[g], s.table[ch.txOf(s.lookups[g].pending[0])].aborted);
    forall k: Gid, c: Coin | k in s'.lookups && c in s'.lookups[k].pending
      ensures ch.txOf(c) in s'.history && s'.lookups[k].height in s'.history[ch.txOf(c)].heights
    {
      assert c in s.lookups[k].pending;
      PendingHasEntry(ch, s', k, c);
      TableAndHistory(ch, s');
      HeightKnown(ch, s, k, c);
    }
    HeightsAre(ch, s');
  }

  lemma HeightKnown(ch: Chain, s: State, g: Gid, c: Coin)
    requires HeightsKnown(ch, s) && g in s.lookups && c in s.lookups[g].pending
    ensures ch.txOf(c) in s.history && s.lookups[g].height in s.history[ch.txOf(c)].heights
  {
  }

  lemma HeightsAre(ch: Chain, s: State)
    requires forall g: Gid, c: Coin :: g in s.lookups && c in s.lookups[g].pending ==>
               ch.txOf(c) in s.history && s.lookups[g].height in s.history[ch.txOf(c)].heights
    ensures HeightsKnown(ch, s)
  {
  }

  // ----- why an entry is closed

  /** A block with the transaction was seen to the end. */
  ghost predicate TxSeen(ch: Chain, s: State, tx: Tx) {
    exists b: nat :: b < |s.stage| && b < |ch.blocks| && s.stage[b].Closed? && tx in ch.blocks[b].txs
  }

  /** A closed entry was closed by a block with its transaction, or aborted when its earliest block came next. */
  ghost predicate CauseOk(ch: Chain, s: State) {
    forall tx :: tx in s.table ==>
      && (s.table[tx].channelClosed && !s.table[tx].aborted ==> TxSeen(ch, s, tx))
      && (s.table[tx].aborted ==> s.table[tx].earliestBlock <= s.head)
  }

  lemma CauseStep(ch: Chain, s: State, a: Action)
    requires CauseOk(ch, s) && Enabled(ch, s, a)
    ensures CauseOk(ch, Do(ch, s, a))
  {
    hide TxSeen, Do, Enabled;
    var s' := Do(ch, s, a);
    forall tx | tx in s'.table
      ensures s'.table[tx].channelClosed && !s'.table[tx].aborted ==> TxSeen(ch, s', tx)
      ensures s'.table[tx].aborted ==> s'.table[tx].earliestBlock <= s'.head
    {
      EntryStep(ch, s, a, tx);
      if tx in s.table && TxSeen(ch, s, tx) { SeenStays(ch, s, a, tx); }
    }
  }

  /** How an entry comes to be closed or marked. */
  ghost predicate EntryMoves(ch: Chain, s: State, s': State, tx: Tx)
    requires tx in s'.table
  {
    var e' := s'.table[tx];
    && (e'.channelClosed && !e'.aborted ==>
          TxSeen(ch, s', tx) || (tx in s.table && s.table[tx].channelClosed && !s.table[tx].aborted))
    && (e'.aborted ==>
          || e'.earliestBlock <= s'.head
          || (&& tx in s.table && s.table[tx].aborted
              && e'.earliestBlock <= s.table[tx].earliestBlock && s.head <= s'.head))
  }

  lemma EntryStep(ch: Chain, s: State, a: Action, tx: Tx)
    requires Enabled(ch, s, a) && tx in Do(ch, s, a).table
    ensures EntryMoves(ch, s, Do(ch, s, a), tx)
  {
    if Looks(a) {
      hide Do, Enabled;
      LooksShape(ch, s, a);
    } else {
      hide TxSeen, ChannelsFor, ChannelsAt;
      if a.Close? && tx in ch.blocks[a.b].txs { SeenNow(ch, Do(ch, s, a), a.b, tx); }
    }
  }

  lemma SeenStays(ch: Chain, s: State, a: Action, tx: Tx)
    requires TxSeen(ch, s, tx) && Enabled(ch, s, a)
    ensures TxSeen(ch, Do(ch, s, a), tx)
  {
    hide Do, Enabled;
    var b: nat :| b < |s.stage| && b < |ch.blocks| && s.stage[b].Closed? && tx in ch.blocks[b].txs;
    StageGrows(ch, s, a, b);
    SeenNow(ch, Do(ch, s, a), b, tx);
  }

  /** A block never goes back, and the head only moves on to the next. */
  lemma StageGrows(ch: Chain, s: State, a: Action, b: nat)
    requires Enabled(ch, s, a) && b < |s.stage|
    ensures var s' := Do(ch, s, a);
            && b < |s'.stage|
            && (s.stage[b].Closed? ==> s'.stage[b].Closed?) && (!s.stage[b].NotSeen? ==> !s'.stage[b].NotSeen?)
            && s'.head == (if a.Commit? then s.head + 1 else s.head)
            && (a.Commit? ==> s'.adding.Committed? && s.adding.Idle?)
            && (!a.Commit? && !a.Clean? && !a.Abort? ==> s'.adding == s.adding)
            && (a.Abort? ==> s.adding.Cleaned?)
            && (a.Clean? ==> s.head > 0 && s.head <= |ch.blocks|)
            && (a.Clean? ==> s'.cache == s.cache - ch.blocks[s.head - 1].creates.Keys)
  {
    if Looks(a) {
      hide Do, Enabled;
      LooksShape(ch, s, a);
    } else if a.Register? || a.Release? {
      hide Do, Enabled;
      if a.Register? { RegisterShape(ch, s, a.g); } else { ReleaseShape(ch, s, a.g); }
    } else {
      hide ChannelsFor, ChannelsAt, ClosedFor, AbortedAt;
    }
  }

  lemma SeenNow(ch: Chain, s: State, b: nat, tx: Tx)
    requires b < |s.stage| && b < |ch.blocks| && s.stage[b].Closed? && tx in ch.blocks[b].txs
    ensures TxSeen(ch, s, tx)
  {
  }

  // ----- the cache holds nothing else

  /** A block that created the coin is loaded and not yet cleaned away. */
  ghost predicate CoinInFlight(ch: Chain, s: State, c: Coin) {
    exists b: nat :: ch.CreatedIn(c, b) && b < |s.stage| && !s.stage[b].NotSeen? && InFlight(s, b)
  }

  ghost predicate CacheTight(ch: Chain, s: State) { forall c :: c in s.cache ==> CoinInFlight(ch, s, c) }

  lemma CacheStep(ch: Chain, s: State, a: Action)
    requires BlocksOk(ch, s) && CacheTight(ch, s) && Enabled(ch, s, a)
    ensures CacheTight(ch, Do(ch, s, a))
  {
    hide CoinInFlight, Chain.Stored, ChannelsFor, ChannelsAt, ClosedFor, AbortedAt, Registered, Released, AfterRelease;
    var s' := Do(ch, s, a);
    forall c | c in s'.cache
      ensures CoinInFlight(ch, s', c)
    {
      if c in s.cache { FlightGoesOn(ch, s, a, c); } else { FlightStarts(ch, s', a.b, c); }
    }
  }

  lemma FlightStarts(ch: Chain, s: State, b: nat, c: Coin)
    requires ch.CreatedIn(c, b) && b < |s.stage| && !s.stage[b].NotSeen? && InFlight(s, b)
    ensures CoinInFlight(ch, s, c)
  {
  }

  lemma FlightGoesOn(ch: Chain, s: State, a: Action, c: Coin)
    requires CoinInFlight(ch, s, c) && Enabled(ch, s, a) && c in Do(ch, s, a).cache
    ensures CoinInFlight(ch, Do(ch, s, a), c)
  {
    hide Do, Enabled;
    var b: nat :| ch.CreatedIn(c, b) && b < |s.stage| && !s.stage[b].NotSeen? && InFlight(s, b);
    StageGrows(ch, s, a, b);
    FlightStarts(ch, Do(ch, s, a), b, c);
  }

  // ----- nothing waits before the first block

  /** A lookup that missed in storage had a head block to look at. */
  ghost predicate HadHead(s: State, l: Lookup) {
    && (l.pc.StorageMiss? || l.pc.CacheMiss? ==> l.pc.head > 0)
    && (l.pc.HeadSame? ==> s.head > 0)
  }

  ghost predicate StartOk(s: State) {
    (s.head == 0 ==> s.table == map[]) && forall g :: g in s.lookups ==> HadHead(s, s.lookups[g])
  }

  lemma StartStep(ch: Chain, s: State, a: Action)
    requires StartOk(s) && Enabled(ch, s, a)
    ensures StartOk(Do(ch, s, a))
  {
    hide Do, Enabled;
    if Looks(a) {
      LooksShape(ch, s, a);
      HeadKept(ch, s, a);
    } else {
      TableStarts(ch, s, a);
    }
  }

  lemma HeadKept(ch: Chain, s: State, a: Action)
    requires Looks(a) && Enabled(ch, s, a) && (a.g in s.lookups ==> HadHead(s, s.lookups[a.g]))
    ensures a.g in Do(ch, s, a).lookups && HadHead(s, Do(ch, s, a).lookups[a.g])
  {
    hide Chain.Stored;
  }

  lemma TableStarts(ch: Chain, s: State, a: Action)
    requires StartOk(s) && !Looks(a) && Enabled(ch, s, a)
    ensures StartOk(Do(ch, s, a))
  {
    hide ChannelsFor, ChannelsAt, JoinedEntry;
  }

  // ----- what a lookup remembers of aborted waits

  ghost predicate FlagsOk(s: State) { forall g :: g in s.lookups ==> FlagOk(s.lookups[g]) }

  lemma FlagsStep(ch: Chain, s: State, a: Action)
    requires FlagsOk(s) && Enabled(ch, s, a)
    ensures FlagsOk(Do(ch, s, a))
  {
    hide Do, Enabled;
    if Looks(a) {
      LooksShape(ch, s, a);
      LooksLookup(ch, s, a);
    } else if Handles(a) {
      HandlesShape(ch, s, a);
    } else if a.Register? {
      RegisterShape(ch, s, a.g);
    } else {
      ReleaseShape(ch, s, a.g);
    }
  }

  /** Step i gives back a registration of g whose entry was marked aborted. */
  ghost predicate AbortedWait(ch: Chain, run: seq<Action>, g: Gid, i: nat) {
    && i < |run| && run[i] == Release(g) && Run(ch, run[..i]).Some?
    && var s := Run(ch, run[..i]).value;
       && g in s.lookups && s.lookups[g].pending != []
       && var tx := ch.txOf(s.lookups[g].pending[0]); tx in s.table && s.table[tx].aborted
  }

  predicate Remembers(s: State, g: Gid) { g in s.lookups && s.lookups[g].shouldAbort }

  lemma RemembersStep(ch: Chain, s: State, a: Action, g: Gid)
    requires Inv(ch, s) && Enabled(ch, s, a)
    ensures Remembers(Do(ch, s, a), g) <==>
            || Remembers(s, g)
            || (a == Release(g) && var tx := ch.txOf(s.lookups[g].pending[0]); tx in s.table && s.table[tx].aborted)
  {
    hide Inv;
    if a.Release? {
      hide Released, Do;
      ReleaseEffect(ch, s, a.g);
    } else {
      RemembersElse(ch, s, a, g);
    }
  }

  lemma RemembersElse(ch: Chain, s: State, a: Action, g: Gid)
    requires Enabled(ch, s, a) && !a.Release?
    ensures Remembers(Do(ch, s, a), g) <==> Remembers(s, g)
  {
    if a.Start? {
      assert a.g !in s.lookups;
    }
    hide Do, Enabled;
    if Looks(a) {
      LooksShape(ch, s, a);
      LooksLookup(ch, s, a);
    } else if Handles(a) {
      HandlesShape(ch, s, a);
    } else {
      RegisterShape(ch, s, a.g);
    }
  }

  lemma {:induction false} RemembersIff(ch: Chain, run: seq<Action>, g: Gid)
    requires ch.Valid() && Run(ch, run).Some?
    ensures Remembers(Run(ch, run).value, g) <==> exists i: nat :: AbortedWait(ch, run, g, i)
  {
    hide Inv, Chain.Valid, Do, Enabled, Remembers, AbortedWait;
    if run == [] {
      NoWaits(ch, g);
    } else {
      var n := |run| - 1;
      var front, a := run[..n], run[n];
      RemembersIff(ch, front, g);
      RunInv(ch, front);
      RemembersStep(ch, Run(ch, front).value, a, g);
      forall i: nat
        ensures AbortedWait(ch, run, g, i) <==> AbortedWait(ch, front, g, i) || (i == n && AbortedWait(ch, run, g, n))
      {
        WaitOfFront(ch, run, g, i);
      }
      WaitIsLast(ch, run, g);
    }
  }

  lemma NoWaits(ch: Chain, g: Gid)
    ensures !Remembers(Init(ch), g) && forall i: nat :: !AbortedWait(ch, [], g, i)
  {
  }

  lemma WaitOfFront(ch: Chain, run: seq<Action>, g: Gid, i: nat)
    requires run != []
    ensures var n := |run| - 1;
            AbortedWait(ch, run, g, i) <==> AbortedWait(ch, run[..n], g, i) || (i == n && AbortedWait(ch, run, g, n))
  {
    hide Run;
    var n := |run| - 1;
    if i < n { assert run[..n][..i] == run[..i] && run[..n][i] == run[i]; }
  }

  lemma WaitIsLast(ch: Chain, run: seq<Action>, g: Gid)
    requires run != [] && Run(ch, run).Some?
    ensures var n := |run| - 1;
            var s := Run(ch, run[..n]).value;
            AbortedWait(ch, run, g, n) <==>
              run[n] == Release(g) && var tx := ch.txOf(s.lookups[g].pending[0]); tx in s.table && s.table[tx].aborted
  {
    hide Do;
  }

  // ----- every run

  ghost predicate AfterInv(ch: Chain, s: State) {
    HeightsKnown(ch, s) && CauseOk(ch, s) && CacheTight(ch, s) && FlagsOk(s) && StartOk(s)
  }

  lemma {:induction false} RunAfter(ch: Chain, run: seq<Action>)
    requires ch.Valid() && Run(ch, run).Some?
    ensures AfterInv(ch, Run(ch, run).value)
  {
    hide Chain.Valid, Enabled, Do, HeightsKnown, CauseOk, CacheTight, FlagsOk, StartOk, BlocksOk, CacheOk, TableOk,
         CountsOk, LookupsOk, WakeOk, LockOk, Init;
    if run == [] {
      AfterInit(ch);
    } else {
      var front, a := run[..|run| - 1], run[|run| - 1];
      var s := Run(ch, front).value;
      RunAfter(ch, front);
      RunInv(ch, front);
      RunInv(ch, run);
      HeightsStep(ch, s, a);
      CauseStep(ch, s, a);
      CacheStep(ch, s, a);
      FlagsStep(ch, s, a);
      StartStep(ch, s, a);
    }
  }

  lemma AfterInit(ch: Chain)
    ensures AfterInv(ch, Init(ch))
  {
  }

  /**
   * A lookup that was not cancelled ends with the orphan-head error exactly when one of the waits it gave
   * back had been aborted; until then it goes on giving back the others.
   */
  lemma OrphanIff(ch: Chain, run: seq<Action>, g: Gid)
    requires ch.Valid() && Run(ch, run).Some? && g in Run(ch, run).value.lookups
    ensures var l := Run(ch, run).value.lookups[g];
            var aborted := exists i: nat :: AbortedWait(ch, run, g, i);
            && (l.pc.Orphan? ==> aborted)
            && (l.pc.Done? ==> !aborted)
            && (aborted && !l.pc.Failed? && l.pending == [] ==> l.pc.Orphan?)
  {
    hide Run, Chain.Valid, HeightsKnown, CauseOk, CacheTight, AbortedWait, BlocksOk, CacheOk, TableOk, CountsOk,
         WakeOk, LockOk;
    RunAfter(ch, run);
    RunInv(ch, run);
    RemembersIff(ch, run, g);
    var s := Run(ch, run).value;
    assert FlagOk(s.lookups[g]) && LookupOk(ch, s.head, s.counted, s.lookups[g]);
  }

  /** A closed channel has a cause: a block with the transaction was seen, or the wait was aborted. */
  lemma ClosedForCause(ch: Chain, run: seq<Action>, tx: Tx)
    requires ch.Valid() && Run(ch, run).Some? && tx in Run(ch, run).value.table
    ensures var s := Run(ch, run).value;
            && (s.table[tx].channelClosed ==> s.table[tx].aborted || TxSeen(ch, s, tx))
            && (s.table[tx].aborted ==> s.table[tx].channelClosed && s.table[tx].earliestBlock <= s.head)
  {
    hide Run, Chain.Valid, TxSeen, HeightsKnown, CacheTight, FlagsOk, BlocksOk, CacheOk, CountsOk, LookupsOk,
         WakeOk, LockOk;
    RunAfter(ch, run);
    RunInv(ch, run);
    var s := Run(ch, run).value;
    assert EntryOk(s.table[tx], s.history[tx]);
  }

  /** The cache holds the coins of the blocks that are loaded and not yet cleaned away, and no others. */
  lemma CacheExact(ch: Chain, run: seq<Action>, c: Coin)
    requires ch.Valid() && Run(ch, run).Some?
    ensures c in Run(ch, run).value.cache <==> CoinInFlight(ch, Run(ch, run).value, c)
  {
    hide Run, Chain.Valid, HeightsKnown, FlagsOk, CauseOk, BlocksOk, TableOk, CountsOk, LookupsOk, WakeOk, LockOk;
    RunAfter(ch, run);
    RunInv(ch, run);
  }

  /** Before the first block is added no lookup waits: each tries again until there is a head. */
  lemma NoWaitBeforeHead(ch: Chain, run: seq<Action>, g: Gid)
    requires ch.Valid() && Run(ch, run).Some? && Run(ch, run).value.head == 0 && g in Run(ch, run).value.lookups
    ensures Run(ch, run).value.table == map[]
    ensures Run(ch, run).value.lookups[g].pending == [] && !Run(ch, run).value.lookups[g].pc.Parked?
  {
    hide Run, Chain.Valid, HeightsKnown, FlagsOk, CauseOk, CacheTight, BlocksOk, CacheOk, LookupsOk, CountsOk, TableOk,
         WakeOk, LockOk, Sane, HeightsOk;
    RunAfter(ch, run);
    RunChannels(ch, run);
    var s := Run(ch, run).value;
    PendingStays(ch, s, g);
    assert LookupParked(ch, s.table, s.lookups[g]);
  }

  // ----- the next block after an aborting pass

  /** Lookup k has a registration for the transaction that it did not give back. */
  ghost predicate Waits(ch: Chain, s: State, k: Gid, tx: Tx) {
    k in s.lookups && exists c :: c in s.lookups[k].pending && ch.txOf(c) == tx
  }

  /** The earliest height of an open entry is that of a lookup still waiting there, and no other is lower. */
  lemma EarliestWaits(ch: Chain, s: State, tx: Tx)
    requires Inv(ch, s) && ChannelInv(ch, s) && HeightsKnown(ch, s) && tx in s.table
    ensures forall k :: Waits(ch, s, k, tx) ==> s.table[tx].earliestBlock <= s.lookups[k].height
    ensures !s.table[tx].channelClosed ==>
              exists k :: Waits(ch, s, k, tx) && s.lookups[k].height == s.table[tx].earliestBlock
  {
    hide BlocksOk, CacheOk, CountsOk, LookupsOk, WakeOk, LockOk, Sane, ParkOk, CountTx;
    var e := s.table[tx];
    assert EntryOk(e, s.history[tx]);
    if !e.channelClosed {
      assert HasWaiter(ch, s.lookups, tx, e.earliestBlock);
      var k :| k in s.lookups && s.lookups[k].height == e.earliestBlock && CountTx(ch, s.lookups[k].pending, tx) > 0;
      var c := CountedCoin(ch, s.lookups[k].pending, tx);
      assert Waits(ch, s, k, tx);
    }
  }

  /**
   * A lookup for the next block that is parked when the aborting pass runs can go on afterwards, with the
   * abort on record unless its channel was closed already. The one exception is a registration of a
   * lower height left behind by a lookup that has ended, which hides the entry from this pass.
   */
  lemma AbortWakes(ch: Chain, run: seq<Action>, g: Gid)
    requires ch.Valid() && Run(ch, run).Some? && Enabled(ch, Run(ch, run).value, Abort)
    requires var s := Run(ch, run).value;
             g in s.lookups && s.lookups[g].pc.Parked? && s.lookups[g].height == s.head
    ensures var s := Run(ch, run).value;
            var s' := Do(ch, s, Abort);
            && s.lookups[g].pending != []
            && var tx := ch.txOf(s.lookups[g].pending[0]);
               && tx in s.table && tx in s'.table
               && (Enabled(ch, s', Wake(g)) <==>
                     s.table[tx].channelClosed || forall k :: Waits(ch, s, k, tx) ==> s.head <= s.lookups[k].height)
               && (Enabled(ch, s', Wake(g)) && !s.table[tx].channelClosed ==> s'.table[tx].aborted)
               && (forall k :: Waits(ch, s, k, tx) && s.lookups[k].height < s.head ==> !s.lookups[k].Active())
  {
    hide Run, Chain.Valid, BlocksOk, CacheOk, CountsOk, WakeOk, LockOk, TableOk, HeightsOk, Waits, Do, PassDoes,
         CauseOk, CacheTight, FlagsOk, StartOk, HeightsKnown, PcOk, CoinsOk, IsCreator;
    var s := Run(ch, run).value;
    RunChannels(ch, run);
    RunAfter(ch, run);
    assert LookupParked(ch, s.table, s.lookups[g]);
    var tx := ch.txOf(s.lookups[g].pending[0]);
    EarliestWaits(ch, s, tx);
    WaitsFirst(ch, s, g);
    AbortedEntries(ch, s, tx);
    WaitsIn(ch, s, tx);
    forall k | k in s.lookups && Waits(ch, s, k, tx) && s.lookups[k].height < s.head
      ensures !s.lookups[k].Active()
    {
      assert LookupOk(ch, s.head, s.counted, s.lookups[k]);
    }
  }

  lemma WaitsFirst(ch: Chain, s: State, g: Gid)
    requires g in s.lookups && s.lookups[g].pending != []
    ensures Waits(ch, s, g, ch.txOf(s.lookups[g].pending[0]))
  {
    assert s.lookups[g].pending[0] in s.lookups[g].pending;
  }

  lemma WaitsIn(ch: Chain, s: State, tx: Tx)
    ensures forall k :: Waits(ch, s, k, tx) ==> k in s.lookups
  {
  }

  lemma AbortedEntries(ch: Chain, s: State, tx: Tx)
    requires Enabled(ch, s, Abort) && tx in s.table && Sane(s.table, s.closed, s.next)
    ensures var s' := Do(ch, s, Abort);
            && s'.lookups == s.lookups && tx in s'.table && s'.table[tx].channel == s.table[tx].channel
            && (s.table[tx].channel in s'.closed <==>
                  s.table[tx].channelClosed || s.table[tx].earliestBlock == s.head)
            && (!s.table[tx].channelClosed && s.table[tx].earliestBlock == s.head ==> s'.table[tx].aborted)
  {
  }

  // ----- such a registration can be left behind

  ghost predicate Reaches(ch: Chain, s: State) { exists run :: Run(ch, run) == Some(s) }

  lemma Then(ch: Chain, s: State, a: Action)
    requires Reaches(ch, s) && Enabled(ch, s, a)
    ensures Reaches(ch, Do(ch, s, a))
  {
    hide Enabled, Do;
    var run :| Run(ch, run) == Some(s);
    assert (run + [a])[..|run|] == run;
    assert Run(ch, run + [a]) == Some(Do(ch, s, a));
  }

  /** A block that creates nothing and that nobody waits for is seen and added, up to the aborting pass. */
  lemma SeeAndAdd(ch: Chain, s: State, b: nat) returns (s': State)
    requires Reaches(ch, s) && s.head == b < |s.stage| == |ch.blocks| && s.stage[b].NotSeen? && s.adding.Idle?
    requires s.lock.None? && s.NoActiveUpTo(b) && ch.blocks[b].creates == map[] && ch.blocks[b].txs !! s.table.Keys
    ensures Reaches(ch, s')
    ensures s' == s.(seen := s.seen + 1, head := b + 1, counted := s.counted + {b}, stage := s.stage[b := Closed],
                     adding := Cleaned)
  {
    hide Reaches;
    Then(ch, s, Load(b));
    var s1 := s.(stage := s.stage[b := Loaded]);
    assert Do(ch, s, Load(b)) == s1;
    Then(ch, s1, Count(b));
    var s2 := s1.(seen := s.seen + 1, counted := s.counted + {b}, stage := s1.stage[b := Counted]);
    s' := SeeAndAddRest(ch, s2, b);
    assert s'.stage == s.stage[b := Closed];
  }

  lemma SeeAndAddRest(ch: Chain, s: State, b: nat) returns (s': State)
    requires Reaches(ch, s) && s.head == b < |s.stage| == |ch.blocks| && s.stage[b].Counted? && s.adding.Idle?
    requires s.lock.None? && s.NoActiveUpTo(b) && ch.blocks[b].creates == map[] && ch.blocks[b].txs !! s.table.Keys
    ensures Reaches(ch, s')
    ensures s' == s.(head := b + 1, stage := s.stage[b := Closed], adding := Cleaned)
  {
    hide Reaches;
    var txs := ch.blocks[b].txs;
    assert ChannelsFor(s.table, txs) == {} && ClosedFor(s.table, txs) == s.table;
    Then(ch, s, Close(b));
    var s3 := s.(stage := s.stage[b := Closed]);
    assert Do(ch, s, Close(b)) == s3;
    Then(ch, s3, Commit);
    var s4 := s3.(head := b + 1, adding := Committed);
    Then(ch, s4, Clean);
    s' := Do(ch, s4, Clean);
    assert s4.cache - ch.blocks[b].creates.Keys == s4.cache;
  }

  /** The search of a lookup for one coin, up to the registration. */
  ghost predicate JoinsTable(ch: Chain, s: State, s': State, g: Gid, h: nat, c: Coin) {
    && s'.lock.None? && g in s'.lookups && s'.lookups == s.lookups[g := s'.lookups[g]]
    && s'.lookups[g].height == h && s'.lookups[g].pending == [c] && s'.lookups[g].coins == []
    && s'.lookups[g].pc.Begin?
    && s'.table == Registered(s.table, ch.txOf(c), h, s.next)
    && s'.head == s.head && s'.cache == s.cache && s'.stage == s.stage
    && s'.adding == s.adding && s'.closed == s.closed
  }

  /** A lookup for one coin that is neither stored nor cached registers. */
  lemma Searches(ch: Chain, s: State, g: Gid, h: nat, c: Coin) returns (s': State)
    requires Reaches(ch, s) && g !in s.lookups && s.head <= h < |ch.blocks| && c in ch.blocks[h].spends
    requires s.lock.None? && 0 < s.head <= |ch.blocks| && c !in ch.Stored(s.head) && c !in s.cache
    ensures Reaches(ch, s') && JoinsTable(ch, s, s', g, h, c)
  {
    hide Reaches, Registered, Chain.Stored;
    Then(ch, s, Start(g, h, [c]));
    var s1 := Do(ch, s, Start(g, h, [c]));
    var l := s1.lookups[g];
    assert s1 == s.With(g, l) && l.coins == [c] && l.pending == [] && l.height == h && l.pc.Begin?;
    Then(ch, s1, ReadSeen(g));
    var s2 := s.With(g, l.(pc := SeenRead(s.seen, s.counted)));
    assert Do(ch, s1, ReadSeen(g)) == s2;
    Then(ch, s2, Snapshot(g));
    var s3 := s.With(g, l.(pc := StorageMiss(s.seen, s.counted, s.head)));
    assert Do(ch, s2, Snapshot(g)) == s3;
    hide Do, Enabled, JoinsTable;
    s' := SearchesRest(ch, s, s3, g, l);
  }

  lemma SearchesRest(ch: Chain, s: State, s3: State, g: Gid, l: Lookup) returns (s': State)
    requires Reaches(ch, s3) && s3 == s.With(g, l.(pc := StorageMiss(s.seen, s.counted, s.head)))
    requires l.pc.Begin? && |l.coins| == 1 && l.pending == [] && s.lock.None? && l.coins[0] !in s.cache
    ensures Reaches(ch, s') && JoinsTable(ch, s, s', g, l.height, l.coins[0])
  {
    hide Reaches, JoinsTable;
    Then(ch, s3, Probe(g));
    var s4 := s.With(g, l.(pc := CacheMiss(s.seen, s.counted, s.head)));
    assert Do(ch, s3, Probe(g)) == s4;
    Then(ch, s4, CheckHead(g));
    var s5 := s.(lock := Some(g)).With(g, l.(pc := HeadSame(s.seen, s.counted)));
    assert Do(ch, s4, CheckHead(g)) == s5;
    hide Do, Enabled;
    s' := SearchEnds(ch, s, s5, g, l);
  }

  lemma SearchEnds(ch: Chain, s: State, s5: State, g: Gid, l: Lookup) returns (s': State)
    requires Reaches(ch, s5) && s5 == s.(lock := Some(g)).With(g, l.(pc := HeadSame(s.seen, s.counted)))
    requires |l.coins| == 1 && l.pending == []
    ensures Reaches(ch, s') && JoinsTable(ch, s, s', g, l.height, l.coins[0])
  {
    hide Reaches, Registered;
    Then(ch, s5, Register(g));
    s' := Do(ch, s5, Register(g));
    assert l.pending + [l.coins[0]] == [l.coins[0]] && l.coins[1..] == [];
  }

  /** Three blocks; the second and the third spend outputs of transaction 9, which none of them contains. */
  function Orphans(): Chain {
    Chain([Block({0}, map[], {}), Block({1}, map[], {7}), Block({2}, map[], {8})], c => 9)
  }

  lemma OrphansValid(n: nat)
    requires n <= 3
    ensures Orphans().Valid() && Orphans().Stored(n) == map[]
  {
    if n > 0 { OrphansValid(n - 1); }
  }

  /** Block 0 is added; lookup 1, for block 1, registered and was cancelled. */
  ghost predicate LeftBehind(s: State) {
    && s.table == map[9 := Entry(1, 0, false, false, 1)] && s.closed == {} && s.cache == map[] && s.lock.None?
    && s.head == 1 && s.stage == [Closed, NotSeen, NotSeen] && s.adding.Idle?
    && (forall g :: g in s.lookups ==> g == 1 && !s.lookups[g].Active())
  }

  lemma FirstLookup() returns (s: State)
    ensures Reaches(Orphans(), s) && LeftBehind(s)
  {
    var ch := Orphans();
    OrphansValid(1);
    var s0 := Init(ch);
    assert Run(ch, []) == Some(s0) && s0.stage == [NotSeen, NotSeen, NotSeen];
    hide Reaches, Chain.Valid, Chain.Stored, Run;
    var s1 := SeeAndAdd(ch, s0, 0);
    Then(ch, s1, Abort);
    var s2 := Do(ch, s1, Abort);
    assert s2 == s1.(adding := Idle) by {
      assert AbortedAt(map[], 1) == map[] && ChannelsAt(map[], 1) == {};
    }
    s := FirstCancelled(s2);
  }

  lemma FirstCancelled(s2: State) returns (s: State)
    requires Reaches(Orphans(), s2) && s2.table == map[] && s2.closed == {} && s2.cache == map[] && s2.lock.None?
    requires s2.head == 1 && s2.stage == [Closed, NotSeen, NotSeen] && s2.adding.Idle? && s2.lookups == map[]
    requires s2.next == 0
    ensures Reaches(Orphans(), s) && LeftBehind(s)
  {
    var ch := Orphans();
    OrphansValid(1);
    hide Reaches, Chain.Valid, Chain.Stored;
    var s3 := Searches(ch, s2, 1, 1, 7);
    Then(ch, s3, Cancel(1));
    s := Do(ch, s3, Cancel(1));
  }

  lemma SecondLookup(s: State) returns (s': State)
    requires Reaches(Orphans(), s) && LeftBehind(s)
    ensures Reaches(Orphans(), s') && s'.table == map[9 := Entry(2, 0, false, false, 1)] && s'.closed == {}
    ensures s'.head == 1 && s'.stage == [Closed, NotSeen, NotSeen] && s'.adding.Idle? && s'.lock.None?
    ensures 2 in s'.lookups && s'.lookups[2].height == 2 && s'.lookups[2].pc == Parked(0) && s'.NoActiveUpTo(1)
  {
    var ch := Orphans();
    OrphansValid(1);
    hide Reaches, Chain.Valid, Chain.Stored;
    var s5 := Searches(ch, s, 2, 2, 8);
    Then(ch, s5, Wait(2));
    s' := Do(ch, s5, Wait(2));
  }

  /**
   * The exception happens: lookup 1, for block 1, waits and is cancelled; lookup 2, for block 2, waits for an
   * output of the same transaction. When block 1 has been added the pass leaves lookup 2 parked.
   */
  lemma AbandonedHides() returns (s: State)
    ensures Orphans().Valid() && Reaches(Orphans(), s) && Enabled(Orphans(), s, Abort)
    ensures 2 in s.lookups && s.lookups[2].pc.Parked? && s.lookups[2].height == s.head
    ensures !Enabled(Orphans(), Do(Orphans(), s, Abort), Wake(2))
  {
    OrphansValid(1);
    hide Reaches, Chain.Valid, LeftBehind;
    var s4 := FirstLookup();
    var s6 := SecondLookup(s4);
    s := SeeAndAdd(Orphans(), s6, 1);
  }
}
