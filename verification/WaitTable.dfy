/** The table of waiting lookups (wait_table.go) and the updates made to it under its lock (indexer.go). */
module WaitTable {

  type Tx = nat

  /** An entry; its channel is named by a number. */
  datatype Entry = Entry(listeners: int, channel: nat, channelClosed: bool, aborted: bool, earliestBlock: int)

  type Table = map<Tx, Entry>

  function TxSet(txs: seq<Tx>): set<Tx> { set tx | tx in txs }

  // ----- the updates, as functions of the table

  /** findCoin: join the entry of a transaction, or create it with a new channel. */
  function Registered(t: Table, tx: Tx, height: int, channel: nat): Table {
    t[tx := JoinedEntry(if tx in t then t[tx] else Entry(0, channel, false, false, height), height)]
  }

  function JoinedEntry(e: Entry, height: int): Entry {
    e.(listeners := e.listeners + 1, earliestBlock := if e.earliestBlock > height then height else e.earliestBlock)
  }

  /** findCoins: leave the entry; the last listener deletes it. */
  function Released(t: Table, tx: Tx): Table
    requires tx in t
  {
    if t[tx].listeners == 1 then t - {tx} else t[tx := t[tx].(listeners := t[tx].listeners - 1)]
  }

  /** BlockSeen: the entries of the block's transactions are closed. */
  function ClosedFor(t: Table, txs: set<Tx>): Table {
    map tx | tx in t :: if tx in txs then t[tx].(channelClosed := true) else t[tx]
  }

  /** The channels that pass closes. */
  function ChannelsFor(t: Table, txs: set<Tx>): set<nat> {
    set tx | tx in t && tx in txs && !t[tx].channelClosed :: t[tx].channel
  }

  /** BlockAdded: open entries whose first waiting block comes next are closed and marked aborted. */
  function AbortedAt(t: Table, height: int): Table { map tx | tx in t :: AbortedEntry(t[tx], height) }

  predicate Aborts(e: Entry, height: int) { e.earliestBlock == height && !e.channelClosed }

  function AbortedEntry(e: Entry, height: int): Entry {
    if Aborts(e, height) then e.(channelClosed := true, aborted := true) else e
  }

  function ChannelsAt(t: Table, height: int): set<nat> { set tx | tx in t && Aborts(t[tx], height) :: t[tx].channel }

  // ----- the table in memory

  class EntryObject {
    const channel: nat
    var listeners: int
    var channelClosed: bool
    var aborted: bool
    var earliestBlock: int

    constructor (ch: nat, earliest: int)
      ensures Value() == Entry(0, ch, false, false, earliest)
    {
      channel := ch;
      listeners, channelClosed, aborted, earliestBlock := 0, false, false, earliest;
    }

    function Value(): Entry
      reads this
    {
      Entry(listeners, channel, channelClosed, aborted, earliestBlock)
    }

    method Join(height: int)
      modifies this
      ensures Value() == JoinedEntry(old(Value()), height)
    {
      if earliestBlock > height { earliestBlock := height; }
      listeners := listeners + 1;
    }
  }

  /**
   * The waitTable struct: a map from transaction to a shared entry object. closed holds the channels that
   * were closed, next the first channel not yet made; closing a closed channel panics.
   */
  class WaitTableObject {
    var table: map<Tx, EntryObject>
    var closed: set<nat>
    var next: nat

    constructor ()
      ensures Valid() && View() == map[] && closed == {} && next == 0
    {
      table, closed, next := map[], {}, 0;
    }

    ghost function View(): Table
      reads this`table, table.Values
    {
      map tx | tx in table :: table[tx].Value()
    }

    /** Every entry is its own object. */
    ghost predicate Unshared()
      reads this`table
    {
      forall x, y :: x in table && y in table && x != y ==> table[x] != table[y]
    }

    ghost predicate Valid()
      reads this, table.Values
    {
      Unshared() && Sane(View(), closed, next)
    }

    /** What the map of objects shows. */
    lemma ViewAt(tx: Tx)
      ensures tx in View() <==> tx in table
      ensures tx in table ==> View()[tx] == table[tx].Value()
    {
    }

    /** The critical section of findCoin once nothing changed. */
    method Register(tx: Tx, height: int)
      requires Valid()
      modifies this, table.Values
      ensures Valid() && View() == Registered(old(View()), tx, height, old(next))
      ensures closed == old(closed) && next == if tx in old(View()) then old(next) else old(next) + 1
    {
      hide JoinedEntry, Sane, View, Unshared;
      ViewAt(tx);
      SaneJoined(View(), closed, next, tx, height);
      if tx in table { JoinOld(tx, height); } else { JoinNew(tx, height); }
    }

    method JoinOld(tx: Tx, height: int)
      requires Unshared() && tx in table
      modifies this`table, table[tx]
      ensures Unshared() && View() == old(View())[tx := JoinedEntry(old(View())[tx], height)]
    {
      hide JoinedEntry;
      var val := table[tx];
      val.Join(height);
      table := table[tx := val];
      assert forall x :: x in old(table) ==> table[x] == old(table[x]);
    }

    method JoinNew(tx: Tx, height: int)
      requires Unshared() && tx !in table
      modifies this`table, this`next
      ensures Unshared() && next == old(next) + 1
      ensures View() == old(View())[tx := JoinedEntry(Entry(0, old(next), false, false, height), height)]
    {
      hide JoinedEntry;
      var val := new EntryObject(next, height);
      next := next + 1;
      val.Join(height);
      table := table[tx := val];
      assert forall x :: x in old(table) ==> table[x] == old(table[x]) && table[x].Value() == old(table[x].Value());
    }

    /** The critical section after a wake-up: whether the entry was there, and whether it was aborted. */
    method Release(tx: Tx) returns (present: bool, aborted: bool)
      requires Valid()
      modifies this`table, table.Values
      ensures Valid() && present == (tx in old(View()))
      ensures present ==> View() == Released(old(View()), tx) && aborted == old(View())[tx].aborted
      ensures !present ==> View() == old(View())
    {
      hide Sane, View, Unshared;
      ViewAt(tx);
      if tx !in table { return false, false; }
      SaneReleased(View(), closed, next, tx);
      present, aborted := true, table[tx].aborted;
      Leave(tx);
    }

    method Leave(tx: Tx)
      requires Unshared() && tx in table
      modifies this`table, table[tx]
      ensures Unshared() && View() == Released(old(View()), tx)
    {
      var val := table[tx];
      val.listeners := val.listeners - 1;
      if val.listeners == 0 {
        table := table - {tx};
      } else {
        table := table[tx := val];
      }
      assert forall x :: x in table ==> table[x] == old(table[x]);
      assert View() == Released(old(View()), tx);
    }

    /** close of one entry's channel; the guard makes it the first one. */
    method CloseEntry(tx: Tx, abort: bool)
      requires Valid() && tx in View() && !View()[tx].channelClosed
      modifies this`closed, table.Values
      ensures Valid() && View() == old(View())[tx := ClosedEntry(old(View())[tx], abort)]
      ensures closed == old(closed) + {old(View())[tx].channel} && old(View())[tx].channel !in old(closed)
    {
      hide Sane;
      SaneClosed(View(), closed, next, tx, abort);
      var val := table[tx];
      val.channelClosed := true;
      if abort { val.aborted := true; }
      closed := closed + {val.channel};
      assert View() == old(View())[tx := ClosedEntry(old(View())[tx], abort)];
      assert Sane(View(), closed, next);
    }

    /** The closing pass of BlockSeen over the block's transactions, in order. */
    method ClosePass(txs: seq<Tx>)
      requires Valid()
      modifies this`closed, table.Values
      ensures Valid() && View() == ClosedFor(old(View()), TxSet(txs))
      ensures closed == old(closed) + ChannelsFor(old(View()), TxSet(txs))
    {
      hide View, Valid, ClosedFor, ChannelsFor, TxSet, ClosedEntry;
      ghost var t := View();
      PassStart(t, txs);
      for i := 0 to |txs|
        invariant Valid() && View() == ClosedFor(t, TxSet(txs[..i]))
        invariant closed == old(closed) + ChannelsFor(t, TxSet(txs[..i]))
      {
        var tx := txs[i];
        ViewAt(tx);
        PassStep(t, txs, i);
        if tx in table && !table[tx].Value().channelClosed { CloseEntry(tx, false); }
      }
      assert txs[..|txs|] == txs;
    }

    /** The aborting pass of BlockAdded over the whole table. */
    method AbortPass(height: int)
      requires Valid()
      modifies this`closed, table.Values
      ensures Valid() && View() == AbortedAt(old(View()), height)
      ensures closed == old(closed) + ChannelsAt(old(View()), height)
    {
      hide View, Valid, AbortedAt, ChannelsAt, ClosedEntry, AbortedIn, ChannelsIn;
      ghost var t := View();
      var todo := table.Keys;
      ghost var done: set<Tx> := {};
      AbortStart(t, height);
      while todo != {}
        invariant todo + done == table.Keys && todo !! done && Valid()
        invariant View() == AbortedIn(t, height, done)
        invariant closed == old(closed) + ChannelsIn(t, height, done)
      {
        var tx :| tx in todo;
        ViewAt(tx);
        AbortStep(t, height, done, tx);
        var e := table[tx].Value();
        if e.earliestBlock == height && !e.channelClosed { CloseEntry(tx, true); }
        todo, done := todo - {tx}, done + {tx};
      }
      KeysShown();
      AbortEnd(t, View(), height, done);
    }

    lemma KeysShown()
      ensures View().Keys == table.Keys
    {
    }
  }

  /** Every entry has its own channel, and the flags say which channels are closed. */
  ghost predicate Sane(t: Table, closed: set<nat>, next: nat) {
    && (forall x, y :: x in t && y in t && x != y ==> t[x].channel != t[y].channel)
    && (forall x :: x in t ==> t[x].channel < next && (t[x].channel in closed <==> t[x].channelClosed))
    && (forall c :: c in closed ==> c < next)
  }

  lemma SaneJoined(t: Table, closed: set<nat>, next: nat, tx: Tx, height: int)
    requires Sane(t, closed, next)
    ensures Sane(Registered(t, tx, height, next), closed, if tx in t then next else next + 1)
  {
  }

  lemma SaneReleased(t: Table, closed: set<nat>, next: nat, tx: Tx)
    requires Sane(t, closed, next) && tx in t
    ensures Sane(Released(t, tx), closed, next)
  {
  }

  function ClosedEntry(e: Entry, abort: bool): Entry {
    e.(channelClosed := true, aborted := abort || e.aborted)
  }

  lemma SaneClosed(t: Table, closed: set<nat>, next: nat, tx: Tx, abort: bool)
    requires Sane(t, closed, next) && tx in t && !t[tx].channelClosed
    ensures Sane(t[tx := ClosedEntry(t[tx], abort)], closed + {t[tx].channel}, next) && t[tx].channel !in closed
  {
  }

  lemma PassStart(t: Table, txs: seq<Tx>)
    ensures ClosedFor(t, TxSet(txs[..0])) == t && ChannelsFor(t, TxSet(txs[..0])) == {}
  {
  }

  lemma PassStep(t: Table, txs: seq<Tx>, i: nat)
    requires i < |txs|
    ensures var now, tx := ClosedFor(t, TxSet(txs[..i])), txs[i];
            var closes := tx in now && !now[tx].channelClosed;
            && ClosedFor(t, TxSet(txs[..i + 1])) == (if closes then now[tx := ClosedEntry(now[tx], false)] else now)
            && ChannelsFor(t, TxSet(txs[..i + 1])) ==
               ChannelsFor(t, TxSet(txs[..i])) + (if closes then {now[tx].channel} else {})
  {
    TxSetSnoc(txs, i);
    hide TxSet;
  }

  // The aborting pass after some of the entries.

  function AbortedIn(t: Table, height: int, done: set<Tx>): Table {
    map tx | tx in t :: if tx in done then AbortedEntry(t[tx], height) else t[tx]
  }

  function ChannelsIn(t: Table, height: int, done: set<Tx>): set<nat> {
    set tx | tx in t && tx in done && Aborts(t[tx], height) :: t[tx].channel
  }

  lemma AbortStart(t: Table, height: int)
    ensures AbortedIn(t, height, {}) == t && ChannelsIn(t, height, {}) == {}
  {
  }

  lemma AbortStep(t: Table, height: int, done: set<Tx>, tx: Tx)
    requires tx in AbortedIn(t, height, done) && tx !in done
    ensures var now := AbortedIn(t, height, done);
            var aborts := now[tx].earliestBlock == height && !now[tx].channelClosed;
            && AbortedIn(t, height, done + {tx}) == (if aborts then now[tx := ClosedEntry(now[tx], true)] else now)
            && ChannelsIn(t, height, done + {tx}) ==
              ChannelsIn(t, height, done) + (if aborts then {now[tx].channel} else {})
  {
  }

  lemma AbortEnd(t: Table, now: Table, height: int, done: set<Tx>)
    requires now == AbortedIn(t, height, done) && done == now.Keys
    ensures now == AbortedAt(t, height) && ChannelsIn(t, height, done) == ChannelsAt(t, height)
  {
  }

  lemma TxSetSnoc(txs: seq<Tx>, i: nat)
    requires i < |txs|
    ensures TxSet(txs[..i + 1]) == TxSet(txs[..i]) + {txs[i]}
  {
    assert txs[..i + 1] == txs[..i] + [txs[i]];
  }
}
