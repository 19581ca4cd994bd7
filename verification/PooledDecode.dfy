/**
 * ThtDecode with its script buffer pool (wire/msgtx.go). Memory is explicit: a buffer is an
 * identifier, mem holds the bytes of its whole capacity, and a slice names a range of a buffer, so
 * aliasing between scripts, pool and contiguous buffer is visible in the state.
 */
module PooledDecode {
  import opened Bytes
  import opened Wire
  import opened TxCodec
  import opened Slots

  const FREE_LIST_MAX_SCRIPT_SIZE: nat := 512
  const FREE_LIST_MAX_ITEMS: nat := 12500

  type Memory = map<nat, Octets>

  ghost predicate InMemory(mem: Memory, s: Slice) { s.buf in mem && s.off + s.len <= |mem[s.buf]| }

  /** The bytes a slice shows. */
  function Val(mem: Memory, s: Slice): (v: Octets)
    requires InMemory(mem, s)
  {
    mem[s.buf][s.off..s.off + s.len]
  }

  ghost predicate AllInMemory(mem: Memory, ss: seq<Slice>) { forall s :: s in ss ==> InMemory(mem, s) }

  function Vals(mem: Memory, ss: seq<Slice>): (vs: seq<Octets>)
    requires AllInMemory(mem, ss)
    ensures |vs| == |ss| && forall i :: 0 <= i < |ss| ==> vs[i] == Val(mem, ss[i])
  {
    seq(|ss|, i requires 0 <= i < |ss| => Val(mem, ss[i]))
  }

  /** Every slice starts its own buffer. */
  ghost predicate Separate(ss: seq<Slice>) { (forall s :: s in ss ==> s.off == 0) && Apart(ss) }

  function SumLen(ss: seq<Slice>): nat { if ss == [] then 0 else ss[0].len + SumLen(ss[1..]) }

  lemma {:induction false} SumLenSnoc(ss: seq<Slice>, s: Slice)
    ensures SumLen(ss + [s]) == SumLen(ss) + s.len
  {
    if ss == [] {
      assert ss + [s] == [s];
    } else {
      SumLenSnoc(ss[1..], s);
      assert (ss + [s])[1..] == ss[1..] + [s];
    }
  }

  /** The slices lie one after another in buffer b, from its start, and fill its first n bytes. */
  ghost predicate Tiles(ss: seq<Slice>, b: nat, n: nat) {
    && SumLen(ss) == n
    && forall i :: 0 <= i < |ss| ==> ss[i].buf == b && ss[i].off == SumLen(ss[..i])
  }

  lemma TilesSnoc(ss: seq<Slice>, b: nat, n: nat, len: nat)
    requires Tiles(ss, b, n)
    ensures Tiles(ss + [Slice(b, n, len)], b, n + len)
  {
    var t := ss + [Slice(b, n, len)];
    SumLenSnoc(ss, Slice(b, n, len));
    forall i | 0 <= i < |t| ensures t[i].buf == b && t[i].off == SumLen(t[..i]) {
      if i < |ss| {
        assert t[..i] == ss[..i];
      } else {
        assert t[..i] == ss;
      }
    }
  }

  lemma {:induction false} SumLenPrefix(ss: seq<Slice>, i: nat)
    requires i < |ss|
    ensures SumLen(ss[..i]) + ss[i].len <= SumLen(ss)
  {
    if i == 0 {
    } else {
      SumLenPrefix(ss[1..], i - 1);
      assert ss[..i][1..] == ss[1..][..i - 1];
    }
  }

  /** Tiling slices do not overlap. */
  lemma TilesDisjoint(ss: seq<Slice>, b: nat, n: nat, i: nat, j: nat)
    requires Tiles(ss, b, n) && i < j < |ss|
    ensures ss[i].off + ss[i].len <= ss[j].off && ss[j].off + ss[j].len <= n
  {
    SumLenPrefix(ss[..j], i);
    assert ss[..j][..i] == ss[..i];
    SumLenPrefix(ss, j);
  }

  /** The scriptFreeList, the memory behind it, and the buffers now lent out. */
  class ScriptPool {
    var mem: Memory
    var free: seq<nat>
    var next: nat
    ghost var out: set<nat>

    ghost predicate Valid()
      reads this
    {
      && (forall id :: id in mem ==> id < next)
      && (forall i :: 0 <= i < |free| ==>
            free[i] in mem && |mem[free[i]]| == FREE_LIST_MAX_SCRIPT_SIZE && free[i] !in out)
      && (forall i, j :: 0 <= i < j < |free| ==> free[i] != free[j])
      && |free| <= FREE_LIST_MAX_ITEMS
      && (forall id :: id in out ==> id in mem)
    }

    constructor ()
      ensures Valid() && out == {} && free == []
    {
      mem, free, next, out := map[], [], 0, {};
    }

    method Allocate(size: nat) returns (id: nat)
      requires Valid()
      modifies this
      ensures Valid() && out == old(out) && free == old(free)
      ensures id !in old(mem) && id !in out && id !in free
      ensures mem.Keys == old(mem).Keys + {id} && |mem[id]| == size
      ensures forall k :: k in old(mem) ==> mem[k] == old(mem)[k]
    {
      id := next;
      mem := mem[id := seq(size, i => 0)];
      next := next + 1;
    }

    /** Borrow: a slice of the requested length, over a buffer nobody else holds. */
    method Borrow(size: nat) returns (s: Slice)
      requires Valid()
      modifies this
      ensures Valid()
      ensures s.off == 0 && s.len == size && InMemory(mem, s)
      ensures s.buf !in old(out) && out == old(out) + {s.buf}
      ensures Grown(old(mem), mem, old(out))
    {
      if size > FREE_LIST_MAX_SCRIPT_SIZE {
        var id := Allocate(size);
        s := Slice(id, 0, size);
      } else if |free| > 0 {
        s := Slice(free[0], 0, size);
        assert free[0] in mem;
        free := free[1..];
      } else {
        var id := Allocate(FREE_LIST_MAX_SCRIPT_SIZE);
        s := Slice(id, 0, size);
      }
      out := out + {s.buf};
    }

    /** Return: only a buffer that is lent out may be handed back, so never the same one twice. */
    method Return(s: Slice)
      requires Valid()
      requires s.buf in out
      modifies this`free, this`out
      ensures Valid() && out == old(out) - {s.buf}
      ensures free == old(free) || free == old(free) + [s.buf]
    {
      out := out - {s.buf};
      if |mem[s.buf]| != FREE_LIST_MAX_SCRIPT_SIZE { return; }
      if |free| < FREE_LIST_MAX_ITEMS { free := free + [s.buf]; }
    }

    /** copy(buf[off:], data) on a buffer that is not in the pool. */
    method Store(buf: nat, off: nat, data: Octets)
      requires Valid()
      requires buf in mem && buf !in free && off + |data| <= |mem[buf]|
      modifies this`mem
      ensures Valid()
      ensures mem.Keys == old(mem).Keys && forall k :: k in mem && k != buf ==> mem[k] == old(mem)[k]
      ensures |mem[buf]| == |old(mem)[buf]| && mem[buf][off..off + |data|] == data
      ensures mem[buf][..off] == old(mem)[buf][..off]
    {
      var b := mem[buf];
      mem := mem[buf := b[..off] + data + b[off + |data|..]];
    }
  }

  // ----- reading lists one element at a time

  function Prepend<T>(xs: seq<T>, p: Parse<seq<T>>): Parse<seq<T>> {
    match p
    case Fail(e) => Fail(e)
    case Got(ys, rest) => Got(xs + ys, rest)
  }

  /** Progress of a counted loop: xs were read, k elements remain, s is unread. */
  ghost predicate Reading<T>(whole: Parse<seq<T>>, xs: seq<T>, k: nat, read: Octets -> Parse<T>, s: Octets) {
    whole == Prepend(xs, ReadMany(k, read, s))
  }

  lemma ReadingStart<T>(n: nat, read: Octets -> Parse<T>, s: Octets)
    ensures Reading(ReadMany(n, read, s), [], n, read, s)
  {
    var p := ReadMany(n, read, s);
    if p.Got? { assert [] + p.value == p.value; }
  }

  lemma ReadingStep<T>(whole: Parse<seq<T>>, xs: seq<T>, k: nat, read: Octets -> Parse<T>, s: Octets)
    requires k > 0 && Reading(whole, xs, k, read, s)
    ensures read(s).Fail? ==> whole == Fail(read(s).error)
    ensures read(s).Got? ==> Reading(whole, xs + [read(s).value], k - 1, read, read(s).rest)
  {
    if read(s).Got? {
      var x := read(s).value;
      var p := ReadMany(k - 1, read, read(s).rest);
      if p.Got? { Assoc(xs, [x], p.value); }
    }
  }

  lemma ReadingEnd<T>(whole: Parse<seq<T>>, xs: seq<T>, read: Octets -> Parse<T>, s: Octets)
    requires Reading(whole, xs, 0, read, s)
    ensures whole == Got(xs, s)
  {
    assert xs + [] == xs;
  }

  datatype Outcome<+T> = Done(value: T) | Failed(error: WireError)

  /** The script fields of a decoded message, as slices. */
  datatype InRef = InRef(prev: OutPoint, sig: Slice, wit: seq<Slice>, sequence: nat)
  datatype OutRef = OutRef(value: int, pk: Slice)
  datatype TxRef = TxRef(version: int, txIn: seq<InRef>, txOut: seq<OutRef>, lockTime: nat)

  /** The slices of an input list in the order ThtDecode lays them out. */
  function InSlices(ins: seq<InRef>): seq<Slice> {
    if ins == [] then [] else InSlices(ins[..|ins| - 1]) + [ins[|ins| - 1].sig] + ins[|ins| - 1].wit
  }

  function OutSlices(outs: seq<OutRef>): seq<Slice>
  {
    seq(|outs|, i requires 0 <= i < |outs| => outs[i].pk)
  }

  function Layout(tx: TxRef): seq<Slice> { InSlices(tx.txIn) + OutSlices(tx.txOut) }

  ghost predicate InShows(mem: Memory, r: InRef, v: TxIn) {
    && r.prev == v.prev && r.sequence == v.sequence
    && InMemory(mem, r.sig) && Val(mem, r.sig) == v.sigScript
    && AllInMemory(mem, r.wit) && Vals(mem, r.wit) == v.wit
  }

  ghost predicate OutShows(mem: Memory, r: OutRef, v: TxOut) {
    r.value == v.value && InMemory(mem, r.pk) && Val(mem, r.pk) == v.pkScript
  }

  /** Reading the slices of r in memory gives transaction v. */
  ghost predicate Shows(mem: Memory, r: TxRef, v: MsgTx) {
    && r.version == v.version && r.lockTime == v.lockTime
    && |r.txIn| == |v.txIn| && (forall i :: 0 <= i < |r.txIn| ==> InShows(mem, r.txIn[i], v.txIn[i]))
    && |r.txOut| == |v.txOut| && (forall i :: 0 <= i < |r.txOut| ==> OutShows(mem, r.txOut[i], v.txOut[i]))
  }

  function Flat(vs: seq<seq<Octets>>): seq<Octets> {
    if vs == [] then [] else Flat(vs[..|vs| - 1]) + vs[|vs| - 1]
  }

  lemma BufsSnoc(ss: seq<Slice>, s: Slice)
    ensures Bufs(ss + [s]) == Bufs(ss) + {s.buf}
  {
    assert forall x :: x in ss + [s] <==> x in ss || x == s;
    forall b | b in Bufs(ss) + {s.buf} ensures b in Bufs(ss + [s]) {
      if b == s.buf {
        assert s in ss + [s];
      } else {
        var x :| x in ss && x.buf == b;
        assert x in ss + [s];
      }
    }
  }

  /**
   * One decoding run: the unread input, the message as far as it is filled, and the size of its scripts.
   * held names the borrowed slices in the order they were read, for the proofs only.
   */
  class Decoder {
    const pool: ScriptPool
    var rest: Octets
    var msgIn: Ins
    var msgOut: Outs
    var total: nat
    var offset: nat
    ghost var held: seq<Slice>
    ghost var placed: seq<Slice>

    constructor (p: ScriptPool, input: Octets)
      requires p.Valid()
      ensures pool == p && rest == input && msgIn == [] && msgOut == [] && total == 0 && offset == 0
      ensures held == [] && placed == []
    {
      pool, rest, msgIn, msgOut, total, offset, held, placed := p, input, [], [], 0, 0, [], [];
    }

    /** Beyond base, exactly the held scripts are lent out, each in a buffer of its own. */
    ghost predicate Holds(base: set<nat>)
      reads this`held, pool
    {
      && pool.Valid()
      && Separate(held) && AllInMemory(pool.mem, held)
      && base !! Bufs(held) && pool.out == base + Bufs(held)
    }

    /** The held scripts are exactly those in non-nil fields of the message. */
    ghost predicate Linked()
      reads this`held, this`msgIn, this`msgOut
    {
      held == Borrowed(msgIn, msgOut)
    }

    /** The bytes of the held scripts. */
    ghost function Contents(): seq<Octets>
      reads this`held, pool
    {
      if AllInMemory(pool.mem, held) then Vals(pool.mem, held) else []
    }

    /** The bytes read go into the borrowed buffer, which joins the held ones. */
    method Fill(b: Slice, data: Octets, ghost base: set<nat>)
      requires pool.Valid() && Separate(held) && AllInMemory(pool.mem, held) && base !! Bufs(held)
      requires b.buf !in base + Bufs(held) && pool.out == base + Bufs(held) + {b.buf}
      requires b.off == 0 && b.len == |data| && InMemory(pool.mem, b)
      modifies this`held, pool`mem
      ensures Holds(base) && Grown(old(pool.mem), pool.mem, base)
      ensures held == old(held) + [b] && Contents() == old(Contents()) + [data]
    {
      ghost var mem0 := pool.mem;
      assert forall s :: s in held ==> s.buf in Bufs(held);
      pool.Store(b.buf, 0, data);
      HeldSnoc(held, b, mem0, pool.mem);
      held := held + [b];
    }

    /** readScript; nil with an error, and then the buffer it borrowed was handed back. */
    method ReadScript(max: nat, ghost base: set<nat>) returns (err: Option<WireError>, b: Option<Slice>)
      requires Holds(base)
      modifies this`rest, this`held, pool
      ensures Holds(base) && Grown(old(pool.mem), pool.mem, base)
      ensures err.Some? ==> b == None && held == old(held)
      ensures match ReadVarBytes(max, old(rest))
              case Fail(e) => err == Some(e)
              case Got(v, r) =>
                && err == None && rest == r && b.Some? && b.value.len == |v|
                && held == old(held) + [b.value] && Contents() == old(Contents()) + [v]
    {
      hide ReadVarInt, Contents, Separate, AllInMemory, Val;
      var count := ReadVarInt(rest);
      if count.Fail? { return Some(count.error), None; }
      rest := count.rest;
      if count.value > max { return Some(TooLarge), None; }
      err, b := ReadBytes(count.value, base);
    }

    /** Borrow a buffer of n bytes and read into it, or hand it straight back. */
    method ReadBytes(n: nat, ghost base: set<nat>) returns (err: Option<WireError>, r: Option<Slice>)
      requires Holds(base)
      modifies this`rest, this`held, pool
      ensures Holds(base) && Grown(old(pool.mem), pool.mem, base)
      ensures err.Some? ==> r == None && held == old(held)
      ensures match Take(n, old(rest))
              case Fail(e) => err == Some(e)
              case Got(v, left) =>
                && err == None && rest == left && r.Some? && r.value.len == |v|
                && held == old(held) + [r.value] && Contents() == old(Contents()) + [v]
    {
      ghost var vals, mem0 := Contents(), pool.mem;
      assert forall s :: s in held ==> s.buf in Bufs(held);
      var b := pool.Borrow(n);
      assert Contents() == vals;
      ghost var mem1 := pool.mem;
      var body := Take(b.len, rest);
      if body.Fail? {
        pool.Return(b);
        assert pool.out == old(pool.out);
        return Some(body.error), None;
      }
      Fill(b, body.value, base);
      GrownTrans(mem0, mem1, pool.mem, base);
      rest := body.rest;
      return None, Some(b);
    }

    /**
     * readTxIn into msg.TxIn[i], which is set already: the script field is nil until readScript succeeds,
     * and keeps its buffer when a later field fails.
     */
    method ReadIn(i: nat, ghost vs: seq<TxIn>, ghost n: nat, ghost base: set<nat>)
      returns (err: Option<WireError>, size: nat)
      requires Holds(base) && Linked() && msgOut == [] && i == |vs| && InReading(msgIn, vs, n, NewIn())
      modifies this`rest, this`held, this`msgIn, pool
      ensures Holds(base) && Linked() && Grown(old(pool.mem), pool.mem, base)
      ensures match ReadTxIn(old(rest))
              case Fail(e) => err == Some(e)
              case Got(v, r) =>
                && err == None && rest == r && InsRead(msgIn, vs + [v], n)
                && size == |v.sigScript| && Contents() == old(Contents()) + [v.sigScript]
    {
      hide ReadVarBytes, Contents, Holds, Borrowed, InReading, InsRead;
      size := 0;
      ghost var slot := NewIn();
      var hash := Take(32, rest);
      if hash.Fail? { return Some(hash.error), size; }
      var index := ReadUint(4, hash.rest);
      if index.Fail? { return Some(index.error), size; }
      rest := index.rest;
      ReadingAt(msgIn, vs, n, slot);
      PrevSet(msgIn, vs, n, slot, OutPoint(hash.value, index.value));
      slot := slot.(prev := OutPoint(hash.value, index.value));
      msgIn := msgIn[i := Some(msgIn[i].value.(prev := OutPoint(hash.value, index.value)))];
      var b;
      err, b := ReadScript(MAX_MESSAGE_PAYLOAD, base);
      ReadingAt(msgIn, vs, n, slot);
      msgIn := msgIn[i := Some(msgIn[i].value.(sig := b))];
      if err.Some? {
        assert msgIn == old(msgIn)[i := Some(slot)];
        return;
      }
      SigSet(old(msgIn)[i := Some(slot)], vs, n, slot, b.value);
      slot := slot.(sig := b);
      size := b.value.len;
      var sq := ReadUint(4, rest);
      if sq.Fail? { return Some(sq.error), size; }
      rest := sq.rest;
      ReadingAt(msgIn, vs, n, slot);
      SequenceSet(msgIn, vs, n, slot, ReadTxIn(old(rest)).value);
      msgIn := msgIn[i := Some(msgIn[i].value.(sequence := sq.value))];
    }

    /** ReadTxOut into msg.TxOut[i]. */
    method ReadOut(i: nat, ghost vs: seq<TxOut>, ghost n: nat, ghost base: set<nat>)
      returns (err: Option<WireError>, size: nat)
      requires Holds(base) && Linked() && NoWits(msgIn) && i == |vs| && OutReading(msgOut, vs, n, NewOut())
      modifies this`rest, this`held, this`msgOut, pool
      ensures Holds(base) && Linked() && Grown(old(pool.mem), pool.mem, base)
      ensures match ReadTxOut(old(rest))
              case Fail(e) => err == Some(e)
              case Got(v, r) =>
                && err == None && rest == r && OutsRead(msgOut, vs + [v], n)
                && size == |v.pkScript| && Contents() == old(Contents()) + [v.pkScript]
    {
      hide ReadVarBytes, Contents, Holds, Borrowed, OutReading, OutsRead, NoWits;
      size := 0;
      ghost var slot := NewOut();
      var u := ReadUint(8, rest);
      if u.Fail? { return Some(u.error), size; }
      rest := u.rest;
      ReadingOutAt(msgOut, vs, n, slot);
      ValueSet(msgIn, msgOut, vs, n, slot, S64(u.value));
      slot := slot.(value := S64(u.value));
      msgOut := msgOut[i := Some(msgOut[i].value.(value := S64(u.value)))];
      var b;
      err, b := ReadScript(MAX_MESSAGE_PAYLOAD, base);
      ReadingOutAt(msgOut, vs, n, slot);
      msgOut := msgOut[i := Some(msgOut[i].value.(pk := b))];
      if err.Some? {
        assert msgOut == old(msgOut)[i := Some(slot)];
        return;
      }
      PkSet(msgIn, old(msgOut)[i := Some(slot)], vs, n, slot, b.value, ReadTxOut(old(rest)).value);
      size := b.value.len;
    }

    /** The input loop of ThtDecode. */
    method ReadIns(count: nat, ghost base: set<nat>) returns (err: Option<WireError>)
      requires Holds(base) && held == [] && msgOut == [] && total == 0
      modifies this`rest, this`held, this`msgIn, this`total, pool
      ensures Holds(base) && Linked() && Grown(old(pool.mem), pool.mem, base)
      ensures match ReadMany(count, ReadTxIn, old(rest))
              case Fail(e) => err == Some(e)
              case Got(vs, r) =>
                && err == None && rest == r && |vs| == count && InsRead(msgIn, vs, count)
                && Contents() == SigScripts(vs) && total == SumV(Contents())
    {
      hide *;
      ghost var whole, mem0 := ReadMany(count, ReadTxIn, rest), pool.mem;
      ghost var vs: seq<TxIn> := [];
      EmptyContents();
      ListsStart();
      SumVEmpty();
      GrownSelf(mem0, base);
      ReadingStart(count, ReadTxIn, rest);
      InsStart(count);
      msgIn := Nils(count);
      IsLinked();
      for i := 0 to count
        invariant Holds(base) && Linked() && Grown(mem0, pool.mem, base) && msgOut == []
        invariant |vs| == i && InsRead(msgIn, vs, count) && Contents() == SigScripts(vs)
        invariant total == SumV(Contents())
        invariant Reading(whole, vs, count - i, ReadTxIn, rest)
      {
        ghost var v, mem1, vals := ReadTxIn(rest), pool.mem, Contents();
        ReadingStep(whole, vs, count - i, ReadTxIn, rest);
        InMade(msgIn, vs, count);
        ReadSize(msgIn, vs, count);
        IsLinked();
        msgIn := msgIn[i := Some(NewIn())];
        IsLinked();
        var e, size := ReadIn(i, vs, count, base);
        GrownTrans(mem0, mem1, pool.mem, base);
        if e.Some? { return e; }
        total := total + size;
        SumVSnoc(vals, v.value.sigScript);
        InsSnoc(vs, v.value);
        vs := vs + [v.value];
      }
      ReadingEnd(whole, vs, ReadTxIn, rest);
      return None;
    }

    lemma EmptyContents()
      requires held == []
      ensures Contents() == []
    {
    }

    lemma IsLinked()
      ensures Linked() <==> held == Borrowed(msgIn, msgOut)
    {
    }

    /** The output loop of ThtDecode. */
    method ReadOuts(count: nat, ghost base: set<nat>) returns (err: Option<WireError>)
      requires Holds(base) && Linked() && NoWits(msgIn) && msgOut == [] && total == SumV(Contents())
      modifies this`rest, this`held, this`msgOut, this`total, pool
      ensures Holds(base) && Linked() && Grown(old(pool.mem), pool.mem, base)
      ensures match ReadMany(count, ReadTxOut, old(rest))
              case Fail(e) => err == Some(e)
              case Got(vs, r) =>
                && err == None && rest == r && |vs| == count && OutsRead(msgOut, vs, count)
                && Contents() == old(Contents()) + PkScripts(vs) && total == SumV(Contents())
    {
      hide *;
      ghost var whole, mem0, before := ReadMany(count, ReadTxOut, rest), pool.mem, Contents();
      ghost var vs: seq<TxOut> := [];
      ListsStart();
      GrownSelf(mem0, base);
      ReadingStart(count, ReadTxOut, rest);
      assert before + [] == before;
      OutsStarted(msgIn, count);
      IsLinked();
      msgOut := Nils(count);
      IsLinked();
      for i := 0 to count
        invariant Holds(base) && Linked() && Grown(mem0, pool.mem, base)
        invariant |vs| == i && OutsRead(msgOut, vs, count) && Contents() == before + PkScripts(vs)
        invariant total == SumV(Contents())
        invariant Reading(whole, vs, count - i, ReadTxOut, rest)
      {
        ghost var v, mem1, vals := ReadTxOut(rest), pool.mem, Contents();
        ReadingStep(whole, vs, count - i, ReadTxOut, rest);
        OutMade(msgIn, msgOut, vs, count);
        ReadSizeOut(msgOut, vs, count);
        IsLinked();
        msgOut := msgOut[i := Some(NewOut())];
        IsLinked();
        var e, size := ReadOut(i, vs, count, base);
        GrownTrans(mem0, mem1, pool.mem, base);
        if e.Some? { return e; }
        total := total + size;
        SumVSnoc(vals, v.value.pkScript);
        OutsSnoc(before, vs, v.value);
        vs := vs + [v.value];
      }
      ReadingEnd(whole, vs, ReadTxOut, rest);
      return None;
    }

    /** The witness items of input i, one field after another. */
    method ReadItems(i: nat, count: nat, ghost vs: seq<TxIn>, ghost wits: seq<seq<Octets>>, ghost base: set<nat>)
      returns (err: Option<WireError>)
      requires Holds(base) && Linked() && WitsRead(msgIn, vs, wits) && i == |wits| < |vs| && total == SumV(Contents())
      modifies this`rest, this`held, this`msgIn, this`total, pool
      ensures Holds(base) && Linked() && Grown(old(pool.mem), pool.mem, base)
      ensures match ReadMany(count, ReadItem, old(rest))
              case Fail(e) => err == Some(e)
              case Got(items, r) =>
                && err == None && rest == r && |items| == count && WitsRead(msgIn, vs, wits + [items])
                && Contents() == old(Contents()) + items && total == SumV(Contents())
    {
      hide *;
      ghost var whole, mem0, before := ReadMany(count, ReadItem, rest), pool.mem, Contents();
      ghost var items: seq<Octets> := [];
      GrownSelf(mem0, base);
      ReadingStart(count, ReadItem, rest);
      assert before + [] == before;
      WitsAt(msgIn, vs, wits);
      ItemsMade(msgIn, msgOut, vs, wits, count);
      IsLinked();
      msgIn := msgIn[i := Some(msgIn[i].value.(wit := Nils(count)))];
      IsLinked();
      for j := 0 to count
        invariant Holds(base) && Linked() && Grown(mem0, pool.mem, base)
        invariant |items| == j && ItemsRead(msgIn, vs, wits, j, count) && Contents() == before + items
        invariant total == SumV(Contents())
        invariant Reading(whole, items, count - j, ReadItem, rest)
      {
        ghost var v, mem1, vals := ReadItem(rest), pool.mem, Contents();
        ReadingStep(whole, items, count - j, ReadItem, rest);
        ItemIs(rest);
        ItemsAt(msgIn, vs, wits, j, count);
        ghost var ins := msgIn;
        IsLinked();
        var e, b := ReadScript(MAX_WITNESS_ITEM_SIZE, base);
        GrownTrans(mem0, mem1, pool.mem, base);
        msgIn := msgIn[i := Some(msgIn[i].value.(wit := msgIn[i].value.wit[j := b]))];
        if e.Some? {
          assert ins[i].value.wit[j := b] == ins[i].value.wit;
          assert msgIn == ins;
          IsLinked();
          return e;
        }
        ItemSet(ins, msgOut, vs, wits, j, count, b.value);
        IsLinked();
        total := total + b.value.len;
        SumVSnoc(vals, v.value);
        Assoc(before, items, [v.value]);
        items := items + [v.value];
      }
      ReadingEnd(whole, items, ReadItem, rest);
      ItemsDone(msgIn, vs, wits, items);
      return None;
    }

    /** The witness of one input: a count, then that many items. */
    method ReadWit(i: nat, ghost vs: seq<TxIn>, ghost wits: seq<seq<Octets>>, ghost base: set<nat>)
      returns (err: Option<WireError>)
      requires Holds(base) && Linked() && WitsRead(msgIn, vs, wits) && i == |wits| < |vs| && total == SumV(Contents())
      modifies this`rest, this`held, this`msgIn, this`total, pool
      ensures Holds(base) && Linked() && Grown(old(pool.mem), pool.mem, base)
      ensures match ReadWitness(old(rest))
              case Fail(e) => err == Some(e)
              case Got(v, r) =>
                && err == None && rest == r && WitsRead(msgIn, vs, wits + [v])
                && Contents() == old(Contents()) + v && total == SumV(Contents())
    {
      hide ReadVarInt, ReadMany, Contents, Holds, Linked, WitsRead, SumV;
      var c := ReadVarInt(rest);
      if c.Fail? {
        GrownSelf(pool.mem, base);
        return Some(c.error);
      }
      if c.value > MAX_WITNESS_ITEMS {
        GrownSelf(pool.mem, base);
        return Some(TooLarge);
      }
      rest := c.rest;
      err := ReadItems(i, c.value, vs, wits, base);
    }

    /** The witness loop of ThtDecode. */
    method ReadWits(n: nat, ghost vs: seq<TxIn>, ghost base: set<nat>) returns (err: Option<WireError>)
      requires Holds(base) && Linked() && WitsRead(msgIn, vs, []) && n == |vs| && total == SumV(Contents())
      modifies this`rest, this`held, this`msgIn, this`total, pool
      ensures Holds(base) && Linked() && Grown(old(pool.mem), pool.mem, base)
      ensures match ReadMany(n, ReadWitness, old(rest))
              case Fail(e) => err == Some(e)
              case Got(ws, r) =>
                && err == None && rest == r && |ws| == n && WitsRead(msgIn, vs, ws)
                && Contents() == old(Contents()) + Flat(ws) && total == SumV(Contents())
    {
      hide *;
      ghost var whole, mem0, before := ReadMany(n, ReadWitness, rest), pool.mem, Contents();
      ghost var ws: seq<seq<Octets>> := [];
      ListsStart();
      GrownSelf(mem0, base);
      ReadingStart(n, ReadWitness, rest);
      assert before + [] == before;
      for i := 0 to n
        invariant Holds(base) && Linked() && Grown(mem0, pool.mem, base)
        invariant |ws| == i && WitsRead(msgIn, vs, ws) && Contents() == before + Flat(ws) && total == SumV(Contents())
        invariant Reading(whole, ws, n - i, ReadWitness, rest)
      {
        ghost var v, mem1 := ReadWitness(rest), pool.mem;
        ReadingStep(whole, ws, n - i, ReadWitness, rest);
        var e := ReadWit(i, vs, ws, base);
        GrownTrans(mem0, mem1, pool.mem, base);
        if e.Some? { return e; }
        WitsSnoc(before, ws, v.value);
        ws := ws + [v.value];
      }
      ReadingEnd(whole, ws, ReadWitness, rest);
      return None;
    }

    // ----- the error path

    /** Exactly the walk still to do is lent out beyond base. */
    ghost predicate ToReturn(walk: seq<Slice>, base: set<nat>)
      reads pool
    {
      pool.Valid() && Apart(walk) && base !! Bufs(walk) && pool.out == base + Bufs(walk)
    }

    /** One field of the walk: nil is skipped, anything else goes back. */
    method ReturnField(field: Option<Slice>, ghost walk: seq<Slice>, ghost base: set<nat>)
      requires ToReturn(Field(field) + walk, base)
      modifies pool`free, pool`out
      ensures ToReturn(walk, base)
    {
      if field.Some? {
        BufsCons(field.value, walk);
        pool.Return(field.value);
      } else {
        assert [] + walk == walk;
      }
    }

    /** The fields of one input. */
    method ReturnInput(txIn: Option<InSlot>, ghost walk: seq<Slice>, ghost base: set<nat>)
      requires ToReturn(FieldsOf(txIn) + walk, base)
      modifies pool`free, pool`out
      ensures ToReturn(walk, base)
    {
      hide ToReturn, Collect, Field;
      if txIn.None? {
        NoFields(walk);
        return;
      }
      var wit := txIn.value.wit;
      Assoc(Field(txIn.value.sig), Collect(wit, Field), walk);
      ReturnField(txIn.value.sig, Collect(wit, Field) + walk, base);
      assert wit[0..] == wit;
      for j := 0 to |wit|
        invariant ToReturn(Collect(wit[j..], Field) + walk, base)
      {
        CollectHead(wit, j, Field, walk);
        ReturnField(wit[j], Collect(wit[j + 1..], Field) + walk, base);
      }
      CollectTail(wit, Field, walk);
    }

    /** returnScriptBuffers: every buffer in a non-nil field goes back, once, and those are all that were borrowed. */
    method ReturnScriptBuffers(ghost base: set<nat>)
      requires Holds(base) && Linked()
      modifies pool`free, pool`out
      ensures pool.Valid() && pool.out == base && pool.mem == old(pool.mem)
    {
      hide ToReturn, Collect, FieldsOf, PkOf, Separate, AllInMemory;
      WalkStart(base);
      var ins, outs := msgIn, msgOut;
      ghost var pks := Collect(outs, PkOf);
      assert ins[0..] == ins && outs[0..] == outs;
      for i := 0 to |ins|
        invariant ToReturn(Collect(ins[i..], FieldsOf) + pks, base)
      {
        CollectHead(ins, i, FieldsOf, pks);
        ReturnInput(ins[i], Collect(ins[i + 1..], FieldsOf) + pks, base);
      }
      CollectTail(ins, FieldsOf, pks);
      assert pks + [] == pks;
      for i := 0 to |outs|
        invariant ToReturn(Collect(outs[i..], PkOf) + [], base)
      {
        CollectHead(outs, i, PkOf, []);
        PkField(outs[i]);
        ReturnField(if outs[i].Some? then outs[i].value.pk else None, Collect(outs[i + 1..], PkOf) + [], base);
      }
      CollectTail(outs, PkOf, []);
      NothingLeft(base);
    }

    lemma WalkStart(base: set<nat>)
      requires Holds(base) && Linked()
      ensures ToReturn(Collect(msgIn, FieldsOf) + Collect(msgOut, PkOf), base)
    {
      hide Borrowed, Collect;
      WalkIsBorrowed(msgIn, msgOut);
    }

    lemma NothingLeft(base: set<nat>)
      requires ToReturn([], base)
      ensures pool.Valid() && pool.out == base
    {
    }

    // ----- the contiguous buffer

    /**
     * The slices already moved tile the first bytes of contig, which is neither lent nor pooled,
     * and what is left of it is exactly the size of what is still to come.
     */
    ghost predicate Laid(contig: nat, pending: nat)
      reads this`placed, this`offset, pool
    {
      && contig in pool.mem && contig !in pool.out && contig !in pool.free
      && Tiles(placed, contig, offset) && offset + pending == |pool.mem[contig]|
    }

    ghost function Moved(): seq<Octets>
      reads this`placed, pool
    {
      if AllInMemory(pool.mem, placed) then Vals(pool.mem, placed) else []
    }

    /** Copy data behind the moved scripts. */
    method Append(data: Octets, contig: nat, ghost pending: nat) returns (s: Slice)
      requires pool.Valid() && Laid(contig, |data| + pending)
      modifies this`placed, this`offset, pool`mem
      ensures pool.Valid() && Laid(contig, pending)
      ensures placed == old(placed) + [s] && Moved() == old(Moved()) + [data]
      ensures Agree(old(pool.mem), pool.mem, contig)
    {
      ghost var moved := Moved();
      TilesInside(placed, contig, offset, pool.mem);
      pool.Store(contig, offset, data);
      s := Slice(contig, offset, |data|);
      TilesSnoc(placed, contig, offset, |data|);
      forall i | 0 <= i < |placed| ensures Val(pool.mem, placed[i]) == moved[i] {
        PrefixSlice(old(pool.mem)[contig], pool.mem[contig], offset, placed[i]);
      }
      placed := placed + [s];
      offset := offset + |data|;
      assert Moved() == moved + [data];
    }

    /** Copy a script, the k-th held one, behind the moved ones, point at the copy, hand the buffer back. */
    method Place(src: Slice, contig: nat, ghost k: nat, ghost base: set<nat>) returns (s: Slice)
      requires Holds(base) && Laid(contig, SumV(Contents())) && k < |Contents()| && k < |held| && held[k] == src
      modifies this`held, this`placed, this`offset, pool
      ensures Holds(base) && Laid(contig, SumV(Contents()))
      ensures held == Drop(old(held), k) && Contents() == Drop(old(Contents()), k)
      ensures placed == old(placed) + [s] && Moved() == old(Moved()) + [old(Contents())[k]]
      ensures Agree(old(pool.mem), pool.mem, contig)
    {
      hide SumV, SumLen, Tiles;
      ghost var vals := Contents();
      SumVDrop(vals, k);
      assert src in held;
      var v := Val(pool.mem, src);
      assert forall x :: x in held ==> x.buf in Bufs(held);
      s := Append(v, contig, SumV(Drop(vals, k)));
      assert Contents() == vals;
      RemoveHeld(src, k, base);
    }

    method RemoveHeld(src: Slice, ghost k: nat, ghost base: set<nat>)
      requires Holds(base) && k < |held| && held[k] == src
      modifies this`held, pool`free, pool`out
      ensures Holds(base) && held == Drop(old(held), k) && Contents() == Drop(old(Contents()), k)
      ensures pool.out == old(pool.out) - {old(held)[k].buf}
      ensures forall id :: id in pool.free ==> id in old(pool.free) || id in old(pool.out)
    {
      HeldDrop(held, k, pool.mem);
      assert src in held;
      pool.Return(src);
      held := held[..k] + held[k + 1..];
    }

    /** The witness items of one input, moved in order: they stand behind lead other scripts. */
    method PlaceItems(wit: seq<Option<Slice>>, contig: nat, ghost lead: nat, ghost base: set<nat>)
        returns (ws: seq<Slice>)
      requires Holds(base) && Laid(contig, SumV(Contents())) && StandAt(wit, held, lead) && |held| == |Contents()|
      modifies this`held, this`placed, this`offset, pool
      ensures Holds(base) && Laid(contig, SumV(Contents())) && |ws| == |wit|
      ensures lead + |wit| <= |old(held)| == |old(Contents())|
      ensures held == CutOut(old(held), lead, |wit|) && Contents() == CutOut(old(Contents()), lead, |wit|)
      ensures placed == old(placed) + ws && Moved() == WithCut(old(Moved()), old(Contents()), lead, |wit|)
      ensures Agree(old(pool.mem), pool.mem, contig)
    {
      ghost var vals, moved, laid, mem0, slices := Contents(), Moved(), placed, pool.mem, held;
      CutStart(vals, lead, moved);
      CutStart(slices, lead, []);
      AgreeSelf(mem0, contig);
      StandsInside(wit, slices, lead);
      hide *;
      ws := [];
      assert laid + ws == laid;
      for j := 0 to |wit|
        invariant Holds(base) && Laid(contig, SumV(Contents())) && |ws| == j
        invariant held == CutOut(slices, lead, j) && Contents() == CutOut(vals, lead, j)
        invariant placed == laid + ws && Moved() == WithCut(moved, vals, lead, j)
        invariant Agree(mem0, pool.mem, contig)
      {
        CutStep(vals, lead, j, moved);
        CutStep(slices, lead, j, []);
        StandsNext(wit, slices, lead, j);
        ghost var mem1, ws1 := pool.mem, ws;
        var s := Place(wit[j].value, contig, lead, base);
        AgreeTrans(mem0, mem1, pool.mem, contig);
        Assoc(laid, ws1, [s]);
        ws := ws + [s];
      }
    }

    /** Input i in the final loop: its signature script, then its witness items. */
    method PlaceInput(i: nat, contig: nat, ghost ins: seq<TxIn>, ghost pks: seq<Octets>, ghost base: set<nat>)
      returns (r: InRef)
      requires Holds(base) && Laid(contig, SumV(Contents()))
      requires i < |ins| && Contents() == Remaining(ins, pks, i)
      requires Complete(msgIn, msgOut, ins, |pks|) && held == Borrowed(msgIn[i..], msgOut)
      modifies this`held, this`placed, this`offset, pool
      ensures Holds(base) && Laid(contig, SumV(Contents())) && Contents() == Remaining(ins, pks, i + 1)
      ensures |msgIn| == |ins| && held == Borrowed(msgIn[i + 1..], msgOut)
      ensures r.prev == ins[i].prev && r.sequence == ins[i].sequence && |r.wit| == |ins[i].wit|
      ensures placed == (old(placed) + [r.sig]) + r.wit
      ensures Moved() == (old(Moved()) + [ins[i].sigScript]) + ins[i].wit
      ensures Agree(old(pool.mem), pool.mem, contig)
    {
      hide *;
      ghost var mem0 := pool.mem;
      ghost var lead := |ins| - i - 1 + |pks|;
      RemainingStep(ins, pks, i, Moved() + [ins[i].sigScript]);
      CompleteAt(msgIn, msgOut, ins, |pks|, i);
      SlicesStep(msgIn, msgOut, ins, |pks|, i);
      ContentsSize();
      var slot := msgIn[i].value;
      var s := Place(slot.sig.value, contig, 0, base);
      ghost var mem1 := pool.mem;
      ContentsSize();
      var ws := PlaceItems(slot.wit, contig, lead, base);
      AgreeTrans(mem0, mem1, pool.mem, contig);
      r := InRef(slot.prev, s, ws, slot.sequence);
    }

    lemma NothingMoved()
      requires placed == []
      ensures Moved() == []
    {
    }

    lemma ContentsSize()
      ensures AllInMemory(pool.mem, held) ==> |Contents()| == |held|
      ensures (exists base :: Holds(base)) ==> |Contents()| == |held|
    {
    }

    /** The final loop of ThtDecode over the inputs. */
    method CompactIns(contig: nat, ghost ins: seq<TxIn>, ghost pks: seq<Octets>, ghost base: set<nat>)
      returns (rIns: seq<InRef>)
      requires Holds(base) && Linked() && Laid(contig, SumV(Contents())) && placed == []
      requires Complete(msgIn, msgOut, ins, |pks|)
      requires Contents() == (SigScripts(ins) + pks) + Flat(Witnesses(ins))
      modifies this`held, this`placed, this`offset, pool
      ensures Holds(base) && Laid(contig, SumV(Contents())) && Contents() == pks && held == Borrowed([], msgOut)
      ensures placed == InSlices(rIns) && SameShape(rIns, ins) && Moved() == InVals(ins)
      ensures Agree(old(pool.mem), pool.mem, contig)
    {
      hide *;
      ghost var mem0 := pool.mem;
      NothingMoved();
      RemainingStart(ins, pks);
      AgreeSelf(mem0, contig);
      CompleteSize(msgIn, msgOut, ins, |pks|);
      assert msgIn[0..] == msgIn;
      IsLinked();
      rIns := [];
      for i := 0 to |msgIn|
        invariant Holds(base) && Laid(contig, SumV(Contents()))
        invariant Contents() == Remaining(ins, pks, i) && held == Borrowed(msgIn[i..], msgOut)
        invariant placed == InSlices(rIns) && SameShape(rIns, ins[..i])
        invariant Moved() == InVals(ins[..i])
        invariant Agree(mem0, pool.mem, contig)
      {
        ghost var mem1 := pool.mem;
        var r := PlaceInput(i, contig, ins, pks, base);
        AgreeTrans(mem0, mem1, pool.mem, contig);
        InputStep(rIns, ins, i, r);
        rIns := rIns + [r];
      }
      assert ins[..|msgIn|] == ins && msgIn[|msgIn|..] == [];
      RemainingEnd(ins, pks);
    }

    /** The final loop of ThtDecode over the outputs. */
    method CompactOuts(contig: nat, ghost vs: seq<TxOut>, ghost base: set<nat>) returns (rOuts: seq<OutRef>)
      requires Holds(base) && Laid(contig, SumV(Contents())) && |Contents()| == |vs|
      requires OutsRead(msgOut, vs, |vs|) && held == Borrowed([], msgOut)
      modifies this`held, this`placed, this`offset, pool
      ensures Holds(base) && Laid(contig, 0) && Contents() == []
      ensures AmountsAre(rOuts, Amounts(vs))
      ensures placed == old(placed) + OutSlices(rOuts) && Moved() == old(Moved()) + old(Contents())
      ensures Agree(old(pool.mem), pool.mem, contig)
    {
      hide *;
      ghost var vals, moved, laid, mem0, slices := Contents(), Moved(), placed, pool.mem, held;
      ghost var values := Amounts(vs);
      CutStart(vals, 0, moved);
      CutStart(slices, 0, []);
      AgreeSelf(mem0, contig);
      rOuts := [];
      OutsStart(laid, values);
      PksHeld(msgOut, vs);
      for i := 0 to |msgOut|
        invariant Holds(base) && Laid(contig, SumV(Contents()))
        invariant held == CutOut(slices, 0, i) && Contents() == CutOut(vals, 0, i)
        invariant AmountsAre(rOuts, values[..i])
        invariant placed == laid + OutSlices(rOuts) && Moved() == WithCut(moved, vals, 0, i)
        invariant Agree(mem0, pool.mem, contig)
      {
        CutStep(vals, 0, i, moved);
        CutStep(slices, 0, i, []);
        PkAt(msgOut, vs, slices, i);
        ghost var mem1 := pool.mem;
        var slot := msgOut[i].value;
        var s := Place(slot.pk.value, contig, 0, base);
        AgreeTrans(mem0, mem1, pool.mem, contig);
        OutsStep(laid, rOuts, values, i, s);
        rOuts := rOuts + [OutRef(slot.value, s)];
      }
      CutAll(vals, moved);
      assert values[..|values|] == values;
      SumVEmpty();
    }

    // ----- ThtDecode

    /** Version, marker and flag: what precedes the input count. */
    method ReadPreamble(enc: Encoding) returns (err: Option<WireError>, version: int, flagged: bool)
      modifies this`rest
      ensures var v := ReadUint(4, old(rest));
              if v.Fail? then err == Some(v.error)
              else match ReadFlag(enc, v.rest)
                   case Fail(e) => err == Some(e)
                   case Got(f, r) => err == None && rest == r && flagged == f && version == S32(v.value)
    {
      version, flagged := 0, false;
      var v := ReadUint(4, rest);
      if v.Fail? { return Some(v.error), version, flagged; }
      rest := v.rest;
      version := S32(v.value);
      if enc == WitnessEncoding && |rest| > 0 && rest[0] == 0 {
        if |rest| == 1 { return Some(UnexpectedEof), version, flagged; }
        if rest[1] != 1 { return Some(BadFlag), version, flagged; }
        rest := rest[2..];
        flagged := true;
      }
      return None, version, flagged;
    }

    method ReadInputs(ghost base: set<nat>) returns (err: Option<WireError>)
      requires Holds(base) && held == [] && msgIn == [] && msgOut == [] && total == 0
      modifies this`rest, this`held, this`msgIn, this`total, pool
      ensures Holds(base) && Linked() && Grown(old(pool.mem), pool.mem, base)
      ensures match ReadCounted(MAX_TX_IN, ReadTxIn, old(rest))
              case Fail(e) => err == Some(e)
              case Got(vs, r) =>
                && err == None && rest == r && InsRead(msgIn, vs, |vs|)
                && Contents() == SigScripts(vs) && total == SumV(Contents())
    {
      hide ReadVarInt, ReadMany, ReadTxIn, Contents, Holds, InsRead, SumV;
      assert Borrowed([], []) == [];
      var n := ReadVarInt(rest);
      if n.Fail? { return Some(n.error); }
      if n.value > MAX_TX_IN { return Some(TooLarge); }
      rest := n.rest;
      err := ReadIns(n.value, base);
    }

    method ReadOutputs(ghost base: set<nat>) returns (err: Option<WireError>)
      requires Holds(base) && Linked() && NoWits(msgIn) && msgOut == [] && total == SumV(Contents())
      modifies this`rest, this`held, this`msgOut, this`total, pool
      ensures Holds(base) && Linked() && Grown(old(pool.mem), pool.mem, base)
      ensures match ReadCounted(MAX_TX_OUT, ReadTxOut, old(rest))
              case Fail(e) => err == Some(e)
              case Got(vs, r) =>
                && err == None && rest == r && OutsRead(msgOut, vs, |vs|)
                && Contents() == old(Contents()) + PkScripts(vs) && total == SumV(Contents())
    {
      hide ReadVarInt, ReadMany, ReadTxOut, Contents, Holds, Linked, OutsRead, NoWits, SumV;
      var n := ReadVarInt(rest);
      if n.Fail? { return Some(n.error); }
      if n.value > MAX_TX_OUT { return Some(TooLarge); }
      rest := n.rest;
      err := ReadOuts(n.value, base);
    }

    method ReadWitnessData(flagged: bool, ghost vs: seq<TxIn>, ghost base: set<nat>) returns (err: Option<WireError>)
      requires Holds(base) && Linked() && InsRead(msgIn, vs, |vs|) && total == SumV(Contents())
      modifies this`rest, this`held, this`msgIn, this`total, pool
      ensures Holds(base) && Linked() && Grown(old(pool.mem), pool.mem, base)
      ensures match ReadWitnesses(flagged, |vs|, old(rest))
              case Fail(e) => err == Some(e)
              case Got(ws, r) =>
                && err == None && rest == r && WitsRead(msgIn, vs, ws) && |ws| == |vs|
                && Contents() == old(Contents()) + Flat(ws) && total == SumV(Contents())
    {
      hide ReadMany, Contents, Holds, Linked, InsRead, WitsRead, SumV;
      WitsStart(msgIn, vs);
      ReadSize(msgIn, vs, |vs|);
      if flagged {
        err := ReadWits(|msgIn|, vs, base);
      } else {
        NoWitnesses(|vs|, Contents());
        NoneRead(msgIn, vs);
        err := None;
      }
    }

    /** Everything after the flag is read into borrowed buffers, in the order of the wire format. */
    method ReadBody(version: int, flagged: bool, ghost base: set<nat>) returns (err: Option<WireError>, lockTime: nat)
      requires Holds(base) && held == [] && msgIn == [] && msgOut == [] && total == 0
      modifies this`rest, this`held, this`msgIn, this`msgOut, this`total, pool
      ensures Holds(base) && Linked() && Grown(old(pool.mem), pool.mem, base)
      ensures match ReadAfterFlag(version, flagged, old(rest))
              case Fail(e) => err == Some(e)
              case Got(tx, r) =>
                && err == None && rest == r && lockTime == tx.lockTime
                && Complete(msgIn, msgOut, tx.txIn, |tx.txOut|) && OutsRead(msgOut, tx.txOut, |tx.txOut|)
                && Contents() == (SigScripts(tx.txIn) + PkScripts(tx.txOut)) + Flat(Witnesses(tx.txIn))
                && total == SumV(Contents())
    {
      hide ReadCounted, ReadWitnesses, ReadUint, Contents, Holds, Linked, Flat, SigScripts, PkScripts, SumV,
           InsRead, OutsRead, WitsRead, Complete, NoWits, Grown, Attach, Witnesses;
      lockTime := 0;
      ghost var mem0 := pool.mem;
      ghost var ins := ReadCounted(MAX_TX_IN, ReadTxIn, rest);
      err := ReadInputs(base);
      if err.Some? { return; }
      ghost var vs, mem1 := ins.value, pool.mem;
      WitsStart(msgIn, vs);
      ghost var outs := ReadCounted(MAX_TX_OUT, ReadTxOut, rest);
      err := ReadOutputs(base);
      GrownTrans(mem0, mem1, pool.mem, base);
      ghost var mem2 := pool.mem;
      if err.Some? { return; }
      ghost var wits := ReadWitnesses(flagged, |vs|, rest);
      err := ReadWitnessData(flagged, vs, base);
      GrownTrans(mem0, mem2, pool.mem, base);
      if err.Some? { return; }
      var l := ReadUint(4, rest);
      if l.Fail? { return Some(l.error), lockTime; }
      rest := l.rest;
      lockTime := l.value;
      WitnessCount(flagged, |vs|, outs.rest);
      Assembled(vs, wits.value);
      IsComplete(msgIn, msgOut, vs, wits.value, outs.value);
    }

    /** The contiguous buffer is allocated at its exact size and filled. */
    method Compact(version: int, lockTime: nat, ghost tx: MsgTx, ghost base: set<nat>) returns (r: TxRef, contig: nat)
      requires Holds(base) && Linked() && placed == [] && offset == 0
      requires Complete(msgIn, msgOut, tx.txIn, |tx.txOut|) && OutsRead(msgOut, tx.txOut, |tx.txOut|)
      requires version == tx.version && lockTime == tx.lockTime && total == SumV(Contents())
      requires Contents() == (SigScripts(tx.txIn) + PkScripts(tx.txOut)) + Flat(Witnesses(tx.txIn))
      modifies this`held, this`placed, this`offset, pool
      ensures pool.Valid() && pool.out == base && Grown(old(pool.mem), pool.mem, base)
      ensures contig !in old(pool.mem) && contig in pool.mem && contig !in pool.free && contig !in pool.out
      ensures Tiles(Layout(r), contig, |pool.mem[contig]|) && Shows(pool.mem, r, tx)
    {
      ghost var mem0 := pool.mem;
      contig := Start(total, base);
      ghost var mem1 := pool.mem;
      hide *;
      CountOuts(tx.txOut);
      var ins := CompactIns(contig, tx.txIn, PkScripts(tx.txOut), base);
      ghost var mem2 := pool.mem;
      var outs := CompactOuts(contig, tx.txOut, base);
      AgreeTrans(mem1, mem2, pool.mem, contig);
      r := TxRef(version, ins, outs, lockTime);
      LayoutIs(r);
      Finished(contig, base, r, tx, mem0, mem1);
    }

    /** The contiguous buffer is new: no script and no pooled buffer can share it. */
    method Start(total: nat, ghost base: set<nat>) returns (contig: nat)
      requires Holds(base) && placed == [] && offset == 0
      modifies pool
      ensures Holds(base) && Laid(contig, total) && Contents() == old(Contents())
      ensures contig !in old(pool.mem) && Grown(old(pool.mem), pool.mem, old(pool.mem).Keys)
    {
      ghost var vals := Contents();
      contig := pool.Allocate(total);
      assert Contents() == vals;
    }

    /** With nothing held any more, the references read back the transaction from the one buffer. */
    lemma Finished(contig: nat, base: set<nat>, r: TxRef, tx: MsgTx, mem0: Memory, mem1: Memory)
      requires Holds(base) && Contents() == [] && Laid(contig, 0)
      requires placed == Layout(r) && Moved() == InVals(tx.txIn) + PkScripts(tx.txOut)
      requires r.version == tx.version && r.lockTime == tx.lockTime
      requires SameShape(r.txIn, tx.txIn) && AmountsAre(r.txOut, Amounts(tx.txOut))
      requires Agree(mem1, pool.mem, contig) && contig !in mem0
      requires Grown(mem0, mem1, mem0.Keys)
      ensures pool.Valid() && pool.out == base && Grown(mem0, pool.mem, base)
      ensures contig in pool.mem && contig !in pool.free && contig !in pool.out
      ensures Tiles(Layout(r), contig, |pool.mem[contig]|) && Shows(pool.mem, r, tx)
    {
      TilesInside(placed, contig, offset, pool.mem);
      assert held == [];
      ShowsFromFlat(pool.mem, r, tx);
    }
  }

  /**
   * ThtDecode on a fresh message. Whatever the input, the buffers lent out afterwards are those lent
   * out before, untouched; the outcome is the one the wire format prescribes; and on success the
   * scripts tile one new buffer exactly, outside the pool, and read back as decoded.
   */
  method ThtDecode(pool: ScriptPool, input: Octets, enc: Encoding)
    returns (r: Outcome<TxRef>, rest: Octets, contig: nat)
    requires pool.Valid()
    modifies pool
    ensures pool.Valid() && pool.out == old(pool.out) && Grown(old(pool.mem), pool.mem, old(pool.out))
    ensures match Decode(enc, input)
            case Fail(e) => r == Failed(e)
            case Got(tx, left) =>
              && r.Done? && rest == left && Shows(pool.mem, r.value, tx)
              && contig !in old(pool.mem) && contig in pool.mem && contig !in pool.free && contig !in pool.out
              && Tiles(Layout(r.value), contig, |pool.mem[contig]|)
  {
    hide ReadUint, ReadFlag, ReadAfterFlag, Flat, SigScripts, PkScripts, Complete, OutsRead, SumV, Borrowed;
    ghost var base := pool.out;
    var d := new Decoder(pool, input);
    assert Bufs([]) == {};
    rest, contig := [], 0;
    var err, version, flagged := d.ReadPreamble(enc);
    if err.Some? { return Failed(err.value), rest, contig; }
    ghost var body, unread := ReadAfterFlag(version, flagged, d.rest), d.rest;
    var lockTime;
    err, lockTime := d.ReadBody(version, flagged, base);
    if err.Some? {
      d.ReturnScriptBuffers(base);
      return Failed(err.value), rest, contig;
    }
    rest := d.rest;
    VersionKept(version, flagged, unread);
    var tx;
    tx, contig := d.Compact(version, lockTime, body.value, base);
    r := Done(tx);
  }

  lemma VersionKept(version: int, flagged: bool, s: Octets)
    requires ReadAfterFlag(version, flagged, s).Got?
    ensures ReadAfterFlag(version, flagged, s).value.version == version
  {
  }

  /** Every field is filled: headers, scripts and witness items of the inputs, scripts of n outputs. */
  ghost predicate Complete(ins: Ins, outs: Outs, vs: seq<TxIn>, n: nat) {
    && |ins| == |vs| && |outs| == n
    && (forall k :: 0 <= k < |ins| ==>
          && ins[k].Some? && Headed(ins[k].value, vs[k])
          && |ins[k].value.wit| == |vs[k].wit| && Filled(ins[k].value.wit, |vs[k].wit|))
    && (forall k :: 0 <= k < n ==> outs[k].Some? && outs[k].value.pk.Some?)
  }

  lemma IsComplete(ins: Ins, outs: Outs, vs: seq<TxIn>, wits: seq<seq<Octets>>, os: seq<TxOut>)
    requires WitsRead(ins, vs, wits) && |wits| == |vs| && OutsRead(outs, os, |os|)
    ensures Complete(ins, outs, Attach(vs, wits), |os|)
  {
  }

  lemma CompleteSize(ins: Ins, outs: Outs, vs: seq<TxIn>, n: nat)
    requires Complete(ins, outs, vs, n)
    ensures |ins| == |vs|
  {
  }

  lemma CompleteAt(ins: Ins, outs: Outs, vs: seq<TxIn>, n: nat, i: nat)
    requires Complete(ins, outs, vs, n) && i < |vs|
    ensures |ins| == |vs| && ins[i].Some? && ins[i].value.sig.Some? && |ins[i].value.wit| == |vs[i].wit|
    ensures ins[i].value.prev == vs[i].prev && ins[i].value.sequence == vs[i].sequence
  {
  }

  /** The items stand one after another behind the first lead slices. */
  ghost predicate StandAt(wit: seq<Option<Slice>>, held: seq<Slice>, lead: nat) {
    lead + |wit| <= |held| && forall k :: 0 <= k < |wit| ==> wit[k] == Some(held[lead + k])
  }

  lemma StandsInside(wit: seq<Option<Slice>>, held: seq<Slice>, lead: nat)
    requires StandAt(wit, held, lead)
    ensures lead + |wit| <= |held|
  {
  }

  lemma StandsNext(wit: seq<Option<Slice>>, held: seq<Slice>, lead: nat, j: nat)
    requires StandAt(wit, held, lead) && j < |wit|
    ensures lead + j <= |held| && lead < |CutOut(held, lead, j)| && wit[j] == Some(CutOut(held, lead, j)[lead])
  {
  }

  /** Input i among the slices not yet moved: first its script, its items behind the other scripts. */
  lemma SlicesStep(ins: Ins, outs: Outs, vs: seq<TxIn>, n: nat, i: nat)
    requires Complete(ins, outs, vs, n) && i < |vs|
    ensures |ins| == |vs| && ins[i].Some? && ins[i].value.sig.Some?
    ensures var all, lead := Borrowed(ins[i..], outs), |vs| - i - 1 + n;
            && all != [] && all[0] == ins[i].value.sig.value
            && StandAt(ins[i].value.wit, Drop(all, 0), lead)
            && CutOut(Drop(all, 0), lead, |ins[i].value.wit|) == Borrowed(ins[i + 1..], outs)
  {
    hide Borrowed, Collect, Filled, Headed, SigOf, WitOf, PkOf, Field;
    SlotSizes(ins, outs, vs, n, i);
    BorrowedFrom(ins, outs, i);
    var slot := ins[i].value;
    var w := Collect(slot.wit, Field);
    var a, p, c := Collect(ins[i + 1..], SigOf), Collect(outs, PkOf), Collect(ins[i + 1..], WitOf);
    CutFront([], slot.sig.value, a, p, w, c);
    StandsBehind(slot.wit, a + p, w, c);
    BorrowedIs(ins[i + 1..], outs);
  }

  lemma SlotSizes(ins: Ins, outs: Outs, vs: seq<TxIn>, n: nat, i: nat)
    requires Complete(ins, outs, vs, n) && i < |vs|
    ensures |ins| == |vs| && ins[i].Some? && ins[i].value.sig.Some?
    ensures |Collect(ins[i + 1..], SigOf)| == |vs| - i - 1 && |Collect(outs, PkOf)| == n
    ensures var w := Collect(ins[i].value.wit, Field);
            |w| == |ins[i].value.wit| && forall k :: 0 <= k < |w| ==> ins[i].value.wit[k] == Some(w[k])
  {
    hide Collect;
    CollectSigs(ins[i + 1..]);
    CollectPks(outs);
    CollectFilled(ins[i].value.wit);
  }

  lemma StandsBehind(wit: seq<Option<Slice>>, front: seq<Slice>, w: seq<Slice>, back: seq<Slice>)
    requires |w| == |wit| && forall k :: 0 <= k < |w| ==> wit[k] == Some(w[k])
    ensures StandAt(wit, front + (w + back), |front|)
  {
  }

  lemma BorrowedIs(ins: Ins, outs: Outs)
    ensures Borrowed(ins, outs) == (Collect(ins, SigOf) + Collect(outs, PkOf)) + Collect(ins, WitOf)
  {
  }

  lemma PksHeld(outs: Outs, vs: seq<TxOut>)
    requires OutsRead(outs, vs, |vs|)
    ensures |outs| == |vs| == |Amounts(vs)| && |Borrowed([], outs)| == |vs|
  {
    CollectPks(outs);
    assert Borrowed([], outs) == Collect(outs, PkOf);
  }

  lemma PkAt(outs: Outs, vs: seq<TxOut>, slices: seq<Slice>, i: nat)
    requires OutsRead(outs, vs, |vs|) && slices == Borrowed([], outs) && i < |vs|
    ensures i < |outs| && i < |slices| && outs[i].Some? && outs[i].value.pk.Some?
    ensures CutOut(slices, 0, i) != [] && CutOut(slices, 0, i)[0] == outs[i].value.pk.value
    ensures i < |Amounts(vs)| && outs[i].value.value == Amounts(vs)[i]
  {
    CollectPks(outs);
    assert slices == Collect(outs, PkOf);
  }

  // Facts the loops need about predicates they do not unfold.

  lemma ReadingAt(ins: Ins, vs: seq<TxIn>, n: nat, slot: InSlot)
    requires InReading(ins, vs, n, slot)
    ensures |vs| < |ins| && ins[|vs|] == Some(slot)
  {
  }

  lemma ReadingOutAt(outs: Outs, vs: seq<TxOut>, n: nat, slot: OutSlot)
    requires OutReading(outs, vs, n, slot)
    ensures |vs| < |outs| && outs[|vs|] == Some(slot)
  {
  }

  lemma ReadSize(ins: Ins, vs: seq<TxIn>, n: nat)
    requires InsRead(ins, vs, n)
    ensures |ins| == n
  {
  }

  lemma ReadSizeOut(outs: Outs, vs: seq<TxOut>, n: nat)
    requires OutsRead(outs, vs, n)
    ensures |outs| == n
  {
  }

  lemma WitsAt(ins: Ins, vs: seq<TxIn>, wits: seq<seq<Octets>>)
    requires WitsRead(ins, vs, wits) && |wits| < |vs|
    ensures |ins| == |vs| && ins[|wits|].Some?
  {
  }

  lemma ItemsAt(ins: Ins, vs: seq<TxIn>, wits: seq<seq<Octets>>, j: nat, n: nat)
    requires ItemsRead(ins, vs, wits, j, n) && j < n
    ensures |wits| < |ins| && ins[|wits|].Some? && |ins[|wits|].value.wit| == n && ins[|wits|].value.wit[j] == None
  {
  }

  lemma NoneRead(ins: Ins, vs: seq<TxIn>)
    requires InsRead(ins, vs, |vs|)
    ensures WitsRead(ins, vs, seq(|vs|, i => []))
  {
  }

  lemma NoFields(walk: seq<Slice>)
    ensures FieldsOf(None) + walk == walk
  {
  }

  lemma PkField(y: Option<OutSlot>)
    ensures PkOf(y) == Field(if y.Some? then y.value.pk else None)
  {
  }

  lemma CollectHead<T>(xs: seq<T>, i: nat, f: T -> seq<Slice>, more: seq<Slice>)
    requires i < |xs|
    ensures Collect(xs[i..], f) + more == f(xs[i]) + (Collect(xs[i + 1..], f) + more)
  {
    assert xs[i..][1..] == xs[i + 1..];
    Assoc(f(xs[i]), Collect(xs[i + 1..], f), more);
  }

  lemma CollectTail<T>(xs: seq<T>, f: T -> seq<Slice>, more: seq<Slice>)
    ensures Collect(xs[|xs|..], f) + more == more
  {
  }

  lemma CountOuts(vs: seq<TxOut>)
    ensures |Amounts(vs)| == |PkScripts(vs)| == |vs|
  {
  }

  lemma LayoutIs(tx: TxRef)
    ensures Layout(tx) == InSlices(tx.txIn) + OutSlices(tx.txOut)
  {
  }

  lemma Assembled(ins: seq<TxIn>, wits: seq<seq<Octets>>)
    requires |ins| == |wits|
    ensures SigScripts(Attach(ins, wits)) == SigScripts(ins) && Witnesses(Attach(ins, wits)) == wits
  {
  }

  lemma {:induction false} NoWitnesses(n: nat, vals: seq<Octets>)
    ensures var vs: seq<seq<Octets>> := seq(n, i => []); vals + Flat(vs) == vals
  {
    var vs: seq<seq<Octets>> := seq(n, i => []);
    if n > 0 {
      NoWitnesses(n - 1, vals);
      assert vs[..n - 1] == seq(n - 1, i => []);
      assert Flat(vs) == Flat(vs[..n - 1]) + [];
    }
  }

  lemma {:induction false} SumVSnoc(vs: seq<Octets>, v: Octets)
    ensures SumV(vs + [v]) == SumV(vs) + |v|
  {
    if vs == [] {
      assert vs + [v] == [v];
    } else {
      SumVSnoc(vs[1..], v);
      assert (vs + [v])[1..] == vs[1..] + [v];
    }
  }

  lemma {:induction false} InShowsFromFlat(mem: Memory, rs: seq<InRef>, vs: seq<TxIn>)
    requires SameShape(rs, vs)
    requires AllInMemory(mem, InSlices(rs)) && Vals(mem, InSlices(rs)) == InVals(vs)
    ensures forall i :: 0 <= i < |rs| ==> InShows(mem, rs[i], vs[i])
  {
    if rs != [] {
      var n := |rs| - 1;
      var a, b := InSlices(rs[..n]), InVals(vs[..n]);
      ShapeSizes(rs[..n], vs[..n]);
      var s := InSlices(rs);
      assert s == a + [rs[n].sig] + rs[n].wit;
      assert InVals(vs) == b + ([vs[n].sigScript] + vs[n].wit);
      SplitVals(mem, a, rs[n].sig, rs[n].wit, b, vs[n].sigScript, vs[n].wit);
      InShowsFromFlat(mem, rs[..n], vs[..n]);
    }
  }

  lemma SplitVals(mem: Memory, a: seq<Slice>, s: Slice, w: seq<Slice>, va: seq<Octets>, v: Octets, vw: seq<Octets>)
    requires AllInMemory(mem, a + [s] + w) && |a| == |va| && |w| == |vw|
    requires Vals(mem, a + [s] + w) == va + ([v] + vw)
    ensures AllInMemory(mem, a) && Vals(mem, a) == va
    ensures InMemory(mem, s) && Val(mem, s) == v
    ensures AllInMemory(mem, w) && Vals(mem, w) == vw
  {
    var all, vals := a + [s] + w, va + ([v] + vw);
    forall x | x in a || x == s || x in w ensures InMemory(mem, x) { assert x in all; }
    assert forall i :: 0 <= i < |a| ==> all[i] == a[i] && vals[i] == va[i];
    assert all[|a|] == s && vals[|a|] == v;
    assert forall i :: 0 <= i < |w| ==> all[|a| + 1 + i] == w[i] && vals[|a| + 1 + i] == vw[i];
  }

  lemma {:induction false} ShapeSizes(rs: seq<InRef>, vs: seq<TxIn>)
    requires SameShape(rs, vs)
    ensures |InSlices(rs)| == |InVals(vs)|
  {
    if rs != [] { ShapeSizes(rs[..|rs| - 1], vs[..|rs| - 1]); }
  }

  lemma ShowsFromFlat(mem: Memory, r: TxRef, tx: MsgTx)
    requires AllInMemory(mem, Layout(r)) && Vals(mem, Layout(r)) == InVals(tx.txIn) + PkScripts(tx.txOut)
    requires r.version == tx.version && r.lockTime == tx.lockTime
    requires SameShape(r.txIn, tx.txIn) && AmountsAre(r.txOut, Amounts(tx.txOut))
    ensures Shows(mem, r, tx)
  {
    var a, b := InSlices(r.txIn), OutSlices(r.txOut);
    var va, vb := InVals(tx.txIn), PkScripts(tx.txOut);
    ShapeSizes(r.txIn, tx.txIn);
    var all, vals := a + b, va + vb;
    forall x | x in a ensures InMemory(mem, x) { assert x in all; }
    assert forall i :: 0 <= i < |a| ==> all[i] == a[i] && vals[i] == va[i];
    assert Vals(mem, a) == va;
    InShowsFromFlat(mem, r.txIn, tx.txIn);
    forall i | 0 <= i < |b| ensures OutShows(mem, r.txOut[i], tx.txOut[i]) {
      assert all[|a| + i] == b[i] && vals[|a| + i] == vb[i];
      assert b[i] in all;
    }
  }

  /** Allocated memory only grows, and the buffers ids are as they were. */
  ghost predicate Grown(m0: Memory, m1: Memory, ids: set<nat>) {
    && (forall id :: id in m0 ==> id in m1)
    && (forall id :: id in ids && id in m0 ==> m1[id] == m0[id])
  }

  lemma GrownSelf(m: Memory, ids: set<nat>)
    ensures Grown(m, m, ids)
  {
  }

  lemma GrownTrans(m0: Memory, m1: Memory, m2: Memory, ids: set<nat>)
    requires Grown(m0, m1, ids) && Grown(m1, m2, ids)
    ensures Grown(m0, m2, ids)
  {
  }

  /** Memory outside buffer b, and the size of b, are as before. */
  ghost predicate Agree(m0: Memory, m1: Memory, b: nat) {
    && m0.Keys == m1.Keys
    && (b in m0 ==> |m0[b]| == |m1[b]|)
    && forall id :: id in m0 && id != b ==> m1[id] == m0[id]
  }

  lemma AgreeSelf(m: Memory, b: nat)
    ensures Agree(m, m, b)
  {
  }

  lemma AgreeTrans(m0: Memory, m1: Memory, m2: Memory, b: nat)
    requires Agree(m0, m1, b) && Agree(m1, m2, b)
    ensures Agree(m0, m2, b)
  {
  }

  lemma InputStep(rs: seq<InRef>, ins: seq<TxIn>, i: nat, r: InRef)
    requires i < |ins| && SameShape(rs, ins[..i])
    requires r.prev == ins[i].prev && r.sequence == ins[i].sequence && |r.wit| == |ins[i].wit|
    ensures SameShape(rs + [r], ins[..i + 1])
    ensures InSlices(rs + [r]) == (InSlices(rs) + [r.sig]) + r.wit
    ensures InVals(ins[..i + 1]) == (InVals(ins[..i]) + [ins[i].sigScript]) + ins[i].wit
  {
    assert (rs + [r])[..|rs|] == rs;
    assert ins[..i + 1][..i] == ins[..i];
    Assoc(InVals(ins[..i]), [ins[i].sigScript], ins[i].wit);
  }

  /** vs without the j scripts that follow the first lead ones. */
  function CutOut<T>(vs: seq<T>, lead: nat, j: nat): seq<T>
    requires lead + j <= |vs|
  {
    vs[..lead] + vs[lead + j..]
  }

  /** moved followed by those j scripts. */
  function WithCut<T>(moved: seq<T>, vs: seq<T>, lead: nat, j: nat): seq<T>
    requires lead + j <= |vs|
  {
    moved + vs[lead..lead + j]
  }

  lemma CutStart<T>(vs: seq<T>, lead: nat, moved: seq<T>)
    requires lead <= |vs|
    ensures CutOut(vs, lead, 0) == vs && WithCut(moved, vs, lead, 0) == moved
  {
  }

  lemma CutStep<T>(vs: seq<T>, lead: nat, j: nat, moved: seq<T>)
    requires lead + j < |vs|
    ensures lead < |CutOut(vs, lead, j)| && Drop(CutOut(vs, lead, j), lead) == CutOut(vs, lead, j + 1)
    ensures WithCut(moved, vs, lead, j) + [CutOut(vs, lead, j)[lead]] == WithCut(moved, vs, lead, j + 1)
  {
    SnocRange(vs, lead, lead + j);
    Assoc(moved, vs[lead..lead + j], [vs[lead + j]]);
  }

  lemma SnocRange<T>(vs: seq<T>, lo: nat, hi: nat)
    requires lo <= hi < |vs|
    ensures vs[lo..hi + 1] == vs[lo..hi] + [vs[hi]]
  {
  }

  /** The scripts of the inputs in layout order. */
  function InVals(ins: seq<TxIn>): seq<Octets> {
    if ins == [] then []
    else InVals(ins[..|ins| - 1]) + ([ins[|ins| - 1].sigScript] + ins[|ins| - 1].wit)
  }

  ghost predicate SameShape(rs: seq<InRef>, vs: seq<TxIn>) {
    && |rs| == |vs|
    && forall i :: 0 <= i < |rs| ==>
         rs[i].prev == vs[i].prev && rs[i].sequence == vs[i].sequence && |rs[i].wit| == |vs[i].wit|
  }

  lemma {:induction false} FlatCons(v: seq<Octets>, vs: seq<seq<Octets>>)
    ensures Flat([v] + vs) == v + Flat(vs)
  {
    if vs == [] {
      assert [v] + vs == [v] && [v][..0] == [];
    } else {
      var init, last := vs[..|vs| - 1], vs[|vs| - 1];
      FlatCons(v, init);
      assert ([v] + vs)[..|vs|] == [v] + init;
      Assoc(v, Flat(init), last);
    }
  }

  lemma SumVEmpty()
    ensures SumV([]) == 0
  {
  }

  lemma CutAll(vs: seq<Octets>, moved: seq<Octets>)
    ensures CutOut(vs, 0, |vs|) == [] && WithCut(moved, vs, 0, |vs|) == moved + vs
  {
    assert vs[0..|vs|] == vs;
  }

  ghost predicate AmountsAre(rs: seq<OutRef>, values: seq<int>) {
    |rs| == |values| && forall i :: 0 <= i < |rs| ==> rs[i].value == values[i]
  }

  lemma OutsStart(laid: seq<Slice>, values: seq<int>)
    ensures laid + OutSlices([]) == laid && AmountsAre([], values[..0])
  {
  }

  lemma OutsStep(laid: seq<Slice>, rs: seq<OutRef>, values: seq<int>, i: nat, s: Slice)
    requires i < |values| && AmountsAre(rs, values[..i])
    ensures var rs' := rs + [OutRef(values[i], s)];
            && AmountsAre(rs', values[..i + 1])
            && laid + OutSlices(rs') == (laid + OutSlices(rs)) + [s]
  {
    var rs' := rs + [OutRef(values[i], s)];
    assert OutSlices(rs') == OutSlices(rs) + [s];
    Assoc(laid, OutSlices(rs), [s]);
  }

  /** The scripts still held when the first i inputs have been moved. */
  function Remaining(ins: seq<TxIn>, pks: seq<Octets>, i: nat): seq<Octets>
    requires i <= |ins|
  {
    (SigScripts(ins[i..]) + pks) + Flat(Witnesses(ins[i..]))
  }

  lemma RemainingStart(ins: seq<TxIn>, pks: seq<Octets>)
    ensures Remaining(ins, pks, 0) == SigScripts(ins) + pks + Flat(Witnesses(ins))
    ensures InVals(ins[..0]) == [] && InSlices([]) == [] && SameShape([], ins[..0])
  {
    assert ins[0..] == ins;
  }

  lemma RemainingEnd(ins: seq<TxIn>, pks: seq<Octets>)
    ensures Remaining(ins, pks, |ins|) == pks
  {
    assert ins[|ins|..] == [];
    assert SigScripts([]) == [] && Flat(Witnesses([])) == [];
  }

  /** Where the signature script and the witness of input i stand among the remaining scripts. */
  lemma RemainingStep(ins: seq<TxIn>, pks: seq<Octets>, i: nat, moved: seq<Octets>)
    requires i < |ins|
    ensures var vals, lead, n := Remaining(ins, pks, i), |ins| - i - 1 + |pks|, |ins[i].wit|;
            && vals != [] && vals[0] == ins[i].sigScript
            && var d := Drop(vals, 0);
            && lead + n <= |d| && WithCut(moved, d, lead, n) == moved + ins[i].wit
            && CutOut(d, lead, n) == Remaining(ins, pks, i + 1)
  {
    var rest := ins[i + 1..];
    SuffixCons(ins, i);
    hide SigScripts, Witnesses, Flat;
    FlatCons(ins[i].wit, Witnesses(rest));
    CutFront(moved, ins[i].sigScript, SigScripts(rest), pks, ins[i].wit, Flat(Witnesses(rest)));
  }

  lemma SuffixCons(ins: seq<TxIn>, i: nat)
    requires i < |ins|
    ensures SigScripts(ins[i..]) == [ins[i].sigScript] + SigScripts(ins[i + 1..])
    ensures Witnesses(ins[i..]) == [ins[i].wit] + Witnesses(ins[i + 1..])
    ensures |SigScripts(ins[i + 1..])| == |ins| - i - 1
  {
    var rest := ins[i + 1..];
    assert ins[i..] == [ins[i]] + rest;
    assert SigScripts([ins[i]] + rest) == [ins[i].sigScript] + SigScripts(rest);
    assert Witnesses([ins[i]] + rest) == [ins[i].wit] + Witnesses(rest);
  }

  lemma CutFront<T>(moved: seq<T>, x: T, a: seq<T>, b: seq<T>, w: seq<T>, c: seq<T>)
    ensures var vals := (([x] + a) + b) + (w + c);
            var d := Drop(vals, 0);
            && d == (a + b) + (w + c)
            && WithCut(moved, d, |a| + |b|, |w|) == moved + w
            && CutOut(d, |a| + |b|, |w|) == (a + b) + c
  {
    var vals := (([x] + a) + b) + (w + c);
    assert Drop(vals, 0) == (a + b) + (w + c);
    assert ((a + b) + (w + c))[|a| + |b|..|a| + |b| + |w|] == w;
  }

  function SumV(vs: seq<Octets>): nat { if vs == [] then 0 else |vs[0]| + SumV(vs[1..]) }

  function Drop<T>(xs: seq<T>, k: nat): seq<T>
    requires k < |xs|
  {
    xs[..k] + xs[k + 1..]
  }

  lemma {:induction false} SumVDrop(vs: seq<Octets>, k: nat)
    requires k < |vs|
    ensures SumV(vs) == |vs[k]| + SumV(Drop(vs, k))
  {
    if k > 0 {
      SumVDrop(vs[1..], k - 1);
      assert Drop(vs, k)[1..] == Drop(vs[1..], k - 1);
    } else {
      assert Drop(vs, 0) == vs[1..];
    }
  }

  lemma BufsDrop(ss: seq<Slice>, k: nat)
    requires k < |ss| && Apart(ss)
    ensures Bufs(Drop(ss, k)) == Bufs(ss) - {ss[k].buf}
  {
    var d := Drop(ss, k);
    forall b | b in Bufs(ss) - {ss[k].buf} ensures b in Bufs(d) {
      var i :| 0 <= i < |ss| && ss[i].buf == b;
      assert ss[i] == if i < k then d[i] else d[i - 1];
      assert ss[i] in d;
    }
    forall b | b in Bufs(d) ensures b in Bufs(ss) - {ss[k].buf} {
      var i :| 0 <= i < |d| && d[i].buf == b;
      assert d[i] == if i < k then ss[i] else ss[i + 1];
    }
  }

  lemma HeldDrop(ss: seq<Slice>, k: nat, mem: Memory)
    requires k < |ss| && Separate(ss) && AllInMemory(mem, ss)
    ensures var d := Drop(ss, k);
            && Separate(d) && AllInMemory(mem, d) && Vals(mem, d) == Drop(Vals(mem, ss), k)
            && Bufs(d) == Bufs(ss) - {ss[k].buf}
  {
    var d := Drop(ss, k);
    BufsDrop(ss, k);
    hide Bufs;
    assert forall i :: 0 <= i < |d| ==> d[i] == ss[if i < k then i else i + 1];
    assert forall x :: x in d ==> x in ss;
  }

  lemma HeldSnoc(ss: seq<Slice>, b: Slice, mem0: Memory, mem1: Memory)
    requires Separate(ss) && AllInMemory(mem0, ss) && b.off == 0 && InMemory(mem1, b)
    requires forall s :: s in ss ==> s.buf != b.buf
    requires mem0.Keys == mem1.Keys && forall id :: id in mem0 && id != b.buf ==> mem1[id] == mem0[id]
    ensures var e := ss + [b];
            && Separate(e) && AllInMemory(mem1, e) && Vals(mem1, e) == Vals(mem0, ss) + [Val(mem1, b)]
            && Bufs(e) == Bufs(ss) + {b.buf}
  {
    BufsSnoc(ss, b);
    hide Bufs;
    var e := ss + [b];
    assert forall x :: x in e ==> x in ss || x == b;
    assert forall s :: s in ss ==> InMemory(mem1, s) && Val(mem1, s) == Val(mem0, s);
  }

  lemma TilesInside(ss: seq<Slice>, b: nat, n: nat, mem: Memory)
    requires Tiles(ss, b, n) && b in mem && n <= |mem[b]|
    ensures AllInMemory(mem, ss)
    ensures forall s :: s in ss ==> s.off + s.len <= n
  {
    forall s | s in ss ensures InMemory(mem, s) && s.off + s.len <= n {
      var i :| 0 <= i < |ss| && ss[i] == s;
      SumLenPrefix(ss, i);
    }
  }

  lemma PrefixSlice(a: Octets, b: Octets, n: nat, s: Slice)
    requires n <= |a| && n <= |b| && a[..n] == b[..n] && s.off + s.len <= n
    ensures a[s.off..s.off + s.len] == b[s.off..s.off + s.len]
  {
    assert a[s.off..s.off + s.len] == a[..n][s.off..s.off + s.len];
    assert b[s.off..s.off + s.len] == b[..n][s.off..s.off + s.len];
  }

  function SigScripts(vs: seq<TxIn>): seq<Octets>
  {
    seq(|vs|, i requires 0 <= i < |vs| => vs[i].sigScript)
  }

  function Amounts(vs: seq<TxOut>): seq<int>
  {
    seq(|vs|, i requires 0 <= i < |vs| => vs[i].value)
  }

  function PkScripts(vs: seq<TxOut>): seq<Octets>
  {
    seq(|vs|, i requires 0 <= i < |vs| => vs[i].pkScript)
  }

  lemma ListsStart()
    ensures SigScripts([]) == [] && PkScripts([]) == [] && Flat([]) == []
  {
  }

  lemma InsSnoc(vs: seq<TxIn>, v: TxIn)
    ensures SigScripts(vs + [v]) == SigScripts(vs) + [v.sigScript]
  {
  }

  lemma OutsSnoc(before: seq<Octets>, vs: seq<TxOut>, v: TxOut)
    ensures before + PkScripts(vs + [v]) == (before + PkScripts(vs)) + [v.pkScript]
  {
    assert PkScripts(vs + [v]) == PkScripts(vs) + [v.pkScript];
    Assoc(before, PkScripts(vs), [v.pkScript]);
  }

  lemma WitsSnoc(before: seq<Octets>, vs: seq<seq<Octets>>, v: seq<Octets>)
    ensures before + Flat(vs + [v]) == (before + Flat(vs)) + v
  {
    assert (vs + [v])[..|vs|] == vs;
    Assoc(before, Flat(vs), v);
  }

  lemma ItemIs(s: Octets)
    ensures ReadItem(s) == ReadVarBytes(MAX_WITNESS_ITEM_SIZE, s)
  {
  }
}
