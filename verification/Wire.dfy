/** The transaction wire format (wire/msgtx.go, wire/common.go). */
module Wire {
  import opened Bytes

  datatype OutPoint = OutPoint(hash: Octets, index: nat)
  datatype TxIn = TxIn(prev: OutPoint, sigScript: Octets, wit: seq<Octets>, sequence: nat)
  datatype TxOut = TxOut(value: int, pkScript: Octets)
  datatype MsgTx = MsgTx(version: int, txIn: seq<TxIn>, txOut: seq<TxOut>, lockTime: nat)

  datatype Encoding = BaseEncoding | WitnessEncoding

  const MAX_MESSAGE_PAYLOAD: nat := 1024 * 1024 * 32
  const MAX_TX_IN: nat := MAX_MESSAGE_PAYLOAD / 41 + 1
  const MAX_TX_OUT: nat := MAX_MESSAGE_PAYLOAD / 9 + 1
  const MAX_WITNESS_ITEMS: nat := 500000
  const MAX_WITNESS_ITEM_SIZE: nat := 11000
  const TWO32: nat := 0x1_0000_0000
  const TWO64: nat := 0x1_0000_0000_0000_0000

  // ----- outcomes of reading

  datatype WireError = UnexpectedEof | NonCanonicalVarInt | TooLarge | BadFlag

  /** A value and the bytes that follow it, or the reason there is none. */
  datatype Parse<+T> = Got(value: T, rest: Octets) | Fail(error: WireError)

  function Take(n: nat, s: Octets): Parse<Octets> {
    if |s| < n then Fail(UnexpectedEof) else Got(s[..n], s[n..])
  }

  function ReadUint(k: nat, s: Octets): Parse<nat> {
    match Take(k, s)
    case Got(b, rest) => Got(FromLE(b), rest)
    case Fail(e) => Fail(e)
  }

  lemma TakeBack(b: Octets, rest: Octets)
    ensures Take(|b|, b + rest) == Got(b, rest)
  {
  }

  lemma TakeWhole(n: nat, s: Octets)
    requires Take(n, s).Got?
    ensures s == Take(n, s).value + Take(n, s).rest && |Take(n, s).value| == n
  {
  }

  lemma UintBack(v: nat, k: nat, rest: Octets)
    requires v < Pow256(k)
    ensures ReadUint(k, LE(v, k) + rest) == Got(v, rest)
  {
    TakeBack(LE(v, k), rest);
    FromLEofLE(v, k);
  }

  lemma UintWhole(k: nat, s: Octets)
    requires ReadUint(k, s).Got?
    ensures s == LE(ReadUint(k, s).value, k) + ReadUint(k, s).rest
    ensures ReadUint(k, s).value < Pow256(k)
  {
    TakeWhole(k, s);
    LEofFromLE(Take(k, s).value);
  }

  // ----- variable length integers

  /** WriteVarInt. */
  function VarInt(v: nat): Octets {
    if v < 0xfd then [v]
    else if v <= 0xffff then [0xfd] + LE(v, 2)
    else if v < TWO32 then [0xfe] + LE(v, 4)
    else [0xff] + LE(v, 8)
  }

  /** VarIntSerializeSize. */
  function VarIntSize(v: nat): (n: nat)
    ensures n == |VarInt(v)|
  {
    if v < 0xfd then 1 else if v <= 0xffff then 3 else if v < TWO32 then 5 else 9
  }

  function AtLeast(min: nat, p: Parse<nat>): Parse<nat> {
    if p.Got? && p.value < min then Fail(NonCanonicalVarInt) else p
  }

  /** ReadVarInt: the discriminant chooses the width, and a value that fits fewer bytes is refused. */
  function ReadVarInt(s: Octets): Parse<nat> {
    if s == [] then Fail(UnexpectedEof)
    else if s[0] == 0xff then AtLeast(TWO32, ReadUint(8, s[1..]))
    else if s[0] == 0xfe then AtLeast(0x1_0000, ReadUint(4, s[1..]))
    else if s[0] == 0xfd then AtLeast(0xfd, ReadUint(2, s[1..]))
    else Got(s[0], s[1..])
  }

  lemma VarIntBack(v: nat, rest: Octets)
    requires v < TWO64
    ensures ReadVarInt(VarInt(v) + rest) == Got(v, rest)
  {
    PowValues();
    var s := VarInt(v) + rest;
    if v >= 0xfd {
      var k := if v <= 0xffff then 2 else if v < TWO32 then 4 else 8;
      assert s[1..] == LE(v, k) + rest;
      UintBack(v, k, rest);
    }
  }

  /** Only the shortest form is accepted, so the bytes are determined by the value. */
  lemma VarIntWhole(s: Octets)
    requires ReadVarInt(s).Got?
    ensures s == VarInt(ReadVarInt(s).value) + ReadVarInt(s).rest
    ensures ReadVarInt(s).value < TWO64
  {
    PowValues();
    var r := ReadVarInt(s);
    assert s == [s[0]] + s[1..];
    if s[0] >= 0xfd {
      var k := if s[0] == 0xfd then 2 else if s[0] == 0xfe then 4 else 8;
      UintWhole(k, s[1..]);
      Assoc([s[0]], LE(r.value, k), r.rest);
    }
  }

  // ----- length-prefixed byte strings

  /** WriteVarBytes. */
  function VarBytes(b: Octets): Octets { VarInt(|b|) + b }

  /** readScript and the reading half of ReadVarBytes. */
  function ReadVarBytes(max: nat, s: Octets): Parse<Octets> {
    match ReadVarInt(s)
    case Fail(e) => Fail(e)
    case Got(n, rest) => if n > max then Fail(TooLarge) else Take(n, rest)
  }

  lemma VarBytesBack(max: nat, b: Octets, rest: Octets)
    requires |b| <= max < TWO64
    ensures ReadVarBytes(max, VarBytes(b) + rest) == Got(b, rest)
  {
    Assoc(VarInt(|b|), b, rest);
    VarIntBack(|b|, b + rest);
    TakeBack(b, rest);
  }

  lemma VarBytesWhole(max: nat, s: Octets)
    requires ReadVarBytes(max, s).Got?
    ensures s == VarBytes(ReadVarBytes(max, s).value) + ReadVarBytes(max, s).rest
    ensures |ReadVarBytes(max, s).value| <= max
  {
    VarIntWhole(s);
    var n := ReadVarInt(s);
    TakeWhole(n.value, n.rest);
    var b := Take(n.value, n.rest);
    Assoc(VarInt(n.value), b.value, b.rest);
  }

  // ----- counted lists

  function WriteMany<T>(xs: seq<T>, write: T -> Octets): Octets {
    if xs == [] then [] else write(xs[0]) + WriteMany(xs[1..], write)
  }

  function ReadMany<T>(n: nat, read: Octets -> Parse<T>, s: Octets): Parse<seq<T>> {
    if n == 0 then Got([], s)
    else
      match read(s)
      case Fail(e) => Fail(e)
      case Got(x, rest) =>
        match ReadMany(n - 1, read, rest)
        case Fail(e) => Fail(e)
        case Got(xs, rest') => Got([x] + xs, rest')
  }

  /** read undoes write on the values in dom. */
  ghost predicate Undoes<T(!new)>(read: Octets -> Parse<T>, write: T -> Octets, dom: T -> bool) {
    forall x: T, rest: Octets :: dom(x) ==> read(write(x) + rest) == Got(x, rest)
  }

  /** write gives back the bytes read consumed. */
  ghost predicate Faithful<T>(read: Octets -> Parse<T>, write: T -> Octets) {
    forall s: Octets :: read(s).Got? ==> s == write(read(s).value) + read(s).rest
  }

  lemma {:induction false} ManyBack<T(!new)>(xs: seq<T>, read: Octets -> Parse<T>, write: T -> Octets,
                                             dom: T -> bool, rest: Octets)
    requires Undoes(read, write, dom)
    requires forall x :: x in xs ==> dom(x)
    ensures ReadMany(|xs|, read, WriteMany(xs, write) + rest) == Got(xs, rest)
  {
    if xs == [] {
      assert WriteMany(xs, write) + rest == rest;
    } else {
      var more := WriteMany(xs[1..], write);
      Assoc(write(xs[0]), more, rest);
      assert dom(xs[0]);
      assert read(write(xs[0]) + (more + rest)) == Got(xs[0], more + rest);
      ManyBack(xs[1..], read, write, dom, rest);
      assert xs == [xs[0]] + xs[1..];
    }
  }

  lemma {:induction false} ManyWhole<T>(n: nat, read: Octets -> Parse<T>, write: T -> Octets, s: Octets)
    requires Faithful(read, write)
    requires ReadMany(n, read, s).Got?
    ensures s == WriteMany(ReadMany(n, read, s).value, write) + ReadMany(n, read, s).rest
    ensures |ReadMany(n, read, s).value| == n
  {
    if n == 0 {
      assert WriteMany([], write) + s == s;
    } else {
      var h := read(s);
      ManyWhole(n - 1, read, write, h.rest);
      var t := ReadMany(n - 1, read, h.rest);
      assert ([h.value] + t.value)[1..] == t.value;
      Assoc(write(h.value), WriteMany(t.value, write), t.rest);
    }
  }

  /** What holds of every element read holds of every element of the list. */
  lemma {:induction false} ManyAll<T>(n: nat, read: Octets -> Parse<T>, s: Octets, good: T -> bool)
    requires forall s: Octets :: read(s).Got? ==> good(read(s).value)
    requires ReadMany(n, read, s).Got?
    ensures forall x :: x in ReadMany(n, read, s).value ==> good(x)
  {
    if n > 0 { ManyAll(n - 1, read, read(s).rest, good); }
  }

  lemma {:induction false} WriteManySnoc<T>(xs: seq<T>, x: T, write: T -> Octets)
    ensures WriteMany(xs + [x], write) == WriteMany(xs, write) + write(x)
  {
    if xs == [] {
      assert xs + [x] == [x] && [x][1..] == [];
    } else {
      WriteManySnoc(xs[1..], x, write);
      assert (xs + [x])[1..] == xs[1..] + [x];
      Assoc(write(xs[0]), WriteMany(xs[1..], write), write(x));
    }
  }

  function WriteCounted<T>(xs: seq<T>, write: T -> Octets): Octets { VarInt(|xs|) + WriteMany(xs, write) }

  function ReadCounted<T>(max: nat, read: Octets -> Parse<T>, s: Octets): Parse<seq<T>> {
    match ReadVarInt(s)
    case Fail(e) => Fail(e)
    case Got(n, rest) => if n > max then Fail(TooLarge) else ReadMany(n, read, rest)
  }

  lemma CountedBack<T(!new)>(max: nat, xs: seq<T>, read: Octets -> Parse<T>, write: T -> Octets,
                             dom: T -> bool, rest: Octets)
    requires Undoes(read, write, dom)
    requires forall x :: x in xs ==> dom(x)
    requires |xs| <= max < TWO64
    ensures ReadCounted(max, read, WriteCounted(xs, write) + rest) == Got(xs, rest)
  {
    hide VarInt, ReadVarInt, Undoes;
    Assoc(VarInt(|xs|), WriteMany(xs, write), rest);
    VarIntBack(|xs|, WriteMany(xs, write) + rest);
    ManyBack(xs, read, write, dom, rest);
  }

  lemma CountedWhole<T>(max: nat, read: Octets -> Parse<T>, write: T -> Octets, s: Octets)
    requires Faithful(read, write)
    requires ReadCounted(max, read, s).Got?
    ensures s == WriteCounted(ReadCounted(max, read, s).value, write) + ReadCounted(max, read, s).rest
    ensures |ReadCounted(max, read, s).value| <= max
  {
    hide VarInt, ReadVarInt, Faithful;
    VarIntWhole(s);
    var n := ReadVarInt(s);
    ManyWhole(n.value, read, write, n.rest);
    var xs := ReadMany(n.value, read, n.rest);
    Assoc(VarInt(n.value), WriteMany(xs.value, write), xs.rest);
  }

  // ----- inputs, outputs, witnesses

  function U32(v: int): nat { v % TWO32 }
  function S32(u: nat): int { if u >= TWO32 / 2 then u - TWO32 else u }
  function U64(v: int): nat { v % TWO64 }
  function S64(u: nat): int { if u >= TWO64 / 2 then u - TWO64 else u }

  predicate FitsIn(ti: TxIn) {
    && |ti.prev.hash| == 32 && ti.prev.index < TWO32 && ti.sequence < TWO32
    && |ti.sigScript| <= MAX_MESSAGE_PAYLOAD
  }

  predicate FitsWitness(wit: seq<Octets>) {
    |wit| <= MAX_WITNESS_ITEMS && forall w :: w in wit ==> |w| <= MAX_WITNESS_ITEM_SIZE
  }

  predicate FitsOut(to: TxOut) {
    && -(TWO64 as int / 2) <= to.value < TWO64 / 2
    && |to.pkScript| <= MAX_MESSAGE_PAYLOAD
  }

  /** writeTxIn: the witness is written elsewhere. */
  function WriteTxIn(ti: TxIn): Octets {
    ti.prev.hash + (LE(ti.prev.index, 4) + (VarBytes(ti.sigScript) + LE(ti.sequence, 4)))
  }

  /** readTxIn. */
  function ReadTxIn(s: Octets): Parse<TxIn> {
    match Take(32, s)
    case Fail(e) => Fail(e)
    case Got(hash, s1) =>
      match ReadUint(4, s1)
      case Fail(e) => Fail(e)
      case Got(index, s2) =>
        match ReadVarBytes(MAX_MESSAGE_PAYLOAD, s2)
        case Fail(e) => Fail(e)
        case Got(script, s3) =>
          match ReadUint(4, s3)
          case Fail(e) => Fail(e)
          case Got(sequence, s4) => Got(TxIn(OutPoint(hash, index), script, [], sequence), s4)
  }

  function WriteTxOut(to: TxOut): Octets { LE(U64(to.value), 8) + VarBytes(to.pkScript) }

  function ReadTxOut(s: Octets): Parse<TxOut> {
    match ReadUint(8, s)
    case Fail(e) => Fail(e)
    case Got(v, s1) =>
      match ReadVarBytes(MAX_MESSAGE_PAYLOAD, s1)
      case Fail(e) => Fail(e)
      case Got(script, s2) => Got(TxOut(S64(v), script), s2)
  }

  function ReadItem(s: Octets): Parse<Octets> { ReadVarBytes(MAX_WITNESS_ITEM_SIZE, s) }

  /** writeTxWitness. */
  function WriteWitness(wit: seq<Octets>): Octets { WriteCounted(wit, VarBytes) }

  function ReadWitness(s: Octets): Parse<seq<Octets>> { ReadCounted(MAX_WITNESS_ITEMS, ReadItem, s) }

  lemma TxInBack(ti: TxIn, rest: Octets)
    requires FitsIn(ti) && ti.wit == []
    ensures ReadTxIn(WriteTxIn(ti) + rest) == Got(ti, rest)
  {
    PowValues();
    var a, b, c, d := ti.prev.hash, LE(ti.prev.index, 4), VarBytes(ti.sigScript), LE(ti.sequence, 4);
    hide VarBytes, ReadVarBytes, LE, ReadUint, Take;
    Nest4(a, b, c, d, rest);
    TakeBack(a, b + (c + (d + rest)));
    UintBack(ti.prev.index, 4, c + (d + rest));
    VarBytesBack(MAX_MESSAGE_PAYLOAD, ti.sigScript, d + rest);
    UintBack(ti.sequence, 4, rest);
  }

  lemma Nest4(a: Octets, b: Octets, c: Octets, d: Octets, rest: Octets)
    ensures (a + (b + (c + d))) + rest == a + (b + (c + (d + rest)))
  {
    Assoc(a, b + (c + d), rest);
    Assoc(b, c + d, rest);
    Assoc(c, d, rest);
  }

  lemma TxInWhole(s: Octets)
    requires ReadTxIn(s).Got?
    ensures s == WriteTxIn(ReadTxIn(s).value) + ReadTxIn(s).rest
    ensures FitsIn(ReadTxIn(s).value) && ReadTxIn(s).value.wit == []
  {
    PowValues();
    hide VarBytes, ReadVarBytes, LE, ReadUint, Take;
    TakeWhole(32, s);
    var h := Take(32, s);
    UintWhole(4, h.rest);
    var i := ReadUint(4, h.rest);
    VarBytesWhole(MAX_MESSAGE_PAYLOAD, i.rest);
    var sc := ReadVarBytes(MAX_MESSAGE_PAYLOAD, i.rest);
    UintWhole(4, sc.rest);
    var q := ReadUint(4, sc.rest);
    Nest4(h.value, LE(i.value, 4), VarBytes(sc.value), LE(q.value, 4), q.rest);
  }

  lemma TxOutBack(to: TxOut, rest: Octets)
    requires FitsOut(to)
    ensures ReadTxOut(WriteTxOut(to) + rest) == Got(to, rest)
  {
    PowValues();
    hide VarBytes, ReadVarBytes, LE, ReadUint;
    Assoc(LE(U64(to.value), 8), VarBytes(to.pkScript), rest);
    UintBack(U64(to.value), 8, VarBytes(to.pkScript) + rest);
    VarBytesBack(MAX_MESSAGE_PAYLOAD, to.pkScript, rest);
  }

  lemma TxOutWhole(s: Octets)
    requires ReadTxOut(s).Got?
    ensures s == WriteTxOut(ReadTxOut(s).value) + ReadTxOut(s).rest
    ensures FitsOut(ReadTxOut(s).value)
  {
    PowValues();
    hide VarBytes, ReadVarBytes, LE, ReadUint;
    UintWhole(8, s);
    var v := ReadUint(8, s);
    assert U64(S64(v.value)) == v.value;
    VarBytesWhole(MAX_MESSAGE_PAYLOAD, v.rest);
    var sc := ReadVarBytes(MAX_MESSAGE_PAYLOAD, v.rest);
    Assoc(LE(v.value, 8), VarBytes(sc.value), sc.rest);
  }

  lemma ElementsUndo()
    ensures Undoes(ReadTxIn, WriteTxIn, (ti: TxIn) => FitsIn(ti) && ti.wit == [])
    ensures Undoes(ReadTxOut, WriteTxOut, FitsOut)
    ensures Undoes(ReadItem, VarBytes, (w: Octets) => |w| <= MAX_WITNESS_ITEM_SIZE)
  {
    hide ReadTxIn, WriteTxIn, ReadTxOut, WriteTxOut, VarBytes, ReadVarBytes;
    forall ti: TxIn, rest | FitsIn(ti) && ti.wit == []
      ensures ReadTxIn(WriteTxIn(ti) + rest) == Got(ti, rest)
    { TxInBack(ti, rest); }
    forall to: TxOut, rest | FitsOut(to)
      ensures ReadTxOut(WriteTxOut(to) + rest) == Got(to, rest)
    { TxOutBack(to, rest); }
    forall w: Octets, rest | |w| <= MAX_WITNESS_ITEM_SIZE
      ensures ReadItem(VarBytes(w) + rest) == Got(w, rest)
    { VarBytesBack(MAX_WITNESS_ITEM_SIZE, w, rest); }
  }

  lemma ElementsFaithful()
    ensures Faithful(ReadTxIn, WriteTxIn)
    ensures Faithful(ReadTxOut, WriteTxOut)
    ensures Faithful(ReadItem, VarBytes)
  {
    hide ReadTxIn, WriteTxIn, ReadTxOut, WriteTxOut, VarBytes, ReadVarBytes;
    forall s: Octets | ReadTxIn(s).Got? ensures s == WriteTxIn(ReadTxIn(s).value) + ReadTxIn(s).rest
    { TxInWhole(s); }
    forall s: Octets | ReadTxOut(s).Got? ensures s == WriteTxOut(ReadTxOut(s).value) + ReadTxOut(s).rest
    { TxOutWhole(s); }
    forall s: Octets | ReadItem(s).Got? ensures s == VarBytes(ReadItem(s).value) + ReadItem(s).rest
    { VarBytesWhole(MAX_WITNESS_ITEM_SIZE, s); }
  }

  lemma WitnessUndo()
    ensures Undoes(ReadWitness, WriteWitness, FitsWitness)
  {
    hide ReadCounted, WriteCounted;
    ElementsUndo();
    forall wit: seq<Octets>, rest | FitsWitness(wit)
      ensures ReadWitness(WriteWitness(wit) + rest) == Got(wit, rest)
    {
      CountedBack(MAX_WITNESS_ITEMS, wit, ReadItem, VarBytes, (w: Octets) => |w| <= MAX_WITNESS_ITEM_SIZE, rest);
    }
  }

  lemma WitnessFaithful()
    ensures Faithful(ReadWitness, WriteWitness)
  {
    hide ReadCounted, WriteCounted;
    ElementsFaithful();
    forall s: Octets | ReadWitness(s).Got? ensures s == WriteWitness(ReadWitness(s).value) + ReadWitness(s).rest
    {
      CountedWhole(MAX_WITNESS_ITEMS, ReadItem, VarBytes, s);
    }
  }
}
