/** ThtEncode, ThtDecode and the size functions on whole transactions (wire/msgtx.go). */
module TxCodec {
  import opened Bytes
  import opened Wire

  predicate HasWitness(tx: MsgTx) { exists ti :: ti in tx.txIn && ti.wit != [] }

  function Bare(ti: TxIn): TxIn { ti.(wit := []) }
  function BareAll(ins: seq<TxIn>): (r: seq<TxIn>)
    ensures |r| == |ins| && forall i :: 0 <= i < |ins| ==> r[i] == Bare(ins[i])
  {
    seq(|ins|, i requires 0 <= i < |ins| => Bare(ins[i]))
  }

  function Witnesses(ins: seq<TxIn>): (r: seq<seq<Octets>>)
    ensures |r| == |ins| && forall i :: 0 <= i < |ins| ==> r[i] == ins[i].wit
  {
    seq(|ins|, i requires 0 <= i < |ins| => ins[i].wit)
  }

  function Attach(ins: seq<TxIn>, wits: seq<seq<Octets>>): (r: seq<TxIn>)
    requires |ins| == |wits|
    ensures |r| == |ins| && forall i :: 0 <= i < |ins| ==> r[i] == ins[i].(wit := wits[i])
  {
    seq(|ins|, i requires 0 <= i < |ins| => ins[i].(wit := wits[i]))
  }

  /** The transaction without its witnesses. */
  function Stripped(tx: MsgTx): MsgTx { tx.(txIn := BareAll(tx.txIn)) }

  /** Field widths and the count and size limits that ThtDecode enforces. */
  predicate Fits(tx: MsgTx) {
    && -(TWO32 as int / 2) <= tx.version < TWO32 / 2 && tx.lockTime < TWO32
    && |tx.txIn| <= MAX_TX_IN && |tx.txOut| <= MAX_TX_OUT
    && (forall ti :: ti in tx.txIn ==> FitsIn(ti) && FitsWitness(ti.wit))
    && (forall to :: to in tx.txOut ==> FitsOut(to))
  }

  // ----- encoding

  function FlagBytes(flagged: bool): Octets { if flagged then [0x00, 0x01] else [] }

  function WitnessBytes(ins: seq<TxIn>, flagged: bool): Octets {
    if flagged then WriteMany(Witnesses(ins), WriteWitness) else []
  }

  /** The wire bytes of tx, with or without the marker, flag and witnesses of BIP 144. */
  function RawTx(tx: MsgTx, flagged: bool): Octets {
    LE(U32(tx.version), 4) + (FlagBytes(flagged) + AfterFlag(tx, flagged))
  }

  function AfterFlag(tx: MsgTx, flagged: bool): Octets {
    WriteCounted(BareAll(tx.txIn), WriteTxIn)
    + (WriteCounted(tx.txOut, WriteTxOut) + (WitnessBytes(tx.txIn, flagged) + LE(tx.lockTime, 4)))
  }

  /** ThtEncode. */
  function Encode(tx: MsgTx, enc: Encoding): Octets { RawTx(tx, enc == WitnessEncoding && HasWitness(tx)) }

  // ----- decoding

  /** A zero count under WitnessEncoding is the marker, and the next byte must be the witness flag. */
  function ReadFlag(enc: Encoding, s: Octets): Parse<bool> {
    if enc == WitnessEncoding && s != [] && s[0] == 0 then
      if |s| == 1 then Fail(UnexpectedEof)
      else if s[1] != 1 then Fail(BadFlag)
      else Got(true, s[2..])
    else Got(false, s)
  }

  function ReadWitnesses(flagged: bool, n: nat, s: Octets): Parse<seq<seq<Octets>>> {
    if flagged then ReadMany(n, ReadWitness, s) else Got(seq(n, i => []), s)
  }

  lemma WitnessCount(flagged: bool, n: nat, s: Octets)
    requires ReadWitnesses(flagged, n, s).Got?
    ensures |ReadWitnesses(flagged, n, s).value| == n
  {
    if flagged {
      WitnessFaithful();
      ManyWhole(n, ReadWitness, WriteWitness, s);
    }
  }

  /** The part of ThtDecode after the flag. */
  function ReadAfterFlag(version: int, flagged: bool, s: Octets): Parse<MsgTx> {
    match ReadCounted(MAX_TX_IN, ReadTxIn, s)
    case Fail(e) => Fail(e)
    case Got(ins, s1) =>
      match ReadCounted(MAX_TX_OUT, ReadTxOut, s1)
      case Fail(e) => Fail(e)
      case Got(outs, s2) =>
        match ReadWitnesses(flagged, |ins|, s2)
        case Fail(e) => Fail(e)
        case Got(wits, s3) =>
          WitnessCount(flagged, |ins|, s2);
          match ReadUint(4, s3)
          case Fail(e) => Fail(e)
          case Got(lockTime, s4) => Got(MsgTx(version, Attach(ins, wits), outs, lockTime), s4)
  }

  /** ThtDecode as a function of the bytes. */
  function Decode(enc: Encoding, s: Octets): Parse<MsgTx> {
    match ReadUint(4, s)
    case Fail(e) => Fail(e)
    case Got(version, s1) =>
      match ReadFlag(enc, s1)
      case Fail(e) => Fail(e)
      case Got(flagged, s2) => ReadAfterFlag(S32(version), flagged, s2)
  }

  // ----- decode undoes encode

  lemma AttachBack(ins: seq<TxIn>)
    ensures Attach(BareAll(ins), Witnesses(ins)) == ins
  {
  }

  lemma WitnessesBack(ins: seq<TxIn>, flagged: bool, rest: Octets)
    requires forall ti :: ti in ins ==> FitsWitness(ti.wit)
    ensures ReadWitnesses(flagged, |ins|, WitnessBytes(ins, flagged) + rest) ==
            Got(if flagged then Witnesses(ins) else seq(|ins|, i => []), rest)
  {
    if flagged {
      WitnessUndo();
      hide ReadWitness, WriteWitness, Undoes, FitsWitness;
      ManyBack(Witnesses(ins), ReadWitness, WriteWitness, FitsWitness, rest);
    } else {
      assert WitnessBytes(ins, flagged) + rest == rest;
    }
  }

  lemma AfterFlagBack(tx: MsgTx, flagged: bool, rest: Octets)
    requires Fits(tx)
    ensures ReadAfterFlag(tx.version, flagged, AfterFlag(tx, flagged) + rest) ==
            Got(if flagged then tx else Stripped(tx), rest)
  {
    var ins, outs := BareAll(tx.txIn), tx.txOut;
    var a, b, c, d := WriteCounted(ins, WriteTxIn), WriteCounted(outs, WriteTxOut),
                      WitnessBytes(tx.txIn, flagged), LE(tx.lockTime, 4);
    ElementsUndo();
    PowValues();
    hide ReadCounted, WriteCounted, ReadUint, ReadWitnesses, WitnessBytes, LE, Undoes, FitsWitness;
    Nest4(a, b, c, d, rest);
    CountedBack(MAX_TX_IN, ins, ReadTxIn, WriteTxIn, (ti: TxIn) => FitsIn(ti) && ti.wit == [],
                b + (c + (d + rest)));
    CountedBack(MAX_TX_OUT, outs, ReadTxOut, WriteTxOut, FitsOut, c + (d + rest));
    WitnessesBack(tx.txIn, flagged, d + rest);
    UintBack(tx.lockTime, 4, rest);
    if flagged {
      AttachBack(tx.txIn);
    } else {
      assert Attach(ins, seq(|ins|, i => [])) == ins;
    }
  }

  lemma VarIntMarker(n: nat)
    requires n > 0
    ensures VarInt(n)[0] != 0
  {
  }

  lemma FlagBack(tx: MsgTx, enc: Encoding, flagged: bool, rest: Octets)
    requires flagged ==> enc == WitnessEncoding
    requires enc == WitnessEncoding ==> tx.txIn != []
    ensures var s := AfterFlag(tx, flagged) + rest;
            ReadFlag(enc, FlagBytes(flagged) + s) == Got(flagged, s)
  {
    var s := AfterFlag(tx, flagged) + rest;
    if flagged {
      assert (FlagBytes(flagged) + s)[2..] == s;
    } else {
      assert FlagBytes(flagged) + s == s;
      if enc == WitnessEncoding {
        VarIntMarker(|tx.txIn|);
        assert s[0] == VarInt(|tx.txIn|)[0];
      }
    }
  }

  lemma RawBack(tx: MsgTx, enc: Encoding, flagged: bool, rest: Octets)
    requires Fits(tx)
    requires flagged ==> enc == WitnessEncoding
    requires enc == WitnessEncoding ==> tx.txIn != []
    ensures Decode(enc, RawTx(tx, flagged) + rest) == Got(if flagged then tx else Stripped(tx), rest)
  {
    PowValues();
    var v, f, a := LE(U32(tx.version), 4), FlagBytes(flagged), AfterFlag(tx, flagged);
    assert S32(U32(tx.version)) == tx.version;
    hide AfterFlag, ReadAfterFlag, ReadFlag, FlagBytes, LE, ReadUint;
    Assoc(v, f + a, rest);
    Assoc(f, a, rest);
    UintBack(U32(tx.version), 4, f + (a + rest));
    FlagBack(tx, enc, flagged, rest);
    AfterFlagBack(tx, flagged, rest);
  }

  lemma StrippedNoWitness(tx: MsgTx)
    requires !HasWitness(tx)
    ensures Stripped(tx) == tx
  {
    forall i | 0 <= i < |tx.txIn| ensures Bare(tx.txIn[i]) == tx.txIn[i] {
      assert tx.txIn[i] in tx.txIn;
    }
    assert BareAll(tx.txIn) == tx.txIn;
  }

  /** Decoding undoes encoding and leaves what follows; BaseEncoding drops the witnesses. */
  lemma DecodeEncode(tx: MsgTx, enc: Encoding, rest: Octets)
    requires Fits(tx)
    requires enc == WitnessEncoding ==> tx.txIn != []
    ensures Decode(enc, Encode(tx, enc) + rest) ==
            Got(if enc == BaseEncoding then Stripped(tx) else tx, rest)
  {
    RawBack(tx, enc, enc == WitnessEncoding && HasWitness(tx), rest);
    if !HasWitness(tx) { StrippedNoWitness(tx); }
  }

  // ----- encode undoes decode

  lemma AfterFlagWhole(version: int, flagged: bool, s: Octets)
    requires ReadAfterFlag(version, flagged, s).Got?
    ensures var r := ReadAfterFlag(version, flagged, s);
            && s == AfterFlag(r.value, flagged) + r.rest && r.value.version == version
            && (!flagged ==> !HasWitness(r.value))
  {
    ElementsFaithful();
    WitnessFaithful();
    hide ReadCounted, WriteCounted, ReadUint, LE, Faithful, ReadWitness, WriteWitness;
    var ins := ReadCounted(MAX_TX_IN, ReadTxIn, s);
    CountedWhole(MAX_TX_IN, ReadTxIn, WriteTxIn, s);
    var outs := ReadCounted(MAX_TX_OUT, ReadTxOut, ins.rest);
    CountedWhole(MAX_TX_OUT, ReadTxOut, WriteTxOut, ins.rest);
    var wits := ReadWitnesses(flagged, |ins.value|, outs.rest);
    if flagged { ManyWhole(|ins.value|, ReadWitness, WriteWitness, outs.rest); }
    UintWhole(4, wits.rest);
    var lock := ReadUint(4, wits.rest);
    var tx := ReadAfterFlag(version, flagged, s).value;
    InsHaveNoWitness(s);
    assert BareAll(tx.txIn) == ins.value;
    assert Witnesses(tx.txIn) == wits.value;
    Nest4(WriteCounted(ins.value, WriteTxIn), WriteCounted(outs.value, WriteTxOut),
          WitnessBytes(tx.txIn, flagged), LE(lock.value, 4), lock.rest);
  }

  lemma InsHaveNoWitness(s: Octets)
    requires ReadCounted(MAX_TX_IN, ReadTxIn, s).Got?
    ensures forall ti :: ti in ReadCounted(MAX_TX_IN, ReadTxIn, s).value ==> ti.wit == []
  {
    forall s: Octets | ReadTxIn(s).Got? ensures ReadTxIn(s).value.wit == [] { TxInWhole(s); }
    hide ReadTxIn;
    ManyAll(ReadVarInt(s).value, ReadTxIn, ReadVarInt(s).rest, (ti: TxIn) => ti.wit == []);
  }

  /** Whether the input starts with the witness marker after its version. */
  predicate Flagged(enc: Encoding, s: Octets) {
    && ReadUint(4, s).Got?
    && var f := ReadFlag(enc, ReadUint(4, s).rest);
    f.Got? && f.value
  }

  lemma FlagWhole(enc: Encoding, s: Octets)
    requires ReadFlag(enc, s).Got?
    ensures s == FlagBytes(ReadFlag(enc, s).value) + ReadFlag(enc, s).rest
  {
  }

  /** Any accepted input is the raw form of the transaction it decodes to, followed by the rest. */
  lemma DecodeWhole(enc: Encoding, s: Octets)
    requires Decode(enc, s).Got?
    ensures s == RawTx(Decode(enc, s).value, Flagged(enc, s)) + Decode(enc, s).rest
    ensures !Flagged(enc, s) ==> !HasWitness(Decode(enc, s).value)
  {
    PowValues();
    var v := ReadUint(4, s);
    var f := ReadFlag(enc, v.rest);
    var r := ReadAfterFlag(S32(v.value), f.value, f.rest);
    assert Flagged(enc, s) == f.value && Decode(enc, s) == r;
    hide *;
    UintWhole(4, s);
    FlagWhole(enc, v.rest);
    AfterFlagWhole(S32(v.value), f.value, f.rest);
    VersionBits(v.value);
    Glue(s, LE(v.value, 4), FlagBytes(f.value), AfterFlag(r.value, f.value), r.rest, v.rest, f.rest);
    RawTxIs(r.value, f.value);
  }

  lemma RawTxIs(tx: MsgTx, flagged: bool)
    ensures RawTx(tx, flagged) == LE(U32(tx.version), 4) + (FlagBytes(flagged) + AfterFlag(tx, flagged))
  {
  }

  lemma VersionBits(u: nat)
    requires u < Pow256(4)
    ensures U32(S32(u)) == u
  {
    PowValues();
  }

  lemma Glue(s: Octets, a: Octets, b: Octets, c: Octets, d: Octets, s1: Octets, s2: Octets)
    requires s == a + s1 && s1 == b + s2 && s2 == c + d
    ensures s == (a + (b + c)) + d
  {
    Assoc(b, c, d);
    Assoc(a, b + c, d);
  }

  /** Under BaseEncoding re-encoding any accepted input gives back exactly the consumed bytes. */
  lemma EncodeDecodeBase(s: Octets)
    requires Decode(BaseEncoding, s).Got?
    ensures s == Encode(Decode(BaseEncoding, s).value, BaseEncoding) + Decode(BaseEncoding, s).rest
  {
    DecodeWhole(BaseEncoding, s);
  }

  /** Under WitnessEncoding that holds unless the marker announces witnesses that are all empty. */
  lemma EncodeDecodeWitness(s: Octets)
    requires Decode(WitnessEncoding, s).Got?
    ensures var r := Decode(WitnessEncoding, s);
            s == Encode(r.value, WitnessEncoding) + r.rest
            <==> (Flagged(WitnessEncoding, s) ==> HasWitness(r.value))
  {
    DecodeWhole(WitnessEncoding, s);
    var r := Decode(WitnessEncoding, s);
    if Flagged(WitnessEncoding, s) && !HasWitness(r.value) {
      FlagGrows(r.value);
    }
  }

  /** No inputs, no outputs, a witness marker. */
  function EmptyMarked(): Octets { [1, 0, 0, 0, 0, 1, 0, 0, 0, 0, 0, 0] }

  /** An input that is accepted and not reproduced: the marker announces witnesses and there are none. */
  lemma EmptyWitnessesNotReproduced()
    ensures var r := Decode(WitnessEncoding, EmptyMarked());
            r == Got(MsgTx(1, [], [], 0), []) && EmptyMarked() != Encode(r.value, WitnessEncoding) + r.rest
  {
    var s := EmptyMarked();
    EmptyMarkedParts();
    assert Decode(WitnessEncoding, s) == ReadAfterFlag(1, true, s[6..]);
    hide ReadAfterFlag, ReadUint, ReadFlag, Encode;
    EncodeDecodeWitness(s);
  }

  lemma EmptyMarkedParts()
    ensures var s := EmptyMarked();
            && ReadUint(4, s) == Got(1, s[4..]) && ReadFlag(WitnessEncoding, s[4..]) == Got(true, s[6..])
            && ReadAfterFlag(1, true, s[6..]) == Got(MsgTx(1, [], [], 0), [])
  {
    var s := EmptyMarked();
    assert s[..4] == [1, 0, 0, 0];
    EmptyFourBytes();
    EmptyBody();
    assert s[6..] == [0, 0, 0, 0, 0, 0] && s[4..][2..] == s[6..];
  }

  lemma EmptyFourBytes()
    ensures FromLE([1, 0, 0, 0]) == 1 && FromLE([0, 0, 0, 0]) == 0
  {
    var z: Octets := [0, 0, 0, 0];
    assert z[1..] == [0, 0, 0] && z[2..] == [0, 0] && z[3..] == [0];
    assert FromLE([0]) == 0 && FromLE([0, 0]) == 0 && FromLE([0, 0, 0]) == 0;
    var o: Octets := [1, 0, 0, 0];
    assert o[1..] == [0, 0, 0];
  }

  lemma EmptyBody()
    ensures ReadAfterFlag(1, true, [0, 0, 0, 0, 0, 0]) == Got(MsgTx(1, [], [], 0), [])
  {
    var b: Octets := [0, 0, 0, 0, 0, 0];
    EmptyFourBytes();
    hide FromLE;
    assert ReadCounted(MAX_TX_IN, ReadTxIn, b) == Got([], b[1..]);
    assert ReadCounted(MAX_TX_OUT, ReadTxOut, b[1..]) == Got([], b[2..]);
    assert b[2..] == [0, 0, 0, 0] && ReadUint(4, b[2..]) == Got(0, []);
  }

  /** And a whole family: any transaction with inputs and no witness, sent with the marker. */
  lemma MarkedWithoutWitness(tx: MsgTx, rest: Octets)
    requires Fits(tx) && tx.txIn != [] && !HasWitness(tx)
    ensures Decode(WitnessEncoding, RawTx(tx, true) + rest) == Got(tx, rest)
    ensures RawTx(tx, true) + rest != Encode(tx, WitnessEncoding) + rest
  {
    RawBack(tx, WitnessEncoding, true, rest);
    FlagGrows(tx);
  }

  lemma FlagGrows(tx: MsgTx)
    ensures |RawTx(tx, true)| >= |RawTx(tx, false)| + 2
  {
  }

  /**
   * Without inputs the count byte is read as the marker: the witness-encoded form of such a
   * transaction never decodes back to it.
   */
  lemma NoInputsNoRoundTrip(tx: MsgTx, rest: Octets)
    requires Fits(tx)
    ensures Decode(WitnessEncoding, Encode(tx, WitnessEncoding) + rest) == Got(tx, rest) <==> tx.txIn != []
  {
    if tx.txIn != [] {
      DecodeEncode(tx, WitnessEncoding, rest);
    } else {
      var s := Encode(tx, WitnessEncoding) + rest;
      assert !HasWitness(tx);
      if Decode(WitnessEncoding, s) == Got(tx, rest) {
        DecodeWhole(WitnessEncoding, s);
        MarkerSeen(tx, rest);
        FlagGrows(tx);
        assert false;
      }
    }
  }

  lemma MarkerSeen(tx: MsgTx, rest: Octets)
    requires tx.txIn == []
    requires Decode(WitnessEncoding, RawTx(tx, false) + rest).Got?
    ensures Flagged(WitnessEncoding, RawTx(tx, false) + rest)
  {
    PowValues();
    var v, a := LE(U32(tx.version), 4), AfterFlag(tx, false);
    assert a[0] == VarInt(0)[0] == 0;
    assert FlagBytes(false) + a == a;
    hide AfterFlag, ReadAfterFlag, LE, ReadUint;
    Assoc(v, a, rest);
    UintBack(U32(tx.version), 4, a + rest);
  }

  // ----- the loops of ThtEncode and of the size functions

  lemma InBytes(ti: TxIn)
    ensures WriteTxIn(Bare(ti)) == WriteTxIn(ti)
    ensures |ti.prev.hash| == 32 ==> |WriteTxIn(ti)| == 40 + VarIntSize(|ti.sigScript|) + |ti.sigScript|
  {
  }

  /** The loop of WriteTxIns, WriteTxOuts and writeTxWitness: one element after another. */
  method WriteAll<T>(w0: Octets, xs: seq<T>, write: T -> Octets) returns (w: Octets)
    ensures w == w0 + WriteMany(xs, write)
  {
    w := w0;
    for i := 0 to |xs|
      invariant w == w0 + WriteMany(xs[..i], write)
    {
      w := w + write(xs[i]);
      assert xs[..i + 1] == xs[..i] + [xs[i]];
      WriteManySnoc(xs[..i], xs[i], write);
      Assoc(w0, WriteMany(xs[..i], write), write(xs[i]));
    }
    assert xs[..|xs|] == xs;
  }

  lemma {:induction false} WriteBare(ins: seq<TxIn>)
    ensures WriteMany(BareAll(ins), WriteTxIn) == WriteMany(ins, WriteTxIn)
  {
    if ins != [] {
      WriteBare(ins[1..]);
      assert BareAll(ins)[1..] == BareAll(ins[1..]);
      InBytes(ins[0]);
    }
  }

  method AnyWitness(tx: MsgTx) returns (r: bool)
    ensures r == HasWitness(tx)
  {
    for i := 0 to |tx.txIn|
      invariant forall j :: 0 <= j < i ==> tx.txIn[j].wit == []
    {
      if |tx.txIn[i].wit| != 0 {
        assert tx.txIn[i] in tx.txIn;
        return true;
      }
    }
    return false;
  }

  /** ThtEncode, appending to the writer field by field. */
  method ThtEncode(tx: MsgTx, enc: Encoding) returns (w: Octets)
    ensures w == Encode(tx, enc)
  {
    var any := AnyWitness(tx);
    var doWitness := enc == WitnessEncoding && any;
    var a := LE(U32(tx.version), 4);
    w := a;
    if doWitness { w := w + [0x00, 0x01]; }
    ghost var b := FlagBytes(doWitness);
    assert w == a + b;
    hide *;
    w := w + VarInt(|tx.txIn|);
    w := WriteAll(w, tx.txIn, WriteTxIn);
    w := w + VarInt(|tx.txOut|);
    w := WriteAll(w, tx.txOut, WriteTxOut);
    if doWitness { w := WriteAll(w, Witnesses(tx.txIn), WriteWitness); }
    w := w + LE(tx.lockTime, 4);
    EncodedParts(tx, enc, doWitness, a, b);
  }

  lemma EncodedParts(tx: MsgTx, enc: Encoding, doWitness: bool, a: Octets, b: Octets)
    requires doWitness == (enc == WitnessEncoding && HasWitness(tx))
    requires a == LE(U32(tx.version), 4) && b == FlagBytes(doWitness)
    ensures var w := ((((a + b) + VarInt(|tx.txIn|)) + WriteMany(tx.txIn, WriteTxIn))
                     + VarInt(|tx.txOut|)) + WriteMany(tx.txOut, WriteTxOut);
            Encode(tx, enc) == (if doWitness then w + WriteMany(Witnesses(tx.txIn), WriteWitness) else w)
                               + LE(tx.lockTime, 4)
  {
    WriteBare(tx.txIn);
    var i, ins := VarInt(|tx.txIn|), WriteMany(tx.txIn, WriteTxIn);
    var o, outs := VarInt(|tx.txOut|), WriteMany(tx.txOut, WriteTxOut);
    var wits, l := WitnessBytes(tx.txIn, doWitness), LE(tx.lockTime, 4);
    assert Encode(tx, enc) == a + (b + ((i + ins) + ((o + outs) + (wits + l))));
    assert doWitness ==> wits == WriteMany(Witnesses(tx.txIn), WriteWitness);
    assert !doWitness ==> wits == [];
    hide *;
    Flatten(a, b, i, ins, o, outs, wits, l);
    var w := ((((a + b) + i) + ins) + o) + outs;
    if !doWitness { assert w + [] == w; }
  }

  lemma Flatten(a: Octets, b: Octets, i: Octets, ins: Octets, o: Octets, outs: Octets, wits: Octets, l: Octets)
    ensures a + (b + ((i + ins) + ((o + outs) + (wits + l))))
            == ((((((a + b) + i) + ins) + o) + outs) + wits) + l
  {
    var t := (o + outs) + (wits + l);
    Assoc(a, b, (i + ins) + t);
    Assoc(a + b, i + ins, t);
    Assoc(a + b, i, ins);
    var p := ((a + b) + i) + ins;
    Assoc(p, o + outs, wits + l);
    Assoc(p, o, outs);
    Assoc((p + o) + outs, wits, l);
  }

  /** The summing loop of baseSize and SerializeSize. */
  method SizeAll<T>(n0: nat, xs: seq<T>, size: T -> nat, ghost write: T -> Octets) returns (n: nat)
    requires forall x :: x in xs ==> size(x) == |write(x)|
    ensures n == n0 + |WriteMany(xs, write)|
  {
    n := n0;
    for i := 0 to |xs|
      invariant n == n0 + |WriteMany(xs[..i], write)|
    {
      n := n + size(xs[i]);
      assert xs[..i + 1] == xs[..i] + [xs[i]];
      WriteManySnoc(xs[..i], xs[i], write);
    }
    assert xs[..|xs|] == xs;
  }

  function InSize(ti: TxIn): nat { 40 + VarIntSize(|ti.sigScript|) + |ti.sigScript| }
  function OutSize(to: TxOut): nat { 8 + VarIntSize(|to.pkScript|) + |to.pkScript| }
  function ItemSize(w: Octets): nat { VarIntSize(|w|) + |w| }

  /** SerializeSizeStripped: the length of the witness-free encoding. */
  method SerializeSizeStripped(tx: MsgTx) returns (n: nat)
    requires forall ti :: ti in tx.txIn ==> |ti.prev.hash| == 32
    ensures n == |Encode(tx, BaseEncoding)|
  {
    n := 8 + VarIntSize(|tx.txIn|) + VarIntSize(|tx.txOut|);
    forall ti | ti in tx.txIn ensures InSize(ti) == |WriteTxIn(ti)| { InBytes(ti); }
    n := SizeAll(n, tx.txIn, InSize, WriteTxIn);
    n := SizeAll(n, tx.txOut, OutSize, WriteTxOut);
    EncodedParts(tx, BaseEncoding, false, LE(U32(tx.version), 4), FlagBytes(false));
  }

  /** TxWitness.SerializeSize. */
  method WitnessSize(wit: seq<Octets>) returns (n: nat)
    ensures n == |WriteWitness(wit)|
  {
    n := SizeAll(VarIntSize(|wit|), wit, ItemSize, VarBytes);
  }

  lemma SnocWitness(ins: seq<TxIn>, i: nat)
    requires i < |ins|
    ensures |WriteMany(Witnesses(ins)[..i + 1], WriteWitness)| ==
            |WriteMany(Witnesses(ins)[..i], WriteWitness)| + |WriteWitness(ins[i].wit)|
  {
    var wits := Witnesses(ins);
    assert wits[..i + 1] == wits[..i] + [ins[i].wit];
    WriteManySnoc(wits[..i], ins[i].wit, WriteWitness);
  }

  /** Marker, flag and witnesses are all that the witness form adds. */
  lemma ExtraSize(tx: MsgTx)
    ensures |Encode(tx, WitnessEncoding)| == |Encode(tx, BaseEncoding)|
                + (if HasWitness(tx) then 2 + |WriteMany(Witnesses(tx.txIn), WriteWitness)| else 0)
    ensures |Witnesses(tx.txIn)| == |tx.txIn| && WriteMany(Witnesses(tx.txIn)[..0], WriteWitness) == []
  {
    hide WriteCounted, WriteMany, HasWitness;
    assert WriteMany(Witnesses(tx.txIn)[..0], WriteWitness) == [] by { NoWrites(Witnesses(tx.txIn)[..0]); }
  }

  lemma NoWrites(wits: seq<seq<Octets>>)
    requires wits == []
    ensures WriteMany(wits, WriteWitness) == []
  {
  }

  /** SerializeSize: the length of what Serialize writes. */
  method SerializeSize(tx: MsgTx) returns (n: nat)
    requires forall ti :: ti in tx.txIn ==> |ti.prev.hash| == 32
    ensures n == |Encode(tx, WitnessEncoding)|
  {
    n := SerializeSizeStripped(tx);
    ghost var base := n;
    var any := AnyWitness(tx);
    ghost var wits := Witnesses(tx.txIn);
    ExtraSize(tx);
    hide *;
    if any {
      n := n + 2;
      for i := 0 to |tx.txIn|
        invariant n == base + 2 + |WriteMany(wits[..i], WriteWitness)|
      {
        var k := WitnessSize(tx.txIn[i].wit);
        n := n + k;
        SnocWitness(tx.txIn, i);
      }
      assert wits[..|tx.txIn|] == wits;
    }
  }
}
