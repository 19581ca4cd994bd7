/** The wire format spelled out: its bytes, and exactly which sizes and counts are read back. */
module WireLimits {
  import opened Bytes
  import opened Wire
  import opened TxCodec

  // ----- bytes

  lemma {:induction false} DigitOf(n: nat, k: nat, i: nat)
    requires i < k
    ensures LE(n, k)[i] == n / Pow256(i) % 256
  {
    if i > 0 {
      DigitOf(n / 256, k - 1, i - 1);
      Divides(n, Pow256(i - 1));
    }
  }

  lemma Divides(n: nat, p: nat)
    requires p > 0
    ensures n / 256 / p == n / (256 * p)
  {
    var q := n / (256 * p);
    var r := n % (256 * p);
    assert n == (256 * p) * q + r;
    assert (256 * p) * q == 256 * (p * q);
    assert n / 256 == p * q + r / 256;
    Quotient(p, q, r / 256);
  }

  lemma Quotient(p: nat, q: nat, r: nat)
    requires p > 0 && r < p
    ensures (p * q + r) / p == q
  {
    var m := p * q + r;
    var k := m / p;
    assert m == p * k + m % p;
    if k < q { Grows(p, k, q); }
    if q < k { Grows(p, q, k); }
  }

  lemma Grows(p: nat, a: nat, b: nat)
    requires a < b
    ensures p * a + p <= p * b
  {
    assert p * b == p * a + p * (b - a);
    assert p * (b - a) == p + p * (b - a - 1);
  }

  /** The four forms of a count, least significant byte first. */
  lemma CountBytes(v: nat)
    ensures v < 253 ==> VarInt(v) == [v]
    ensures 253 <= v < 65536 ==> VarInt(v) == [253, v % 256, v / 256]
    ensures 65536 <= v < 0x1_0000_0000 ==>
              VarInt(v) == [254, v % 256, v / 256 % 256, v / 65536 % 256, v / 16777216 % 256]
    ensures 0x1_0000_0000 <= v < 0x1_0000_0000_0000_0000 ==>
              |VarInt(v)| == 9 && VarInt(v)[0] == 255 && FromLE(VarInt(v)[1..]) == v
  {
    hide LE, FromLE;
    Two(v);
    Four(v);
    PowValues();
    if v < 0x1_0000_0000_0000_0000 {
      FromLEofLE(v, 8);
      assert ([255] + LE(v, 8))[1..] == LE(v, 8);
    }
  }

  // ----- lists with elements that are refused

  /** read refuses what write makes of the values in bad. */
  ghost predicate Refuses<T(!new)>(read: Octets -> Parse<T>, write: T -> Octets, bad: T -> bool) {
    forall x: T, rest: Octets :: bad(x) ==> read(write(x) + rest) == Fail(TooLarge)
  }

  lemma {:induction false} ManyTotal<T(!new)>(xs: seq<T>, read: Octets -> Parse<T>, write: T -> Octets,
                                              good: T -> bool, bad: T -> bool, rest: Octets)
    requires Undoes(read, write, good) && Refuses(read, write, bad)
    requires forall x :: x in xs ==> good(x) || bad(x)
    ensures ReadMany(|xs|, read, WriteMany(xs, write) + rest) ==
            if forall x :: x in xs ==> good(x) then Got(xs, rest) else Fail(TooLarge)
  {
    if xs == [] {
      assert WriteMany(xs, write) + rest == rest;
    } else {
      var more := WriteMany(xs[1..], write);
      Assoc(write(xs[0]), more, rest);
      assert xs == [xs[0]] + xs[1..];
      if good(xs[0]) {
        assert read(write(xs[0]) + (more + rest)) == Got(xs[0], more + rest);
        ManyTotal(xs[1..], read, write, good, bad, rest);
      } else {
        assert bad(xs[0]);
        assert read(write(xs[0]) + (more + rest)) == Fail(TooLarge);
        assert read(write(xs[0]) + (more + rest)).Fail?;
      }
    }
  }

  lemma CountedTotal<T(!new)>(max: nat, xs: seq<T>, read: Octets -> Parse<T>, write: T -> Octets,
                              good: T -> bool, bad: T -> bool, rest: Octets)
    requires Undoes(read, write, good) && Refuses(read, write, bad) && |xs| < TWO64
    requires forall x :: x in xs ==> good(x) || bad(x)
    ensures ReadCounted(max, read, WriteCounted(xs, write) + rest) ==
            if |xs| <= max && forall x :: x in xs ==> good(x) then Got(xs, rest) else Fail(TooLarge)
  {
    hide VarInt, ReadVarInt, Undoes, Refuses;
    Assoc(VarInt(|xs|), WriteMany(xs, write), rest);
    VarIntBack(|xs|, WriteMany(xs, write) + rest);
    ManyTotal(xs, read, write, good, bad, rest);
  }

  // ----- scripts and witness items

  lemma BytesTotal(max: nat, b: Octets, rest: Octets)
    requires |b| < TWO64
    ensures ReadVarBytes(max, VarBytes(b) + rest) == if |b| <= max then Got(b, rest) else Fail(TooLarge)
  {
    hide VarInt, ReadVarInt;
    Assoc(VarInt(|b|), b, rest);
    VarIntBack(|b|, b + rest);
    TakeBack(b, rest);
  }

  /** Field widths that the format can carry at all. */
  predicate WideIn(ti: TxIn) {
    && |ti.prev.hash| == 32 && ti.prev.index < 0x1_0000_0000 && ti.sequence < 0x1_0000_0000
    && |ti.sigScript| < 0x1_0000_0000_0000_0000
  }

  predicate WideOut(to: TxOut) {
    && -0x8000_0000_0000_0000 <= to.value < 0x8000_0000_0000_0000
    && |to.pkScript| < 0x1_0000_0000_0000_0000
  }

  predicate GoodIn(ti: TxIn) { WideIn(ti) && ti.wit == [] && |ti.sigScript| <= 33554432 }
  predicate BadIn(ti: TxIn) { WideIn(ti) && |ti.sigScript| > 33554432 }
  predicate GoodOut(to: TxOut) { WideOut(to) && |to.pkScript| <= 33554432 }
  predicate BadOut(to: TxOut) { WideOut(to) && |to.pkScript| > 33554432 }
  predicate GoodItem(w: Octets) { |w| <= 11000 }
  predicate BadItem(w: Octets) { 11000 < |w| < 0x1_0000_0000_0000_0000 }

  lemma InTotal(ti: TxIn, rest: Octets)
    requires WideIn(ti)
    ensures BadIn(ti) ==> ReadTxIn(WriteTxIn(ti) + rest) == Fail(TooLarge)
    ensures GoodIn(ti) ==> ReadTxIn(WriteTxIn(ti) + rest) == Got(ti, rest)
  {
    if GoodIn(ti) { TxInBack(ti, rest); }
    if BadIn(ti) {
      PowValues();
      var a, b, c, d := ti.prev.hash, LE(ti.prev.index, 4), VarBytes(ti.sigScript), LE(ti.sequence, 4);
      hide VarBytes, ReadVarBytes, LE, ReadUint, Take;
      Nest4(a, b, c, d, rest);
      TakeBack(a, b + (c + (d + rest)));
      UintBack(ti.prev.index, 4, c + (d + rest));
      BytesTotal(33554432, ti.sigScript, d + rest);
    }
  }

  lemma OutTotal(to: TxOut, rest: Octets)
    requires WideOut(to)
    ensures BadOut(to) ==> ReadTxOut(WriteTxOut(to) + rest) == Fail(TooLarge)
    ensures GoodOut(to) ==> ReadTxOut(WriteTxOut(to) + rest) == Got(to, rest)
  {
    if GoodOut(to) { TxOutBack(to, rest); }
    if BadOut(to) {
      PowValues();
      hide VarBytes, ReadVarBytes, LE, ReadUint;
      Assoc(LE(U64(to.value), 8), VarBytes(to.pkScript), rest);
      UintBack(U64(to.value), 8, VarBytes(to.pkScript) + rest);
      BytesTotal(33554432, to.pkScript, rest);
    }
  }

  lemma PartsTotal()
    ensures Undoes(ReadTxIn, WriteTxIn, GoodIn) && Refuses(ReadTxIn, WriteTxIn, BadIn)
    ensures Undoes(ReadTxOut, WriteTxOut, GoodOut) && Refuses(ReadTxOut, WriteTxOut, BadOut)
    ensures Undoes(ReadItem, VarBytes, GoodItem) && Refuses(ReadItem, VarBytes, BadItem)
  {
    hide ReadTxIn, WriteTxIn, ReadTxOut, WriteTxOut, VarBytes, ReadVarBytes;
    forall ti: TxIn, rest | WideIn(ti)
      ensures BadIn(ti) ==> ReadTxIn(WriteTxIn(ti) + rest) == Fail(TooLarge)
      ensures GoodIn(ti) ==> ReadTxIn(WriteTxIn(ti) + rest) == Got(ti, rest)
    { InTotal(ti, rest); }
    forall to: TxOut, rest | WideOut(to)
      ensures BadOut(to) ==> ReadTxOut(WriteTxOut(to) + rest) == Fail(TooLarge)
      ensures GoodOut(to) ==> ReadTxOut(WriteTxOut(to) + rest) == Got(to, rest)
    { OutTotal(to, rest); }
    forall w: Octets, rest | |w| < 0x1_0000_0000_0000_0000
      ensures ReadItem(VarBytes(w) + rest) == if |w| <= 11000 then Got(w, rest) else Fail(TooLarge)
    { BytesTotal(11000, w, rest); }
  }

  // ----- witnesses

  predicate WideWitness(wit: seq<Octets>) {
    |wit| < 0x1_0000_0000_0000_0000 && forall w :: w in wit ==> |w| < 0x1_0000_0000_0000_0000
  }

  predicate GoodWitness(wit: seq<Octets>) { |wit| <= 500000 && forall w :: w in wit ==> |w| <= 11000 }
  predicate BadWitness(wit: seq<Octets>) { WideWitness(wit) && !GoodWitness(wit) }

  lemma WitnessTotal()
    ensures Undoes(ReadWitness, WriteWitness, GoodWitness) && Refuses(ReadWitness, WriteWitness, BadWitness)
  {
    hide ReadCounted, WriteCounted, Undoes, Refuses;
    PartsTotal();
    forall wit: seq<Octets>, rest | WideWitness(wit)
      ensures ReadWitness(WriteWitness(wit) + rest) == if GoodWitness(wit) then Got(wit, rest) else Fail(TooLarge)
    {
      CountedTotal(500000, wit, ReadItem, VarBytes, GoodItem, BadItem, rest);
    }
    WitnessPredicates();
  }

  lemma WitnessPredicates()
    requires forall wit: seq<Octets>, rest: Octets :: WideWitness(wit) ==>
               ReadWitness(WriteWitness(wit) + rest) == if GoodWitness(wit) then Got(wit, rest) else Fail(TooLarge)
    ensures Undoes(ReadWitness, WriteWitness, GoodWitness) && Refuses(ReadWitness, WriteWitness, BadWitness)
  {
    hide ReadWitness, WriteWitness;
  }

  // ----- transactions

  predicate Wide(tx: MsgTx) {
    && -0x8000_0000 <= tx.version < 0x8000_0000 && tx.lockTime < 0x1_0000_0000
    && |tx.txIn| < 0x1_0000_0000_0000_0000 && |tx.txOut| < 0x1_0000_0000_0000_0000
    && (forall ti :: ti in tx.txIn ==> WideIn(ti) && WideWitness(ti.wit))
    && (forall to :: to in tx.txOut ==> WideOut(to))
  }

  /** At most 818401 inputs and 3728271 outputs, and 32 MiB per script. */
  predicate InsWithin(ins: seq<TxIn>) {
    |ins| <= 818401 && forall ti :: ti in ins ==> |ti.sigScript| <= 33554432
  }

  predicate OutsWithin(outs: seq<TxOut>) {
    |outs| <= 3728271 && forall to :: to in outs ==> |to.pkScript| <= 33554432
  }

  /** At most 500000 items of 11000 bytes each. */
  predicate WitsWithin(ins: seq<TxIn>) { forall ti :: ti in ins ==> GoodWitness(ti.wit) }

  predicate Within(tx: MsgTx, flagged: bool) {
    InsWithin(tx.txIn) && OutsWithin(tx.txOut) && (flagged ==> WitsWithin(tx.txIn))
  }

  lemma InputsTotal(tx: MsgTx, rest: Octets)
    requires Wide(tx)
    ensures var ins := BareAll(tx.txIn);
            ReadCounted(MAX_TX_IN, ReadTxIn, WriteCounted(ins, WriteTxIn) + rest) ==
            if InsWithin(tx.txIn) then Got(ins, rest) else Fail(TooLarge)
  {
    hide ReadTxIn, WriteTxIn, ReadCounted, WriteCounted, Undoes, Refuses, WideWitness;
    PartsTotal();
    var ins := BareAll(tx.txIn);
    forall i | 0 <= i < |ins| ensures GoodIn(ins[i]) <==> |tx.txIn[i].sigScript| <= 33554432
                              ensures GoodIn(ins[i]) || BadIn(ins[i]) {
      assert tx.txIn[i] in tx.txIn;
    }
    CountedTotal(MAX_TX_IN, ins, ReadTxIn, WriteTxIn, GoodIn, BadIn, rest);
    assert (forall ti :: ti in ins ==> GoodIn(ti)) <==> (forall i :: 0 <= i < |ins| ==> GoodIn(ins[i]));
    assert (forall ti :: ti in tx.txIn ==> |ti.sigScript| <= 33554432) <==>
           (forall i :: 0 <= i < |tx.txIn| ==> |tx.txIn[i].sigScript| <= 33554432);
  }

  lemma OutputsTotal(tx: MsgTx, rest: Octets)
    requires Wide(tx)
    ensures ReadCounted(MAX_TX_OUT, ReadTxOut, WriteCounted(tx.txOut, WriteTxOut) + rest) ==
            if OutsWithin(tx.txOut) then Got(tx.txOut, rest) else Fail(TooLarge)
  {
    hide ReadTxOut, WriteTxOut, ReadCounted, WriteCounted, Undoes, Refuses, WideIn, WideWitness;
    PartsTotal();
    CountedTotal(MAX_TX_OUT, tx.txOut, ReadTxOut, WriteTxOut, GoodOut, BadOut, rest);
  }

  lemma WitnessesTotal(tx: MsgTx, flagged: bool, rest: Octets)
    requires Wide(tx)
    ensures ReadWitnesses(flagged, |tx.txIn|, WitnessBytes(tx.txIn, flagged) + rest) ==
            if !flagged then Got(seq(|tx.txIn|, i => []), rest)
            else if WitsWithin(tx.txIn) then Got(Witnesses(tx.txIn), rest)
            else Fail(TooLarge)
  {
    hide ReadWitness, WriteWitness, Undoes, Refuses, GoodWitness, WideWitness, WideIn, WideOut;
    var wits := Witnesses(tx.txIn);
    if flagged {
      WitnessTotal();
      forall i | 0 <= i < |wits| ensures GoodWitness(wits[i]) || BadWitness(wits[i]) {
        assert tx.txIn[i] in tx.txIn;
      }
      ManyTotal(wits, ReadWitness, WriteWitness, GoodWitness, BadWitness, rest);
      assert (forall w :: w in wits ==> GoodWitness(w)) <==> (forall i :: 0 <= i < |wits| ==> GoodWitness(wits[i]));
      assert (forall ti :: ti in tx.txIn ==> GoodWitness(ti.wit)) <==>
             (forall i :: 0 <= i < |tx.txIn| ==> GoodWitness(tx.txIn[i].wit));
    } else {
      assert WitnessBytes(tx.txIn, flagged) + rest == rest;
    }
  }

  lemma AfterFlagTotal(tx: MsgTx, flagged: bool, rest: Octets)
    requires Wide(tx)
    ensures ReadAfterFlag(tx.version, flagged, AfterFlag(tx, flagged) + rest) ==
            if Within(tx, flagged) then Got(if flagged then tx else Stripped(tx), rest) else Fail(TooLarge)
  {
    var ins, outs := BareAll(tx.txIn), tx.txOut;
    var a, b, c, d := WriteCounted(ins, WriteTxIn), WriteCounted(outs, WriteTxOut),
                      WitnessBytes(tx.txIn, flagged), LE(tx.lockTime, 4);
    PowValues();
    hide ReadCounted, WriteCounted, ReadUint, ReadWitnesses, WitnessBytes, LE, InsWithin, OutsWithin, WitsWithin,
         WideIn, WideOut, WideWitness;
    Nest4(a, b, c, d, rest);
    InputsTotal(tx, b + (c + (d + rest)));
    OutputsTotal(tx, c + (d + rest));
    WitnessesTotal(tx, flagged, d + rest);
    UintBack(tx.lockTime, 4, rest);
    if flagged {
      AttachBack(tx.txIn);
    } else {
      assert Attach(ins, seq(|ins|, i => [])) == ins;
    }
  }

  /**
   * A transaction whose fields have their proper widths is read back from its bytes exactly when it keeps
   * the limits on counts and sizes; beyond any of them decoding fails, whatever follows. (An empty list of
   * inputs looks like the witness marker, so the witness form needs an input.)
   */
  lemma DecodesIff(tx: MsgTx, enc: Encoding, rest: Octets)
    requires Wide(tx) && (enc == WitnessEncoding ==> tx.txIn != [])
    ensures Decode(enc, Encode(tx, enc) + rest) ==
            if !Within(tx, enc == WitnessEncoding && HasWitness(tx)) then Fail(TooLarge)
            else Got(if enc == BaseEncoding then Stripped(tx) else tx, rest)
  {
    PowValues();
    var flagged := enc == WitnessEncoding && HasWitness(tx);
    var v, f, a := LE(U32(tx.version), 4), FlagBytes(flagged), AfterFlag(tx, flagged);
    assert S32(U32(tx.version)) == tx.version;
    if !HasWitness(tx) { StrippedNoWitness(tx); }
    hide AfterFlag, ReadAfterFlag, ReadFlag, FlagBytes, LE, ReadUint, Within, Wide;
    Assoc(v, f + a, rest);
    Assoc(f, a, rest);
    UintBack(U32(tx.version), 4, f + (a + rest));
    FlagBack(tx, enc, flagged, rest);
    AfterFlagTotal(tx, flagged, rest);
  }

  // ----- one input and one output

  lemma Flat(a: Octets, b: Octets, c: Octets, d: Octets)
    ensures a + (b + (c + d)) == a + b + c + d && a + (b + c) == a + b + c
  {
  }

  lemma SmallCount(b: Octets)
    requires |b| < 253
    ensures VarBytes(b) == [|b|] + b
  {
  }

  lemma OneOf<T>(x: T, write: T -> Octets)
    ensures WriteCounted([x], write) == [1] + write(x)
  {
    assert [x][1..] == [];
    assert WriteMany([], write) == [];
    assert write(x) + [] == write(x);
  }

  /** An input or output with a short script. */
  lemma InBytes(ti: TxIn)
    requires |ti.sigScript| < 253
    ensures WriteTxIn(ti) ==
            ti.prev.hash + LE(ti.prev.index, 4) + [|ti.sigScript|] + ti.sigScript + LE(ti.sequence, 4)
  {
    hide LE, VarBytes;
    var h, i, n, q := ti.prev.hash, LE(ti.prev.index, 4), [|ti.sigScript|], LE(ti.sequence, 4);
    SmallCount(ti.sigScript);
    Flat(h, i, n + ti.sigScript, q);
    Assoc(h + i, n, ti.sigScript);
  }

  lemma OutBytes(to: TxOut)
    requires |to.pkScript| < 253 && 0 <= to.value < 0x8000_0000_0000_0000
    ensures WriteTxOut(to) == LE(to.value, 8) + [|to.pkScript|] + to.pkScript
  {
    hide LE, VarBytes;
    SmallCount(to.pkScript);
    Assoc(LE(to.value, 8), [|to.pkScript|], to.pkScript);
  }

  lemma RawBytes(tx: MsgTx, ins: Octets, outs: Octets, wits: Octets)
    requires 0 <= tx.version < 0x8000_0000
    requires WriteCounted(BareAll(tx.txIn), WriteTxIn) == ins && WriteCounted(tx.txOut, WriteTxOut) == outs
    requires WitnessBytes(tx.txIn, true) == wits
    ensures RawTx(tx, false) == LE(tx.version, 4) + ins + outs + LE(tx.lockTime, 4)
    ensures RawTx(tx, true) == LE(tx.version, 4) + [0, 1] + ins + outs + wits + LE(tx.lockTime, 4)
  {
    hide LE, WriteCounted, BareAll, WitnessBytes;
    var v, l := LE(tx.version, 4), LE(tx.lockTime, 4);
    var none: Octets := [];
    assert WitnessBytes(tx.txIn, false) == none by { NoWitnessBytes(tx.txIn); }
    assert none + l == l && forall s: Octets :: none + s == s;
    Flat(v, ins, outs, l);
    Flat(ins, outs, wits, l);
    assert v + ([0, 1] + (ins + outs + wits + l)) == v + [0, 1] + ins + outs + wits + l;
  }

  lemma NoWitnessBytes(ins: seq<TxIn>)
    ensures WitnessBytes(ins, false) == []
  {
  }

  /** A transaction with one input and one output, byte for byte; the witness form adds a marker and the items. */
  lemma Layout(tx: MsgTx, item: Octets)
    requires |tx.txIn| == 1 && |tx.txOut| == 1 && tx.txIn[0].wit == [item] && |item| < 253
    requires 0 <= tx.version < 0x8000_0000 && 0 <= tx.txOut[0].value < 0x8000_0000_0000_0000
    requires |tx.txIn[0].sigScript| < 253 && |tx.txOut[0].pkScript| < 253
    ensures var ti, to := tx.txIn[0], tx.txOut[0];
            var ins := [1] + (ti.prev.hash + LE(ti.prev.index, 4) + [|ti.sigScript|] + ti.sigScript
                              + LE(ti.sequence, 4));
            var outs := [1] + (LE(to.value, 8) + [|to.pkScript|] + to.pkScript);
            && Encode(tx, BaseEncoding) == LE(tx.version, 4) + ins + outs + LE(tx.lockTime, 4)
            && Encode(tx, WitnessEncoding) ==
               LE(tx.version, 4) + [0, 1] + ins + outs + ([1] + ([|item|] + item)) + LE(tx.lockTime, 4)
  {
    var ti, to := tx.txIn[0], tx.txOut[0];
    assert tx.txIn == [ti] && tx.txOut == [to] && ti in tx.txIn;
    assert BareAll(tx.txIn) == [Bare(ti)] && Witnesses(tx.txIn) == [[item]];
    hide LE, WriteTxIn, WriteTxOut, RawTx, VarBytes, WriteCounted;
    OneOf(Bare(ti), WriteTxIn);
    InBytes(Bare(ti));
    OneOf(to, WriteTxOut);
    OutBytes(to);
    OneWitness(tx.txIn, item);
    RawBytes(tx, [1] + WriteTxIn(Bare(ti)), [1] + WriteTxOut(to), [1] + ([|item|] + item));
  }

  lemma OneWitness(ins: seq<TxIn>, item: Octets)
    requires |item| < 253 && Witnesses(ins) == [[item]]
    ensures WitnessBytes(ins, true) == [1] + ([|item|] + item)
  {
    hide WriteCounted, VarBytes;
    SmallCount(item);
    OneOf(item, VarBytes);
    assert [[item]][1..] == [];
    assert WriteMany([[item]], WriteWitness) == WriteWitness([item]) + WriteMany([], WriteWitness);
    assert WriteWitness([item]) + [] == WriteWitness([item]);
  }
}
