/** The signature hash preimage (sighash.go). */
module SigHash {
  import opened Bytes
  import opened Wire
  import TxCodec
  import opened Tokens
  import opened Scripts
  import C = Crypto

  const SIG_HASH_ALL: nat := 1
  const SIG_HASH_NONE: nat := 2
  const SIG_HASH_SINGLE: nat := 3

  function Mask(hashType: nat): nat { hashType % 0x20 }
  predicate AnyOneCanPay(hashType: nat) { hashType / 0x80 % 2 == 1 }

  predicate ZeroSequences(hashType: nat) {
    Mask(hashType) == SIG_HASH_NONE || Mask(hashType) == SIG_HASH_SINGLE
  }

  /** Input i as it is signed for input idx. */
  function SignedIn(ti: TxIn, i: nat, idx: nat, script: Octets, hashType: nat): TxIn {
    if i == idx then ti.(sigScript := script)
    else ti.(sigScript := [], sequence := if ZeroSequences(hashType) then 0 else ti.sequence)
  }

  function SignedIns(ins: seq<TxIn>, idx: nat, script: Octets, hashType: nat): seq<TxIn> {
    seq(|ins|, i requires 0 <= i < |ins| => SignedIn(ins[i], i, idx, script, hashType))
  }

  function SignedOuts(outs: seq<TxOut>, idx: nat, hashType: nat): seq<TxOut>
    requires Mask(hashType) == SIG_HASH_SINGLE ==> idx < |outs|
  {
    if Mask(hashType) == SIG_HASH_NONE then []
    else if Mask(hashType) == SIG_HASH_SINGLE then
      seq(idx + 1, i requires 0 <= i <= idx => if i < idx then TxOut(-1, []) else outs[i])
    else outs
  }

  /** The transaction that is serialized for signing. */
  function SignedCopy(tx: MsgTx, idx: nat, script: Octets, hashType: nat): MsgTx
    requires idx < |tx.txIn|
    requires Mask(hashType) == SIG_HASH_SINGLE ==> idx < |tx.txOut|
  {
    var ins := SignedIns(tx.txIn, idx, script, hashType);
    MsgTx(tx.version,
          if AnyOneCanPay(hashType) then [ins[idx]] else ins,
          SignedOuts(tx.txOut, idx, hashType),
          tx.lockTime)
  }

  function NoSeparators(script: Octets): Octets { Removed(script, IsOp(OP_CODESEPARATOR)) }

  /** What is hashed, or None for the fixed digest that stands for an output out of range. */
  function Preimage(script: Octets, hashType: nat, tx: MsgTx, idx: nat): Option<Octets>
    requires idx < |tx.txIn|
  {
    if Mask(hashType) == SIG_HASH_SINGLE && idx >= |tx.txOut| then None
    else Some(TxCodec.Encode(SignedCopy(tx, idx, NoSeparators(script), hashType), BaseEncoding) + LE(hashType, 4))
  }

  /** The 32-byte digest 1, little endian. */
  function One(): Octets { LE(1, 32) }

  /** calcSignatureHash as a function of the transaction's value. */
  function SignatureHash(c: C.Crypto, script: Octets, hashType: nat, tx: MsgTx, idx: nat): Octets
    requires idx < |tx.txIn|
  {
    match Preimage(script, hashType, tx, idx)
    case None => One()
    case Some(p) => c.DoubleHash(p)
  }

  // ----- signature scripts and witnesses are not signed

  /** Equal except for signature scripts and witnesses. */
  predicate SameSkeleton(a: MsgTx, b: MsgTx) {
    && a.version == b.version && a.lockTime == b.lockTime && a.txOut == b.txOut
    && |a.txIn| == |b.txIn|
    && forall i :: 0 <= i < |a.txIn| ==>
         a.txIn[i].prev == b.txIn[i].prev && a.txIn[i].sequence == b.txIn[i].sequence
  }

  lemma EncodeIgnoresWitness(a: MsgTx, b: MsgTx)
    requires TxCodec.Stripped(a) == TxCodec.Stripped(b)
    ensures TxCodec.Encode(a, BaseEncoding) == TxCodec.Encode(b, BaseEncoding)
  {
    assert a.version == b.version && a.txOut == b.txOut && a.lockTime == b.lockTime;
    assert TxCodec.BareAll(a.txIn) == TxCodec.BareAll(b.txIn);
  }

  /** Transactions that differ only in signature scripts and witnesses have the same preimage. */
  lemma PreimageIgnoresScripts(script: Octets, hashType: nat, a: MsgTx, b: MsgTx, idx: nat)
    requires SameSkeleton(a, b) && idx < |a.txIn|
    ensures Preimage(script, hashType, a, idx) == Preimage(script, hashType, b, idx)
  {
    if !(Mask(hashType) == SIG_HASH_SINGLE && idx >= |a.txOut|) {
      var s := NoSeparators(script);
      var x, y := SignedCopy(a, idx, s, hashType), SignedCopy(b, idx, s, hashType);
      assert |x.txIn| == |y.txIn|;
      assert forall i :: 0 <= i < |x.txIn| ==> TxCodec.Bare(x.txIn[i]) == TxCodec.Bare(y.txIn[i]);
      assert TxCodec.BareAll(x.txIn) == TxCodec.BareAll(y.txIn);
      EncodeIgnoresWitness(x, y);
    }
  }

  // ----- the copy and the overwriting loops

  class TxInRef {
    var prev: OutPoint
    var sigScript: Octets
    var wit: seq<Octets>
    var sequence: nat

    constructor (v: TxIn)
      ensures Value() == v
    {
      prev, sigScript, wit, sequence := v.prev, v.sigScript, v.wit, v.sequence;
    }

    function Value(): TxIn
      reads this
    {
      TxIn(prev, sigScript, wit, sequence)
    }
  }

  class TxOutRef {
    var value: int
    var pkScript: Octets

    constructor (v: TxOut)
      ensures Value() == v
    {
      value, pkScript := v.value, v.pkScript;
    }

    function Value(): TxOut
      reads this
    {
      TxOut(value, pkScript)
    }
  }

  function Ins(refs: seq<TxInRef>): (r: seq<TxIn>)
    reads refs
    ensures |r| == |refs| && forall i :: 0 <= i < |refs| ==> r[i] == refs[i].Value()
  {
    if refs == [] then [] else [refs[0].Value()] + Ins(refs[1..])
  }

  function Outs(refs: seq<TxOutRef>): (r: seq<TxOut>)
    reads refs
    ensures |r| == |refs| && forall i :: 0 <= i < |refs| ==> r[i] == refs[i].Value()
  {
    if refs == [] then [] else [refs[0].Value()] + Outs(refs[1..])
  }

  /** A transaction in memory: inputs and outputs are pointers. */
  datatype TxObject = TxObject(version: int, txIn: seq<TxInRef>, txOut: seq<TxOutRef>, lockTime: nat) {
    function Value(): MsgTx
      reads txIn, txOut
    {
      MsgTx(version, Ins(txIn), Outs(txOut), lockTime)
    }
  }

  ghost predicate Distinct<T>(s: seq<T>) { forall i, j :: 0 <= i < j < |s| ==> s[i] != s[j] }

  /** shallowCopyTx: new input and output objects with the same field values. */
  method ShallowCopyTx(tx: TxObject) returns (r: TxObject)
    ensures r.Value() == tx.Value()
    ensures fresh(r.txIn) && fresh(r.txOut) && Distinct(r.txIn) && Distinct(r.txOut)
  {
    var ins: seq<TxInRef> := [];
    for i := 0 to |tx.txIn|
      invariant |ins| == i && fresh(ins) && Distinct(ins)
      invariant forall k :: 0 <= k < i ==> ins[k].Value() == tx.txIn[k].Value()
    {
      var ti := new TxInRef(tx.txIn[i].Value());
      ins := ins + [ti];
    }
    var outs: seq<TxOutRef> := [];
    for i := 0 to |tx.txOut|
      invariant |outs| == i && fresh(outs) && Distinct(outs)
      invariant forall k :: 0 <= k < |ins| ==> ins[k].Value() == tx.txIn[k].Value()
      invariant forall k :: 0 <= k < i ==> outs[k].Value() == tx.txOut[k].Value()
    {
      var to := new TxOutRef(tx.txOut[i].Value());
      outs := outs + [to];
    }
    r := TxObject(tx.version, ins, outs, tx.lockTime);
    assert Ins(ins) == Ins(tx.txIn) && Outs(outs) == Outs(tx.txOut);
  }

  /**
   * calcSignatureHash up to the hash function. The method modifies nothing: every overwrite hits the
   * copy, so the caller's transaction is as it was.
   */
  method CalcPreimage(script: Octets, hashType: nat, tx: TxObject, idx: nat) returns (p: Option<Octets>)
    requires idx < |tx.txIn| && |script| < MAX_SCRIPT
    ensures p == Preimage(script, hashType, tx.Value(), idx)
  {
    hide Removed, TxCodec.Encode, SignedIns, SignedOuts, SignedCopy, Distinct, LE, Ins, Outs, IsOp;
    ghost var v := tx.Value();
    if Mask(hashType) == SIG_HASH_SINGLE && idx >= |tx.txOut| { return None; }
    var sigScript := RemoveOpcodeRaw(script, OP_CODESEPARATOR);
    var copy := ShallowCopyTx(tx);
    assert Ins(copy.txIn) == v.txIn && Outs(copy.txOut) == v.txOut && copy.version == v.version
      && copy.lockTime == v.lockTime;
    p := SignCopy(copy, idx, sigScript, hashType);
    assert MsgTx(copy.version, v.txIn, v.txOut, copy.lockTime) == v;
  }

  /** Overwrites the copy and serializes it. */
  method SignCopy(copy: TxObject, idx: nat, sigScript: Octets, hashType: nat) returns (p: Option<Octets>)
    requires Distinct(copy.txIn) && Distinct(copy.txOut) && idx < |copy.txIn|
    requires Mask(hashType) == SIG_HASH_SINGLE ==> idx < |copy.txOut|
    modifies copy.txIn, copy.txOut
    ensures p == Some(TxCodec.Encode(SignedCopy(old(copy.Value()), idx, sigScript, hashType),
            BaseEncoding) + LE(hashType, 4))
  {
    ghost var outVals := Outs(copy.txOut);
    ghost var v := copy.Value();
    var insRefs := PrepareInputs(copy.txIn, idx, sigScript, hashType);
    var ins := Ins(insRefs);
    assert Outs(copy.txOut) == outVals;
    var outsRefs := PrepareOutputs(copy.txOut, idx, hashType);
    var outs := Outs(outsRefs);
    var signed := MsgTx(copy.version, ins, outs, copy.lockTime);
    assert signed == SignedCopy(v, idx, sigScript, hashType);
    hide *;
    var w := TxCodec.ThtEncode(signed, BaseEncoding);
    return Some(w + LE(hashType, 4));
  }

  /** The inputs of the copy, overwritten for signing. */
  method PrepareInputs(ins: seq<TxInRef>, idx: nat, script: Octets, hashType: nat) returns (r: seq<TxInRef>)
    requires Distinct(ins) && idx < |ins|
    modifies ins
    ensures var signed := SignedIns(old(Ins(ins)), idx, script, hashType);
            && |signed| == |ins| && Ins(r) == (if AnyOneCanPay(hashType) then [signed[idx]] else signed)
    ensures forall x :: x in r ==> x in ins
  {
    ghost var v := Ins(ins);
    BlankScripts(ins, idx, script);
    if ZeroSequences(hashType) { ZeroOthers(ins, idx); }
    assert Ins(ins) == SignedIns(v, idx, script, hashType);
    r := if AnyOneCanPay(hashType) then ins[idx..idx + 1] else ins;
    assert AnyOneCanPay(hashType) ==> Ins(r) == [ins[idx].Value()];
  }

  method PrepareOutputs(outs: seq<TxOutRef>, idx: nat, hashType: nat) returns (r: seq<TxOutRef>)
    requires Distinct(outs)
    requires Mask(hashType) == SIG_HASH_SINGLE ==> idx < |outs|
    modifies outs
    ensures Outs(r) == SignedOuts(old(Outs(outs)), idx, hashType)
    ensures forall x :: x in r ==> x in outs
  {
    r := outs;
    if Mask(hashType) == SIG_HASH_NONE {
      r := [];
    } else if Mask(hashType) == SIG_HASH_SINGLE {
      r := outs[..idx + 1];
      assert forall k :: 0 <= k <= idx ==> r[k] in outs;
      BlankOutputs(r, idx);
    }
    assert Outs(r) == SignedOuts(old(Outs(outs)), idx, hashType);
  }

  /** Only the signed input keeps a script. */
  method BlankScripts(ins: seq<TxInRef>, idx: nat, script: Octets)
    requires Distinct(ins)
    modifies ins
    ensures forall k :: 0 <= k < |ins| ==>
              ins[k].Value() == old(ins[k].Value()).(sigScript := if k == idx then script else [])
  {
    for i := 0 to |ins|
      invariant forall k :: 0 <= k < i ==>
                  ins[k].Value() == old(ins[k].Value()).(sigScript := if k == idx then script else [])
      invariant forall k :: i <= k < |ins| ==> ins[k].Value() == old(ins[k].Value())
    {
      ins[i].sigScript := if i == idx then script else [];
    }
  }

  method ZeroOthers(ins: seq<TxInRef>, idx: nat)
    requires Distinct(ins)
    modifies ins
    ensures forall k :: 0 <= k < |ins| ==>
              ins[k].Value() == (if k == idx then old(ins[k].Value()) else old(ins[k].Value()).(sequence := 0))
  {
    for i := 0 to |ins|
      invariant forall k :: 0 <= k < i ==>
                  ins[k].Value() == (if k == idx then old(ins[k].Value()) else old(ins[k].Value()).(sequence := 0))
      invariant forall k :: i <= k < |ins| ==> ins[k].Value() == old(ins[k].Value())
    {
      if i != idx { ins[i].sequence := 0; }
    }
  }

  method BlankOutputs(outs: seq<TxOutRef>, idx: nat)
    requires idx < |outs| && Distinct(outs)
    modifies outs
    ensures forall k :: 0 <= k < |outs| ==>
              outs[k].Value() == if k < idx then TxOut(-1, []) else old(outs[k].Value())
  {
    for i := 0 to idx
      invariant forall k :: 0 <= k < i ==> outs[k].Value() == TxOut(-1, [])
      invariant forall k :: i <= k < |outs| ==> outs[k].Value() == old(outs[k].Value())
    {
      outs[i].value := -1;
      outs[i].pkScript := [];
    }
  }
}
