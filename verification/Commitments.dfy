/** What a signature hash determines: the signed parts, and nothing else. */
module Commitments {
  import opened Bytes
  import opened Wire
  import opened TxCodec
  import opened Tokens
  import opened SigHash
  import Scripts
  import C = Crypto

  // ----- scripts

  /** The tokens that are not OP_CODESEPARATOR. */
  function WithoutSeparators(ts: seq<Token>): seq<Token> {
    if ts == [] then []
    else if ts[0].op == 171 then WithoutSeparators(ts[1..])
    else [ts[0]] + WithoutSeparators(ts[1..])
  }

  lemma {:induction false} KeepIsWithout(ts: seq<Token>)
    ensures Scripts.Keep(ts, Scripts.IsOp(Scripts.OP_CODESEPARATOR)) == WithoutSeparators(ts)
  {
    if ts != [] { KeepIsWithout(ts[1..]); }
  }

  /** Scripts give the same signed script exactly when they agree in all tokens but the separators. */
  lemma SameSignedScript(s: Octets, s': Octets)
    requires Parses(s) && Parses(s')
    ensures NoSeparators(s) == NoSeparators(s') <==>
            WithoutSeparators(TokensOf(s)) == WithoutSeparators(TokensOf(s'))
  {
    hide TokensOf, Parses, Scripts.Removed, WithoutSeparators, Scripts.IsOp;
    var drop := Scripts.IsOp(Scripts.OP_CODESEPARATOR);
    Scripts.RemovalIsFiltering(s, drop);
    Scripts.RemovalIsFiltering(s', drop);
    KeepIsWithout(TokensOf(s));
    KeepIsWithout(TokensOf(s'));
    RenderOfParsed(NoSeparators(s));
    RenderOfParsed(NoSeparators(s'));
  }

  lemma {:induction false} KeepShorter(ts: seq<Token>, drop: Token -> bool)
    ensures |Render(Scripts.Keep(ts, drop))| <= |Render(ts)|
  {
    hide Raw;
    if ts != [] {
      var kept := Scripts.Keep(ts[1..], drop);
      KeepShorter(ts[1..], drop);
      if drop(ts[0]) { assert [] + kept == kept; } else { RenderCons(ts[0], kept); }
    }
  }

  lemma NoSeparatorsShorter(s: Octets)
    ensures |NoSeparators(s)| <= |s|
  {
    hide Scripts.Keep, Render, TokensOf;
    KeepShorter(TokensOf(s), Scripts.IsOp(Scripts.OP_CODESEPARATOR));
    RenderOfTokens(s);
  }

  // ----- the signed parts, field by field

  /** Whether two inputs agree in what they spend and, where it is signed, in the sequence number. */
  predicate SameInput(a: TxIn, b: TxIn, sequences: bool) {
    a.prev == b.prev && (sequences ==> a.sequence == b.sequence)
  }

  /**
   * Hash types are read as the protocol defines them: the low five bits 2 (NONE) and 3 (SINGLE)
   * leave the sequence numbers of other inputs and all outputs, or all but one, unsigned; bit 0x80
   * (ANYONECANPAY) leaves the other inputs unsigned altogether. Everything else signs everything.
   */
  predicate SignedAlike(t: nat, a: MsgTx, b: MsgTx, idx: nat)
    requires idx < |a.txIn| && idx < |b.txIn|
    requires t % 32 == 3 ==> idx < |a.txOut| && idx < |b.txOut|
  {
    && a.version == b.version && a.lockTime == b.lockTime
    && SameInput(a.txIn[idx], b.txIn[idx], true)
    && (t / 128 % 2 == 0 ==> |a.txIn| == |b.txIn|)
    && (t / 128 % 2 == 0 ==>
          forall i :: 0 <= i < |a.txIn| && i < |b.txIn| ==>
            SameInput(a.txIn[i], b.txIn[i], t % 32 != 2 && t % 32 != 3))
    && (t % 32 == 3 ==> a.txOut[idx] == b.txOut[idx])
    && (t % 32 != 2 && t % 32 != 3 ==> a.txOut == b.txOut)
  }

  lemma InsAlike(a: seq<TxIn>, b: seq<TxIn>, idx: nat, s: Octets, s': Octets, t: nat)
    requires idx < |a| && idx < |b|
    ensures var x, y := BareAll(SignedIns(a, idx, s, t)), BareAll(SignedIns(b, idx, s', t));
            x == y <==>
            && s == s' && SameInput(a[idx], b[idx], true) && |a| == |b|
            && (forall i :: 0 <= i < |a| && i < |b| ==> SameInput(a[i], b[i], t % 32 != 2 && t % 32 != 3))
  {
    var x, y := BareAll(SignedIns(a, idx, s, t)), BareAll(SignedIns(b, idx, s', t));
    if x == y {
      assert |a| == |x| == |y| == |b|;
      forall i | 0 <= i < |a|
        ensures SameInput(a[i], b[i], t % 32 != 2 && t % 32 != 3)
      {
        assert x[i] == y[i];
      }
      assert x[idx] == y[idx];
    }
  }

  lemma OneInAlike(a: TxIn, b: TxIn, idx: nat, s: Octets, s': Octets, t: nat)
    ensures BareAll([SignedIn(a, idx, idx, s, t)]) == BareAll([SignedIn(b, idx, idx, s', t)]) <==>
            s == s' && SameInput(a, b, true)
  {
    var x, y := BareAll([SignedIn(a, idx, idx, s, t)]), BareAll([SignedIn(b, idx, idx, s', t)]);
    if x == y { assert x[0] == y[0]; }
  }

  lemma OutsAlike(a: seq<TxOut>, b: seq<TxOut>, idx: nat, t: nat)
    requires t % 32 == 3 ==> idx < |a| && idx < |b|
    ensures SignedOuts(a, idx, t) == SignedOuts(b, idx, t) <==>
            (t % 32 == 3 ==> a[idx] == b[idx]) && (t % 32 != 2 && t % 32 != 3 ==> a == b)
  {
    if t % 32 == 3 {
      var x, y := SignedOuts(a, idx, t), SignedOuts(b, idx, t);
      assert x[idx] == a[idx] && y[idx] == b[idx];
    }
  }

  lemma CopiesAlike(a: MsgTx, b: MsgTx, idx: nat, s: Octets, s': Octets, t: nat)
    requires idx < |a.txIn| && idx < |b.txIn|
    requires t % 32 == 3 ==> idx < |a.txOut| && idx < |b.txOut|
    ensures Stripped(SignedCopy(a, idx, s, t)) == Stripped(SignedCopy(b, idx, s', t)) <==>
            s == s' && SignedAlike(t, a, b, idx)
  {
    hide SignedOuts, SameInput;
    InsAlike(a.txIn, b.txIn, idx, s, s', t);
    OneInAlike(a.txIn[idx], b.txIn[idx], idx, s, s', t);
    OutsAlike(a.txOut, b.txOut, idx, t);
  }

  // ----- the encoding loses nothing

  lemma CopyFits(tx: MsgTx, idx: nat, s: Octets, t: nat)
    requires Fits(tx) && idx < |tx.txIn| && |s| <= 33554432
    requires t % 32 == 3 ==> idx < |tx.txOut|
    ensures Fits(SignedCopy(tx, idx, s, t))
  {
    hide FitsWitness;
    var ins := SignedIns(tx.txIn, idx, s, t);
    forall i | 0 <= i < |ins| ensures FitsIn(ins[i]) && FitsWitness(ins[i].wit) {
      assert tx.txIn[i] in tx.txIn;
    }
    var outs := SignedOuts(tx.txOut, idx, t);
    forall i | 0 <= i < |outs| ensures FitsOut(outs[i]) {
      if !(t % 32 == 3 && i < idx) { assert tx.txOut[i] in tx.txOut; }
    }
  }

  lemma EncodingDetermines(x: MsgTx, y: MsgTx, u: Octets, v: Octets)
    requires Fits(x) && Fits(y)
    ensures Encode(x, BaseEncoding) + u == Encode(y, BaseEncoding) + v <==> Stripped(x) == Stripped(y) && u == v
  {
    hide *;
    DecodeEncode(x, BaseEncoding, u);
    DecodeEncode(y, BaseEncoding, v);
    if Stripped(x) == Stripped(y) { EncodeIgnoresWitness(x, y); }
  }

  /**
   * Two signature hash preimages are equal exactly when the hash types are equal, the scripts are
   * equal once separators are removed, and the transactions agree on the parts the hash type signs.
   */
  lemma PreimageCommits(s: Octets, t: nat, a: MsgTx, s': Octets, t': nat, b: MsgTx, idx: nat)
    requires Fits(a) && Fits(b) && idx < |a.txIn| && idx < |b.txIn|
    requires |s| <= 33554432 && |s'| <= 33554432 && t < 0x1_0000_0000 && t' < 0x1_0000_0000
    ensures Preimage(s, t, a, idx).None? <==> t % 32 == 3 && idx >= |a.txOut|
    ensures Preimage(s, t, a, idx).Some? && Preimage(s', t', b, idx).Some? ==>
              (Preimage(s, t, a, idx) == Preimage(s', t', b, idx) <==>
               t == t' && NoSeparators(s) == NoSeparators(s') && SignedAlike(t, a, b, idx))
  {
    hide Encode, NoSeparators, SignedCopy, SignedAlike, Fits, LE, Stripped;
    if Preimage(s, t, a, idx).Some? && Preimage(s', t', b, idx).Some? {
      var n, n' := NoSeparators(s), NoSeparators(s');
      NoSeparatorsShorter(s);
      NoSeparatorsShorter(s');
      CopyFits(a, idx, n, t);
      CopyFits(b, idx, n', t');
      EncodingDetermines(SignedCopy(a, idx, n, t), SignedCopy(b, idx, n', t'), LE(t, 4), LE(t', 4));
      PowValues();
      FromLEofLE(t, 4);
      FromLEofLE(t', 4);
      if t == t' { CopiesAlike(a, b, idx, n, n', t); }
    }
  }

  // ----- the bytes that are hashed

  /** The transaction that is written out for signing, field by field. */
  predicate SignedForm(m: MsgTx, s: Octets, t: nat, tx: MsgTx, idx: nat)
    requires idx < |tx.txIn| && (t % 32 == 3 ==> idx < |tx.txOut|)
  {
    && m.version == tx.version && m.lockTime == tx.lockTime
    && |m.txIn| == (if t / 128 % 2 == 1 then 1 else |tx.txIn|)
    && (forall i :: 0 <= i < |m.txIn| ==>
          var from := if t / 128 % 2 == 1 then idx else i;
          && m.txIn[i].prev == tx.txIn[from].prev
          && m.txIn[i].sigScript == (if from == idx then s else [])
          && m.txIn[i].sequence ==
             (if from != idx && (t % 32 == 2 || t % 32 == 3) then 0 else tx.txIn[from].sequence))
    && |m.txOut| == (if t % 32 == 2 then 0 else if t % 32 == 3 then idx + 1 else |tx.txOut|)
    && (forall j :: 0 <= j < |m.txOut| ==>
          m.txOut[j] == if t % 32 == 3 && j < idx then TxOut(-1, []) else tx.txOut[j])
  }

  /**
   * The preimage is that transaction without witnesses, followed by the hash type in four bytes. The
   * digest is its double SHA-256, or the number one for SINGLE without a matching output.
   */
  lemma HashIs(c: C.Crypto, s: Octets, t: nat, tx: MsgTx, idx: nat)
    requires idx < |tx.txIn|
    ensures t % 32 == 3 && idx >= |tx.txOut| ==>
              SignatureHash(c, s, t, tx, idx) == [1] + seq(31, i => 0)
    ensures !(t % 32 == 3 && idx >= |tx.txOut|) ==>
              forall m :: SignedForm(m, NoSeparators(s), t, tx, idx) ==>
                SignatureHash(c, s, t, tx, idx) == c.sha256(c.sha256(Encode(m, BaseEncoding) + LE(t, 4)))
  {
    hide Encode, NoSeparators, SignedCopy, LE, SignedForm;
    if t % 32 == 3 && idx >= |tx.txOut| {
      OneBytes();
    } else {
      forall m | SignedForm(m, NoSeparators(s), t, tx, idx)
        ensures SignatureHash(c, s, t, tx, idx) == c.sha256(c.sha256(Encode(m, BaseEncoding) + LE(t, 4)))
      {
        FormIsCopy(m, NoSeparators(s), t, tx, idx);
        EncodeIgnoresWitness(m, SignedCopy(tx, idx, NoSeparators(s), t));
      }
    }
  }

  lemma FormIsCopy(m: MsgTx, s: Octets, t: nat, tx: MsgTx, idx: nat)
    requires idx < |tx.txIn| && (t % 32 == 3 ==> idx < |tx.txOut|) && SignedForm(m, s, t, tx, idx)
    ensures Stripped(m) == Stripped(SignedCopy(tx, idx, s, t))
  {
    var x := SignedCopy(tx, idx, s, t);
    assert m.txOut == x.txOut;
    forall i | 0 <= i < |m.txIn| ensures Bare(m.txIn[i]) == Bare(x.txIn[i]) {
    }
    assert BareAll(m.txIn) == BareAll(x.txIn);
  }

  lemma {:induction false} ZeroBytes(k: nat)
    ensures LE(0, k) == seq(k, i => 0)
  {
    if k > 0 { ZeroBytes(k - 1); }
  }

  lemma OneBytes()
    ensures One() == [1] + seq(31, i => 0)
  {
    ZeroBytes(31);
  }
}
