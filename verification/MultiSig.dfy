/** CHECKMULTISIG (opcode.go, opcodeCheckMultiSig): the greedy loop and what it decides. */
module MultiSig {
  import opened Bytes
  import opened ScriptErrors
  import opened Crypto
  import opened SigCheck
  import SigHash

  /** Strictly increasing key positions, one per signature, each pair verifying. */
  ghost predicate Assigns(f: seq<nat>, ctx: Context, script: Octets, sigs: seq<Octets>, keys: seq<Octets>)
    requires ctx.idx < |ctx.tx.txIn|
  {
    && |f| == |sigs|
    && (forall i, j :: 0 <= i < j < |f| ==> f[i] < f[j])
    && forall i :: 0 <= i < |f| ==> f[i] < |keys| && ctx.Verifies(script, sigs[i], keys[f[i]])
  }

  ghost predicate Assignable(ctx: Context, script: Octets, sigs: seq<Octets>, keys: seq<Octets>)
    requires ctx.idx < |ctx.tx.txIn|
  {
    exists f :: Assigns(f, ctx, script, sigs, keys)
  }

  /** One signature against one key: a script error, a match, or no match. */
  function TryPair(ctx: Context, script: Octets, s: Octets, k: Octets): Result<bool>
    requires ctx.idx < |ctx.tx.txIn|
  {
    if s == [] then Ok(false)
    else if ctx.SigError(s).Some? then Err(ctx.SigError(s).value)
    else if ctx.Parse(s[..|s| - 1]).None? then Ok(false)
    else if ctx.KeyError(k).Some? then Err(ctx.KeyError(k).value)
    else Ok(ctx.Verifies(script, s, k))
  }

  lemma TryPairDecides(ctx: Context, script: Octets, s: Octets, k: Octets)
    requires ctx.idx < |ctx.tx.txIn| && TryPair(ctx, script, s, k).Ok?
    ensures TryPair(ctx, script, s, k).value == ctx.Verifies(script, s, k)
  {
  }

  /**
   * The rules for one pair, in the source's order: an empty or unreadable signature is passed over before the
   * key is looked at, and no signature is removed from the script.
   */
  lemma TryPairIs(ctx: Context, script: Octets, full: Octets, key: Octets)
    requires ctx.idx < |ctx.tx.txIn| && full != []
    ensures TryPair(ctx, script, [], key) == Ok(false)
    ensures var r, c, f := TryPair(ctx, script, full, key), ctx.c, ctx.flags;
            var sig, t := full[..|full| - 1], full[|full| - 1];
            var s := if f.strictEncoding || f.derSignatures then c.parseDer(sig) else c.parseBer(sig);
            if f.strictEncoding && t !in {0x01, 0x02, 0x03, 0x81, 0x82, 0x83} then r == Err(InvalidSigHashType)
            else if (f.derSignatures || f.lowS || f.strictEncoding) && !c.encodingOk(sig, f.lowS) then
              r == Err(SigEncoding)
            else if s.None? then r == Ok(false)
            else if f.strictEncoding
                    && !(|key| == 33 && key[0] in {2, 3}) && !(|key| == 65 && key[0] == 4) then r == Err(PubKeyType)
            else if c.parseKey(key).None? then r == Ok(false)
            else
              var hash := SigHash.SignatureHash(c, script, t, ctx.tx, ctx.idx);
              r == Ok(c.verify(s.value, hash, c.parseKey(key).value))
  {
    hide SigHash.SignatureHash;
  }

  /** The decision of the loop on the signatures and keys not yet consumed. */
  function Greedy(ctx: Context, script: Octets, sigs: seq<Octets>, keys: seq<Octets>): Result<bool>
    requires ctx.idx < |ctx.tx.txIn|
    decreases |keys|
  {
    if sigs == [] then Ok(true)
    else if |sigs| > |keys| then Ok(false)
    else
      match TryPair(ctx, script, sigs[0], keys[0])
      case Err(e) => Err(e)
      case Ok(matched) => Greedy(ctx, script, if matched then sigs[1..] else sigs, keys[1..])
  }

  /** The same positions, one key further on. */
  function Up(f: seq<nat>): seq<nat> { seq(|f|, i requires 0 <= i < |f| => f[i] + 1) }

  /** The same positions, one key further back. */
  function Down(f: seq<nat>): seq<nat>
    requires forall i :: 0 <= i < |f| ==> f[i] > 0
  {
    seq(|f|, i requires 0 <= i < |f| => f[i] - 1)
  }

  lemma AssignsSkip(f: seq<nat>, ctx: Context, script: Octets, sigs: seq<Octets>, keys: seq<Octets>)
    requires ctx.idx < |ctx.tx.txIn| && keys != []
    requires Assigns(f, ctx, script, sigs, keys[1..])
    ensures Assigns(Up(f), ctx, script, sigs, keys)
  {
    hide Context.Verifies;
  }

  lemma AssignsTake(f: seq<nat>, ctx: Context, script: Octets, sigs: seq<Octets>, keys: seq<Octets>)
    requires ctx.idx < |ctx.tx.txIn| && keys != [] && sigs != []
    requires ctx.Verifies(script, sigs[0], keys[0])
    requires Assigns(f, ctx, script, sigs[1..], keys[1..])
    ensures Assigns([0] + Up(f), ctx, script, sigs, keys)
  {
    hide Context.Verifies;
  }

  /** An assignment that does not use the first key lives in the other keys. */
  lemma AssignsUnskip(f: seq<nat>, ctx: Context, script: Octets, sigs: seq<Octets>, keys: seq<Octets>)
    requires ctx.idx < |ctx.tx.txIn| && keys != [] && sigs != []
    requires Assigns(f, ctx, script, sigs, keys) && f[0] != 0
    ensures (forall i :: 0 <= i < |f| ==> f[i] > 0) && Assigns(Down(f), ctx, script, sigs, keys[1..])
  {
    hide Context.Verifies;
    assert forall i :: 0 <= i < |f| ==> f[i] > 0;
  }

  /** Dropping the first signature and the first key keeps the rest assignable. */
  lemma AssignsUntake(f: seq<nat>, ctx: Context, script: Octets, sigs: seq<Octets>, keys: seq<Octets>)
    requires ctx.idx < |ctx.tx.txIn| && keys != [] && sigs != []
    requires Assigns(f, ctx, script, sigs, keys)
    ensures (forall i :: 0 <= i < |f[1..]| ==> f[1..][i] > 0)
            && Assigns(Down(f[1..]), ctx, script, sigs[1..], keys[1..])
  {
    hide Context.Verifies;
    assert forall i :: 0 < i < |f| ==> f[0] < f[i];
  }

  lemma {:induction false} AssignsSize(f: seq<nat>, n: nat)
    requires forall i, j :: 0 <= i < j < |f| ==> f[i] < f[j]
    requires forall i :: 0 <= i < |f| ==> f[i] < n
    ensures |f| <= n
  {
    if |f| > 0 {
      var last := |f| - 1;
      AssignsSize(f[..last], f[last]);
    }
  }

  /**
   * Greedy matching is complete: when the loop ends without a script error its answer is exactly
   * whether some order-preserving assignment of signatures to distinct keys verifies every pair.
   */
  lemma {:induction false} GreedyIsComplete(ctx: Context, script: Octets, sigs: seq<Octets>, keys: seq<Octets>)
    requires ctx.idx < |ctx.tx.txIn| && Greedy(ctx, script, sigs, keys).Ok?
    ensures Greedy(ctx, script, sigs, keys).value <==> Assignable(ctx, script, sigs, keys)
    decreases |keys|
  {
    hide Context.Verifies, TryPair;
    if sigs == [] {
      assert Assigns([], ctx, script, sigs, keys);
    } else if |sigs| > |keys| {
      if Assignable(ctx, script, sigs, keys) {
        var f :| Assigns(f, ctx, script, sigs, keys);
        AssignsSize(f, |keys|);
      }
    } else if TryPair(ctx, script, sigs[0], keys[0]).value {
      TryPairDecides(ctx, script, sigs[0], keys[0]);
      GreedyIsComplete(ctx, script, sigs[1..], keys[1..]);
      if Assignable(ctx, script, sigs[1..], keys[1..]) {
        var f :| Assigns(f, ctx, script, sigs[1..], keys[1..]);
        AssignsTake(f, ctx, script, sigs, keys);
      }
      if Assignable(ctx, script, sigs, keys) {
        var f :| Assigns(f, ctx, script, sigs, keys);
        AssignsUntake(f, ctx, script, sigs, keys);
      }
    } else {
      TryPairDecides(ctx, script, sigs[0], keys[0]);
      GreedyIsComplete(ctx, script, sigs, keys[1..]);
      if Assignable(ctx, script, sigs, keys[1..]) {
        var f :| Assigns(f, ctx, script, sigs, keys[1..]);
        AssignsSkip(f, ctx, script, sigs, keys);
      }
      if Assignable(ctx, script, sigs, keys) {
        var f :| Assigns(f, ctx, script, sigs, keys);
        AssignsUnskip(f, ctx, script, sigs, keys);
      }
    }
  }

  // ----- the loop

  /** parsedSigInfo: whether the signature has been parsed, and the outcome. */
  datatype SigInfo = SigInfo(signature: Octets, parsed: bool, parsedSignature: Option<Signature>)

  /** The record of a signature agrees with its parse once it is marked parsed. */
  ghost predicate InfoOk(ctx: Context, info: SigInfo, sig: Octets) {
    && info.signature == sig
    && (info.parsed ==>
          && sig != [] && ctx.SigError(sig).None?
          && info.parsedSignature == ctx.Parse(sig[..|sig| - 1]))
  }

  ghost predicate InfosOk(ctx: Context, infos: seq<SigInfo>, sigs: seq<Octets>) {
    |infos| == |sigs| && forall i :: 0 <= i < |infos| ==> InfoOk(ctx, infos[i], sigs[i])
  }

  /** The body of the loop: parse the signature once, then check it against the key. */
  method CheckPair(ctx: Context, cache: SigCache?, script: Octets, info: SigInfo, key: Octets)
    returns (r: Result<bool>, info': SigInfo)
    requires ctx.idx < |ctx.tx.txIn| && InfoOk(ctx, info, info.signature)
    requires ctx.c.Sound() && (cache != null ==> cache.Good(ctx.c))
    modifies cache
    ensures r == TryPair(ctx, script, info.signature, key) && InfoOk(ctx, info', info.signature)
    ensures cache != null ==> cache.Good(ctx.c)
  {
    info' := info;
    var full := info.signature;
    if |full| == 0 { return Ok(false), info; }
    var sig := full[..|full| - 1];
    if !info.parsed {
      if ctx.SigError(full).Some? { return Err(ctx.SigError(full).value), info; }
      info' := SigInfo(full, true, ctx.Parse(sig));
    }
    if info'.parsedSignature.None? { return Ok(false), info'; }
    if ctx.KeyError(key).Some? { return Err(ctx.KeyError(key).value), info'; }
    if ctx.c.parseKey(key).None? { return Ok(false), info'; }
    var valid := VerifySig(ctx, cache, ctx.Digest(script, full), sig, key);
    return Ok(valid), info';
  }

  /** The loop of opcodeCheckMultiSig; the index checks on both arrays are part of its proof. */
  method CheckLoop(ctx: Context, cache: SigCache?, script: Octets, sigs: seq<Octets>, keys: seq<Octets>)
      returns (r: Result<bool>)
    requires ctx.idx < |ctx.tx.txIn| && |sigs| <= |keys|
    requires ctx.c.Sound() && (cache != null ==> cache.Good(ctx.c))
    modifies cache
    ensures r == Greedy(ctx, script, sigs, keys)
    ensures cache != null ==> cache.Good(ctx.c)
  {
    hide TryPair, InfoOk;
    var infos := FreshInfos(ctx, sigs);
    var numSignatures := |sigs|;
    var numPubKeys := |keys| + 1;
    var pubKeyIdx := -1;
    var signatureIdx: nat := 0;
    assert sigs[0..] == sigs && keys[0..] == keys;
    while numSignatures > 0
      invariant numSignatures == |sigs| - signatureIdx && signatureIdx <= |sigs|
      invariant -1 <= pubKeyIdx < |keys| && numPubKeys == |keys| - pubKeyIdx
      invariant InfosOk(ctx, infos, sigs)
      invariant cache != null ==> cache.Good(ctx.c)
      invariant Greedy(ctx, script, sigs[signatureIdx..], keys[pubKeyIdx + 1..]) == Greedy(ctx, script, sigs, keys)
      decreases |keys| - pubKeyIdx
    {
      pubKeyIdx := pubKeyIdx + 1;
      numPubKeys := numPubKeys - 1;
      if numSignatures > numPubKeys { return Ok(false); }
      GreedyStep(ctx, script, sigs, keys, signatureIdx, pubKeyIdx);
      SameSignature(ctx, infos, sigs, signatureIdx);
      var matched, info := CheckPair(ctx, cache, script, infos[signatureIdx], keys[pubKeyIdx]);
      infos := infos[signatureIdx := info];
      if matched.Err? { return matched; }
      if matched.value {
        signatureIdx := signatureIdx + 1;
        numSignatures := numSignatures - 1;
      }
    }
    return Ok(true);
  }

  method FreshInfos(ctx: Context, sigs: seq<Octets>) returns (infos: seq<SigInfo>)
    ensures InfosOk(ctx, infos, sigs)
  {
    infos := seq(|sigs|, i requires 0 <= i < |sigs| => SigInfo(sigs[i], false, None));
  }

  lemma SameSignature(ctx: Context, infos: seq<SigInfo>, sigs: seq<Octets>, i: nat)
    requires InfosOk(ctx, infos, sigs) && i < |sigs|
    ensures infos[i].signature == sigs[i]
  {
  }

  /** One turn of the loop, as the next unfolding of Greedy. */
  lemma GreedyStep(ctx: Context, script: Octets, sigs: seq<Octets>, keys: seq<Octets>, i: nat, k: nat)
    requires ctx.idx < |ctx.tx.txIn| && i < |sigs| && k < |keys| && |sigs| - i <= |keys| - k
    ensures Greedy(ctx, script, sigs[i..], keys[k..]) ==
            match TryPair(ctx, script, sigs[i], keys[k])
            case Err(e) => Err(e)
            case Ok(matched) => Greedy(ctx, script, sigs[if matched then i + 1 else i..], keys[k + 1..])
  {
    hide TryPair;
    assert sigs[i..][1..] == sigs[i + 1..] && keys[k..][1..] == keys[k + 1..];
  }
}
