/** Signature checking: flags, the signature cache (sigcache.go) and single checks (sigvalidate.go). */
module SigCheck {
  import opened Bytes
  import opened ScriptErrors
  import opened Wire
  import opened Crypto
  import SigHash
  import Scripts

  /** ScriptFlags, one field per bit that the code consults. */
  datatype Flags = Flags(
    bip16: bool, strictMultiSig: bool, discourageUpgradableNops: bool,
    checkLockTimeVerify: bool, checkSequenceVerify: bool, cleanStack: bool,
    derSignatures: bool, lowS: bool, minimalData: bool, nullFail: bool,
    sigPushOnly: bool, strictEncoding: bool, minimalIf: bool)

  /** Everything a signature check depends on besides signature and key. */
  datatype Context = Context(c: Crypto, flags: Flags, tx: MsgTx, idx: nat) {
    predicate Strict() { flags.strictEncoding || flags.derSignatures }

    /** The parser the flags select. */
    function Parse(sig: Octets): Option<Signature> {
      if Strict() then c.parseDer(sig) else c.parseBer(sig)
    }

    /** checkHashTypeEncoding. */
    predicate HashTypeOk(hashType: Byte) {
      flags.strictEncoding ==> 1 <= (if hashType >= 0x80 then hashType - 0x80 else hashType) <= 3
    }

    /** checkHashTypeEncoding and checkSignatureEncoding on a full signature. */
    function SigError(full: Octets): Option<ScriptError>
      requires full != []
    {
      if !HashTypeOk(full[|full| - 1]) then Some(InvalidSigHashType)
      else if (flags.derSignatures || flags.lowS || flags.strictEncoding)
              && !c.encodingOk(full[..|full| - 1], flags.lowS) then Some(SigEncoding)
      else None
    }

    /** checkPubKeyEncoding. */
    function KeyError(key: Octets): Option<ScriptError> {
      if !flags.strictEncoding then None
      else if |key| == 33 && (key[0] == 2 || key[0] == 3) then None
      else if |key| == 65 && key[0] == 4 then None
      else Some(PubKeyType)
    }

    /** The digest a full signature commits to when it signs the given script. */
    function Digest(script: Octets, full: Octets): Octets
      requires full != [] && idx < |tx.txIn|
    {
      SigHash.SignatureHash(c, script, full[|full| - 1], tx, idx)
    }

    /** The signature, under the active parser, verifies for the key over the script. */
    predicate Verifies(script: Octets, full: Octets, key: Octets)
      requires idx < |tx.txIn|
    {
      && full != []
      && Parse(full[..|full| - 1]).Some? && c.parseKey(key).Some?
      && c.verify(Parse(full[..|full| - 1]).value, Digest(script, full), c.parseKey(key).value)
    }
  }

  // ----- the cache

  datatype Entry = Entry(sig: Octets, key: Octets)

  /** The triple verifies under the lax parser, which accepts whatever the strict one does. */
  ghost predicate ValidTriple(c: Crypto, hash: Octets, sig: Octets, key: Octets) {
    c.parseBer(sig).Some? && c.parseKey(key).Some? && c.verify(c.parseBer(sig).value, hash, c.parseKey(key).value)
  }

  lemma EvictSize(m: map<Octets, Entry>, h: Octets)
    requires h in m
    ensures |m - {h}| == |m| - 1
  {
    assert m.Keys == (m - {h}).Keys + {h};
  }

  lemma InsertSize(m: map<Octets, Entry>, h: Octets, e: Entry)
    ensures |m[h := e]| <= |m| + 1
  {
    assert m[h := e].Keys == m.Keys + {h};
  }

  class SigCache {
    var validSigs: map<Octets, Entry>
    const maxEntries: nat

    /** Only valid triples, and never more than the maximum. */
    ghost predicate Good(c: Crypto)
      reads this
    {
      && |validSigs| <= maxEntries
      && forall h :: h in validSigs ==> ValidTriple(c, h, validSigs[h].sig, validSigs[h].key)
    }

    constructor (max: nat)
      ensures maxEntries == max && validSigs == map[]
    {
      validSigs, maxEntries := map[], max;
    }

    predicate Exists(hash: Octets, sig: Octets, key: Octets)
      reads this
    {
      hash in validSigs && validSigs[hash] == Entry(sig, key)
    }

    /** Add: a full cache loses one arbitrary entry first. */
    method Add(hash: Octets, sig: Octets, key: Octets, ghost c: Crypto)
      requires Good(c) && ValidTriple(c, hash, sig, key)
      modifies this
      ensures Good(c)
      ensures maxEntries > 0 ==> Exists(hash, sig, key)
      ensures forall h :: h in validSigs && h != hash ==> h in old(validSigs) && validSigs[h] == old(validSigs)[h]
    {
      if maxEntries <= 0 { return; }
      if |validSigs| + 1 > maxEntries {
        var victim :| victim in validSigs;
        EvictSize(validSigs, victim);
        validSigs := validSigs - {victim};
      }
      InsertSize(validSigs, hash, Entry(sig, key));
      validSigs := validSigs[hash := Entry(sig, key)];
    }
  }

  /** verifySig: with any good cache the answer is that of verification without a cache. */
  method VerifySig(ctx: Context, cache: SigCache?, hash: Octets, sig: Octets, key: Octets) returns (valid: bool)
    requires ctx.c.Sound() && ctx.Parse(sig).Some? && ctx.c.parseKey(key).Some?
    requires cache != null ==> cache.Good(ctx.c)
    modifies cache
    ensures valid == ctx.c.verify(ctx.Parse(sig).value, hash, ctx.c.parseKey(key).value)
    ensures cache != null ==> cache.Good(ctx.c)
  {
    var s, k := ctx.Parse(sig).value, ctx.c.parseKey(key).value;
    assert ctx.c.parseBer(sig) == Some(s);
    if cache != null {
      valid := cache.Exists(hash, sig, key);
      if !valid && ctx.c.verify(s, hash, k) {
        cache.Add(hash, sig, key, ctx.c);
        valid := true;
      }
    } else {
      valid := ctx.c.verify(s, hash, k);
    }
  }

  // ----- CHECKSIG

  /**
   * What opcodeCheckSig answers for a key and a full signature: a script error, or the pushed
   * boolean. The source indexes the last byte of the signature, so it is defined on non-empty ones.
   */
  function CheckSig(ctx: Context, subScript: Octets, full: Octets, key: Octets): Result<bool>
    requires full != [] && ctx.idx < |ctx.tx.txIn|
  {
    if ctx.SigError(full).Some? then Err(ctx.SigError(full).value)
    else if ctx.KeyError(key).Some? then Err(ctx.KeyError(key).value)
    else
      var valid := ctx.Verifies(Scripts.RemovedByData(subScript, full), full, key);
      var parsed := ctx.c.parseKey(key).Some? && ctx.Parse(full[..|full| - 1]).Some?;
      if parsed && !valid && ctx.flags.nullFail then Err(NullFail) else Ok(valid)
  }

  /** opcodeCheckSig after its two pops, with the shared cache. */
  method OpcodeCheckSig(ctx: Context, cache: SigCache?, subScript: Octets, full: Octets, key: Octets)
      returns (r: Result<bool>)
    requires full != [] && ctx.idx < |ctx.tx.txIn| && |subScript| < 0x8000_0000
    requires ctx.c.Sound() && (cache != null ==> cache.Good(ctx.c))
    modifies cache
    ensures r == CheckSig(ctx, subScript, full, key)
    ensures cache != null ==> cache.Good(ctx.c)
  {
    var sig := full[..|full| - 1];
    if ctx.SigError(full).Some? { return Err(ctx.SigError(full).value); }
    if ctx.KeyError(key).Some? { return Err(ctx.KeyError(key).value); }
    if ctx.c.parseKey(key).None? || ctx.Parse(sig).None? { return Ok(false); }
    var script := Scripts.RemoveOpcodeByData(subScript, full);
    var valid := VerifySig(ctx, cache, ctx.Digest(script, full), sig, key);
    if !valid && ctx.flags.nullFail && |full| > 0 { return Err(NullFail); }
    return Ok(valid);
  }

  /**
   * The rules a single check goes by, in the order the source applies them. Under strict encoding the hash
   * type is ALL, NONE or SINGLE with or without ANYONECANPAY, and the key is compressed (33 bytes from 2
   * or 3) or uncompressed (65 bytes from 4); either flag for strict signatures selects the strict parser.
   */
  lemma CheckSigIs(ctx: Context, subScript: Octets, full: Octets, key: Octets)
    requires full != [] && ctx.idx < |ctx.tx.txIn|
    ensures var r, c, f := CheckSig(ctx, subScript, full, key), ctx.c, ctx.flags;
            var sig, t := full[..|full| - 1], full[|full| - 1];
            var s := if f.strictEncoding || f.derSignatures then c.parseDer(sig) else c.parseBer(sig);
            var hash := SigHash.SignatureHash(c, Scripts.RemovedByData(subScript, full), t, ctx.tx, ctx.idx);
            if f.strictEncoding && t !in {0x01, 0x02, 0x03, 0x81, 0x82, 0x83} then r == Err(InvalidSigHashType)
            else if (f.derSignatures || f.lowS || f.strictEncoding) && !c.encodingOk(sig, f.lowS) then
              r == Err(SigEncoding)
            else if f.strictEncoding
                    && !(|key| == 33 && key[0] in {2, 3}) && !(|key| == 65 && key[0] == 4) then r == Err(PubKeyType)
            else if s.None? || c.parseKey(key).None? then r == Ok(false)
            else if c.verify(s.value, hash, c.parseKey(key).value) then r == Ok(true)
            else r == if f.nullFail then Err(NullFail) else Ok(false)
  {
    hide Scripts.RemovedByData, SigHash.SignatureHash;
  }
}
