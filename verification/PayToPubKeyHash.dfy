/** Standard output scripts (standard.go), and spending a pay-to-pubkey-hash output. */
module PayToPubKeyHash {
  import opened Bytes
  import opened ScriptErrors
  import opened Tokens
  import opened Stack
  import opened ScriptNum
  import opened Opcodes
  import opened SigCheck
  import opened Wire
  import opened Engine
  import opened EngineSafety
  import opened EngineMeaning
  import opened PayToScriptHash
  import opened Builder
  import C = Crypto
  import SigHash
  import Commitments
  import TxCodec
  import Scripts

  // ----- templates

  function PubKeyHashScript(h: Octets): Octets { [OP_DUP, OP_HASH160, 20] + h + [OP_EQUALVERIFY, OP_CHECKSIG] }

  function ScriptHashScript(h: Octets): Octets { [OP_HASH160, 20] + h + [OP_EQUAL] }

  /** extractPubKeyHash. */
  function ExtractPubKeyHash(s: Octets): Option<Octets> {
    if |s| == 25 && s[0] == OP_DUP && s[1] == OP_HASH160 && s[2] == 20 && s[23] == OP_EQUALVERIFY
      && s[24] == OP_CHECKSIG
    then Some(s[3..23]) else None
  }

  /** extractScriptHash. */
  function ExtractScriptHash(s: Octets): Option<Octets> { if IsScriptHash(s) then Some(ScriptHash(s)) else None }

  function PubKeyScript(key: Octets): Octets { Raw(PushToken(key)) + [OP_CHECKSIG] }

  /** A key in one of the two lengths with a first byte that goes with it. */
  predicate KeyShape(key: Octets) { (|key| == 33 && key[0] in {2, 3}) || (|key| == 65 && key[0] in {4, 6, 7}) }

  /** extractPubKey: the compressed form, then the uncompressed one. */
  function ExtractPubKey(s: Octets): Option<Octets> {
    if |s| == 35 && s[34] == OP_CHECKSIG && s[0] == 33 && (s[1] == 2 || s[1] == 3) then Some(s[1..34])
    else if |s| == 67 && s[66] == OP_CHECKSIG && s[0] == 65 && (s[1] == 4 || s[1] == 6 || s[1] == 7) then Some(s[1..66])
    else None
  }

  lemma KeyPush(key: Octets)
    requires |key| == 33 || |key| == 65
    ensures Raw(PushToken(key)) == [|key|] + key
  {
  }

  lemma ExtractsKeyExactly(s: Octets, key: Octets)
    ensures ExtractPubKey(s) == Some(key) <==> KeyShape(key) && s == PubKeyScript(key)
  {
    if |key| == 33 || |key| == 65 { KeyPush(key); }
    hide Raw, PushToken;
    if ExtractPubKey(s) == Some(key) { assert s == [s[0]] + s[1..|s| - 1] + [s[|s| - 1]]; }
    if KeyShape(key) && s == PubKeyScript(key) { assert s[1..|s| - 1] == key && s[1] == key[0]; }
  }

  /** The three templates in numbers. */
  lemma TemplatesAre(h: Octets, key: Octets)
    ensures PubKeyHashScript(h) == [118, 169, 20] + h + [136, 172]
    ensures ScriptHashScript(h) == [169, 20] + h + [135]
    ensures KeyShape(key) ==> PubKeyScript(key) == [|key|] + key + [172]
  {
    hide Raw, PushToken;
    if KeyShape(key) { KeyPush(key); }
  }

  /** Extraction undoes construction, and only the constructed scripts are recognised. */
  lemma ExtractsExactly(s: Octets, h: Octets)
    ensures ExtractPubKeyHash(s) == Some(h) <==> |h| == 20 && s == PubKeyHashScript(h)
    ensures ExtractScriptHash(s) == Some(h) <==> |h| == 20 && s == ScriptHashScript(h)
  {
    if ExtractPubKeyHash(s) == Some(h) { assert s == s[..3] + s[3..23] + s[23..]; }
    if ExtractScriptHash(s) == Some(h) { assert s == s[..2] + s[2..22] + s[22..]; }
    if |h| == 20 && s == PubKeyHashScript(h) { assert s[3..23] == h; }
    if |h| == 20 && s == ScriptHashScript(h) { assert s[2..22] == h; }
  }

  lemma HashPush(h: Octets)
    requires |h| == 20
    ensures PushToken(h) == Token(20, h) && Raw(PushToken(h)) == [20] + h && CanonicalDataSize(h) == 21
  {
  }

  /** The templates as the builder assembles them. */
  lemma TemplateBytes(h: Octets)
    ensures [] + [OP_DUP] + [OP_HASH160] + ([20] + h) + [OP_EQUALVERIFY] + [OP_CHECKSIG] == PubKeyHashScript(h)
    ensures [] + [OP_HASH160] + ([20] + h) + [OP_EQUAL] == ScriptHashScript(h)
  {
  }

  /** payToPubKeyHashScript. */
  method PayToPubKeyHashScript(h: Octets) returns (script: Octets)
    requires |h| == 20
    ensures script == PubKeyHashScript(h)
  {
    hide PushToken, Raw, CanonicalDataSize, PubKeyHashScript;
    HashPush(h);
    TemplateBytes(h);
    var b := new ScriptBuilder();
    b.AddOp(OP_DUP);
    b.AddOp(OP_HASH160);
    b.AddData(h);
    b.AddOp(OP_EQUALVERIFY);
    b.AddOp(OP_CHECKSIG);
    return b.script;
  }

  /** payToScriptHashScript. */
  method PayToScriptHashScript(h: Octets) returns (script: Octets)
    requires |h| == 20
    ensures script == ScriptHashScript(h)
  {
    hide PushToken, Raw, CanonicalDataSize, ScriptHashScript;
    HashPush(h);
    TemplateBytes(h);
    var b := new ScriptBuilder();
    b.AddOp(OP_HASH160);
    b.AddData(h);
    b.AddOp(OP_EQUAL);
    return b.script;
  }

  /** payToPubKeyScript. */
  method PayToPubKeyScript(key: Octets) returns (script: Octets)
    requires |key| <= MAX_ELEMENT_SIZE
    ensures script == PubKeyScript(key)
  {
    hide PushToken, Raw;
    KeySize(key);
    var b := new ScriptBuilder();
    b.AddData(key);
    b.AddOp(OP_CHECKSIG);
    assert [] + Raw(PushToken(key)) == Raw(PushToken(key));
    return b.script;
  }

  lemma KeySize(key: Octets)
    requires |key| <= MAX_ELEMENT_SIZE
    ensures CanonicalDataSize(key) <= MAX_ELEMENT_SIZE + 3 && |Raw(PushToken(key))| <= MAX_ELEMENT_SIZE + 3
  {
    hide PushToken, Raw, PushedItem, MinimalPush, WellFormed;
    PushTokenMeans(key);
  }

  // ----- evaluation

  function PubKeyHashTokens(h: Octets): seq<Token> {
    [Token(OP_DUP, []), Token(OP_HASH160, []), Token(20, h)] + [Token(OP_EQUALVERIFY, []), Token(OP_CHECKSIG, [])]
  }

  lemma PubKeyHashParses(h: Octets)
    requires |h| == 20
    ensures Parses(PubKeyHashScript(h)) && TokensOf(PubKeyHashScript(h)) == PubKeyHashTokens(h)
  {
    hide TokensOf, Parses, Render, LE;
    var a, b, c, d, e := Token(OP_DUP, []), Token(OP_HASH160, []), Token(20, h), Token(OP_EQUALVERIFY, []),
      Token(OP_CHECKSIG, []);
    Render3(a, b, c);
    RenderSnoc([a, b, c], d);
    RenderSnoc([a, b, c] + [d], e);
    assert PubKeyHashTokens(h) == [a, b, c] + [d] + [e];
    assert Raw(a) == [OP_DUP] && Raw(b) == [OP_HASH160] && Raw(c) == [20] + h && Raw(d) == [OP_EQUALVERIFY]
      && Raw(e) == [OP_CHECKSIG];
    assert PubKeyHashScript(h) == [OP_DUP] + [OP_HASH160] + ([20] + h) + [OP_EQUALVERIFY] + [OP_CHECKSIG];
    RenderParses(PubKeyHashTokens(h));
  }

  lemma ExecuteDup(env: Env, vm: Vm)
    requires vm.cond == [] && vm.d != []
    ensures ExecuteOpcode(env, vm, OP_DUP, []) == Ok(vm.(d := vm.d + [vm.d[|vm.d| - 1]]))
  {
    assert Copied(vm.d, 1, 1) == vm.d + [vm.d[|vm.d| - 1]];
  }

  lemma ExecuteEqualVerify(env: Env, vm: Vm)
    requires vm.cond == [] && |vm.d| >= 2
    ensures ExecuteOpcode(env, vm, OP_EQUALVERIFY, []) ==
            if vm.d[|vm.d| - 1] == vm.d[|vm.d| - 2] then Ok(vm.(d := vm.d[..|vm.d| - 2])) else Err(VerifyFailed)
  {
    hide Truthy, FromBool, Shuffle, Numeric, Digest;
    var rest, x := vm.d[..|vm.d| - 2], FromBool(vm.d[|vm.d| - 1] == vm.d[|vm.d| - 2]);
    assert vm.d[..|vm.d| - 1][..|vm.d| - 2] == rest;
    assert (rest + [x])[..|rest|] == rest;
    TruthyBool();
  }

  lemma ExecuteCheckSig(env: Env, vm: Vm, full: Octets, key: Octets)
    requires env.ctx.idx < |env.ctx.tx.txIn| && HasSubScript(vm) && vm.cond == [] && vm.d == [full, key] && full != []
    ensures var r := CheckSig(env.ctx, SubScript(vm), full, key);
            ExecuteOpcode(env, vm, OP_CHECKSIG, []) == if r.Err? then Err(r.error)
              else Ok(vm.(d := [FromBool(r.value)]))
  {
    hide CheckSig, FromBool;
    assert [full, key][..1] == [full] && [full][..0] == [];
    var r := CheckSig(env.ctx, SubScript(vm), full, key);
    if r.Ok? { assert [] + [FromBool(r.value)] == [FromBool(r.value)]; }
  }

  /** The output script up to the signature check: the key must hash to h. */
  lemma RunHashCheck(env: Env, vm: Vm, full: Octets, key: Octets, h: Octets)
    requires vm.cond == [] && vm.a == [] && vm.d == [full, key] && |h| == 20
    ensures var r := RunTokens(env, vm,
            [Token(OP_DUP, []), Token(OP_HASH160, []), Token(20, h)] + [Token(OP_EQUALVERIFY, [])]);
            if env.ctx.c.Hash160(key) != h then r == Err(VerifyFailed)
            else
              && r.Ok? && r.value.d == [full, key] && r.value.a == [] && r.value.cond == []
              && r.value.lastCodeSep == vm.lastCodeSep
  {
    hide ExecuteOpcode, RunTokens, Raw, MinimalPush;
    var a, b, c, e := Token(OP_DUP, []), Token(OP_HASH160, []), Token(20, h), Token(OP_EQUALVERIFY, []);
    assert [a, b, c] + [e] == [a] + [b, c, e] && [b, c, e] == [b] + [c, e] && [c, e] == [c] + [e] && [e] == [e] + [];
    var hash := env.ctx.c.Hash160(key);
    RunCons(env, vm, a, [b, c, e]);
    ExecuteDup(env, Moved(vm, a));
    assert [full, key] + [key] == [full, key, key];
    var v1 := Counted(Moved(vm, a).(d := [full, key, key]));
    assert RunTokens(env, vm, [a] + [b, c, e]) == RunTokens(env, v1, [b, c, e]);
    RunCons(env, v1, b, [c, e]);
    ExecuteHash160(env, Moved(v1, b));
    assert [full, key, key][..2] + [hash] == [full, key, hash];
    var v2 := Counted(Moved(v1, b).(d := [full, key, hash]));
    assert RunTokens(env, v1, [b] + [c, e]) == RunTokens(env, v2, [c, e]);
    RunCons(env, v2, c, [e]);
    HashPushOk(env, h);
    ExecutePush(env, Moved(v2, c), c);
    assert [full, key, hash] + [h] == [full, key, hash, h];
    var v3 := Counted(Moved(v2, c).(d := [full, key, hash, h]));
    assert RunTokens(env, v2, [c] + [e]) == RunTokens(env, v3, [e]);
    RunCons(env, v3, e, []);
    ExecuteEqualVerify(env, Moved(v3, e));
    assert [full, key, hash, h][..2] == [full, key];
    if hash == h { RunNone(env, Counted(Moved(v3, e).(d := [full, key]))); }
  }

  lemma HashPushOk(env: Env, h: Octets)
    requires |h| == 20
    ensures PushOk(env, Token(20, h)) && PushedItem(20, h) == h
  {
  }

  /** What the output script answers for a signature and a key. */
  function Answer(env: Env, pk: Octets, h: Octets, full: Octets, key: Octets): Result<Items>
    requires env.ctx.idx < |env.ctx.tx.txIn| && full != []
  {
    if env.ctx.c.ripemd160(env.ctx.c.sha256(key)) != h then Err(VerifyFailed)
    else
      var r := CheckSig(env.ctx, pk, full, key);
      if r.Err? then Err(r.error) else Ok([FromBool(r.value)])
  }

  lemma EvalPubKeyHash(env: Env, h: Octets, full: Octets, key: Octets)
    requires env.ctx.idx < |env.ctx.tx.txIn| && |h| == 20 && full != []
    ensures Eval(env, PubKeyHashScript(h), [full, key]) == Answer(env, PubKeyHashScript(h), h, full, key)
  {
    hide RunTokens, ExecuteOpcode, TokensOf, Raw, CheckSig, PubKeyHashScript;
    var pk := PubKeyHashScript(h);
    PubKeyHashParses(h);
    var vm := Start(pk, [full, key]);
    var front := [Token(OP_DUP, []), Token(OP_HASH160, []), Token(20, h)] + [Token(OP_EQUALVERIFY, [])];
    var last := Token(OP_CHECKSIG, []);
    assert PubKeyHashTokens(h) == front + [last] && [last] == [last] + [];
    RunHashCheck(env, vm, full, key, h);
    if env.ctx.c.Hash160(key) != h {
      RunStops(env, vm, front, [last]);
    } else {
      RunAppend(env, vm, front, [last]);
      RunKeepsPlace(env, vm, front);
      var v := RunTokens(env, vm, front).value;
      RunCons(env, v, last, []);
      assert SubScript(Moved(v, last)) == pk;
      ExecuteCheckSig(env, Moved(v, last), full, key);
      var r := CheckSig(env.ctx, pk, full, key);
      if r.Ok? { RunNone(env, Counted(Moved(v, last).(d := [FromBool(r.value)]))); }
    }
  }

  // ----- the hash that is signed is the hash that is verified

  /** The payload handed out for signing an input (services/construction_service.go). */
  function Payload(c: C.Crypto, pk: Octets, tx: MsgTx, idx: nat): Octets
    requires idx < |tx.txIn|
  {
    SigHash.SignatureHash(c, pk, SigHash.SIG_HASH_ALL, tx, idx)
  }

  /**
   * The payload is the double SHA-256 of bytes that two transactions share exactly when they agree in
   * version, lock time, every output, and the outpoint and sequence number of every input.
   */
  lemma PayloadCommits(c: C.Crypto, pk: Octets, a: MsgTx, b: MsgTx, idx: nat)
    requires TxCodec.Fits(a) && TxCodec.Fits(b) && idx < |a.txIn| && idx < |b.txIn| && |pk| <= 33554432
    ensures var p, q := SigHash.Preimage(pk, 1, a, idx), SigHash.Preimage(pk, 1, b, idx);
            && p.Some? && q.Some?
            && Payload(c, pk, a, idx) == c.sha256(c.sha256(p.value))
            && (p == q <==>
                && a.version == b.version && a.lockTime == b.lockTime && a.txOut == b.txOut
                && |a.txIn| == |b.txIn|
                && forall i :: 0 <= i < |a.txIn| ==>
                     a.txIn[i].prev == b.txIn[i].prev && a.txIn[i].sequence == b.txIn[i].sequence)
  {
    hide SigHash.Preimage, TxCodec.Fits;
    Commitments.PreimageCommits(pk, 1, a, pk, 1, b, idx);
    Commitments.PreimageCommits(pk, 1, b, pk, 1, a, idx);
  }

  /** No push of the output script is long enough to contain a signature. */
  lemma NothingRemoved(h: Octets, full: Octets)
    requires |h| == 20 && |full| > 20
    ensures Scripts.RemovedByData(PubKeyHashScript(h), full) == PubKeyHashScript(h)
  {
    hide TokensOf, PubKeyHashScript, Scripts.RemovedByData;
    PubKeyHashParses(h);
    Scripts.LongDataRemovesNothing(PubKeyHashScript(h), full);
  }

  /** The encodings pass whatever checks the flags ask for. */
  predicate Accepted(ctx: Context, full: Octets, key: Octets)
    requires full != []
  {
    && ctx.SigError(full).None? && ctx.KeyError(key).None?
    && ctx.Parse(full[..|full| - 1]).Some? && ctx.c.parseKey(key).Some?
  }

  lemma CheckSigAnswers(ctx: Context, unsigned: MsgTx, h: Octets, full: Octets, key: Octets)
    requires ctx.idx < |ctx.tx.txIn| && SigHash.SameSkeleton(unsigned, ctx.tx)
    requires |h| == 20 && |full| > 20 && full[|full| - 1] == SigHash.SIG_HASH_ALL
    ensures var pk := PubKeyHashScript(h);
            CheckSig(ctx, pk, full, key) == Ok(true) <==>
              && Accepted(ctx, full, key)
              && ctx.c.verify(ctx.Parse(full[..|full| - 1]).value, Payload(ctx.c, pk, unsigned, ctx.idx),
                ctx.c.parseKey(key).value)
  {
    hide SigHash.Preimage, PubKeyHashScript, Scripts.RemovedByData;
    NothingRemoved(h, full);
    SigHash.PreimageIgnoresScripts(PubKeyHashScript(h), SigHash.SIG_HASH_ALL, unsigned, ctx.tx, ctx.idx);
  }

  /** The combined script, as the engine starts on it. */
  lemma CombinedPushes(env: Env, full: Octets, key: Octets)
    requires 1 < |full| <= MAX_ELEMENT_SIZE && 1 < |key| <= MAX_ELEMENT_SIZE
    ensures var s := Built([full, key]);
            && Eval(env, s, []) == Ok([full, key]) && IsPushOnly(s) && s != [] && |s| <= MAX_SCRIPT_SIZE
  {
    hide Eval, IsPushOnly, Built, Buildable, Normals, TotalSize, TokensOf, TailOf, PushTokens, MinimalPush;
    TwoItems(full, key);
    BuiltPushes(env, [full, key], []);
    BuiltPushOnly(env, [full, key]);
    assert [] + [full, key] == [full, key];
  }

  lemma TwoItems(full: Octets, key: Octets)
    requires 1 < |full| <= MAX_ELEMENT_SIZE && 1 < |key| <= MAX_ELEMENT_SIZE
    ensures Buildable([full, key]) && Normals([full, key]) == [full, key]
            && 0 < TotalSize([full, key]) <= MAX_SCRIPT_SIZE
  {
    hide CanonicalDataSize;
    var items := [full, key];
    assert items[1..] == [key] && [key][1..] == [];
    assert Normals([key]) == [key];
    ItemSize(full);
    ItemSize(key);
    assert TotalSize([key]) == CanonicalDataSize(key);
  }

  lemma ItemSize(x: Octets)
    requires |x| <= MAX_ELEMENT_SIZE
    ensures 0 < CanonicalDataSize(x) <= 3 + MAX_ELEMENT_SIZE
  {
  }

  /**
   * For a pay-to-pubkey-hash output: the engine accepts the transaction combined from a signature
   * and a key exactly when the key hashes to the output's hash and the signature verifies over the
   * payload that was handed out for the unsigned transaction.
   */
  lemma SignedHashIsVerifiedHash(ctx: Context, lockOk: (Byte, int) -> bool, unsigned: MsgTx, h: Octets, full: Octets,
      key: Octets)
    requires ctx.c.Sound() && ctx.idx < |ctx.tx.txIn| && SigHash.SameSkeleton(unsigned, ctx.tx)
    requires ctx.tx.txIn[ctx.idx].sigScript == Built([full, key])
    requires |h| == 20 && 20 < |full| <= MAX_ELEMENT_SIZE && 1 < |key| <= MAX_ELEMENT_SIZE
    requires full[|full| - 1] == SigHash.SIG_HASH_ALL
    ensures var pk := PubKeyHashScript(h);
            && NewEngine(ctx, pk, lockOk).Ok?
            && var (env, vm) := NewEngine(ctx, pk, lockOk).value;
               Execute(env, vm).Ok? <==>
                 && ctx.c.ripemd160(ctx.c.sha256(key)) == h && Accepted(ctx, full, key)
                 && ctx.c.verify(ctx.Parse(full[..|full| - 1]).value, Payload(ctx.c, pk, unsigned, ctx.idx),
                   ctx.c.parseKey(key).value)
  {
    hide Eval, IsPushOnly, TokensOf, TailOf, Execute, CheckSig, Accepted, Payload, Built, SigHash.SameSkeleton;
    var pk := PubKeyHashScript(h);
    var env := Env(ctx, false, lockOk);
    CombinedPushes(env, full, key);
    PushOnlyParses(ctx.tx.txIn[ctx.idx].sigScript);
    PubKeyHashParses(h);
    assert !IsScriptHash(pk);
    assert NewEngine(ctx, pk, lockOk).Ok?;
    ExecuteIsValidate(ctx, pk, lockOk);
    EvalPubKeyHash(env, h, full, key);
    CheckSigAnswers(ctx, unsigned, h, full, key);
    TruthyBool();
  }
}
