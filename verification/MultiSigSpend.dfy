/** Running a bare multi-signature output, and the merged scripts that spend it. */
module MultiSigSpend {
  import opened Bytes
  import opened ScriptErrors
  import opened Tokens
  import opened Stack
  import opened ScriptNum
  import opened Opcodes
  import opened SigCheck
  import opened Engine
  import opened EngineSafety
  import opened EngineMeaning
  import opened PayToScriptHash
  import opened Builder
  import MultiSig
  import Merge
  import SigHash
  import opened Wire
  import C = Crypto

  // ----- matching in pop order

  /** The items in the order they are popped. */
  function Rev(s: Items): Items { seq(|s|, i requires 0 <= i < |s| => s[|s| - 1 - i]) }

  /** The assignment for reversed lists. */
  function RevAssign(f: seq<nat>, n: nat): seq<nat>
    requires forall i :: 0 <= i < |f| ==> f[i] < n
  {
    seq(|f|, i requires 0 <= i < |f| => n - 1 - f[|f| - 1 - i])
  }

  /** An order-preserving assignment stays one when both lists are reversed. */
  lemma AssignableReversed(ctx: Context, script: Octets, sigs: Items, keys: Items)
    requires ctx.idx < |ctx.tx.txIn| && MultiSig.Assignable(ctx, script, sigs, keys)
    ensures MultiSig.Assignable(ctx, script, Rev(sigs), Rev(keys))
  {
    hide Context.Verifies;
    var f :| MultiSig.Assigns(f, ctx, script, sigs, keys);
    var g := RevAssign(f, |keys|);
    forall i | 0 <= i < |g|
      ensures g[i] < |keys| && ctx.Verifies(script, Rev(sigs)[i], Rev(keys)[g[i]])
    {
      var k := |f| - 1 - i;
      assert Rev(keys)[g[i]] == keys[f[k]];
      assert ctx.Verifies(script, sigs[k], keys[f[k]]);
    }
    assert MultiSig.Assigns(g, ctx, script, Rev(sigs), Rev(keys));
  }

  lemma RevTwice(s: Items)
    ensures Rev(Rev(s)) == s
  {
  }

  lemma AssignableReversedIff(ctx: Context, script: Octets, sigs: Items, keys: Items)
    requires ctx.idx < |ctx.tx.txIn|
    ensures MultiSig.Assignable(ctx, script, Rev(sigs), Rev(keys)) <==> MultiSig.Assignable(ctx, script, sigs, keys)
  {
    hide MultiSig.Assignable, Rev;
    if MultiSig.Assignable(ctx, script, sigs, keys) { AssignableReversed(ctx, script, sigs, keys); }
    if MultiSig.Assignable(ctx, script, Rev(sigs), Rev(keys)) {
      AssignableReversed(ctx, script, Rev(sigs), Rev(keys));
      RevTwice(sigs);
      RevTwice(keys);
    }
  }

  /** Every signature and key passes the encoding checks the flags ask for. */
  ghost predicate Passes(ctx: Context, sigs: Items, keys: Items) {
    && (forall s :: s in sigs && s != [] ==> ctx.SigError(s).None?)
    && (forall k :: k in keys ==> ctx.KeyError(k).None?)
  }

  /** Without the strict-encoding, DER and low-S flags everything passes. */
  lemma LaxPasses(ctx: Context, sigs: Items, keys: Items)
    requires !ctx.flags.strictEncoding && !ctx.flags.derSignatures && !ctx.flags.lowS
    ensures Passes(ctx, sigs, keys)
  {
  }

  lemma {:induction false} PassingGreedyOk(ctx: Context, script: Octets, sigs: Items, keys: Items)
    requires ctx.idx < |ctx.tx.txIn| && Passes(ctx, sigs, keys)
    ensures MultiSig.Greedy(ctx, script, sigs, keys).Ok?
    decreases |keys|
  {
    hide Context.Verifies, Context.SigError, Context.KeyError;
    if sigs != [] && |sigs| <= |keys| {
      assert sigs[0] in sigs && keys[0] in keys;
      var matched := MultiSig.TryPair(ctx, script, sigs[0], keys[0]);
      var left := if matched.value then sigs[1..] else sigs;
      assert (forall s :: s in left ==> s in sigs) && (forall k :: k in keys[1..] ==> k in keys);
      PassingGreedyOk(ctx, script, left, keys[1..]);
    }
  }

  lemma PassesReversed(ctx: Context, sigs: Items, keys: Items)
    requires Passes(ctx, sigs, keys)
    ensures Passes(ctx, Rev(sigs), Rev(keys))
  {
    hide Context.SigError, Context.KeyError;
    assert (forall s :: s in Rev(sigs) ==> s in sigs) && (forall k :: k in Rev(keys) ==> k in keys);
  }

  // ----- the operands

  lemma SmallNumber(n: nat, minimal: bool)
    requires n <= MAX_PUB_KEYS
    ensures MakeNum(NumBytes(n), minimal, 4) == Ok(n)
  {
    PowValues();
    EncodedSize(n, 4);
    BytesAreMinimal(n);
    ValueOfBytes(n);
    hide NumBytes, NumValue, Minimal;
  }

  lemma PopNumOf(base: Items, n: nat, minimal: bool)
    requires n <= MAX_PUB_KEYS
    ensures PopNum(base + [NumBytes(n)], minimal) == Ok((n, base))
  {
    hide NumBytes, MakeNum;
    SmallNumber(n, minimal);
    assert (base + [NumBytes(n)])[..|base|] == base;
  }

  lemma PopManyOf(base: Items, items: Items)
    ensures PopMany(base + items, |items|) == Ok((Rev(items), base))
  {
    var d := base + items;
    assert PopMany(d, |items|).value.0 == Rev(items);
    assert d[..|base|] == base;
  }

  /** A stack, then the number of signatures, the keys and their number: what CHECKMULTISIG finds. */
  function Layout(d: Items, n: nat, keys: Items): Items { (d + [NumBytes(n)]) + keys + [NumBytes(|keys|)] }

  /** The pops from a stack that holds a dummy and the signatures. */
  lemma OperandsOf(flags: Flags, sigs: Items, keys: Items)
    requires |sigs| <= |keys| <= MAX_PUB_KEYS
    ensures MultiSigOperands(flags, Layout([[]] + sigs, |sigs|, keys), 0) ==
            Ok(MultiSigArgs(Rev(keys), Rev(sigs), [], |keys|))
  {
    hide PopNum, PopMany, NumBytes, Rev;
    var inner := [[]] + sigs + [NumBytes(|sigs|)];
    PopNumOf(inner + keys, |keys|, flags.minimalData);
    PopManyOf(inner, keys);
    PopNumOf([[]] + sigs, |sigs|, flags.minimalData);
    PopManyOf([[]], sigs);
    RevSize(keys);
    RevSize(sigs);
    DummyOnly();
  }

  /** A stack without room for the signatures and the dummy is an error. */
  lemma OperandsMissing(flags: Flags, d: Items, n: nat, keys: Items)
    requires |d| <= n <= |keys| <= MAX_PUB_KEYS
    ensures MultiSigOperands(flags, Layout(d, n, keys), 0) == Err(InvalidStackOperation)
  {
    hide PopNum, NumBytes, Rev;
    var inner := d + [NumBytes(n)];
    PopNumOf(inner + keys, |keys|, flags.minimalData);
    PopManyOf(inner, keys);
    PopNumOf(d, n, flags.minimalData);
    RevSize(keys);
  }

  lemma RevSize(s: Items)
    ensures |Rev(s)| == |s|
  {
  }

  lemma DummyOnly()
    ensures PopItem([[]]) == Ok(([], []))
  {
  }

  /** The verdict on signatures and keys given in script order. */
  function Verdict(ctx: Context, script: Octets, sigs: Items, keys: Items): Result<bool>
    requires ctx.idx < |ctx.tx.txIn|
  {
    MultiSigVerdict(ctx, script, MultiSigArgs(Rev(keys), Rev(sigs), [], |keys|))
  }

  /** The verdict is true exactly when no pair fails a check and the signatures can be assigned in order. */
  lemma VerdictTrueIff(ctx: Context, script: Octets, sigs: Items, keys: Items)
    requires ctx.idx < |ctx.tx.txIn|
    ensures Verdict(ctx, script, sigs, keys) == Ok(true) <==>
              MultiSig.Greedy(ctx, script, Rev(sigs), Rev(keys)).Ok? && MultiSig.Assignable(ctx, script, sigs, keys)
    ensures Passes(ctx, sigs, keys) ==> MultiSig.Greedy(ctx, script, Rev(sigs), Rev(keys)).Ok?
  {
    hide MultiSig.Assignable, MultiSig.Greedy, Rev, Passes;
    AssignableReversedIff(ctx, script, sigs, keys);
    if MultiSig.Greedy(ctx, script, Rev(sigs), Rev(keys)).Ok? {
      MultiSig.GreedyIsComplete(ctx, script, Rev(sigs), Rev(keys));
    }
    if Passes(ctx, sigs, keys) {
      PassesReversed(ctx, sigs, keys);
      PassingGreedyOk(ctx, script, Rev(sigs), Rev(keys));
    }
  }

  /** CHECKMULTISIG on a dummy and as many signatures as asked for. */
  lemma ExecuteCheckMultiSig(env: Env, vm: Vm, sigs: Items, keys: Items)
    requires env.ctx.idx < |env.ctx.tx.txIn| && |sigs| <= |keys| <= MAX_PUB_KEYS
    requires vm.cond == [] && vm.numOps == 0 && vm.d == Layout([[]] + sigs, |sigs|, keys) && HasSubScript(vm)
    ensures var r := Verdict(env.ctx, SubScript(vm), sigs, keys);
            ExecuteOpcode(env, vm, OP_CHECKMULTISIG, []) ==
            if r.Err? then Err(r.error) else Ok(vm.(d := [FromBool(r.value)], numOps := |keys|))
  {
    hide Layout, MultiSigOperands, MultiSigVerdict, SubScript, FromBool;
    OperandsOf(env.Flags(), sigs, keys);
    var r := Verdict(env.ctx, SubScript(vm), sigs, keys);
    if r.Ok? { assert [] + [FromBool(r.value)] == [FromBool(r.value)]; }
  }

  lemma ExecuteMissing(env: Env, vm: Vm, d: Items, n: nat, keys: Items)
    requires env.ctx.idx < |env.ctx.tx.txIn| && |d| <= n <= |keys| <= MAX_PUB_KEYS
    requires vm.cond == [] && vm.numOps == 0 && vm.d == Layout(d, n, keys) && HasSubScript(vm)
    ensures ExecuteOpcode(env, vm, OP_CHECKMULTISIG, []) == Err(InvalidStackOperation)
  {
    hide Layout, MultiSigOperands, MultiSigVerdict, SubScript;
    OperandsMissing(env.Flags(), d, n, keys);
  }

  /** Without a script error the pushed boolean says whether the signatures can be assigned to keys in order. */
  lemma CheckMultiSigDecides(env: Env, vm: Vm)
    requires env.ctx.idx < |env.ctx.tx.txIn| && HasSubScript(vm) && CheckMultiSigOp(env, vm).Ok?
    ensures MultiSigOperands(env.Flags(), vm.d, vm.numOps).Ok?
    ensures var args := MultiSigOperands(env.Flags(), vm.d, vm.numOps).value;
            var d := CheckMultiSigOp(env, vm).value.0;
            && (d == args.rest + [FromBool(true)] <==>
              MultiSig.Assignable(env.ctx, SubScript(vm), args.sigs, args.keys))
            && (d == args.rest + [FromBool(true)] || d == args.rest + [FromBool(false)])
  {
    hide MultiSigOperands, MultiSig.Assignable, MultiSig.Greedy, SubScript;
    var args := MultiSigOperands(env.Flags(), vm.d, vm.numOps).value;
    MultiSig.GreedyIsComplete(env.ctx, SubScript(vm), args.sigs, args.keys);
    var d := CheckMultiSigOp(env, vm).value.0;
    assert d[|d| - 1] == FromBool(MultiSig.Greedy(env.ctx, SubScript(vm), args.sigs, args.keys).value);
  }

  // ----- the output script

  /** Tokens that push exactly the given keys, acceptable to the engine. */
  ghost predicate KeyTokens(env: Env, kt: seq<Token>, keys: Items) {
    && |kt| == |keys|
    && forall i :: 0 <= i < |kt| ==> 0 < kt[i].op <= OP_PUSHDATA4 && kt[i].data == keys[i] && PushOk(env, kt[i])
  }

  function MultiSigTokens(n: nat, kt: seq<Token>): seq<Token> {
    [IntToken(n)] + kt + [IntToken(|kt|)] + [Token(OP_CHECKMULTISIG, [])]
  }

  lemma {:induction false} PushedKeys(env: Env, kt: seq<Token>, keys: Items)
    requires KeyTokens(env, kt, keys)
    ensures (forall t :: t in kt ==> IsPush(t.op) && PushOk(env, t)) && Pushed(kt) == keys
  {
    hide PushOk;
    if kt != [] {
      assert kt == [kt[0]] + kt[1..] && keys == [keys[0]] + keys[1..];
      PushedKeys(env, kt[1..], keys[1..]);
    }
  }

  lemma {:induction false} PushedAppend(a: seq<Token>, b: seq<Token>)
    requires (forall t :: t in a ==> IsPush(t.op)) && (forall t :: t in b ==> IsPush(t.op))
    ensures (forall t :: t in a + b ==> IsPush(t.op)) && Pushed(a + b) == Pushed(a) + Pushed(b)
  {
    hide PushedItem, IsPush;
    if a == [] {
      assert a + b == b;
    } else {
      var s := a + b;
      assert s[1..] == a[1..] + b && s[0] == a[0];
      PushedAppend(a[1..], b);
      Assoc([PushedItem(a[0].op, a[0].data)], Pushed(a[1..]), Pushed(b));
    }
  }

  lemma IntPush(env: Env, n: nat)
    requires n <= MAX_PUB_KEYS
    ensures IsPush(IntToken(n).op) && PushOk(env, IntToken(n)) && Pushed([IntToken(n)]) == [NumBytes(n)]
  {
    hide PushedItem, MinimalPush, NumBytes, WellFormed, PushToken;
    IntTokenMeans(n);
    IntTokenSmall(n);
    assert [IntToken(n)][1..] == [];
  }

  lemma IntTokenSmall(n: nat)
    requires n <= MAX_PUB_KEYS
    ensures |IntToken(n).data| <= MAX_ELEMENT_SIZE
  {
    hide PushToken, NumBytes, PushedItem, MinimalPush, WellFormed;
    Int64Fits(n);
    PushTokenMeans(NumBytes(n));
  }

  /** The pushes of the output script, on whatever the signature script left. */
  lemma RunKeyPushes(env: Env, vm: Vm, n: nat, kt: seq<Token>, keys: Items)
    requires KeyTokens(env, kt, keys) && n <= |keys| <= MAX_PUB_KEYS
    requires vm.cond == [] && vm.a == [] && |vm.d| <= MAX_PUB_KEYS + 1
    ensures var r := RunTokens(env, vm, [IntToken(n)] + kt + [IntToken(|kt|)]);
            && r.Ok? && r.value.d == Layout(vm.d, n, keys) && r.value.a == [] && r.value.cond == []
            && r.value.lastCodeSep == vm.lastCodeSep && r.value.numOps == vm.numOps
  {
    hide RunTokens, Pushed, PushOk, IsPush, IntToken, NumBytes;
    var a, b := [IntToken(n)], [IntToken(|kt|)];
    IntPush(env, n);
    IntPush(env, |kt|);
    PushedKeys(env, kt, keys);
    PushedAppend(a, kt);
    PushedAppend(a + kt, b);
    RunPushes(env, vm, a + kt + b);
    assert vm.d + ([NumBytes(n)] + keys + [NumBytes(|keys|)]) == Layout(vm.d, n, keys);
  }

  /** The output script up to its last opcode. */
  lemma EvalToCheck(env: Env, pk: Octets, d: Items, n: nat, kt: seq<Token>, keys: Items) returns (at: Vm)
    requires n <= |keys| <= MAX_PUB_KEYS && |d| <= MAX_PUB_KEYS + 1
    requires KeyTokens(env, kt, keys) && TokensOf(pk) == MultiSigTokens(n, kt)
    ensures at.cond == [] && at.numOps == 0 && at.d == Layout(d, n, keys) && at.a == []
    ensures HasSubScript(at) && SubScript(at) == pk
    ensures var r := ExecuteOpcode(env, at, OP_CHECKMULTISIG, []);
            && (r.Err? ==> Eval(env, pk, d) == Err(r.error))
            && (r.Ok? && |r.value.d| + |r.value.a| <= MAX_STACK_SIZE && r.value.cond == [] ==>
                  Eval(env, pk, d) == Ok(r.value.d))
  {
    hide RunTokens, ExecuteOpcode, KeyTokens, TokensOf, IntToken, Layout, Raw;
    var vm := Start(pk, d);
    var pushes := [IntToken(n)] + kt + [IntToken(|kt|)];
    var check := Token(OP_CHECKMULTISIG, []);
    RunKeyPushes(env, vm, n, kt, keys);
    RunAppend(env, vm, pushes, [check]);
    RunKeepsPlace(env, vm, pushes);
    var v := RunTokens(env, vm, pushes).value;
    assert [check] == [check] + [];
    RunCons(env, v, check, []);
    at := Moved(v, check);
    var r := ExecuteOpcode(env, at, OP_CHECKMULTISIG, []);
    if r.Ok? { RunNone(env, Counted(r.value)); }
  }

  /** A bare multi-signature script on a dummy and n signatures answers with the verdict, under any flags. */
  lemma EvalMultiSig(env: Env, pk: Octets, sigs: Items, kt: seq<Token>, keys: Items)
    requires env.ctx.idx < |env.ctx.tx.txIn| && |sigs| <= |keys| <= MAX_PUB_KEYS
    requires KeyTokens(env, kt, keys) && TokensOf(pk) == MultiSigTokens(|sigs|, kt)
    ensures var r := Verdict(env.ctx, pk, sigs, keys);
            Eval(env, pk, [[]] + sigs) == if r.Err? then Err(r.error) else Ok([FromBool(r.value)])
    ensures Eval(env, pk, [[]] + sigs) == Ok([FromBool(true)]) <==>
              MultiSig.Greedy(env.ctx, pk, Rev(sigs), Rev(keys)).Ok? && MultiSig.Assignable(env.ctx, pk, sigs, keys)
  {
    hide ExecuteOpcode, KeyTokens, TokensOf, Layout, MultiSig.Assignable, MultiSig.Greedy, Verdict, Eval, Rev;
    var at := EvalToCheck(env, pk, [[]] + sigs, |sigs|, kt, keys);
    ExecuteCheckMultiSig(env, at, sigs, keys);
    VerdictTrueIff(env.ctx, pk, sigs, keys);
    TruthyBool();
  }

  /** With fewer items than signatures asked for, or no dummy below them, the script fails. */
  lemma EvalMultiSigShort(env: Env, pk: Octets, d: Items, n: nat, kt: seq<Token>, keys: Items)
    requires env.ctx.idx < |env.ctx.tx.txIn| && |d| <= n <= |keys| <= MAX_PUB_KEYS
    requires KeyTokens(env, kt, keys) && TokensOf(pk) == MultiSigTokens(n, kt)
    ensures Eval(env, pk, d) == Err(InvalidStackOperation)
  {
    hide ExecuteOpcode, KeyTokens, TokensOf, Layout, Eval;
    var at := EvalToCheck(env, pk, d, n, kt, keys);
    ExecuteMissing(env, at, d, n, keys);
  }

  // ----- the merged script

  /** What the builder kept of the items is what the signature script leaves. */
  lemma EvalAccepted(env: Env, items: Items)
    requires 1 <= |items| <= MAX_PUB_KEYS + 1 && items[0] == [] && forall s :: s in items ==> |s| != 1
    ensures var script := Built(Accepted(items));
            && Eval(env, script, []) == Ok(Accepted(items))
            && IsPushOnly(script) && script != [] && |script| <= MAX_SCRIPT_SIZE
  {
    hide Built, Accepted, Buildable, TotalSize, TokensOf, TailOf, PushTokens, Eval, MinimalPush, IsPushOnly;
    var kept := Accepted(items);
    AcceptedPrefix(items);
    FirstAccepted(items);
    NormalsSame(kept);
    BuiltPushes(env, kept, []);
    BuiltPushOnly(env, kept);
    BuildableSize(kept);
    assert [] + kept == kept;
  }

  /** The dummy is always written. */
  lemma {:induction false} FirstAccepted(items: Items)
    requires items != [] && items[0] == []
    ensures Accepted(items) != []
  {
    var k := |items| - 1;
    if k > 0 { FirstAccepted(items[..k]); } else { assert items[..0] == []; }
  }

  lemma BuildableSize(items: Items)
    requires Buildable(items)
    ensures TotalSize(items) <= MAX_SCRIPT_SIZE && (items != [] ==> TotalSize(items) > 0)
  {
  }

  lemma {:induction false} NormalsSame(items: Items)
    requires forall s :: s in items ==> |s| != 1
    ensures Normals(items) == items
  {
    if items != [] {
      assert items == [items[0]] + items[1..];
      NormalsSame(items[1..]);
    }
  }

  /** What the merge verified, the engine verifies: neither depends on signature scripts. */
  lemma SignsVerifies(job: Merge.Job, ctx: Context, full: Octets, key: Octets)
    requires job.Valid() && ctx.c == job.c && ctx.idx == job.idx
    requires SigHash.SameSkeleton(job.tx, ctx.tx) && job.Signs(full, key)
    ensures ctx.Verifies(job.pk, full, key)
  {
    hide SigHash.Preimage;
    SigHash.PreimageIgnoresScripts(job.pk, full[|full| - 1], job.tx, ctx.tx, job.idx);
  }

  /** Signatures chosen in key order can be assigned to the keys in order. */
  lemma {:induction false} ChosenAssignable(job: Merge.Job, ctx: Context, keys: Items, m: map<Octets, Octets>, n: int)
    requires job.Valid() && ctx.c == job.c && ctx.idx == job.idx && SigHash.SameSkeleton(job.tx, ctx.tx)
    requires Merge.MapOk(job, m) && forall k :: k in keys ==> k in job.keys
    ensures MultiSig.Assignable(ctx, job.pk, Merge.Chosen(keys, job.addr, m, n), keys)
  {
    hide Context.Verifies, Merge.Job.Signs, SigHash.SameSkeleton, Merge.Job.Valid;
    KeepIdx(job, ctx);
    var chosen := Merge.Chosen(keys, job.addr, m, n);
    if keys == [] {
      assert MultiSig.Assigns([], ctx, job.pk, [], keys);
    } else if job.addr(keys[0]) !in m {
      ChosenAssignable(job, ctx, keys[1..], m, n);
      var f :| MultiSig.Assigns(f, ctx, job.pk, chosen, keys[1..]);
      MultiSig.AssignsSkip(f, ctx, job.pk, chosen, keys);
    } else {
      assert keys[0] in keys;
      SignsVerifies(job, ctx, chosen[0], keys[0]);
      if n == 1 {
        assert chosen[1..] == [];
        assert MultiSig.Assigns([], ctx, job.pk, chosen[1..], keys[1..]);
        MultiSig.AssignsTake([], ctx, job.pk, chosen, keys);
      } else {
        ChosenAssignable(job, ctx, keys[1..], m, n - 1);
        assert chosen[1..] == Merge.Chosen(keys[1..], job.addr, m, n - 1);
        var f :| MultiSig.Assigns(f, ctx, job.pk, chosen[1..], keys[1..]);
        MultiSig.AssignsTake(f, ctx, job.pk, chosen, keys);
      }
    }
  }

  lemma KeepIdx(job: Merge.Job, ctx: Context)
    requires job.Valid() && ctx.idx == job.idx && SigHash.SameSkeleton(job.tx, ctx.tx)
    ensures job.idx < |job.tx.txIn| && ctx.idx < |ctx.tx.txIn|
  {
  }

  /** The items the merge hands to the builder, one dummy and n signatures. */
  lemma ItemsShape(job: Merge.Job, sigs: Items, n: nat) returns (chosen: Items)
    requires job.Valid() && 1 <= n <= |job.keys|
    requires Merge.Covered(job.keys, job.addr, Merge.AddrToSig(job, sigs)) >= n
    ensures chosen == ChosenFor(job, sigs, n) && |chosen| == n
    ensures Merge.MergedItems(job, sigs, n) == [[]] + chosen && forall s :: s in chosen ==> |s| >= 9
  {
    hide Merge.Chosen, Merge.AddrToSig, Merge.MapOk, Merge.Covered;
    var m := Merge.AddrToSig(job, sigs);
    chosen := Merge.Chosen(job.keys, job.addr, m, n);
    Merge.AddrToSigOk(job, sigs);
    Merge.ChosenSigns(job, job.keys, m, n);
    Merge.ChosenCount(job.keys, job.addr, m, n);
    assert [[]] + chosen + Merge.Empties(0) == [[]] + chosen;
  }

  function ChosenFor(job: Merge.Job, sigs: Items, n: nat): Items
    requires job.idx < |job.tx.txIn|
  {
    Merge.Chosen(job.keys, job.addr, Merge.AddrToSig(job, sigs), n)
  }

  /** The two scripts leave true exactly when the builder kept every item and no encoding check fails. */
  lemma MergedEvaluates(job: Merge.Job, env: Env, n: nat, sigs: Items, kt: seq<Token>)
    requires job.Valid() && env.ctx.c == job.c && env.ctx.idx == job.idx && SigHash.SameSkeleton(job.tx, env.ctx.tx)
    requires 1 <= n <= |job.keys| && KeyTokens(env, kt, job.keys) && TokensOf(job.pk) == MultiSigTokens(n, kt)
    requires Merge.Covered(job.keys, job.addr, Merge.AddrToSig(job, sigs)) >= n
    ensures env.ctx.idx < |env.ctx.tx.txIn|
    ensures var items := Merge.MergedItems(job, sigs, n);
            var script := Built(Accepted(items));
            var r := Eval(env, script, []);
            && IsPushOnly(script) && script != [] && |script| <= MAX_SCRIPT_SIZE && r.Ok?
            && (Eval(env, job.pk, r.value) == Ok([FromBool(true)]) <==>
                  Buildable(items) && MultiSig.Greedy(env.ctx, job.pk, Rev(ChosenFor(job, sigs, n)), Rev(job.keys)).Ok?)
            && (Eval(env, job.pk, r.value).Ok? ==>
                  Eval(env, job.pk, r.value).value in {[FromBool(true)], [FromBool(false)]})
  {
    hide Merge.Chosen, Merge.AddrToSig, Merge.MapOk, Merge.MergedItems, Eval, IsPushOnly, Built, Accepted, Buildable,
         MultiSig.Assignable, MultiSig.Greedy, Rev, KeyTokens, TokensOf, MultiSigTokens, SigHash.SameSkeleton,
         Merge.Job.Valid, Merge.Covered, Verdict;
    KeepIdx(job, env.ctx);
    Merge.KeyLimit(job);
    var chosen := ItemsShape(job, sigs, n);
    var items := [[]] + chosen;
    EvalAccepted(env, items);
    AcceptedPrefix(items);
    if Buildable(items) {
      Merge.AddrToSigOk(job, sigs);
      ChosenAssignable(job, env.ctx, job.keys, Merge.AddrToSig(job, sigs), n);
      EvalMultiSig(env, job.pk, chosen, kt, job.keys);
    } else {
      EvalMultiSigShort(env, job.pk, Accepted(items), n, kt, job.keys);
    }
  }

  /**
   * Merging preserves spendability: when the two scripts together hold signatures for at least n of
   * the keys, the engine accepts the merged script for the bare multi-signature output if and only if
   * every item to be pushed fits the builder's limits and no pair of the check fails an encoding rule.
   */
  lemma MergedSpendsIff(job: Merge.Job, ctx: Context, lockOk: (Byte, int) -> bool, n: nat,
                        sigScript: Octets, prevScript: Octets, kt: seq<Token>)
    requires job.Valid() && ctx.c == job.c && ctx.idx == job.idx
    requires SigHash.SameSkeleton(job.tx, ctx.tx) && ctx.idx < |ctx.tx.txIn|
    requires 1 <= n <= |job.keys| && KeyTokens(Env(ctx, false, lockOk), kt, job.keys)
    requires Parses(job.pk) && |job.pk| <= MAX_SCRIPT_SIZE && TokensOf(job.pk) == MultiSigTokens(n, kt)
    requires sigScript != [] && prevScript != [] && Parses(sigScript) && Parses(prevScript)
    requires Merge.Covered(job.keys, job.addr, Merge.AddrToSig(job, Merge.Found(sigScript, prevScript))) >= n
    requires ctx.tx.txIn[ctx.idx].sigScript == Merge.Merged(job, n, sigScript, prevScript)
    ensures NewEngine(ctx, job.pk, lockOk).Ok?
    ensures var (env, vm) := NewEngine(ctx, job.pk, lockOk).value;
            var found := Merge.Found(sigScript, prevScript);
            Execute(env, vm).Ok? <==>
              && Buildable(Merge.MergedItems(job, found, n))
              && MultiSig.Greedy(ctx, job.pk, Rev(ChosenFor(job, found, n)), Rev(job.keys)).Ok?
  {
    hide Merge.AddrToSig, Merge.MergedItems, Merge.Found, Merge.Covered, Eval, IsPushOnly, Built, Accepted, Buildable,
         KeyTokens, TokensOf, TailOf, SigHash.SameSkeleton, Merge.Job.Valid, Execute, MultiSig.Greedy, Rev;
    var found := Merge.Found(sigScript, prevScript);
    var env := Env(ctx, false, lockOk);
    MergedEvaluates(job, env, n, found, kt);
    NotScriptHash(job.pk, n, kt);
    PushOnlyParses(ctx.tx.txIn[ctx.idx].sigScript);
    SoundJob(job);
    ExecuteIsValidate(ctx, job.pk, lockOk);
    TruthyBool();
  }

  /** When the chosen signatures and the keys pass the encoding checks, only the builder's limits matter. */
  lemma MergedSpends(job: Merge.Job, ctx: Context, lockOk: (Byte, int) -> bool, n: nat,
                     sigScript: Octets, prevScript: Octets, kt: seq<Token>)
    requires job.Valid() && ctx.c == job.c && ctx.idx == job.idx
    requires SigHash.SameSkeleton(job.tx, ctx.tx) && ctx.idx < |ctx.tx.txIn|
    requires 1 <= n <= |job.keys| && KeyTokens(Env(ctx, false, lockOk), kt, job.keys)
    requires Parses(job.pk) && |job.pk| <= MAX_SCRIPT_SIZE && TokensOf(job.pk) == MultiSigTokens(n, kt)
    requires sigScript != [] && prevScript != [] && Parses(sigScript) && Parses(prevScript)
    requires Merge.Covered(job.keys, job.addr, Merge.AddrToSig(job, Merge.Found(sigScript, prevScript))) >= n
    requires ctx.tx.txIn[ctx.idx].sigScript == Merge.Merged(job, n, sigScript, prevScript)
    requires Passes(ctx, ChosenFor(job, Merge.Found(sigScript, prevScript), n), job.keys)
    ensures NewEngine(ctx, job.pk, lockOk).Ok?
    ensures var (env, vm) := NewEngine(ctx, job.pk, lockOk).value;
            var chosen := ChosenFor(job, Merge.Found(sigScript, prevScript), n);
            Execute(env, vm).Ok? <==>
              (forall s :: s in chosen ==> |s| <= MAX_ELEMENT_SIZE) && 1 + TotalSize(chosen) <= MAX_SCRIPT_SIZE
  {
    hide Merge.AddrToSig, Merge.MergedItems, Merge.Found, Merge.Covered, Merge.Merged, KeyTokens, TokensOf, TailOf,
         SigHash.SameSkeleton, Merge.Job.Valid, Execute, MultiSig.Greedy, Rev, NewEngine, Passes, MultiSigTokens,
         ChosenFor;
    var found := Merge.Found(sigScript, prevScript);
    KeepIdx(job, ctx);
    MergedSpendsIff(job, ctx, lockOk, n, sigScript, prevScript, kt);
    VerdictTrueIff(ctx, job.pk, ChosenFor(job, found, n), job.keys);
    var chosen := ItemsShape(job, found, n);
    ItemsFit(chosen);
  }

  lemma ItemsFit(chosen: Items)
    ensures Buildable([[]] + chosen) <==>
              (forall s :: s in chosen ==> |s| <= MAX_ELEMENT_SIZE) && 1 + TotalSize(chosen) <= MAX_SCRIPT_SIZE
  {
    var items := [[]] + chosen;
    assert items[1..] == chosen;
    assert forall s :: s in items <==> s == [] || s in chosen;
    hide TotalSize;
    BuiltDummy(chosen);
  }

  lemma BuiltDummy(chosen: Items)
    ensures TotalSize([[]] + chosen) == 1 + TotalSize(chosen)
  {
    assert ([[]] + chosen)[1..] == chosen;
  }

  lemma SoundJob(job: Merge.Job)
    requires job.Valid()
    ensures job.c.Sound()
  {
  }

  /** A script that ends in CHECKMULTISIG is not a script-hash output. */
  lemma NotScriptHash(pk: Octets, n: nat, kt: seq<Token>)
    requires TokensOf(pk) == MultiSigTokens(n, kt)
    ensures !IsScriptHash(pk)
  {
    hide TokensOf, IntToken;
    var ts := TokensOf(pk);
    assert ts[|ts| - 1] == Token(OP_CHECKMULTISIG, []);
    if IsScriptHash(pk) { ScriptHashTokens(pk); }
  }

  // ----- a signature the builder refuses

  /** The data found in a script of one push and a script of one empty push. */
  lemma FoundOne(full: Octets)
    requires 1 < |full| < MAX_SCRIPT
    ensures Parses(Built([full])) && Parses(Built([[]])) && Built([full]) != [] && Built([[]]) != []
    ensures Merge.Found(Built([full]), Built([[]])) == [full]
  {
    hide TokensOf, TailOf, WellFormed, Raw, MinimalPush, PushedItem, PushToken, Render;
    OnePush(full);
    OnePush([]);
    var t, u := PushToken(full), PushToken([]);
    assert t.data == full && u.data == [] by { PushTokenData(full); }
    assert Merge.DataOf([t][..0]) == [] && [t][..0] == [] && [u][..0] == [];
    assert Merge.DataOf([t]) == [full] && Merge.DataOf([u]) == [];
  }

  lemma PushTokenData(full: Octets)
    requires |full| > 1
    ensures PushToken(full).data == full && PushToken([]).data == []
  {
  }

  lemma OnePush(x: Octets)
    requires |x| < MAX_SCRIPT
    ensures Parses(Built([x])) && TokensOf(Built([x])) == [PushToken(x)] && Built([x]) != []
  {
    hide TokensOf, TailOf, Raw, MinimalPush, PushedItem, PushToken;
    PushTokenMeans(x);
    assert [x][1..] == [] && PushTokens([]) == [];
    assert PushTokens([x]) == [PushToken(x)];
    RenderParses([PushToken(x)]);
    assert Render([PushToken(x)][1..]) == [];
  }

  /** One key, one matching signature of more than 520 bytes: what the example below is about. */
  ghost predicate LongCase(job: Merge.Job, ctx: Context, lockOk: (Byte, int) -> bool, full: Octets, kt: seq<Token>) {
    && job.Valid() && ctx.c == job.c && ctx.idx == job.idx && SigHash.SameSkeleton(job.tx, ctx.tx)
    && |job.keys| == 1 && KeyTokens(Env(ctx, false, lockOk), kt, job.keys)
    && Parses(job.pk) && |job.pk| <= MAX_SCRIPT_SIZE && TokensOf(job.pk) == MultiSigTokens(1, kt)
    && MAX_ELEMENT_SIZE < |full| < MAX_SCRIPT && job.Signs(full, job.keys[0])
    && ctx.idx < |ctx.tx.txIn|
    && ctx.tx.txIn[ctx.idx].sigScript == Merge.Merged(job, 1, Built([full]), Built([[]]))
  }

  /** The merge matches the key, yet keeps only the dummy, and the engine refuses the result. */
  lemma LongSignatureLost(job: Merge.Job, ctx: Context, lockOk: (Byte, int) -> bool, full: Octets, kt: seq<Token>)
    requires LongCase(job, ctx, lockOk, full, kt)
    ensures Merge.Covered(job.keys, job.addr, Merge.AddrToSig(job, Merge.Found(Built([full]), Built([[]])))) == 1
    ensures Merge.Merged(job, 1, Built([full]), Built([[]])) == Built([[]])
    ensures NewEngine(ctx, job.pk, lockOk).Ok?
    ensures var (env, vm) := NewEngine(ctx, job.pk, lockOk).value; Execute(env, vm).Err?
  {
    hide Eval, KeyTokens, TokensOf, TailOf, SigHash.SameSkeleton, Merge.Job.Valid, Execute, MultiSig.Greedy, Rev,
         NewEngine, Merge.Job.Signs, Built, MultiSigTokens, Merge.Found, Merge.AddrToSig, Merge.Covered,
         Merge.MergedItems, Accepted, Buildable;
    KeepIdx(job, ctx);
    FoundOne(full);
    OneCovered(job, full);
    MergedSpendsIff(job, ctx, lockOk, 1, Built([full]), Built([[]]), kt);
  }

  lemma OneCovered(job: Merge.Job, full: Octets)
    requires job.idx < |job.tx.txIn| && |job.keys| == 1 && job.Signs(full, job.keys[0]) && |full| > MAX_ELEMENT_SIZE
    ensures Merge.Covered(job.keys, job.addr, Merge.AddrToSig(job, [full])) == 1
    ensures Merge.MergedItems(job, [full], 1) == [[], full]
    ensures !Buildable([[], full]) && Accepted([[], full]) == [[]]
  {
    hide Merge.Job.Signs, CanonicalDataSize;
    var k := job.keys[0];
    assert [full][..0] == [] && Merge.FirstKey(job, full, 0) == 0;
    assert Merge.AddrToSig(job, [full]) == map[job.addr(k) := full] by {
      assert Merge.AddrToSig(job, []) == map[];
    }
    assert job.keys == [k] && job.keys[1..] == [];
    assert Merge.Covered([], job.addr, map[job.addr(k) := full]) == 0;
    assert Merge.Chosen(job.keys, job.addr, map[job.addr(k) := full], 1) == [full];
    assert [[]] + [full] + Merge.Empties(0) == [[], full];
    RefusesLong(full);
  }

  lemma RefusesLong(full: Octets)
    requires |full| > MAX_ELEMENT_SIZE
    ensures !Buildable([[], full]) && Accepted([[], full]) == [[]]
  {
    var none: Octets := [];
    assert full in [none, full];
    assert [none, full][..1] == [none] && [none][..0] == [];
    assert TotalSize([]) == 0;
    assert Accepted([none]) == [none];
  }

  function Blank(n: nat): Octets { seq(n, i => 0) }

  /** A parser that, like the source's, ignores trailing bytes; here every long enough string parses. */
  function AnySignature(): C.Crypto {
    C.Crypto(
      b => Blank(32), b => Blank(20), b => Blank(20), k => Some(0), (k, z) => Blank(33),
      s => if |s| >= 8 then Some(0) else None, s => if |s| >= 8 then Some(0) else None,
      (s, h, k) => true, (s, low) => true)
  }

  function NoFlags(): Flags {
    Flags(false, false, false, false, false, false, false, false, false, false, false, false, false)
  }

  /** Such inputs exist: a one-of-one output and a signature of 600 bytes. */
  lemma LongSignatureInput(lockOk: (Byte, int) -> bool)
    returns (job: Merge.Job, ctx: Context, full: Octets, kt: seq<Token>)
    ensures LongCase(job, ctx, lockOk, full, kt)
    ensures NewEngine(ctx, job.pk, lockOk).Ok?
    ensures var (env, vm) := NewEngine(ctx, job.pk, lockOk).value; Execute(env, vm).Err?
  {
    hide Execute, NewEngine, Merge.Merged, SigHash.SignatureHash, TokensOf, TailOf, Render;
    full := Blank(600);
    var key: Octets := [2, 2];
    kt := [Token(2, key)];
    var pk := Render(MultiSigTokens(1, kt));
    TemplateOk(kt, key);
    var unsigned := MsgTx(1, [TxIn(OutPoint(Blank(32), 0), [], [], 0)], [], 0);
    job := Merge.Job(AnySignature(), unsigned, 0, pk, [key], k => k);
    var merged := Merge.Merged(job, 1, Built([full]), Built([[]]));
    ctx := Context(AnySignature(), NoFlags(), MsgTx(1, [TxIn(OutPoint(Blank(32), 0), merged, [], 0)], [], 0), 0);
    LongSignatureLost(job, ctx, lockOk, full, kt);
  }

  lemma TemplateOk(kt: seq<Token>, key: Octets)
    requires |key| == 2 && kt == [Token(2, key)]
    ensures var pk := Render(MultiSigTokens(1, kt));
            Parses(pk) && |pk| <= MAX_SCRIPT_SIZE && TokensOf(pk) == MultiSigTokens(1, kt)
  {
    var a, b, c := Token(81, []), Token(2, key), Token(OP_CHECKMULTISIG, []);
    assert MultiSigTokens(1, kt) == [a, b, a] + [c];
    assert Raw(a) == [81] && Raw(b) == [2] + key && Raw(c) == [OP_CHECKMULTISIG];
    hide TokensOf, TailOf, Render, Raw;
    Render3(a, b, a);
    RenderSnoc([a, b, a], c);
    RenderParses([a, b, a] + [c]);
  }
}
