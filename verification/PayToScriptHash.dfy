/** Evaluation of push scripts and of pay-to-script-hash outputs, after the specification of BIP 16. */
module PayToScriptHash {
  import opened Bytes
  import opened ScriptErrors
  import opened Tokens
  import opened Stack
  import opened ScriptNum
  import opened Opcodes
  import opened SigCheck
  import opened Engine
  import opened EngineSafety
  import opened EngineMeaning

  /** A push the engine accepts in an executing branch. */
  predicate PushOk(env: Env, t: Token) {
    && IsPush(t.op) && |t.data| <= MAX_ELEMENT_SIZE
    && (env.Flags().minimalData && t.op <= OP_PUSHDATA4 ==> MinimalPush(t.op, t.data))
  }

  function Pushed(ts: seq<Token>): Items
    requires forall t :: t in ts ==> IsPush(t.op)
  {
    if ts == [] then [] else [PushedItem(ts[0].op, ts[0].data)] + Pushed(ts[1..])
  }

  lemma {:induction false} PushedSize(ts: seq<Token>)
    requires forall t :: t in ts ==> IsPush(t.op)
    ensures |Pushed(ts)| == |ts|
  {
    if ts != [] { PushedSize(ts[1..]); }
  }

  lemma ExecutePush(env: Env, vm: Vm, t: Token)
    requires vm.cond == [] && IsPush(t.op)
    ensures ExecuteOpcode(env, vm, t.op, t.data).Ok? <==> PushOk(env, t)
    ensures PushOk(env, t) ==>
              ExecuteOpcode(env, vm, t.op, t.data) == Ok(vm.(d := vm.d + [PushedItem(t.op, t.data)]))
  {
    hide PushedItem, MinimalPush;
  }

  /** A run of pushes succeeds exactly when each is acceptable and they fit, and leaves the items in order. */
  lemma {:induction false} RunPushes(env: Env, vm: Vm, ts: seq<Token>)
    requires vm.cond == [] && |vm.d| + |vm.a| <= MAX_STACK_SIZE && forall t :: t in ts ==> IsPush(t.op)
    ensures var r := RunTokens(env, vm, ts);
            && (r.Ok? <==> (forall t :: t in ts ==> PushOk(env, t)) && |vm.d| + |vm.a| + |ts| <= MAX_STACK_SIZE)
            && (r.Ok? ==>
                  && r.value.d == vm.d + Pushed(ts) && r.value.a == vm.a && r.value.cond == []
                  && r.value.lastCodeSep == vm.lastCodeSep && r.value.numOps == vm.numOps)
    decreases |ts|
  {
    hide ExecuteOpcode, Raw, PushOk, PushedItem;
    if ts != [] {
      var t, more := ts[0], ts[1..];
      assert ts == [t] + more;
      RunCons(env, vm, t, more);
      ExecutePush(env, Moved(vm, t), t);
      if PushOk(env, t) && |vm.d| + |vm.a| < MAX_STACK_SIZE {
        var v := Counted(ExecuteOpcode(env, Moved(vm, t), t.op, t.data).value);
        RunPushes(env, v, more);
        Assoc(vm.d, [PushedItem(t.op, t.data)], Pushed(more));
      }
    }
  }

  // ----- the output script

  function ScriptHash(pk: Octets): Octets
    requires IsScriptHash(pk)
  {
    pk[2..22]
  }

  lemma ScriptHashTokens(pk: Octets)
    requires IsScriptHash(pk)
    ensures Parses(pk) && TokensOf(pk) == [Token(OP_HASH160, []), Token(20, ScriptHash(pk)), Token(OP_EQUAL, [])]
  {
    hide TokensOf, Parses, Render, AllWellFormed, LE;
    var h := ScriptHash(pk);
    var a, b, c := Token(OP_HASH160, []), Token(20, h), Token(OP_EQUAL, []);
    Render3(a, b, c);
    assert Raw(a) == [OP_HASH160] && Raw(b) == [20] + h && Raw(c) == [OP_EQUAL];
    assert pk == [OP_HASH160] + ([20] + h) + [OP_EQUAL];
    RenderParses([a, b, c]);
  }

  lemma Render3(a: Token, b: Token, c: Token)
    ensures Render([a, b, c]) == Raw(a) + Raw(b) + Raw(c)
    ensures WellFormed(a) && WellFormed(b) && WellFormed(c) ==> AllWellFormed([a, b, c])
  {
    hide Raw, WellFormed, Render;
    RenderSnoc([], a);
    RenderSnoc([a], b);
    RenderSnoc([a, b], c);
    RenderNone();
    assert [] + [a] == [a] && [a] + [b] == [a, b] && [a, b] + [c] == [a, b, c];
    assert [] + Raw(a) == Raw(a);
  }

  lemma RenderNone()
    ensures Render([]) == []
  {
  }

  lemma ExecuteHash160(env: Env, vm: Vm)
    requires vm.cond == []
    ensures ExecuteOpcode(env, vm, OP_HASH160, []) ==
            if vm.d == [] then Err(InvalidStackOperation)
            else Ok(vm.(d := vm.d[..|vm.d| - 1] + [env.ctx.c.Hash160(vm.d[|vm.d| - 1])]))
  {
  }

  lemma ExecuteEqual(env: Env, vm: Vm)
    requires vm.cond == [] && |vm.d| >= 2
    ensures ExecuteOpcode(env, vm, OP_EQUAL, []) ==
            Ok(vm.(d := vm.d[..|vm.d| - 2] + [FromBool(vm.d[|vm.d| - 1] == vm.d[|vm.d| - 2])]))
  {
    assert vm.d[..|vm.d| - 1][..|vm.d| - 2] == vm.d[..|vm.d| - 2];
  }

  /** The script-hash output script compares the hash of the top item, and nothing else. */
  lemma EvalScriptHash(env: Env, pk: Octets, d: Items)
    requires IsScriptHash(pk) && |d| <= MAX_STACK_SIZE
    ensures Eval(env, pk, d) ==
            if d == [] then Err(InvalidStackOperation)
            else if |d| == MAX_STACK_SIZE then Err(StackOverflow)
            else Ok(d[..|d| - 1] + [FromBool(env.ctx.c.ripemd160(env.ctx.c.sha256(d[|d| - 1])) == pk[2..22])])
  {
    hide ExecuteOpcode, TokensOf, Raw, RunTokens;
    ScriptHashTokens(pk);
    var h := Token(20, ScriptHash(pk));
    var v0 := Start(pk, d);
    assert TokensOf(pk) == [Token(OP_HASH160, [])] + [h, Token(OP_EQUAL, [])];
    RunCons(env, v0, Token(OP_HASH160, []), [h, Token(OP_EQUAL, [])]);
    ExecuteHash160(env, Moved(v0, Token(OP_HASH160, [])));
    if d != [] {
      var v1 := Counted(ExecuteOpcode(env, Moved(v0, Token(OP_HASH160, [])), OP_HASH160, []).value);
      assert [h, Token(OP_EQUAL, [])] == [h] + [Token(OP_EQUAL, [])];
      RunCons(env, v1, h, [Token(OP_EQUAL, [])]);
      ExecutePush(env, Moved(v1, h), h);
      if |d| < MAX_STACK_SIZE {
        var v2 := Counted(ExecuteOpcode(env, Moved(v1, h), h.op, h.data).value);
        assert [Token(OP_EQUAL, [])] == [Token(OP_EQUAL, [])] + [];
        assert v2.d[..|d| - 1] == d[..|d| - 1];
        RunCons(env, v2, Token(OP_EQUAL, []), []);
        ExecuteEqual(env, Moved(v2, Token(OP_EQUAL, [])));
        RunNone(env, Counted(ExecuteOpcode(env, Moved(v2, Token(OP_EQUAL, [])), OP_EQUAL, []).value));
      }
    }
  }

  /** The verdict on a script-hash output, given what the signature script left. */
  function Bip16(env: Env, h: Octets, d: Items): Result<Items> {
    if d == [] then Err(InvalidStackOperation)
    else if |d| == MAX_STACK_SIZE then Err(StackOverflow)
    else if env.ctx.c.ripemd160(env.ctx.c.sha256(d[|d| - 1])) != h then Err(EvalFalse)
    else Redeem(env, d)
  }

  /**
   * A pay-to-script-hash run: the redeem script is appended only when it is the last item the
   * signature script left and its hash is the one in the output, and it runs on the other items.
   */
  lemma ExecuteIsBip16(ctx: Context, pk: Octets, lockOk: (Byte, int) -> bool)
    requires ctx.c.Sound() && ctx.flags.bip16 && IsScriptHash(pk) && NewEngine(ctx, pk, lockOk).Ok?
    ensures var (env, vm) := NewEngine(ctx, pk, lockOk).value;
            var sig := ctx.tx.txIn[ctx.idx].sigScript;
            && IsPushOnly(sig)
            && Outcome(Execute(env, vm)) ==
               match Eval(env, sig, [])
               case Err(e) => Err(e)
               case Ok(d) => Bip16(env, pk[2..22], d)
  {
    hide Eval, Execute, Truthy, Parses, IsPushOnly, Redeem;
    var (env, vm) := NewEngine(ctx, pk, lockOk).value;
    var sig := ctx.tx.txIn[ctx.idx].sigScript;
    ExecuteIsValidate(ctx, pk, lockOk);
    var r := Eval(env, sig, []);
    if r.Ok? {
      SmallEmpty();
      EvalBounds(env, sig, []);
      EvalScriptHash(env, pk, r.value);
      TruthyBool();
    }
  }

  lemma TruthyBool()
    ensures Truthy(FromBool(true)) && !Truthy(FromBool(false))
  {
  }

  /** A stack that makes a transaction acceptable: a number other than zero on top, alone if asked for. */
  predicate Accepts(env: Env, r: Result<Items>) {
    && r.Ok? && r.value != [] && NumValue(r.value[|r.value| - 1]) != 0
    && (env.Flags().cleanStack ==> |r.value| == 1)
  }

  lemma FinalAccepts(env: Env, d: Items)
    ensures Final(env, d).Ok? <==> Accepts(env, Ok(d))
  {
    hide NumValue, Truthy;
    if d != [] { TruthyIffNonZero(d[|d| - 1]); }
  }

  /**
   * Which transactions the engine accepts. The signature script runs on nothing and the output script
   * on what it leaves. For pay-to-script-hash the last of those items is a script with the hash in the
   * output, and it runs on the others; the scripts before it need no clean stack.
   */
  lemma ExecuteAccepts(ctx: Context, pk: Octets, lockOk: (Byte, int) -> bool)
    requires ctx.c.Sound() && NewEngine(ctx, pk, lockOk).Ok?
    ensures var (env, vm) := NewEngine(ctx, pk, lockOk).value;
            var r := Eval(env, ctx.tx.txIn[ctx.idx].sigScript, []);
            Execute(env, vm).Ok? <==>
              && r.Ok?
              && if ctx.flags.bip16 && IsScriptHash(pk) then
                   var d, n := r.value, |r.value| - 1;
                   && 0 < |d| < 1000 && ctx.c.ripemd160(ctx.c.sha256(d[n])) == pk[2..22]
                   && Parses(d[n]) && Accepts(env, Eval(env, d[n], d[..n]))
                 else Accepts(env, Eval(env, pk, r.value))
  {
    hide Eval, Execute, Parses, IsPushOnly, Final, Accepts, NumValue;
    var (env, vm) := NewEngine(ctx, pk, lockOk).value;
    var r := Eval(env, ctx.tx.txIn[ctx.idx].sigScript, []);
    NeverOk(env);
    if r.Err? {
      ExecuteIsValidate(ctx, pk, lockOk);
    } else if env.bip16 {
      ExecuteIsBip16(ctx, pk, lockOk);
      SmallEmpty();
      EvalBounds(env, ctx.tx.txIn[ctx.idx].sigScript, []);
      if r.value != [] {
        var n := |r.value| - 1;
        EvalAccepts(env, Eval(env, r.value[n], r.value[..n]));
      }
    } else {
      ExecuteIsValidate(ctx, pk, lockOk);
      EvalAccepts(env, Eval(env, pk, r.value));
    }
  }

  lemma EvalAccepts(env: Env, r: Result<Items>)
    ensures r.Ok? ==> (Final(env, r.value).Ok? <==> Accepts(env, r))
    ensures r.Err? ==> !Accepts(env, r)
  {
    hide Final, NumValue;
    if r.Ok? { FinalAccepts(env, r.value); }
  }

  lemma NeverOk(env: Env)
    ensures forall e :: !Accepts(env, Err(e))
  {
    hide NumValue;
  }

  /** The one form of a script-hash output. */
  lemma ScriptHashIff(pk: Octets)
    ensures IsScriptHash(pk) <==> |pk| == 23 && pk == [169, 20] + pk[2..22] + [135]
  {
  }

  /** Which scripts an engine is made for. */
  lemma NewEngineIff(ctx: Context, pk: Octets, lockOk: (Byte, int) -> bool)
    ensures NewEngine(ctx, pk, lockOk).Ok? <==>
            && ctx.idx < |ctx.tx.txIn|
            && var sig := ctx.tx.txIn[ctx.idx].sigScript;
               && (sig != [] || pk != []) && Parses(sig) && Parses(pk) && |sig| <= 10000 && |pk| <= 10000
               && (ctx.flags.sigPushOnly || (ctx.flags.bip16 && IsScriptHash(pk)) ==>
                     forall t :: t in TokensOf(sig) ==> t.op <= 96)
  {
    hide Parses, TokensOf, IsScriptHash;
  }
}
