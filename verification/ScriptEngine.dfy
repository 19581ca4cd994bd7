/** The engine as an object that Step and Execute update in place (engine.go). */
module ScriptEngine {
  import opened Bytes
  import opened ScriptErrors
  import opened Tokens
  import opened Stack
  import opened ScriptNum
  import opened Opcodes
  import opened SigCheck
  import opened Engine
  import opened EngineSafety
  import opened Scripts
  import MultiSig
  import Handlers

  /** The update ended as the specification says: with its error, or in its state. */
  ghost predicate Agrees(r: Result<Vm>, e: Option<ScriptError>, now: Vm) {
    if r.Ok? then e == None && now == r.value else e == Some(r.error)
  }

  ghost predicate Short(ss: seq<Octets>) { forall x :: x in ss ==> |x| < MAX_SCRIPT }

  lemma ShortAt(ss: seq<Octets>, i: nat)
    requires Short(ss) && i < |ss|
    ensures |ss[i]| < MAX_SCRIPT
  {
  }

  class Machine {
    const env: Env
    const sigCache: SigCache?
    const dstack: DataStack
    const astack: DataStack
    var scripts: seq<Octets>
    var scriptIdx: nat
    var tokenizer: ScriptTokenizer
    var opcodeIdx: nat
    var lastCodeSep: nat
    var savedFirstStack: Items
    var condStack: seq<Cond>
    var numOps: nat

    /** The value of the object's fields. */
    ghost function View(): Vm
      reads this, dstack, astack, tokenizer
    {
      Vm(scripts, scriptIdx, tokenizer.offset, opcodeIdx, lastCodeSep, savedFirstStack,
         dstack.stk, astack.stk, condStack, numOps)
    }

    /** The stacks read numbers under the engine's rule, and the cache holds only valid triples. */
    ghost predicate Wired()
      reads this, dstack, astack, sigCache
    {
      && dstack != astack
      && dstack.verifyMinimalData == env.Flags().minimalData
      && env.ctx.c.Sound() && env.ctx.idx < |env.ctx.tx.txIn|
      && (sigCache != null ==> sigCache.Good(env.ctx.c))
    }

    /** The tokenizer stands where opcodeIdx says, in the current script. */
    ghost predicate Placed()
      reads this, tokenizer
    {
      && scriptIdx < |scripts| && tokenizer.script == scripts[scriptIdx]
      && tokenizer.At(opcodeIdx) && !tokenizer.failed
    }

    constructor (env: Env, cache: SigCache?, scripts: seq<Octets>, scriptIdx: nat)
      requires scriptIdx < |scripts| && |scripts[scriptIdx]| < MAX_SCRIPT
      requires env.ctx.c.Sound() && env.ctx.idx < |env.ctx.tx.txIn|
      requires cache != null ==> cache.Good(env.ctx.c)
      ensures this.env == env && sigCache == cache && Wired() && Placed()
      ensures View() == Vm(scripts, scriptIdx, 0, 0, 0, [], [], [], [], 0)
      ensures fresh(dstack) && fresh(astack) && fresh(tokenizer)
    {
      this.env, this.sigCache := env, cache;
      this.scripts, this.scriptIdx := scripts, scriptIdx;
      dstack := new DataStack(env.Flags().minimalData);
      astack := new DataStack(env.Flags().minimalData);
      tokenizer := new ScriptTokenizer(scripts[scriptIdx]);
      opcodeIdx, lastCodeSep, savedFirstStack, condStack, numOps := 0, 0, [], [], 0;
    }

    /** popIfBool. */
    method PopIf() returns (r: Result<bool>)
      requires Wired()
      modifies dstack`stk
      ensures var p := PopIfBool(env.Flags(), old(dstack.stk));
              if p.Ok? then r == Ok(p.value.0) && dstack.stk == p.value.1 else r == Err(p.error)
    {
      hide Truthy;
      var so := dstack.PopByteArray();
      if so.Err? { return Err(so.error); }
      if env.Flags().minimalIf {
        if |so.value| > 1 { return Err(MinimalIf); }
        if |so.value| == 1 && so.value[0] != 1 { return Err(MinimalIf); }
      }
      var b := AsBool(so.value);
      return Ok(b);
    }

    /** opcodeIf, opcodeNotIf, opcodeElse, opcodeEndif. */
    method Branch(op: Byte) returns (e: Option<ScriptError>)
      requires Wired() && IsConditional(op)
      modifies this`condStack, dstack`stk
      ensures Agrees(Conditional(env, old(View()), op), e, View())
    {
      hide PopIfBool;
      if op == OP_IF || op == OP_NOTIF {
        var condVal := CondFalse;
        if Executing(condStack) {
          var ok := PopIf();
          if ok.Err? { return Some(ok.error); }
          if ok.value == (op == OP_IF) { condVal := CondTrue; }
        } else {
          condVal := CondSkip;
        }
        condStack := condStack + [condVal];
        return None;
      }
      if |condStack| == 0 { return Some(UnbalancedConditional); }
      var top := |condStack| - 1;
      if op == OP_ELSE {
        condStack := condStack[top := Toggled(condStack[top])];
      } else {
        condStack := condStack[..top];
      }
      return None;
    }

    /** opcodeCheckSig. */
    method OpcodeCheckSignature() returns (e: Option<ScriptError>)
      requires Wired() && HasSubScript(View()) && |scripts[scriptIdx]| < MAX_SCRIPT
      modifies dstack`stk, sigCache
      ensures Wired()
      ensures Handlers.Gives(CheckSigOp(env, old(View())), e, dstack.stk)
    {
      hide CheckSig, SigCache.Good;
      ghost var v := View();
      var key := dstack.PopByteArray();
      if key.Err? { return Some(key.error); }
      var full := dstack.PopByteArray();
      if full.Err? { return Some(full.error); }
      if full.value == [] { return Some(RuntimePanic); }
      var subScript := scripts[scriptIdx][lastCodeSep..];
      var valid := OpcodeCheckSig(env.ctx, sigCache, subScript, full.value, key.value);
      if valid.Err? { return Some(valid.error); }
      dstack.PushByteArray(FromBool(valid.value));
      return None;
    }

    /** The pops of opcodeCheckMultiSig: first the keys. */
    method PopKeyItems() returns (r: Result<Items>)
      requires Wired()
      modifies this`numOps, dstack`stk
      ensures var p := PopKeys(env.Flags(), old(dstack.stk), old(numOps));
              if p.Ok? then r == Ok(p.value.0) && dstack.stk == p.value.1 && numOps == old(numOps) + |r.value|
                else r == Err(p.error)
    {
      hide MakeNum, PopMany;
      var numKeys := dstack.PopInt();
      if numKeys.Err? { return Err(numKeys.error); }
      if numKeys.value < 0 || numKeys.value > MAX_PUB_KEYS { return Err(InvalidPubKeyCount); }
      numOps := numOps + numKeys.value;
      if numOps > MAX_OPS { return Err(TooManyOperations); }
      ghost var d1 := dstack.stk;
      r := Handlers.PopLoop(dstack, numKeys.value);
      PopsMany(d1, numKeys.value, r, dstack.stk);
    }

    /** Then the signatures and the dummy. */
    method PopSigItems(numKeys: nat) returns (r: Result<Items>)
      requires Wired()
      modifies dstack`stk
      ensures var p := PopSigs(env.Flags(), old(dstack.stk), numKeys);
              if p.Ok? then r == Ok(p.value.0) && dstack.stk == p.value.1 else r == Err(p.error)
    {
      hide MakeNum, PopMany;
      var numSigs := dstack.PopInt();
      if numSigs.Err? { return Err(numSigs.error); }
      if numSigs.value < 0 || numSigs.value > numKeys { return Err(InvalidSignatureCount); }
      ghost var d1 := dstack.stk;
      r := Handlers.PopLoop(dstack, numSigs.value);
      PopsMany(d1, numSigs.value, r, dstack.stk);
      if r.Err? { return r; }
      var dummy := dstack.PopByteArray();
      if dummy.Err? { return Err(dummy.error); }
      if env.Flags().strictMultiSig && |dummy.value| != 0 { return Err(SigNullDummy); }
    }

    /** opcodeCheckMultiSig. */
    method OpcodeCheckMultiSig() returns (e: Option<ScriptError>)
      requires Wired() && HasSubScript(View())
      modifies this`numOps, dstack`stk, sigCache
      ensures Wired()
      ensures var r := CheckMultiSigOp(env, old(View()));
              if r.Ok? then e == None && dstack.stk == r.value.0 && numOps == r.value.1 else e == Some(r.error)
    {
      hide SigCache.Good, MultiSig.Greedy, PopKeys, PopSigs;
      var keys' := PopKeyItems();
      if keys'.Err? { return Some(keys'.error); }
      var keys := keys'.value;
      ghost var d1 := dstack.stk;
      var sigs' := PopSigItems(|keys|);
      if sigs'.Err? { return Some(sigs'.error); }
      var sigs := sigs'.value;
      SigsFewer(env.Flags(), d1, |keys|);
      var script := scripts[scriptIdx][lastCodeSep..];
      var success := MultiSig.CheckLoop(env.ctx, sigCache, script, sigs, keys);
      if success.Err? { return Some(success.error); }
      if !success.value && env.Flags().nullFail {
        for i := 0 to |sigs|
          invariant forall k :: 0 <= k < i ==> sigs[k] == []
        {
          if |sigs[i]| > 0 {
            assert sigs[i] in sigs;
            return Some(NullFail);
          }
        }
      }
      dstack.PushByteArray(FromBool(success.value));
      return None;
    }

    /** The four signature opcodes. */
    method Signatures(op: Byte) returns (e: Option<ScriptError>)
      requires Wired() && OP_CHECKSIG <= op <= 175 && HasSubScript(View()) && |scripts[scriptIdx]| < MAX_SCRIPT
      modifies this`numOps, dstack`stk, sigCache
      ensures Wired() && Agrees(SigOp(env, old(View()), op), e, View())
    {
      hide CheckSigOp, CheckMultiSigOp, VerifyTop, SigCache.Good;
      if op <= 173 {
        e := OpcodeCheckSignature();
      } else {
        e := OpcodeCheckMultiSig();
      }
      if e == None && op % 2 == 1 { e := Handlers.Verify(dstack); }
    }

    /** opcodeCheckLockTimeVerify and opcodeCheckSequenceVerify up to the comparisons. */
    method CheckLock(op: Byte) returns (e: Option<ScriptError>)
      requires Wired()
      ensures Agrees(LockTimeOp(env, View(), op), e, View())
    {
      hide NumValue, Minimal;
      var flags := env.Flags();
      if !(if op == 177 then flags.checkLockTimeVerify else flags.checkSequenceVerify) {
        return if flags.discourageUpgradableNops then Some(DiscourageUpgradableNops) else None;
      }
      var so := dstack.PeekByteArray(0);
      if so.Err? { return Some(so.error); }
      var n := Decode(so.value, dstack.verifyMinimalData, 5);
      if n.Err? { return Some(n.error); }
      return if n.value < 0 || !env.lockOk(op, n.value) then Some(LockTimeFailed) else None;
    }

    /** The opcodes that only touch the two stacks. */
    method Stacking(op: Byte) returns (e: Option<ScriptError>)
      requires Wired() && |dstack.stk| <= MAX_STACK_SIZE && Small(dstack.stk)
      modifies dstack`stk, astack`stk
      ensures Handlers.GivesBoth(StackOp(env, Stacks(old(dstack.stk), old(astack.stk)), op), e, dstack.stk, astack.stk)
    {
      hide Shuffle, Numeric, VerifyTop, Equal, Digest, NumBytes;
      if op == 105 {
        e := Handlers.Verify(dstack);
      } else if 107 <= op <= 125 {
        e := Handlers.Rearrange(op, dstack, astack);
      } else if op == 130 {
        var so := dstack.PeekByteArray(0);
        if so.Err? { return Some(so.error); }
        PopSmall(dstack.stk);
        dstack.PushInt(|so.value|);
        e := None;
      } else if op == OP_EQUAL || op == OP_EQUALVERIFY {
        e := Handlers.CompareTop(dstack);
        if e == None && op == OP_EQUALVERIFY { e := Handlers.Verify(dstack); }
      } else if IsNumeric(op) {
        e := Handlers.Arithmetic(op, dstack);
      } else if IsHash(op) {
        e := Handlers.HashTop(env.ctx.c, op, dstack);
      } else {
        e := Some(ReservedOpcode);
      }
    }

    /** The handler of an opcode. */
    method Handle(op: Byte, data: Octets) returns (e: Option<ScriptError>)
      requires Wired() && |dstack.stk| <= MAX_STACK_SIZE && Small(dstack.stk)
      requires HasSubScript(View()) && |scripts[scriptIdx]| < MAX_SCRIPT
      modifies this`condStack, this`numOps, this`lastCodeSep, dstack`stk, astack`stk, sigCache
      ensures Wired() && Agrees(Handler(env, old(View()), op, data), e, View())
    {
      hide Conditional, SigOp, StackOp, LockTimeOp, PushedItem, Small, SigCache.Good;
      e := None;
      if IsPush(op) {
        Handlers.PushConstant(op, data, dstack);
      } else if IsConditional(op) {
        e := Branch(op);
      } else if op == OP_CODESEPARATOR {
        lastCodeSep := tokenizer.offset;
      } else if OP_CHECKSIG <= op <= 175 {
        e := Signatures(op);
      } else if op == 97 {
      } else if IsUpgradableNop(op) {
        if env.Flags().discourageUpgradableNops { e := Some(DiscourageUpgradableNops); }
      } else if op == 177 || op == 178 {
        e := CheckLock(op);
        LockTimeKeeps(env, View(), op);
      } else if op == 106 {
        e := Some(EarlyReturn);
      } else {
        e := Stacking(op);
      }
    }

    /** executeOpcode. */
    method RunOpcode(op: Byte, data: Octets) returns (e: Option<ScriptError>)
      requires Wired() && |dstack.stk| <= MAX_STACK_SIZE && Small(dstack.stk)
      requires HasSubScript(View()) && |scripts[scriptIdx]| < MAX_SCRIPT
      modifies this`condStack, this`numOps, this`lastCodeSep, dstack`stk, astack`stk, sigCache
      ensures Wired() && Agrees(ExecuteOpcode(env, old(View()), op, data), e, View())
    {
      hide Handler, MinimalPush, Small, SigCache.Good;
      if IsDisabled(op) { return Some(DisabledOpcode); }
      if IsAlwaysIllegal(op) { return Some(ReservedOpcode); }
      if |data| > MAX_ELEMENT_SIZE { return Some(ElementTooBig); }
      if !Executing(condStack) && !IsConditional(op) { return None; }
      if env.Flags().minimalData && Executing(condStack) && op <= OP_PUSHDATA4 {
        if !MinimalPush(op, data) { return Some(MinimalData); }
      }
      e := Handle(op, data);
    }

    /** CheckErrorCondition. */
    method CheckFinished(finalScript: bool) returns (e: Option<ScriptError>)
      requires Wired()
      modifies dstack`stk
      ensures Wired() && Agrees(CheckErrorCondition(env, old(View()), finalScript), e, View())
    {
      hide Truthy, SigCache.Good;
      if scriptIdx < |scripts| { return Some(ScriptUnfinished); }
      if finalScript && env.Flags().cleanStack && |dstack.stk| != 1 { return Some(CleanStack); }
      if |dstack.stk| < 1 { return Some(EmptyStack); }
      var v := dstack.PopBool();
      return if v.value then None else Some(EvalFalse);
    }

    /** The redeem script is the top of the first stack; the rest becomes the data stack. */
    method TakeRedeem() returns (e: Option<ScriptError>)
      requires Wired() && Short(savedFirstStack)
      modifies this`scripts, dstack`stk
      ensures Wired()
      ensures if savedFirstStack == [] then e == Some(RuntimePanic)
              else
                var n := |savedFirstStack| - 1;
                if !Parses(savedFirstStack[n]) then e == Some(MalformedPush)
                else e == None && scripts == old(scripts) + [savedFirstStack[n]] && dstack.stk == savedFirstStack[..n]
    {
      hide Parses, SigCache.Good, Short;
      if |savedFirstStack| == 0 { return Some(RuntimePanic); }
      var n := |savedFirstStack| - 1;
      var script := savedFirstStack[n];
      ShortAt(savedFirstStack, n);
      var parses := CheckScriptParses(script);
      if !parses { return Some(MalformedPush); }
      scripts := scripts + [script];
      SetStack(savedFirstStack[..n]);
      return None;
    }

    /** The switch at the end of a script. */
    method NextScript() returns (e: Option<ScriptError>)
      requires Wired() && Short(savedFirstStack)
      modifies this`scripts, this`scriptIdx, this`savedFirstStack, dstack`stk
      ensures Wired() && Agrees(Advance(env, old(View())), e, View())
    {
      hide Truthy, Parses, SigCache.Good, Short, CheckErrorCondition;
      CheckKeeps(env, View().(scriptIdx := 2));
      if scriptIdx == 0 && env.bip16 {
        scriptIdx := scriptIdx + 1;
        savedFirstStack := dstack.stk;
      } else if scriptIdx == 1 && env.bip16 {
        scriptIdx := scriptIdx + 1;
        e := CheckFinished(false);
        if e != None { return; }
        e := TakeRedeem();
        return;
      } else {
        scriptIdx := scriptIdx + 1;
      }
      return None;
    }

    /** setStack: drop everything, then push item by item. */
    method SetStack(data: Items)
      modifies dstack`stk
      ensures dstack.stk == data
    {
      var _ := dstack.DropN(|dstack.stk|);
      for i := 0 to |data|
        invariant dstack.stk == data[..i]
      {
        dstack.PushByteArray(data[i]);
      }
    }

    /** Skip an empty script, forget the separator, start a new tokenizer. */
    method EnterScript() returns (done: bool)
      requires Wired() && Short(scripts) && opcodeIdx == 0
      modifies this`scriptIdx, this`lastCodeSep, this`tokenizer
      ensures Wired() && (done, View()) == Enter(old(View())) && (!done ==> Placed())
      ensures tokenizer == old(tokenizer) || fresh(tokenizer)
    {
      hide SigCache.Good, TokensOf, TailOf, BoundaryAt, Short;
      if scriptIdx < |scripts| && |scripts[scriptIdx]| == 0 { scriptIdx := scriptIdx + 1; }
      lastCodeSep := 0;
      if scriptIdx >= |scripts| { return true; }
      ShortAt(scripts, scriptIdx);
      tokenizer := new ScriptTokenizer(scripts[scriptIdx]);
      return false;
    }

    /** What Step does once the tokenizer is done. */
    method EndOfScript() returns (done: bool, e: Option<ScriptError>)
      requires Wired() && Short(savedFirstStack) && Short(scripts)
      modifies this, dstack`stk, astack`stk
      ensures var r := EndScript(env, old(View()));
              if r.Ok? then e == None && View() == r.value.1 && done == r.value.0 else e == Some(r.error)
      ensures Wired() && (e == None && !done ==> Placed())
      ensures e == None ==> Short(scripts)
      ensures tokenizer == old(tokenizer) || fresh(tokenizer)
    {
      hide Advance, Enter, SigCache.Good, Short, ScriptTokenizer.At;
      if |condStack| != 0 { return false, Some(UnbalancedConditional); }
      var _ := astack.DropN(|astack.stk|);
      numOps := 0;
      opcodeIdx := 0;
      ghost var before := View();
      AdvanceKeeps(env, before);
      e := NextScript();
      if e != None { return false, e; }
      AdvanceScripts(env, before);
      done := EnterScript();
    }

    /** Step. */
    method Step() returns (done: bool, e: Option<ScriptError>)
      requires Wired() && Placed() && Inv(env, View())
      requires Short(scripts)
      modifies this, dstack`stk, astack`stk, tokenizer, sigCache
      ensures var r := Engine.Step(env, old(View()));
              if r.Ok? then e == None && View() == r.value.1 && done == r.value.0 else e == Some(r.error)
      ensures Wired() && (e == None && !done ==> Placed() && Short(scripts))
      ensures tokenizer == old(tokenizer) || fresh(tokenizer)
    {
      hide Engine.Step, ExecuteOpcode, EndScript, TokensOf, BoundaryAt, Raw, Parses, Small, CondOk, Nesting, Boundary,
           SigCache.Good, Short;
      ghost var v := View();
      ShortAt(scripts, scriptIdx);
      StepUnfolds(env, v);
      StepFindsToken(v);
      HandlerKeeps(env, v);
      SavedFits(v.saved);
      if scriptIdx >= |scripts| { return true, Some(InvalidProgramCounter); }
      var more := tokenizer.Next(opcodeIdx);
      if !more { return true, Some(InvalidProgramCounter); }
      assert View() == Fetched(v);
      e := RunOpcode(tokenizer.op, tokenizer.data);
      if e != None { return true, e; }
      if |dstack.stk| + |astack.stk| > MAX_STACK_SIZE { return false, Some(StackOverflow); }
      ghost var vm1 := View();
      ExecuteKeepsPosition(env, Fetched(v), Current(v).op, Current(v).data);
      opcodeIdx := opcodeIdx + 1;
      assert View() == Counted(vm1);
      done := false;
      if tokenizer.Done() { done, e := EndOfScript(); }
    }

    /** Execute: with any good signature cache, what a run without a cache computes. */
    method Execute() returns (e: Option<ScriptError>)
      requires Wired() && Placed() && Inv(env, View())
      requires Short(scripts)
      modifies this, dstack`stk, astack`stk, tokenizer, sigCache
      ensures Wired() && Agrees(Engine.Execute(env, old(View())), e, View())
    {
      hide Engine.Step, Inv, SigCache.Good, CheckErrorCondition, BoundsOk, ScriptTokenizer.At, Short;
      var done := false;
      while !done
        invariant Wired() && (tokenizer == old(tokenizer) || fresh(tokenizer))
        invariant !done ==> Placed() && Inv(env, View()) && Short(scripts)
        invariant !done ==> Engine.Execute(env, View()) == Engine.Execute(env, old(View()))
        invariant done ==> CheckErrorCondition(env, View(), true) == Engine.Execute(env, old(View()))
        decreases !done, ScriptsLeft(env, View()), BytesLeft(View())
      {
        ghost var v := View();
        StepKeepsInv(env, v);
        done, e := Step();
        if e != None { return; }
        if !done { StepDecreases(env, v); }
      }
      e := CheckFinished(true);
    }
  }

  /** NewEngine. Tokenizer offsets are int32, so scripts are shorter than 2^31. */
  method NewMachine(ctx: Context, cache: SigCache?, pk: Octets, lockOk: (Byte, int) -> bool)
      returns (r: Result<Machine>)
    requires ctx.c.Sound() && (cache != null ==> cache.Good(ctx.c))
    requires |pk| < MAX_SCRIPT && (ctx.idx < |ctx.tx.txIn| ==> |ctx.tx.txIn[ctx.idx].sigScript| < MAX_SCRIPT)
    ensures var spec := NewEngine(ctx, pk, lockOk);
            if spec.Err? then r == Err(spec.error)
            else
              && r.Ok? && fresh(r.value) && fresh(r.value.dstack) && fresh(r.value.astack) && fresh(r.value.tokenizer)
              && r.value.env == spec.value.0 && r.value.View() == spec.value.1
              && r.value.sigCache == cache && r.value.Wired() && r.value.Placed() && Inv(r.value.env, r.value.View())
              && Short(r.value.scripts)
  {
    hide Inv, SigCache.Good, TokensOf, TailOf, BoundaryAt;
    if ctx.idx >= |ctx.tx.txIn| { return Err(InvalidIndex); }
    var scriptSig := ctx.tx.txIn[ctx.idx].sigScript;
    if |scriptSig| == 0 && |pk| == 0 { return Err(EvalFalse); }
    var pushOnly := IsPushOnlyScript(scriptSig);
    if ctx.flags.sigPushOnly && !pushOnly { return Err(NotPushOnly); }
    var bip16 := false;
    if ctx.flags.bip16 && IsScriptHash(pk) {
      if !ctx.flags.sigPushOnly && !pushOnly { return Err(NotPushOnly); }
      bip16 := true;
    }
    var scripts := [scriptSig, pk];
    for i := 0 to |scripts|
      invariant forall k :: 0 <= k < i ==> ScriptFault(scripts[k]).None?
    {
      assert i == 1 ==> ScriptFault(scripts[0]).None?;
      if |scripts[i]| > MAX_SCRIPT_SIZE { return Err(ScriptTooBig); }
      var parses := CheckScriptParses(scripts[i]);
      if !parses { return Err(MalformedPush); }
    }
    assert ScriptFault(scripts[0]).None? && ScriptFault(scripts[1]).None?;
    NewEngineOk(ctx, pk, lockOk);
    var m := new Machine(Env(ctx, bip16, lockOk), cache, scripts, if |scriptSig| == 0 then 1 else 0);
    return Ok(m);
  }

  /** The redeem script is an item of the first stack, so every script stays short. */
  lemma SavedFits(saved: Items)
    requires Small(saved)
    ensures Short(saved)
  {
  }

  /** The check of a finished script only takes off the examined item. */
  lemma CheckKeeps(env: Env, vm: Vm)
    ensures var r := CheckErrorCondition(env, vm, false); r.Ok? ==> r.value == vm.(d := r.value.d)
  {
    hide Truthy;
  }

  lemma AdvanceKeeps(env: Env, vm: Vm)
    ensures Advance(env, vm).Ok? ==> Advance(env, vm).value.opcodeIdx == vm.opcodeIdx
  {
    hide Parses, Truthy;
  }

  lemma AdvanceScripts(env: Env, vm: Vm)
    requires Advance(env, vm).Ok? && Short(vm.scripts) && Short(vm.saved)
    ensures Short(Advance(env, vm).value.scripts)
  {
    hide Parses, Truthy;
  }

  lemma LockTimeKeeps(env: Env, vm: Vm, op: Byte)
    ensures LockTimeOp(env, vm, op).Ok? ==> LockTimeOp(env, vm, op).value == vm
  {
  }

  /** There are never more signatures than keys. */
  lemma SigsFewer(flags: Flags, d: Items, numKeys: nat)
    requires PopSigs(flags, d, numKeys).Ok?
    ensures |PopSigs(flags, d, numKeys).value.0| <= numKeys
  {
    hide MakeNum;
  }

  /** The popping loop computes PopMany. */
  lemma PopsMany(d: Items, n: nat, r: Result<Items>, rest: Items)
    requires n > |d| ==> r == Err(InvalidStackOperation)
    requires n <= |d| ==>
               && rest == d[..|d| - n] && r.Ok? && |r.value| == n
               && forall i :: 0 <= i < n ==> r.value[i] == d[|d| - 1 - i]
    ensures PopMany(d, n) == if r.Ok? then Ok((r.value, rest)) else Err(r.error)
  {
    if r.Ok? { assert PopMany(d, n).value.0 == r.value; }
  }
}
