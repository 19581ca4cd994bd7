/**
 * Conditional execution against the textbook rule: a stack of booleans, one per open IF, with the
 * current opcode executing exactly when all of them are true.
 */
module Conditionals {
  import opened Bytes
  import opened ScriptErrors
  import opened Tokens
  import opened Stack
  import opened ScriptNum
  import opened Opcodes
  import opened SigCheck
  import opened Engine
  import opened EngineSafety
  import opened EngineMeaning

  predicate AllSet(fs: seq<bool>) { forall i :: 0 <= i < |fs| ==> fs[i] }

  /** A skipped entry may stand for either boolean: some entry below it is already false. */
  ghost predicate Agrees(cond: seq<Cond>, fs: seq<bool>) {
    && |cond| == |fs|
    && forall i :: 0 <= i < |cond| ==> (cond[i] == CondTrue ==> fs[i]) && (cond[i] == CondFalse ==> !fs[i])
  }

  /** Looking at the top entry answers whether every enclosing condition is true. */
  lemma {:induction false} ExecutingIffAllSet(cond: seq<Cond>, fs: seq<bool>)
    requires CondOk(cond) && Agrees(cond, fs)
    ensures Executing(cond) <==> AllSet(fs)
  {
    if cond != [] {
      var k := |cond| - 1;
      assert fs == fs[..k] + [fs[k]];
      ExecutingIffAllSet(cond[..k], fs[..k]);
    }
  }

  // ----- the reference evaluator

  /** The item decides by the number it denotes; the minimal-if rule admits the empty item and [1] only. */
  function RefConditional(env: Env, vm: Vm, fs: seq<bool>, op: Byte): Result<(Vm, seq<bool>)>
    requires IsConditional(op)
  {
    var n, k := |fs|, |vm.d| - 1;
    if op == OP_IF || op == OP_NOTIF then
      if !AllSet(fs) then Ok((vm, fs + [false]))
      else if vm.d == [] then Err(InvalidStackOperation)
      else if env.Flags().minimalIf && vm.d[k] != [] && vm.d[k] != [1] then Err(MinimalIf)
      else Ok((vm.(d := vm.d[..k]), fs + [(NumValue(vm.d[k]) != 0) == (op == OP_IF)]))
    else if n == 0 then Err(UnbalancedConditional)
    else if op == OP_ELSE then Ok((vm, fs[n - 1 := !fs[n - 1]]))
    else Ok((vm, fs[..n - 1]))
  }

  /** One opcode; the state's own condition stack plays no part. */
  function RefOpcode(env: Env, vm: Vm, fs: seq<bool>, op: Byte, data: Octets): Result<(Vm, seq<bool>)> {
    if IsConditional(op) && |data| <= MAX_ELEMENT_SIZE then RefConditional(env, vm, fs, op)
    else if AllSet(fs) then
      var v :- ExecuteOpcode(env, vm.(cond := []), op, data);
      Ok((v, fs))
    else if IsDisabled(op) then Err(DisabledOpcode)
    else if IsAlwaysIllegal(op) then Err(ReservedOpcode)
    else if |data| > MAX_ELEMENT_SIZE then Err(ElementTooBig)
    else Ok((vm, fs))
  }

  function RefTokens(env: Env, vm: Vm, fs: seq<bool>, ts: seq<Token>): Result<(Vm, seq<bool>)>
    decreases |ts|
  {
    if ts == [] then Ok((vm, fs))
    else
      var r := RefOpcode(env, Moved(vm, ts[0]), fs, ts[0].op, ts[0].data);
      if r.Err? then Err(r.error)
      else if |r.value.0.d| + |r.value.0.a| > MAX_STACK_SIZE then Err(StackOverflow)
      else RefTokens(env, Counted(r.value.0), r.value.1, ts[1..])
  }

  function RefEval(env: Env, script: Octets, d: Items): Result<Items> {
    var r := RefTokens(env, Start(script, d), [], TokensOf(script));
    if r.Err? then Err(r.error)
    else if r.value.1 == [] then Ok(r.value.0.d)
    else Err(UnbalancedConditional)
  }

  // ----- the simulation

  /** Same state apart from the two condition stacks, which agree. */
  ghost predicate Simulates(vm: Vm, ref: Vm, fs: seq<bool>) {
    CondOk(vm.cond) && Agrees(vm.cond, fs) && ref.(cond := []) == vm.(cond := [])
  }

  ghost predicate SimulatesResult(r: Result<Vm>, q: Result<(Vm, seq<bool>)>) {
    if r.Ok? then q.Ok? && Simulates(r.value, q.value.0, q.value.1) else q.Err? && q.error == r.error
  }

  lemma ConditionalSimulates(env: Env, vm: Vm, ref: Vm, fs: seq<bool>, op: Byte)
    requires IsConditional(op) && Simulates(vm, ref, fs)
    ensures SimulatesResult(Conditional(env, vm, op), RefConditional(env, ref, fs, op))
  {
    hide Truthy, NumValue, CondOk, AllSet;
    ExecutingIffAllSet(vm.cond, fs);
    if vm.d != [] { TruthyIffNonZero(vm.d[|vm.d| - 1]); }
    if Conditional(env, vm, op).Ok? { ConditionalNests(env, vm, op); }
  }

  /** Handlers other than the conditionals ignore the condition stack once they run. */
  lemma HandlerIgnoresCond(env: Env, vm: Vm, c: seq<Cond>, op: Byte, data: Octets)
    requires !IsConditional(op) && Executing(vm.cond) && Executing(c)
    ensures var r, q := ExecuteOpcode(env, vm, op, data), ExecuteOpcode(env, vm.(cond := c), op, data);
            if r.Err? then q == r else r.value.cond == vm.cond && q == Ok(r.value.(cond := c))
  {
    hide StackOp, PushedItem, MinimalPush, PopItem, MakeNum, SigOp;
    if OP_CHECKSIG <= op <= 175 { SigOpIgnoresCond(env, vm, c, op); }
  }

  lemma SigOpIgnoresCond(env: Env, vm: Vm, c: seq<Cond>, op: Byte)
    requires OP_CHECKSIG <= op <= 175
    ensures var r, q := SigOp(env, vm, op), SigOp(env, vm.(cond := c), op);
            if r.Err? then q == r else r.value.cond == vm.cond && q == Ok(r.value.(cond := c))
  {
    hide CheckSig, PopMany, VerifyTop, PopItem, PopNum;
    if HasSubScript(vm) && env.ctx.idx < |env.ctx.tx.txIn| {
      assert SubScript(vm) == SubScript(vm.(cond := c));
      assert CheckSigOp(env, vm) == CheckSigOp(env, vm.(cond := c));
      assert CheckMultiSigOp(env, vm) == CheckMultiSigOp(env, vm.(cond := c));
    }
  }

  lemma OpcodeSimulates(env: Env, vm: Vm, ref: Vm, fs: seq<bool>, op: Byte, data: Octets)
    requires Simulates(vm, ref, fs)
    ensures SimulatesResult(ExecuteOpcode(env, vm, op, data), RefOpcode(env, ref, fs, op, data))
  {
    ExecutingIffAllSet(vm.cond, fs);
    if IsConditional(op) {
      hide Conditional, RefConditional, AllSet;
      ConditionalSimulates(env, vm, ref, fs, op);
    } else {
      if Executing(vm.cond) { HandlerIgnoresCond(env, vm, [], op, data); }
      hide Handler, AllSet, MinimalPush, CondOk;
    }
  }

  lemma {:induction false} TokensSimulate(env: Env, vm: Vm, ref: Vm, fs: seq<bool>, ts: seq<Token>)
    requires Simulates(vm, ref, fs)
    ensures SimulatesResult(RunTokens(env, vm, ts), RefTokens(env, ref, fs, ts))
    decreases |ts|
  {
    hide ExecuteOpcode, RefOpcode, Raw, CondOk, Agrees;
    if ts != [] {
      var t := ts[0];
      OpcodeSimulates(env, Moved(vm, t), Moved(ref, t), fs, t.op, t.data);
      var r, q := ExecuteOpcode(env, Moved(vm, t), t.op, t.data), RefOpcode(env, Moved(ref, t), fs, t.op, t.data);
      if r.Ok? && |r.value.d| + |r.value.a| <= MAX_STACK_SIZE {
        TokensSimulate(env, Counted(r.value), Counted(q.value.0), q.value.1, ts[1..]);
      }
    }
  }

  /** The engine's three-valued condition stack computes exactly what the boolean stack does. */
  lemma EvalIsRefEval(env: Env, script: Octets, d: Items)
    ensures Eval(env, script, d) == RefEval(env, script, d)
  {
    hide RunTokens, RefTokens, TokensOf;
    TokensSimulate(env, Start(script, d), Start(script, d), [], TokensOf(script));
  }
}
