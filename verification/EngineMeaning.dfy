/**
 * What a whole run of the engine means: each script is evaluated on its own, from its first token
 * to its last, and the scripts are chained by their data stacks.
 */
module EngineMeaning {
  import opened Bytes
  import opened ScriptErrors
  import opened Tokens
  import opened Stack
  import opened ScriptNum
  import opened Opcodes
  import opened SigCheck
  import opened Engine
  import opened EngineSafety

  // ----- reachable states

  /** The state after n steps, when none of them failed or ended the run. */
  function After(env: Env, vm: Vm, n: nat): Option<Vm> {
    if n == 0 then Some(vm)
    else
      match After(env, vm, n - 1)
      case None => None
      case Some(u) =>
        match Step(env, u)
        case Ok((false, v)) => Some(v)
        case _ => None
  }

  /** Every state reached from an engine NewEngine accepts satisfies the invariant. */
  lemma {:induction false} ReachableInv(ctx: Context, pk: Octets, lockOk: (Byte, int) -> bool, n: nat)
    requires ctx.c.Sound() && NewEngine(ctx, pk, lockOk).Ok?
    ensures var (env, vm) := NewEngine(ctx, pk, lockOk).value;
            match After(env, vm, n)
            case None => true
            case Some(v) => Inv(env, v)
  {
    hide Step, NewEngine, Inv;
    var (env, vm) := NewEngine(ctx, pk, lockOk).value;
    if n == 0 {
      NewEngineOk(ctx, pk, lockOk);
    } else {
      ReachableInv(ctx, pk, lockOk, n - 1);
      var u := After(env, vm, n - 1);
      if u.Some? { StepKeepsInv(env, u.value); }
    }
  }

  // ----- one script

  /** The tokens executed in order, with the size check after each. */
  function RunTokens(env: Env, vm: Vm, ts: seq<Token>): Result<Vm>
    decreases |ts|
  {
    if ts == [] then Ok(vm)
    else
      var r := ExecuteOpcode(env, vm.(offset := vm.offset + |Raw(ts[0])|), ts[0].op, ts[0].data);
      if r.Err? then Err(r.error)
      else if |r.value.d| + |r.value.a| > MAX_STACK_SIZE then Err(StackOverflow)
      else RunTokens(env, Counted(r.value), ts[1..])
  }

  /** What follows the end of a script. */
  function Finish(env: Env, r: Result<Vm>): Result<Vm>
  {
    match r
    case Err(e) => Err(e)
    case Ok(vm) =>
      match EndScript(env, vm)
      case Err(e) => Err(e)
      case Ok((done, v)) => if done then CheckErrorCondition(env, v, true) else Execute(env, v)
  }

  /** Executing from any position runs the remaining tokens of the script, then moves on. */
  lemma {:induction false} ExecuteRunsTokens(env: Env, vm: Vm)
    requires Inv(env, vm)
    ensures vm.opcodeIdx < |TokensOf(vm.scripts[vm.scriptIdx])|
    ensures Execute(env, vm) == Finish(env, RunTokens(env, vm, TokensOf(vm.scripts[vm.scriptIdx])[vm.opcodeIdx..]))
    decreases |vm.scripts[vm.scriptIdx]| - vm.offset
  {
    hide *;
    InPosition(env, vm);
    var script := vm.scripts[vm.scriptIdx];
    var ts := TokensOf(script);
    var t, at := Current(vm), Fetched(vm);
    ExecuteUnfolds(env, vm);
    RunUnfolds(env, vm, ts, vm.opcodeIdx);
    var r := ExecuteOpcode(env, at, t.op, t.data);
    if r.Err? {
      FinishErr(env, r.error);
    } else if |r.value.d| + |r.value.a| > MAX_STACK_SIZE {
      FinishErr(env, StackOverflow);
    } else {
      var vm2 := Counted(r.value);
      AfterHandler(env, vm, vm2);
      if vm2.offset >= |script| {
        RunNothing(env, vm2, ts, vm2.opcodeIdx);
      } else {
        ExecuteRunsTokens(env, vm2);
      }
    }
  }

  lemma InPosition(env: Env, vm: Vm)
    requires Inv(env, vm)
    ensures vm.scriptIdx < |vm.scripts| && vm.offset < |vm.scripts[vm.scriptIdx]|
    ensures vm.opcodeIdx < |TokensOf(vm.scripts[vm.scriptIdx])|
  {
    hide TokensOf, BoundaryAt, Parses, Small, CondOk, Nesting;
    StepFindsToken(vm);
  }

  lemma FinishErr(env: Env, e: ScriptError)
    ensures Finish(env, Err(e)) == Err(e)
  {
  }

  lemma RunNothing(env: Env, vm: Vm, ts: seq<Token>, i: nat)
    requires i == |ts|
    ensures RunTokens(env, vm, ts[i..]) == Ok(vm)
  {
  }

  lemma RunUnfolds(env: Env, vm: Vm, ts: seq<Token>, i: nat)
    requires vm.scriptIdx < |vm.scripts| && ts == TokensOf(vm.scripts[vm.scriptIdx]) && i == vm.opcodeIdx < |ts|
    ensures RunTokens(env, vm, ts[i..]) ==
            var r := ExecuteOpcode(env, Fetched(vm), Current(vm).op, Current(vm).data);
            if r.Err? then Err(r.error)
            else if |r.value.d| + |r.value.a| > MAX_STACK_SIZE then Err(StackOverflow)
            else RunTokens(env, Counted(r.value), ts[i + 1..])
  {
    hide ExecuteOpcode, TokensOf, Raw;
    assert ts[i..][1..] == ts[i + 1..];
  }

  /** Execute on a state in position. */
  lemma ExecuteUnfolds(env: Env, vm: Vm)
    requires Inv(env, vm)
    ensures vm.scriptIdx < |vm.scripts| && vm.opcodeIdx < |TokensOf(vm.scripts[vm.scriptIdx])|
    ensures Execute(env, vm) ==
            var r := ExecuteOpcode(env, Fetched(vm), Current(vm).op, Current(vm).data);
            if r.Err? then Err(r.error)
            else if |r.value.d| + |r.value.a| > MAX_STACK_SIZE then Err(StackOverflow)
            else if Counted(r.value).offset >= |vm.scripts[vm.scriptIdx]| then Finish(env, Ok(Counted(r.value)))
            else Execute(env, Counted(r.value))
  {
    hide Step, ExecuteOpcode, EndScript, TokensOf, Raw, BoundaryAt, Parses, Small, CondOk, Nesting, Boundary,
         CheckErrorCondition;
    StepUnfolds(env, vm);
  }

  /** The state after a successful handler is in position again, or at the end of the script. */
  lemma AfterHandler(env: Env, vm: Vm, vm2: Vm)
    requires Inv(env, vm) && vm.opcodeIdx < |TokensOf(vm.scripts[vm.scriptIdx])|
    requires var r := ExecuteOpcode(env, Fetched(vm), Current(vm).op, Current(vm).data);
             r.Ok? && vm2 == Counted(r.value) && |r.value.d| + |r.value.a| <= MAX_STACK_SIZE
    ensures vm2.scripts == vm.scripts && vm2.scriptIdx == vm.scriptIdx && vm2.opcodeIdx == vm.opcodeIdx + 1
    ensures if vm2.offset >= |vm.scripts[vm.scriptIdx]| then vm2.opcodeIdx == |TokensOf(vm.scripts[vm.scriptIdx])|
            else vm.offset < vm2.offset && Inv(env, vm2)
  {
    hide ExecuteOpcode, TokensOf, TailOf, Raw, BoundaryAt, Small, CondOk, Nesting, Boundary;
    var t, at := Current(vm), Fetched(vm);
    var script := vm.scripts[vm.scriptIdx];
    HandlerKeeps(env, vm);
    ExecuteKeepsPosition(env, at, t.op, t.data);
    assert Parses(script);
    StepFindsToken(vm);
    EndBoundary(script, vm2.offset, vm2.opcodeIdx);
  }

  // ----- a script on its own

  /** The parts of the state a handler can see or change. */
  ghost predicate SameFrame(x: Vm, y: Vm) {
    && x.scriptIdx < |x.scripts| && y.scriptIdx < |y.scripts|
    && x.scripts[x.scriptIdx] == y.scripts[y.scriptIdx]
    && x.offset == y.offset && x.opcodeIdx == y.opcodeIdx && x.lastCodeSep == y.lastCodeSep
    && x.d == y.d && x.a == y.a && x.cond == y.cond && x.numOps == y.numOps
  }

  ghost predicate SameOutcome(x: Result<Vm>, y: Result<Vm>) {
    if x.Ok? then y.Ok? && SameFrame(x.value, y.value) else y == x
  }

  lemma SigOpFrame(env: Env, x: Vm, y: Vm, op: Byte)
    requires SameFrame(x, y) && OP_CHECKSIG <= op <= 175
    ensures SameOutcome(SigOp(env, x, op), SigOp(env, y, op))
  {
    hide CheckSig, PopMany, VerifyTop, PopItem, PopNum;
    assert HasSubScript(x) == HasSubScript(y);
    if HasSubScript(x) && env.ctx.idx < |env.ctx.tx.txIn| {
      assert SubScript(x) == SubScript(y);
      assert CheckSigOp(env, x) == CheckSigOp(env, y);
      assert CheckMultiSigOp(env, x) == CheckMultiSigOp(env, y);
    }
  }

  lemma ExecuteFrame(env: Env, x: Vm, y: Vm, op: Byte, data: Octets)
    requires SameFrame(x, y)
    ensures SameOutcome(ExecuteOpcode(env, x, op, data), ExecuteOpcode(env, y, op, data))
  {
    hide SigOp, StackOp, PushedItem, PopIfBool, MinimalPush, PopItem, MakeNum;
    if OP_CHECKSIG <= op <= 175 { SigOpFrame(env, x, y, op); }
  }

  lemma {:induction false} RunFrame(env: Env, x: Vm, y: Vm, ts: seq<Token>)
    requires SameFrame(x, y)
    ensures SameOutcome(RunTokens(env, x, ts), RunTokens(env, y, ts))
    decreases |ts|
  {
    hide ExecuteOpcode, Raw;
    if ts != [] {
      var x1, y1 := x.(offset := x.offset + |Raw(ts[0])|), y.(offset := y.offset + |Raw(ts[0])|);
      ExecuteFrame(env, x1, y1, ts[0].op, ts[0].data);
      var r, q := ExecuteOpcode(env, x1, ts[0].op, ts[0].data), ExecuteOpcode(env, y1, ts[0].op, ts[0].data);
      if r.Ok? && |r.value.d| + |r.value.a| <= MAX_STACK_SIZE {
        RunFrame(env, Counted(r.value), Counted(q.value), ts[1..]);
      }
    }
  }

  function Start(script: Octets, d: Items): Vm { Vm([script], 0, 0, 0, 0, [], d, [], [], 0) }

  function Closed(r: Result<Vm>): Result<Items> {
    match r
    case Err(e) => Err(e)
    case Ok(vm) => if vm.cond == [] then Ok(vm.d) else Err(UnbalancedConditional)
  }

  /** The data stack a script leaves when it starts on the given one. */
  function Eval(env: Env, script: Octets, d: Items): Result<Items> {
    Closed(RunTokens(env, Start(script, d), TokensOf(script)))
  }

  // ----- all scripts of a run

  /** The verdict on the last data stack. */
  function Final(env: Env, d: Items): Result<Items> {
    if env.Flags().cleanStack && |d| != 1 then Err(CleanStack)
    else Passed(d)
  }

  /** A true top item, taken off. */
  function Passed(d: Items): Result<Items> {
    if d == [] then Err(EmptyStack)
    else if !Truthy(d[|d| - 1]) then Err(EvalFalse)
    else Ok(d[..|d| - 1])
  }

  /** The redeem script on the items below it. */
  function Redeem(env: Env, d: Items): Result<Items>
    requires d != []
  {
    var n := |d| - 1;
    if !Parses(d[n]) then Err(MalformedPush)
    else
      var d' :- Eval(env, d[n], d[..n]);
      Final(env, d')
  }

  /** Signature script, output script and, for pay-to-script-hash, redeem script, in that order. */
  function Validate(env: Env, sig: Octets, pk: Octets): Result<Items> {
    var d1 :- Eval(env, sig, []);
    FromOutput(env, pk, d1)
  }

  /** From the output script on, with the stack the signature script left. */
  function FromOutput(env: Env, pk: Octets, d1: Items): Result<Items> {
    var d2 :- Eval(env, pk, d1);
    if !env.bip16 then Final(env, d2)
    else
      var _ :- Passed(d2);
      if d1 == [] then Err(RuntimePanic) else Redeem(env, d1)
  }

  function Outcome(r: Result<Vm>): Result<Items> {
    match r
    case Err(e) => Err(e)
    case Ok(vm) => Ok(vm.d)
  }

  /** The state in which a script begins. */
  ghost predicate AtStart(vm: Vm) {
    vm.offset == 0 && vm.opcodeIdx == 0 && vm.lastCodeSep == 0 && vm.a == [] && vm.cond == [] && vm.numOps == 0
  }

  /** What comes after a script that left the stack in vm. */
  function Next(env: Env, vm: Vm): Result<Items> { Outcome(Finish(env, Ok(vm))) }

  /** The run goes on with the stack a script left, or stops with its error. */
  function GoOn(env: Env, vm: Vm, r: Result<Items>): Result<Items> {
    if r.Err? then r else Next(env, vm.(d := r.value))
  }

  lemma AdvanceIgnores(env: Env, x: Vm, y: Vm)
    requires y == x.(offset := y.offset, lastCodeSep := y.lastCodeSep)
    ensures var r, q := Advance(env, x), Advance(env, y);
            if r.Err? then q == r else q == Ok(r.value.(offset := y.offset, lastCodeSep := y.lastCodeSep))
  {
    hide Parses, Truthy;
  }

  /** EndScript resets whatever the script could have changed besides the data stack. */
  lemma NextIgnores(env: Env, x: Vm, y: Vm)
    requires x.cond == []
    requires y == x.(offset := y.offset, opcodeIdx := y.opcodeIdx, lastCodeSep := y.lastCodeSep,
                     a := y.a, numOps := y.numOps)
    ensures Next(env, x) == Next(env, y)
  {
    hide Execute, Advance, Truthy;
    var x', y' := x.(a := [], numOps := 0, opcodeIdx := 0), y.(a := [], numOps := 0, opcodeIdx := 0);
    AdvanceIgnores(env, x', y');
  }

  lemma {:induction false} RunKeepsPlace(env: Env, vm: Vm, ts: seq<Token>)
    requires RunTokens(env, vm, ts).Ok?
    ensures var v := RunTokens(env, vm, ts).value;
            v.scripts == vm.scripts && v.scriptIdx == vm.scriptIdx && v.saved == vm.saved
    decreases |ts|
  {
    hide ExecuteOpcode, Raw;
    if ts != [] {
      var at := vm.(offset := vm.offset + |Raw(ts[0])|);
      ExecuteKeepsPosition(env, at, ts[0].op, ts[0].data);
      RunKeepsPlace(env, Counted(ExecuteOpcode(env, at, ts[0].op, ts[0].data).value), ts[1..]);
    }
  }

  /** The end of a script, seen from the run and from the evaluation on its own. */
  lemma ScriptEnds(env: Env, vm: Vm, r: Result<Vm>, alone: Result<Vm>)
    requires SameOutcome(r, alone)
    requires r.Ok? ==> r.value.scripts == vm.scripts && r.value.scriptIdx == vm.scriptIdx && r.value.saved == vm.saved
    requires vm.cond == []
    ensures Outcome(Finish(env, r)) == GoOn(env, vm, Closed(alone))
  {
    hide Execute, Advance;
    if r.Ok? && r.value.cond == [] {
      NextIgnores(env, r.value, vm.(d := r.value.d));
    }
  }

  /** From the start of a script: evaluate it alone, then go on with the stack it leaves. */
  lemma ScriptThenNext(env: Env, vm: Vm)
    requires Inv(env, vm) && AtStart(vm)
    ensures vm.scriptIdx < |vm.scripts|
    ensures Outcome(Execute(env, vm)) == GoOn(env, vm, Eval(env, vm.scripts[vm.scriptIdx], vm.d))
  {
    hide RunTokens, Execute, TokensOf, Inv, Finish, Next;
    InPosition(env, vm);
    var script := vm.scripts[vm.scriptIdx];
    var ts := TokensOf(script);
    ExecuteRunsTokens(env, vm);
    assert ts[0..] == ts;
    RunFrame(env, vm, Start(script, vm.d), ts);
    var r := RunTokens(env, vm, ts);
    if r.Ok? { RunKeepsPlace(env, vm, ts); }
    ScriptEnds(env, vm, r, RunTokens(env, Start(script, vm.d), ts));
  }

  // ----- the chain of scripts

  lemma {:induction false} RunBounds(env: Env, vm: Vm, ts: seq<Token>)
    requires env.ctx.c.Sound() && Small(vm.d) && Small(vm.a) && |vm.d| + |vm.a| <= MAX_STACK_SIZE
    requires RunTokens(env, vm, ts).Ok?
    ensures var v := RunTokens(env, vm, ts).value;
            Small(v.d) && Small(v.a) && |v.d| + |v.a| <= MAX_STACK_SIZE
    decreases |ts|
  {
    hide ExecuteOpcode, Raw, Small;
    if ts != [] {
      var at := vm.(offset := vm.offset + |Raw(ts[0])|);
      ExecuteSmall(env, at, ts[0].op, ts[0].data);
      RunBounds(env, Counted(ExecuteOpcode(env, at, ts[0].op, ts[0].data).value), ts[1..]);
    }
  }

  /** A data stack within the engine's limits. */
  ghost predicate StackOk(d: Items) { Small(d) && |d| <= MAX_STACK_SIZE }

  lemma EvalBounds(env: Env, script: Octets, d: Items)
    requires env.ctx.c.Sound() && StackOk(d) && Eval(env, script, d).Ok?
    ensures StackOk(Eval(env, script, d).value)
  {
    hide RunTokens, TokensOf, Small;
    SmallEmpty();
    RunBounds(env, Start(script, d), TokensOf(script));
  }

  function AtScript(scripts: seq<Octets>, i: nat, saved: Items, d: Items): Vm {
    Vm(scripts, i, 0, 0, 0, saved, d, [], [], 0)
  }

  ghost predicate ScriptsOk(env: Env, scripts: seq<Octets>, i: nat) {
    && i < |scripts| && |scripts| == (if env.bip16 && i == 2 then 3 else 2)
    && (forall s :: s in scripts ==> Parses(s)) && scripts[i] != []
  }

  lemma StartInv(env: Env, scripts: seq<Octets>, i: nat, saved: Items, d: Items)
    requires EnvOk(env) && ScriptsOk(env, scripts, i) && StackOk(saved) && StackOk(d)
    ensures Inv(env, AtScript(scripts, i, saved, d)) && AtStart(AtScript(scripts, i, saved, d))
  {
    hide TokensOf, TailOf, BoundaryAt, Small;
    StartBoundary(scripts[i]);
    SmallEmpty();
    assert TokensOf(scripts[i])[..0] == [];
    assert CondOk([]);
  }

  /** The last script ends with the final verdict. */
  lemma LastScript(env: Env, scripts: seq<Octets>, i: nat, saved: Items, d: Items)
    requires EnvOk(env) && ScriptsOk(env, scripts, i) && i + 1 == |scripts| && StackOk(saved) && StackOk(d)
    requires env.bip16 ==> i == 2
    ensures Outcome(Execute(env, AtScript(scripts, i, saved, d))) == Ends(env, Eval(env, scripts[i], d))
  {
    hide Eval, Inv, Execute, Truthy;
    StartInv(env, scripts, i, saved, d);
    ScriptThenNext(env, AtScript(scripts, i, saved, d));
  }

  function Ends(env: Env, r: Result<Items>): Result<Items> { if r.Err? then r else Final(env, r.value) }

  /** The empty script leaves the stack alone. */
  lemma EvalEmpty(env: Env, d: Items)
    ensures Eval(env, [], d) == Ok(d)
  {
    assert TokensOf([]) == [];
    hide ExecuteOpcode;
  }

  /** Past the script-hash output script the redeem script runs on what the signature script left. */
  lemma RedeemRuns(env: Env, sig: Octets, pk: Octets, d: Items, saved: Items)
    requires EnvOk(env) && env.bip16 && Parses(sig) && Parses(pk) && pk != [] && StackOk(saved) && StackOk(d)
    ensures Next(env, AtScript([sig, pk], 1, saved, d)) ==
            if Passed(d).Err? then Err(Passed(d).error)
            else if saved == [] then Err(RuntimePanic) else Redeem(env, saved)
  {
    hide Eval, Execute, Truthy, Parses, Small;
    if Passed(d).Ok? && saved != [] && Parses(saved[|saved| - 1]) {
      var n := |saved| - 1;
      var redeem := saved[n];
      if redeem == [] {
        EvalEmpty(env, saved[..n]);
      } else {
        SmallSub(saved, saved[..n]);
        LastScript(env, [sig, pk, redeem], 2, saved, saved[..n]);
      }
      assert [sig, pk] + [redeem] == [sig, pk, redeem];
    }
  }

  lemma OutputScript(env: Env, sig: Octets, pk: Octets, saved: Items, d: Items)
    requires EnvOk(env) && Parses(sig) && Parses(pk) && pk != [] && StackOk(saved) && StackOk(d)
    requires env.bip16 ==> saved == d
    ensures Outcome(Execute(env, AtScript([sig, pk], 1, saved, d))) == FromOutput(env, pk, d)
  {
    hide Eval, Execute, Truthy, Parses, Small, Inv, Redeem, Next;
    var vm := AtScript([sig, pk], 1, saved, d);
    StartInv(env, [sig, pk], 1, saved, d);
    ScriptThenNext(env, vm);
    var r := Eval(env, pk, d);
    if r.Ok? {
      EvalBounds(env, pk, d);
      if env.bip16 {
        RedeemRuns(env, sig, pk, r.value, saved);
      } else {
        LastScript(env, [sig, pk], 1, saved, d);
      }
    }
  }

  /**
   * A run from a new engine is the chain of separate evaluations: signature script, output script
   * and, for pay-to-script-hash, the redeem script on the remaining items.
   */
  lemma ExecuteIsValidate(ctx: Context, pk: Octets, lockOk: (Byte, int) -> bool)
    requires ctx.c.Sound() && NewEngine(ctx, pk, lockOk).Ok?
    ensures var (env, vm) := NewEngine(ctx, pk, lockOk).value;
            Outcome(Execute(env, vm)) == Validate(env, ctx.tx.txIn[ctx.idx].sigScript, pk)
  {
    hide Eval, Execute, Truthy, Parses, Small, Inv, Redeem, IsPushOnly, Final;
    var (env, vm) := NewEngine(ctx, pk, lockOk).value;
    var sig := ctx.tx.txIn[ctx.idx].sigScript;
    SmallEmpty();
    EvalEmpty(env, []);
    if sig == [] {
      OutputScript(env, sig, pk, [], []);
    } else {
      SignatureScript(env, sig, pk);
    }
  }

  lemma SignatureScript(env: Env, sig: Octets, pk: Octets)
    requires EnvOk(env) && Parses(sig) && Parses(pk) && sig != [] && (env.bip16 ==> pk != [])
    ensures Outcome(Execute(env, AtScript([sig, pk], 0, [], []))) == Validate(env, sig, pk)
  {
    hide Eval, Execute, Truthy, Parses, Small, Inv, Redeem;
    SmallEmpty();
    StartInv(env, [sig, pk], 0, [], []);
    ScriptThenNext(env, AtScript([sig, pk], 0, [], []));
    var r := Eval(env, sig, []);
    if r.Ok? {
      EvalBounds(env, sig, []);
      var d := r.value;
      if pk == [] {
        EvalEmpty(env, d);
      } else {
        OutputScript(env, sig, pk, if env.bip16 then d else [], d);
      }
    }
  }

  // ----- running known tokens

  function Moved(vm: Vm, t: Token): Vm { vm.(offset := vm.offset + |Raw(t)|) }

  lemma RunCons(env: Env, vm: Vm, t: Token, ts: seq<Token>)
    ensures RunTokens(env, vm, [t] + ts) ==
            var r := ExecuteOpcode(env, Moved(vm, t), t.op, t.data);
            if r.Err? then r
            else if |r.value.d| + |r.value.a| > MAX_STACK_SIZE then Err(StackOverflow)
            else RunTokens(env, Counted(r.value), ts)
  {
    hide ExecuteOpcode, Raw;
    assert ([t] + ts)[1..] == ts;
  }

  lemma {:induction false} RunAppend(env: Env, vm: Vm, a: seq<Token>, b: seq<Token>)
    requires RunTokens(env, vm, a).Ok?
    ensures RunTokens(env, vm, a + b) == RunTokens(env, RunTokens(env, vm, a).value, b)
    decreases |a|
  {
    hide ExecuteOpcode, Raw;
    if a == [] {
      assert a + b == b;
    } else {
      assert (a + b)[1..] == a[1..] + b;
      var v := Counted(ExecuteOpcode(env, Moved(vm, a[0]), a[0].op, a[0].data).value);
      RunAppend(env, v, a[1..], b);
    }
  }

  /** An error in the first part is the error of the whole. */
  lemma {:induction false} RunStops(env: Env, vm: Vm, a: seq<Token>, b: seq<Token>)
    requires RunTokens(env, vm, a).Err?
    ensures RunTokens(env, vm, a + b) == RunTokens(env, vm, a)
    decreases |a|
  {
    hide ExecuteOpcode, Raw;
    if a != [] {
      assert (a + b)[1..] == a[1..] + b;
      var r := ExecuteOpcode(env, Moved(vm, a[0]), a[0].op, a[0].data);
      if r.Ok? && |r.value.d| + |r.value.a| <= MAX_STACK_SIZE {
        RunStops(env, Counted(r.value), a[1..], b);
      }
    }
  }

  lemma RunNone(env: Env, vm: Vm)
    ensures RunTokens(env, vm, []) == Ok(vm)
  {
    hide ExecuteOpcode;
  }

  // ----- whole runs: nesting and place

  /** A script that ends without error is balanced. */
  lemma EvalBalanced(env: Env, script: Octets, d: Items)
    requires Eval(env, script, d).Ok?
    ensures Balanced(TokensOf(script))
  {
    hide RunTokens, TokensOf, CondOk;
    var ts := TokensOf(script);
    NestingOkEmpty();
    assert ts[..0] == [] && ts[0..] == ts;
    RunNests(env, Start(script, d), ts, 0);
    assert ts[..|ts|] == ts;
  }

  lemma NestingOkEmpty()
    ensures CondOk([])
  {
  }

  lemma {:induction false} RunNests(env: Env, vm: Vm, ts: seq<Token>, i: nat)
    requires i <= |ts| && CondOk(vm.cond) && Nesting(ts[..i]) == Some(|vm.cond|)
    requires RunTokens(env, vm, ts[i..]).Ok?
    ensures Nesting(ts) == Some(|RunTokens(env, vm, ts[i..]).value.cond|)
    decreases |ts| - i
  {
    hide ExecuteOpcode, Raw, CondOk, RunTokens;
    if i == |ts| {
      assert ts[..i] == ts && ts[i..] == [];
      RunNone(env, vm);
    } else {
      var t := ts[i];
      assert ts[i..] == [t] + ts[i + 1..];
      RunCons(env, vm, t, ts[i + 1..]);
      ExecuteNests(env, Moved(vm, t), t.op, t.data);
      NestingSnoc(ts, i);
      RunNests(env, Counted(ExecuteOpcode(env, Moved(vm, t), t.op, t.data).value), ts, i + 1);
    }
  }

  /** A run never loses its place: neither error is ever the outcome. */
  lemma {:induction false} ExecuteKeepsPlace(env: Env, vm: Vm)
    requires Inv(env, vm)
    ensures Execute(env, vm) != Err(InvalidProgramCounter) && Execute(env, vm) != Err(ScriptUnfinished)
    decreases ScriptsLeft(env, vm), BytesLeft(vm)
  {
    hide Step, Inv, BoundsOk;
    StepKeepsInv(env, vm);
    match Step(env, vm)
    case Err(e) =>
    case Ok((done, v)) =>
      if !done {
        StepDecreases(env, vm);
        ExecuteKeepsPlace(env, v);
      }
  }
}
