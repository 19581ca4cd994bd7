/** Where a run can index out of range: exactly at a signature check on an empty signature. */
module EnginePanics {
  import opened Bytes
  import opened ScriptErrors
  import opened Tokens
  import opened ScriptNum
  import opened Opcodes
  import opened SigCheck
  import opened Engine
  import opened EngineSafety
  import opened EngineMeaning
  import opened PayToScriptHash
  import opened Builder

  /** In a pay-to-script-hash run the saved stack is non-empty once the output script has hashed its top. */
  ghost predicate SavedOk(env: Env, vm: Vm) {
    env.bip16 ==>
      && |vm.scripts| >= 2 && IsScriptHash(vm.scripts[1])
      && (vm.scriptIdx == 1 ==> if vm.opcodeIdx == 0 then vm.d == vm.saved else vm.saved != [])
  }

  lemma NewEngineSaved(ctx: Context, pk: Octets, lockOk: (Byte, int) -> bool)
    requires NewEngine(ctx, pk, lockOk).Ok?
    ensures var (env, vm) := NewEngine(ctx, pk, lockOk).value; SavedOk(env, vm)
  {
    hide Parses, IsPushOnly;
  }

  /** Inside the script-hash output script no conditional is open. */
  lemma NoConditional(env: Env, vm: Vm)
    requires Inv(env, vm) && SavedOk(env, vm) && env.bip16 && vm.scriptIdx == 1
    ensures vm.cond == [] && |TokensOf(vm.scripts[1])| == 3 && TokensOf(vm.scripts[1])[0] == Token(OP_HASH160, [])
    ensures vm.opcodeIdx < 3
  {
    hide TokensOf, TailOf, BoundaryAt, Small, CondOk;
    StepFindsToken(vm);
    ScriptHashTokens(vm.scripts[1]);
    var ts := TokensOf(vm.scripts[1]);
    assert Nesting(ts[..0]) == Some(0);
    NestingSnoc(ts, 0);
    NestingSnoc(ts, 1);
  }

  lemma EndScriptSaved(env: Env, vm: Vm)
    requires ShapeOk(env, vm) && EndScript(env, vm).Ok? && (env.bip16 ==> IsScriptHash(vm.scripts[1]))
    ensures SavedOk(env, EndScript(env, vm).value.1)
  {
    hide Parses, Truthy;
  }

  lemma StepKeepsSaved(env: Env, vm: Vm)
    requires Inv(env, vm) && SavedOk(env, vm) && Step(env, vm).Ok?
    ensures SavedOk(env, Step(env, vm).value.1)
  {
    hide Step, ExecuteOpcode, EndScript, TokensOf, Raw, BoundaryAt, Parses, Small, NestingOk, CondOk, IsScriptHash;
    StepUnfolds(env, vm);
    var t, at := Current(vm), Fetched(vm);
    ExecuteKeepsPosition(env, at, t.op, t.data);
    var vm2 := Counted(ExecuteOpcode(env, at, t.op, t.data).value);
    if vm2.offset >= |vm.scripts[vm.scriptIdx]| {
      EndScriptSaved(env, vm2);
    } else if env.bip16 && vm.scriptIdx == 1 && vm.opcodeIdx == 0 {
      NoConditional(env, vm);
      ExecuteHash160(env, at);
    }
  }

  /** The current token is a signature check about to read the last byte of an empty signature. */
  predicate AtEmptySignature(vm: Vm)
    requires vm.scriptIdx < |vm.scripts| && vm.opcodeIdx < |TokensOf(vm.scripts[vm.scriptIdx])|
  {
    Executing(vm.cond) && EmptySignature(vm.d, Current(vm).op)
  }

  lemma CheckSigHasNoData(vm: Vm)
    requires PositionOk(vm)
    ensures vm.opcodeIdx < |TokensOf(vm.scripts[vm.scriptIdx])|
    ensures Current(vm).op > OP_PUSHDATA4 ==> Current(vm).data == []
  {
    hide TokensOf, TailOf, BoundaryAt, Raw;
    StepFindsToken(vm);
    RenderOfTokens(vm.scripts[vm.scriptIdx]);
    assert Current(vm) in TokensOf(vm.scripts[vm.scriptIdx]);
  }

  lemma EndScriptNeverPanics(env: Env, vm: Vm)
    requires ShapeOk(env, vm) && (env.bip16 && vm.scriptIdx == 1 ==> vm.saved != [])
    ensures EndScript(env, vm) != Err(RuntimePanic)
  {
    hide Parses, Truthy;
  }

  /** A step panics exactly at an empty signature. */
  lemma StepPanicsIff(env: Env, vm: Vm)
    requires Inv(env, vm) && SavedOk(env, vm)
    ensures vm.opcodeIdx < |TokensOf(vm.scripts[vm.scriptIdx])|
    ensures Step(env, vm) == Err(RuntimePanic) <==> AtEmptySignature(vm)
  {
    hide Step, ExecuteOpcode, EndScript, TokensOf, Raw, BoundaryAt, Parses, Small, NestingOk, CondOk, IsScriptHash;
    StepUnfolds(env, vm);
    StepFindsToken(vm);
    CheckSigHasNoData(vm);
    var t, at := Current(vm), Fetched(vm);
    var r := ExecuteOpcode(env, at, t.op, t.data);
    if r.Err? {
      ExecuteErrors(env, at, t.op, t.data);
    } else {
      EmptySignatureFails(env, at, t.op, t.data);
      ExecuteKeepsPosition(env, at, t.op, t.data);
      var vm2 := Counted(r.value);
      if env.bip16 && vm.scriptIdx == 1 { EndOfOutput(env, vm, r.value); }
      EndScriptNeverPanicsIf(env, vm2);
    }
  }

  lemma EndScriptNeverPanicsIf(env: Env, vm: Vm)
    ensures ShapeOk(env, vm) && (env.bip16 && vm.scriptIdx == 1 ==> vm.saved != []) ==>
            EndScript(env, vm) != Err(RuntimePanic)
  {
    if ShapeOk(env, vm) && (env.bip16 && vm.scriptIdx == 1 ==> vm.saved != []) { EndScriptNeverPanics(env, vm); }
  }

  /** A handler of the output script succeeds only on a non-empty saved stack. */
  lemma EndOfOutput(env: Env, vm: Vm, vm1: Vm)
    requires Inv(env, vm) && SavedOk(env, vm) && env.bip16 && vm.scriptIdx == 1
    requires vm.opcodeIdx < |TokensOf(vm.scripts[vm.scriptIdx])|
    requires ExecuteOpcode(env, Fetched(vm), Current(vm).op, Current(vm).data) == Ok(vm1)
    ensures vm.saved != []
  {
    hide ExecuteOpcode, TokensOf, Raw, BoundaryAt, Parses, Small, NestingOk, CondOk, IsScriptHash;
    if vm.opcodeIdx == 0 {
      NoConditional(env, vm);
      ExecuteHash160(env, Fetched(vm));
    }
  }

  lemma EmptySignatureFails(env: Env, vm: Vm, op: Byte, data: Octets)
    requires env.ctx.idx < |env.ctx.tx.txIn| && HasSubScript(vm) && ExecuteOpcode(env, vm, op, data).Ok?
    ensures !(Executing(vm.cond) && EmptySignature(vm.d, op))
  {
    hide StackOp, CheckMultiSigOp, PushedItem, Truthy, NumValue, Minimal, MinimalPush, Conditional, CheckSig, VerifyTop,
         LockTimeOp;
  }

  /** Every reachable state satisfies both invariants. */
  lemma {:induction false} ReachableSaved(ctx: Context, pk: Octets, lockOk: (Byte, int) -> bool, n: nat)
    requires ctx.c.Sound() && NewEngine(ctx, pk, lockOk).Ok?
    ensures var (env, vm) := NewEngine(ctx, pk, lockOk).value;
            match After(env, vm, n)
            case None => true
            case Some(v) => Inv(env, v) && SavedOk(env, v)
  {
    hide Step, NewEngine, Inv, SavedOk;
    var (env, vm) := NewEngine(ctx, pk, lockOk).value;
    ReachableInv(ctx, pk, lockOk, n);
    if n == 0 {
      NewEngineSaved(ctx, pk, lockOk);
    } else {
      ReachableInv(ctx, pk, lockOk, n - 1);
      ReachableSaved(ctx, pk, lockOk, n - 1);
      var u := After(env, vm, n - 1);
      if u.Some? && Step(env, u.value).Ok? { StepKeepsSaved(env, u.value); }
    }
  }

  // ----- whole runs

  /** Some state of the run, reached without error, is about to check an empty signature. */
  ghost predicate MeetsEmptySignature(env: Env, vm: Vm) {
    exists n: nat :: PanicsAfter(env, vm, n)
  }

  ghost predicate PanicsAfter(env: Env, vm: Vm, n: nat) {
    match After(env, vm, n)
    case None => false
    case Some(v) =>
      v.scriptIdx < |v.scripts| && v.opcodeIdx < |TokensOf(v.scripts[v.scriptIdx])| && AtEmptySignature(v)
  }

  /** The states after a first step are those reached from its result. */
  lemma {:induction false} AfterStep(env: Env, vm: Vm, v: Vm, n: nat)
    requires Step(env, vm) == Ok((false, v))
    ensures After(env, vm, n + 1) == After(env, v, n)
  {
    hide Step;
    if n > 0 {
      AfterStep(env, vm, v, n - 1);
    } else {
      assert After(env, vm, 0) == Some(vm);
    }
  }

  lemma {:induction false} AfterStuck(env: Env, vm: Vm, n: nat)
    requires Step(env, vm).Err? || Step(env, vm).value.0
    ensures After(env, vm, n + 1) == None
  {
    hide Step;
    if n > 0 {
      AfterStuck(env, vm, n - 1);
    } else {
      assert After(env, vm, 0) == Some(vm);
    }
  }

  /** From any state within the invariants: the run panics exactly when it meets an empty signature. */
  lemma {:induction false} ExecutePanicsFrom(env: Env, vm: Vm)
    requires Inv(env, vm) && SavedOk(env, vm)
    ensures Execute(env, vm) == Err(RuntimePanic) <==> MeetsEmptySignature(env, vm)
    decreases ScriptsLeft(env, vm), BytesLeft(vm)
  {
    hide Step, Inv, SavedOk, TokensOf, AtEmptySignature, BoundsOk, CheckErrorCondition, MeetsEmptySignature;
    StepPanicsIff(env, vm);
    InPosition(env, vm);
    NowOrLater(env, vm);
    StepKeepsInv(env, vm);
    match Step(env, vm)
    case Err(e) =>
      NothingLater(env, vm);
    case Ok((done, v)) =>
      if done {
        NothingLater(env, vm);
        FinalNeverPanics(env, v);
      } else {
        StepKeepsSaved(env, vm);
        StepDecreases(env, vm);
        ExecutePanicsFrom(env, v);
        Later(env, vm, v);
      }
  }

  lemma FinalNeverPanics(env: Env, vm: Vm)
    ensures CheckErrorCondition(env, vm, true) != Err(RuntimePanic)
  {
    hide Truthy;
  }

  /** An empty signature now is an empty signature met. */
  lemma NowOrLater(env: Env, vm: Vm)
    requires vm.scriptIdx < |vm.scripts| && vm.opcodeIdx < |TokensOf(vm.scripts[vm.scriptIdx])|
    ensures AtEmptySignature(vm) ==> MeetsEmptySignature(env, vm)
  {
    hide TokensOf, AtEmptySignature, Step;
    assert After(env, vm, 0) == Some(vm);
    if AtEmptySignature(vm) { assert PanicsAfter(env, vm, 0); }
  }

  /** Where the run stops, only the present state counts. */
  lemma NothingLater(env: Env, vm: Vm)
    requires vm.scriptIdx < |vm.scripts| && vm.opcodeIdx < |TokensOf(vm.scripts[vm.scriptIdx])|
    requires Step(env, vm).Err? || Step(env, vm).value.0
    ensures MeetsEmptySignature(env, vm) ==> AtEmptySignature(vm)
  {
    hide TokensOf, AtEmptySignature, Step;
    if MeetsEmptySignature(env, vm) {
      var n: nat :| PanicsAfter(env, vm, n);
      if n > 0 { AfterStuck(env, vm, n - 1); } else { assert After(env, vm, 0) == Some(vm); }
    }
  }

  /** Where the run goes on without panic, what is met is met later. */
  lemma Later(env: Env, vm: Vm, v: Vm)
    requires Step(env, vm) == Ok((false, v))
    requires vm.scriptIdx < |vm.scripts| && vm.opcodeIdx < |TokensOf(vm.scripts[vm.scriptIdx])| && !AtEmptySignature(vm)
    ensures MeetsEmptySignature(env, vm) <==> MeetsEmptySignature(env, v)
  {
    hide TokensOf, AtEmptySignature, Step;
    if MeetsEmptySignature(env, vm) {
      var n: nat :| PanicsAfter(env, vm, n);
      assert After(env, vm, 0) == Some(vm);
      AfterStep(env, vm, v, n - 1);
      assert PanicsAfter(env, v, n - 1);
    }
    if MeetsEmptySignature(env, v) {
      var n: nat :| PanicsAfter(env, v, n);
      AfterStep(env, vm, v, n);
      assert PanicsAfter(env, vm, n + 1);
    }
  }

  /**
   * The only panic of a run: from any engine NewEngine accepts, Execute panics if and only if some
   * state it reaches is about to check an empty signature.
   */
  lemma ExecutePanicsIff(ctx: Context, pk: Octets, lockOk: (Byte, int) -> bool)
    requires ctx.c.Sound() && NewEngine(ctx, pk, lockOk).Ok?
    ensures var (env, vm) := NewEngine(ctx, pk, lockOk).value;
            Execute(env, vm) == Err(RuntimePanic) <==> MeetsEmptySignature(env, vm)
  {
    hide NewEngine, Inv, SavedOk, Execute, MeetsEmptySignature;
    NewEngineOk(ctx, pk, lockOk);
    NewEngineSaved(ctx, pk, lockOk);
    var (env, vm) := NewEngine(ctx, pk, lockOk).value;
    ExecutePanicsFrom(env, vm);
  }

  // ----- a run that does panic

  lemma CheckSigScript()
    ensures Parses([OP_CHECKSIG]) && TokensOf([OP_CHECKSIG]) == [Token(OP_CHECKSIG, [])]
  {
    var t := Token(OP_CHECKSIG, []);
    assert Raw(t) == [OP_CHECKSIG];
    hide TokensOf, TailOf, Render, Raw;
    RenderSnoc([], t);
    RenderNone();
    assert [] + [t] == [t] && [] + [OP_CHECKSIG] == [OP_CHECKSIG];
    RenderParses([t]);
  }

  lemma EvalEmptySignature(env: Env)
    requires env.ctx.idx < |env.ctx.tx.txIn|
    ensures Eval(env, [OP_CHECKSIG], [[], []]) == Err(RuntimePanic)
  {
    hide RunTokens, TokensOf, Raw, ExecuteOpcode;
    CheckSigScript();
    var vm, t := Start([OP_CHECKSIG], [[], []]), Token(OP_CHECKSIG, []);
    assert [t] == [t] + [];
    RunCons(env, vm, t, []);
    CheckSigPanics(env, Moved(vm, t));
  }

  lemma CheckSigPanics(env: Env, vm: Vm)
    requires env.ctx.idx < |env.ctx.tx.txIn| && HasSubScript(vm) && vm.cond == [] && vm.d == [[], []]
    ensures ExecuteOpcode(env, vm, OP_CHECKSIG, []) == Err(RuntimePanic)
  {
    hide CheckSig;
    var none: Octets := [];
    assert [none, none][..1] == [none];
  }

  lemma OneEmpty()
    ensures Normals([[]]) == [[]] && TotalSize([[]]) == 1
  {
    var none: Octets := [];
    var items := [none];
    assert items[1..] == [];
    assert Normals(items[1..]) == [] && TotalSize(items[1..]) == 0;
    assert Normals(items) == [Normal(none)] + Normals(items[1..]);
    assert TotalSize(items) == CanonicalDataSize(none) + TotalSize(items[1..]);
  }

  lemma TwoEmpty()
    ensures Buildable([[], []]) && Normals([[], []]) == [[], []] && TotalSize([[], []]) == 2
  {
    var none: Octets := [];
    var items := [none, none];
    OneEmpty();
    assert items[1..] == [none];
    assert Normals(items) == [Normal(none)] + Normals(items[1..]);
    assert TotalSize(items) == CanonicalDataSize(none) + TotalSize(items[1..]);
  }

  /** Two empty pushes against a bare CHECKSIG: the engine accepts the scripts, and the run panics. */
  lemma EmptySignaturePanics(ctx: Context, lockOk: (Byte, int) -> bool)
    requires ctx.c.Sound() && ctx.idx < |ctx.tx.txIn| && ctx.tx.txIn[ctx.idx].sigScript == Built([[], []])
    ensures NewEngine(ctx, [OP_CHECKSIG], lockOk).Ok?
    ensures var (env, vm) := NewEngine(ctx, [OP_CHECKSIG], lockOk).value; Execute(env, vm) == Err(RuntimePanic)
  {
    hide Eval, Execute, TokensOf, TailOf, Built, IsPushOnly, Buildable, Normals, TotalSize;
    var env := Env(ctx, false, lockOk);
    TwoEmpty();
    BuiltPushes(env, [[], []], []);
    BuiltPushOnly(env, [[], []]);
    PushOnlyParses(ctx.tx.txIn[ctx.idx].sigScript);
    CheckSigScript();
    var none: Octets := [];
    assert [] + [none, none] == [none, none];
    ExecuteIsValidate(ctx, [OP_CHECKSIG], lockOk);
    EvalEmptySignature(env);
  }
}
