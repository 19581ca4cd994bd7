/** What every run of the engine keeps: position, sizes and conditional nesting. */
module EngineSafety {
  import opened Bytes
  import opened ScriptErrors
  import opened Tokens
  import opened Stack
  import opened ScriptNum
  import opened Opcodes
  import opened SigCheck
  import opened Engine
  import Scripts
  import MultiSig

  // ----- conditional nesting

  /** The nesting depth after one more opcode; None when an ELSE or ENDIF has no IF. */
  function NestAfter(n: nat, op: Byte): Option<nat> {
    if op == OP_IF || op == OP_NOTIF then Some(n + 1)
    else if op == OP_ELSE then (if n == 0 then None else Some(n))
    else if op == OP_ENDIF then (if n == 0 then None else Some(n - 1))
    else Some(n)
  }

  function Nesting(ts: seq<Token>): Option<nat> {
    if ts == [] then Some(0)
    else
      match Nesting(ts[..|ts| - 1])
      case None => None
      case Some(n) => NestAfter(n, ts[|ts| - 1].op)
  }

  /** Every IF has its ENDIF and every ELSE lies inside one. */
  predicate Balanced(ts: seq<Token>) { Nesting(ts) == Some(0) }

  lemma NestingSnoc(ts: seq<Token>, i: nat)
    requires i < |ts|
    ensures Nesting(ts[..i + 1]) == match Nesting(ts[..i])
                                    case None => None
                                    case Some(n) => NestAfter(n, ts[i].op)
  {
    assert ts[..i + 1][..i] == ts[..i];
  }

  /** An entry is Skip exactly when there is one below it that is not True. */
  ghost predicate CondOk(cond: seq<Cond>) {
    var k := |cond| - 1;
    cond == [] || (CondOk(cond[..k]) && (cond[k] == CondSkip <==> k > 0 && cond[k - 1] != CondTrue))
  }

  predicate AllTrue(cond: seq<Cond>) { forall i :: 0 <= i < |cond| ==> cond[i] == CondTrue }

  /** Testing only the top entry is testing all of them. */
  lemma {:induction false} TopDecides(cond: seq<Cond>)
    requires CondOk(cond)
    ensures Executing(cond) <==> AllTrue(cond)
  {
    if cond != [] {
      var k := |cond| - 1;
      TopDecides(cond[..k]);
      assert cond == cond[..k] + [cond[k]];
    }
  }

  lemma ConditionalNests(env: Env, vm: Vm, op: Byte)
    requires IsConditional(op) && Conditional(env, vm, op).Ok? && CondOk(vm.cond)
    ensures var cond := Conditional(env, vm, op).value.cond;
            CondOk(cond) && NestAfter(|vm.cond|, op) == Some(|cond|)
  {
    hide PopIfBool, CondOk;
    var cond, cond' := vm.cond, Conditional(env, vm, op).value.cond;
    if op == OP_IF || op == OP_NOTIF {
      CondPush(cond, cond'[|cond|]);
    } else if op == OP_ELSE {
      CondToggle(cond);
    } else {
      CondPop(cond);
    }
  }

  lemma CondPush(cond: seq<Cond>, c: Cond)
    requires CondOk(cond) && (c == CondSkip <==> !Executing(cond))
    ensures CondOk(cond + [c])
  {
    assert (cond + [c])[..|cond|] == cond;
  }

  lemma CondToggle(cond: seq<Cond>)
    requires CondOk(cond) && cond != []
    ensures CondOk(cond[|cond| - 1 := Toggled(cond[|cond| - 1])])
  {
    var k := |cond| - 1;
    assert cond[k := Toggled(cond[k])][..k] == cond[..k];
  }

  lemma CondPop(cond: seq<Cond>)
    requires CondOk(cond) && cond != []
    ensures CondOk(cond[..|cond| - 1])
  {
  }

  lemma ExecuteNests(env: Env, vm: Vm, op: Byte, data: Octets)
    requires ExecuteOpcode(env, vm, op, data).Ok? && CondOk(vm.cond)
    ensures var vm' := ExecuteOpcode(env, vm, op, data).value;
            CondOk(vm'.cond) && NestAfter(|vm.cond|, op) == Some(|vm'.cond|)
  {
    hide StackOp, CheckSigOp, CheckMultiSigOp, PushedItem, Conditional, CondOk;
    if IsConditional(op) { ConditionalNests(env, vm, op); }
  }

  // ----- errors no handler gives

  /** Errors that would mean the engine lost its place, or an index out of range. */
  predicate Internal(e: ScriptError) {
    e == InvalidProgramCounter || e == ScriptUnfinished || e == RuntimePanic
  }

  lemma ShuffleErrors(op: Byte, s: Stacks, minimal: bool)
    requires 107 <= op <= 125 && Shuffle(op, s, minimal).Err?
    ensures !Internal(Shuffle(op, s, minimal).error)
  {
    hide Copied, Rotated, Without, Truthy, NumBytes, NumValue, Minimal;
  }

  lemma NumericErrors(op: Byte, d: Items, minimal: bool)
    requires IsNumeric(op) && Numeric(op, d, minimal).Err?
    ensures !Internal(Numeric(op, d, minimal).error)
  {
    hide Unary, Binary, Truthy, NumBytes, NumValue, Minimal;
  }

  lemma StackOpErrors(env: Env, s: Stacks, op: Byte)
    requires StackOp(env, s, op).Err?
    ensures !Internal(StackOp(env, s, op).error)
  {
    hide Shuffle, Numeric, Truthy, NumBytes, Digest;
    if 107 <= op <= 125 {
      ShuffleErrors(op, s, env.Flags().minimalData);
    } else if IsNumeric(op) {
      NumericErrors(op, s.d, env.Flags().minimalData);
    }
  }

  lemma {:induction false} GreedyErrors(ctx: Context, script: Octets, sigs: seq<Octets>, keys: seq<Octets>)
    requires ctx.idx < |ctx.tx.txIn| && MultiSig.Greedy(ctx, script, sigs, keys).Err?
    ensures !Internal(MultiSig.Greedy(ctx, script, sigs, keys).error)
    decreases |keys|
  {
    hide Context.Verifies;
    var matched := MultiSig.TryPair(ctx, script, sigs[0], keys[0]);
    if matched.Ok? {
      GreedyErrors(ctx, script, if matched.value then sigs[1..] else sigs, keys[1..]);
    }
  }

  lemma OperandErrors(flags: Flags, d: Items, numOps: nat)
    requires MultiSigOperands(flags, d, numOps).Err?
    ensures !Internal(MultiSigOperands(flags, d, numOps).error)
  {
    hide NumValue, Minimal;
  }

  lemma CheckMultiSigErrors(env: Env, vm: Vm)
    requires env.ctx.idx < |env.ctx.tx.txIn| && HasSubScript(vm) && CheckMultiSigOp(env, vm).Err?
    ensures !Internal(CheckMultiSigOp(env, vm).error)
  {
    hide MultiSig.Greedy, MultiSigOperands, SubScript;
    var args := MultiSigOperands(env.Flags(), vm.d, vm.numOps);
    if args.Err? {
      OperandErrors(env.Flags(), vm.d, vm.numOps);
    } else if MultiSig.Greedy(env.ctx, SubScript(vm), args.value.sigs, args.value.keys).Err? {
      GreedyErrors(env.ctx, SubScript(vm), args.value.sigs, args.value.keys);
    }
  }

  /** The signature CHECKSIG is about to index is empty. */
  predicate EmptySignature(d: Items, op: Byte) {
    (op == OP_CHECKSIG || op == 173) && |d| >= 2 && d[|d| - 2] == []
  }

  lemma SigOpErrors(env: Env, vm: Vm, op: Byte)
    requires OP_CHECKSIG <= op <= 175 && env.ctx.idx < |env.ctx.tx.txIn| && HasSubScript(vm)
    requires SigOp(env, vm, op).Err?
    ensures Internal(SigOp(env, vm, op).error) <==> EmptySignature(vm.d, op)
    ensures EmptySignature(vm.d, op) ==> SigOp(env, vm, op).error == RuntimePanic
  {
    hide CheckMultiSigOp, Context.Verifies, Truthy, Scripts.RemovedByData;
    if op >= OP_CHECKMULTISIG && CheckMultiSigOp(env, vm).Err? { CheckMultiSigErrors(env, vm); }
  }

  lemma ExecuteErrors(env: Env, vm: Vm, op: Byte, data: Octets)
    requires env.ctx.idx < |env.ctx.tx.txIn| && HasSubScript(vm)
    requires ExecuteOpcode(env, vm, op, data).Err?
    ensures var e := ExecuteOpcode(env, vm, op, data).error;
            && e != InvalidProgramCounter && e != ScriptUnfinished
            && (e == RuntimePanic <==> Executing(vm.cond) && |data| <= MAX_ELEMENT_SIZE && EmptySignature(vm.d, op))
  {
    hide StackOp, SigOp, PushedItem, Truthy, NumValue, Minimal, MinimalPush;
    if OP_CHECKSIG <= op <= 175 && SigOp(env, vm, op).Err? {
      SigOpErrors(env, vm, op);
    } else if StackOp(env, Stacks(vm.d, vm.a), op).Err? {
      StackOpErrors(env, Stacks(vm.d, vm.a), op);
    }
  }

  // ----- sizes and the code separator

  lemma StackOpSmall(env: Env, s: Stacks, op: Byte)
    requires env.ctx.c.Sound() && StackOp(env, s, op).Ok?
    requires Small(s.d) && Small(s.a) && |s.d| <= MAX_STACK_SIZE
    ensures Small(StackOp(env, s, op).value.d) && Small(StackOp(env, s, op).value.a)
  {
    hide Shuffle, Numeric, Truthy, NumBytes, NumValue, Minimal, IsNumeric;
    var minimal := env.Flags().minimalData;
    if 107 <= op <= 125 {
      ShuffleSmall(op, s, minimal);
    } else if op == 130 {
      PopSmall(s.d);
      PushedNumSize(|PopItem(s.d).value.0|);
    } else if op != 105 && op != OP_EQUAL && op != OP_EQUALVERIFY && IsNumeric(op) {
      NumericSmall(op, s.d, minimal);
    }
  }

  /** Keys, signatures and the dummy come off the top; the rest is untouched. */
  lemma OperandsPrefix(flags: Flags, d: Items, numOps: nat)
    requires MultiSigOperands(flags, d, numOps).Ok?
    ensures MultiSigOperands(flags, d, numOps).value.rest <= d
  {
    hide PopKeys, PopSigs;
    var (keys, d1) := PopKeys(flags, d, numOps).value;
    KeysPrefix(flags, d, numOps);
    SigsPrefix(flags, d1, |keys|);
  }

  lemma KeysPrefix(flags: Flags, d: Items, numOps: nat)
    requires PopKeys(flags, d, numOps).Ok?
    ensures PopKeys(flags, d, numOps).value.1 <= d
  {
    hide MakeNum;
  }

  lemma SigsPrefix(flags: Flags, d: Items, numKeys: nat)
    requires PopSigs(flags, d, numKeys).Ok?
    ensures PopSigs(flags, d, numKeys).value.1 <= d
  {
    hide MakeNum;
  }

  lemma CheckMultiSigSmall(env: Env, vm: Vm)
    requires env.ctx.idx < |env.ctx.tx.txIn| && HasSubScript(vm) && CheckMultiSigOp(env, vm).Ok? && Small(vm.d)
    ensures Small(CheckMultiSigOp(env, vm).value.0)
  {
    hide MultiSigOperands, MultiSigVerdict, Small;
    var args := MultiSigOperands(env.Flags(), vm.d, vm.numOps).value;
    OperandsPrefix(env.Flags(), vm.d, vm.numOps);
    SmallSub(vm.d, args.rest);
    SmallSnoc(args.rest, []);
    SmallSnoc(args.rest, [1]);
  }

  lemma SigOpSmall(env: Env, vm: Vm, op: Byte)
    requires OP_CHECKSIG <= op <= 175 && SigOp(env, vm, op).Ok? && Small(vm.d)
    ensures Small(SigOp(env, vm, op).value.d)
  {
    hide CheckMultiSigOp, CheckSig, Truthy;
    if op >= OP_CHECKMULTISIG { CheckMultiSigSmall(env, vm); }
  }

  lemma PushedItemSmall(op: Byte, data: Octets)
    requires IsPush(op) && |data| <= MAX_ELEMENT_SIZE
    ensures |PushedItem(op, data)| <= MAX_ELEMENT_SIZE
  {
    if op == 79 {
      PushedNumSize(-1);
    } else if op > 80 {
      PushedNumSize(op - 80);
    }
  }

  lemma ExecuteSmall(env: Env, vm: Vm, op: Byte, data: Octets)
    requires env.ctx.c.Sound() && ExecuteOpcode(env, vm, op, data).Ok?
    requires Small(vm.d) && Small(vm.a) && |vm.d| <= MAX_STACK_SIZE
    ensures var vm' := ExecuteOpcode(env, vm, op, data).value;
            && Small(vm'.d) && Small(vm'.a)
            && (vm'.lastCodeSep == vm.lastCodeSep || vm'.lastCodeSep == vm.offset)
  {
    hide StackOp, SigOp, PushedItem, Truthy, NumBytes, NumValue, Minimal, MinimalPush;
    if IsPush(op) {
      PushedItemSmall(op, data);
    } else if OP_CHECKSIG <= op <= 175 {
      if SigOp(env, vm, op).Ok? {
        SigOpSmall(env, vm, op);
        SigOpKeepsSeparator(env, vm, op);
      }
    } else if StackOp(env, Stacks(vm.d, vm.a), op).Ok? {
      StackOpSmall(env, Stacks(vm.d, vm.a), op);
    }
  }

  lemma SigOpKeepsSeparator(env: Env, vm: Vm, op: Byte)
    requires OP_CHECKSIG <= op <= 175 && SigOp(env, vm, op).Ok?
    ensures var vm' := SigOp(env, vm, op).value; vm'.lastCodeSep == vm.lastCodeSep && vm'.a == vm.a
  {
    hide CheckMultiSigOp, CheckSigOp;
  }

  // ----- the invariant

  /** Some token of a script that parses comes next, and the code separator marks a boundary too. */
  ghost predicate PositionOk(vm: Vm) {
    && vm.scriptIdx < |vm.scripts|
    && (forall s :: s in vm.scripts ==> Parses(s))
    && vm.offset < |vm.scripts[vm.scriptIdx]|
    && BoundaryAt(vm.scripts[vm.scriptIdx], vm.offset, vm.opcodeIdx)
    && Boundary(vm.scripts[vm.scriptIdx], vm.lastCodeSep)
  }

  /** Two scripts, and a third one while it runs. */
  predicate ShapeOk(env: Env, vm: Vm) {
    vm.scriptIdx < |vm.scripts| && |vm.scripts| == (if env.bip16 && vm.scriptIdx == 2 then 3 else 2)
  }

  ghost predicate BoundsOk(vm: Vm) {
    Small(vm.d) && Small(vm.a) && Small(vm.saved) && |vm.d| + |vm.a| <= MAX_STACK_SIZE && |vm.saved| <= MAX_STACK_SIZE
  }

  /** The condition stack mirrors the conditionals read so far. */
  ghost predicate NestingOk(vm: Vm) {
    && vm.scriptIdx < |vm.scripts|
    && vm.opcodeIdx <= |TokensOf(vm.scripts[vm.scriptIdx])|
    && CondOk(vm.cond)
    && Nesting(TokensOf(vm.scripts[vm.scriptIdx])[..vm.opcodeIdx]) == Some(|vm.cond|)
  }

  ghost predicate EnvOk(env: Env) { env.ctx.c.Sound() && env.ctx.idx < |env.ctx.tx.txIn| }

  ghost predicate Inv(env: Env, vm: Vm) {
    EnvOk(env) && ShapeOk(env, vm) && PositionOk(vm) && BoundsOk(vm) && NestingOk(vm)
  }

  /** The engine starts where the invariant holds. */
  lemma NewEngineOk(ctx: Context, scriptPubKey: Octets, lockOk: (Byte, int) -> bool)
    requires ctx.c.Sound() && NewEngine(ctx, scriptPubKey, lockOk).Ok?
    ensures var (env, vm) := NewEngine(ctx, scriptPubKey, lockOk).value; Inv(env, vm)
  {
    hide Parses, TokensOf, BoundaryAt, IsPushOnly;
    var (env, vm) := NewEngine(ctx, scriptPubKey, lockOk).value;
    StartBoundary(vm.scripts[vm.scriptIdx]);
    assert TokensOf(vm.scripts[vm.scriptIdx])[..0] == [];
    assert CondOk([]);
  }

  /** The token a step reads, and the state in which its handler starts. */
  function Current(vm: Vm): Token
    requires vm.scriptIdx < |vm.scripts| && vm.opcodeIdx < |TokensOf(vm.scripts[vm.scriptIdx])|
  {
    TokensOf(vm.scripts[vm.scriptIdx])[vm.opcodeIdx]
  }

  function Fetched(vm: Vm): Vm
    requires vm.scriptIdx < |vm.scripts| && vm.opcodeIdx < |TokensOf(vm.scripts[vm.scriptIdx])|
  {
    vm.(offset := vm.offset + |Raw(Current(vm))|)
  }

  /** A step always finds a token, and the code after the last separator parses. */
  lemma StepFindsToken(vm: Vm)
    requires PositionOk(vm)
    ensures vm.opcodeIdx < |TokensOf(vm.scripts[vm.scriptIdx])|
    ensures Head(vm.scripts[vm.scriptIdx][vm.offset..]) == Some(Current(vm))
    ensures BoundaryAt(vm.scripts[vm.scriptIdx], Fetched(vm).offset, vm.opcodeIdx + 1)
    ensures Fetched(vm).offset <= |vm.scripts[vm.scriptIdx]|
    ensures HasSubScript(vm) && Parses(SubScript(vm))
  {
    hide TokensOf, TailOf, BoundaryAt, Raw, Head;
    var script := vm.scripts[vm.scriptIdx];
    assert Parses(script);
    NextBoundary(script, vm.offset, vm.opcodeIdx);
    var k: nat :| BoundaryAt(script, vm.lastCodeSep, k);
    FromBoundary(script, vm.lastCodeSep, k);
  }

  /** The state after the handler of the current token, with its opcode counted. */
  function Counted(vm: Vm): Vm { vm.(opcodeIdx := vm.opcodeIdx + 1) }

  /** Step on a state in position, without the tests that cannot fail. */
  lemma StepUnfolds(env: Env, vm: Vm)
    requires PositionOk(vm)
    ensures vm.opcodeIdx < |TokensOf(vm.scripts[vm.scriptIdx])|
    ensures Step(env, vm) ==
            match ExecuteOpcode(env, Fetched(vm), Current(vm).op, Current(vm).data)
            case Err(e) => Err(e)
            case Ok(vm1) =>
              if |vm1.d| + |vm1.a| > MAX_STACK_SIZE then Err(StackOverflow)
              else if Counted(vm1).offset >= |vm.scripts[vm.scriptIdx]| then EndScript(env, Counted(vm1))
              else Ok((false, Counted(vm1)))
  {
    hide ExecuteOpcode, EndScript, Head, TokensOf, Raw, BoundaryAt, Parses, Boundary;
    StepFindsToken(vm);
  }

  /** What holds between the handler and the end-of-script test. */
  ghost predicate Handled(vm: Vm, vm2: Vm)
    requires vm.scriptIdx < |vm.scripts|
  {
    && vm2.scripts == vm.scripts && vm2.scriptIdx == vm.scriptIdx && vm2.saved == vm.saved
    && Small(vm2.d) && Small(vm2.a) && NestingOk(vm2)
    && BoundaryAt(vm.scripts[vm.scriptIdx], vm2.offset, vm2.opcodeIdx)
    && Boundary(vm.scripts[vm.scriptIdx], vm2.lastCodeSep)
  }

  lemma HandlerKeeps(env: Env, vm: Vm)
    requires Inv(env, vm)
    ensures vm.opcodeIdx < |TokensOf(vm.scripts[vm.scriptIdx])|
    ensures var r := ExecuteOpcode(env, Fetched(vm), Current(vm).op, Current(vm).data);
            r.Ok? ==> Handled(vm, Counted(r.value))
  {
    hide ExecuteOpcode, TokensOf, Raw, BoundaryAt, Parses, Small, CondOk, Nesting, NestAfter;
    StepFindsToken(vm);
    var t, at := Current(vm), Fetched(vm);
    var r := ExecuteOpcode(env, at, t.op, t.data);
    if r.Ok? {
      ExecuteKeepsPosition(env, at, t.op, t.data);
      ExecuteSmall(env, at, t.op, t.data);
      ExecuteNests(env, at, t.op, t.data);
      NestingSnoc(TokensOf(vm.scripts[vm.scriptIdx]), vm.opcodeIdx);
    }
  }

  /** The next script starts in position, and all the rest is kept. */
  lemma EndScriptKeeps(env: Env, vm: Vm)
    requires EnvOk(env) && ShapeOk(env, vm) && (forall s :: s in vm.scripts ==> Parses(s))
    requires BoundsOk(vm) && EndScript(env, vm).Ok?
    ensures var (done, vm') := EndScript(env, vm).value;
            BoundsOk(vm') && if done then vm'.scriptIdx >= |vm'.scripts| else Inv(env, vm')
  {
    hide TokensOf, TailOf, BoundaryAt, Truthy, Small;
    var (done, vm') := EndScript(env, vm).value;
    if vm.scriptIdx == 1 && env.bip16 {
      var n := |vm.saved| - 1;
      SmallSub(vm.saved, vm.saved[..n]);
      SmallSub([], []);
      assert forall s :: s in vm'.scripts ==> s in vm.scripts || s == vm.saved[n];
    } else {
      assert vm'.scripts == vm.scripts;
      SmallEmpty();
    }
    if !done {
      StartBoundary(vm'.scripts[vm'.scriptIdx]);
      assert TokensOf(vm'.scripts[vm'.scriptIdx])[..0] == [];
      assert CondOk([]) && vm'.cond == [];
    }
  }

  lemma SmallEmpty()
    ensures Small([])
  {
  }

  /**
   * Every step keeps the invariant. It never meets an invalid program counter or a script it
   * reports unfinished.
   */
  lemma StepKeepsInv(env: Env, vm: Vm)
    requires Inv(env, vm)
    ensures match Step(env, vm)
            case Err(e) => e != InvalidProgramCounter && e != ScriptUnfinished
            case Ok((done, vm')) => BoundsOk(vm') && if done then vm'.scriptIdx >= |vm'.scripts| else Inv(env, vm')
  {
    hide ExecuteOpcode, EndScript, TokensOf, Raw, BoundaryAt, Parses, Small, NestingOk, Step, CondOk;
    StepUnfolds(env, vm);
    StepFindsToken(vm);
    HandlerKeeps(env, vm);
    var t, at := Current(vm), Fetched(vm);
    var r := ExecuteOpcode(env, at, t.op, t.data);
    if r.Err? {
      ExecuteErrors(env, at, t.op, t.data);
    } else if |r.value.d| + |r.value.a| <= MAX_STACK_SIZE && Counted(r.value).offset >= |vm.scripts[vm.scriptIdx]| {
      var vm2 := Counted(r.value);
      if EndScript(env, vm2).Ok? { EndScriptKeeps(env, vm2); } else { EndScriptErrors(env, vm2); }
    }
  }

  lemma EndScriptErrors(env: Env, vm: Vm)
    requires EndScript(env, vm).Err? && ShapeOk(env, vm)
    ensures EndScript(env, vm).error != InvalidProgramCounter && EndScript(env, vm).error != ScriptUnfinished
  {
    hide Truthy, Parses;
  }
}
