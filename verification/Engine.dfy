/** The script engine (engine.go) and the opcode dispatch: one state, one step, whole runs. */
module Engine {
  import opened Bytes
  import opened ScriptErrors
  import opened Tokens
  import opened Stack
  import opened ScriptNum
  import opened Opcodes
  import opened SigCheck
  import Scripts
  import MultiSig

  const MAX_STACK_SIZE: nat := 1000
  const MAX_SCRIPT_SIZE: nat := 10000
  const MAX_PUB_KEYS: nat := 20
  const MAX_OPS: nat := 201

  const OP_IF: Byte := 99
  const OP_NOTIF: Byte := 100
  const OP_ELSE: Byte := 103
  const OP_ENDIF: Byte := 104
  const OP_DUP: Byte := 118
  const OP_EQUAL: Byte := 135
  const OP_EQUALVERIFY: Byte := 136
  const OP_HASH160: Byte := 169
  const OP_CHECKSIG: Byte := 172
  const OP_CHECKMULTISIG: Byte := 174

  datatype Cond = CondFalse | CondTrue | CondSkip

  /**
   * The fields set when the engine is created. lockOk decides the lock time comparisons of
   * CHECKLOCKTIMEVERIFY and CHECKSEQUENCEVERIFY for an opcode and its operand.
   */
  datatype Env = Env(ctx: Context, bip16: bool, lockOk: (Byte, int) -> bool) {
    function Flags(): Flags { ctx.flags }
  }

  /** The fields that change during execution; offset and opcodeIdx are the tokenizer's position. */
  datatype Vm = Vm(
    scripts: seq<Octets>, scriptIdx: nat, offset: nat, opcodeIdx: nat, lastCodeSep: nat,
    saved: Items, d: Items, a: Items, cond: seq<Cond>, numOps: nat)

  // ----- conditionals

  /** isBranchExecuting. */
  predicate Executing(cond: seq<Cond>) { cond == [] || cond[|cond| - 1] == CondTrue }

  predicate IsConditional(op: Byte) { op == OP_IF || op == OP_NOTIF || op == OP_ELSE || op == OP_ENDIF }

  /** popIfBool. */
  function PopIfBool(flags: Flags, d: Items): Result<(bool, Items)> {
    var (x, rest) :- PopItem(d);
    if flags.minimalIf && (|x| > 1 || (|x| == 1 && x[0] != 1)) then Err(MinimalIf)
    else Ok((Truthy(x), rest))
  }

  function Toggled(c: Cond): Cond {
    match c
    case CondTrue => CondFalse
    case CondFalse => CondTrue
    case CondSkip => CondSkip
  }

  /** opcodeIf, opcodeNotIf, opcodeElse, opcodeEndif. */
  function Conditional(env: Env, vm: Vm, op: Byte): Result<Vm>
    requires IsConditional(op)
  {
    var n := |vm.cond|;
    if op == OP_IF || op == OP_NOTIF then
      if Executing(vm.cond) then
        var (b, rest) :- PopIfBool(env.Flags(), vm.d);
        Ok(vm.(d := rest, cond := vm.cond + [if b == (op == OP_IF) then CondTrue else CondFalse]))
      else Ok(vm.(cond := vm.cond + [CondSkip]))
    else if n == 0 then Err(UnbalancedConditional)
    else if op == OP_ELSE then Ok(vm.(cond := vm.cond[n - 1 := Toggled(vm.cond[n - 1])]))
    else Ok(vm.(cond := vm.cond[..n - 1]))
  }

  // ----- signatures

  /** subScript: defined while lastCodeSep lies within the current script. */
  predicate HasSubScript(vm: Vm) { vm.scriptIdx < |vm.scripts| && vm.lastCodeSep <= |vm.scripts[vm.scriptIdx]| }

  function SubScript(vm: Vm): Octets
    requires HasSubScript(vm)
  {
    vm.scripts[vm.scriptIdx][vm.lastCodeSep..]
  }

  function CheckSigOp(env: Env, vm: Vm): Result<Items>
    requires env.ctx.idx < |env.ctx.tx.txIn| && HasSubScript(vm)
  {
    var (key, d1) :- PopItem(vm.d);
    var (full, d2) :- PopItem(d1);
    if full == [] then Err(RuntimePanic)
    else
      var valid :- CheckSig(env.ctx, SubScript(vm), full, key);
      Ok(d2 + [FromBool(valid)])
  }

  /** The top n items in the order they are popped, and what is below. */
  function PopMany(d: Items, n: nat): Result<(Items, Items)> {
    if n > |d| then Err(InvalidStackOperation)
    else Ok((seq(n, i requires 0 <= i < n => d[|d| - 1 - i]), d[..|d| - n]))
  }

  /** What CHECKMULTISIG takes off the stack, and the operation count with the keys added. */
  datatype MultiSigArgs = MultiSigArgs(keys: Items, sigs: Items, rest: Items, numOps: nat)

  function PopKeys(flags: Flags, d: Items, numOps: nat): Result<(Items, Items)> {
    var (numKeys, d1) :- PopNum(d, flags.minimalData);
    if numKeys < 0 || numKeys > MAX_PUB_KEYS then Err(InvalidPubKeyCount)
    else if numOps + numKeys > MAX_OPS then Err(TooManyOperations)
    else PopMany(d1, numKeys)
  }

  /** The signatures, then the extra item the original client's off-by-one consumes. */
  function PopSigs(flags: Flags, d: Items, numKeys: nat): Result<(Items, Items)> {
    var (numSigs, d1) :- PopNum(d, flags.minimalData);
    if numSigs < 0 || numSigs > numKeys then Err(InvalidSignatureCount)
    else
      var (sigs, d2) :- PopMany(d1, numSigs);
      var (dummy, d3) :- PopItem(d2);
      if flags.strictMultiSig && dummy != [] then Err(SigNullDummy)
      else Ok((sigs, d3))
  }

  function MultiSigOperands(flags: Flags, d: Items, numOps: nat): Result<MultiSigArgs> {
    var (keys, d1) :- PopKeys(flags, d, numOps);
    var (sigs, d2) :- PopSigs(flags, d1, |keys|);
    Ok(MultiSigArgs(keys, sigs, d2, numOps + |keys|))
  }

  /** The pushed boolean, or the error of a failed match with signatures left over. */
  function MultiSigVerdict(ctx: Context, script: Octets, args: MultiSigArgs): Result<bool>
    requires ctx.idx < |ctx.tx.txIn|
  {
    var success :- MultiSig.Greedy(ctx, script, args.sigs, args.keys);
    if !success && ctx.flags.nullFail && (exists s :: s in args.sigs && s != []) then Err(NullFail)
    else Ok(success)
  }

  function CheckMultiSigOp(env: Env, vm: Vm): Result<(Items, nat)>
    requires env.ctx.idx < |env.ctx.tx.txIn| && HasSubScript(vm)
  {
    var args :- MultiSigOperands(env.Flags(), vm.d, vm.numOps);
    var success :- MultiSigVerdict(env.ctx, SubScript(vm), args);
    Ok((args.rest + [FromBool(success)], args.numOps))
  }

  function SigOp(env: Env, vm: Vm, op: Byte): Result<Vm>
    requires OP_CHECKSIG <= op <= 175
  {
    if env.ctx.idx >= |env.ctx.tx.txIn| || !HasSubScript(vm) then Err(RuntimePanic)
    else if op == OP_CHECKSIG then
      var d :- CheckSigOp(env, vm);
      Ok(vm.(d := d))
    else if op == 173 then
      var d :- CheckSigOp(env, vm);
      var d' :- VerifyTop(d);
      Ok(vm.(d := d'))
    else
      var (d, n) :- CheckMultiSigOp(env, vm);
      if op == OP_CHECKMULTISIG then Ok(vm.(d := d, numOps := n))
      else
        var d' :- VerifyTop(d);
        Ok(vm.(d := d', numOps := n))
  }

  // ----- dispatch

  predicate IsDisabled(op: Byte) {
    126 <= op <= 129 || 131 <= op <= 134 || op == 141 || op == 142 || 149 <= op <= 153
  }

  predicate IsAlwaysIllegal(op: Byte) { op == 101 || op == 102 }

  predicate IsUpgradableNop(op: Byte) { op == 176 || 179 <= op <= 185 }

  /** checkMinimalDataPush. */
  predicate MinimalPush(op: Byte, data: Octets) {
    var n := |data|;
    if n == 0 then op == 0
    else if n == 1 && 1 <= data[0] <= 16 then op == 80 + data[0]
    else if n == 1 && data[0] == 0x81 then op == 79
    else if n <= 75 then op == n
    else if n <= 255 then op == OP_PUSHDATA1
    else if n <= 65535 then op == OP_PUSHDATA2
    else true
  }

  /** OP_CHECKLOCKTIMEVERIFY and OP_CHECKSEQUENCEVERIFY. */
  function LockTimeOp(env: Env, vm: Vm, op: Byte): Result<Vm> {
    var flags := env.Flags();
    var enabled := if op == 177 then flags.checkLockTimeVerify else flags.checkSequenceVerify;
    if !enabled then
      if flags.discourageUpgradableNops then Err(DiscourageUpgradableNops) else Ok(vm)
    else
      var (item, _) :- PopItem(vm.d);
      var n :- MakeNum(item, flags.minimalData, 5);
      if n < 0 || !env.lockOk(op, n) then Err(LockTimeFailed) else Ok(vm)
  }

  /** The stack effect of the opcodes that touch nothing else. */
  function StackOp(env: Env, s: Stacks, op: Byte): Result<Stacks> {
    var minimal := env.Flags().minimalData;
    if op == 105 then
      var d :- VerifyTop(s.d);
      Ok(s.(d := d))
    else if 107 <= op <= 125 then Shuffle(op, s, minimal)
    else if op == 130 then
      var (x, _) :- PopItem(s.d);
      Ok(s.(d := PushNum(s.d, |x|)))
    else if op == OP_EQUAL then
      var d :- Equal(s.d);
      Ok(s.(d := d))
    else if op == OP_EQUALVERIFY then
      var d :- Equal(s.d);
      var d' :- VerifyTop(d);
      Ok(s.(d := d'))
    else if IsNumeric(op) then
      var d :- Numeric(op, s.d, minimal);
      Ok(s.(d := d))
    else if IsHash(op) then
      var (x, rest) :- PopItem(s.d);
      Ok(s.(d := rest + [Digest(env.ctx.c, op, x)]))
    else Err(ReservedOpcode)
  }

  function Handler(env: Env, vm: Vm, op: Byte, data: Octets): Result<Vm> {
    if IsPush(op) then Ok(vm.(d := vm.d + [PushedItem(op, data)]))
    else if IsConditional(op) then Conditional(env, vm, op)
    else if op == Scripts.OP_CODESEPARATOR then Ok(vm.(lastCodeSep := vm.offset))
    else if OP_CHECKSIG <= op <= 175 then SigOp(env, vm, op)
    else if op == 97 then Ok(vm)
    else if IsUpgradableNop(op) then
      if env.Flags().discourageUpgradableNops then Err(DiscourageUpgradableNops) else Ok(vm)
    else if op == 177 || op == 178 then LockTimeOp(env, vm, op)
    else if op == 106 then Err(EarlyReturn)
    else
      var s :- StackOp(env, Stacks(vm.d, vm.a), op);
      Ok(vm.(d := s.d, a := s.a))
  }

  /** executeOpcode. */
  function ExecuteOpcode(env: Env, vm: Vm, op: Byte, data: Octets): Result<Vm> {
    if IsDisabled(op) then Err(DisabledOpcode)
    else if IsAlwaysIllegal(op) then Err(ReservedOpcode)
    else if |data| > MAX_ELEMENT_SIZE then Err(ElementTooBig)
    else if !Executing(vm.cond) && !IsConditional(op) then Ok(vm)
    else if env.Flags().minimalData && Executing(vm.cond) && op <= OP_PUSHDATA4 && !MinimalPush(op, data) then
      Err(MinimalData)
    else Handler(env, vm, op, data)
  }

  // ----- the program counter

  /** CheckErrorCondition; on success the examined boolean is gone. */
  function CheckErrorCondition(env: Env, vm: Vm, finalScript: bool): Result<Vm> {
    if vm.scriptIdx < |vm.scripts| then Err(ScriptUnfinished)
    else if finalScript && env.Flags().cleanStack && |vm.d| != 1 then Err(CleanStack)
    else if |vm.d| < 1 then Err(EmptyStack)
    else if !Truthy(vm.d[|vm.d| - 1]) then Err(EvalFalse)
    else Ok(vm.(d := vm.d[..|vm.d| - 1]))
  }

  /** The switch in Step that advances to the next script. */
  function Advance(env: Env, vm: Vm): Result<Vm> {
    if vm.scriptIdx == 0 && env.bip16 then Ok(vm.(scriptIdx := 1, saved := vm.d))
    else if vm.scriptIdx == 1 && env.bip16 then
      var vm' :- CheckErrorCondition(env, vm.(scriptIdx := 2), false);
      if vm.saved == [] then Err(RuntimePanic)
      else
        var n := |vm.saved| - 1;
        if !Parses(vm.saved[n]) then Err(MalformedPush)
        else Ok(vm'.(scripts := vm.scripts + [vm.saved[n]], d := vm.saved[..n]))
    else Ok(vm.(scriptIdx := vm.scriptIdx + 1))
  }

  /** Skip an empty script, forget the code separator, start the tokenizer over. */
  function Enter(vm: Vm): (bool, Vm) {
    var i := if vm.scriptIdx < |vm.scripts| && vm.scripts[vm.scriptIdx] == [] then vm.scriptIdx + 1 else vm.scriptIdx;
    var vm' := vm.(scriptIdx := i, lastCodeSep := 0);
    if i >= |vm.scripts| then (true, vm') else (false, vm'.(offset := 0))
  }

  /** What Step does when the current script has ended. */
  function EndScript(env: Env, vm: Vm): Result<(bool, Vm)> {
    if vm.cond != [] then Err(UnbalancedConditional)
    else
      var vm' :- Advance(env, vm.(a := [], numOps := 0, opcodeIdx := 0));
      Ok(Enter(vm'))
  }

  /** Step: true when the last opcode of the last script was executed. */
  function Step(env: Env, vm: Vm): Result<(bool, Vm)> {
    if vm.scriptIdx >= |vm.scripts| || vm.offset >= |vm.scripts[vm.scriptIdx]| then Err(InvalidProgramCounter)
    else
      var script := vm.scripts[vm.scriptIdx];
      match Head(script[vm.offset..])
      case None => Err(MalformedPush)
      case Some(t) =>
        var vm1 :- ExecuteOpcode(env, vm.(offset := vm.offset + |Raw(t)|), t.op, t.data);
        if |vm1.d| + |vm1.a| > MAX_STACK_SIZE then Err(StackOverflow)
        else
          var vm2 := vm1.(opcodeIdx := vm1.opcodeIdx + 1);
          if vm2.offset >= |script| then EndScript(env, vm2) else Ok((false, vm2))
  }

  // ----- runs

  /** Scripts left to run, counting the redeem script that may still be appended. */
  function ScriptsLeft(env: Env, vm: Vm): nat {
    var total := |vm.scripts| + (if env.bip16 && vm.scriptIdx <= 1 then 1 else 0);
    if vm.scriptIdx <= total then total - vm.scriptIdx else 0
  }

  function BytesLeft(vm: Vm): nat {
    if vm.scriptIdx < |vm.scripts| && vm.offset <= |vm.scripts[vm.scriptIdx]|
    then |vm.scripts[vm.scriptIdx]| - vm.offset else 0
  }

  /** Handlers never move the program counter. */
  predicate SamePosition(x: Vm, y: Vm) {
    && x.scripts == y.scripts && x.scriptIdx == y.scriptIdx && x.offset == y.offset
    && x.opcodeIdx == y.opcodeIdx && x.saved == y.saved
  }

  lemma ExecuteKeepsPosition(env: Env, vm: Vm, op: Byte, data: Octets)
    requires ExecuteOpcode(env, vm, op, data).Ok?
    ensures SamePosition(ExecuteOpcode(env, vm, op, data).value, vm)
  {
    hide StackOp, CheckSigOp, CheckMultiSigOp, PushedItem;
  }

  /** Advancing leaves fewer scripts to run. */
  lemma EndScriptDecreases(env: Env, vm: Vm)
    requires vm.scriptIdx < |vm.scripts| && EndScript(env, vm).Ok?
    ensures var (done, vm') := EndScript(env, vm).value;
            !done ==> ScriptsLeft(env, vm') < ScriptsLeft(env, vm)
  {
    hide Parses, Truthy;
  }

  /** A step that does not end the run uses up bytes of the script or one script. */
  lemma StepDecreases(env: Env, vm: Vm)
    requires Step(env, vm).Ok? && !Step(env, vm).value.0
    ensures var vm' := Step(env, vm).value.1;
            ScriptsLeft(env, vm') < ScriptsLeft(env, vm)
            || (ScriptsLeft(env, vm') == ScriptsLeft(env, vm) && BytesLeft(vm') < BytesLeft(vm))
  {
    hide ExecuteOpcode, Head, Raw, EndScript;
    var script := vm.scripts[vm.scriptIdx];
    var t := Head(script[vm.offset..]).value;
    var at := vm.(offset := vm.offset + |Raw(t)|);
    ExecuteKeepsPosition(env, at, t.op, t.data);
    var vm1 := ExecuteOpcode(env, at, t.op, t.data).value;
    var vm2 := vm1.(opcodeIdx := vm1.opcodeIdx + 1);
    if vm2.offset >= |script| { EndScriptDecreases(env, vm2); }
  }

  /** Execute: steps until done, then the final check. */
  function Execute(env: Env, vm: Vm): Result<Vm>
    decreases ScriptsLeft(env, vm), BytesLeft(vm)
  {
    match Step(env, vm)
    case Err(e) => Err(e)
    case Ok((done, vm')) =>
      if done then CheckErrorCondition(env, vm', true)
      else
        StepDecreases(env, vm);
        Execute(env, vm')
  }

  // ----- creation

  /** isScriptHashScript: OP_HASH160, a push of 20 bytes, OP_EQUAL. */
  predicate IsScriptHash(s: Octets) { |s| == 23 && s[0] == OP_HASH160 && s[1] == 20 && s[22] == OP_EQUAL }

  predicate IsPushOnly(s: Octets) { Parses(s) && Scripts.AllPushes(TokensOf(s)) }

  /** The checks NewEngine makes on each script. */
  function ScriptFault(s: Octets): Option<ScriptError> {
    if |s| > MAX_SCRIPT_SIZE then Some(ScriptTooBig) else if !Parses(s) then Some(MalformedPush) else None
  }

  /** NewEngine: the engine's fixed fields and its initial state, or the reason to refuse. */
  function NewEngine(ctx: Context, scriptPubKey: Octets, lockOk: (Byte, int) -> bool): Result<(Env, Vm)> {
    if ctx.idx >= |ctx.tx.txIn| then Err(InvalidIndex)
    else
      var scriptSig := ctx.tx.txIn[ctx.idx].sigScript;
      var bip16 := ctx.flags.bip16 && IsScriptHash(scriptPubKey);
      if scriptSig == [] && scriptPubKey == [] then Err(EvalFalse)
      else if (ctx.flags.sigPushOnly || bip16) && !IsPushOnly(scriptSig) then Err(NotPushOnly)
      else if ScriptFault(scriptSig).Some? then Err(ScriptFault(scriptSig).value)
      else if ScriptFault(scriptPubKey).Some? then Err(ScriptFault(scriptPubKey).value)
      else
        Ok((Env(ctx, bip16, lockOk),
            Vm([scriptSig, scriptPubKey], if scriptSig == [] then 1 else 0, 0, 0, 0, [], [], [], [], 0)))
  }
}
