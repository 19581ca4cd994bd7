/** CHECKMULTISIG on the stack, written out operand by operand. */
module MultiSigLaws {
  import opened Bytes
  import opened ScriptErrors
  import opened Stack
  import opened ScriptNum
  import opened Opcodes
  import opened SigCheck
  import opened Engine
  import opened OpcodeLaws
  import opened MultiSigSpend
  import MultiSig

  /** A dummy, the signatures and their number, the keys and theirs. */
  function Operands(d: Items, dummy: Octets, sigs: Items, ns: Octets, keys: Items, nk: Octets): Items {
    ((((d + [dummy]) + sigs) + [ns]) + keys) + [nk]
  }

  lemma KeysPopped(env: Env, d: Items, keys: Items, nk: Octets, numOps: nat)
    requires Denotes(env, nk, |keys|)
    ensures PopKeys(env.Flags(), (d + keys) + [nk], numOps) ==
            if |keys| > 20 then Err(InvalidPubKeyCount)
            else if numOps + |keys| > 201 then Err(TooManyOperations)
            else Ok((Rev(keys), d))
  {
    hide PopNum, PopMany, Rev, Denotes;
    PopOperand(env, d + keys, nk, |keys|);
    PopManyOf(d, keys);
  }

  lemma SigsPopped(env: Env, d: Items, dummy: Octets, sigs: Items, ns: Octets, numKeys: nat)
    requires Denotes(env, ns, |sigs|)
    ensures PopSigs(env.Flags(), ((d + [dummy]) + sigs) + [ns], numKeys) ==
            if |sigs| > numKeys then Err(InvalidSignatureCount)
            else if env.Flags().strictMultiSig && dummy != [] then Err(SigNullDummy)
            else Ok((Rev(sigs), d))
  {
    hide PopNum, PopMany, Rev, Denotes;
    PopOperand(env, (d + [dummy]) + sigs, ns, |sigs|);
    PopManyOf(d + [dummy], sigs);
    assert (d + [dummy])[..|d|] == d;
  }

  /**
   * At most 20 keys, 201 operations, no more signatures than keys, an empty dummy if asked for. Then, unless
   * some pair breaks an encoding rule, the answer is whether the signatures can be assigned to keys in order.
   */
  lemma MultiSigOpcode(env: Env, vm: Vm, d: Items, dummy: Octets, sigs: Items, ns: Octets, keys: Items, nk: Octets)
    requires Executing(vm.cond) && env.ctx.idx < |env.ctx.tx.txIn| && HasSubScript(vm)
    requires Denotes(env, nk, |keys|) && Denotes(env, ns, |sigs|) && vm.d == Operands(d, dummy, sigs, ns, keys, nk)
    ensures var r, f := ExecuteOpcode(env, vm, 174, []), env.Flags();
            var g := MultiSig.Greedy(env.ctx, SubScript(vm), Rev(sigs), Rev(keys));
            if |keys| > 20 then r == Err(InvalidPubKeyCount)
            else if vm.numOps + |keys| > 201 then r == Err(TooManyOperations)
            else if |sigs| > |keys| then r == Err(InvalidSignatureCount)
            else if f.strictMultiSig && dummy != [] then r == Err(SigNullDummy)
            else if g.Err? then r == Err(g.error)
            else if MultiSig.Assignable(env.ctx, SubScript(vm), sigs, keys) then
              r == Ok(vm.(d := d + [[1]], numOps := vm.numOps + |keys|))
            else if f.nullFail && exists s :: s in sigs && s != [] then r == Err(NullFail)
            else r == Ok(vm.(d := d + [[]], numOps := vm.numOps + |keys|))
  {
    hide ExecuteOpcode, MultiSigOperands, MultiSigVerdict, SubScript, Rev, Operands, Denotes, MultiSig.Greedy,
         MultiSig.Assignable, HasSubScript, Executing;
    var n := vm.numOps;
    OnMultiSig(env, vm);
    OperandsAre(env, d, dummy, sigs, ns, keys, nk, n);
    if |sigs| <= |keys| <= 20 && n + |keys| <= 201 && !(env.Flags().strictMultiSig && dummy != []) {
      VerdictIs(env.ctx, SubScript(vm), MultiSigArgs(Rev(keys), Rev(sigs), d, n + |keys|), sigs, keys);
    }
  }

  lemma OnMultiSig(env: Env, vm: Vm)
    requires Executing(vm.cond) && env.ctx.idx < |env.ctx.tx.txIn| && HasSubScript(vm)
    ensures var r, args := ExecuteOpcode(env, vm, 174, []), MultiSigOperands(env.Flags(), vm.d, vm.numOps);
            if args.Err? then r == Err(args.error)
            else
              var v := MultiSigVerdict(env.ctx, SubScript(vm), args.value);
              if v.Err? then r == Err(v.error)
              else r == Ok(vm.(d := args.value.rest + [if v.value then [1] else []], numOps := args.value.numOps))
  {
    hide MultiSigOperands, MultiSigVerdict, SubScript, MinimalPush;
  }

  lemma OperandsAre(env: Env, d: Items, dummy: Octets, sigs: Items, ns: Octets, keys: Items, nk: Octets, numOps: nat)
    requires Denotes(env, nk, |keys|) && Denotes(env, ns, |sigs|)
    ensures MultiSigOperands(env.Flags(), Operands(d, dummy, sigs, ns, keys, nk), numOps) ==
            if |keys| > 20 then Err(InvalidPubKeyCount)
            else if numOps + |keys| > 201 then Err(TooManyOperations)
            else if |sigs| > |keys| then Err(InvalidSignatureCount)
            else if env.Flags().strictMultiSig && dummy != [] then Err(SigNullDummy)
            else Ok(MultiSigArgs(Rev(keys), Rev(sigs), d, numOps + |keys|))
  {
    hide PopKeys, PopSigs, Rev, Denotes;
    KeysPopped(env, ((d + [dummy]) + sigs) + [ns], keys, nk, numOps);
    SigsPopped(env, d, dummy, sigs, ns, |keys|);
    RevSize(keys);
  }

  lemma VerdictIs(ctx: Context, script: Octets, args: MultiSigArgs, sigs: Items, keys: Items)
    requires ctx.idx < |ctx.tx.txIn| && args.sigs == Rev(sigs) && args.keys == Rev(keys)
    ensures var g, v := MultiSig.Greedy(ctx, script, Rev(sigs), Rev(keys)), MultiSigVerdict(ctx, script, args);
            if g.Err? then v == Err(g.error)
            else if MultiSig.Assignable(ctx, script, sigs, keys) then v == Ok(true)
            else if ctx.flags.nullFail && exists s :: s in sigs && s != [] then v == Err(NullFail)
            else v == Ok(false)
  {
    hide MultiSig.Greedy, MultiSig.Assignable, Rev;
    RevSame(sigs);
    AssignableReversedIff(ctx, script, sigs, keys);
    if MultiSig.Greedy(ctx, script, Rev(sigs), Rev(keys)).Ok? {
      MultiSig.GreedyIsComplete(ctx, script, Rev(sigs), Rev(keys));
    }
  }

  lemma RevSame(s: Items)
    ensures forall x :: x in Rev(s) <==> x in s
  {
    forall x | x in s ensures x in Rev(s) {
      var i :| 0 <= i < |s| && s[i] == x;
      assert Rev(s)[|s| - 1 - i] == x;
    }
  }
}
