/** What each opcode does to the stack, written out item by item as the script language documents it. */
module OpcodeLaws {
  import opened Bytes
  import opened ScriptErrors
  import opened Tokens
  import opened Stack
  import opened ScriptNum
  import opened Opcodes
  import opened SigCheck
  import opened Engine
  import opened EngineSafety
  import opened EngineMeaning
  import Scripts

  /** The opcode turns one data stack into another and touches nothing else. */
  predicate Turns(env: Env, vm: Vm, op: Byte, d: Items, d': Items) {
    ExecuteOpcode(env, vm.(d := d), op, []) == Ok(vm.(d := d'))
  }

  predicate Fails(env: Env, vm: Vm, op: Byte, d: Items, e: ScriptError) {
    ExecuteOpcode(env, vm.(d := d), op, []) == Err(e)
  }

  /** Opcodes that only see the two stacks. */
  lemma OnStacks(env: Env, vm: Vm, op: Byte)
    requires Executing(vm.cond)
    requires op == 105 || 107 <= op <= 125 || op == 130 || op == 135 || op == 136 || IsNumeric(op) || IsHash(op)
    ensures var r := StackOp(env, Stacks(vm.d, vm.a), op);
            ExecuteOpcode(env, vm, op, []) == if r.Err? then Err(r.error) else Ok(vm.(d := r.value.d, a := r.value.a))
  {
    hide StackOp;
  }

  // ----- rearranging

  /** How many items an opcode needs on the stack. */
  function Needs(op: Byte): nat
    requires 109 <= op <= 125 && op != 121 && op != 122
  {
    if op == 116 then 0
    else if op == 115 || op == 117 || op == 118 then 1
    else if op == 111 || op == 123 then 3
    else if op == 112 || op == 114 then 4
    else if op == 113 then 6
    else 2
  }

  lemma OnData(env: Env, vm: Vm, op: Byte, d: Items)
    requires Executing(vm.cond) && 109 <= op <= 125
    ensures var r := ShuffleData(op, d, env.Flags().minimalData);
            ExecuteOpcode(env, vm.(d := d), op, []) == if r.Err? then Err(r.error) else Ok(vm.(d := r.value))
  {
    hide ShuffleData, ExecuteOpcode;
    OnStacks(env, vm.(d := d), op);
  }

  /** With too few items an opcode fails. */
  lemma Underflow(env: Env, vm: Vm, op: Byte, d: Items)
    requires Executing(vm.cond) && 109 <= op <= 125 && op != 121 && op != 122 && |d| < Needs(op)
    ensures Fails(env, vm, op, d, InvalidStackOperation)
  {
    hide ExecuteOpcode, Copied, Rotated, Without, Truthy;
    OnData(env, vm, op, d);
  }

  lemma Blocks(d: Items, e: Items, f: Items)
    ensures Copied(d + (e + f), |e + f|, |e|) == d + (e + f + e)
    ensures Rotated(d + (e + f), |e + f|, |e|) == d + (f + e)
  {
    var s := d + (e + f);
    assert s[|d|..|d| + |e|] == e;
    assert s[..|d|] == d && s[|d| + |e|..] == f;
  }

  lemma CopiesData(op: Byte, s: Items, m: nat, k: nat, minimal: bool)
    requires (op, m, k) in {(110, 2, 2), (111, 3, 3), (112, 4, 2), (118, 1, 1), (120, 2, 1)} && m <= |s|
    ensures ShuffleData(op, s, minimal) == Ok(Copied(s, m, k))
  {
    hide Copied, Rotated, Without, PopNum, Truthy, PushNum;
  }

  lemma RotatesData(op: Byte, s: Items, m: nat, k: nat, minimal: bool)
    requires (op, m, k) in {(113, 6, 2), (114, 4, 2), (123, 3, 1), (124, 2, 1)} && m <= |s|
    ensures ShuffleData(op, s, minimal) == Ok(Rotated(s, m, k))
  {
    hide Copied, Rotated, Without, PopNum, Truthy, PushNum;
  }

  /** 2DUP, 3DUP, 2OVER, DUP and OVER copy a block to the top. */
  lemma ByCopying(env: Env, vm: Vm, op: Byte, d: Items, e: Items, f: Items)
    requires Executing(vm.cond)
    requires || (op == 110 && |e| == 2 && |f| == 0) || (op == 111 && |e| == 3 && |f| == 0)
             || (op == 112 && |e| == 2 && |f| == 2) || (op == 118 && |e| == 1 && |f| == 0)
             || (op == 120 && |e| == 1 && |f| == 1)
    ensures Turns(env, vm, op, d + (e + f), d + (e + f + e))
  {
    hide ExecuteOpcode, Copied, ShuffleData, Executing;
    OnData(env, vm, op, d + (e + f));
    CopiesData(op, d + (e + f), |e + f|, |e|, env.Flags().minimalData);
    Blocks(d, e, f);
  }

  /** 2ROT, 2SWAP, ROT and SWAP move a block to the top. */
  lemma ByRotating(env: Env, vm: Vm, op: Byte, d: Items, e: Items, f: Items)
    requires Executing(vm.cond)
    requires || (op == 113 && |e| == 2 && |f| == 4) || (op == 114 && |e| == 2 && |f| == 2)
             || (op == 123 && |e| == 1 && |f| == 2) || (op == 124 && |e| == 1 && |f| == 1)
    ensures Turns(env, vm, op, d + (e + f), d + (f + e))
  {
    hide ExecuteOpcode, Rotated, ShuffleData, Executing;
    OnData(env, vm, op, d + (e + f));
    RotatesData(op, d + (e + f), |e + f|, |e|, env.Flags().minimalData);
    Blocks(d, e, f);
  }

  /** 2DROP, 2DUP, 3DUP, 2OVER, 2ROT and 2SWAP. */
  lemma PairOpcodes(env: Env, vm: Vm, d: Items, a: Octets, b: Octets, c: Octets, x: Octets, y: Octets, z: Octets)
    requires Executing(vm.cond)
    ensures Turns(env, vm, 109, d + [a, b], d)
    ensures Turns(env, vm, 110, d + [a, b], d + [a, b, a, b])
    ensures Turns(env, vm, 111, d + [a, b, c], d + [a, b, c, a, b, c])
    ensures Turns(env, vm, 112, d + [a, b, x, y], d + [a, b, x, y, a, b])
    ensures Turns(env, vm, 113, d + [a, b, c, x, y, z], d + [c, x, y, z, a, b])
    ensures Turns(env, vm, 114, d + [a, b, x, y], d + [x, y, a, b])
  {
    hide Turns, Executing;
    Drops(env, vm, d, a, b);
    ByCopying(env, vm, 110, d, [a, b], []);
    ByCopying(env, vm, 111, d, [a, b, c], []);
    ByCopying(env, vm, 112, d, [a, b], [x, y]);
    ByRotating(env, vm, 113, d, [a, b], [c, x, y, z]);
    ByRotating(env, vm, 114, d, [a, b], [x, y]);
    assert [a, b] + [] == [a, b] && [a, b, c] + [] == [a, b, c];
    assert [a, b] + [a, b] == [a, b, a, b] && [a, b, c] + [a, b, c] == [a, b, c, a, b, c];
    assert [a, b] + [x, y] == [a, b, x, y] && [a, b, x, y] + [a, b] == [a, b, x, y, a, b];
    assert [x, y] + [a, b] == [x, y, a, b];
    assert [a, b] + [c, x, y, z] == [a, b, c, x, y, z] && [c, x, y, z] + [a, b] == [c, x, y, z, a, b];
  }

  /** 2DROP, DROP, NIP and TUCK. */
  lemma Drops(env: Env, vm: Vm, d: Items, a: Octets, b: Octets)
    requires Executing(vm.cond)
    ensures Turns(env, vm, 109, d + [a, b], d)
    ensures Turns(env, vm, 117, d + [a], d)
    ensures Turns(env, vm, 119, d + [a, b], d + [b])
    ensures Turns(env, vm, 125, d + [a, b], d + [b, a, b])
  {
    hide ExecuteOpcode;
    OnData(env, vm, 109, d + [a, b]);
    OnData(env, vm, 117, d + [a]);
    OnData(env, vm, 119, d + [a, b]);
    OnData(env, vm, 125, d + [a, b]);
    assert (d + [a])[..|d|] == d && (d + [a, b])[..|d|] == d;
    assert Without(d + [a, b], 1) == d + [b];
  }

  /** IFDUP, DEPTH, DROP, DUP, NIP, OVER, ROT, SWAP and TUCK. */
  lemma SingleOpcodes(env: Env, vm: Vm, d: Items, a: Octets, b: Octets, c: Octets)
    requires Executing(vm.cond)
    ensures Turns(env, vm, 115, d + [a], if NumValue(a) != 0 then d + [a, a] else d + [a])
    ensures Turns(env, vm, 116, d, d + [NumBytes(|d|)])
    ensures Turns(env, vm, 117, d + [a], d)
    ensures Turns(env, vm, 118, d + [a], d + [a, a])
    ensures Turns(env, vm, 119, d + [a, b], d + [b])
    ensures Turns(env, vm, 120, d + [a, b], d + [a, b, a])
    ensures Turns(env, vm, 123, d + [a, b, c], d + [b, c, a])
    ensures Turns(env, vm, 124, d + [a, b], d + [b, a])
    ensures Turns(env, vm, 125, d + [a, b], d + [b, a, b])
  {
    hide Turns, Executing, NumValue, NumBytes;
    Drops(env, vm, d, a, b);
    IfDupAndDepth(env, vm, d, a);
    ByCopying(env, vm, 118, d, [a], []);
    ByCopying(env, vm, 120, d, [a], [b]);
    ByRotating(env, vm, 123, d, [a], [b, c]);
    ByRotating(env, vm, 124, d, [a], [b]);
    assert [a] + [] == [a] && [a] + [a] == [a, a] && [a] + [b] == [a, b] && [b] + [a] == [b, a];
    assert [a, b] + [a] == [a, b, a] && [a] + [b, c] == [a, b, c] && [b, c] + [a] == [b, c, a];
  }

  lemma IfDupAndDepth(env: Env, vm: Vm, d: Items, a: Octets)
    requires Executing(vm.cond)
    ensures Turns(env, vm, 115, d + [a], if NumValue(a) != 0 then d + [a, a] else d + [a])
    ensures Turns(env, vm, 116, d, d + [NumBytes(|d|)])
  {
    hide ExecuteOpcode, NumValue, NumBytes, Truthy;
    OnData(env, vm, 115, d + [a]);
    OnData(env, vm, 116, d);
    TruthyIffNonZero(a);
    assert d + [a] + [a] == d + [a, a];
  }

  lemma IndexedData(op: Byte, all: Items, x: Octets, minimal: bool)
    requires (op == 121 || op == 122) && MakeNum(x, minimal, 4).Ok?
    ensures var n := NumValue(x);
            ShuffleData(op, all + [x], minimal) ==
            if n < 0 || n >= |all| then Err(InvalidStackOperation)
            else Ok(if op == 121 then Copied(all, n + 1, 1) else Rotated(all, n + 1, 1))
  {
    hide NumValue, Minimal, Copied, Rotated, Without, Truthy, PushNum;
    assert (all + [x])[..|all|] == all;
  }

  /** PICK copies and ROLL moves the item that lies n below the top, once n is popped. */
  lemma IndexedOpcodes(env: Env, vm: Vm, d: Items, a: Octets, e: Items, x: Octets)
    requires Executing(vm.cond) && MakeNum(x, env.Flags().minimalData, 4).Ok?
    ensures var n := NumValue(x);
            if n == |e| then
              && Turns(env, vm, 121, d + [a] + e + [x], d + [a] + e + [a])
              && Turns(env, vm, 122, d + [a] + e + [x], d + e + [a])
            else n < 0 || n > |d + e| ==>
              && Fails(env, vm, 121, d + [a] + e + [x], InvalidStackOperation)
              && Fails(env, vm, 122, d + [a] + e + [x], InvalidStackOperation)
  {
    hide ExecuteOpcode, NumValue, MakeNum, ShuffleData, Executing;
    var all := d + [a] + e;
    OnData(env, vm, 121, all + [x]);
    OnData(env, vm, 122, all + [x]);
    IndexedData(121, all, x, env.Flags().minimalData);
    IndexedData(122, all, x, env.Flags().minimalData);
    if NumValue(x) == |e| {
      assert Copied(all, |e| + 1, 1) == all + [a];
      assert Rotated(all, |e| + 1, 1) == d + e + [a];
    }
  }

  /** TOALTSTACK and FROMALTSTACK move the top item, and each undoes the other. */
  lemma AltOpcodes(env: Env, vm: Vm, d: Items, alt: Items, x: Octets)
    requires Executing(vm.cond)
    ensures var here, there := vm.(d := d + [x], a := alt), vm.(d := d, a := alt + [x]);
            ExecuteOpcode(env, here, 107, []) == Ok(there) && ExecuteOpcode(env, there, 108, []) == Ok(here)
    ensures ExecuteOpcode(env, vm.(d := []), 107, []) == Err(InvalidStackOperation)
    ensures ExecuteOpcode(env, vm.(a := []), 108, []) == Err(InvalidStackOperation)
  {
    hide ExecuteOpcode;
    OnStacks(env, vm.(d := d + [x], a := alt), 107);
    OnStacks(env, vm.(d := d, a := alt + [x]), 108);
    OnStacks(env, vm.(d := []), 107);
    OnStacks(env, vm.(a := []), 108);
    assert (d + [x])[..|d|] == d && (alt + [x])[..|alt|] == alt;
  }

  // ----- bytes and hashes

  /** VERIFY, SIZE, EQUAL and EQUALVERIFY. */
  lemma ByteOpcodes(env: Env, vm: Vm, d: Items, a: Octets, b: Octets)
    requires Executing(vm.cond)
    ensures if NumValue(a) != 0 then Turns(env, vm, 105, d + [a], d) else Fails(env, vm, 105, d + [a], VerifyFailed)
    ensures Turns(env, vm, 130, d + [a], d + [a, NumBytes(|a|)])
    ensures Turns(env, vm, 135, d + [a, b], d + [if a == b then [1] else []])
    ensures if a == b then Turns(env, vm, 136, d + [a, b], d) else Fails(env, vm, 136, d + [a, b], VerifyFailed)
  {
    hide ExecuteOpcode, NumValue, NumBytes, Truthy;
    OnStacks(env, vm.(d := d + [a]), 105);
    OnStacks(env, vm.(d := d + [a]), 130);
    OnStacks(env, vm.(d := d + [a, b]), 135);
    OnStacks(env, vm.(d := d + [a, b]), 136);
    TruthyIffNonZero(a);
    BoolItems();
    var e := if a == b then [1] else [];
    assert (d + [a])[..|d|] == d && (d + [e])[..|d|] == d;
    assert d + [a] + [NumBytes(|a|)] == d + [a, NumBytes(|a|)];
    assert (d + [a, b])[..|d| + 1] == d + [a];
  }

  lemma BoolItems()
    ensures Truthy([1]) && !Truthy([])
  {
  }

  /** RIPEMD160, SHA1, SHA256, HASH160 and HASH256. */
  lemma HashOpcodes(env: Env, vm: Vm, d: Items, x: Octets)
    requires Executing(vm.cond)
    ensures var c := env.ctx.c;
            && Turns(env, vm, 166, d + [x], d + [c.ripemd160(x)])
            && Turns(env, vm, 167, d + [x], d + [c.sha1(x)])
            && Turns(env, vm, 168, d + [x], d + [c.sha256(x)])
            && Turns(env, vm, 169, d + [x], d + [c.ripemd160(c.sha256(x))])
            && Turns(env, vm, 170, d + [x], d + [c.sha256(c.sha256(x))])
    ensures forall op: Byte :: 166 <= op <= 170 ==> Fails(env, vm, op, [], InvalidStackOperation)
  {
    hide ExecuteOpcode;
    assert (d + [x])[..|d|] == d;
    forall op: Byte | 166 <= op <= 170
      ensures Fails(env, vm, op, [], InvalidStackOperation)
    {
      OnStacks(env, vm.(d := []), op);
    }
    OnStacks(env, vm.(d := d + [x]), 166);
    OnStacks(env, vm.(d := d + [x]), 167);
    OnStacks(env, vm.(d := d + [x]), 168);
    OnStacks(env, vm.(d := d + [x]), 169);
    OnStacks(env, vm.(d := d + [x]), 170);
  }

  // ----- numbers

  /** The number an item stands for as an operand. */
  predicate Denotes(env: Env, x: Octets, n: int) { MakeNum(x, env.Flags().minimalData, 4) == Ok(n) }

  /** An operand has at most four bytes and, if asked for, is the shortest encoding of its number. */
  lemma OperandIff(env: Env, x: Octets, n: int)
    ensures Denotes(env, x, n) <==>
            |x| <= 4 && n == NumValue(x) && (env.Flags().minimalData ==> x == NumBytes(n))
  {
    hide NumValue, NumBytes, Minimal;
    MinimalIffCanonical(x);
  }

  lemma OnNumbers(env: Env, vm: Vm, op: Byte, d: Items)
    requires Executing(vm.cond) && IsNumeric(op)
    ensures var r := Numeric(op, d, env.Flags().minimalData);
            ExecuteOpcode(env, vm.(d := d), op, []) == if r.Err? then Err(r.error) else Ok(vm.(d := r.value))
  {
    hide Numeric, ExecuteOpcode;
    OnStacks(env, vm.(d := d), op);
  }

  lemma PopOperand(env: Env, d: Items, x: Octets, n: int)
    requires Denotes(env, x, n)
    ensures PopNum(d + [x], env.Flags().minimalData) == Ok((n, d))
  {
    hide MakeNum;
    assert (d + [x])[..|d|] == d;
  }

  /** 1ADD, 1SUB, NEGATE, ABS, NOT and 0NOTEQUAL. */
  lemma UnaryOpcodes(env: Env, vm: Vm, d: Items, x: Octets, m: int)
    requires Executing(vm.cond) && Denotes(env, x, m)
    ensures Turns(env, vm, 139, d + [x], d + [NumBytes(m + 1)])
    ensures Turns(env, vm, 140, d + [x], d + [NumBytes(m - 1)])
    ensures Turns(env, vm, 143, d + [x], d + [NumBytes(-m)])
    ensures Turns(env, vm, 144, d + [x], d + [NumBytes(if m < 0 then -m else m)])
    ensures Turns(env, vm, 145, d + [x], d + [if m == 0 then [1] else []])
    ensures Turns(env, vm, 146, d + [x], d + [if m != 0 then [1] else []])
  {
    hide ExecuteOpcode, NumBytes, PopNum, Denotes;
    PopOperand(env, d, x, m);
    OnNumbers(env, vm, 139, d + [x]);
    OnNumbers(env, vm, 140, d + [x]);
    OnNumbers(env, vm, 143, d + [x]);
    OnNumbers(env, vm, 144, d + [x]);
    OnNumbers(env, vm, 145, d + [x]);
    OnNumbers(env, vm, 146, d + [x]);
    BitBytes();
  }

  lemma BitBytes()
    ensures NumBytes(0) == [] && NumBytes(1) == [1]
  {
  }

  lemma BinaryTurns(env: Env, vm: Vm, op: Byte, d: Items, x: Octets, m: int, y: Octets, n: int)
    requires Executing(vm.cond) && Denotes(env, x, m) && Denotes(env, y, n) && IsBinary(op) && op != 157
    ensures Turns(env, vm, op, d + [x, y], d + [NumBytes(Binary(op, m, n))])
  {
    hide ExecuteOpcode, NumBytes, PopNum, Denotes, Binary;
    assert d + [x] + [y] == d + [x, y];
    PopOperand(env, d + [x], y, n);
    PopOperand(env, d, x, m);
    OnNumbers(env, vm, op, d + [x, y]);
  }

  /** ADD, SUB, MIN and MAX; the upper item is the right operand. */
  lemma ArithmeticOpcodes(env: Env, vm: Vm, d: Items, x: Octets, m: int, y: Octets, n: int)
    requires Executing(vm.cond) && Denotes(env, x, m) && Denotes(env, y, n)
    ensures Turns(env, vm, 147, d + [x, y], d + [NumBytes(m + n)])
    ensures Turns(env, vm, 148, d + [x, y], d + [NumBytes(m - n)])
    ensures Turns(env, vm, 163, d + [x, y], d + [NumBytes(if m < n then m else n)])
    ensures Turns(env, vm, 164, d + [x, y], d + [NumBytes(if m > n then m else n)])
  {
    hide Turns, NumBytes, Denotes, Executing;
    BinaryTurns(env, vm, 147, d, x, m, y, n);
    BinaryTurns(env, vm, 148, d, x, m, y, n);
    BinaryTurns(env, vm, 163, d, x, m, y, n);
    BinaryTurns(env, vm, 164, d, x, m, y, n);
  }

  /** BOOLAND, BOOLOR, NUMEQUAL, NUMNOTEQUAL, LESSTHAN, GREATERTHAN, LESSTHANOREQUAL and GREATERTHANOREQUAL. */
  lemma ComparisonOpcodes(env: Env, vm: Vm, d: Items, x: Octets, m: int, y: Octets, n: int)
    requires Executing(vm.cond) && Denotes(env, x, m) && Denotes(env, y, n)
    ensures Turns(env, vm, 154, d + [x, y], d + [if m != 0 && n != 0 then [1] else []])
    ensures Turns(env, vm, 155, d + [x, y], d + [if m != 0 || n != 0 then [1] else []])
    ensures Turns(env, vm, 156, d + [x, y], d + [if m == n then [1] else []])
    ensures Turns(env, vm, 158, d + [x, y], d + [if m != n then [1] else []])
    ensures Turns(env, vm, 159, d + [x, y], d + [if m < n then [1] else []])
    ensures Turns(env, vm, 160, d + [x, y], d + [if m > n then [1] else []])
    ensures Turns(env, vm, 161, d + [x, y], d + [if m <= n then [1] else []])
    ensures Turns(env, vm, 162, d + [x, y], d + [if m >= n then [1] else []])
  {
    hide Turns, NumBytes, Denotes, Executing;
    BitBytes();
    BinaryTurns(env, vm, 154, d, x, m, y, n);
    BinaryTurns(env, vm, 155, d, x, m, y, n);
    BinaryTurns(env, vm, 156, d, x, m, y, n);
    BinaryTurns(env, vm, 158, d, x, m, y, n);
    BinaryTurns(env, vm, 159, d, x, m, y, n);
    BinaryTurns(env, vm, 160, d, x, m, y, n);
    BinaryTurns(env, vm, 161, d, x, m, y, n);
    BinaryTurns(env, vm, 162, d, x, m, y, n);
  }

  /** NUMEQUALVERIFY. */
  lemma NumEqualVerify(env: Env, vm: Vm, d: Items, x: Octets, m: int, y: Octets, n: int)
    requires Executing(vm.cond) && Denotes(env, x, m) && Denotes(env, y, n)
    ensures if m == n then Turns(env, vm, 157, d + [x, y], d) else Fails(env, vm, 157, d + [x, y], VerifyFailed)
  {
    hide ExecuteOpcode, NumBytes, PopNum, Denotes;
    assert d + [x] + [y] == d + [x, y];
    PopOperand(env, d + [x], y, n);
    PopOperand(env, d, x, m);
    OnNumbers(env, vm, 157, d + [x, y]);
    BitBytes();
    assert forall e: Octets :: (d + [e])[..|d|] == d;
  }

  /** WITHIN: the lower bound belongs to the range, the upper does not. */
  lemma WithinOpcode(env: Env, vm: Vm, d: Items, x: Octets, n: int, lo: Octets, min: int, hi: Octets, max: int)
    requires Executing(vm.cond) && Denotes(env, x, n) && Denotes(env, lo, min) && Denotes(env, hi, max)
    ensures Turns(env, vm, 165, d + [x, lo, hi], d + [if min <= n && n < max then [1] else []])
  {
    hide ExecuteOpcode, NumBytes, PopNum, Denotes;
    assert d + [x] + [lo] + [hi] == d + [x, lo, hi];
    PopOperand(env, d + [x] + [lo], hi, max);
    PopOperand(env, d + [x], lo, min);
    PopOperand(env, d, x, n);
    OnNumbers(env, vm, 165, d + [x, lo, hi]);
    BitBytes();
  }

  // ----- opcodes that end a script, and the code separator

  /** RETURN fails wherever it is executed, whatever the stack. */
  lemma ReturnFails(env: Env, vm: Vm, data: Octets)
    requires Executing(vm.cond)
    ensures ExecuteOpcode(env, vm, 106, data).Err?
  {
    hide StackOp, MinimalPush;
  }

  /** A run that succeeds passed over every RETURN in it. */
  lemma ReturnNotExecuted(env: Env, vm: Vm, a: seq<Token>, b: seq<Token>)
    requires RunTokens(env, vm, a + [Token(106, [])] + b).Ok?
    ensures RunTokens(env, vm, a).Ok? && !Executing(RunTokens(env, vm, a).value.cond)
  {
    hide *;
    var t := Token(106, []);
    assert a + [t] + b == a + ([t] + b);
    if RunTokens(env, vm, a).Err? {
      RunStops(env, vm, a, [t] + b);
    } else {
      var v := RunTokens(env, vm, a).value;
      RunAppend(env, vm, a, [t] + b);
      RunCons(env, v, t, b);
      MovedCond(v, t);
      if Executing(v.cond) { ReturnFails(env, Moved(v, t), []); }
    }
  }

  lemma MovedCond(vm: Vm, t: Token)
    ensures Moved(vm, t).cond == vm.cond
  {
    hide Raw;
  }

  /** After a CODESEPARATOR signatures cover the rest of the script only. */
  lemma SeparatorCuts(env: Env, vm: Vm)
    requires Executing(vm.cond) && vm.scriptIdx < |vm.scripts| && vm.offset <= |vm.scripts[vm.scriptIdx]|
    ensures var r := ExecuteOpcode(env, vm, 171, []);
            && r.Ok? && r.value == vm.(lastCodeSep := r.value.lastCodeSep)
            && HasSubScript(r.value) && SubScript(r.value) == vm.scripts[vm.scriptIdx][vm.offset..]
  {
    hide StackOp, MinimalPush;
  }

  /** The pushes: nothing, the data that follows, minus one, and the numbers from 1 to 16. */
  lemma PushOpcodes(env: Env, vm: Vm, op: Byte, data: Octets)
    requires Executing(vm.cond) && |data| <= 520 && op <= 96 && op != 80
    ensures var item := if op == 0 then [] else if op <= 78 then data else if op == 79 then [0x81] else [op - 80];
            ExecuteOpcode(env, vm, op, data) ==
            if env.Flags().minimalData && op <= 78 && !MinimalPush(op, data) then Err(MinimalData)
            else Ok(vm.(d := vm.d + [item]))
  {
    hide StackOp, MinimalPush;
    if op == 79 { assert NumBytes(-1) == [0x81]; }
    if op > 80 { assert NumBytes(op - 80) == [op - 80]; }
  }

  /** NOP does nothing; nor do the upgradable ones, unless they are discouraged. */
  lemma NopOpcodes(env: Env, vm: Vm, op: Byte)
    requires Executing(vm.cond)
    ensures ExecuteOpcode(env, vm, 97, []) == Ok(vm)
    ensures op == 176 || 179 <= op <= 185 ==>
              ExecuteOpcode(env, vm, op, []) ==
              if env.Flags().discourageUpgradableNops then Err(DiscourageUpgradableNops) else Ok(vm)
  {
    hide StackOp, MinimalPush;
  }

  /** RESERVED, VER, RESERVED1, RESERVED2 and everything above NOP10 fail when executed. */
  lemma ReservedOpcodes(env: Env, vm: Vm, op: Byte)
    requires Executing(vm.cond) && (op == 80 || op == 98 || op == 137 || op == 138 || op >= 186)
    ensures ExecuteOpcode(env, vm, op, []) == Err(ReservedOpcode)
  {
    hide MinimalPush;
  }

  lemma OnLock(env: Env, vm: Vm, op: Byte)
    requires Executing(vm.cond) && (op == 177 || op == 178)
    ensures ExecuteOpcode(env, vm, op, []) == LockTimeOp(env, vm, op)
  {
    hide LockTimeOp, MinimalPush;
  }

  /**
   * CHECKLOCKTIMEVERIFY and CHECKSEQUENCEVERIFY never change the state. Enabled, they succeed exactly on
   * an operand of at most five bytes that is not negative and that the transaction's locks allow.
   */
  lemma LockOpcodes(env: Env, vm: Vm, op: Byte)
    requires Executing(vm.cond) && (op == 177 || op == 178)
    ensures var r, f, n := ExecuteOpcode(env, vm, op, []), env.Flags(), |vm.d| - 1;
            && (r.Ok? ==> r.value == vm)
            && if (op == 177 && f.checkLockTimeVerify) || (op == 178 && f.checkSequenceVerify) then
                 r.Ok? <==>
                   && vm.d != [] && |vm.d[n]| <= 5 && (f.minimalData ==> vm.d[n] == NumBytes(NumValue(vm.d[n])))
                   && NumValue(vm.d[n]) >= 0 && env.lockOk(op, NumValue(vm.d[n]))
               else r.Ok? <==> !f.discourageUpgradableNops
  {
    hide ExecuteOpcode, NumValue, NumBytes, Minimal;
    OnLock(env, vm, op);
    if vm.d != [] { MinimalIffCanonical(vm.d[|vm.d| - 1]); }
  }

  // ----- signatures

  /** The code a signature covers: the running script after the last separator that was executed. */
  function Covered(vm: Vm): Octets
    requires vm.scriptIdx < |vm.scripts| && vm.lastCodeSep <= |vm.scripts[vm.scriptIdx]|
  {
    vm.scripts[vm.scriptIdx][vm.lastCodeSep..]
  }

  /** CHECKSIG takes the key from the top and the signature below it; CHECKSIGVERIFY fails on a false answer. */
  lemma CheckSigOpcodes(env: Env, vm: Vm, d: Items, full: Octets, key: Octets)
    requires Executing(vm.cond) && env.ctx.idx < |env.ctx.tx.txIn| && full != []
    requires vm.scriptIdx < |vm.scripts| && vm.lastCodeSep <= |vm.scripts[vm.scriptIdx]|
    ensures var r := CheckSig(env.ctx, Covered(vm), full, key);
            && (r.Err? ==> Fails(env, vm, 172, d + [full, key], r.error)
                           && Fails(env, vm, 173, d + [full, key], r.error))
            && (r == Ok(true) ==> Turns(env, vm, 172, d + [full, key], d + [[1]])
                                  && Turns(env, vm, 173, d + [full, key], d))
            && (r == Ok(false) ==> Turns(env, vm, 172, d + [full, key], d + [[]])
                                   && Fails(env, vm, 173, d + [full, key], VerifyFailed))
  {
    hide CheckSig, ExecuteOpcode, CheckSigOp, Truthy;
    BoolItems();
    var vm' := vm.(d := d + [full, key]);
    OnCheckSig(env, vm', 172);
    OnCheckSig(env, vm', 173);
    CheckSigPops(env, vm', d, full, key);
    assert (d + [[1]])[..|d|] == d;
  }

  lemma OnCheckSig(env: Env, vm: Vm, op: Byte)
    requires Executing(vm.cond) && env.ctx.idx < |env.ctx.tx.txIn| && HasSubScript(vm) && (op == 172 || op == 173)
    ensures var r, d := ExecuteOpcode(env, vm, op, []), CheckSigOp(env, vm);
            if d.Err? then r == Err(d.error)
            else if op == 172 then r == Ok(vm.(d := d.value))
            else
              var v := VerifyTop(d.value);
              r == if v.Err? then Err(v.error) else Ok(vm.(d := v.value))
  {
    hide CheckSigOp, VerifyTop, MinimalPush;
  }

  lemma CheckSigPops(env: Env, vm: Vm, d: Items, full: Octets, key: Octets)
    requires env.ctx.idx < |env.ctx.tx.txIn| && HasSubScript(vm) && full != [] && vm.d == d + [full, key]
    ensures var r := CheckSig(env.ctx, Covered(vm), full, key);
            CheckSigOp(env, vm) == if r.Err? then Err(r.error) else Ok(d + [if r.value then [1] else []])
  {
    hide CheckSig;
    assert (d + [full, key])[..|d| + 1] == d + [full] && (d + [full])[..|d|] == d;
    assert SubScript(vm) == Covered(vm);
  }
}
