/** The opcode handlers of opcode.go that work on the stacks, as updates in place. */
module Handlers {
  import opened Bytes
  import opened ScriptErrors
  import opened Stack
  import opened ScriptNum
  import opened Opcodes
  import opened Crypto

  /** The handler ended as the specification says: with its error, or with its stack. */
  ghost predicate Gives(r: Result<Items>, e: Option<ScriptError>, now: Items) {
    if r.Ok? then e == None && now == r.value else e == Some(r.error)
  }

  ghost predicate GivesBoth(r: Result<Stacks>, e: Option<ScriptError>, d: Items, a: Items) {
    if r.Ok? then e == None && Stacks(d, a) == r.value else e == Some(r.error)
  }

  function Fault(ok: bool): Option<ScriptError> { if ok then None else Some(InvalidStackOperation) }

  /** OP_2DROP to OP_TUCK on the data stack. */
  method RearrangeData(op: Byte, s: DataStack) returns (e: Option<ScriptError>)
    requires 109 <= op <= 125 && |s.stk| <= 0xffff
    modifies s`stk
    ensures Gives(ShuffleData(op, old(s.stk), s.verifyMinimalData), e, s.stk)
  {
    hide Truthy, NumBytes, NumValue, Minimal, MakeNum, Copied, Rotated, Without;
    var ok: bool;
    if op == 109 {
      ok := s.DropN(2);
    } else if op == 110 {
      ok := s.DupN(2);
    } else if op == 111 {
      ok := s.DupN(3);
    } else if op == 112 {
      ok := s.OverN(2);
    } else if op == 113 {
      ok := s.RotN(2);
    } else if op == 114 {
      ok := s.SwapN(2);
    } else if op == 115 {
      var so := s.PeekByteArray(0);
      ok := so.Ok?;
      if ok {
        var b := AsBool(so.value);
        if b { s.PushByteArray(so.value); }
      }
    } else if op == 116 {
      s.PushInt(|s.stk|);
      ok := true;
    } else if op == 117 {
      ok := s.DropN(1);
    } else if op == 118 {
      ok := s.DupN(1);
    } else if op == 119 {
      var so := s.NipN(1);
      ok := so.Ok?;
    } else if op == 120 {
      ok := s.OverN(1);
    } else if op == 121 || op == 122 {
      var n := s.PopInt();
      if n.Err? { return Some(n.error); }
      if op == 121 { ok := s.PickN(n.value); } else { ok := s.RollN(n.value); }
    } else if op == 123 {
      ok := s.RotN(1);
    } else if op == 124 {
      ok := s.SwapN(1);
    } else {
      ok := s.Tuck();
    }
    return Fault(ok);
  }

  /** OP_TOALTSTACK, OP_FROMALTSTACK and the above. */
  method Rearrange(op: Byte, d: DataStack, a: DataStack) returns (e: Option<ScriptError>)
    requires 107 <= op <= 125 && d != a && |d.stk| <= 0xffff
    modifies d`stk, a`stk
    ensures GivesBoth(Shuffle(op, Stacks(old(d.stk), old(a.stk)), d.verifyMinimalData), e, d.stk, a.stk)
  {
    hide ShuffleData;
    if op == 107 || op == 108 {
      var from, to := if op == 107 then d else a, if op == 107 then a else d;
      var so := from.PopByteArray();
      if so.Err? { return Some(so.error); }
      to.PushByteArray(so.value);
      return None;
    }
    e := RearrangeData(op, d);
  }

  /** abstractVerify. */
  method Verify(s: DataStack) returns (e: Option<ScriptError>)
    modifies s`stk
    ensures Gives(VerifyTop(old(s.stk)), e, s.stk)
  {
    hide Truthy;
    var verified := s.PopBool();
    if verified.Err? { return Some(verified.error); }
    return if verified.value then None else Some(VerifyFailed);
  }

  /** opcode1Add to opcode0NotEqual on a popped number. */
  method UnaryResult(op: Byte, m: int) returns (n: int)
    requires IsUnary(op)
    ensures n == Unary(op, m)
  {
    n := m;
    if op == 139 {
      n := n + 1;
    } else if op == 140 {
      n := n - 1;
    } else if op == 143 {
      n := -n;
    } else if op == 144 {
      if n < 0 { n := -n; }
    } else if op == 145 {
      if n == 0 { n := 1; } else { n := 0; }
    } else {
      if n != 0 { n := 1; }
    }
  }

  /** opcodeAdd to opcodeMax on two popped numbers, v0 from the top. */
  method BinaryResult(op: Byte, v1: int, v0: int) returns (n: int)
    requires IsBinary(op)
    ensures n == Binary(op, v1, v0)
  {
    n := 0;
    match op
    case 147 => n := v0 + v1;
    case 148 => n := v1 - v0;
    case 154 => if v0 != 0 && v1 != 0 { n := 1; }
    case 155 => if v0 != 0 || v1 != 0 { n := 1; }
    case 156 => if v0 == v1 { n := 1; }
    case 157 => if v0 == v1 { n := 1; }
    case 158 => if v0 != v1 { n := 1; }
    case 159 => if v1 < v0 { n := 1; }
    case 160 => if v1 > v0 { n := 1; }
    case 161 => if v1 <= v0 { n := 1; }
    case 162 => if v1 >= v0 { n := 1; }
    case 163 => if v1 < v0 { n := v1; } else { n := v0; }
    case _ => if v1 > v0 { n := v1; } else { n := v0; }
  }

  /** The operands come off the stack, top first. */
  method Operands(op: Byte, s: DataStack) returns (r: Result<int>)
    requires IsNumeric(op)
    modifies s`stk
    ensures var c := Computed(op, old(s.stk), s.verifyMinimalData);
            if c.Ok? then r == Ok(c.value.0) && s.stk == c.value.1 else r == Err(c.error)
  {
    hide MakeNum, Unary, Binary;
    var v0 := s.PopInt();
    if v0.Err? { return v0; }
    if IsUnary(op) {
      var n := UnaryResult(op, v0.value);
      return Ok(n);
    }
    var v1 := s.PopInt();
    if v1.Err? { return v1; }
    if IsBinary(op) {
      var n := BinaryResult(op, v1.value, v0.value);
      return Ok(n);
    }
    var x := s.PopInt();
    if x.Err? { return x; }
    if x.value >= v1.value && x.value < v0.value { return Ok(1); }
    return Ok(0);
  }

  /** opcodeFalse, opcodePushData, opcode1Negate and opcodeN. */
  method PushConstant(op: Byte, data: Octets, s: DataStack)
    requires IsPush(op)
    modifies s`stk
    ensures s.stk == old(s.stk) + [PushedItem(op, data)]
  {
    hide NumBytes;
    if op == 0 {
      s.PushByteArray([]);
    } else if op <= 78 {
      s.PushByteArray(data);
    } else if op == 79 {
      s.PushInt(-1);
    } else {
      s.PushInt(op - (81 - 1));
    }
  }

  method Arithmetic(op: Byte, s: DataStack) returns (e: Option<ScriptError>)
    requires IsNumeric(op)
    modifies s`stk
    ensures Gives(Numeric(op, old(s.stk), s.verifyMinimalData), e, s.stk)
  {
    hide Computed, VerifyTop, NumBytes;
    var n := Operands(op, s);
    if n.Err? { return Some(n.error); }
    ComputedBound(op, old(s.stk), s.verifyMinimalData);
    s.PushInt(n.value);
    if op == 157 { e := Verify(s); } else { e := None; }
  }

  method CompareTop(s: DataStack) returns (e: Option<ScriptError>)
    modifies s`stk
    ensures Gives(Equal(old(s.stk)), e, s.stk)
  {
    var a := s.PopByteArray();
    if a.Err? { return Some(a.error); }
    var b := s.PopByteArray();
    if b.Err? { return Some(b.error); }
    s.PushByteArray(FromBool(a.value == b.value));
    return None;
  }

  method HashTop(c: Crypto, op: Byte, s: DataStack) returns (e: Option<ScriptError>)
    requires IsHash(op)
    modifies s`stk
    ensures old(s.stk) == [] ==> e == Some(InvalidStackOperation)
    ensures old(s.stk) != [] ==>
              var k := |old(s.stk)| - 1;
              e == None && s.stk == old(s.stk)[..k] + [Digest(c, op, old(s.stk)[k])]
  {
    hide Digest;
    var x := s.PopByteArray();
    if x.Err? { return Some(x.error); }
    s.PushByteArray(Digest(c, op, x.value));
    return None;
  }

  /** n items off the stack, in the order they are popped. */
  method PopLoop(s: DataStack, n: nat) returns (r: Result<Items>)
    modifies s`stk
    ensures n > |old(s.stk)| ==> r == Err(InvalidStackOperation)
    ensures n <= |old(s.stk)| ==>
              && s.stk == old(s.stk)[..|old(s.stk)| - n]
              && r.Ok? && |r.value| == n
              && forall i :: 0 <= i < n ==> r.value[i] == old(s.stk)[|old(s.stk)| - 1 - i]
  {
    var items: Items := [];
    for i := 0 to n
      invariant i <= |old(s.stk)| && s.stk == old(s.stk)[..|old(s.stk)| - i]
      invariant |items| == i && forall k :: 0 <= k < i ==> items[k] == old(s.stk)[|old(s.stk)| - 1 - k]
    {
      var x := s.PopByteArray();
      if x.Err? { return Err(x.error); }
      items := items + [x.value];
    }
    return Ok(items);
  }
}
