/** The opcode handlers that only read and write the stacks (opcode.go). */
module Opcodes {
  import opened Bytes
  import opened ScriptErrors
  import opened Stack
  import opened ScriptNum
  import opened Crypto

  datatype Stacks = Stacks(d: Items, a: Items)

  const MAX_ELEMENT_SIZE: nat := 520

  function PopItem(d: Items): Result<(Octets, Items)> {
    if d == [] then Err(InvalidStackOperation) else Ok((d[|d| - 1], d[..|d| - 1]))
  }

  function PopNum(d: Items, minimal: bool): Result<(int, Items)> {
    var (item, rest) :- PopItem(d);
    var n :- MakeNum(item, minimal, 4);
    Ok((n, rest))
  }

  function FromBool(b: bool): Octets { if b then [1] else [] }

  function PushNum(d: Items, n: int): Items { d + [NumBytes(n)] }

  /** abstractVerify. */
  function VerifyTop(d: Items): Result<Items> {
    var (item, rest) :- PopItem(d);
    if Truthy(item) then Ok(rest) else Err(VerifyFailed)
  }

  // ----- pushes: OP_0, OP_DATA_*, OP_PUSHDATA*, OP_1NEGATE, OP_1..OP_16

  predicate IsPush(op: Byte) { op <= 96 && op != 80 }

  function PushedItem(op: Byte, data: Octets): Octets
    requires IsPush(op)
  {
    if op == 0 then []
    else if op <= 78 then data
    else if op == 79 then NumBytes(-1)
    else NumBytes(op - 80)
  }

  // ----- rearranging

  function Shuffle(op: Byte, s: Stacks, minimal: bool): Result<Stacks>
    requires 107 <= op <= 125
  {
    var d, n := s.d, |s.d|;
    if op == 107 then
      var (x, rest) :- PopItem(d);
      Ok(Stacks(rest, s.a + [x]))
    else if op == 108 then
      var (x, rest) :- PopItem(s.a);
      Ok(Stacks(d + [x], rest))
    else
      var d' :- ShuffleData(op, d, minimal);
      Ok(Stacks(d', s.a))
  }

  function Guarded(ok: bool, d: Items): Result<Items> { if ok then Ok(d) else Err(InvalidStackOperation) }

  function ShuffleData(op: Byte, d: Items, minimal: bool): Result<Items>
    requires 109 <= op <= 125
  {
    var n := |d|;
    if op == 109 then Guarded(n >= 2, if n >= 2 then d[..n - 2] else d)
    else if op == 110 then Guarded(n >= 2, if n >= 2 then Copied(d, 2, 2) else d)
    else if op == 111 then Guarded(n >= 3, if n >= 3 then Copied(d, 3, 3) else d)
    else if op == 112 then Guarded(n >= 4, if n >= 4 then Copied(d, 4, 2) else d)
    else if op == 113 then Guarded(n >= 6, if n >= 6 then Rotated(d, 6, 2) else d)
    else if op == 114 then Guarded(n >= 4, if n >= 4 then Rotated(d, 4, 2) else d)
    else if op == 115 then Guarded(n >= 1, if n >= 1 && Truthy(d[n - 1]) then d + [d[n - 1]] else d)
    else if op == 116 then Ok(PushNum(d, n))
    else if op == 117 then Guarded(n >= 1, if n >= 1 then d[..n - 1] else d)
    else if op == 118 then Guarded(n >= 1, if n >= 1 then Copied(d, 1, 1) else d)
    else if op == 119 then Guarded(n >= 2, if n >= 2 then Without(d, 1) else d)
    else if op == 120 then Guarded(n >= 2, if n >= 2 then Copied(d, 2, 1) else d)
    else if op == 121 then
      var (k, rest) :- PopNum(d, minimal);
      Guarded(0 <= k < |rest|, if 0 <= k < |rest| then Copied(rest, k + 1, 1) else rest)
    else if op == 122 then
      var (k, rest) :- PopNum(d, minimal);
      Guarded(0 <= k < |rest|, if 0 <= k < |rest| then Rotated(rest, k + 1, 1) else rest)
    else if op == 123 then Guarded(n >= 3, if n >= 3 then Rotated(d, 3, 1) else d)
    else if op == 124 then Guarded(n >= 2, if n >= 2 then Rotated(d, 2, 1) else d)
    else Guarded(n >= 2, if n >= 2 then d[..n - 2] + [d[n - 1], d[n - 2], d[n - 1]] else d)
  }

  // ----- numbers

  predicate IsUnary(op: Byte) { op == 139 || op == 140 || 143 <= op <= 146 }

  /** OP_1ADD, OP_1SUB, OP_NEGATE, OP_ABS, OP_NOT, OP_0NOTEQUAL. */
  function Unary(op: Byte, m: int): int
    requires IsUnary(op)
  {
    if op == 139 then m + 1
    else if op == 140 then m - 1
    else if op == 143 then -m
    else if op == 144 then Abs(m)
    else if op == 145 then (if m == 0 then 1 else 0)
    else (if m != 0 then 1 else 0)
  }

  predicate IsBinary(op: Byte) { op == 147 || op == 148 || 154 <= op <= 164 }

  function Bit(b: bool): int { if b then 1 else 0 }

  /** The two-operand numeric opcodes; v0 is the top item. */
  function Binary(op: Byte, v1: int, v0: int): int
    requires IsBinary(op)
  {
    if op == 147 then v0 + v1
    else if op == 148 then v1 - v0
    else if op == 154 then Bit(v0 != 0 && v1 != 0)
    else if op == 155 then Bit(v0 != 0 || v1 != 0)
    else if op == 156 || op == 157 then Bit(v0 == v1)
    else if op == 158 then Bit(v0 != v1)
    else if op == 159 then Bit(v1 < v0)
    else if op == 160 then Bit(v1 > v0)
    else if op == 161 then Bit(v1 <= v0)
    else if op == 162 then Bit(v1 >= v0)
    else if op == 163 then (if v1 < v0 then v1 else v0)
    else (if v1 > v0 then v1 else v0)
  }

  predicate IsNumeric(op: Byte) { IsUnary(op) || IsBinary(op) || op == 165 }

  /** The number a numeric opcode computes, and the items below its operands. */
  function Computed(op: Byte, d: Items, minimal: bool): Result<(int, Items)>
    requires IsNumeric(op)
  {
    var (v0, d0) :- PopNum(d, minimal);
    if IsUnary(op) then Ok((Unary(op, v0), d0))
    else
      var (v1, d1) :- PopNum(d0, minimal);
      if IsBinary(op) then Ok((Binary(op, v1, v0), d1))
      else
        var (x, d2) :- PopNum(d1, minimal);
        Ok((Bit(v1 <= x < v0), d2))
  }

  function Numeric(op: Byte, d: Items, minimal: bool): Result<Items>
    requires IsNumeric(op)
  {
    var (n, rest) :- Computed(op, d, minimal);
    if op == 157 then VerifyTop(PushNum(rest, n)) else Ok(PushNum(rest, n))
  }

  const MAX_PUSHED: int := 0xffff_fffe

  /** Operands fit four bytes, so no numeric opcode ever pushes a number beyond 2^32 - 2. */
  lemma ComputedBound(op: Byte, d: Items, minimal: bool)
    requires IsNumeric(op) && Computed(op, d, minimal).Ok?
    ensures -MAX_PUSHED <= Computed(op, d, minimal).value.0 <= MAX_PUSHED
  {
    var a := PopNum(d, minimal);
    OperandBound(d, minimal);
    if !IsUnary(op) {
      var b := PopNum(a.value.1, minimal);
      OperandBound(a.value.1, minimal);
      if !IsBinary(op) { OperandBound(b.value.1, minimal); }
    }
  }

  lemma OperandBound(d: Items, minimal: bool)
    requires PopNum(d, minimal).Ok?
    ensures -0x7fff_ffff <= PopNum(d, minimal).value.0 <= 0x7fff_ffff
  {
    PowValues();
    ValueBound(d[|d| - 1], 4);
  }

  /** A number within the pushed range takes at most five bytes. */
  lemma PushedNumSize(n: int)
    requires -MAX_PUSHED <= n <= MAX_PUSHED
    ensures |NumBytes(n)| <= 5
  {
    PowValues();
    assert Pow256(5) == 256 * Pow256(4);
    EncodedSize(n, 5);
  }

  /** How the numeric opcodes relate to one another; the first argument is the lower item. */
  lemma NumericLaws(a: int, b: int)
    // OP_SUB undoes OP_ADD, OP_NEGATE turns it into the other order, OP_1ADD and OP_1SUB undo each other.
    ensures Binary(148, Binary(147, a, b), b) == a && Unary(143, Binary(148, a, b)) == Binary(148, b, a)
    ensures Unary(140, Unary(139, a)) == a
    // OP_MIN and OP_MAX are the two operands in order; OP_ABS is the larger of a number and its negation.
    ensures Binary(163, a, b) <= Binary(164, a, b) && multiset{Binary(163, a, b), Binary(164, a, b)} == multiset{a, b}
    ensures Unary(144, a) == Binary(164, a, Unary(143, a))
    // Comparisons: each is the negation of its opposite, and they agree with the sign of the difference.
    ensures Binary(159, a, b) == Unary(145, Binary(162, a, b)) && Binary(160, a, b) == Unary(145, Binary(161, a, b))
    ensures Binary(158, a, b) == Unary(145, Binary(156, a, b)) && Binary(159, a, b) == Binary(160, b, a)
    ensures Binary(159, a, b) == 1 <==> Binary(148, a, b) < 0
    ensures Binary(156, a, b) == 1 <==> Binary(148, a, b) == 0
    ensures Binary(157, a, b) == Binary(156, a, b)
    // Booleans: De Morgan, and OP_0NOTEQUAL is OP_NOT twice.
    ensures Unary(145, Binary(154, a, b)) == Binary(155, Unary(145, a), Unary(145, b))
    ensures Unary(146, a) == Unary(145, Unary(145, a)) && Binary(155, a, 0) == Unary(146, a)
  {
  }

  /**
   * On the stack, OP_1SUB undoes OP_1ADD exactly when the item is minimally encoded and the sum still
   * fits an operand.
   */
  lemma IncrementUndone(d: Items, minimal: bool)
    requires PopNum(d, minimal).Ok?
    ensures var up := Numeric(139, d, minimal);
            && up.Ok?
            && (Numeric(140, up.value, minimal) == Ok(d) <==>
                  Minimal(d[|d| - 1]) && PopNum(d, minimal).value.0 < 0x7fff_ffff)
  {
    hide NumBytes, NumValue, Minimal;
    var (m, rest) := PopNum(d, minimal).value;
    var x := d[|d| - 1];
    assert d == rest + [x];
    OperandBound(d, minimal);
    PowValues();
    EncodedSize(m + 1, 4);
    BytesAreMinimal(m + 1);
    ValueOfBytes(m + 1);
    MinimalIffCanonical(x);
    var up := rest + [NumBytes(m + 1)];
    assert up[..|rest|] == rest;
    if |NumBytes(m + 1)| <= 4 {
      var down := rest + [NumBytes(m)];
      assert down == d <==> down[|rest|] == x;
    }
  }

  // ----- bytes and hashes

  predicate IsHash(op: Byte) { 166 <= op <= 170 }

  function Digest(c: Crypto, op: Byte, b: Octets): Octets
    requires IsHash(op)
  {
    if op == 166 then c.ripemd160(b)
    else if op == 167 then c.sha1(b)
    else if op == 168 then c.sha256(b)
    else if op == 169 then c.Hash160(b)
    else c.DoubleHash(b)
  }

  function Equal(d: Items): Result<Items> {
    var (a, d0) :- PopItem(d);
    var (b, d1) :- PopItem(d0);
    Ok(d1 + [FromBool(a == b)])
  }

  // ----- what every handler above keeps

  ghost predicate Small(s: Items) { forall x :: x in s ==> |x| <= MAX_ELEMENT_SIZE }

  lemma SmallSnoc(s: Items, x: Octets)
    requires Small(s) && |x| <= MAX_ELEMENT_SIZE
    ensures Small(s + [x])
  {
  }

  lemma SmallSub(s: Items, t: Items)
    requires Small(s) && forall x :: x in t ==> x in s
    ensures Small(t)
  {
  }

  lemma PopSmall(d: Items)
    requires Small(d) && PopItem(d).Ok?
    ensures Small(PopItem(d).value.1) && |PopItem(d).value.0| <= MAX_ELEMENT_SIZE
  {
    assert d[|d| - 1] in d;
  }

  lemma ShuffleDataSmall(op: Byte, d: Items, minimal: bool)
    requires 109 <= op <= 125 && Small(d) && |d| <= 0xffff && ShuffleData(op, d, minimal).Ok?
    ensures Small(ShuffleData(op, d, minimal).value)
  {
    var r := ShuffleData(op, d, minimal).value;
    if op == 116 {
      PushedNumSize(|d|);
      SmallSnoc(d, NumBytes(|d|));
    } else {
      ShuffleDataOnly(op, d, minimal);
      SmallSub(d, r);
    }
  }

  /** Apart from OP_DEPTH, the items afterwards are items from before. */
  lemma ShuffleDataOnly(op: Byte, d: Items, minimal: bool)
    requires 109 <= op <= 125 && op != 116 && ShuffleData(op, d, minimal).Ok?
    ensures forall x :: x in ShuffleData(op, d, minimal).value ==> x in d
  {
    hide MakeNum, Truthy, Copied, Rotated, Without;
    var n := |d|;
    if op == 110 {
      MovedOnly(d, 2, 2);
    } else if op == 111 {
      MovedOnly(d, 3, 3);
    } else if op == 112 || op == 114 {
      MovedOnly(d, 4, 2);
    } else if op == 113 {
      MovedOnly(d, 6, 2);
    } else if op == 118 {
      MovedOnly(d, 1, 1);
    } else if op == 119 {
      WithoutOnly(d, 1);
    } else if op == 120 || op == 124 {
      MovedOnly(d, 2, 1);
    } else if op == 121 || op == 122 {
      var (k, rest) := PopNum(d, minimal).value;
      MovedOnly(rest, k + 1, 1);
    } else if op == 123 {
      MovedOnly(d, 3, 1);
    }
  }

  lemma MovedOnly(s: Items, m: nat, k: nat)
    requires k <= m <= |s|
    ensures forall x :: x in Copied(s, m, k) ==> x in s
    ensures forall x :: x in Rotated(s, m, k) ==> x in s
  {
  }

  lemma WithoutOnly(s: Items, i: nat)
    requires i < |s|
    ensures forall x :: x in Without(s, i) ==> x in s
  {
  }

  lemma ShuffleSmall(op: Byte, s: Stacks, minimal: bool)
    requires 107 <= op <= 125 && Small(s.d) && Small(s.a) && |s.d| <= 0xffff && Shuffle(op, s, minimal).Ok?
    ensures Small(Shuffle(op, s, minimal).value.d) && Small(Shuffle(op, s, minimal).value.a)
  {
    if op == 107 {
      PopSmall(s.d);
    } else if op == 108 {
      PopSmall(s.a);
    } else {
      ShuffleDataSmall(op, s.d, minimal);
    }
  }

  lemma NumericSmall(op: Byte, d: Items, minimal: bool)
    requires IsNumeric(op) && Small(d) && Numeric(op, d, minimal).Ok?
    ensures Small(Numeric(op, d, minimal).value)
  {
    ComputedBound(op, d, minimal);
    ComputedRest(op, d, minimal);
    var (n, rest) := Computed(op, d, minimal).value;
    PushedNumSize(n);
    SmallSub(d, rest);
    SmallSnoc(rest, NumBytes(n));
    if op == 157 { PopSmall(PushNum(rest, n)); }
  }

  lemma ComputedRest(op: Byte, d: Items, minimal: bool)
    requires IsNumeric(op) && Computed(op, d, minimal).Ok?
    ensures forall x :: x in Computed(op, d, minimal).value.1 ==> x in d
  {
    hide MakeNum, Unary, Binary;
  }
}
