/** Script numbers (scriptnum.go) and their reading as booleans (stack.go, asBool). */
module ScriptNum {
  import opened Bytes
  import opened ScriptErrors

  function Abs(n: int): nat { if n < 0 then -n else n }

  /** Little-endian magnitude without a leading zero byte. */
  function Magnitude(n: nat): (s: Octets)
    ensures |s| > 0 <==> n > 0
  {
    if n == 0 then [] else [n % 256] + Magnitude(n / 256)
  }

  lemma {:induction false} MagnitudeTop(n: nat)
    requires n > 0
    ensures Magnitude(n)[|Magnitude(n)| - 1] != 0
  {
    if n >= 256 { MagnitudeTop(n / 256); }
  }

  /** The sign-and-magnitude encoding of a number: the value Encode computes. */
  function NumBytes(n: int): Octets {
    if n == 0 then []
    else
      var m := Magnitude(Abs(n));
      var top := m[|m| - 1];
      if top >= 0x80 then m + [if n < 0 then 0x80 else 0]
      else if n < 0 then m[..|m| - 1] + [top + 0x80]
      else m
  }

  /** The number a byte string denotes, whatever its length. */
  function NumValue(v: Octets): int {
    if v == [] then 0
    else
      var top := v[|v| - 1];
      if top >= 0x80 then 0 - FromLE(v[..|v| - 1] + [top - 0x80]) else FromLE(v)
  }

  /** Meaning of checkMinimalDataEncoding: no redundant most significant byte. */
  predicate Minimal(v: Octets) {
    v == [] || v[|v| - 1] % 0x80 != 0 || (|v| > 1 && v[|v| - 2] >= 0x80)
  }

  /** Least significant byte first; the top bit of the last byte is the sign. */
  lemma NumValueIs(s: Octets, top: Byte)
    ensures NumValue([]) == 0
    ensures top < 128 ==> NumValue(s + [top]) == FromLE(s) + Pow256(|s|) * top
    ensures top >= 128 ==> NumValue(s + [top]) == -(FromLE(s) + Pow256(|s|) * (top - 128))
  {
    hide FromLE, Pow256;
    assert (s + [top])[..|s|] == s;
    FromLEAppend(s, if top < 128 then top else top - 128);
  }

  // ----- the two encodings are inverse

  lemma {:induction false} FromLEofMagnitude(n: nat)
    ensures FromLE(Magnitude(n)) == n
  {
    if n != 0 {
      FromLEofMagnitude(n / 256);
      assert Magnitude(n)[1..] == Magnitude(n / 256);
    }
  }

  lemma {:induction false} FromLEPositive(s: Octets)
    requires s != [] && s[|s| - 1] != 0
    ensures FromLE(s) > 0
  {
    if |s| > 1 { FromLEPositive(s[1..]); }
  }

  lemma {:induction false} MagnitudeOfFromLE(s: Octets)
    requires s == [] || s[|s| - 1] != 0
    ensures Magnitude(FromLE(s)) == s
  {
    if s != [] {
      FromLEPositive(s);
      MagnitudeOfFromLE(s[1..]);
      assert FromLE(s) % 256 == s[0] && FromLE(s) / 256 == FromLE(s[1..]);
    }
  }

  /** Decoding undoes encoding, on every integer. */
  lemma ValueOfBytes(n: int)
    ensures NumValue(NumBytes(n)) == n
  {
    if n != 0 {
      var m := Magnitude(Abs(n));
      var top := m[|m| - 1];
      FromLEofMagnitude(Abs(n));
      FromLEAppend(m, 0);
      if top >= 0x80 {
        assert NumBytes(n)[..|m|] == m;
      } else if n < 0 {
        assert NumBytes(n)[..|m| - 1] + [top] == m;
      }
    }
  }

  lemma BytesAreMinimal(n: int)
    ensures Minimal(NumBytes(n))
  {
    if n != 0 {
      MagnitudeTop(Abs(n));
    }
  }

  /** The seven magnitude bits of the last byte are significant: the sign bit shares that byte. */
  lemma CanonicalShared(m: Octets, top: Byte)
    requires 0 < top < 0x80
    ensures NumBytes(NumValue(m + [top])) == m + [top]
    ensures NumBytes(NumValue(m + [top + 0x80])) == m + [top + 0x80]
  {
    var body := m + [top];
    FromLEPositive(body);
    MagnitudeOfFromLE(body);
    assert body[..|m|] == m && (m + [top + 0x80])[..|m|] == m;
  }

  /** The magnitude fills its last byte: the sign needs a byte of its own. */
  lemma CanonicalExtra(m: Octets)
    requires m != [] && m[|m| - 1] >= 0x80
    ensures NumBytes(NumValue(m + [0])) == m + [0]
    ensures NumBytes(NumValue(m + [0x80])) == m + [0x80]
  {
    FromLEPositive(m);
    MagnitudeOfFromLE(m);
    FromLEAppend(m, 0);
    assert (m + [0])[..|m|] == m && (m + [0x80])[..|m|] == m;
  }

  lemma EmptyIsZero()
    ensures NumValue([]) == 0 && NumBytes(0) == []
  {
  }

  /** A byte string is minimal exactly when it is the encoding of the number it denotes. */
  lemma MinimalIffCanonical(v: Octets)
    ensures Minimal(v) <==> NumBytes(NumValue(v)) == v
  {
    BytesAreMinimal(NumValue(v));
    hide NumValue, NumBytes;
    if v == [] {
      EmptyIsZero();
    } else if Minimal(v) {
      var m, top := v[..|v| - 1], v[|v| - 1];
      assert v == m + [top];
      if top % 0x80 != 0 {
        CanonicalShared(m, top % 0x80);
      } else {
        CanonicalExtra(m);
      }
    }
  }

  // ----- reading as a boolean

  predicate AllZero(v: Octets) { forall i :: 0 <= i < |v| ==> v[i] == 0 }

  /** asBool: some byte is non-zero, and not only a trailing sign bit. */
  predicate Truthy(v: Octets) {
    v != [] && !(AllZero(v[..|v| - 1]) && (v[|v| - 1] == 0 || v[|v| - 1] == 0x80))
  }

  lemma {:induction false} FromLEZero(s: Octets)
    ensures FromLE(s) == 0 <==> AllZero(s)
  {
    if s != [] {
      FromLEZero(s[1..]);
      assert AllZero(s) <==> s[0] == 0 && AllZero(s[1..]) by {
        if s[0] == 0 && AllZero(s[1..]) {
          assert forall i :: 1 <= i < |s| ==> s[i] == s[1..][i - 1];
        }
      }
    }
  }

  /** The boolean reading agrees with "decodes to a non-zero number", negative zero included. */
  lemma TruthyIffNonZero(v: Octets)
    ensures Truthy(v) <==> NumValue(v) != 0
  {
    if v != [] {
      var k := |v| - 1;
      var body := v[..k] + [v[k] % 0x80];
      FromLEZero(body);
      assert AllZero(body) <==> AllZero(v[..k]) && v[k] % 0x80 == 0 by {
        assert body[k] == v[k] % 0x80;
        assert body[..k] == v[..k];
      }
      assert v == v[..k] + [v[k]];
    }
  }

  method AsBool(t: Octets) returns (r: bool)
    ensures r == Truthy(t)
  {
    for i := 0 to |t|
      invariant AllZero(t[..i])
    {
      if t[i] != 0 {
        if i == |t| - 1 && t[i] == 0x80 { return false; }
        if i < |t| - 1 { assert t[..|t| - 1][i] != 0; }
        return true;
      }
    }
    assert t[..|t|] == t;
    return false;
  }

  // ----- sizes

  lemma {:induction false} MagnitudeSize(n: nat, k: nat)
    ensures |Magnitude(n)| <= k <==> n < Pow256(k)
  {
    if n != 0 && k != 0 { MagnitudeSize(n / 256, k - 1); }
  }

  lemma MulNonNegative(p: int, a: int)
    requires p >= 0 && a >= 0
    ensures p * a >= 0
  {
  }

  lemma TopByteBounds(p: nat, top: Byte, low: nat)
    requires low < p
    ensures top >= 0x80 <==> 2 * (low + p * top) >= 256 * p
  {
    Distribute(p, 0x80, top - 0x80);
    if top >= 0x80 {
      MulNonNegative(p, top - 0x80);
    } else {
      MulNonNegative(p, 0x7f - top);
      Distribute(p, 0x7f - top, top - 0x80);
    }
  }

  lemma TopByte(s: Octets)
    requires s != []
    ensures s[|s| - 1] >= 0x80 <==> 2 * FromLE(s) >= Pow256(|s|)
  {
    var k := |s| - 1;
    assert s == s[..k] + [s[k]];
    FromLEAppend(s[..k], s[k]);
    TopByteBounds(Pow256(k), s[k], FromLE(s[..k]));
  }

  /** Exactly the numbers below 2^(8k-1) in magnitude fit in k bytes. */
  lemma EncodedSize(n: int, k: nat)
    requires k > 0
    ensures |NumBytes(n)| <= k <==> 2 * Abs(n) < Pow256(k)
  {
    if n != 0 {
      var m := Magnitude(Abs(n));
      FromLEofMagnitude(Abs(n));
      TopByte(m);
      MagnitudeSize(Abs(n), k);
      MagnitudeSize(Abs(n), k - 1);
      assert Pow256(k) == 256 * Pow256(k - 1);
    }
  }

  // ----- the loops of scriptnum.go

  lemma Int64Fits(n: int)
    requires -0x8000_0000_0000_0000 < n <= 0x7fff_ffff_ffff_ffff
    ensures |NumBytes(n)| <= 8
  {
    PowValues();
    EncodedSize(n, 8);
  }

  /** The shifting loop of scriptNum.Bytes. */
  method EncodeMagnitude(val: nat) returns (result: Octets)
    ensures result == Magnitude(val)
  {
    var n := val;
    result := [];
    while n > 0
      invariant result + Magnitude(n) == Magnitude(val)
    {
      assert result + ([n % 256] + Magnitude(n / 256)) == (result + [n % 256]) + Magnitude(n / 256);
      result := result + [n % 256];
      n := n / 256;
    }
  }

  /** scriptNum.Bytes. The source's int64 negation is exact above -2^63. */
  method Encode(val: int) returns (result: Octets)
    requires -0x8000_0000_0000_0000 < val <= 0x7fff_ffff_ffff_ffff
    ensures result == NumBytes(val)
    ensures |result| <= 8
  {
    Int64Fits(val);
    if val == 0 { return []; }
    var isNegative := val < 0;
    result := EncodeMagnitude(if isNegative then -val else val);
    if result[|result| - 1] >= 0x80 {
      result := result + [if isNegative then 0x80 else 0];
    } else if isNegative {
      result := result[|result| - 1 := result[|result| - 1] + 0x80];
      assert result == NumBytes(val);
    }
  }

  /** What makeScriptNum answers. */
  function MakeNum(v: Octets, requireMinimal: bool, maxLen: nat): Result<int> {
    if |v| > maxLen then Err(NumberTooBig)
    else if requireMinimal && !Minimal(v) then Err(MinimalData)
    else Ok(NumValue(v))
  }

  /** The accumulating loop of makeScriptNum. */
  method DecodeMagnitude(v: Octets) returns (result: nat)
    ensures result == FromLE(v)
  {
    result := 0;
    var place: nat := 1;
    for i := 0 to |v|
      invariant result == FromLE(v[..i])
      invariant place == Pow256(i)
    {
      assert v[..i + 1] == v[..i] + [v[i]];
      FromLEAppend(v[..i], v[i]);
      result := result + place * v[i];
      place := 256 * place;
    }
    assert v[..|v|] == v;
  }

  /** Clearing the sign bit subtracts its place value. */
  lemma ClearSign(m: Octets, top: Byte)
    requires top < 0x80
    ensures FromLE(m + [top + 0x80]) == FromLE(m + [top]) + Pow256(|m|) * 0x80
  {
    FromLEAppend(m, top);
    FromLEAppend(m, top + 0x80);
    Distribute(Pow256(|m|), top, 0x80);
  }

  /** makeScriptNum: the loop accumulates the little-endian value, then the sign bit is cleared. */
  method Decode(v: Octets, requireMinimal: bool, maxLen: nat) returns (r: Result<int>)
    requires maxLen <= 8
    ensures r == MakeNum(v, requireMinimal, maxLen)
    ensures r.Ok? ==> 2 * Abs(r.value) < Pow256(if maxLen == 0 then 1 else maxLen)
  {
    if |v| > maxLen { return Err(NumberTooBig); }
    ValueBound(v, maxLen);
    if requireMinimal && !Minimal(v) { return Err(MinimalData); }
    if |v| == 0 { return Ok(0); }
    var result := DecodeMagnitude(v);
    if v[|v| - 1] >= 0x80 {
      var k := |v| - 1;
      ClearSign(v[..k], v[k] - 0x80);
      assert v == v[..k] + [v[k]];
      return Ok(Pow256(k) * 0x80 - result);
    }
    return Ok(result);
  }

  lemma {:induction false} PowMonotone(j: nat, k: nat)
    requires j <= k
    ensures Pow256(j) <= Pow256(k)
  {
    if j < k { PowMonotone(j, k - 1); }
  }

  /** A string of at most maxLen bytes denotes a number below 2^(8*maxLen-1) in magnitude. */
  lemma ValueBound(v: Octets, maxLen: nat)
    requires |v| <= maxLen
    ensures 2 * Abs(NumValue(v)) < Pow256(if maxLen == 0 then 1 else maxLen)
  {
    PowMonotone(|v|, maxLen);
    if v != [] {
      var k := |v| - 1;
      var body := v[..k] + [v[k] % 0x80];
      TopByte(body);
      assert v == v[..k] + [v[k]];
    }
  }
}
