/** The data stack (stack.go): loops of single moves and the block moves they amount to. */
module Stack {
  import opened Bytes
  import opened ScriptErrors
  import ScriptNum

  type Items = seq<Octets>

  /** s without the item idx places below the top. */
  function Without(s: Items, idx: nat): Items
    requires idx < |s|
  {
    s[..|s| - idx - 1] + s[|s| - idx..]
  }

  /** Of the top m items, the lowest k move to the top, keeping their order. */
  function Rotated(s: Items, m: nat, k: nat): Items
    requires k <= m <= |s|
  {
    s[..|s| - m] + s[|s| - m + k..] + s[|s| - m..|s| - m + k]
  }

  /** The k items that start m places down are copied to the top, in order. */
  function Copied(s: Items, m: nat, k: nat): Items
    requires k <= m <= |s|
  {
    s + s[|s| - m..|s| - m + k]
  }

  lemma RotateOne(s: Items, m: nat, k: nat)
    requires k < m <= |s|
    ensures var r := Rotated(s, m, k);
            |r| == |s| && Without(r, m - 1) + [r[|r| - m]] == Rotated(s, m, k + 1)
  {
    var r := Rotated(s, m, k);
    var base := |s| - m;
    assert r[..base] == s[..base];
    assert r[base] == s[base + k];
    assert r[base + 1..] == s[base + k + 1..] + s[base..base + k];
    assert s[base..base + k + 1] == s[base..base + k] + [s[base + k]];
  }

  lemma RotateNone(s: Items, m: nat)
    requires m <= |s|
    ensures Rotated(s, m, 0) == s
  {
  }

  class DataStack {
    var stk: Items
    var verifyMinimalData: bool

    constructor (minimal: bool)
      ensures stk == [] && verifyMinimalData == minimal
    {
      stk, verifyMinimalData := [], minimal;
    }

    method PushByteArray(so: Octets)
      modifies this`stk
      ensures stk == old(stk) + [so]
    {
      stk := stk + [so];
    }

    method PushInt(val: int)
      requires -0x8000_0000_0000_0000 < val <= 0x7fff_ffff_ffff_ffff
      modifies this`stk
      ensures stk == old(stk) + [ScriptNum.NumBytes(val)]
    {
      var b := ScriptNum.Encode(val);
      PushByteArray(b);
    }

    method PeekByteArray(idx: int) returns (r: Result<Octets>)
      ensures r == if 0 <= idx < |stk| then Ok(stk[|stk| - idx - 1]) else Err(InvalidStackOperation)
    {
      if idx < 0 || idx >= |stk| { return Err(InvalidStackOperation); }
      return Ok(stk[|stk| - idx - 1]);
    }

    /** nipN: its three branches all drop exactly the idx-th item. */
    method NipN(idx: int) returns (r: Result<Octets>)
      modifies this`stk
      ensures !(0 <= idx < |old(stk)|) ==> r == Err(InvalidStackOperation) && stk == old(stk)
      ensures 0 <= idx < |old(stk)| ==>
                r == Ok(old(stk)[|old(stk)| - idx - 1]) && stk == Without(old(stk), idx)
    {
      var sz := |stk|;
      if idx < 0 || idx > sz - 1 { return Err(InvalidStackOperation); }
      var so := stk[sz - idx - 1];
      if idx == 0 {
        stk := stk[..sz - 1];
      } else if idx == sz - 1 {
        stk := stk[1..];
      } else {
        var s1 := stk[sz - idx..sz];
        stk := stk[..sz - idx - 1];
        stk := stk + s1;
      }
      assert stk == Without(old(stk), idx);
      return Ok(so);
    }

    method PopByteArray() returns (r: Result<Octets>)
      modifies this`stk
      ensures old(stk) == [] ==> r == Err(InvalidStackOperation) && stk == []
      ensures old(stk) != [] ==>
                r == Ok(old(stk)[|old(stk)| - 1]) && stk == old(stk)[..|old(stk)| - 1]
    {
      r := NipN(0);
    }

    method PopInt() returns (r: Result<int>)
      modifies this`stk
      ensures old(stk) == [] ==> r == Err(InvalidStackOperation) && stk == []
      ensures old(stk) != [] ==>
                && r == ScriptNum.MakeNum(old(stk)[|old(stk)| - 1], verifyMinimalData, 4)
                && stk == old(stk)[..|old(stk)| - 1]
    {
      var so := PopByteArray();
      if so.Err? { return Err(so.error); }
      r := ScriptNum.Decode(so.value, verifyMinimalData, 4);
    }

    method PopBool() returns (r: Result<bool>)
      modifies this`stk
      ensures old(stk) == [] ==> r == Err(InvalidStackOperation) && stk == []
      ensures old(stk) != [] ==>
                && r == Ok(ScriptNum.Truthy(old(stk)[|old(stk)| - 1]))
                && stk == old(stk)[..|old(stk)| - 1]
    {
      var so := PopByteArray();
      if so.Err? { return Err(so.error); }
      var b := ScriptNum.AsBool(so.value);
      return Ok(b);
    }

    /** DropN: fails, leaving nothing, exactly when there are fewer than n items. */
    method DropN(n: int) returns (ok: bool)
      modifies this`stk
      ensures ok == (1 <= n <= |old(stk)|)
      ensures stk == if n < 1 then old(stk) else if ok then old(stk)[..|old(stk)| - n] else []
    {
      if n < 1 { return false; }
      var i := n;
      while i > 0
        invariant 0 <= i <= n && n - i <= |old(stk)|
        invariant stk == old(stk)[..|old(stk)| - (n - i)]
      {
        var r := PopByteArray();
        if r.Err? { return false; }
        i := i - 1;
      }
      return true;
    }

    /** DupN: the top n items twice, in the same order. */
    method DupN(n: int) returns (ok: bool)
      modifies this`stk
      ensures ok == (1 <= n <= |old(stk)|)
      ensures stk == if ok then Copied(old(stk), n, n) else old(stk)
    {
      if n < 1 { return false; }
      ok := CopyUp(n - 1, n);
    }

    /** OverN: the n items below the top n, copied to the top. */
    method OverN(n: int) returns (ok: bool)
      modifies this`stk
      ensures ok == (1 <= n && 2 * n <= |old(stk)|)
      ensures stk == if ok then Copied(old(stk), 2 * n, n) else old(stk)
    {
      if n < 1 { return false; }
      ok := CopyUp(2 * n - 1, n);
    }

    /** The loop of DupN and OverN: peek a fixed depth and push, count times. */
    method CopyUp(entry: nat, count: nat) returns (ok: bool)
      requires 1 <= count <= entry + 1
      modifies this`stk
      ensures ok == (entry < |old(stk)|)
      ensures stk == if ok then Copied(old(stk), entry + 1, count) else old(stk)
    {
      var i := count;
      while i > 0
        invariant 0 <= i <= count
        invariant i < count ==> entry < |old(stk)|
        invariant stk == if entry < |old(stk)| then Copied(old(stk), entry + 1, count - i) else old(stk)
      {
        var so := PeekByteArray(entry);
        if so.Err? { return false; }
        PushByteArray(so.value);
        i := i - 1;
      }
      return true;
    }

    /** RotN: the top 3n items rotate by n. */
    method RotN(n: int) returns (ok: bool)
      modifies this`stk
      ensures ok == (1 <= n && 3 * n <= |old(stk)|)
      ensures stk == if ok then Rotated(old(stk), 3 * n, n) else old(stk)
    {
      if n < 1 { return false; }
      ok := RotateUp(3 * n - 1, n);
    }

    /** SwapN: the top n items change places with the n below. */
    method SwapN(n: int) returns (ok: bool)
      modifies this`stk
      ensures ok == (1 <= n && 2 * n <= |old(stk)|)
      ensures stk == if ok then Rotated(old(stk), 2 * n, n) else old(stk)
    {
      if n < 1 { return false; }
      ok := RotateUp(2 * n - 1, n);
    }

    /** The loop of RotN and SwapN: nip a fixed depth and push, count times. */
    method RotateUp(entry: nat, count: nat) returns (ok: bool)
      requires 1 <= count <= entry + 1
      modifies this`stk
      ensures ok == (entry < |old(stk)|)
      ensures stk == if ok then Rotated(old(stk), entry + 1, count) else old(stk)
    {
      hide Rotated, Without;
      var i := count;
      if entry < |stk| { RotateNone(stk, entry + 1); }
      while i > 0
        invariant 0 <= i <= count
        invariant i < count ==> entry < |old(stk)|
        invariant stk == if entry < |old(stk)| then Rotated(old(stk), entry + 1, count - i) else old(stk)
      {
        if entry < |old(stk)| { RotateOne(old(stk), entry + 1, count - i); }
        var so := NipN(entry);
        if so.Err? { return false; }
        PushByteArray(so.value);
        i := i - 1;
      }
      return true;
    }

    method Tuck() returns (ok: bool)
      modifies this`stk
      ensures ok == (2 <= |old(stk)|)
      ensures ok ==> var n := |old(stk)|;
                     stk == old(stk)[..n - 2] + [old(stk)[n - 1], old(stk)[n - 2], old(stk)[n - 1]]
    {
      var so2 := PopByteArray();
      if so2.Err? { return false; }
      var so1 := PopByteArray();
      if so1.Err? { return false; }
      PushByteArray(so2.value);
      PushByteArray(so1.value);
      PushByteArray(so2.value);
      return true;
    }

    method PickN(n: int) returns (ok: bool)
      modifies this`stk
      ensures ok == (0 <= n < |old(stk)|)
      ensures stk == if ok then Copied(old(stk), n + 1, 1) else old(stk)
    {
      var so := PeekByteArray(n);
      if so.Err? { return false; }
      PushByteArray(so.value);
      return true;
    }

    method RollN(n: int) returns (ok: bool)
      modifies this`stk
      ensures ok == (0 <= n < |old(stk)|)
      ensures stk == if ok then Rotated(old(stk), n + 1, 1) else old(stk)
    {
      if 0 <= n < |stk| {
        RotateNone(stk, n + 1);
        RotateOne(stk, n + 1, 0);
      }
      var so := NipN(n);
      if so.Err? { return false; }
      PushByteArray(so.value);
      return true;
    }
  }

  /** Block moves only rearrange: what is on the stack afterwards was there before. */
  lemma RotatedIsPermutation(s: Items, m: nat, k: nat)
    requires k <= m <= |s|
    ensures multiset(Rotated(s, m, k)) == multiset(s)
  {
    var base := |s| - m;
    assert s == s[..base] + s[base..base + k] + s[base + k..];
  }

  /** Swapping the same two blocks back restores the stack. */
  lemma SwapTwice(s: Items, n: nat)
    requires 2 * n <= |s|
    ensures Rotated(Rotated(s, 2 * n, n), 2 * n, n) == s
  {
    var base := |s| - 2 * n;
    var r := Rotated(s, 2 * n, n);
    assert r[..base] == s[..base];
    assert r[base..base + n] == s[base + n..];
    assert r[base + n..] == s[base..base + n];
  }
}
