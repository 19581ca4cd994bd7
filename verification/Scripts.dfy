/** ScriptTokenizer (tokenizer.go) and the script scans built on it (script.go). */
module Scripts {
  import opened Bytes
  import opened Tokens

  const OP_16: Byte := 96
  const OP_CODESEPARATOR: Byte := 171

  /** The tokenizer's cursor; offset, opcodePos, op, data and err change with every Next. */
  class ScriptTokenizer {
    const script: Octets
    var offset: nat
    var opcodePos: int
    var op: Byte
    var data: Octets
    var failed: bool

    /** The cursor stands before the i-th token of the script; failed only where no token starts. */
    ghost predicate At(i: nat)
      reads this
    {
      && |script| < MAX_SCRIPT
      && BoundaryAt(script, offset, i)
      && offset <= |script|
      && opcodePos == i - (if failed then 0 else 1)
      && (failed ==> i == |TokensOf(script)| && !Parses(script))
    }

    constructor (s: Octets)
      requires |s| < MAX_SCRIPT
      ensures script == s && At(0) && !failed && offset == 0
    {
      script := s;
      offset, opcodePos, op, data, failed := 0, -1, 0, [], false;
      StartBoundary(s);
    }

    predicate Done()
      reads this
    {
      failed || offset >= |script|
    }

    /**
     * Next: on success the i-th token was read and the cursor is before the next one; on failure
     * every token of the script had been read, and err is set exactly when bytes remain.
     */
    method Next(ghost i: nat) returns (more: bool)
      requires At(i)
      modifies this
      ensures more ==>
                && i < |TokensOf(script)| && TokensOf(script)[i] == Token(op, data)
                && At(i + 1) && !failed
                && offset == old(offset) + |Raw(Token(op, data))|
      ensures !more ==>
                && i == |TokensOf(script)| && At(i) && Done()
                && op == old(op) && data == old(data) && offset == old(offset)
                && (failed <==> !Parses(script))
    {
      hide TokensOf, TailOf, BoundaryAt, Render, LE, FromLE, Pow256;
      if Done() {
        EndOfTokens(script, offset, i, failed);
        return false;
      }
      NextBoundary(script, offset, i);
      opcodePos := opcodePos + 1;
      var o := script[offset];
      var rest := script[offset..];
      assert rest[0] == o;
      if !CarriesData(o) {
        offset, op, data := offset + 1, o, [];
        return true;
      } else if o < OP_PUSHDATA1 {
        if |rest| < o + 1 {
          failed := true;
          return false;
        }
        HeadIsPrefix(rest);
        offset, op, data := offset + o + 1, o, rest[1..o + 1];
        return true;
      } else {
        var k := LengthField(o);
        if |rest| - 1 < k {
          failed := true;
          return false;
        }
        var n := FromLE(rest[1..k + 1]);
        // A four-byte length of 2^31 or more turns negative as an int32.
        var dataLen := if n >= MAX_SCRIPT then n - 0x1_0000_0000 else n;
        LengthFits(rest[1..k + 1]);
        if dataLen > |rest| - 1 - k || dataLen < 0 {
          failed := true;
          return false;
        }
        HeadIsPrefix(rest);
        offset, op, data := offset + 1 + k + dataLen, o, rest[k + 1..k + 1 + dataLen];
        return true;
      }
    }
  }

  lemma LengthFits(field: Octets)
    requires |field| <= 4
    ensures FromLE(field) < 0x1_0000_0000
  {
    PowValues();
    assert Pow256(3) == 0x100_0000 && Pow256(0) == 1;
  }

  lemma EndOfTokens(s: Octets, p: nat, i: nat, failed: bool)
    requires BoundaryAt(s, p, i) && p <= |s|
    requires failed || p == |s|
    requires failed ==> i == |TokensOf(s)| && !Parses(s)
    ensures i == |TokensOf(s)|
    ensures failed <==> !Parses(s)
  {
    FromBoundary(s, p, i);
    if p == |s| {
      assert s[p..] == [];
      assert TokensOf(s)[i..] == [];
    }
  }

  // ----- scans

  /** checkScriptParses. */
  method CheckScriptParses(script: Octets) returns (ok: bool)
    requires |script| < MAX_SCRIPT
    ensures ok == Parses(script)
  {
    var tokenizer := new ScriptTokenizer(script);
    ghost var i: nat := 0;
    var more := true;
    while more
      invariant more ==> tokenizer.At(i)
      invariant !more ==> tokenizer.failed == !Parses(script)
      invariant i <= |TokensOf(script)|
      decreases |TokensOf(script)| - i, more
    {
      more := tokenizer.Next(i);
      if more { i := i + 1; }
    }
    return !tokenizer.failed;
  }

  predicate AllPushes(ts: seq<Token>) { forall t :: t in ts ==> t.op <= OP_16 }

  /** IsPushOnlyScript. */
  method IsPushOnlyScript(script: Octets) returns (ok: bool)
    requires |script| < MAX_SCRIPT
    ensures ok == (Parses(script) && AllPushes(TokensOf(script)))
  {
    hide TokensOf, TailOf, BoundaryAt, Raw, AllPushes;
    var tokenizer := new ScriptTokenizer(script);
    ghost var ts := TokensOf(script);
    ghost var i: nat := 0;
    var more := true;
    NoPushes(ts);
    while more
      invariant i <= |ts|
      invariant more ==> tokenizer.At(i)
      invariant !more ==> i == |ts| && tokenizer.failed == !Parses(script)
      invariant AllPushes(ts[..i])
      decreases |ts| - i, more
    {
      more := tokenizer.Next(i);
      if more {
        PushesStep(ts, i);
        if tokenizer.op > OP_16 { return false; }
        i := i + 1;
      }
    }
    assert ts[..i] == ts;
    return !tokenizer.failed;
  }

  lemma NoPushes(ts: seq<Token>)
    ensures AllPushes(ts[..0])
  {
  }

  lemma PushesStep(ts: seq<Token>, i: nat)
    requires i < |ts|
    ensures AllPushes(ts[..i + 1]) <==> AllPushes(ts[..i]) && ts[i].op <= OP_16
    ensures ts[i].op > OP_16 ==> !AllPushes(ts)
  {
    assert ts[..i + 1] == ts[..i] + [ts[i]];
    assert ts[i] in ts;
  }

  // ----- removal of opcodes

  /** The tokens that do not match, in order. */
  function Keep(ts: seq<Token>, drop: Token -> bool): seq<Token> {
    if ts == [] then []
    else (if drop(ts[0]) then [] else [ts[0]]) + Keep(ts[1..], drop)
  }

  predicate Any(ts: seq<Token>, drop: Token -> bool) { exists t :: t in ts && drop(t) }

  lemma {:induction false} KeepSnoc(ts: seq<Token>, t: Token, drop: Token -> bool)
    ensures Keep(ts + [t], drop) == Keep(ts, drop) + (if drop(t) then [] else [t])
  {
    if ts == [] {
      assert ts + [t] == [t] && [t][1..] == [];
    } else {
      KeepSnoc(ts[1..], t, drop);
      assert (ts + [t])[1..] == ts[1..] + [t];
    }
  }

  lemma {:induction false} KeepAll(ts: seq<Token>, drop: Token -> bool)
    requires !Any(ts, drop)
    ensures Keep(ts, drop) == ts
  {
    if ts != [] {
      assert ts[0] in ts;
      assert forall t :: t in ts[1..] ==> t in ts;
      KeepAll(ts[1..], drop);
    }
  }

  lemma {:induction false} KeepSubset(ts: seq<Token>, drop: Token -> bool)
    ensures forall t :: t in Keep(ts, drop) <==> t in ts && !drop(t)
  {
    if ts != [] {
      KeepSubset(ts[1..], drop);
      assert ts == [ts[0]] + ts[1..];
    }
  }

  /**
   * What the removal loops return. A script that does not parse keeps its unreadable tail only
   * when nothing was removed.
   */
  function Removed(script: Octets, drop: Token -> bool): Octets {
    if Any(TokensOf(script), drop) then Render(Keep(TokensOf(script), drop)) else script
  }

  /** On scripts that parse, removal is exactly filtering of the token sequence. */
  lemma RemovalIsFiltering(script: Octets, drop: Token -> bool)
    requires Parses(script)
    ensures Parses(Removed(script, drop))
    ensures TokensOf(Removed(script, drop)) == Keep(TokensOf(script), drop)
  {
    var ts := TokensOf(script);
    RenderOfTokens(script);
    KeepSubset(ts, drop);
    if Any(ts, drop) {
      RenderParses(Keep(ts, drop));
    } else {
      KeepAll(ts, drop);
    }
  }

  /** The loop shared by removeOpcodeRaw and removeOpcodeByData. */
  method RemoveMatching(script: Octets, drop: Token -> bool) returns (r: Octets)
    requires |script| < MAX_SCRIPT
    ensures r == Removed(script, drop)
  {
    hide TokensOf, TailOf, Render, Raw, Keep, Any;
    if |script| == 0 {
      NothingRemoved(script, drop);
      return script;
    }
    var result: Octets, found := [], false;
    var prevOffset: nat := 0;
    var tokenizer := new ScriptTokenizer(script);
    ghost var ts := TokensOf(script);
    ghost var i: nat := 0;
    var more := true;
    NoneMatch(ts, drop);
    while more
      invariant i <= |ts|
      invariant more ==> tokenizer.At(i) && prevOffset == tokenizer.offset
      invariant !more ==> i == |ts|
      invariant found == Any(ts[..i], drop)
      invariant found ==> result == Render(Keep(ts[..i], drop))
      invariant BoundaryAt(script, prevOffset, i)
      decreases |ts| - i, more
    {
      more := tokenizer.Next(i);
      if more {
        var t := Token(tokenizer.op, tokenizer.data);
        TokenBytes(script, prevOffset, i, t);
        assert ts[..i + 1] == ts[..i] + [t];
        RemovalStep(ts[..i], t, drop);
        if drop(t) {
          if !found {
            result, found := script[..prevOffset], true;
          }
        } else if found {
          result := result + script[prevOffset..tokenizer.offset];
        }
        prevOffset := tokenizer.offset;
        i := i + 1;
      }
    }
    assert ts[..i] == ts;
    return if found then result else script;
  }

  lemma NothingRemoved(script: Octets, drop: Token -> bool)
    requires script == []
    ensures Removed(script, drop) == script
  {
    assert TokensOf(script) == [];
  }

  lemma NoneMatch(ts: seq<Token>, drop: Token -> bool)
    ensures !Any(ts[..0], drop)
  {
  }

  /** The bytes of the i-th token, and everything before them. */
  lemma TokenBytes(script: Octets, p: nat, i: nat, t: Token)
    requires BoundaryAt(script, p, i) && i < |TokensOf(script)| && TokensOf(script)[i] == t
    ensures p + |Raw(t)| <= |script| && script[p..p + |Raw(t)|] == Raw(t)
    ensures Render(TokensOf(script)[..i]) == script[..p]
  {
    var ts, tail := TokensOf(script), TailOf(script);
    assert p == |Render(ts[..i])|;
    hide *;
    RenderOfTokens(script);
    RenderSplit(ts, i, tail);
    var more := ts[i + 1..];
    assert ts[i..] == [t] + more;
    RenderCons(t, more);
    Middle(Render(ts[..i]), Raw(t), Render(more), tail);
  }

  /** One more token: what is kept so far grows by its bytes unless it matches. */
  lemma RemovalStep(front: seq<Token>, t: Token, drop: Token -> bool)
    ensures Any(front + [t], drop) == (Any(front, drop) || drop(t))
    ensures Render(Keep(front + [t], drop)) == Render(Keep(front, drop)) + (if drop(t) then [] else Raw(t))
    ensures !Any(front, drop) ==> Keep(front, drop) == front
  {
    hide Render, Raw, Keep;
    KeepSnoc(front, t, drop);
    if drop(t) {
      assert Keep(front, drop) + [] == Keep(front, drop);
    } else {
      RenderSnoc(Keep(front, drop), t);
    }
    if !Any(front, drop) { KeepAll(front, drop); }
    AnySnoc(front, t, drop);
  }

  lemma AnySnoc(ts: seq<Token>, t: Token, drop: Token -> bool)
    ensures Any(ts + [t], drop) == (Any(ts, drop) || drop(t))
  {
    if drop(t) { assert t in ts + [t]; }
    if Any(ts, drop) {
      var u :| u in ts && drop(u);
      assert u in ts + [t];
    }
  }

  lemma Middle(a: Octets, b: Octets, c: Octets, d: Octets)
    ensures var s := a + ((b + c) + d);
            |a| + |b| <= |s| && s[..|a|] == a && s[|a|..|a| + |b|] == b
  {
  }

  function IsOp(opcode: Byte): Token -> bool { (t: Token) => t.op == opcode }

  /** removeOpcodeRaw. */
  method RemoveOpcodeRaw(script: Octets, opcode: Byte) returns (r: Octets)
    requires |script| < MAX_SCRIPT
    ensures r == Removed(script, IsOp(opcode))
  {
    r := RemoveMatching(script, IsOp(opcode));
  }

  /** isCanonicalPush. */
  predicate IsCanonicalPush(op: Byte, data: Octets) {
    if op > OP_16 then true
    else if op < OP_PUSHDATA1 && op > 0 && |data| == 1 && data[0] <= 16 then false
    else if op == OP_PUSHDATA1 && |data| < OP_PUSHDATA1 then false
    else if op == OP_PUSHDATA2 && |data| <= 0xff then false
    else if op == OP_PUSHDATA4 && |data| <= 0xffff then false
    else true
  }

  predicate OccursAt(data: Octets, part: Octets, k: nat) {
    k + |part| <= |data| && data[k..k + |part|] == part
  }

  /** bytes.Contains. */
  predicate Contains(data: Octets, part: Octets) {
    exists k :: 0 <= k <= |data| && OccursAt(data, part, k)
  }

  function HoldsData(part: Octets): Token -> bool {
    (t: Token) => IsCanonicalPush(t.op, t.data) && Contains(t.data, part)
  }

  /** What removeOpcodeByData returns. */
  function RemovedByData(script: Octets, part: Octets): Octets {
    if part == [] then script else Removed(script, HoldsData(part))
  }

  /** removeOpcodeByData. */
  method RemoveOpcodeByData(script: Octets, part: Octets) returns (r: Octets)
    requires |script| < MAX_SCRIPT
    ensures r == RemovedByData(script, part)
    ensures Parses(script) && part != [] ==>
              Parses(r) && TokensOf(r) == Keep(TokensOf(script), HoldsData(part))
  {
    if |part| == 0 { return script; }
    r := RemoveMatching(script, HoldsData(part));
    if Parses(script) { RemovalIsFiltering(script, HoldsData(part)); }
  }

  /** Data longer than every push of the script removes nothing. */
  lemma LongDataRemovesNothing(script: Octets, part: Octets)
    requires forall t :: t in TokensOf(script) ==> |t.data| < |part|
    ensures RemovedByData(script, part) == script
  {
  }

  /**
   * Which tokens removal by data drops: pushes that hold the data somewhere and are not longer than
   * they need to be. Of one byte up to 16 only the small-integer opcode counts as short enough.
   */
  lemma DropsTokens(script: Octets, part: Octets, t: Token)
    requires Parses(script) && part != []
    ensures t in TokensOf(RemovedByData(script, part)) <==>
            && t in TokensOf(script)
            && ((forall a: Octets, b: Octets :: t.data != a + part + b)
                || (1 <= t.op <= 75 && |t.data| == 1 && t.data[0] <= 16)
                || (t.op == 76 && |t.data| <= 75)
                || (t.op == 77 && |t.data| <= 255)
                || (t.op == 78 && |t.data| <= 65535))
  {
    hide TokensOf, Removed, Parses;
    RemovalIsFiltering(script, HoldsData(part));
    KeepSubset(TokensOf(script), HoldsData(part));
    ContainsIff(t.data, part);
  }

  lemma ContainsIff(data: Octets, part: Octets)
    ensures Contains(data, part) <==> exists a: Octets, b: Octets :: data == a + part + b
  {
    if Contains(data, part) {
      var k :| 0 <= k <= |data| && OccursAt(data, part, k);
      assert data == data[..k] + part + data[k + |part|..];
    }
    if exists a: Octets, b: Octets :: data == a + part + b {
      var a: Octets, b: Octets :| data == a + part + b;
      assert OccursAt(data, part, |a|);
    }
  }
}
