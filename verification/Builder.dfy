/** The script builder (scriptbuilder.go), and what the engine makes of the pushes it writes. */
module Builder {
  import opened Bytes
  import opened ScriptErrors
  import opened Tokens
  import opened Stack
  import opened ScriptNum
  import opened Opcodes
  import opened Engine
  import opened EngineMeaning
  import opened PayToScriptHash

  /** The token that pushes the data most compactly. */
  function PushToken(data: Octets): Token {
    var n := |data|;
    if n == 0 || (n == 1 && data[0] == 0) then Token(0, [])
    else if n == 1 && data[0] <= 16 then Token(80 + data[0], [])
    else if n == 1 && data[0] == 0x81 then Token(79, [])
    else if n < OP_PUSHDATA1 then Token(n, data)
    else if n <= 0xff then Token(OP_PUSHDATA1, data)
    else if n <= 0xffff then Token(OP_PUSHDATA2, data)
    else Token(OP_PUSHDATA4, data)
  }

  /** canonicalDataSize. */
  function CanonicalDataSize(data: Octets): nat {
    var n := |data|;
    if n == 0 then 1
    else if n == 1 && data[0] <= 16 then 1
    else if n == 1 && data[0] == 0x81 then 1
    else if n < OP_PUSHDATA1 then 1 + n
    else if n <= 0xff then 2 + n
    else if n <= 0xffff then 3 + n
    else 5 + n
  }

  /** What executing the push of data leaves: only the single byte zero changes. */
  function Normal(data: Octets): Octets { if data == [0] then [] else data }

  lemma SmallNums(k: int)
    requires -1 <= k <= 16
    ensures NumBytes(k) == if k == 0 then [] else if k == -1 then [0x81] else [k]
  {
    if k != 0 {
      assert Magnitude(Abs(k)) == [Abs(k)] by { assert Magnitude(Abs(k) / 256) == []; }
    }
  }

  /** A push token means its data, is minimal, and takes exactly the predicted bytes. */
  lemma PushTokenMeans(data: Octets)
    requires |data| < MAX_SCRIPT
    ensures var t := PushToken(data);
            && WellFormed(t) && IsPush(t.op) && |t.data| <= |data|
            && PushedItem(t.op, t.data) == Normal(data)
            && (t.op <= OP_PUSHDATA4 ==> MinimalPush(t.op, t.data))
            && |Raw(t)| == CanonicalDataSize(data)
  {
    hide NumBytes, LE;
    PowValues();
    if |data| == 1 && data[0] <= 16 { SmallNums(data[0]); }
    SmallNums(-1);
  }

  // ----- what minimal means

  lemma RawSize(t: Token)
    requires WellFormed(t)
    ensures |Raw(t)| == if !CarriesData(t.op) then 1
                        else if t.op < OP_PUSHDATA1 then 1 + |t.data|
                        else 1 + LengthField(t.op) + |t.data|
  {
    hide LE;
  }

  /** t takes no more bytes than any other push of the same item. */
  ghost predicate Shortest(t: Token)
    requires IsPush(t.op)
  {
    forall u :: WellFormed(u) && IsPush(u.op) && PushedItem(u.op, u.data) == PushedItem(t.op, t.data) ==>
      |Raw(t)| <= |Raw(u)|
  }

  lemma MinimalNotLonger(t: Token, u: Token)
    requires WellFormed(t) && WellFormed(u) && t.op <= OP_PUSHDATA4 && IsPush(u.op) && MinimalPush(t.op, t.data)
    requires PushedItem(u.op, u.data) == PushedItem(t.op, t.data)
    ensures |Raw(t)| <= |Raw(u)|
  {
    hide Raw, NumBytes;
    PowValues();
    RawSize(t);
    RawSize(u);
    if u.op > OP_PUSHDATA4 { SmallNums(u.op - 80); }
  }

  lemma ShorterExists(t: Token)
    requires WellFormed(t) && t.op <= OP_PUSHDATA4 && !MinimalPush(t.op, t.data)
    ensures !Shortest(t)
  {
    hide NumBytes, LE, Shortest;
    PowValues();
    var u := if t.data == [0] then Token(1, [0]) else PushToken(t.data);
    if t.data != [0] { PushTokenMeans(t.data); }
    RawSize(t);
    RawSize(u);
    NotShortest(t, u);
  }

  lemma NotShortest(t: Token, u: Token)
    requires IsPush(t.op) && WellFormed(u) && IsPush(u.op)
    requires PushedItem(u.op, u.data) == PushedItem(t.op, t.data) && |Raw(u)| < |Raw(t)|
    ensures !Shortest(t)
  {
    hide Raw, PushedItem;
  }

  /** checkMinimalDataPush accepts exactly the pushes that no other push of the same item undercuts. */
  lemma MinimalIffShortest(t: Token)
    requires WellFormed(t) && t.op <= OP_PUSHDATA4
    ensures MinimalPush(t.op, t.data) <==> Shortest(t)
  {
    hide MinimalPush, Raw, PushedItem, WellFormed;
    if MinimalPush(t.op, t.data) {
      forall u | WellFormed(u) && IsPush(u.op) && PushedItem(u.op, u.data) == PushedItem(t.op, t.data)
        ensures |Raw(t)| <= |Raw(u)|
      {
        MinimalNotLonger(t, u);
      }
    } else {
      ShorterExists(t);
    }
  }

  // ----- lists of pushes

  function PushTokens(items: seq<Octets>): seq<Token> {
    if items == [] then [] else [PushToken(items[0])] + PushTokens(items[1..])
  }

  function Normals(items: seq<Octets>): Items {
    if items == [] then [] else [Normal(items[0])] + Normals(items[1..])
  }

  function TotalSize(items: seq<Octets>): nat {
    if items == [] then 0 else CanonicalDataSize(items[0]) + TotalSize(items[1..])
  }

  lemma {:induction false} PushTokensMean(env: Env, items: seq<Octets>)
    requires Small(items)
    ensures var ts := PushTokens(items);
            && |ts| == |items| && AllWellFormed(ts) && (forall t :: t in ts ==> IsPush(t.op))
            && (forall t :: t in ts ==> PushOk(env, t))
            && Pushed(ts) == Normals(items) && |Render(ts)| == TotalSize(items)
  {
    hide WellFormed, PushedItem, MinimalPush, Raw, PushToken, CanonicalDataSize, Normal;
    if items != [] {
      assert items[0] in items;
      SmallSub(items, items[1..]);
      PushTokenMeans(items[0]);
      PushTokensMean(env, items[1..]);
      RenderCons(PushToken(items[0]), PushTokens(items[1..]));
      assert PushTokens(items)[1..] == PushTokens(items[1..]);
    }
  }

  /** The script for a list of data items. */
  function Built(items: seq<Octets>): Octets { Render(PushTokens(items)) }

  /** Items the builder takes: each within the element limit, together within the script limit. */
  ghost predicate Buildable(items: seq<Octets>) { Small(items) && TotalSize(items) <= MAX_SCRIPT_SIZE }

  /** The builder would take one more item. */
  predicate Takes(items: seq<Octets>, x: Octets) {
    |x| <= MAX_ELEMENT_SIZE && TotalSize(items) + CanonicalDataSize(x) <= MAX_SCRIPT_SIZE
  }

  /** The items before the first refusal: nothing is written after it. */
  function Accepted(items: seq<Octets>): seq<Octets> {
    if items == [] then []
    else
      var k := |items| - 1;
      var front := Accepted(items[..k]);
      if front == items[..k] && Takes(front, items[k]) then items else front
  }

  /** What is accepted is a buildable prefix, and it is everything exactly when everything is buildable. */
  lemma {:induction false} AcceptedPrefix(items: seq<Octets>)
    ensures Accepted(items) <= items && Buildable(Accepted(items))
    ensures Accepted(items) == items <==> Buildable(items)
  {
    hide Buildable, Takes;
    if items == [] {
      EmptyBuildable();
    } else {
      var k := |items| - 1;
      AcceptedPrefix(items[..k]);
      assert items == items[..k] + [items[k]];
      BuildableSnoc(items[..k], items[k]);
    }
  }

  lemma EmptyBuildable()
    ensures Buildable([])
  {
  }

  lemma BuildableSmall(items: seq<Octets>)
    requires Buildable(items)
    ensures Small(items)
  {
  }

  lemma BuildableSnoc(items: seq<Octets>, x: Octets)
    ensures Buildable(items + [x]) <==> Buildable(items) && Takes(items, x)
  {
    hide Built;
    BuiltSnoc(items, x);
  }

  /** The state of a builder that was given the items one after another. */
  ghost predicate Wrote(script: Octets, failed: bool, items: seq<Octets>) {
    script == Built(Accepted(items)) && (failed <==> !Buildable(items))
  }

  lemma AcceptedSnoc(items: seq<Octets>, x: Octets)
    ensures Accepted(items + [x]) == if Buildable(items + [x]) then items + [x] else Accepted(items)
  {
    hide Buildable, Takes;
    assert (items + [x])[..|items|] == items;
    AcceptedPrefix(items);
    BuildableSnoc(items, x);
  }

  lemma WroteNothing()
    ensures Wrote([], false, [])
  {
    BuiltSnocEmpty();
    EmptyBuildable();
  }

  /** One AddData, seen from the items given so far. */
  lemma WroteMore(script: Octets, failed: bool, items: seq<Octets>, x: Octets, script': Octets, failed': bool)
    requires Wrote(script, failed, items)
    requires failed' == (failed || |script| + CanonicalDataSize(x) > MAX_SCRIPT_SIZE || |x| > MAX_ELEMENT_SIZE)
    requires script' == if failed' then script else script + Raw(PushToken(x))
    ensures Wrote(script', failed', items + [x])
  {
    hide Built, Accepted, Buildable, PushToken, Raw, CanonicalDataSize;
    AcceptedPrefix(items);
    AcceptedSnoc(items, x);
    BuildableSnoc(items, x);
    BuiltSnoc(items, x);
    if !failed {
      BuildableSmall(items);
      BuiltSize(items);
    }
  }

  lemma {:induction false} BuiltSize(items: seq<Octets>)
    requires Small(items)
    ensures |Built(items)| == TotalSize(items)
  {
    hide PushToken, CanonicalDataSize, Raw;
    if items == [] {
      BuiltSnocEmpty();
    } else {
      var k := |items| - 1;
      SmallSub(items, items[..k]);
      assert items == items[..k] + [items[k]] && items[k] in items;
      BuiltSize(items[..k]);
      BuiltSnoc(items[..k], items[k]);
    }
  }

  /** A builder that refused something returns a shorter script. */
  lemma FullScriptIff(items: seq<Octets>)
    ensures Built(Accepted(items)) == Built(items) <==> Buildable(items)
  {
    hide Built, Buildable;
    AcceptedPrefix(items);
    var n := |Accepted(items)|;
    if Accepted(items) != items {
      assert items == Accepted(items) + items[n..];
      BuiltGrows(Accepted(items), items[n..]);
    }
  }

  lemma {:induction false} BuiltGrows(a: seq<Octets>, b: seq<Octets>)
    requires b != []
    ensures |Built(a + b)| > |Built(a)|
  {
    hide Built, Raw;
    var k := |b| - 1;
    assert a + b == (a + b[..k]) + [b[k]];
    BuiltSnoc(a + b[..k], b[k]);
    if k > 0 { BuiltGrows(a, b[..k]); } else { assert a + b[..k] == a; }
  }

  /**
   * Tokenizing what was built gives one push per item, all minimal; executing it pushes the items
   * in order, with the single byte zero turned into the empty item.
   */
  lemma BuiltPushes(env: Env, items: seq<Octets>, d: Items)
    requires Buildable(items) && |d| <= MAX_STACK_SIZE
    ensures Parses(Built(items)) && TokensOf(Built(items)) == PushTokens(items) && |Built(items)| == TotalSize(items)
    ensures forall t :: t in PushTokens(items) && t.op <= OP_PUSHDATA4 ==> MinimalPush(t.op, t.data)
    ensures Eval(env, Built(items), d).Ok? <==> |d| + |items| <= MAX_STACK_SIZE
    ensures |d| + |items| <= MAX_STACK_SIZE ==> Eval(env, Built(items), d) == Ok(d + Normals(items))
  {
    hide TokensOf, TailOf, RunTokens, PushTokens, Normals, Pushed, MinimalPush, Render;
    PushTokensMean(env, items);
    RenderParses(PushTokens(items));
    RunPushes(env, Start(Built(items), d), PushTokens(items));
    PushTokensMinimal(items);
  }

  lemma BuiltPushOnly(env: Env, items: seq<Octets>)
    requires Buildable(items)
    ensures IsPushOnly(Built(items))
  {
    hide TokensOf, TailOf, PushTokens, Normals, Pushed, PushOk, Render;
    PushTokensMean(env, items);
    RenderParses(PushTokens(items));
  }

  lemma PushOnlyParses(s: Octets)
    requires IsPushOnly(s)
    ensures Parses(s)
  {
  }

  lemma {:induction false} PushTokensMinimal(items: seq<Octets>)
    requires Small(items)
    ensures forall t :: t in PushTokens(items) && t.op <= OP_PUSHDATA4 ==> MinimalPush(t.op, t.data)
  {
    hide MinimalPush, PushToken, WellFormed, PushedItem, Raw;
    if items != [] {
      assert items[0] in items;
      PushTokenMeans(items[0]);
      SmallSub(items, items[1..]);
      PushTokensMinimal(items[1..]);
    }
  }

  // ----- integers

  /** What AddInt64 appends. */
  function IntToken(val: int): Token {
    if val == 0 then Token(0, [])
    else if val == -1 || 1 <= val <= 16 then Token(80 + val, [])
    else PushToken(NumBytes(val))
  }

  /** Executing what AddInt64 appends pushes the minimal encoding of the integer. */
  lemma IntTokenMeans(val: int)
    requires -0x8000_0000_0000_0000 < val <= 0x7fff_ffff_ffff_ffff
    ensures var t := IntToken(val);
            && WellFormed(t) && IsPush(t.op) && PushedItem(t.op, t.data) == NumBytes(val)
            && (t.op <= OP_PUSHDATA4 ==> MinimalPush(t.op, t.data))
  {
    hide PushToken, NumBytes, Raw;
    Int64Fits(val);
    PushTokenMeans(NumBytes(val));
    BytesAreMinimal(val);
    if -1 <= val <= 16 { SmallNums(val); }
  }

  // ----- the builder object

  class ScriptBuilder {
    var script: Octets
    var failed: bool

    constructor ()
      ensures script == [] && !failed
    {
      script, failed := [], false;
    }

    method AddOp(opcode: Byte)
      modifies this
      ensures failed == (old(failed) || |old(script)| + 1 > MAX_SCRIPT_SIZE)
      ensures script == if failed then old(script) else old(script) + [opcode]
    {
      if failed { return; }
      if |script| + 1 > MAX_SCRIPT_SIZE {
        failed := true;
        return;
      }
      script := script + [opcode];
    }

    method AddOps(opcodes: Octets)
      modifies this
      ensures failed == (old(failed) || |old(script)| + |opcodes| > MAX_SCRIPT_SIZE)
      ensures script == if failed then old(script) else old(script) + opcodes
    {
      if failed { return; }
      if |script| + |opcodes| > MAX_SCRIPT_SIZE {
        failed := true;
        return;
      }
      script := script + opcodes;
    }

    /** addData: the bytes appended are those of the compact push token. */
    method AddDataUnchecked(data: Octets)
      requires |data| < MAX_SCRIPT
      modifies this`script
      ensures script == old(script) + Raw(PushToken(data))
    {
      var dataLen := |data|;
      if dataLen == 0 || (dataLen == 1 && data[0] == 0) {
        script := script + [0];
        return;
      } else if dataLen == 1 && data[0] <= 16 {
        script := script + [80 + data[0]];
        return;
      } else if dataLen == 1 && data[0] == 0x81 {
        script := script + [79];
        return;
      }
      if dataLen < OP_PUSHDATA1 {
        script := script + [dataLen];
      } else if dataLen <= 0xff {
        OneByteLength(dataLen);
        script := script + [OP_PUSHDATA1, dataLen];
      } else if dataLen <= 0xffff {
        script := script + [OP_PUSHDATA2];
        script := script + LE(dataLen, 2);
      } else {
        script := script + [OP_PUSHDATA4];
        script := script + LE(dataLen, 4);
      }
      script := script + data;
      hide LE;
    }

    /** AddData: refuses what would break a limit, and then keeps the script as it was. */
    method AddData(data: Octets)
      modifies this
      ensures failed == (old(failed) || |old(script)| + CanonicalDataSize(data) > MAX_SCRIPT_SIZE
              || |data| > MAX_ELEMENT_SIZE)
      ensures script == if failed then old(script) else old(script) + Raw(PushToken(data))
    {
      hide PushToken, Raw;
      if failed { return; }
      if |script| + CanonicalDataSize(data) > MAX_SCRIPT_SIZE {
        failed := true;
        return;
      }
      if |data| > MAX_ELEMENT_SIZE {
        failed := true;
        return;
      }
      AddDataUnchecked(data);
    }

    method AddInt64(val: int)
      requires -0x8000_0000_0000_0000 < val <= 0x7fff_ffff_ffff_ffff
      modifies this
      ensures failed == (old(failed) || |old(script)| + |Raw(IntToken(val))| > MAX_SCRIPT_SIZE)
      ensures script == if failed then old(script) else old(script) + Raw(IntToken(val))
    {
      hide PushToken, NumBytes, LE;
      Int64Fits(val);
      PushTokenMeans(NumBytes(val));
      if failed { return; }
      if |script| + 1 > MAX_SCRIPT_SIZE {
        failed := true;
        return;
      }
      if val == 0 {
        script := script + [0];
        return;
      }
      if val == -1 || (val >= 1 && val <= 16) {
        script := script + [80 + val];
        return;
      }
      var b := Encode(val);
      AddData(b);
    }
  }

  lemma OneByteLength(n: nat)
    requires n <= 0xff
    ensures LE(n, 1) == [n]
  {
    assert LE(n / 256, 0) == [];
  }

  /** AddData over a list, as callers chain it; the script stops before the first item refused. */
  method BuildData(items: seq<Octets>) returns (script: Octets, ok: bool)
    ensures ok <==> Buildable(items)
    ensures script == Built(Accepted(items)) && (ok ==> script == Built(items))
  {
    hide PushToken, Raw, CanonicalDataSize, Built, Accepted, Buildable;
    var b := new ScriptBuilder();
    WroteNothing();
    for i := 0 to |items|
      invariant Wrote(b.script, b.failed, items[..i])
    {
      assert items[..i + 1] == items[..i] + [items[i]];
      ghost var script0, failed0 := b.script, b.failed;
      b.AddData(items[i]);
      WroteMore(script0, failed0, items[..i], items[i], b.script, b.failed);
    }
    assert items[..|items|] == items;
    AcceptedPrefix(items);
    return b.script, !b.failed;
  }

  lemma BuiltSnocEmpty()
    ensures Built([]) == [] && TotalSize([]) == 0
  {
  }

  lemma BuiltSnoc(items: seq<Octets>, x: Octets)
    ensures Built(items + [x]) == Built(items) + Raw(PushToken(x))
    ensures TotalSize(items + [x]) == TotalSize(items) + CanonicalDataSize(x)
    ensures Buildable(items + [x]) <==>
              Buildable(items) && |x| <= MAX_ELEMENT_SIZE && TotalSize(items) + CanonicalDataSize(x) <= MAX_SCRIPT_SIZE
    ensures |x| <= MAX_ELEMENT_SIZE ==> |Raw(PushToken(x))| == CanonicalDataSize(x)
  {
    hide PushToken, Raw, CanonicalDataSize, Render, WellFormed, PushedItem, MinimalPush;
    PushTokensSnoc(items, x);
    RenderSnoc(PushTokens(items), PushToken(x));
    if |x| <= MAX_ELEMENT_SIZE { PushTokenMeans(x); }
    assert x in items + [x];
    assert forall y :: y in items ==> y in items + [x];
  }

  lemma {:induction false} PushTokensSnoc(items: seq<Octets>, x: Octets)
    ensures PushTokens(items + [x]) == PushTokens(items) + [PushToken(x)]
    ensures TotalSize(items + [x]) == TotalSize(items) + CanonicalDataSize(x)
  {
    hide PushToken, CanonicalDataSize;
    if items == [] {
      assert items + [x] == [x] && [x][1..] == [];
    } else {
      PushTokensSnoc(items[1..], x);
      assert (items + [x])[1..] == items[1..] + [x];
    }
  }
}
