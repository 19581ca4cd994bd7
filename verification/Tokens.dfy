/** The token language of scripts: what ScriptTokenizer reads, and the bytes each token came from. */
module Tokens {
  import opened Bytes

  const OP_PUSHDATA1: Byte := 76
  const OP_PUSHDATA2: Byte := 77
  const OP_PUSHDATA4: Byte := 78

  /** Tokenizer offsets are int32 in the source. */
  const MAX_SCRIPT: nat := 0x8000_0000

  datatype Token = Token(op: Byte, data: Octets)

  /** Opcodes with an explicit length field, and the size of that field. */
  function LengthField(op: Byte): (k: nat)
    requires OP_PUSHDATA1 <= op <= OP_PUSHDATA4
  {
    if op == OP_PUSHDATA1 then 1 else if op == OP_PUSHDATA2 then 2 else 4
  }

  predicate CarriesData(op: Byte) { 0 < op <= OP_PUSHDATA4 }

  /** The opcode and payload sizes fit together. */
  predicate WellFormed(t: Token) {
    if !CarriesData(t.op) then t.data == []
    else if t.op < OP_PUSHDATA1 then |t.data| == t.op
    else |t.data| < Pow256(LengthField(t.op)) && |t.data| < MAX_SCRIPT
  }

  predicate AllWellFormed(ts: seq<Token>) { forall t :: t in ts ==> WellFormed(t) }

  /** The bytes of a token. */
  function Raw(t: Token): (s: Octets)
    ensures |s| > 0
  {
    if !CarriesData(t.op) then [t.op]
    else if t.op < OP_PUSHDATA1 then [t.op] + t.data
    else [t.op] + LE(|t.data|, LengthField(t.op)) + t.data
  }

  /** The bytes in numbers: pushes of up to 75 bytes, then length fields of one, two and four bytes. */
  lemma RawIs(t: Token)
    requires WellFormed(t)
    ensures 1 <= t.op <= 75 ==> Raw(t) == [t.op] + t.data && |t.data| == t.op
    ensures t.op == 76 ==> |t.data| < 256 && Raw(t) == [76, |t.data|] + t.data
    ensures t.op == 77 ==> |t.data| < 65536 && Raw(t) == [77, |t.data| % 256, |t.data| / 256] + t.data
    ensures t.op == 78 ==>
              Raw(t) == [78, |t.data| % 256, |t.data| / 256 % 256, |t.data| / 65536 % 256, |t.data| / 16777216 % 256]
                        + t.data
    ensures t.op == 0 || t.op > 78 ==> Raw(t) == [t.op] && t.data == []
  {
    PowValues();
    var n := |t.data|;
    Two(n);
    Four(n);
    if t.op == 76 { assert LE(n, 1) == [n % 256] + LE(n / 256, 0); }
    hide LE;
  }

  function Render(ts: seq<Token>): Octets {
    if ts == [] then [] else Raw(ts[0]) + Render(ts[1..])
  }

  /** The token at the head of s, when there is one. */
  function Head(s: Octets): Option<Token>
    requires s != []
  {
    var op := s[0];
    if !CarriesData(op) then Some(Token(op, []))
    else if op < OP_PUSHDATA1 then
      if |s| < op + 1 then None else Some(Token(op, s[1..op + 1]))
    else
      var k := LengthField(op);
      if |s| - 1 < k then None
      else
        var n := FromLE(s[1..k + 1]);
        if n >= MAX_SCRIPT || n > |s| - 1 - k then None
        else Some(Token(op, s[k + 1..k + 1 + n]))
  }

  lemma HeadIsPrefix(s: Octets)
    requires s != [] && Head(s).Some?
    ensures WellFormed(Head(s).value)
    ensures Raw(Head(s).value) <= s
  {
    var op := s[0];
    if OP_PUSHDATA1 <= op <= OP_PUSHDATA4 {
      LEofFromLE(s[1..LengthField(op) + 1]);
    }
  }

  lemma HeadOfRaw(t: Token, rest: Octets)
    requires WellFormed(t)
    ensures Head(Raw(t) + rest) == Some(t)
  {
    var s := Raw(t) + rest;
    if OP_PUSHDATA1 <= t.op <= OP_PUSHDATA4 {
      var k := LengthField(t.op);
      assert s[1..k + 1] == LE(|t.data|, k);
      FromLEofLE(|t.data|, k);
      assert s[k + 1..k + 1 + |t.data|] == t.data;
    } else if CarriesData(t.op) {
      assert s[1..t.op + 1] == t.data;
    }
  }

  // ----- whole scripts

  /** The tokens read before the first failure. */
  function TokensOf(s: Octets): seq<Token>
    decreases |s|
  {
    if s == [] || Head(s).None? then []
    else
      HeadIsPrefix(s);
      var t := Head(s).value;
      [t] + TokensOf(s[|Raw(t)|..])
  }

  /** The bytes left when tokenizing stops: empty exactly when the script parses. */
  function TailOf(s: Octets): Octets
    decreases |s|
  {
    if s == [] || Head(s).None? then s
    else
      HeadIsPrefix(s);
      TailOf(s[|Raw(Head(s).value)|..])
  }

  predicate Parses(s: Octets) { TailOf(s) == [] }

  /** The unfolding of both readings on the first token. */
  lemma TokensStep(s: Octets) returns (t: Token, rest: Octets)
    requires s != [] && Head(s).Some?
    ensures Head(s) == Some(t) && WellFormed(t)
    ensures s == Raw(t) + rest
    ensures TokensOf(s) == [t] + TokensOf(rest) && TailOf(s) == TailOf(rest)
    ensures |rest| < |s|
  {
    HeadIsPrefix(s);
    t := Head(s).value;
    rest := s[|Raw(t)|..];
  }

  lemma RenderCons(t: Token, ts: seq<Token>)
    ensures Render([t] + ts) == Raw(t) + Render(ts)
  {
    assert ([t] + ts)[1..] == ts;
  }

  /** Tokens and tail account for every byte. */
  lemma {:induction false} RenderOfTokens(s: Octets)
    ensures Render(TokensOf(s)) + TailOf(s) == s
    ensures AllWellFormed(TokensOf(s))
    decreases |s|
  {
    if s == [] || Head(s).None? {
    } else {
      var t, rest := TokensStep(s);
      hide *;
      RenderOfTokens(rest);
      RenderCons(t, TokensOf(rest));
      AllWellFormedCons(t, TokensOf(rest));
      Assoc(Raw(t), Render(TokensOf(rest)), TailOf(rest));
    }
  }

  lemma AllWellFormedCons(t: Token, ts: seq<Token>)
    requires WellFormed(t) && AllWellFormed(ts)
    ensures AllWellFormed([t] + ts)
  {
  }

  lemma TokensOfCons(t: Token, rest: Octets)
    requires WellFormed(t)
    ensures TokensOf(Raw(t) + rest) == [t] + TokensOf(rest)
    ensures TailOf(Raw(t) + rest) == TailOf(rest)
  {
    HeadOfRaw(t, rest);
    hide Raw, Head;
    DropPrefix(Raw(t), rest);
  }

  /** Tokenizing undoes rendering, and goes on with whatever follows. */
  lemma {:induction false} TokensOfRender(ts: seq<Token>, rest: Octets)
    requires AllWellFormed(ts)
    ensures TokensOf(Render(ts) + rest) == ts + TokensOf(rest)
    ensures TailOf(Render(ts) + rest) == TailOf(rest)
  {
    hide TokensOf, TailOf, Raw, WellFormed;
    if ts == [] {
      assert Render(ts) + rest == rest;
    } else {
      var more := Render(ts[1..]) + rest;
      Assoc(Raw(ts[0]), Render(ts[1..]), rest);
      TokensOfRender(ts[1..], rest);
      TokensOfCons(ts[0], more);
      assert ts == [ts[0]] + ts[1..];
    }
  }

  lemma RenderParses(ts: seq<Token>)
    requires AllWellFormed(ts)
    ensures Parses(Render(ts)) && TokensOf(Render(ts)) == ts
  {
    TokensOfRender(ts, []);
    assert Render(ts) + [] == Render(ts);
  }

  /** Scripts that parse and well-formed token lists correspond one to one. */
  lemma RenderOfParsed(s: Octets)
    requires Parses(s)
    ensures Render(TokensOf(s)) == s
  {
    RenderOfTokens(s);
  }

  lemma {:induction false} RenderAppend(a: seq<Token>, b: seq<Token>)
    ensures Render(a + b) == Render(a) + Render(b)
  {
    if a == [] {
      assert a + b == b;
    } else {
      RenderAppend(a[1..], b);
      assert (a + b)[1..] == a[1..] + b;
      Assoc(Raw(a[0]), Render(a[1..]), Render(b));
    }
  }

  // ----- token boundaries

  /** p is the offset of the i-th token of s (or the end). */
  ghost predicate BoundaryAt(s: Octets, p: nat, i: nat) {
    i <= |TokensOf(s)| && p == |Render(TokensOf(s)[..i])|
  }

  ghost predicate Boundary(s: Octets, p: nat) { exists i: nat :: BoundaryAt(s, p, i) }

  /** From a boundary the remaining script tokenizes to the remaining tokens. */
  lemma FromBoundary(s: Octets, p: nat, i: nat)
    requires BoundaryAt(s, p, i)
    ensures p <= |s|
    ensures TokensOf(s[p..]) == TokensOf(s)[i..]
    ensures TailOf(s[p..]) == TailOf(s)
  {
    var ts, tail := TokensOf(s), TailOf(s);
    assert p == |Render(ts[..i])|;
    hide *;
    RenderOfTokens(s);
    RenderSplit(ts, i, tail);
    var front, back := ts[..i], ts[i..];
    DropPrefix(Render(front), Render(back) + tail);
    WellFormedSuffix(ts, i);
    TokensOfRender(back, tail);
    TailIsStuck(s);
    assert back + [] == back;
  }

  lemma WellFormedSuffix(ts: seq<Token>, i: nat)
    requires AllWellFormed(ts) && i <= |ts|
    ensures AllWellFormed(ts[i..])
  {
  }

  lemma RenderSplit(ts: seq<Token>, i: nat, tail: Octets)
    requires i <= |ts|
    ensures Render(ts) + tail == Render(ts[..i]) + (Render(ts[i..]) + tail)
  {
    hide *;
    var a, b := ts[..i], ts[i..];
    assert ts == a + b;
    RenderAppend(a, b);
    Assoc(Render(a), Render(b), tail);
  }

  lemma {:induction false} TailIsStuck(s: Octets)
    ensures TokensOf(TailOf(s)) == [] && TailOf(TailOf(s)) == TailOf(s)
    decreases |s|
  {
    if s != [] && Head(s).Some? {
      var _, rest := TokensStep(s);
      TailIsStuck(rest);
    }
  }

  lemma RenderSnoc(a: seq<Token>, t: Token)
    ensures Render(a + [t]) == Render(a) + Raw(t)
  {
    RenderAppend(a, [t]);
    assert Render([t]) == Raw(t) + Render([t][1..]);
  }

  /** Reading one token moves from one boundary to the next. */
  lemma NextBoundary(s: Octets, p: nat, i: nat)
    requires BoundaryAt(s, p, i) && p < |s|
    ensures Head(s[p..]).None? ==> i == |TokensOf(s)| && TailOf(s) != []
    ensures Head(s[p..]).Some? ==>
              && i < |TokensOf(s)| && Head(s[p..]) == Some(TokensOf(s)[i])
              && BoundaryAt(s, p + |Raw(TokensOf(s)[i])|, i + 1)
              && p + |Raw(TokensOf(s)[i])| <= |s|
  {
    FromBoundary(s, p, i);
    var ts, rest := TokensOf(s), s[p..];
    if Head(rest).Some? {
      var t, more := TokensStep(rest);
      HeadOfSuffix(ts, i, t, TokensOf(more));
      RenderSnoc(ts[..i], t);
    }
  }

  lemma HeadOfSuffix(ts: seq<Token>, i: nat, t: Token, more: seq<Token>)
    requires i <= |ts| && ts[i..] == [t] + more
    ensures i < |ts| && ts[i] == t && ts[..i + 1] == ts[..i] + [t]
  {
    assert ts[i] == ts[i..][0];
  }

  lemma StartBoundary(s: Octets)
    ensures BoundaryAt(s, 0, 0)
  {
    assert Render(TokensOf(s)[..0]) == [];
  }

  /** In a script that parses, the end is the boundary after the last token, and only that one. */
  lemma EndBoundary(s: Octets, p: nat, i: nat)
    requires Parses(s) && BoundaryAt(s, p, i)
    ensures p == |s| <==> i == |TokensOf(s)|
  {
    RenderOfParsed(s);
    FromBoundary(s, p, i);
    var ts := TokensOf(s);
    if i == |ts| {
      assert ts[..i] == ts;
    }
    if p == |s| { assert TokensOf(s[p..]) == []; }
  }
}
