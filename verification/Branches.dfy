/** What a whole conditional does: one part runs as if it stood alone, the other is passed over. */
module Branches {
  import opened Bytes
  import opened ScriptErrors
  import opened Tokens
  import opened Stack
  import opened ScriptNum
  import opened Opcodes
  import opened SigCheck
  import opened Engine
  import opened EngineSafety
  import opened EngineMeaning
  import opened Conditionals

  // ----- depth, read forwards

  /** The nesting depth after the tokens, from depth n; None when an ELSE or ENDIF has no IF. */
  function DepthFrom(n: nat, ts: seq<Token>): Option<nat>
    decreases |ts|
  {
    if ts == [] then Some(n)
    else if NestAfter(n, ts[0].op).None? then None
    else DepthFrom(NestAfter(n, ts[0].op).value, ts[1..])
  }

  lemma {:induction false} DepthIsNesting(ts: seq<Token>, i: nat)
    requires i <= |ts| && Nesting(ts[..i]).Some?
    ensures DepthFrom(Nesting(ts[..i]).value, ts[i..]) == Nesting(ts)
    decreases |ts| - i
  {
    if i == |ts| {
      assert ts[..i] == ts;
    } else {
      NestingSnoc(ts, i);
      assert ts[i..][1..] == ts[i + 1..];
      if Nesting(ts[..i + 1]).Some? {
        DepthIsNesting(ts, i + 1);
      } else {
        NestingStuck(ts, i + 1);
      }
    }
  }

  lemma {:induction false} NestingStuck(ts: seq<Token>, i: nat)
    requires i <= |ts| && Nesting(ts[..i]).None?
    ensures Nesting(ts).None?
    decreases |ts| - i
  {
    if i == |ts| {
      assert ts[..i] == ts;
    } else {
      NestingSnoc(ts, i);
      NestingStuck(ts, i + 1);
    }
  }

  lemma BalancedDepth(ts: seq<Token>)
    requires Balanced(ts)
    ensures DepthFrom(0, ts) == Some(0)
  {
    assert ts[..0] == [] && ts[0..] == ts;
    DepthIsNesting(ts, 0);
  }

  // ----- a part that runs

  /** Two runs that differ in the enclosing conditions only, all of which hold. */
  ghost predicate SameUnder(r: Result<Vm>, q: Result<Vm>, b: seq<Cond>, c: seq<Cond>, depth: nat) {
    if r.Err? then q == r
    else b <= r.value.cond && |r.value.cond| == |b| + depth && q == Ok(r.value.(cond := c + r.value.cond[|b|..]))
  }

  lemma ConditionalUnder(env: Env, vm: Vm, b: seq<Cond>, c: seq<Cond>, inner: seq<Cond>, op: Byte)
    requires Executing(b) && Executing(c) && IsConditional(op) && NestAfter(|inner|, op).Some?
    ensures SameUnder(Conditional(env, vm.(cond := b + inner), op), Conditional(env, vm.(cond := c + inner), op),
                      b, c, NestAfter(|inner|, op).value)
  {
    hide PopIfBool, Executing, Toggled;
    ExecutingUnder(b, inner);
    ExecutingUnder(c, inner);
    var n := |inner|;
    if op == OP_IF || op == OP_NOTIF {
      PushUnder(b, c, inner, CondTrue);
      PushUnder(b, c, inner, CondFalse);
      PushUnder(b, c, inner, CondSkip);
    } else if op == OP_ELSE {
      var k := Toggled(inner[n - 1]);
      assert forall e: seq<Cond> {:trigger e + inner} :: (e + inner)[|e| + n - 1 := k] == e + inner[n - 1 := k];
      assert (b + inner[n - 1 := k])[|b|..] == inner[n - 1 := k];
    } else {
      assert forall e: seq<Cond> {:trigger e + inner} :: (e + inner)[..|e| + n - 1] == e + inner[..n - 1];
      assert (b + inner[..n - 1])[|b|..] == inner[..n - 1];
    }
  }

  lemma ExecutingUnder(b: seq<Cond>, inner: seq<Cond>)
    requires Executing(b)
    ensures Executing(b + inner) == Executing(inner)
  {
  }

  lemma PushUnder(b: seq<Cond>, c: seq<Cond>, inner: seq<Cond>, k: Cond)
    ensures b <= b + inner + [k] && c + (b + inner + [k])[|b|..] == c + inner + [k]
  {
    assert (b + inner + [k])[|b|..] == inner + [k];
  }

  lemma OpcodeUnder(env: Env, vm: Vm, b: seq<Cond>, c: seq<Cond>, inner: seq<Cond>, op: Byte, data: Octets)
    requires Executing(b) && Executing(c) && NestAfter(|inner|, op).Some?
    ensures SameUnder(ExecuteOpcode(env, vm.(cond := b + inner), op, data),
                      ExecuteOpcode(env, vm.(cond := c + inner), op, data), b, c, NestAfter(|inner|, op).value)
  {
    hide Handler, MinimalPush;
    assert Executing(b + inner) == Executing(inner) == Executing(c + inner);
    assert (b + inner)[|b|..] == inner;
    if IsConditional(op) {
      ConditionalUnder(env, vm, b, c, inner, op);
      ConditionalHandler(env, vm.(cond := b + inner), op, data);
      ConditionalHandler(env, vm.(cond := c + inner), op, data);
    } else if Executing(inner) {
      HandlerIgnoresCond(env, vm.(cond := b + inner), c + inner, op, data);
    }
  }

  lemma ConditionalHandler(env: Env, vm: Vm, op: Byte, data: Octets)
    requires IsConditional(op)
    ensures Handler(env, vm, op, data) == Conditional(env, vm, op)
  {
    hide Conditional;
  }

  lemma {:induction false} RunUnder(
    env: Env, vm: Vm, b: seq<Cond>, c: seq<Cond>, inner: seq<Cond>, ts: seq<Token>)
    requires Executing(b) && Executing(c) && DepthFrom(|inner|, ts).Some?
    ensures SameUnder(RunTokens(env, vm.(cond := b + inner), ts), RunTokens(env, vm.(cond := c + inner), ts),
                      b, c, DepthFrom(|inner|, ts).value)
    decreases |ts|
  {
    hide ExecuteOpcode, Executing, NestAfter, Raw;
    if ts == [] {
      assert (b + inner)[|b|..] == inner;
    } else {
      var t := ts[0];
      OpcodeUnder(env, Moved(vm, t), b, c, inner, t.op, t.data);
      var r := ExecuteOpcode(env, Moved(vm, t).(cond := b + inner), t.op, t.data);
      if r.Ok? && |r.value.d| + |r.value.a| <= MAX_STACK_SIZE {
        var inner' := r.value.cond[|b|..];
        assert r.value.cond == b + inner';
        RunUnder(env, Counted(r.value), b, c, inner', ts[1..]);
      }
    }
  }

  // ----- a part that is passed over

  /** Disabled opcodes, OP_VERIF, OP_VERNOTIF and long pushes fail wherever they stand. */
  predicate Passable(t: Token) {
    && |t.data| <= 520
    && t.op != 101 && t.op != 102 && !(126 <= t.op <= 129) && !(131 <= t.op <= 134)
    && t.op != 141 && t.op != 142 && !(149 <= t.op <= 153)
  }

  predicate Skippable(ts: seq<Token>) { forall t :: t in ts ==> Passable(t) }

  /** What is not passable fails, executed or not: a run that succeeds has no such token. */
  lemma {:induction false} RunPassable(env: Env, vm: Vm, ts: seq<Token>)
    requires RunTokens(env, vm, ts).Ok?
    ensures Skippable(ts)
    decreases |ts|
  {
    hide ExecuteOpcode, Raw, Passable;
    if ts != [] {
      var at := Moved(vm, ts[0]);
      NotPassableFails(env, at, ts[0]);
      RunPassable(env, Counted(ExecuteOpcode(env, at, ts[0].op, ts[0].data).value), ts[1..]);
      assert ts == [ts[0]] + ts[1..];
    }
  }

  lemma NotPassableFails(env: Env, vm: Vm, t: Token)
    ensures !Passable(t) ==> ExecuteOpcode(env, vm, t.op, t.data).Err?
  {
    hide Handler, MinimalPush;
  }

  /** The same state, past the tokens. */
  function Past(vm: Vm, ts: seq<Token>): Vm {
    vm.(offset := vm.offset + |Render(ts)|, opcodeIdx := vm.opcodeIdx + |ts|)
  }

  predicate AllSkip(cond: seq<Cond>) { forall i :: 0 <= i < |cond| ==> cond[i] == CondSkip }

  lemma OpcodeSkipped(env: Env, vm: Vm, b: seq<Cond>, inner: seq<Cond>, t: Token)
    requires vm.cond == b + inner && !Executing(b) && AllSkip(inner) && NestAfter(|inner|, t.op).Some?
    ensures var r := ExecuteOpcode(env, vm, t.op, t.data);
            if Passable(t) then
              r.Ok? && b <= r.value.cond && AllSkip(r.value.cond[|b|..]) && r.value == vm.(cond := r.value.cond)
              && |r.value.cond| == |b| + NestAfter(|inner|, t.op).value
            else r.Err?
  {
    hide MinimalPush;
    assert !Executing(b + inner);
    assert (b + inner)[|b|..] == inner;
    if IsConditional(t.op) && Passable(t) {
      hide Handler;
      ConditionalHandler(env, vm, t.op, t.data);
      var cond := Conditional(env, vm, t.op).value.cond;
      assert forall i :: 0 <= i < |cond| - |b| ==> cond[|b|..][i] == CondSkip;
    }
  }

  /** Passing over leaves everything but the place as it was. */
  lemma {:induction false} RunSkipped(env: Env, vm: Vm, b: seq<Cond>, inner: seq<Cond>, ts: seq<Token>)
    requires vm.cond == b + inner && !Executing(b) && AllSkip(inner) && DepthFrom(|inner|, ts).Some?
    requires |vm.d| + |vm.a| <= 1000
    ensures var r := RunTokens(env, vm, ts);
            if Skippable(ts) then
              r.Ok? && b <= r.value.cond && |r.value.cond| == |b| + DepthFrom(|inner|, ts).value
              && r.value == Past(vm, ts).(cond := r.value.cond)
            else r.Err?
    decreases |ts|
  {
    hide ExecuteOpcode, Executing, NestAfter, Raw, Passable, AllSkip;
    if ts != [] {
      var t := ts[0];
      OpcodeSkipped(env, Moved(vm, t), b, inner, t);
      var r := ExecuteOpcode(env, Moved(vm, t), t.op, t.data);
      assert ts == [t] + ts[1..];
      if r.Ok? {
        var inner' := r.value.cond[|b|..];
        assert r.value.cond == b + inner';
        RunSkipped(env, Counted(r.value), b, inner', ts[1..]);
      }
    }
  }

  // ----- the whole conditional

  lemma PastAppend(vm: Vm, a: seq<Token>, b: seq<Token>)
    ensures Past(Past(vm, a), b) == Past(vm, a + b)
  {
    hide Render;
    RenderAppend(a, b);
  }

  lemma RenderOne(op: Byte)
    requires !CarriesData(op)
    ensures |Render([Token(op, [])])| == 1 && |Raw(Token(op, []))| == 1
  {
    assert [Token(op, [])][1..] == [];
  }

  lemma {:induction false} RunWithin(env: Env, vm: Vm, ts: seq<Token>)
    requires |vm.d| + |vm.a| <= 1000 && RunTokens(env, vm, ts).Ok?
    ensures |RunTokens(env, vm, ts).value.d| + |RunTokens(env, vm, ts).value.a| <= 1000
    decreases |ts|
  {
    hide ExecuteOpcode, Raw;
    if ts != [] {
      RunWithin(env, Counted(ExecuteOpcode(env, Moved(vm, ts[0]), ts[0].op, ts[0].data).value), ts[1..]);
    }
  }

  /** The part that starts with the IF or NOTIF: one item is popped and decides. */
  lemma Opens(env: Env, vm: Vm, op: Byte, ts: seq<Token>)
    requires (op == 99 || op == 100) && Executing(vm.cond) && vm.d != [] && |vm.d| + |vm.a| <= 1000
    ensures var x, d := vm.d[|vm.d| - 1], vm.d[..|vm.d| - 1];
            RunTokens(env, vm, [Token(op, [])] + ts) ==
            if env.Flags().minimalIf && x != [] && x != [1] then Err(MinimalIf)
            else
              var k := if (NumValue(x) != 0) == (op == 99) then CondTrue else CondFalse;
              RunTokens(env, Past(vm, [Token(op, [])]).(d := d, cond := vm.cond + [k]), ts)
  {
    hide NumValue, Truthy, Render, Raw, RunTokens;
    var t := Token(op, []);
    RunCons(env, vm, t, ts);
    RenderOne(op);
    TruthyIffNonZero(vm.d[|vm.d| - 1]);
    assert ExecuteOpcode(env, Moved(vm, t), op, []) == Conditional(env, Moved(vm, t), op);
  }

  lemma Toggles(env: Env, vm: Vm, b: seq<Cond>, k: Cond, ts: seq<Token>)
    requires vm.cond == b + [k] && |vm.d| + |vm.a| <= 1000
    ensures RunTokens(env, vm, [Token(103, [])] + ts) ==
            RunTokens(env, Past(vm, [Token(103, [])]).(cond := b + [Toggled(k)]), ts)
  {
    hide Render, Raw, RunTokens;
    var t := Token(103, []);
    RunCons(env, vm, t, ts);
    RenderOne(103);
    assert ExecuteOpcode(env, Moved(vm, t), 103, []) == Conditional(env, Moved(vm, t), 103);
    assert vm.cond[|b| := Toggled(k)] == b + [Toggled(k)];
  }

  lemma Closes(env: Env, vm: Vm, b: seq<Cond>, k: Cond)
    requires vm.cond == b + [k] && |vm.d| + |vm.a| <= 1000
    ensures RunTokens(env, vm, [Token(104, [])]) == Ok(Past(vm, [Token(104, [])]).(cond := b))
  {
    hide Render, Raw, RunTokens;
    var t := Token(104, []);
    RunCons(env, vm, t, []);
    assert [t] + [] == [t];
    RenderOne(104);
    assert ExecuteOpcode(env, Moved(vm, t), 104, []) == Conditional(env, Moved(vm, t), 104);
    assert vm.cond[..|b|] == b;
    RunNone(env, Counted(Moved(vm, t).(cond := b)));
  }

  /** A balanced part under one more condition that holds. */
  lemma TakenPart(env: Env, vm: Vm, ts: seq<Token>)
    requires Executing(vm.cond) && Balanced(ts)
    ensures var r, q := RunTokens(env, vm, ts), RunTokens(env, vm.(cond := vm.cond + [CondTrue]), ts);
            if r.Err? then q == r
            else r.value.cond == vm.cond && q == Ok(r.value.(cond := vm.cond + [CondTrue]))
  {
    hide RunTokens, Balanced;
    BalancedDepth(ts);
    var b := vm.cond;
    RunUnder(env, vm, b, b + [CondTrue], [], ts);
    assert b + [] == b && b + [CondTrue] + [] == b + [CondTrue];
    assert vm.(cond := b) == vm;
  }

  /** A balanced part under a condition that does not hold. */
  lemma SkippedPart(env: Env, vm: Vm, b: seq<Cond>, ts: seq<Token>)
    requires vm.cond == b + [CondFalse] && Balanced(ts) && |vm.d| + |vm.a| <= 1000
    ensures var r := RunTokens(env, vm, ts);
            if Skippable(ts) then r == Ok(Past(vm, ts)) else r.Err?
  {
    hide RunTokens, Balanced, Skippable, Render;
    BalancedDepth(ts);
    assert vm.cond + [] == vm.cond;
    RunSkipped(env, vm, vm.cond, [], ts);
    var r := RunTokens(env, vm, ts);
    if r.Ok? { assert r.value.cond == r.value.cond[..|vm.cond|] == vm.cond; }
  }

  function IfElse(op: Byte, a: seq<Token>, b: seq<Token>): seq<Token> {
    [Token(op, [])] + a + [Token(103, [])] + b + [Token(104, [])]
  }

  lemma FirstTaken(env: Env, vm: Vm, a: seq<Token>, b: seq<Token>)
    requires Executing(vm.cond) && |vm.d| + |vm.a| <= 1000 && Balanced(a) && Balanced(b)
    ensures var els, end := [Token(103, [])], [Token(104, [])];
            var r := RunTokens(env, vm.(cond := vm.cond + [CondTrue]), a + (els + (b + end)));
            var t := RunTokens(env, vm, a);
            && (t.Err? ==> r == t)
            && (t.Ok? ==> t.value.cond == vm.cond)
            && (t.Ok? ==> if Skippable(b) then r == Ok(Past(t.value, els + b + end)) else r.Err?)
  {
    hide *;
    var c := vm.cond;
    var els, end := [Token(103, [])], [Token(104, [])];
    TakenPart(env, vm, a);
    var in1 := vm.(cond := c + [CondTrue]);
    if RunTokens(env, vm, a).Err? {
      RunStops(env, in1, a, els + (b + end));
    } else {
      var t := RunTokens(env, vm, a).value;
      RunWithin(env, vm, a);
      RunAppend(env, in1, a, els + (b + end));
      Toggles(env, t.(cond := c + [CondTrue]), c, CondTrue, b + end);
      ToggledPair();
      var u := Past(t, els).(cond := c + [CondFalse]);
      PastFields(t, els);
      SkippedPart(env, u, c, b);
      if Skippable(b) {
        RunAppend(env, u, b, end);
        PastFields(u, b);
        Closes(env, Past(u, b), c, CondFalse);
        PastFields(Past(u, b), end);
        PastFields(Past(t, els), b);
        PastFields(Past(Past(t, els), b), end);
        PastFields(t.(cond := c + [CondTrue]), els);
        PastAppend(t, els, b);
        PastAppend(t, els + b, end);
      } else {
        RunStops(env, u, b, end);
      }
    }
  }

  lemma SecondTaken(env: Env, vm: Vm, a: seq<Token>, b: seq<Token>)
    requires Executing(vm.cond) && |vm.d| + |vm.a| <= 1000 && Balanced(a) && Balanced(b)
    ensures var els, end := [Token(103, [])], [Token(104, [])];
            var r := RunTokens(env, vm.(cond := vm.cond + [CondFalse]), a + (els + (b + end)));
            var t := RunTokens(env, Past(vm, a + els), b);
            && (!Skippable(a) ==> r.Err?)
            && (Skippable(a) && t.Err? ==> r == t)
            && (t.Ok? ==> t.value.cond == vm.cond)
            && (Skippable(a) && t.Ok? ==> r == Ok(Past(t.value, end)))
  {
    hide *;
    var c := vm.cond;
    var els, end := [Token(103, [])], [Token(104, [])];
    var u := vm.(cond := c + [CondFalse]);
    SkippedPart(env, u, c, a);
    PastFields(vm, a + els);
    TakenPart(env, Past(vm, a + els), b);
    if Skippable(a) {
      RunAppend(env, u, a, els + (b + end));
      PastFields(u, a);
      PastFields(vm, a);
      Toggles(env, Past(u, a), c, CondFalse, b + end);
      ToggledPair();
      PastFields(Past(u, a), els);
      PastFields(Past(vm, a), els);
      PastAppend(vm, a, els);
      var v := Past(vm, a + els).(cond := c + [CondTrue]);
      if RunTokens(env, Past(vm, a + els), b).Err? {
        RunStops(env, v, b, end);
      } else {
        RunAppend(env, v, b, end);
        RunWithin(env, Past(vm, a + els), b);
        var t := RunTokens(env, Past(vm, a + els), b).value;
        Closes(env, t.(cond := c + [CondTrue]), c, CondTrue);
        PastFields(t, end);
        PastFields(t.(cond := c + [CondTrue]), end);
      }
    } else {
      RunStops(env, u, a, els + (b + end));
    }
  }

  lemma ToggledPair()
    ensures Toggled(CondTrue) == CondFalse && Toggled(CondFalse) == CondTrue
  {
  }

  lemma PastFields(vm: Vm, ts: seq<Token>)
    ensures Past(vm, ts) == vm.(offset := Past(vm, ts).offset, opcodeIdx := Past(vm, ts).opcodeIdx)
    ensures forall c :: Past(vm.(cond := c), ts) == Past(vm, ts).(cond := c)
  {
    hide Render;
  }

  /**
   * IF A ELSE B ENDIF pops one item. When it denotes a number other than zero, A runs in its place
   * as if the rest were not there, and B is passed over; otherwise B runs and A is passed over.
   * NOTIF chooses the other way round. The part passed over only has to be free of the opcodes and
   * pushes that fail wherever they stand.
   */
  lemma IfElseRuns(env: Env, vm: Vm, op: Byte, a: seq<Token>, b: seq<Token>)
    requires (op == 99 || op == 100) && Executing(vm.cond) && vm.d != [] && |vm.d| + |vm.a| <= 1000
    requires Balanced(a) && Balanced(b)
    ensures var n := |vm.d| - 1;
            var x, from := vm.d[n], vm.(d := vm.d[..n]);
            var r := RunTokens(env, vm, IfElse(op, a, b));
            var open, els, end := [Token(op, [])], [Token(103, [])], [Token(104, [])];
            if env.Flags().minimalIf && x != [] && x != [1] then r == Err(MinimalIf)
            else if (NumValue(x) != 0) == (op == 99) then
              var t := RunTokens(env, Past(from, open), a);
              && (r.Ok? <==> t.Ok? && Skippable(b))
              && (t.Err? ==> r == t)
              && (r.Ok? ==> r.value == Past(t.value, els + b + end) && r.value.cond == vm.cond)
            else
              var t := RunTokens(env, Past(from, open + a + els), b);
              && (r.Ok? <==> t.Ok? && Skippable(a))
              && (Skippable(a) && t.Err? ==> r == t)
              && (r.Ok? ==> r.value == Past(t.value, end) && r.value.cond == vm.cond)
  {
    hide *;
    var n := |vm.d| - 1;
    var x, from := vm.d[n], vm.(d := vm.d[..n]);
    var open, els, end := [Token(op, [])], [Token(103, [])], [Token(104, [])];
    IfElseSplit(op, a, b);
    Opens(env, vm, op, a + (els + (b + end)));
    PastDropped(vm, open);
    var v := Past(from, open);
    PastFields(from, open);
    if env.Flags().minimalIf && x != [] && x != [1] {
    } else if (NumValue(x) != 0) == (op == 99) {
      FirstTaken(env, v, a, b);
      if RunTokens(env, v, a).Ok? { PastFields(RunTokens(env, v, a).value, els + b + end); }
    } else {
      SecondTaken(env, v, a, b);
      PastAppend(from, open, a + els);
      assert open + (a + els) == open + a + els;
      if RunTokens(env, Past(v, a + els), b).Ok? { PastFields(RunTokens(env, Past(v, a + els), b).value, end); }
    }
  }

  lemma IfElseSplit(op: Byte, a: seq<Token>, b: seq<Token>)
    ensures IfElse(op, a, b) == [Token(op, [])] + (a + ([Token(103, [])] + (b + [Token(104, [])])))
  {
  }

  lemma PastDropped(vm: Vm, ts: seq<Token>)
    ensures forall d :: Past(vm.(d := d), ts) == Past(vm, ts).(d := d)
  {
    hide Render;
  }

  /** Without an ELSE the part is run, or passed over and nothing is run. */
  lemma IfRuns(env: Env, vm: Vm, op: Byte, a: seq<Token>)
    requires (op == 99 || op == 100) && Executing(vm.cond) && vm.d != [] && |vm.d| + |vm.a| <= 1000
    requires Balanced(a)
    ensures var n := |vm.d| - 1;
            var x, from := vm.d[n], vm.(d := vm.d[..n]);
            var open, end := [Token(op, [])], [Token(104, [])];
            var r := RunTokens(env, vm, open + a + end);
            if env.Flags().minimalIf && x != [] && x != [1] then r == Err(MinimalIf)
            else if (NumValue(x) != 0) == (op == 99) then
              var t := RunTokens(env, Past(from, open), a);
              if t.Err? then r == t else r == Ok(Past(t.value, end)) && r.value.cond == vm.cond
            else if Skippable(a) then r == Ok(Past(from, open + a + end))
            else r.Err?
  {
    hide *;
    var n, c := |vm.d| - 1, vm.cond;
    var x, from := vm.d[n], vm.(d := vm.d[..n]);
    var open, end := [Token(op, [])], [Token(104, [])];
    assert open + a + end == open + (a + end);
    Opens(env, vm, op, a + end);
    PastDropped(vm, open);
    PastFields(from, open);
    var v := Past(from, open);
    if env.Flags().minimalIf && x != [] && x != [1] {
    } else if (NumValue(x) != 0) == (op == 99) {
      var u := v.(cond := c + [CondTrue]);
      TakenPart(env, v, a);
      if RunTokens(env, v, a).Err? {
        RunStops(env, u, a, end);
      } else {
        RunAppend(env, u, a, end);
        RunWithin(env, v, a);
        var t := RunTokens(env, v, a).value;
        Closes(env, t.(cond := c + [CondTrue]), c, CondTrue);
        PastFields(t, end);
      }
    } else {
      var u := v.(cond := c + [CondFalse]);
      SkippedPart(env, u, c, a);
      if Skippable(a) {
        RunAppend(env, u, a, end);
        PastFields(u, a);
        PastFields(v, a);
        Closes(env, Past(u, a), c, CondFalse);
        PastFields(Past(v, a), end);
        PastAppend(from, open, a);
        PastAppend(from, open + a, end);
      } else {
        RunStops(env, u, a, end);
      }
    }
  }

  /** With nothing to pop the conditional fails. */
  lemma IfNeedsItem(env: Env, vm: Vm, op: Byte, ts: seq<Token>)
    requires (op == 99 || op == 100) && Executing(vm.cond) && vm.d == []
    ensures RunTokens(env, vm, [Token(op, [])] + ts) == Err(InvalidStackOperation)
  {
    hide RunTokens, Raw;
    var t := Token(op, []);
    RunCons(env, vm, t, ts);
    assert ExecuteOpcode(env, Moved(vm, t), op, []) == Conditional(env, Moved(vm, t), op);
  }

  // ----- a script that shows the choice

  lemma OpThen(op: Byte, s: Octets)
    requires !CarriesData(op)
    ensures TokensOf([op] + s) == [Token(op, [])] + TokensOf(s)
  {
    assert ([op] + s)[1..] == s;
  }

  lemma TwoOrThree(op: Byte)
    requires op == 99 || op == 100
    ensures TokensOf([op, 82, 103, 83, 104]) == IfElse(op, [Token(82, [])], [Token(83, [])])
  {
    hide TokensOf;
    var s1: Octets, s2: Octets, s3: Octets := [104], [83, 104], [103, 83, 104];
    OpThen(104, []);
    EmptyTokens();
    assert [104] + [] == s1 && [83] + s1 == s2 && [103] + s2 == s3;
    OpThen(83, s1);
    OpThen(103, s2);
    OpThen(82, s3);
    OpThen(op, [82] + s3);
    assert [op] + ([82] + s3) == [op, 82, 103, 83, 104];
  }

  lemma EmptyTokens()
    ensures TokensOf([]) == []
  {
  }

  lemma PushOne(env: Env, vm: Vm, op: Byte)
    requires 81 <= op <= 96 && Executing(vm.cond) && |vm.d| + |vm.a| < 1000
    ensures RunTokens(env, vm, [Token(op, [])]) == Ok(Past(vm, [Token(op, [])]).(d := vm.d + [[op - 80]]))
  {
    hide Render, Raw, RunTokens;
    var t := Token(op, []);
    RunCons(env, vm, t, []);
    assert [t] + [] == [t];
    RenderOne(op);
    assert PushedItem(op, []) == [op - 80];
    RunNone(env, Counted(Moved(vm, t).(d := vm.d + [[op - 80]])));
  }

  /** IF 2 ELSE 3 ENDIF leaves 2 for an item that denotes a number other than zero, and 3 for one that denotes zero. */
  lemma ChoosesBranch(env: Env, d: Items, x: Octets)
    requires |d| < 1000 && !env.Flags().minimalIf
    ensures Eval(env, [99, 82, 103, 83, 104], d + [x]) == Ok(d + [[if NumValue(x) != 0 then 2 else 3]])
    ensures Eval(env, [100, 82, 103, 83, 104], d + [x]) == Ok(d + [[if NumValue(x) != 0 then 3 else 2]])
  {
    ChoosesIn(env, 99, d, x);
    ChoosesIn(env, 100, d, x);
  }

  lemma ChoosesIn(env: Env, op: Byte, d: Items, x: Octets)
    requires |d| < 1000 && !env.Flags().minimalIf && (op == 99 || op == 100)
    ensures var first := (NumValue(x) != 0) == (op == 99);
            Eval(env, [op, 82, 103, 83, 104], d + [x]) == Ok(d + [[if first then 2 else 3]])
  {
    hide RunTokens, TokensOf, NumValue, Render, Nesting;
    TwoOrThree(op);
    var s := [op, 82, 103, 83, 104];
    var vm := Start(s, d + [x]);
    assert (d + [x])[..|d|] == d;
    var from := vm.(d := d);
    var a, b := [Token(82, [])], [Token(83, [])];
    BalancedOne(82);
    BalancedOne(83);
    IfElseRuns(env, vm, op, a, b);
    PushOne(env, Past(from, [Token(op, [])]), 82);
    PushOne(env, Past(from, [Token(op, [])] + a + [Token(103, [])]), 83);
  }

  lemma BalancedOne(op: Byte)
    requires !IsConditional(op)
    ensures Balanced([Token(op, [])])
  {
    assert [Token(op, [])][..0] == [];
  }
}
