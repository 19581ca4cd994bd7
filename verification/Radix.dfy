/** Positional notation, most significant digit first, and conversion that keeps leading zeros. */
module Radix {

  type Digits = seq<nat>

  /** The two bases in use; arithmetic by a base is spelled out for each, so that it stays linear. */
  datatype Base = Base58 | Base256 {
    function N(): nat { if Base58? then 58 else 256 }
    function Times(x: nat): nat { if Base58? then 58 * x else 256 * x }
    function Div(x: nat): nat { if Base58? then x / 58 else x / 256 }
    function Mod(x: nat): nat { if Base58? then x % 58 else x % 256 }

    lemma DivMod(x: nat)
      ensures Times(Div(x)) + Mod(x) == x && Mod(x) < N() && (x > 0 ==> Div(x) < x)
    {
    }

    lemma Unique(q: nat, r: nat)
      requires r < N()
      ensures Div(Times(q) + r) == q && Mod(Times(q) + r) == r
    {
    }

    lemma Monotone(x: nat, y: nat)
      requires x < y
      ensures Times(x) + N() <= Times(y)
    {
    }

    lemma Linear(x: nat, y: nat, p: nat)
      ensures Times(x + y) == Times(x) + Times(y) && Times(x * p) == x * Times(p)
    {
    }
  }

  ghost predicate Below(b: Base, s: Digits) { forall i :: 0 <= i < |s| ==> s[i] < b.N() }

  function Value(b: Base, s: Digits): nat {
    if s == [] then 0 else b.Times(Value(b, s[..|s| - 1])) + s[|s| - 1]
  }

  /** The digits of n, without leading zeros; zero has none. */
  function Numeral(b: Base, n: nat): Digits {
    if n == 0 then [] else Numeral(b, b.Div(n)) + [b.Mod(n)]
  }

  function Pow(b: Base, k: nat): nat { if k == 0 then 1 else b.Times(Pow(b, k - 1)) }

  lemma {:induction false} PowPositive(b: Base, k: nat)
    ensures Pow(b, k) > 0
  {
    if k > 0 { PowPositive(b, k - 1); }
  }

  // ----- digits and numbers

  lemma {:induction false} ValueOfNumeral(b: Base, n: nat)
    ensures Value(b, Numeral(b, n)) == n && Below(b, Numeral(b, n))
    ensures n > 0 ==> Numeral(b, n) != [] && Numeral(b, n)[0] != 0
  {
    hide Base.Times, Base.Div, Base.Mod, Base.N, Value, Below;
    if n > 0 {
      b.DivMod(n);
      ValueOfNumeral(b, b.Div(n));
      ValueSnoc(b, Numeral(b, b.Div(n)), b.Mod(n));
      TimesZero(b);
    } else {
      ValueNone(b);
    }
  }

  lemma ValueSnoc(b: Base, m: Digits, d: nat)
    ensures Value(b, m + [d]) == b.Times(Value(b, m)) + d
    ensures Below(b, m) && d < b.N() ==> Below(b, m + [d])
  {
    hide Base.Times, Base.N;
    assert (m + [d])[..|m|] == m;
  }

  lemma ValueNone(b: Base)
    ensures Value(b, []) == 0 && Below(b, [])
  {
  }

  lemma TimesZero(b: Base)
    ensures b.Times(0) == 0
  {
  }

  lemma {:induction false} ValuePositive(b: Base, s: Digits)
    requires s != [] && s[0] != 0
    ensures Value(b, s) > 0
  {
    if |s| > 1 { ValuePositive(b, s[..|s| - 1]); }
  }

  lemma {:induction false} NumeralOfValue(b: Base, s: Digits)
    requires Below(b, s) && (s == [] || s[0] != 0)
    ensures Numeral(b, Value(b, s)) == s
  {
    hide Base.Times, Base.Div, Base.Mod, Base.N;
    if s != [] {
      var k := |s| - 1;
      ValuePositive(b, s);
      if k > 0 {
        NumeralOfValue(b, s[..k]);
      } else {
        assert s[..k] == [];
      }
      b.Unique(Value(b, s[..k]), s[k]);
      assert s == s[..k] + [s[k]];
    }
  }

  // ----- leading zeros

  function Leading(s: Digits): nat { if s != [] && s[0] == 0 then 1 + Leading(s[1..]) else 0 }

  function Zeros(k: nat): Digits { if k == 0 then [] else [0] + Zeros(k - 1) }

  lemma {:induction false} ZerosSize(k: nat)
    ensures |Zeros(k)| == k && forall i :: 0 <= i < k ==> Zeros(k)[i] == 0
  {
    if k > 0 { ZerosSize(k - 1); }
  }

  /** Leading zeros, then a part without any. */
  lemma {:induction false} SplitLeading(s: Digits)
    ensures Leading(s) <= |s| && s == Zeros(Leading(s)) + s[Leading(s)..]
    ensures Leading(s) < |s| ==> s[Leading(s)] != 0
  {
    if s != [] && s[0] == 0 {
      SplitLeading(s[1..]);
      assert s == [0] + s[1..];
      assert s[1..][Leading(s[1..])..] == s[Leading(s)..];
    }
  }

  lemma {:induction false} LeadingOf(k: nat, s: Digits)
    requires s == [] || s[0] != 0
    ensures Leading(Zeros(k) + s) == k
  {
    if k > 0 {
      LeadingOf(k - 1, s);
      assert (Zeros(k) + s)[1..] == Zeros(k - 1) + s;
    } else {
      assert Zeros(0) + s == s;
    }
  }

  lemma {:induction false} ValueSkipsZeros(b: Base, k: nat, s: Digits)
    ensures Value(b, Zeros(k) + s) == Value(b, s)
  {
    if s == [] {
      ValueOfZeros(b, k);
      assert Zeros(k) + s == Zeros(k);
    } else {
      ValueSkipsZeros(b, k, s[..|s| - 1]);
      var t := Zeros(k) + s;
      assert t[..|t| - 1] == Zeros(k) + s[..|s| - 1];
    }
  }

  lemma {:induction false} ValueOfZeros(b: Base, k: nat)
    ensures Value(b, Zeros(k)) == 0
  {
    if k > 0 {
      ValueOfZeros(b, k - 1);
      ZerosSize(k);
      ZerosSize(k - 1);
      assert Zeros(k)[..k - 1] == Zeros(k - 1);
    }
  }

  // ----- conversion

  /** From base a to base b, one zero for each leading zero. */
  function Convert(a: Base, b: Base, s: Digits): Digits { Zeros(Leading(s)) + Numeral(b, Value(a, s)) }

  lemma ConvertBelow(a: Base, b: Base, s: Digits)
    ensures Below(b, Convert(a, b, s))
  {
    hide Value, Numeral, Leading, Zeros;
    ValueOfNumeral(b, Value(a, s));
    ZerosSize(Leading(s));
  }

  /** Converting there and back is the identity, on every digit string. */
  lemma ConvertTwice(a: Base, b: Base, s: Digits)
    requires Below(a, s)
    ensures Convert(b, a, Convert(a, b, s)) == s
  {
    hide Value, Numeral, Leading, Zeros, Base.N;
    var k, n := Leading(s), Value(a, s);
    SplitLeading(s);
    var body := s[k..];
    ValueSkipsZeros(a, k, body);
    NumeralOfValue(a, body);
    ValueOfNumeral(b, n);
    ZeroNumeral(b);
    LeadingOf(k, Numeral(b, n));
    ValueSkipsZeros(b, k, Numeral(b, n));
  }

  lemma ZeroNumeral(b: Base)
    ensures Numeral(b, 0) == []
  {
  }

  // ----- sizes

  lemma {:induction false} NumeralSize(b: Base, n: nat, k: nat)
    requires n < Pow(b, k)
    ensures |Numeral(b, n)| <= k
  {
    if n > 0 && k > 0 { NumeralSize(b, b.Div(n), k - 1); }
  }

  lemma {:induction false} ValueBelow(b: Base, s: Digits)
    requires Below(b, s)
    ensures Value(b, s) < Pow(b, |s|)
  {
    hide Base.Times, Base.N;
    if s != [] {
      var k := |s| - 1;
      ValueBelow(b, s[..k]);
      b.Monotone(Value(b, s[..k]), Pow(b, k));
    }
  }

  /** Appending digits shifts what came before. */
  lemma {:induction false} ValueAppend(b: Base, s: Digits, t: Digits)
    ensures Value(b, s + t) == Value(b, s) * Pow(b, |t|) + Value(b, t)
  {
    hide Base.Times;
    if t == [] {
      assert s + t == s;
    } else {
      var k := |t| - 1;
      ValueAppend(b, s, t[..k]);
      assert (s + t)[..|s| + k] == s + t[..k];
      b.Linear(Value(b, s) * Pow(b, k), Value(b, t[..k]), 1);
      b.Linear(Value(b, s), 0, Pow(b, k));
    }
  }
}
