/** Base58 strings (base58.go): conversion ten digits at a time, and the checksummed form (base58check.go). */
module Base58 {
  import opened Bytes
  import opened Radix
  import C = Crypto

  // ----- the alphabet

  /** ASCII: digits without 0, upper-case letters without I and O, lower-case letters without l. */
  function ToChar(d: nat): Byte
    requires d < 58
  {
    if d < 9 then 49 + d
    else if d < 17 then 65 + (d - 9)
    else if d < 22 then 74 + (d - 17)
    else if d < 33 then 80 + (d - 22)
    else if d < 44 then 97 + (d - 33)
    else 109 + (d - 44)
  }

  /** The table of 256 entries; None stands for its marker 255. */
  function FromChar(c: Byte): Option<nat> {
    if 49 <= c <= 57 then Some(c - 49)
    else if 65 <= c <= 72 then Some(c - 65 + 9)
    else if 74 <= c <= 78 then Some(c - 74 + 17)
    else if 80 <= c <= 90 then Some(c - 80 + 22)
    else if 97 <= c <= 107 then Some(c - 97 + 33)
    else if 109 <= c <= 122 then Some(c - 109 + 44)
    else None
  }

  /** The two tables are inverse. */
  lemma CharDigit(c: Byte, d: nat)
    ensures FromChar(c) == Some(d) <==> d < 58 && c == ToChar(d)
  {
  }

  /** The alphabet: the ASCII digits and letters in order, without 0, I, O and l. */
  lemma AlphabetIs(c: Byte, d: nat, e: nat)
    ensures d < e < 58 ==> ToChar(d) < ToChar(e)
    ensures (exists k :: 0 <= k < 58 && ToChar(k) == c) <==>
              (48 <= c <= 57 || 65 <= c <= 90 || 97 <= c <= 122) && c != 48 && c != 73 && c != 79 && c != 108
  {
    if FromChar(c).Some? { assert ToChar(FromChar(c).value) == c; }
  }

  function Text(ds: Digits): Octets
    requires Below(Base58, ds)
  {
    seq(|ds|, i requires 0 <= i < |ds| => ToChar(ds[i]))
  }

  predicate InAlphabet(s: Octets) { forall i :: 0 <= i < |s| ==> FromChar(s[i]).Some? }

  function DigitsIn(s: Octets): Digits
    requires InAlphabet(s)
  {
    seq(|s|, i requires 0 <= i < |s| => FromChar(s[i]).value)
  }

  lemma DigitsBelow(s: Octets)
    requires InAlphabet(s)
    ensures Below(Base58, DigitsIn(s)) && Text(DigitsIn(s)) == s
  {
    forall i | 0 <= i < |s|
      ensures FromChar(s[i]).value < 58 && ToChar(FromChar(s[i]).value) == s[i]
    {
      CharDigit(s[i], FromChar(s[i]).value);
    }
  }

  lemma TextDigits(ds: Digits)
    requires Below(Base58, ds)
    ensures InAlphabet(Text(ds)) && DigitsIn(Text(ds)) == ds
  {
    forall i | 0 <= i < |ds|
      ensures FromChar(ToChar(ds[i])) == Some(ds[i])
    {
      CharDigit(ToChar(ds[i]), ds[i]);
    }
  }

  // ----- what the two functions compute

  /** Plain conversion to radix 58. */
  function Encoded(b: Octets): Octets {
    ConvertBelow(Base256, Base58, b);
    Text(Convert(Base256, Base58, b))
  }

  /** The first byte outside the alphabet, from i on. */
  function FirstBad(s: Octets, i: nat): nat
    requires i <= |s|
    decreases |s| - i
  {
    if i == |s| || FromChar(s[i]).None? then i else FirstBad(s, i + 1)
  }

  /**
   * The loop ranges over the runes of ten bytes at a time and indexes a table of 256 entries. A byte
   * outside ASCII is harmless only as the first of a two-byte sequence for U+0080 to U+00FF that lies
   * within its ten bytes; anything else is a rune of 256 or more, or the replacement rune.
   */
  predicate PastTable(s: Octets, i: nat)
    requires i < |s|
  {
    s[i] >= 0x80 && !(0xC2 <= s[i] <= 0xC3 && i % 10 != 9 && i + 1 < |s| && 0x80 <= s[i + 1] <= 0xBF)
  }

  /** Decode panics: the first byte outside the alphabet starts a rune past the table. */
  predicate Panics(s: Octets) { FirstBad(s, 0) < |s| && PastTable(s, FirstBad(s, 0)) }

  /**
   * Plain conversion from radix 58. Anything else outside the alphabet gives the empty slice; None
   * stands for the panic.
   */
  function Decoded(s: Octets): Option<Octets> {
    if InAlphabet(s) then
      ConvertBelow(Base58, Base256, DigitsIn(s));
      Some(AsOctets(Convert(Base58, Base256, DigitsIn(s))))
    else if Panics(s) then None
    else Some([])
  }

  lemma {:induction false} FirstBadIs(s: Octets, i: nat)
    requires i <= |s|
    ensures i <= FirstBad(s, i) <= |s|
    ensures FirstBad(s, i) < |s| ==> FromChar(s[FirstBad(s, i)]).None?
    ensures forall k :: i <= k < FirstBad(s, i) ==> FromChar(s[k]).Some?
    decreases |s| - i
  {
    if i < |s| && FromChar(s[i]).Some? { FirstBadIs(s, i + 1); }
  }

  /** The panic and its exact condition; ASCII strings never meet it. */
  lemma DecodedPanicsIff(s: Octets)
    ensures Decoded(s) == None <==> Panics(s)
    ensures InAlphabet(s) <==> FirstBad(s, 0) == |s|
    ensures (forall i :: 0 <= i < |s| ==> s[i] < 0x80) ==> Decoded(s) != None
  {
    hide Convert;
    FirstBadIs(s, 0);
  }

  /** The euro sign, three bytes in UTF-8. */
  lemma EuroSignPanics()
    ensures Decoded([0xE2, 0x82, 0xAC]) == None
  {
    var s: Octets := [0xE2, 0x82, 0xAC];
    assert FirstBad(s, 0) == 0;
    DecodedPanicsIff(s);
  }

  /** The same letter (two bytes, U+00E9) is refused inside ten bytes and panics across their border. */
  lemma CutRunePanics()
    ensures Decoded([0xC3, 0xA9]) == Some([])
    ensures Decoded([49, 49, 49, 49, 49, 49, 49, 49, 49, 0xC3, 0xA9]) == None
  {
    var s: Octets := [0xC3, 0xA9];
    assert FirstBad(s, 0) == 0;
    DecodedPanicsIff(s);
    var t: Octets := [49, 49, 49, 49, 49, 49, 49, 49, 49, 0xC3, 0xA9];
    FirstBadIs(t, 0);
    assert forall k :: 0 <= k < 9 ==> t[k] == 49;
    assert FirstBad(t, 0) == 9;
    DecodedPanicsIff(t);
  }

  function AsOctets(ds: Digits): Octets
    requires Below(Base256, ds)
  {
    seq(|ds|, i requires 0 <= i < |ds| => ds[i])
  }

  lemma DecodedEncoded(b: Octets)
    ensures Decoded(Encoded(b)) == Some(b)
  {
    hide Convert, Text, DigitsIn, InAlphabet;
    ConvertBelow(Base256, Base58, b);
    TextDigits(Convert(Base256, Base58, b));
    ConvertTwice(Base256, Base58, b);
    assert AsOctets(b) == b;
  }

  lemma EncodedDecoded(s: Octets)
    requires InAlphabet(s)
    ensures Decoded(s).Some? && Encoded(Decoded(s).value) == s
  {
    hide Convert, Text, DigitsIn, InAlphabet;
    DigitsBelow(s);
    ConvertBelow(Base58, Base256, DigitsIn(s));
    assert AsOctets(Convert(Base58, Base256, DigitsIn(s))) == Convert(Base58, Base256, DigitsIn(s));
    ConvertTwice(Base58, Base256, DigitsIn(s));
  }

  // ----- the encoding described

  /** Both start with the same number of zeros, written 1 in the string. */
  ghost predicate SameZeros(s: Octets, b: Octets, z: nat) {
    && z <= |s| && z <= |b| && (forall i :: 0 <= i < z ==> s[i] == 49 && b[i] == 0)
    && (z < |s| ==> s[z] != 49) && (z < |b| ==> b[z] != 0)
  }

  lemma {:induction false} LeadingIs(ds: Digits, z: nat)
    requires z <= |ds| && (forall i :: 0 <= i < z ==> ds[i] == 0) && (z < |ds| ==> ds[z] != 0)
    ensures Leading(ds) == z
  {
    if z > 0 { LeadingIs(ds[1..], z - 1); }
  }

  lemma {:induction false} LeadingZeros(ds: Digits)
    ensures Leading(ds) <= |ds| && (forall i :: 0 <= i < Leading(ds) ==> ds[i] == 0)
    ensures Leading(ds) < |ds| ==> ds[Leading(ds)] != 0
  {
    if ds != [] && ds[0] == 0 { LeadingZeros(ds[1..]); }
  }

  lemma DigitZero(s: Octets)
    requires InAlphabet(s)
    ensures forall i :: 0 <= i < |s| ==> (s[i] == 49 <==> DigitsIn(s)[i] == 0)
  {
  }

  lemma SameZerosIff(s: Octets, b: Octets)
    requires InAlphabet(s)
    ensures (exists z :: SameZeros(s, b, z)) <==> Leading(DigitsIn(s)) == Leading(b)
  {
    hide InAlphabet, DigitsIn;
    var ds := DigitsIn(s);
    DigitsSize(s);
    DigitZero(s);
    LeadingZeros(ds);
    LeadingZeros(b);
    assert Leading(ds) == Leading(b) ==> SameZeros(s, b, Leading(b));
    if exists z :: SameZeros(s, b, z) {
      var z :| SameZeros(s, b, z);
      LeadingIs(ds, z);
      LeadingIs(b, z);
    }
  }

  lemma DigitsSize(s: Octets)
    requires InAlphabet(s)
    ensures |DigitsIn(s)| == |s|
  {
  }

  /**
   * The encoding is the one string over the alphabet that denotes the same number and starts with a 1
   * for each zero byte at the front.
   */
  lemma EncodedIff(s: Octets, b: Octets)
    ensures s == Encoded(b) <==>
            && InAlphabet(s) && Value(Base58, DigitsIn(s)) == Value(Base256, b)
            && exists z :: SameZeros(s, b, z)
  {
    hide Value, Numeral, Leading, Zeros, Text, DigitsIn, InAlphabet, SameZeros;
    ConvertBelow(Base256, Base58, b);
    var ds := Convert(Base256, Base58, b);
    TextDigits(ds);
    LeadingZeros(b);
    ValueOfNumeral(Base58, Value(Base256, b));
    ZeroNumeral(Base58);
    LeadingOf(Leading(b), Numeral(Base58, Value(Base256, b)));
    ValueSkipsZeros(Base58, Leading(b), Numeral(Base58, Value(Base256, b)));
    if InAlphabet(s) {
      SameZerosIff(s, b);
      DigitsBelow(s);
      if Value(Base58, DigitsIn(s)) == Value(Base256, b) && Leading(DigitsIn(s)) == Leading(b) {
        SameNumeral(Base58, DigitsIn(s));
      }
    }
  }

  lemma SameNumeral(b: Base, ds: Digits)
    requires Below(b, ds)
    ensures ds == Zeros(Leading(ds)) + Numeral(b, Value(b, ds))
  {
    hide Value, Numeral, Leading, Zeros, Base.N;
    SplitLeading(ds);
    ValueSkipsZeros(b, Leading(ds), ds[Leading(ds)..]);
    NumeralOfValue(b, ds[Leading(ds)..]);
  }

  /** Most significant digit first. */
  lemma Positional(ds: Digits, d: nat)
    ensures Value(Base58, []) == 0 && Value(Base256, []) == 0
    ensures Value(Base58, ds + [d]) == 58 * Value(Base58, ds) + d
    ensures Value(Base256, ds + [d]) == 256 * Value(Base256, ds) + d
  {
    ValueSnoc(Base58, ds, d);
    ValueSnoc(Base256, ds, d);
  }

  // ----- encoding in chunks

  const RADIX10: nat := 430804206899405824

  lemma Radix10Value()
    ensures Pow(Base58, 10) == RADIX10
  {
    assert Pow(Base58, 3) == 195112;
    assert Pow(Base58, 6) == 38068692544;
    assert Pow(Base58, 8) == 128063081718016;
  }

  /** The digits of n, least significant first. */
  function LittleText(n: nat): Octets { if n == 0 then [] else [ToChar(n % 58)] + LittleText(n / 58) }

  /** Exactly k digits, least significant first. */
  function LowText(m: nat, k: nat): Octets { if k == 0 then [] else [ToChar(m % 58)] + LowText(m / 58, k - 1) }

  /** k digits of the remainder, then the digits of the quotient. */
  lemma {:induction false} ChunkText(q: nat, r: nat, k: nat)
    requires q > 0 && r < Pow(Base58, k)
    ensures LittleText(q * Pow(Base58, k) + r) == LowText(r, k) + LittleText(q)
    decreases k
  {
    if k > 0 {
      var p := Pow(Base58, k - 1);
      Base58.Linear(q, 0, p);
      PowPositive(Base58, k - 1);
      assert q * p > 0;
      var x := q * Pow(Base58, k) + r;
      assert x == 58 * (q * p) + r;
      assert x / 58 == q * p + r / 58 && x % 58 == r % 58;
      ChunkText(q, r / 58, k - 1);
      Assoc([ToChar(r % 58)], LowText(r / 58, k - 1), LittleText(q));
    }
  }

  function Ones(k: nat): Octets { seq(k, i => 49) }

  function Reversed(s: Octets): Octets { seq(|s|, i requires 0 <= i < |s| => s[|s| - 1 - i]) }

  lemma ReversedAppend(a: Octets, b: Octets)
    ensures Reversed(a + b) == Reversed(b) + Reversed(a)
  {
  }

  lemma {:induction false} ReversedLittle(n: nat)
    ensures Below(Base58, Numeral(Base58, n)) && Reversed(LittleText(n)) == Text(Numeral(Base58, n))
  {
    if n > 0 {
      ReversedLittle(n / 58);
      ReversedAppend([ToChar(n % 58)], LittleText(n / 58));
    }
  }

  lemma ReversedResult(n: nat, z: nat)
    ensures Below(Base58, Zeros(z) + Numeral(Base58, n))
    ensures Reversed(LittleText(n) + Ones(z)) == Text(Zeros(z) + Numeral(Base58, n))
  {
    hide LittleText, Numeral;
    ReversedAppend(LittleText(n), Ones(z));
    ReversedLittle(n);
    ZerosSize(z);
  }

  /** Swapping ends towards the middle reverses the buffer. */
  method ReverseInPlace(a: array<Byte>)
    modifies a
    ensures a[..] == Reversed(old(a[..]))
  {
    var alen := a.Length;
    for i := 0 to alen / 2
      invariant forall k :: 0 <= k < i ==> a[k] == old(a[alen - 1 - k]) && a[alen - 1 - k] == old(a[k])
      invariant forall k :: i <= k < alen - i ==> a[k] == old(a[k])
    {
      a[i], a[alen - 1 - i] := a[alen - 1 - i], a[i];
    }
  }

  /** One block of the outer loop: every digit when it is the last, ten digits otherwise. */
  method AppendChunk(answer: Octets, x: nat) returns (r: Octets, rest: nat)
    requires x > 0
    ensures r + LittleText(rest) == answer + LittleText(x) && rest < x
  {
    rest := x / RADIX10;
    var m := x % RADIX10;
    if rest == 0 {
      r := AppendAll(answer, m);
      LittleNothing();
    } else {
      r := AppendTen(answer, m);
      Radix10Value();
      ChunkText(rest, m, 10);
      hide *;
      Assoc(answer, LowText(m, 10), LittleText(rest));
    }
  }

  method AppendAll(answer: Octets, mod: nat) returns (r: Octets)
    ensures r == answer + LittleText(mod)
  {
    r := answer;
    var m: nat := mod;
    while m > 0
      invariant r + LittleText(m) == answer + LittleText(mod)
    {
      Assoc(r, [ToChar(m % 58)], LittleText(m / 58));
      r := r + [ToChar(m % 58)];
      m := m / 58;
    }
  }

  method AppendTen(answer: Octets, mod: nat) returns (r: Octets)
    ensures r == answer + LowText(mod, 10)
  {
    r := answer;
    var m := mod;
    for i := 0 to 10
      invariant r + LowText(m, 10 - i) == answer + LowText(mod, 10)
    {
      Assoc(r, [ToChar(m % 58)], LowText(m / 58, 9 - i));
      r := r + [ToChar(m % 58)];
      m := m / 58;
    }
  }

  method Encode(b: Octets) returns (r: Octets)
    ensures r == Encoded(b)
  {
    hide LittleText, LowText, Value, Numeral, Leading, Zeros, Text, Reversed;
    ghost var n := Value(Base256, b);
    var x := Value(Base256, b);
    var answer: Octets := [];
    while x > 0
      invariant answer + LittleText(x) == [] + LittleText(n)
    {
      answer, x := AppendChunk(answer, x);
    }
    LittleNothing();
    assert answer + [] == answer && [] + LittleText(n) == LittleText(n);
    var z := CountLeading(b);
    answer := answer + Ones(z);
    ReversedResult(n, z);
    var a := new Byte[|answer|](i requires 0 <= i < |answer| => answer[i]);
    assert a[..] == answer;
    ReverseInPlace(a);
    return a[..];
  }

  lemma LittleNothing()
    ensures LittleText(0) == []
  {
  }

  method CountLeading(b: Octets) returns (z: nat)
    ensures z == Leading(b)
  {
    z := 0;
    assert b[0..] == b;
    while z < |b| && b[z] == 0
      invariant z <= |b| && Leading(b) == z + Leading(b[z..])
    {
      assert b[z..][1..] == b[z + 1..];
      z := z + 1;
    }
  }

  // ----- decoding in chunks

  /** The rune that starts at byte k of a block, when it is below 256. */
  function LowRune(t: Octets, k: nat): Option<nat>
    requires k < |t|
  {
    if t[k] < 0x80 then Some(t[k])
    else if 0xC2 <= t[k] <= 0xC3 && k + 1 < |t| && 0x80 <= t[k + 1] <= 0xBF then
      Some((t[k] - 0xC0) * 64 + (t[k + 1] - 0x80))
    else None
  }

  /** A two-byte rune below 256 is never in the alphabet. */
  lemma LowRuneMisses(t: Octets, k: nat)
    requires k < |t| && t[k] >= 0x80 && LowRune(t, k).Some?
    ensures 0x80 <= LowRune(t, k).value < 256 && FromChar(LowRune(t, k).value).None?
  {
  }

  datatype Chunk = Total(value: nat) | Miss | TablePanic

  /** One block of at most ten bytes; the running total stays below 2^63. */
  method ReadChunk(t: Octets) returns (r: Chunk)
    requires 0 < |t| <= 10
    ensures InAlphabet(t) ==> r == Total(Value(Base58, DigitsIn(t)))
    ensures !InAlphabet(t) ==>
              FirstBad(t, 0) < |t| && r == if LowRune(t, FirstBad(t, 0)).Some? then Miss else TablePanic
    ensures r.Total? ==> r.value < RADIX10
  {
    FirstBadIs(t, 0);
    hide Value, FromChar, FirstBad;
    var sum: nat := 0;
    ValueNothing();
    assert DigitsIn(t[..0]) == [];
    for i := 0 to |t|
      invariant InAlphabet(t[..i]) && sum == Value(Base58, DigitsIn(t[..i])) && FirstBad(t, 0) >= i
    {
      var v := LowRune(t, i);
      if v.None? {
        NotAscii(t, i);
        return TablePanic;
      }
      if t[i] >= 0x80 {
        LowRuneMisses(t, i);
        NotAscii(t, i);
      }
      var tmp := FromChar(v.value);
      if tmp.None? { return Miss; }
      DigitsSnoc(t[..i], t[i]);
      assert t[..i + 1] == t[..i] + [t[i]];
      sum := sum * 58 + tmp.value;
    }
    assert t[..|t|] == t;
    ChunkBound(t);
    return Total(sum);
  }

  lemma NotAscii(t: Octets, i: nat)
    requires i < |t| && t[i] >= 0x80
    ensures FromChar(t[i]).None?
  {
  }

  lemma ChunkBound(t: Octets)
    requires InAlphabet(t) && |t| <= 10
    ensures Value(Base58, DigitsIn(t)) < RADIX10
  {
    DigitsBelow(t);
    ValueBelow(Base58, DigitsIn(t));
    Radix10Value();
    PowUpTo(|t|, 10);
  }

  lemma {:induction false} PowUpTo(j: nat, k: nat)
    requires j <= k
    ensures Pow(Base58, j) <= Pow(Base58, k)
  {
    if j < k { PowUpTo(j, k - 1); }
  }

  lemma DigitsSnoc(s: Octets, c: Byte)
    requires InAlphabet(s) && FromChar(c).Some?
    ensures InAlphabet(s + [c])
    ensures Value(Base58, DigitsIn(s + [c])) == Value(Base58, DigitsIn(s)) * 58 + FromChar(c).value
  {
    var ds := DigitsIn(s + [c]);
    assert ds[..|s|] == DigitsIn(s);
  }

  lemma DigitsJoin(s: Octets, t: Octets)
    requires InAlphabet(s) && InAlphabet(t)
    ensures InAlphabet(s + t)
    ensures Value(Base58, DigitsIn(s + t)) == Value(Base58, DigitsIn(s)) * Pow(Base58, |t|) + Value(Base58, DigitsIn(t))
  {
    hide Value, Pow, FromChar;
    ValueAppend(Base58, DigitsIn(s), DigitsIn(t));
    assert DigitsIn(s + t) == DigitsIn(s) + DigitsIn(t);
  }

  /** Decode; None is the panic of the table index. */
  method Decode(s: Octets) returns (r: Option<Octets>)
    ensures r == Decoded(s)
  {
    hide Value, Numeral, Leading, Zeros, Pow, FirstBad, PastTable, LowRune;
    var answer: nat := 0;
    var i: nat := 0;
    ValueNothing();
    assert DigitsIn(s[..0]) == [];
    while i < |s|
      invariant i <= |s| && (i < |s| ==> i % 10 == 0)
      invariant InAlphabet(s[..i]) && answer == Value(Base58, DigitsIn(s[..i]))
    {
      var n := if |s| - i > 10 then 10 else |s| - i;
      var t := s[i..i + n];
      var total := ReadChunk(t);
      if !total.Total? {
        BadChunk(s, i, n);
        return if total.Miss? then Some([]) else None;
      }
      ChunkInAlphabet(s, i, n);
      DigitsJoin(s[..i], t);
      assert s[..i] + t == s[..i + n];
      answer := answer * Pow(Base58, n) + total.value;
      i := i + n;
    }
    assert s[..i] == s;
    ValueOfNumeral(Base256, answer);
    var tmpval := AsOctets(Numeral(Base256, answer));
    var numZeros := CountOnes(s);
    ZerosSize(numZeros);
    var val: Octets := seq(numZeros, k => 0) + tmpval;
    ConvertBelow(Base58, Base256, DigitsIn(s));
    assert AsOctets(Convert(Base58, Base256, DigitsIn(s))) == val;
    return Some(val);
  }

  lemma ChunkInAlphabet(s: Octets, i: nat, n: nat)
    requires i + n <= |s| && InAlphabet(s[..i]) && InAlphabet(s[i..i + n])
    ensures InAlphabet(s[..i + n])
  {
    assert s[..i + n] == s[..i] + s[i..i + n];
  }

  /** The first bad byte of the block is the first of the string, and the block decides about the panic. */
  lemma BadChunk(s: Octets, i: nat, n: nat)
    requires i < |s| && i % 10 == 0 && n == (if |s| - i > 10 then 10 else |s| - i)
    requires InAlphabet(s[..i]) && !InAlphabet(s[i..i + n])
    ensures !InAlphabet(s) && FirstBad(s[i..i + n], 0) < n
    ensures Panics(s) <==> LowRune(s[i..i + n], FirstBad(s[i..i + n], 0)).None?
  {
    var t := s[i..i + n];
    FirstBadIs(t, 0);
    FirstBadIs(s, 0);
    var k := FirstBad(t, 0);
    hide FirstBad;
    assert t[k] == s[i + k];
    assert forall j :: 0 <= j < i ==> s[j] == s[..i][j];
    assert forall j :: 0 <= j < k ==> t[j] == s[i + j];
    assert FirstBad(s, 0) == i + k;
    assert (i + k) % 10 == 9 <==> k == 9;
    if k + 1 < n { assert t[k + 1] == s[i + k + 1]; }
  }

  lemma ValueNothing()
    ensures Value(Base58, []) == 0
  {
  }

  method CountOnes(s: Octets) returns (z: nat)
    requires InAlphabet(s)
    ensures z == Leading(DigitsIn(s))
  {
    z := 0;
    ghost var ds := DigitsIn(s);
    assert ds[0..] == ds;
    while z < |s| && s[z] == 49
      invariant z <= |s| && Leading(ds) == z + Leading(ds[z..])
    {
      assert ds[z..][1..] == ds[z + 1..] && ds[z] == 0;
      z := z + 1;
    }
    if z < |s| {
      CharDigit(s[z], 0);
      assert ds[z] != 0;
    }
  }

  // ----- with a checksum

  datatype CheckResult = Checked(payload: Octets, version: Byte) | BadFormat | BadChecksum | IndexPanic

  function Checksum(c: C.Crypto, b: Octets): Octets
    requires c.Sound()
  {
    c.DoubleHash(b)[..4]
  }

  function CheckEncode(c: C.Crypto, input: Octets, version: Byte): Octets
    requires c.Sound()
  {
    Encoded([version] + input + Checksum(c, [version] + input))
  }

  function CheckDecode(c: C.Crypto, s: Octets): CheckResult
    requires c.Sound()
  {
    match Decoded(s)
    case None => IndexPanic
    case Some(d) =>
      var n := |d|;
      if n < 5 then BadFormat
      else if Checksum(c, d[..n - 4]) != d[n - 4..] then BadChecksum
      else Checked(d[1..n - 4], d[0])
  }

  lemma CheckDecodeEncode(c: C.Crypto, input: Octets, version: Byte)
    requires c.Sound()
    ensures CheckDecode(c, CheckEncode(c, input, version)) == Checked(input, version)
  {
    hide Encoded, Decoded;
    var body := [version] + input;
    var b := body + Checksum(c, body);
    DecodedEncoded(b);
    assert b[..|b| - 4] == body && b[|b| - 4..] == Checksum(c, body);
  }

  /** A string that decodes is the only encoding of what it decodes to. */
  lemma CheckEncodeDecode(c: C.Crypto, s: Octets)
    requires c.Sound() && CheckDecode(c, s).Checked?
    ensures CheckEncode(c, CheckDecode(c, s).payload, CheckDecode(c, s).version) == s
  {
    EncodedDecodedOk(s);
    var d := Decoded(s).value;
    hide Encoded, Decoded;
    var n := |d|;
    assert [d[0]] + d[1..n - 4] == d[..n - 4];
    assert d[..n - 4] + d[n - 4..] == d;
  }

  /**
   * A string is accepted exactly when it is the encoding of a version byte, a payload and the first four
   * bytes of their double SHA-256.
   */
  lemma CheckDecodeIff(c: C.Crypto, s: Octets, payload: Octets, version: Byte)
    requires c.Sound()
    ensures CheckDecode(c, s) == Checked(payload, version) <==>
            s == Encoded([version] + payload + c.sha256(c.sha256([version] + payload))[..4])
  {
    hide Encoded, Decoded;
    CheckDecodeEncode(c, payload, version);
    if CheckDecode(c, s).Checked? { CheckEncodeDecode(c, s); }
  }

  /** Why a string is refused. */
  lemma CheckRefuses(c: C.Crypto, s: Octets)
    requires c.Sound()
    ensures CheckDecode(c, s) == IndexPanic <==> Panics(s)
    ensures CheckDecode(c, s) == BadFormat <==> Decoded(s).Some? && |Decoded(s).value| < 5
    ensures CheckDecode(c, s) == BadChecksum <==>
            Decoded(s).Some? && exists b: Octets, sum: Octets ::
              && |b| > 0 && |sum| == 4 && Decoded(s).value == b + sum && c.sha256(c.sha256(b))[..4] != sum
  {
    hide Decoded, Panics;
    DecodedPanicsIff(s);
    if Decoded(s).Some? {
      var d := Decoded(s).value;
      if |d| >= 5 {
        assert d == d[..|d| - 4] + d[|d| - 4..];
        forall b: Octets, sum: Octets | d == b + sum && |sum| == 4 ensures b == d[..|d| - 4] && sum == d[|d| - 4..] {
        }
      }
    }
  }

  lemma EncodedDecodedOk(s: Octets)
    ensures Decoded(s).Some? && Decoded(s).value != [] ==> Encoded(Decoded(s).value) == s
  {
    if InAlphabet(s) { EncodedDecoded(s); }
  }

  // ----- length

  /** Five bytes are fewer than seven digits, and so on for every multiple. */
  lemma {:induction false} FivesAndSevens(j: nat)
    ensures Pow(Base256, 5 * j) <= Pow(Base58, 7 * j)
  {
    if j > 0 {
      FivesAndSevens(j - 1);
      var k, m := 5 * (j - 1), 7 * (j - 1);
      Five(k);
      Seven(m);
    }
  }

  lemma Five(k: nat)
    ensures Pow(Base256, k + 5) == 1099511627776 * Pow(Base256, k)
  {
    assert Pow(Base256, k + 1) == 256 * Pow(Base256, k);
    assert Pow(Base256, k + 2) == 256 * Pow(Base256, k + 1);
    assert Pow(Base256, k + 3) == 256 * Pow(Base256, k + 2);
    assert Pow(Base256, k + 4) == 256 * Pow(Base256, k + 3);
  }

  lemma Seven(k: nat)
    ensures Pow(Base58, k + 7) == 2207984167552 * Pow(Base58, k)
  {
    assert Pow(Base58, k + 1) == 58 * Pow(Base58, k);
    assert Pow(Base58, k + 2) == 58 * Pow(Base58, k + 1);
    assert Pow(Base58, k + 3) == 58 * Pow(Base58, k + 2);
    assert Pow(Base58, k + 4) == 58 * Pow(Base58, k + 3);
    assert Pow(Base58, k + 5) == 58 * Pow(Base58, k + 4);
    assert Pow(Base58, k + 6) == 58 * Pow(Base58, k + 5);
  }

  lemma {:induction false} PowersCompare(k: nat)
    requires k <= 25
    ensures Pow(Base256, k) <= Pow(Base58, k + 10)
    decreases 25 - k
  {
    if k == 25 {
      FivesAndSevens(5);
    } else {
      PowersCompare(k + 1);
    }
  }

  /** A payload of 25 bytes takes at most 35 characters. */
  lemma EncodedLength(b: Octets)
    requires |b| == 25
    ensures |Encoded(b)| <= 35
  {
    hide Value, Numeral, Leading, Zeros, Pow;
    var z := Leading(b);
    SplitLeading(b);
    var body: Digits := b[z..];
    ValueSkipsZeros(Base256, z, body);
    ValueBelow(Base256, body);
    PowersCompare(25 - z);
    NumeralSize(Base58, Value(Base256, b), 35 - z);
    ZerosSize(z);
    ConvertBelow(Base256, Base58, b);
  }
}
