/**
 * The message that ThtDecode fills (wire/msgtx.go): its script fields are slices of borrowed buffers or
 * nil, its list elements pointers or nil, and on an error the fields are walked to hand the buffers back.
 */
module Slots {
  import opened Bytes
  import opened Wire

  datatype Slice = Slice(buf: nat, off: nat, len: nat)

  function Bufs(ss: seq<Slice>): set<nat> { set s | s in ss :: s.buf }

  /** No buffer occurs twice. */
  ghost predicate Apart(ss: seq<Slice>) { forall i, j :: 0 <= i < j < |ss| ==> ss[i].buf != ss[j].buf }

  /** TxIn and TxOut while they are being read; None is nil. */
  datatype InSlot = InSlot(prev: OutPoint, sig: Option<Slice>, wit: seq<Option<Slice>>, sequence: nat)
  datatype OutSlot = OutSlot(value: int, pk: Option<Slice>)

  type Ins = seq<Option<InSlot>>
  type Outs = seq<Option<OutSlot>>

  function NewIn(): InSlot { InSlot(OutPoint([], 0), None, [], 0) }
  function NewOut(): OutSlot { OutSlot(0, None) }

  // ----- the non-nil fields

  function Field(s: Option<Slice>): seq<Slice> { if s.Some? then [s.value] else [] }

  function Collect<T>(xs: seq<T>, f: T -> seq<Slice>): seq<Slice> {
    if xs == [] then [] else f(xs[0]) + Collect(xs[1..], f)
  }

  function SigOf(x: Option<InSlot>): seq<Slice> { if x.Some? then Field(x.value.sig) else [] }
  function WitOf(x: Option<InSlot>): seq<Slice> { if x.Some? then Collect(x.value.wit, Field) else [] }
  function PkOf(y: Option<OutSlot>): seq<Slice> { if y.Some? then Field(y.value.pk) else [] }
  function FieldsOf(x: Option<InSlot>): seq<Slice> { SigOf(x) + WitOf(x) }

  /** The fields in the order in which they are filled. */
  function Borrowed(ins: Ins, outs: Outs): seq<Slice> {
    (Collect(ins, SigOf) + Collect(outs, PkOf)) + Collect(ins, WitOf)
  }

  /** The fields in the order in which returnScriptBuffers visits them. */
  function Walk(ins: Ins, outs: Outs): seq<Slice> { Collect(ins, FieldsOf) + Collect(outs, PkOf) }

  // ----- collecting

  lemma {:induction false} CollectAppend<T>(a: seq<T>, b: seq<T>, f: T -> seq<Slice>)
    ensures Collect(a + b, f) == Collect(a, f) + Collect(b, f)
  {
    if a == [] {
      assert a + b == b;
    } else {
      CollectAppend(a[1..], b, f);
      assert (a + b)[1..] == a[1..] + b;
      Assoc(f(a[0]), Collect(a[1..], f), Collect(b, f));
    }
  }

  lemma {:induction false} CollectNone<T>(xs: seq<T>, f: T -> seq<Slice>)
    requires forall i :: 0 <= i < |xs| ==> f(xs[i]) == []
    ensures Collect(xs, f) == []
  {
    if xs != [] { CollectNone(xs[1..], f); }
  }

  lemma CollectAt<T>(xs: seq<T>, i: nat, f: T -> seq<Slice>)
    requires i < |xs|
    ensures Collect(xs, f) == Collect(xs[..i], f) + (f(xs[i]) + Collect(xs[i + 1..], f))
  {
    assert xs == xs[..i] + xs[i..];
    CollectAppend(xs[..i], xs[i..], f);
    assert xs[i..][1..] == xs[i + 1..];
  }

  lemma CollectUpdate<T>(xs: seq<T>, i: nat, x: T, f: T -> seq<Slice>)
    requires i < |xs|
    ensures Collect(xs[i := x], f) == Collect(xs[..i], f) + (f(x) + Collect(xs[i + 1..], f))
  {
    var ys := xs[i := x];
    CollectAt(ys, i, f);
    assert ys[..i] == xs[..i] && ys[i + 1..] == xs[i + 1..];
  }

  /** An update that changes nothing for f. */
  lemma CollectSame<T>(xs: seq<T>, i: nat, x: T, f: T -> seq<Slice>)
    requires i < |xs| && f(x) == f(xs[i])
    ensures Collect(xs[i := x], f) == Collect(xs, f)
  {
    CollectAt(xs, i, f);
    CollectUpdate(xs, i, x, f);
  }

  /** An update that adds one slice where nothing follows. */
  lemma CollectGrows<T>(xs: seq<T>, i: nat, x: T, s: Slice, f: T -> seq<Slice>)
    requires i < |xs| && f(x) == f(xs[i]) + [s] && forall k :: i < k < |xs| ==> f(xs[k]) == []
    ensures Collect(xs[i := x], f) == Collect(xs, f) + [s]
  {
    CollectAt(xs, i, f);
    CollectUpdate(xs, i, x, f);
    CollectNone(xs[i + 1..], f);
    Assoc(Collect(xs[..i], f), f(xs[i]), [s]);
  }

  lemma CollectNils<T>(n: nat, f: Option<T> -> seq<Slice>)
    requires f(None) == []
    ensures Collect(seq(n, k => None), f) == []
  {
    CollectNone(seq(n, k => None), f);
  }

  // ----- filling

  /** A new element, or its header, holds no script yet. */
  lemma HeaderFilled(ins: Ins, outs: Outs, i: nat, slot: InSlot)
    requires i < |ins| && slot.sig == None && slot.wit == [] && SigOf(ins[i]) == [] && WitOf(ins[i]) == []
    ensures Borrowed(ins[i := Some(slot)], outs) == Borrowed(ins, outs)
  {
    CollectSame(ins, i, Some(slot), SigOf);
    CollectSame(ins, i, Some(slot), WitOf);
  }

  /** The last of the sequence fields: nothing but the number changes. */
  lemma NumberFilled(ins: Ins, outs: Outs, i: nat, sequence: nat)
    requires i < |ins| && ins[i].Some?
    ensures Borrowed(ins[i := Some(ins[i].value.(sequence := sequence))], outs) == Borrowed(ins, outs)
  {
    var x := Some(ins[i].value.(sequence := sequence));
    CollectSame(ins, i, x, SigOf);
    CollectSame(ins, i, x, WitOf);
  }

  lemma SigFilled(ins: Ins, i: nat, s: Slice)
    requires i < |ins| && ins[i].Some? && ins[i].value.sig == None
    requires (forall k :: 0 <= k < |ins| ==> WitOf(ins[k]) == []) && (forall k :: i < k < |ins| ==> SigOf(ins[k]) == [])
    ensures Borrowed(ins[i := Some(ins[i].value.(sig := Some(s)))], []) == Borrowed(ins, []) + [s]
  {
    var x := Some(ins[i].value.(sig := Some(s)));
    assert SigOf(x) == SigOf(ins[i]) + [s];
    CollectGrows(ins, i, x, s, SigOf);
    CollectSame(ins, i, x, WitOf);
    CollectNone(ins, WitOf);
  }

  lemma NewOutFilled(ins: Ins, outs: Outs, i: nat, slot: OutSlot)
    requires i < |outs| && slot.pk == None && PkOf(outs[i]) == []
    ensures Borrowed(ins, outs[i := Some(slot)]) == Borrowed(ins, outs)
  {
    CollectSame(outs, i, Some(slot), PkOf);
  }

  lemma PkFilled(ins: Ins, outs: Outs, i: nat, s: Slice)
    requires i < |outs| && outs[i].Some? && outs[i].value.pk == None
    requires (forall k :: 0 <= k < |ins| ==> WitOf(ins[k]) == [])
              && (forall k :: i < k < |outs| ==> PkOf(outs[k]) == [])
    ensures Borrowed(ins, outs[i := Some(outs[i].value.(pk := Some(s)))]) == Borrowed(ins, outs) + [s]
  {
    var x := Some(outs[i].value.(pk := Some(s)));
    assert PkOf(x) == PkOf(outs[i]) + [s];
    CollectGrows(outs, i, x, s, PkOf);
    CollectNone(ins, WitOf);
    Assoc(Collect(ins, SigOf), Collect(outs, PkOf), [s]);
  }

  /** A witness of nils. */
  lemma WitnessMade(ins: Ins, outs: Outs, i: nat, n: nat)
    requires i < |ins| && ins[i].Some? && WitOf(ins[i]) == []
    ensures Borrowed(ins[i := Some(ins[i].value.(wit := seq(n, k => None)))], outs) == Borrowed(ins, outs)
  {
    var x := Some(ins[i].value.(wit := seq(n, k => None)));
    CollectNils(n, Field);
    CollectSame(ins, i, x, SigOf);
    CollectSame(ins, i, x, WitOf);
  }

  lemma ItemFilled(ins: Ins, outs: Outs, i: nat, j: nat, s: Slice)
    requires i < |ins| && ins[i].Some? && j < |ins[i].value.wit|
    requires forall k :: j <= k < |ins[i].value.wit| ==> ins[i].value.wit[k] == None
    requires forall k :: i < k < |ins| ==> WitOf(ins[k]) == []
    ensures Borrowed(ins[i := Some(ins[i].value.(wit := ins[i].value.wit[j := Some(s)]))], outs) ==
            Borrowed(ins, outs) + [s]
  {
    var wit := ins[i].value.wit;
    var x := Some(ins[i].value.(wit := wit[j := Some(s)]));
    CollectGrows(wit, j, Some(s), s, Field);
    CollectSame(ins, i, x, SigOf);
    CollectGrows(ins, i, x, s, WitOf);
    Assoc(Collect(ins, SigOf) + Collect(outs, PkOf), Collect(ins, WitOf), [s]);
  }

  // ----- the walk visits exactly the borrowed slices

  lemma BufsAppend(a: seq<Slice>, b: seq<Slice>)
    ensures Bufs(a + b) == Bufs(a) + Bufs(b)
  {
    forall x | x in Bufs(a) + Bufs(b)
      ensures x in Bufs(a + b)
    {
      if x in Bufs(a) {
        var s :| s in a && s.buf == x;
        assert s in a + b;
      } else {
        var s :| s in b && s.buf == x;
        assert s in a + b;
      }
    }
  }

  lemma ApartAppend(a: seq<Slice>, b: seq<Slice>)
    ensures Apart(a + b) <==> Apart(a) && Apart(b) && Bufs(a) !! Bufs(b)
  {
    var s := a + b;
    if Apart(s) {
      assert forall i :: 0 <= i < |a| ==> s[i] == a[i];
      assert forall i :: 0 <= i < |b| ==> s[|a| + i] == b[i];
      assert forall i, j :: 0 <= i < |a| && 0 <= j < |b| ==> a[i].buf != b[j].buf;
    }
    if Apart(a) && Apart(b) && Bufs(a) !! Bufs(b) {
      forall i, j | 0 <= i < j < |s|
        ensures s[i].buf != s[j].buf
      {
        assert i < |a| ==> a[i] in a && a[i].buf in Bufs(a);
        assert j >= |a| ==> b[j - |a|] in b && b[j - |a|].buf in Bufs(b);
      }
    }
  }

  /** Same buffers, each once in both. */
  ghost predicate SameBufs(a: seq<Slice>, b: seq<Slice>) { Bufs(a) == Bufs(b) && (Apart(a) <==> Apart(b)) }

  /** A list moved from behind another one to its front. */
  lemma Shift(x: seq<Slice>, a: seq<Slice>, p: seq<Slice>, w: seq<Slice>, c: seq<Slice>)
    ensures SameBufs(((x + a) + p) + (w + c), (x + w) + ((a + p) + c))
  {
    hide Bufs, Apart;
    BufsAppend((x + a) + p, w + c);
    BufsAppend(x + a, p);
    BufsAppend(x, a);
    BufsAppend(w, c);
    BufsAppend(x + w, (a + p) + c);
    BufsAppend(x, w);
    BufsAppend(a + p, c);
    BufsAppend(a, p);
    ApartAppend((x + a) + p, w + c);
    ApartAppend(x + a, p);
    ApartAppend(x, a);
    ApartAppend(w, c);
    ApartAppend(x + w, (a + p) + c);
    ApartAppend(x, w);
    ApartAppend(a + p, c);
    ApartAppend(a, p);
  }

  lemma SameAfter(f: seq<Slice>, a: seq<Slice>, b: seq<Slice>)
    requires SameBufs(a, b)
    ensures SameBufs(f + a, f + b)
  {
    hide Bufs, Apart;
    BufsAppend(f, a);
    BufsAppend(f, b);
    ApartAppend(f, a);
    ApartAppend(f, b);
  }

  /** Walking the fields meets the borrowed buffers, each as often as it was borrowed into a field. */
  lemma {:induction false} WalkIsBorrowed(ins: Ins, outs: Outs)
    ensures SameBufs(Borrowed(ins, outs), Walk(ins, outs))
  {
    hide SameBufs, SigOf, WitOf, PkOf;
    var p := Collect(outs, PkOf);
    if ins == [] {
      assert Borrowed(ins, outs) == p && Walk(ins, outs) == p;
      SameSelf(p);
    } else {
      var x, rest := ins[0], ins[1..];
      WalkIsBorrowed(rest, outs);
      Shift(SigOf(x), Collect(rest, SigOf), p, WitOf(x), Collect(rest, WitOf));
      SameAfter(FieldsOf(x), Borrowed(rest, outs), Walk(rest, outs));
      Assoc(FieldsOf(x), Collect(rest, FieldsOf), p);
      SameTrans(Borrowed(ins, outs), FieldsOf(x) + Borrowed(rest, outs), Walk(ins, outs));
    }
  }

  lemma SameSelf(a: seq<Slice>)
    ensures SameBufs(a, a)
  {
  }

  lemma SameTrans(a: seq<Slice>, b: seq<Slice>, c: seq<Slice>)
    requires SameBufs(a, b) && SameBufs(b, c)
    ensures SameBufs(a, c)
  {
  }

  lemma BufsCons(s: Slice, ss: seq<Slice>)
    ensures Bufs([s] + ss) == {s.buf} + Bufs(ss)
    ensures Apart([s] + ss) ==> Apart(ss) && s.buf !in Bufs(ss)
  {
    BufsAppend([s], ss);
    ApartAppend([s], ss);
    assert Bufs([s]) == {s.buf} by { assert s in [s]; }
  }

  // ----- how far reading has come

  /** The slot carries the header of v and a script. */
  predicate Headed(slot: InSlot, v: TxIn) { slot.sig.Some? && slot.prev == v.prev && slot.sequence == v.sequence }

  /** The inputs vs were read, and nothing of the others. */
  ghost predicate InsRead(ins: Ins, vs: seq<TxIn>, n: nat) {
    && |ins| == n && |vs| <= n
    && (forall k :: 0 <= k < |vs| ==> ins[k].Some? && ins[k].value.wit == [] && Headed(ins[k].value, vs[k]))
    && (forall k :: |vs| <= k < n ==> ins[k] == None)
  }

  /** The inputs vs were read, and the next one is at slot. */
  ghost predicate InReading(ins: Ins, vs: seq<TxIn>, n: nat, slot: InSlot) {
    && |ins| == n && |vs| < n && ins[|vs|] == Some(slot) && slot.wit == []
    && (forall k :: 0 <= k < |vs| ==> ins[k].Some? && ins[k].value.wit == [] && Headed(ins[k].value, vs[k]))
    && (forall k :: |vs| < k < n ==> ins[k] == None)
  }

  function Nils<T>(n: nat): seq<Option<T>> { seq(n, k => None) }

  lemma InsStart(n: nat)
    ensures InsRead(Nils(n), [], n) && Borrowed(Nils(n), []) == []
  {
    CollectNone(Nils(n), SigOf);
    CollectNone(Nils(n), WitOf);
  }

  lemma InMade(ins: Ins, vs: seq<TxIn>, n: nat)
    requires InsRead(ins, vs, n) && |vs| < n
    ensures InReading(ins[|vs| := Some(NewIn())], vs, n, NewIn())
    ensures Borrowed(ins[|vs| := Some(NewIn())], []) == Borrowed(ins, [])
  {
    HeaderFilled(ins, [], |vs|, NewIn());
  }

  lemma PrevSet(ins: Ins, vs: seq<TxIn>, n: nat, slot: InSlot, prev: OutPoint)
    requires InReading(ins, vs, n, slot) && slot.sig == None
    ensures InReading(ins[|vs| := Some(slot.(prev := prev))], vs, n, slot.(prev := prev))
    ensures Borrowed(ins[|vs| := Some(slot.(prev := prev))], []) == Borrowed(ins, [])
  {
    HeaderFilled(ins, [], |vs|, slot.(prev := prev));
  }

  lemma SigSet(ins: Ins, vs: seq<TxIn>, n: nat, slot: InSlot, s: Slice)
    requires InReading(ins, vs, n, slot) && slot.sig == None
    ensures InReading(ins[|vs| := Some(slot.(sig := Some(s)))], vs, n, slot.(sig := Some(s)))
    ensures Borrowed(ins[|vs| := Some(slot.(sig := Some(s)))], []) == Borrowed(ins, []) + [s]
  {
    SigFilled(ins, |vs|, s);
  }

  lemma SequenceSet(ins: Ins, vs: seq<TxIn>, n: nat, slot: InSlot, v: TxIn)
    requires InReading(ins, vs, n, slot) && slot.sig.Some? && slot.prev == v.prev
    ensures InsRead(ins[|vs| := Some(slot.(sequence := v.sequence))], vs + [v], n)
    ensures Borrowed(ins[|vs| := Some(slot.(sequence := v.sequence))], []) == Borrowed(ins, [])
  {
    NumberFilled(ins, [], |vs|, v.sequence);
  }

  ghost predicate NoWits(ins: Ins) { forall k :: 0 <= k < |ins| ==> WitOf(ins[k]) == [] }

  ghost predicate OutsRead(outs: Outs, vs: seq<TxOut>, n: nat) {
    && |outs| == n && |vs| <= n
    && (forall k :: 0 <= k < |vs| ==> outs[k].Some? && outs[k].value.pk.Some? && outs[k].value.value == vs[k].value)
    && (forall k :: |vs| <= k < n ==> outs[k] == None)
  }

  ghost predicate OutReading(outs: Outs, vs: seq<TxOut>, n: nat, slot: OutSlot) {
    && |outs| == n && |vs| < n && outs[|vs|] == Some(slot)
    && (forall k :: 0 <= k < |vs| ==> outs[k].Some? && outs[k].value.pk.Some? && outs[k].value.value == vs[k].value)
    && (forall k :: |vs| < k < n ==> outs[k] == None)
  }

  lemma OutsStarted(ins: Ins, n: nat)
    ensures OutsRead(Nils(n), [], n) && Borrowed(ins, Nils(n)) == Borrowed(ins, [])
  {
    CollectNone(Nils(n), PkOf);
  }

  lemma OutMade(ins: Ins, outs: Outs, vs: seq<TxOut>, n: nat)
    requires OutsRead(outs, vs, n) && |vs| < n
    ensures OutReading(outs[|vs| := Some(NewOut())], vs, n, NewOut())
    ensures Borrowed(ins, outs[|vs| := Some(NewOut())]) == Borrowed(ins, outs)
  {
    NewOutFilled(ins, outs, |vs|, NewOut());
  }

  lemma ValueSet(ins: Ins, outs: Outs, vs: seq<TxOut>, n: nat, slot: OutSlot, value: int)
    requires OutReading(outs, vs, n, slot) && slot.pk == None
    ensures OutReading(outs[|vs| := Some(slot.(value := value))], vs, n, slot.(value := value))
    ensures Borrowed(ins, outs[|vs| := Some(slot.(value := value))]) == Borrowed(ins, outs)
  {
    NewOutFilled(ins, outs, |vs|, slot.(value := value));
  }

  lemma PkSet(ins: Ins, outs: Outs, vs: seq<TxOut>, n: nat, slot: OutSlot, s: Slice, v: TxOut)
    requires NoWits(ins) && OutReading(outs, vs, n, slot) && slot.pk == None && slot.value == v.value
    ensures OutsRead(outs[|vs| := Some(slot.(pk := Some(s)))], vs + [v], n)
    ensures Borrowed(ins, outs[|vs| := Some(slot.(pk := Some(s)))]) == Borrowed(ins, outs) + [s]
  {
    PkFilled(ins, outs, |vs|, s);
  }

  predicate Filled(ws: seq<Option<Slice>>, j: nat) {
    j <= |ws| && (forall k :: 0 <= k < j ==> ws[k].Some?) && (forall k :: j <= k < |ws| ==> ws[k] == None)
  }

  /** All headers are there, and the witnesses of the first inputs, complete. */
  ghost predicate WitsRead(ins: Ins, vs: seq<TxIn>, wits: seq<seq<Octets>>) {
    && |wits| <= |vs| == |ins|
    && (forall k :: 0 <= k < |ins| ==> ins[k].Some? && Headed(ins[k].value, vs[k]))
    && (forall k :: 0 <= k < |wits| ==> |ins[k].value.wit| == |wits[k]| && Filled(ins[k].value.wit, |wits[k]|))
    && (forall k :: |wits| <= k < |ins| ==> ins[k].value.wit == [])
  }

  /** As before, and the first j of n items of the next witness. */
  ghost predicate ItemsRead(ins: Ins, vs: seq<TxIn>, wits: seq<seq<Octets>>, j: nat, n: nat) {
    && |wits| < |vs| == |ins|
    && (forall k :: 0 <= k < |ins| ==> ins[k].Some? && Headed(ins[k].value, vs[k]))
    && (forall k :: 0 <= k < |wits| ==> |ins[k].value.wit| == |wits[k]| && Filled(ins[k].value.wit, |wits[k]|))
    && |ins[|wits|].value.wit| == n && Filled(ins[|wits|].value.wit, j)
    && (forall k :: |wits| < k < |ins| ==> ins[k].value.wit == [])
  }

  lemma WitsStart(ins: Ins, vs: seq<TxIn>)
    requires InsRead(ins, vs, |vs|)
    ensures WitsRead(ins, vs, []) && NoWits(ins)
  {
  }

  lemma ItemsMade(ins: Ins, outs: Outs, vs: seq<TxIn>, wits: seq<seq<Octets>>, n: nat)
    requires WitsRead(ins, vs, wits) && |wits| < |vs|
    ensures var x := Some(ins[|wits|].value.(wit := Nils(n)));
            ItemsRead(ins[|wits| := x], vs, wits, 0, n) && Borrowed(ins[|wits| := x], outs) == Borrowed(ins, outs)
  {
    WitnessMade(ins, outs, |wits|, n);
    assert seq(n, k => None) == Nils<Slice>(n);
  }

  lemma ItemSet(ins: Ins, outs: Outs, vs: seq<TxIn>, wits: seq<seq<Octets>>, j: nat, n: nat, s: Slice)
    requires ItemsRead(ins, vs, wits, j, n) && j < n
    ensures var x := Some(ins[|wits|].value.(wit := ins[|wits|].value.wit[j := Some(s)]));
            ItemsRead(ins[|wits| := x], vs, wits, j + 1, n)
              && Borrowed(ins[|wits| := x], outs) == Borrowed(ins, outs) + [s]
  {
    ItemFilled(ins, outs, |wits|, j, s);
  }

  lemma ItemsDone(ins: Ins, vs: seq<TxIn>, wits: seq<seq<Octets>>, items: seq<Octets>)
    requires ItemsRead(ins, vs, wits, |items|, |items|)
    ensures WitsRead(ins, vs, wits + [items])
  {
  }

  // ----- taking the scripts out again

  lemma {:induction false} CollectFilled(ws: seq<Option<Slice>>)
    requires Filled(ws, |ws|)
    ensures |Collect(ws, Field)| == |ws| && forall k :: 0 <= k < |ws| ==> Collect(ws, Field)[k] == ws[k].value
  {
    if ws != [] { CollectFilled(ws[1..]); }
  }

  lemma {:induction false} CollectSigs(ins: Ins)
    requires forall k :: 0 <= k < |ins| ==> ins[k].Some? && ins[k].value.sig.Some?
    ensures |Collect(ins, SigOf)| == |ins|
  {
    if ins != [] { CollectSigs(ins[1..]); }
  }

  lemma {:induction false} CollectPks(outs: Outs)
    requires forall k :: 0 <= k < |outs| ==> outs[k].Some? && outs[k].value.pk.Some?
    ensures |Collect(outs, PkOf)| == |outs| && forall k :: 0 <= k < |outs| ==>
            Collect(outs, PkOf)[k] == outs[k].value.pk.value
  {
    if outs != [] { CollectPks(outs[1..]); }
  }

  /** Where the scripts of input i stand among the slices not yet moved. */
  lemma BorrowedFrom(ins: Ins, outs: Outs, i: nat)
    requires i < |ins| && ins[i].Some? && ins[i].value.sig.Some?
    ensures Borrowed(ins[i..], outs) ==
            (([ins[i].value.sig.value] + Collect(ins[i + 1..], SigOf)) + Collect(outs, PkOf))
            + (Collect(ins[i].value.wit, Field) + Collect(ins[i + 1..], WitOf))
  {
    assert ins[i..][1..] == ins[i + 1..];
  }
}
