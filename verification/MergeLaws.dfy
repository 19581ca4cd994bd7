/** Which keys a merge finds signatures for, in terms of the two scripts it is given. */
module MergeLaws {
  import opened Bytes
  import opened Tokens
  import opened Stack
  import opened SigCheck
  import opened Engine
  import opened Builder
  import opened Opcodes
  import opened Merge
  import opened MultiSigSpend
  import SigHash

  /** A script that is missing or does not parse leaves the other one as it is. */
  lemma MergedWithout(job: Job, n: nat, s: Octets, prev: Octets)
    requires job.idx < |job.tx.txIn|
    ensures Merged(job, n, [], prev) == prev && Merged(job, n, s, []) == s
    ensures s != [] && prev != [] && !Parses(s) ==> Merged(job, n, s, prev) == prev
    ensures s != [] && prev != [] && Parses(s) && !Parses(prev) ==> Merged(job, n, s, prev) == s
  {
    hide Built, Accepted, MergedItems, Parses;
  }

  // ----- signatures on offer

  /** Some push of either script carries the data. */
  ghost predicate Offered(s: Octets, prev: Octets, sig: Octets) {
    sig != [] && exists t :: (t in TokensOf(s) || t in TokensOf(prev)) && t.data == sig
  }

  lemma {:induction false} DataIn(ts: seq<Token>, sig: Octets)
    ensures sig in DataOf(ts) <==> sig != [] && exists t :: t in ts && t.data == sig
  {
    if ts != [] {
      var k := |ts| - 1;
      DataIn(ts[..k], sig);
      assert ts == ts[..k] + [ts[k]];
    }
  }

  lemma FoundIff(s: Octets, prev: Octets, sig: Octets)
    ensures sig in Found(s, prev) <==> Offered(s, prev, sig)
  {
    hide TokensOf, DataOf;
    DataIn(TokensOf(s), sig);
    DataIn(TokensOf(prev), sig);
  }

  /** The signature verifies for key j and for none before it. */
  ghost predicate FitsFirst(job: Job, sig: Octets, j: nat)
    requires job.idx < |job.tx.txIn|
  {
    && j < |job.keys| && job.Signs(sig, job.keys[j])
    && forall i :: 0 <= i < j ==> !job.Signs(sig, job.keys[i])
  }

  lemma {:induction false} FirstKeyIff(job: Job, sig: Octets, from: nat)
    requires job.idx < |job.tx.txIn| && from <= |job.keys|
    requires forall i :: 0 <= i < from ==> !job.Signs(sig, job.keys[i])
    ensures var j := FirstKey(job, sig, from);
            && j <= |job.keys| && (forall k: nat :: FitsFirst(job, sig, k) <==> k == j < |job.keys|)
            && (j == |job.keys| ==> forall i :: 0 <= i < j ==> !job.Signs(sig, job.keys[i]))
    decreases |job.keys| - from
  {
    hide Job.Signs;
    if from < |job.keys| && !job.Signs(sig, job.keys[from]) { FirstKeyIff(job, sig, from + 1); }
  }

  ghost predicate CoversAddress(job: Job, sig: Octets, a: Octets)
    requires job.idx < |job.tx.txIn|
  {
    exists j: nat :: FitsFirst(job, sig, j) && job.addr(job.keys[j]) == a
  }

  lemma CoversIff(job: Job, sig: Octets, a: Octets)
    requires job.idx < |job.tx.txIn|
    ensures var j := FirstKey(job, sig, 0);
            j <= |job.keys| && (CoversAddress(job, sig, a) <==> j < |job.keys| && job.addr(job.keys[j]) == a)
  {
    hide FirstKey, FitsFirst, Job.Signs;
    FirstKeyIff(job, sig, 0);
  }

  lemma {:induction false} AddressIn(job: Job, sigs: seq<Octets>, a: Octets)
    requires job.idx < |job.tx.txIn|
    ensures a in AddrToSig(job, sigs) <==> exists sig :: sig in sigs && CoversAddress(job, sig, a)
    ensures a in AddrToSig(job, sigs) ==> CoversAddress(job, AddrToSig(job, sigs)[a], a)
  {
    hide FirstKey, CoversAddress;
    if sigs != [] {
      var k := |sigs| - 1;
      AddressIn(job, sigs[..k], a);
      assert sigs == sigs[..k] + [sigs[k]];
      CoversIff(job, sigs[k], a);
    }
  }

  // ----- keys with a signature

  /** One of the scripts has a signature for the address of key i. */
  ghost predicate HasSignature(job: Job, s: Octets, prev: Octets, i: nat)
    requires job.idx < |job.tx.txIn|
  {
    i < |job.keys| && exists sig :: Offered(s, prev, sig) && CoversAddress(job, sig, job.addr(job.keys[i]))
  }

  lemma CoveredIff(job: Job, s: Octets, prev: Octets, i: nat)
    requires job.idx < |job.tx.txIn| && i < |job.keys|
    ensures job.addr(job.keys[i]) in AddrToSig(job, Found(s, prev)) <==> HasSignature(job, s, prev, i)
  {
    hide AddrToSig, Found, Offered, CoversAddress;
    AddressIn(job, Found(s, prev), job.addr(job.keys[i]));
    forall sig ensures sig in Found(s, prev) <==> Offered(s, prev, sig) { FoundIff(s, prev, sig); }
  }

  /** No push on offer verifies for keys of two addresses. */
  ghost predicate OneAddress(job: Job, s: Octets, prev: Octets)
    requires job.idx < |job.tx.txIn|
  {
    forall sig, k, l |
      Offered(s, prev, sig) && k in job.keys && l in job.keys && job.Signs(sig, k) && job.Signs(sig, l) ::
      job.addr(k) == job.addr(l)
  }

  /** When no signature verifies for two addresses, a key has a signature exactly when some push verifies for it. */
  lemma HasSignatureIff(job: Job, s: Octets, prev: Octets, i: nat)
    requires job.Valid() && i < |job.keys|
    requires OneAddress(job, s, prev)
    ensures HasSignature(job, s, prev, i) <==> exists sig :: Offered(s, prev, sig) && job.Signs(sig, job.keys[i])
  {
    hide Offered, Job.Signs, SigHash.SignatureHash;
    var a := job.addr(job.keys[i]);
    forall sig | Offered(s, prev, sig)
      ensures CoversAddress(job, sig, a) <==> job.Signs(sig, job.keys[i])
    {
      hide FirstKey;
      FirstKeyIff(job, sig, 0);
      var j := FirstKey(job, sig, 0);
      if j < |job.keys| {
        assert FitsFirst(job, sig, j) && job.keys[j] in job.keys && job.keys[i] in job.keys;
        if job.addr(job.keys[j]) == a { SameAddress(job, sig, job.keys[j], job.keys[i]); }
      }
    }
  }

  lemma {:induction false} CoveredFrom(keys: seq<Octets>, addr: Octets -> Octets, m: map<Octets, Octets>, i: nat)
    requires i <= |keys|
    ensures Covered(keys[i..], addr, m) == |set k | i <= k < |keys| && addr(keys[k]) in m|
    decreases |keys| - i
  {
    if i < |keys| {
      CoveredFrom(keys, addr, m, i + 1);
      assert keys[i..][1..] == keys[i + 1..];
      var rest := set k | i + 1 <= k < |keys| && addr(keys[k]) in m;
      var all := set k | i <= k < |keys| && addr(keys[k]) in m;
      assert all == if addr(keys[i]) in m then rest + {i} else rest;
    }
  }

  /** The count that matters: the keys that some push of either script is a signature for. */
  lemma CoveredCount(job: Job, s: Octets, prev: Octets)
    requires job.idx < |job.tx.txIn|
    ensures Covered(job.keys, job.addr, AddrToSig(job, Found(s, prev))) ==
            |set i: nat | i < |job.keys| && HasSignature(job, s, prev, i)|
  {
    hide AddrToSig, Found, HasSignature, Covered;
    var m := AddrToSig(job, Found(s, prev));
    CoveredFrom(job.keys, job.addr, m, 0);
    assert job.keys[0..] == job.keys;
    forall i: nat | i < |job.keys| ensures job.addr(job.keys[i]) in m <==> HasSignature(job, s, prev, i) {
      CoveredIff(job, s, prev, i);
    }
    assert (set k | 0 <= k < |job.keys| && job.addr(job.keys[k]) in m) ==
           (set i: nat | i < |job.keys| && HasSignature(job, s, prev, i));
  }

  /**
   * No signature is lost: when the pushes of the two scripts together are signatures for at least n of the keys,
   * the merged script spends the output, if the chosen signatures pass the encoding rules and are at most 520
   * bytes each and 10000 together.
   */
  lemma NoSignatureLost(job: Job, ctx: Context, lockOk: (Byte, int) -> bool, n: nat, s: Octets, prev: Octets,
                        kt: seq<Token>)
    requires job.Valid() && ctx.c == job.c && ctx.idx == job.idx
    requires SigHash.SameSkeleton(job.tx, ctx.tx) && ctx.idx < |ctx.tx.txIn|
    requires 1 <= n <= |job.keys| && KeyTokens(Env(ctx, false, lockOk), kt, job.keys)
    requires Parses(job.pk) && |job.pk| <= 10000 && TokensOf(job.pk) == MultiSigTokens(n, kt)
    requires s != [] && prev != [] && Parses(s) && Parses(prev)
    requires |set i: nat | i < |job.keys| && HasSignature(job, s, prev, i)| >= n
    requires ctx.tx.txIn[ctx.idx].sigScript == Merged(job, n, s, prev)
    requires Passes(ctx, ChosenFor(job, Found(s, prev), n), job.keys)
    ensures NewEngine(ctx, job.pk, lockOk).Ok?
    ensures var (env, vm) := NewEngine(ctx, job.pk, lockOk).value;
            var chosen := ChosenFor(job, Found(s, prev), n);
            && |chosen| == n && (forall x :: x in chosen ==> Offered(s, prev, x))
            && (Execute(env, vm).Ok? <==> (forall x :: x in chosen ==> |x| <= 520) && 1 + TotalSize(chosen) <= 10000)
  {
    hide AddrToSig, Found, Covered, Merged, KeyTokens, TokensOf, TailOf, SigHash.SameSkeleton, Job.Valid, Execute,
         NewEngine, Passes, MultiSigTokens, HasSignature, Offered, TotalSize, ChosenFor;
    KeepIdx(job, ctx);
    CoveredCount(job, s, prev);
    MergedSpends(job, ctx, lockOk, n, s, prev, kt);
    var chosen := ItemsShape(job, Found(s, prev), n);
    ChosenFound(job, s, prev, n);
  }

  lemma ChosenFound(job: Job, s: Octets, prev: Octets, n: nat)
    requires job.idx < |job.tx.txIn|
    ensures forall x :: x in ChosenFor(job, Found(s, prev), n) ==> Offered(s, prev, x)
  {
    hide AddrToSig, Found, Offered, Chosen;
    var m := AddrToSig(job, Found(s, prev));
    ChosenValues(job.keys, job.addr, m, n);
    ValuesGiven(job, Found(s, prev));
    forall x | x in ChosenFor(job, Found(s, prev), n) ensures Offered(s, prev, x) { FoundIff(s, prev, x); }
  }

  lemma {:induction false} ChosenValues(keys: seq<Octets>, addr: Octets -> Octets, m: map<Octets, Octets>, n: int)
    ensures forall x :: x in Chosen(keys, addr, m, n) ==> x in m.Values
  {
    if keys != [] {
      ChosenValues(keys[1..], addr, m, n);
      ChosenValues(keys[1..], addr, m, n - 1);
    }
  }

  lemma {:induction false} ValuesGiven(job: Job, sigs: seq<Octets>)
    requires job.idx < |job.tx.txIn|
    ensures forall x :: x in AddrToSig(job, sigs).Values ==> x in sigs
  {
    hide FirstKey;
    if sigs != [] { ValuesGiven(job, sigs[..|sigs| - 1]); }
  }

  /** A dummy, n places, the signatures first in them; the places left over hold empty items. */
  lemma MergedShape(job: Job, sigs: seq<Octets>, n: nat)
    requires job.idx < |job.tx.txIn| && n >= 1
    ensures var items, count := MergedItems(job, sigs, n), Covered(job.keys, job.addr, AddrToSig(job, sigs));
            && |items| == n + 1 && items[0] == []
            && (forall i :: 1 <= i <= n && i <= count ==> items[i] in AddrToSig(job, sigs).Values)
            && (forall i :: count < i <= n ==> items[i] == [])
  {
    hide Chosen, Covered, AddrToSig;
    var m := AddrToSig(job, sigs);
    var chosen := Chosen(job.keys, job.addr, m, n);
    ChosenCount(job.keys, job.addr, m, n);
    ChosenValues(job.keys, job.addr, m, n);
    var items := MergedItems(job, sigs, n);
    assert forall i :: 1 <= i <= |chosen| ==> items[i] == chosen[i - 1] && items[i] in chosen;
  }
}
