/** Merging two partial multi-signature scripts (sign.go, mergeMultiSig). */
module Merge {
  import opened Bytes
  import opened Tokens
  import opened Wire
  import opened Crypto
  import opened Builder
  import SigHash
  import Engine
  import Scripts

  /**
   * What the merge is about: the transaction and input being signed, the output script, and its keys
   * in script order with the map from a key to its address string.
   */
  datatype Job = Job(c: Crypto, tx: MsgTx, idx: nat, pk: Octets, keys: seq<Octets>, addr: Octets -> Octets) {
    /** Keys come from addresses, so they parse; equal addresses mean the same key. */
    ghost predicate Valid() {
      && c.Sound() && idx < |tx.txIn| && |keys| <= Engine.MAX_PUB_KEYS
      && (forall k :: k in keys ==> c.parseKey(k).Some?)
      && (forall k, l :: k in keys && l in keys && addr(k) == addr(l) ==> c.parseKey(k) == c.parseKey(l))
    }

    /** The signature parses as DER and verifies for the key over the output script. */
    predicate Signs(full: Octets, key: Octets)
      requires idx < |tx.txIn|
    {
      && full != [] && c.parseDer(full[..|full| - 1]).Some? && c.parseKey(key).Some?
      && c.verify(c.parseDer(full[..|full| - 1]).value,
                  SigHash.SignatureHash(c, pk, full[|full| - 1], tx, idx), c.parseKey(key).value)
    }
  }

  // ----- the result as a function

  /** The data of the pushes that carry any. */
  function DataOf(ts: seq<Token>): seq<Octets> {
    if ts == [] then []
    else DataOf(ts[..|ts| - 1]) + (if ts[|ts| - 1].data != [] then [ts[|ts| - 1].data] else [])
  }

  /** The first key at or after j that the signature verifies for. */
  function FirstKey(job: Job, full: Octets, j: nat): nat
    requires job.idx < |job.tx.txIn| && j <= |job.keys|
    decreases |job.keys| - j
  {
    if j == |job.keys| || job.Signs(full, job.keys[j]) then j else FirstKey(job, full, j + 1)
  }

  /** One signature per address: the first that verifies for it. */
  function AddrToSig(job: Job, sigs: seq<Octets>): map<Octets, Octets>
    requires job.idx < |job.tx.txIn|
  {
    if sigs == [] then map[]
    else WithSig(job, AddrToSig(job, sigs[..|sigs| - 1]), sigs[|sigs| - 1])
  }

  function WithSig(job: Job, m: map<Octets, Octets>, full: Octets): map<Octets, Octets>
    requires job.idx < |job.tx.txIn|
  {
    var j := FirstKey(job, full, 0);
    if j >= |job.keys| || job.addr(job.keys[j]) in m then m else m[job.addr(job.keys[j]) := full]
  }

  /** The signatures in key order, stopping at the n-th. */
  function Chosen(keys: seq<Octets>, addr: Octets -> Octets, m: map<Octets, Octets>, n: int): seq<Octets> {
    if keys == [] then []
    else if addr(keys[0]) !in m then Chosen(keys[1..], addr, m, n)
    else [m[addr(keys[0])]] + (if n == 1 then [] else Chosen(keys[1..], addr, m, n - 1))
  }

  function Empties(n: nat): seq<Octets> { seq(n, i => []) }

  function Padding(n: nat, done: nat): nat { if done < n then n - done else 0 }

  /** A dummy, the chosen signatures, and an empty item for each missing one. */
  function MergedItems(job: Job, sigs: seq<Octets>, n: nat): seq<Octets>
    requires job.idx < |job.tx.txIn|
  {
    ItemsFor(Chosen(job.keys, job.addr, AddrToSig(job, sigs), n), n)
  }

  function ItemsFor(chosen: seq<Octets>, n: nat): seq<Octets> { [[]] + chosen + Empties(Padding(n, |chosen|)) }

  function Found(sigScript: Octets, prevScript: Octets): seq<Octets> {
    DataOf(TokensOf(sigScript)) + DataOf(TokensOf(prevScript))
  }

  /** The builder's error is dropped: the script ends before the first item it refused. */
  function Merged(job: Job, n: nat, sigScript: Octets, prevScript: Octets): Octets
    requires job.idx < |job.tx.txIn|
  {
    if sigScript == [] then prevScript
    else if prevScript == [] then sigScript
    else if !Parses(sigScript) then prevScript
    else if !Parses(prevScript) then sigScript
    else Built(Accepted(MergedItems(job, Found(sigScript, prevScript), n)))
  }

  // ----- what the map holds

  lemma {:induction false} FirstKeySigns(job: Job, full: Octets, j: nat)
    requires job.idx < |job.tx.txIn| && j <= |job.keys|
    ensures j <= FirstKey(job, full, j) <= |job.keys|
    ensures FirstKey(job, full, j) < |job.keys| ==> job.Signs(full, job.keys[FirstKey(job, full, j)])
    decreases |job.keys| - j
  {
    if j < |job.keys| && !job.Signs(full, job.keys[j]) { FirstKeySigns(job, full, j + 1); }
  }

  /** Every signature in the map verifies for every key of its address. */
  ghost predicate MapOk(job: Job, m: map<Octets, Octets>)
    requires job.idx < |job.tx.txIn|
  {
    forall k :: k in job.keys && job.addr(k) in m ==> job.Signs(m[job.addr(k)], k)
  }

  lemma SameAddress(job: Job, full: Octets, k: Octets, l: Octets)
    requires job.Valid() && k in job.keys && l in job.keys && job.addr(k) == job.addr(l) && job.Signs(full, k)
    ensures job.Signs(full, l)
  {
    hide SigHash.SignatureHash;
  }

  lemma WithSigOk(job: Job, m: map<Octets, Octets>, full: Octets)
    requires job.Valid() && MapOk(job, m)
    ensures MapOk(job, WithSig(job, m, full))
  {
    hide FirstKey, Job.Signs;
    FirstKeySigns(job, full, 0);
    var j := FirstKey(job, full, 0);
    var m' := WithSig(job, m, full);
    forall k | k in job.keys && job.addr(k) in m'
      ensures job.Signs(m'[job.addr(k)], k)
    {
      if job.addr(k) !in m { SameAddress(job, full, job.keys[j], k); }
    }
  }

  lemma {:induction false} AddrToSigOk(job: Job, sigs: seq<Octets>)
    requires job.Valid()
    ensures MapOk(job, AddrToSig(job, sigs))
  {
    hide MapOk, WithSig;
    if sigs == [] {
      MapOkEmpty(job);
    } else {
      AddrToSigOk(job, sigs[..|sigs| - 1]);
      WithSigOk(job, AddrToSig(job, sigs[..|sigs| - 1]), sigs[|sigs| - 1]);
    }
  }

  lemma MapOkEmpty(job: Job)
    requires job.idx < |job.tx.txIn|
    ensures MapOk(job, map[])
  {
  }

  /** Chosen signatures sign some key of the list. */
  lemma {:induction false} ChosenSigns(job: Job, keys: seq<Octets>, m: map<Octets, Octets>, n: int)
    requires job.Valid() && MapOk(job, m) && forall k :: k in keys ==> k in job.keys
    ensures |Chosen(keys, job.addr, m, n)| <= |keys|
    ensures forall s :: s in Chosen(keys, job.addr, m, n) ==> |s| >= 9
  {
    if keys != [] {
      ChosenSigns(job, keys[1..], m, n);
      ChosenSigns(job, keys[1..], m, n - 1);
    }
  }

  /** How many keys have a signature. */
  function Covered(keys: seq<Octets>, addr: Octets -> Octets, m: map<Octets, Octets>): nat {
    if keys == [] then 0 else (if addr(keys[0]) in m then 1 else 0) + Covered(keys[1..], addr, m)
  }

  lemma {:induction false} ChosenCount(keys: seq<Octets>, addr: Octets -> Octets, m: map<Octets, Octets>, n: int)
    requires n >= 1
    ensures |Chosen(keys, addr, m, n)| == if Covered(keys, addr, m) < n then Covered(keys, addr, m) else n
  {
    if keys != [] {
      ChosenCount(keys[1..], addr, m, n);
      if n > 1 { ChosenCount(keys[1..], addr, m, n - 1); }
    }
  }

  // ----- the loops

  /** extractSigs: the non-empty data of a script, and whether it parsed. */
  method ExtractSigs(script: Octets) returns (sigs: seq<Octets>, ok: bool)
    requires |script| < MAX_SCRIPT
    ensures ok == Parses(script) && sigs == DataOf(TokensOf(script))
  {
    hide TokensOf, TailOf, BoundaryAt, Raw, DataOf;
    var tokenizer := new Scripts.ScriptTokenizer(script);
    sigs := [];
    ghost var ts := TokensOf(script);
    ghost var i: nat := 0;
    var more := true;
    NoData(ts);
    while more
      invariant i <= |ts|
      invariant more ==> tokenizer.At(i)
      invariant !more ==> i == |ts| && tokenizer.failed == !Parses(script)
      invariant sigs == DataOf(ts[..i])
      decreases |ts| - i, more
    {
      more := tokenizer.Next(i);
      if more {
        DataStep(ts, i);
        if |tokenizer.data| != 0 { sigs := sigs + [tokenizer.data]; }
        i := i + 1;
      }
    }
    assert ts[..i] == ts;
    return sigs, !tokenizer.failed;
  }

  lemma NoData(ts: seq<Token>)
    ensures DataOf(ts[..0]) == []
  {
  }

  lemma DataStep(ts: seq<Token>, i: nat)
    requires i < |ts|
    ensures DataOf(ts[..i + 1]) == DataOf(ts[..i]) + (if ts[i].data != [] then [ts[i].data] else [])
  {
    assert ts[..i + 1][..i] == ts[..i];
  }

  /** The inner loop over the addresses. */
  method FindKey(job: Job, full: Octets) returns (j: nat)
    requires job.Valid() && full != [] && job.c.parseDer(full[..|full| - 1]).Some?
    ensures j == FirstKey(job, full, 0) && j <= |job.keys|
  {
    hide SigHash.SignatureHash;
    var pSig := job.c.parseDer(full[..|full| - 1]).value;
    var hash := SigHash.SignatureHash(job.c, job.pk, full[|full| - 1], job.tx, job.idx);
    j := 0;
    while j < |job.keys|
      invariant j <= |job.keys| && FirstKey(job, full, j) == FirstKey(job, full, 0)
    {
      assert job.keys[j] in job.keys;
      if job.c.verify(pSig, hash, job.c.parseKey(job.keys[j]).value) { return; }
      j := j + 1;
    }
  }

  lemma {:induction false} Unparsed(job: Job, full: Octets, j: nat)
    requires job.idx < |job.tx.txIn| && j <= |job.keys|
    requires full == [] || job.c.parseDer(full[..|full| - 1]).None?
    ensures FirstKey(job, full, j) == |job.keys|
    decreases |job.keys| - j
  {
    if j < |job.keys| { Unparsed(job, full, j + 1); }
  }

  /** sigLoop. */
  method MatchSigs(job: Job, sigs: seq<Octets>) returns (m: map<Octets, Octets>)
    requires job.Valid()
    ensures m == AddrToSig(job, sigs)
  {
    hide FirstKey, SigHash.SignatureHash, Job.Signs;
    m := map[];
    for i := 0 to |sigs|
      invariant m == AddrToSig(job, sigs[..i])
    {
      assert sigs[..i + 1][..i] == sigs[..i];
      var sig := sigs[i];
      if |sig| < 1 || job.c.parseDer(sig[..|sig| - 1]).None? {
        Unparsed(job, sig, 0);
      } else {
        var j := FindKey(job, sig);
        if j < |job.keys| && job.addr(job.keys[j]) !in m { m := m[job.addr(job.keys[j]) := sig]; }
      }
    }
    assert sigs[..|sigs|] == sigs;
  }

  function FromKey(job: Job, m: map<Octets, Octets>, i: nat, n: int): seq<Octets>
    requires i <= |job.keys|
  {
    Chosen(job.keys[i..], job.addr, m, n)
  }

  lemma FromKeyStep(job: Job, m: map<Octets, Octets>, i: nat, n: int)
    requires i < |job.keys|
    ensures FromKey(job, m, i, n) ==
            if job.addr(job.keys[i]) !in m then FromKey(job, m, i + 1, n)
            else [m[job.addr(job.keys[i])]] + (if n == 1 then [] else FromKey(job, m, i + 1, n - 1))
  {
    assert job.keys[i..][1..] == job.keys[i + 1..];
  }

  /** One more push, through AddData for a signature and AddOp for an empty item. */
  method AddSig(b: ScriptBuilder, sig: Octets, ghost items: seq<Octets>)
    requires Wrote(b.script, b.failed, items)
    modifies b
    ensures Wrote(b.script, b.failed, items + [sig])
  {
    hide PushToken, Raw, CanonicalDataSize, Wrote;
    ghost var script0, failed0 := b.script, b.failed;
    b.AddData(sig);
    WroteMore(script0, failed0, items, sig, b.script, b.failed);
  }

  method AddEmpty(b: ScriptBuilder, ghost items: seq<Octets>)
    requires Wrote(b.script, b.failed, items)
    modifies b
    ensures Wrote(b.script, b.failed, items + [[]])
  {
    hide Wrote;
    ghost var script0, failed0 := b.script, b.failed;
    b.AddOp(0);
    WroteMore(script0, failed0, items, [], b.script, b.failed);
  }

  /** The loop over the addresses: the builder is given the chosen signatures in key order. */
  method AddChosen(b: ScriptBuilder, job: Job, m: map<Octets, Octets>, n: nat, ghost start: seq<Octets>)
      returns (done: nat)
    requires Wrote(b.script, b.failed, start)
    modifies b
    ensures var chosen := Chosen(job.keys, job.addr, m, n);
            done == |chosen| && Wrote(b.script, b.failed, start + chosen)
  {
    hide Chosen, Wrote, FromKey;
    done := 0;
    ghost var sigs: seq<Octets> := [];
    assert start + sigs == start;
    FromKeyAll(job, m, n);
    for i := 0 to |job.keys|
      invariant |sigs| == done && Wrote(b.script, b.failed, start + sigs)
      invariant sigs + FromKey(job, m, i, n - done) == Chosen(job.keys, job.addr, m, n)
    {
      FromKeyStep(job, m, i, n - done);
      var k := job.keys[i];
      if job.addr(k) in m {
        var sig := m[job.addr(k)];
        AddSig(b, sig, start + sigs);
        Assoc(start, sigs, [sig]);
        Extend(sigs, sig, if n - done == 1 then [] else FromKey(job, m, i + 1, n - done - 1));
        sigs := sigs + [sig];
        done := done + 1;
        if done == n { return; }
      }
    }
    FromKeyEnd(job, m, n - done);
    assert sigs + [] == sigs;
  }

  /** The tail of mergeMultiSig: a dummy, the signatures in key order, and empty pushes for missing ones. */
  method BuildMerged(job: Job, m: map<Octets, Octets>, n: nat) returns (script: Octets)
    ensures script == Built(Accepted(ItemsFor(Chosen(job.keys, job.addr, m, n), n)))
  {
    hide Chosen, Built, Accepted, Empties, Padding;
    var builder := new ScriptBuilder();
    WroteNothing();
    AddEmpty(builder, []);
    ghost var none: seq<Octets> := [];
    assert none + [[]] == [[]];
    ghost var chosen := Chosen(job.keys, job.addr, m, n);
    var done := AddChosen(builder, job, m, n, [[]]);
    script := Pad(builder, [[]] + chosen, done, n);
  }

  lemma Extend(sigs: seq<Octets>, sig: Octets, rest: seq<Octets>)
    ensures sigs + ([sig] + rest) == (sigs + [sig]) + rest
    ensures rest == [] ==> (sigs + [sig]) + rest == sigs + [sig]
  {
  }

  lemma FromKeyEnd(job: Job, m: map<Octets, Octets>, n: int)
    ensures FromKey(job, m, |job.keys|, n) == []
  {
  }

  lemma FromKeyAll(job: Job, m: map<Octets, Octets>, n: int)
    ensures [] + FromKey(job, m, 0, n) == Chosen(job.keys, job.addr, m, n)
  {
    assert job.keys[0..] == job.keys;
  }

  lemma KeyLimit(job: Job)
    requires job.Valid()
    ensures |job.keys| <= Engine.MAX_PUB_KEYS
  {
  }

  /** The padding loop. */
  method Pad(b: ScriptBuilder, ghost items: seq<Octets>, done: nat, n: nat) returns (script: Octets)
    requires Wrote(b.script, b.failed, items)
    modifies b
    ensures script == Built(Accepted(items + Empties(Padding(n, done))))
  {
    hide Built, Accepted;
    ghost var now := items;
    assert items + Empties(0) == items;
    var i := done;
    while i < n
      invariant done <= i && (i <= n || i == done)
      invariant now == items + Empties(i - done) && Wrote(b.script, b.failed, now)
    {
      AddEmpty(b, now);
      assert Empties(i - done) + [[]] == Empties(i + 1 - done);
      now := now + [[]];
      i := i + 1;
    }
    return b.script;
  }

  /** mergeMultiSig. */
  method MergeMultiSig(job: Job, nRequired: nat, sigScript: Octets, prevScript: Octets) returns (script: Octets)
    requires job.Valid()
    requires |sigScript| < MAX_SCRIPT && |prevScript| < MAX_SCRIPT
    ensures script == Merged(job, nRequired, sigScript, prevScript)
  {
    hide AddrToSig, Chosen, DataOf, TokensOf, TailOf, Job.Valid, Built, Accepted, ItemsFor;
    if |sigScript| == 0 { return prevScript; }
    if |prevScript| == 0 { return sigScript; }
    var sigs, ok := ExtractSigs(sigScript);
    if !ok { return prevScript; }
    var more, ok' := ExtractSigs(prevScript);
    if !ok' { return sigScript; }
    var addrToSig := MatchSigs(job, sigs + more);
    script := BuildMerged(job, addrToSig, nRequired);
  }
}
