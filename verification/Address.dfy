/** Pay-to-pubkey-hash, pay-to-script-hash and pay-to-pubkey addresses (address.go, standard.go). Strings are bytes. */
module Address {
  import opened Bytes
  import opened Base58
  import opened PayToPubKeyHash
  import C = Crypto

  /** The two address version bytes of a network. */
  datatype Params = Params(pubKeyHashId: Byte, scriptHashId: Byte)

  datatype Addr =
    | PubKeyHashAddr(hash: Octets, netId: Byte)
    | ScriptHashAddr(hash: Octets, netId: Byte)
    | PubKeyAddr(key: C.Key, compressed: bool, netId: Byte)

  datatype Decoding =
    | Decoded(addr: Addr)
    | BadHex | BadKey
    | ChecksumMismatch | UnknownFormat | UnknownSize | Collision | UnknownType
    | Panicked

  // ----- hexadecimal

  /** Lower-case digits are written; both cases are read. */
  function ToHexDigit(n: nat): Byte
    requires n < 16
  {
    if n < 10 then 48 + n else 97 + (n - 10)
  }

  function FromHexDigit(b: Byte): Option<nat> {
    if 48 <= b <= 57 then Some(b - 48)
    else if 97 <= b <= 102 then Some(b - 97 + 10)
    else if 65 <= b <= 70 then Some(b - 65 + 10)
    else None
  }

  function ToHex(data: Octets): Octets {
    if data == [] then [] else [ToHexDigit(data[0] / 16), ToHexDigit(data[0] % 16)] + ToHex(data[1..])
  }

  /** hex.DecodeString. */
  function FromHex(s: Octets): Option<Octets> {
    if s == [] then Some([])
    else if |s| == 1 || FromHexDigit(s[0]).None? || FromHexDigit(s[1]).None? then None
    else
      var rest := FromHex(s[2..]);
      if rest.None? then None
      else Some([16 * FromHexDigit(s[0]).value + FromHexDigit(s[1]).value] + rest.value)
  }

  predicate LowerCase(s: Octets) { forall i :: 0 <= i < |s| ==> !(65 <= s[i] <= 70) }

  lemma HexDigit(n: nat)
    requires n < 16
    ensures FromHexDigit(ToHexDigit(n)) == Some(n)
  {
  }

  lemma HexChar(b: Byte)
    requires FromHexDigit(b).Some?
    ensures FromHexDigit(b).value < 16 && (ToHexDigit(FromHexDigit(b).value) == b <==> !(65 <= b <= 70))
  {
  }

  lemma {:induction false} HexBack(data: Octets)
    ensures FromHex(ToHex(data)) == Some(data) && |ToHex(data)| == 2 * |data|
  {
    hide FromHexDigit, ToHexDigit;
    if data != [] {
      HexBack(data[1..]);
      HexDigit(data[0] / 16);
      HexDigit(data[0] % 16);
      assert ToHex(data)[2..] == ToHex(data[1..]);
      assert 16 * (data[0] / 16) + data[0] % 16 == data[0];
      assert data == [data[0]] + data[1..];
    }
  }

  /** Two characters per byte, the high half first. */
  lemma {:induction false} HexChars(data: Octets, i: nat)
    requires i < |data|
    ensures |ToHex(data)| == 2 * |data|
    ensures ToHex(data)[2 * i] == "0123456789abcdef"[data[i] / 16] as int
    ensures ToHex(data)[2 * i + 1] == "0123456789abcdef"[data[i] % 16] as int
  {
    HexBack(data);
    if i == 0 {
      HexTable(data[0] / 16);
      HexTable(data[0] % 16);
    } else {
      hide ToHexDigit;
      HexChars(data[1..], i - 1);
    }
  }

  lemma HexTable(n: nat)
    requires n < 16
    ensures ToHexDigit(n) == "0123456789abcdef"[n] as int
  {
  }

  lemma LowerCaseCons(s: Octets)
    requires |s| >= 2
    ensures LowerCase(s) <==> !(65 <= s[0] <= 70) && !(65 <= s[1] <= 70) && LowerCase(s[2..])
  {
    assert forall i :: 2 <= i < |s| ==> s[i] == s[2..][i - 2];
  }

  lemma HexPair(h: nat, l: nat)
    requires h < 16 && l < 16
    ensures (16 * h + l) / 16 == h && (16 * h + l) % 16 == l
  {
  }

  /** Writing undoes reading exactly for lower-case strings. */
  lemma {:induction false} HexWhole(s: Octets)
    requires FromHex(s).Some?
    ensures |s| == 2 * |FromHex(s).value| && (ToHex(FromHex(s).value) == s <==> LowerCase(s))
    decreases |s|
  {
    hide FromHexDigit, ToHexDigit, LowerCase;
    if s == [] {
      NothingUpper();
    } else {
      HexWhole(s[2..]);
      LowerCaseCons(s);
      HexChar(s[0]);
      HexChar(s[1]);
      var h, l, d := FromHexDigit(s[0]).value, FromHexDigit(s[1]).value, FromHex(s).value;
      HexPair(h, l);
      assert d[1..] == FromHex(s[2..]).value && d[0] == 16 * h + l;
      var t := ToHex(d);
      assert t == [ToHexDigit(h), ToHexDigit(l)] + ToHex(d[1..]);
      assert t[2..] == ToHex(d[1..]);
      assert t == s <==> t[0] == s[0] && t[1] == s[1] && t[2..] == s[2..] by { Pairs(t, s); }
    }
  }

  lemma NothingUpper()
    ensures LowerCase([])
  {
  }

  lemma Pairs(t: Octets, s: Octets)
    requires |t| >= 2 && |s| >= 2
    ensures t == s <==> t[0] == s[0] && t[1] == s[1] && t[2..] == s[2..]
  {
    assert t == [t[0], t[1]] + t[2..] && s == [s[0], s[1]] + s[2..];
  }

  // ----- strings

  /** NewAddressPubKey. */
  function NewPubKeyAddr(c: C.Crypto, data: Octets, p: Params): Option<Addr> {
    if c.parseKey(data).None? || data == [] then None
    else Some(PubKeyAddr(c.parseKey(data).value, data[0] in {2, 3}, p.pubKeyHashId))
  }

  /** ScriptAddress: the bytes an output script carries. */
  function ScriptAddress(c: C.Crypto, a: Addr): Octets {
    if a.PubKeyAddr? then c.serializeKey(a.key, a.compressed) else a.hash
  }

  /** EncodeAddress; a public key is hashed. */
  function EncodeAddress(c: C.Crypto, a: Addr): Octets
    requires c.Sound()
  {
    CheckEncode(c, if a.PubKeyAddr? then c.Hash160(ScriptAddress(c, a)) else a.hash, a.netId)
  }

  /** String: the address string, or the public key in hexadecimal. */
  function String(c: C.Crypto, a: Addr): Octets
    requires c.Sound()
  {
    if a.PubKeyAddr? then ToHex(ScriptAddress(c, a)) else EncodeAddress(c, a)
  }

  /** DecodeAddress; strings of 66 or 130 bytes are read as hexadecimal public keys. */
  function DecodeAddress(c: C.Crypto, s: Octets, p: Params): Decoding
    requires c.Sound()
  {
    if |s| == 130 || |s| == 66 then
      var data := FromHex(s);
      if data.None? then BadHex
      else
        var a := NewPubKeyAddr(c, data.value, p);
        if a.None? then BadKey else Decoded(a.value)
    else
      match CheckDecode(c, s)
      case IndexPanic => Panicked
      case BadChecksum => ChecksumMismatch
      case BadFormat => UnknownFormat
      case Checked(payload, version) =>
        if |payload| != 20 then UnknownSize
        else if version == p.pubKeyHashId && version == p.scriptHashId then Collision
        else if version == p.pubKeyHashId then Decoded(PubKeyHashAddr(payload, version))
        else if version == p.scriptHashId then Decoded(ScriptHashAddr(payload, version))
        else UnknownType
  }

  /** Decoding an address string panics exactly when base58 does, on strings that are not taken for keys. */
  lemma DecodePanicsIff(c: C.Crypto, s: Octets, p: Params)
    requires c.Sound()
    ensures DecodeAddress(c, s, p) == Panicked <==> |s| != 66 && |s| != 130 && Panics(s)
  {
    DecodedPanicsIff(s);
    hide Base58.Decoded;
  }

  /** An address of the network: a key, or 20 bytes, under the version byte of its kind. */
  ghost predicate OfNet(c: C.Crypto, a: Addr, p: Params) {
    Whole(c, a) && a.netId == if a.ScriptHashAddr? then p.scriptHashId else p.pubKeyHashId
  }

  /** What the constructors make: a key that parsed, or a hash of 20 bytes. */
  ghost predicate Whole(c: C.Crypto, a: Addr) { if a.PubKeyAddr? then c.IsKey(a.key) else |a.hash| == 20 }

  /** Address strings are short enough never to be mistaken for public keys. */
  lemma AddressLength(c: C.Crypto, a: Addr)
    requires c.Sound() && Whole(c, a)
    ensures |EncodeAddress(c, a)| <= 35
  {
    hide Encoded;
    var hash := if a.PubKeyAddr? then c.Hash160(ScriptAddress(c, a)) else a.hash;
    var body := [a.netId] + hash;
    EncodedLength(body + Checksum(c, body));
  }

  /** An address survives its string exactly when it is a key or the network tells the two hash kinds apart. */
  lemma AddressRoundTrip(c: C.Crypto, a: Addr, p: Params)
    requires c.Sound() && c.KeysSound() && OfNet(c, a, p)
    ensures DecodeAddress(c, String(c, a), p) == Decoded(a) <==> a.PubKeyAddr? || p.pubKeyHashId != p.scriptHashId
    ensures !a.PubKeyAddr? && p.pubKeyHashId == p.scriptHashId ==> DecodeAddress(c, String(c, a), p) == Collision
  {
    hide CheckEncode, CheckDecode, FromHex, ToHex;
    if a.PubKeyAddr? {
      HexBack(ScriptAddress(c, a));
    } else {
      AddressLength(c, a);
      CheckDecodeEncode(c, a.hash, a.netId);
    }
  }

  /** An address string: the version byte, the hash and the first four bytes of their double SHA-256. */
  lemma StringIs(c: C.Crypto, a: Addr)
    requires c.Sound()
    ensures var hash := if a.PubKeyAddr? then c.ripemd160(c.sha256(c.serializeKey(a.key, a.compressed))) else a.hash;
            EncodeAddress(c, a) ==
            Encoded([a.netId] + hash + c.sha256(c.sha256([a.netId] + hash))[..4])
    ensures !a.PubKeyAddr? ==> String(c, a) == EncodeAddress(c, a)
    ensures a.PubKeyAddr? ==> String(c, a) == ToHex(c.serializeKey(a.key, a.compressed))
  {
    hide Encoded, ToHex;
  }

  /** Which strings are read as which addresses. */
  lemma DecodeAddressIff(c: C.Crypto, s: Octets, p: Params, h: Octets, v: Byte)
    requires c.Sound()
    ensures var str := Encoded([v] + h + c.sha256(c.sha256([v] + h))[..4]);
            && (DecodeAddress(c, s, p) == Decoded(PubKeyHashAddr(h, v)) <==>
                |h| == 20 && v == p.pubKeyHashId && v != p.scriptHashId && s == str)
            && (DecodeAddress(c, s, p) == Decoded(ScriptHashAddr(h, v)) <==>
                |h| == 20 && v == p.scriptHashId && v != p.pubKeyHashId && s == str)
  {
    hide Encoded, CheckDecode, FromHex;
    CheckDecodeIff(c, s, h, v);
    if |h| == 20 { EncodedLength([v] + h + c.sha256(c.sha256([v] + h))[..4]); }
  }

  /** Hexadecimal strings of the two key lengths are read as keys, whatever they hold. */
  lemma DecodeKeyIff(c: C.Crypto, s: Octets, p: Params, k: C.Key, z: bool, v: Byte)
    requires c.Sound() && c.KeysSound()
    ensures DecodeAddress(c, s, p) == Decoded(PubKeyAddr(k, z, v)) <==>
            && (|s| == 66 || |s| == 130) && v == p.pubKeyHashId
            && FromHex(s).Some? && c.parseKey(FromHex(s).value) == Some(k)
            && (z <==> |FromHex(s).value| == 33)
  {
    hide CheckDecode, FromHex;
  }

  // ----- through scripts

  /** PayToAddrScript. */
  method PayToAddrScript(c: C.Crypto, a: Addr) returns (script: Octets)
    requires c.KeysSound() && Whole(c, a)
    ensures script == AddrScript(c, a)
  {
    hide PubKeyScript;
    match a
    case PubKeyHashAddr(h, _) => script := PayToPubKeyHashScript(h);
    case ScriptHashAddr(h, _) => script := PayToScriptHashScript(h);
    case PubKeyAddr(k, z, _) =>
      KeyLength(c, k, z);
      script := PayToPubKeyScript(c.serializeKey(k, z));
  }

  lemma KeyLength(c: C.Crypto, k: C.Key, z: bool)
    requires c.KeysSound() && c.IsKey(k)
    ensures KeyShape(c.serializeKey(k, z))
  {
  }

  function AddrScript(c: C.Crypto, a: Addr): Octets {
    match a
    case PubKeyHashAddr(h, _) => PubKeyHashScript(h)
    case ScriptHashAddr(h, _) => ScriptHashScript(h)
    case PubKeyAddr(_, _, _) => PubKeyScript(ScriptAddress(c, a))
  }

  /** ExtractPkScriptAddrs on the two hash forms and the key form; other forms give nothing here. */
  function ExtractAddrs(c: C.Crypto, script: Octets, p: Params): seq<Addr> {
    if ExtractPubKeyHash(script).Some? then [PubKeyHashAddr(ExtractPubKeyHash(script).value, p.pubKeyHashId)]
    else if ExtractScriptHash(script).Some? then [ScriptHashAddr(ExtractScriptHash(script).value, p.scriptHashId)]
    else if ExtractPubKey(script).Some? then
      var a := NewPubKeyAddr(c, ExtractPubKey(script).value, p);
      if a.Some? then [a.value] else []
    else []
  }

  lemma ScriptRoundTrip(c: C.Crypto, a: Addr, p: Params)
    requires c.KeysSound() && OfNet(c, a, p)
    ensures ExtractAddrs(c, AddrScript(c, a), p) == [a]
  {
    var s := AddrScript(c, a);
    if a.PubKeyAddr? {
      var key := ScriptAddress(c, a);
      KeyLength(c, a.key, a.compressed);
      ExtractsKeyExactly(s, key);
      KeyPush(key);
      assert |s| == |key| + 2;
    } else {
      ExtractsExactly(s, a.hash);
      assert a.ScriptHashAddr? ==> |s| == 23;
    }
    hide PubKeyHashScript, ScriptHashScript, PubKeyScript;
  }

  /**
   * String to address to script to address to string. A hash address comes back unchanged, whatever
   * string was accepted; a public key exactly when it was in lower case and not in the hybrid format.
   */
  lemma StringSurvives(c: C.Crypto, s: Octets, p: Params)
    requires c.Sound() && c.KeysSound() && DecodeAddress(c, s, p).Decoded?
    ensures var a := DecodeAddress(c, s, p).addr;
            && OfNet(c, a, p)
            && ExtractAddrs(c, AddrScript(c, a), p) == [a]
            && (String(c, a) == s <==>
                  a.PubKeyAddr? ==> LowerCase(s) && FromHex(s).value[0] !in {6, 7})
  {
    hide CheckEncode, CheckDecode, AddrScript, ExtractAddrs, FromHex, ToHex, LowerCase;
    var a := DecodeAddress(c, s, p).addr;
    ScriptRoundTrip(c, a, p);
    if a.PubKeyAddr? {
      KeySurvives(c, s, p);
    } else {
      CheckEncodeDecode(c, s);
    }
  }

  lemma KeySurvives(c: C.Crypto, s: Octets, p: Params)
    requires c.Sound() && c.KeysSound() && FromHex(s).Some? && NewPubKeyAddr(c, FromHex(s).value, p).Some?
    ensures var a := NewPubKeyAddr(c, FromHex(s).value, p).value;
            FromHex(s).value != [] && (String(c, a) == s <==> LowerCase(s) && FromHex(s).value[0] !in {6, 7})
  {
    hide FromHex, ToHex, LowerCase;
    var data := FromHex(s).value;
    var a := NewPubKeyAddr(c, data, p).value;
    var key := ScriptAddress(c, a);
    HexWhole(s);
    HexBack(key);
    HexBack(data);
  }
}
