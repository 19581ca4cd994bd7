/**
 * Hash functions and signature primitives, which come from external libraries: here they are
 * arbitrary functions, and the few facts used about them are stated in Sound.
 */
module Crypto {
  import opened Bytes

  /**
   * Parsed public keys and signatures are opaque: a number stands for each. serializeKey writes a key, compressed
   * when its second argument says so. encodingOk is the DER format
   * check of the engine, its second argument asking for low S values.
   */
  type Key = nat
  type Signature = nat

  datatype Crypto = Crypto(
    sha256: Octets -> Octets,
    ripemd160: Octets -> Octets,
    sha1: Octets -> Octets,
    parseKey: Octets -> Option<Key>,
    serializeKey: (Key, bool) -> Octets,
    parseDer: Octets -> Option<Signature>,
    parseBer: Octets -> Option<Signature>,
    verify: (Signature, Octets, Key) -> bool,
    encodingOk: (Octets, bool) -> bool)
  {
    function Hash160(b: Octets): Octets { ripemd160(sha256(b)) }

    function DoubleHash(b: Octets): Octets { sha256(sha256(b)) }

    /**
     * Digest sizes, the shortest signature the parser looks at, and: what parses under the strict rules
     * also parses under the lax ones, to the same value. Trailing bytes are accepted by both, so there is
     * no upper bound on the length.
     */
    ghost predicate Sound() {
      && (forall b :: |sha256(b)| == 32)
      && (forall b :: |ripemd160(b)| == 20)
      && (forall b :: |sha1(b)| == 20)
      && (forall s :: parseDer(s).Some? ==> parseBer(s) == parseDer(s) && |s| >= 8)
    }

    /** A key that some byte string parses to. */
    ghost predicate IsKey(k: Key) { exists b :: parseKey(b) == Some(k) }

    /**
     * Key formats: 33 bytes from 2 or 3, or 65 bytes from 4 or, hybrid, 6 or 7.
     * Reading undoes writing, and writing undoes reading except for hybrids.
     */
    ghost predicate KeysSound() {
      && (forall b :: parseKey(b).Some? ==>
            || (|b| == 33 && b[0] in {2, 3} && serializeKey(parseKey(b).value, true) == b)
            || (|b| == 65 && b[0] == 4 && serializeKey(parseKey(b).value, false) == b)
            || (|b| == 65 && b[0] in {6, 7}))
      && (forall k: Key, z :: IsKey(k) ==> parseKey(serializeKey(k, z)) == Some(k))
      && (forall k: Key :: IsKey(k) ==> |serializeKey(k, true)| == 33 && serializeKey(k, true)[0] in {2, 3})
      && (forall k: Key :: IsKey(k) ==> |serializeKey(k, false)| == 65 && serializeKey(k, false)[0] == 4)
    }
  }
}
