/**
Record protection contexts (ssl_aead_ctx.cc) for DTLS: nonce layout, additional data, sealing and
opening.  The cipher itself is a pair of functions; all that is asked of it is that opening undoes
sealing under the same nonce and additional data.
*/
module Aead {
  import opened Words
  import opened Wire

  const DTLS1_VERSION := 0xfeff
  const SEQUENCE_LENGTH := 8

  datatype Primitive = Primitive(
    nonceLen: nat,
    seal: (seq<byte>, seq<byte>, seq<byte>) -> seq<byte>,           // nonce, plaintext, additional data
    open: (seq<byte>, seq<byte>, seq<byte>) -> Option<seq<byte>>,   // nonce, ciphertext, additional data
    tagLen: nat -> nat,
    maxOverhead: nat)
  {
    ghost predicate Correct() {
      && (forall nonce: seq<byte>, p: seq<byte>, ad: seq<byte> ::
            && open(nonce, seal(nonce, p, ad), ad) == Some(p)
            && |seal(nonce, p, ad)| == |p| + tagLen(|p|))
      && (forall n: nat :: tagLen(n) <= maxOverhead)
    }

    /** The overhead of a TLS 1.2 AEAD does not depend on the plaintext. */
    ghost predicate FixedOverhead() {
      forall n: nat :: tagLen(n) == maxOverhead
    }
  }

  datatype Suite = AesGcm | ChaCha20Poly1305 | Cbc

  datatype Context =
    | Null(version: nat)
    | Keyed(version: nat, prim: Primitive, fixedNonce: seq<byte>, variableNonceLen: nat,
            nonceInRecord: bool, randomNonce: bool, omitLength: bool, xorFixed: bool)
  {
    ghost predicate Valid() {
      && version < LIMIT16
      && (Keyed? ==>
            && prim.Correct()
            && (omitLength || prim.FixedOverhead())
            && (randomNonce ==> nonceInRecord && fixedNonce == [] && omitLength)
            && (!randomNonce ==> variableNonceLen == SEQUENCE_LENGTH)
            && (nonceInRecord ==> !xorFixed)
            && (xorFixed ==> SEQUENCE_LENGTH <= |fixedNonce|))
    }

    function RecordVersion(): nat {
      if Null? && version == 0 then DTLS1_VERSION else version
    }

    function ExplicitNonceLen(): nat {
      if Keyed? && nonceInRecord then variableNonceLen else 0
    }

    function SuffixLen(n: nat): nat {
      if Null? then 0 else prim.tagLen(n)
    }

    function MaxOverhead(): nat {
      ExplicitNonceLen() + if Null? then 0 else prim.maxOverhead
    }

    function AdditionalData(typ: byte, recordVersion: nat, seqNum: seq<byte>, plaintextLen: nat): seq<byte>
      requires Keyed?
    {
      seqNum + [typ] + ToBE(recordVersion, W16) + if omitLength then [] else ToBE(plaintextLen, W16)
    }

    /** The nonce handed to the cipher, given its variable part. */
    function Nonce(variable: seq<byte>): seq<byte>
      requires Keyed? && |variable| == variableNonceLen
      requires xorFixed ==> variableNonceLen <= |fixedNonce|
    {
      if xorFixed then
        XorBytes(seq(|fixedNonce| - variableNonceLen, _ => 0) + variable, fixedNonce)
      else
        fixedNonce + variable
    }

    /** Seals `plain`; `random` is what RAND_bytes returned, used only by CBC suites. */
    function Seal(typ: byte, recordVersion: nat, seqNum: seq<byte>, plain: seq<byte>, random: seq<byte>,
                  maxOut: nat): (r: Option<seq<byte>>)
      requires |seqNum| == SEQUENCE_LENGTH
      requires Valid()
      requires Keyed? && randomNonce ==> |random| == variableNonceLen
      ensures r.Some? <==> |plain| + ExplicitNonceLen() + SuffixLen(|plain|) <= maxOut
      ensures r.Some? ==> |r.value| == ExplicitNonceLen() + |plain| + SuffixLen(|plain|)
    {
      if |plain| + ExplicitNonceLen() + SuffixLen(|plain|) > maxOut then None
      else if Null? then Some(plain)
      else
        var variable := if randomNonce then random else seqNum;
        var sealed := prim.seal(Nonce(variable), plain, AdditionalData(typ, recordVersion, seqNum, |plain|));
        Some((if nonceInRecord then variable else []) + sealed)
    }

    function Open(typ: byte, recordVersion: nat, seqNum: seq<byte>, input: seq<byte>): Option<seq<byte>>
      requires |seqNum| == SEQUENCE_LENGTH
      requires Valid()
    {
      if Null? then Some(input)
      else if !omitLength && |input| < MaxOverhead() then None
      else
        var plaintextLen := if omitLength then 0 else |input| - MaxOverhead();
        var ad := AdditionalData(typ, recordVersion, seqNum, plaintextLen);
        if nonceInRecord then
          if |input| < variableNonceLen then None
          else prim.open(Nonce(input[..variableNonceLen]), input[variableNonceLen..], ad)
        else
          prim.open(Nonce(seqNum), input, ad)
    }
  }

  /** The layout chosen by SSLAEADContext::Create; None when the IV has the wrong length for the suite. */
  function Create(suite: Suite, version: nat, prim: Primitive, fixedIv: seq<byte>): (r: Option<Context>)
    requires version < LIMIT16 && prim.Correct()
    requires suite != Cbc ==> prim.FixedOverhead() && prim.nonceLen == 12
    ensures r.Some? <==> |fixedIv| == match suite { case AesGcm => 4 case ChaCha20Poly1305 => 12 case Cbc => 0 }
    ensures r.Some? ==> r.value.Valid() && r.value.Keyed? && r.value.version == version
    ensures r.Some? && suite != Cbc ==> !r.value.randomNonce
  {
    match suite
    case AesGcm =>
      if |fixedIv| != 4 then None
      else Some(Keyed(version, prim, fixedIv, prim.nonceLen - |fixedIv|, true, false, false, false))
    case ChaCha20Poly1305 =>
      if |fixedIv| != 12 then None
      else Some(Keyed(version, prim, fixedIv, 8, false, false, false, true))
    case Cbc =>
      if |fixedIv| != 0 then None
      else Some(Keyed(version, prim, [], prim.nonceLen, true, true, true, false))
  }

  function XorByte(a: byte, b: byte): byte {
    assert Pow2(8) == 256;
    XorBound(a, b, 8);
    Xor(a, b)
  }

  function XorBytes(a: seq<byte>, b: seq<byte>): (c: seq<byte>)
    requires |a| == |b|
    ensures |c| == |a|
  {
    seq(|a|, i requires 0 <= i < |a| => XorByte(a[i], b[i]))
  }

  lemma XorBytesTwice(a: seq<byte>, b: seq<byte>)
    requires |a| == |b|
    ensures XorBytes(XorBytes(a, b), b) == a
  {
    forall i | 0 <= i < |a| ensures XorByte(XorByte(a[i], b[i]), b[i]) == a[i] {
      XorTwice(a[i], b[i]);
    }
  }

  /** Different variable parts give different nonces, in both layouts. */
  lemma NonceInjective(c: Context, v: seq<byte>, w: seq<byte>)
    requires c.Keyed? && c.Valid() && |v| == |w| == c.variableNonceLen
    ensures c.Nonce(v) == c.Nonce(w) <==> v == w
  {
    if c.Nonce(v) == c.Nonce(w) {
      var pad := |c.fixedNonce| - if c.xorFixed then c.variableNonceLen else 0;
      if c.xorFixed {
        var zeros: seq<byte> := seq(pad, _ => 0);
        XorBytesTwice(zeros + v, c.fixedNonce);
        XorBytesTwice(zeros + w, c.fixedNonce);
        assert v == (zeros + v)[pad..] && w == (zeros + w)[pad..];
      } else {
        assert v == c.Nonce(v)[pad..] && w == c.Nonce(w)[pad..];
      }
    }
  }

  /** Opening a sealed record with the same context, type, version and sequence gives back the plaintext. */
  lemma OpenSealed(c: Context, typ: byte, recordVersion: nat, seqNum: seq<byte>, plain: seq<byte>,
                   random: seq<byte>, maxOut: nat)
    requires |seqNum| == SEQUENCE_LENGTH && c.Valid()
    requires c.Keyed? && c.randomNonce ==> |random| == c.variableNonceLen
    requires c.Seal(typ, recordVersion, seqNum, plain, random, maxOut).Some?
    ensures c.Open(typ, recordVersion, seqNum, c.Seal(typ, recordVersion, seqNum, plain, random, maxOut).value)
         == Some(plain)
  {
    if c.Keyed? {
      var variable := if c.randomNonce then random else seqNum;
      var explicit := if c.nonceInRecord then variable else [];
      var ad := c.AdditionalData(typ, recordVersion, seqNum, |plain|);
      var sealed := c.prim.seal(c.Nonce(variable), plain, ad);
      assert (explicit + sealed)[..|explicit|] == explicit;
      assert (explicit + sealed)[|explicit|..] == sealed;
      if c.omitLength {
        assert ad == c.AdditionalData(typ, recordVersion, seqNum, 0);
      } else {
        assert c.prim.tagLen(|plain|) == c.prim.maxOverhead;
      }
    }
  }

  /** What each suite puts on the wire: the explicit nonce in front, the nonce of the cipher, the additional data. */
  lemma SuiteSeals(suite: Suite, version: nat, prim: Primitive, iv: seq<byte>, typ: byte, recordVersion: nat,
                   number: seq<byte>, plain: seq<byte>, random: seq<byte>, maxOut: nat)
    requires version < LIMIT16 && prim.Correct() && |number| == 8
    requires suite != Cbc ==> prim.FixedOverhead() && prim.nonceLen == 12
    requires Create(suite, version, prim, iv).Some? && (suite == Cbc ==> |random| == prim.nonceLen)
    ensures var r := Create(suite, version, prim, iv).value.Seal(typ, recordVersion, number, plain, random, maxOut);
            var header := number + [typ] + ToBE(recordVersion, W16);
            var front := match suite case AesGcm => number case ChaCha20Poly1305 => [] case Cbc => random;
            var nonce := match suite
              case AesGcm => iv + number
              case ChaCha20Poly1305 => XorBytes([0, 0, 0, 0] + number, iv)
              case Cbc => random;
            var ad := if suite == Cbc then header else header + ToBE(|plain|, W16);
            r.Some? ==> r.value == front + prim.seal(nonce, plain, ad)
  {
    hide ToBE, XorBytes;
    var c := Create(suite, version, prim, iv).value;
    if suite == ChaCha20Poly1305 {
      assert seq(|iv| - 8, _ => 0 as byte) == [0, 0, 0, 0];
    } else if suite == Cbc {
      assert [] + random == random;
      assert number + [typ] + ToBE(recordVersion, W16) + [] == number + [typ] + ToBE(recordVersion, W16);
    }
  }
}
