/** DER is read strictly: only what is written for a value is read as that value. */
module DerExact {
  import opened Words
  import opened Wire
  import opened Der

  lemma {:induction false} AtLeast(s: seq<byte>)
    requires s != [] && s[0] > 0
    ensures FromBE(s) >= Pow2(8 * (|s| - 1))
    decreases |s|
  {
    if |s| == 1 {
      assert s[..0] == [] && Pow2(0) == 1;
    } else {
      AtLeast(s[..|s| - 1]);
      hide Pow2;
      PowByte(|s| - 2);
    }
  }

  /** The size is the only one between the powers of 256. */
  lemma SizeIs(n: nat, k: nat)
    requires k >= 1 && n < Pow2(8 * k) && (k > 1 ==> n >= Pow2(8 * (k - 1)))
    ensures Size(n) == k
  {
    hide Pow2, Size;
    if Size(n) < k { PowMonotone(8 * Size(n), 8 * (k - 1)); }
    if k < Size(n) { PowMonotone(8 * k, 8 * (Size(n) - 1)); }
  }

  /** Bytes without a leading zero are the shortest form of their number. */
  lemma ShortestBytes(s: seq<byte>)
    requires s != [] && (|s| > 1 ==> s[0] > 0)
    ensures Size(FromBE(s)) == |s| && ToBE(FromBE(s), |s|) == s
  {
    hide Pow2, Size, FromBE, ToBE;
    ToFromBE(s);
    if |s| > 1 { AtLeast(s); }
    SizeIs(FromBE(s), |s|);
  }

  /** An INTEGER that fits 64 bits has one form. */
  lemma UintExact(s: seq<byte>, n: nat)
    ensures Uint(s) == Some(n) <==> n < LIMIT64 && s == UintBytes(n)
  {
    hide Pow2, Size, FromBE, ToBE;
    if n < LIMIT64 { UintInverse(n); }
    if Uint(s) == Some(n) {
      if s[0] == 0 && |s| > 1 {
        var t := s[1..];
        assert s == [0] + t;
        LeadingZero(t);
        ShortestBytes(t);
      } else {
        ShortestBytes(s);
      }
    }
  }

  /** A length has one form. */
  lemma LengthExact(s: seq<byte>)
    requires Length(s).Some? && Length(s).value.0 <= MAX_LENGTH
    ensures s[..Length(s).value.1] == LengthBytes(Length(s).value.0)
  {
    hide Pow2, Size, FromBE, ToBE;
    if s[0] >= 128 {
      var k := s[0] - 128;
      var t := s[1..1 + k];
      ToFromBE(t);
      SizeIs(FromBE(t), k) by { if k == 1 { Byte(); } }
      assert s[..1 + k] == [s[0]] + t;
    }
  }

  /** An element with a tag of one byte has one form. */
  lemma ElementExact(tag: byte, s: seq<byte>)
    requires tag % 32 != 31 && Get(tag, s).Good? && |Get(tag, s).value| <= MAX_LENGTH
    ensures s == Tlv(tag, Get(tag, s).value) + Get(tag, s).rest
  {
    hide Length, LengthBytes;
    var len := Length(s[1..]).value;
    LengthExact(s[1..]);
    assert s[1..1 + len.1] == s[1..][..len.1];
    assert s == [s[0]] + s[1..1 + len.1] + s[1 + len.1..];
  }

  // ---------------------------------------------------------------- tags with a number of their own

  /** The number that groups of seven bits stand for, the most significant group first. */
  function TagNumber(s: seq<byte>, high: nat): nat {
    if s == [] then high else TagNumber(s[1..], 128 * high + s[0] % 128)
  }

  /** The top bit is set on every byte but the last. */
  predicate EndsGroups(s: seq<byte>) {
    s != [] && s[|s| - 1] < 128 && forall i :: 0 <= i < |s| - 1 ==> s[i] >= 128
  }

  lemma {:induction false} NumberGrows(s: seq<byte>, high: nat)
    ensures TagNumber(s, high) >= high
    decreases |s|
  {
    if s != [] { NumberGrows(s[1..], 128 * high + s[0] % 128); }
  }

  /** A tag number is taken in its shortest form, from 31 on, where it has one of its own, to less than 2^29. */
  lemma {:induction false} TagExact(s: seq<byte>, rest: seq<byte>, high: nat)
    requires EndsGroups(s)
    ensures Base128Size(s + rest, high)
         == if (high == 0 ==> s[0] != 0x80) && 31 <= TagNumber(s, high) < 0x2000_0000 then |s| else 0
    decreases |s|
  {
    assert (s + rest)[1..] == s[1..] + rest;
    NumberGrows(s, high);
    var w := 128 * high + s[0] % 128;
    if |s| > 1 {
      forall i | 0 <= i < |s| - 2 ensures s[1..][i] >= 128 {}
      TagExact(s[1..], rest, w);
    } else {
      assert s[1..] == [] && TagNumber([], w) == w;
    }
  }

  lemma {:induction false} TagUnended(s: seq<byte>, high: nat)
    requires forall i :: 0 <= i < |s| ==> s[i] >= 128
    ensures Base128Size(s, high) == 0
    decreases |s|
  {
    if s != [] { TagUnended(s[1..], 128 * high + s[0] % 128); }
  }
}
