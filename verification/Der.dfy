/**
DER as CBB writes it and CBS reads it (sections 8.1 and 10.1 of ITU-T X.690): tag, length in the minimal
form, contents; INTEGERs that fit 64 bits, OCTET STRINGs and BOOLEANs.
*/
module Der {
  import opened Words
  import opened Wire

  const INTEGER: byte := 0x02
  const OCTETS: byte := 0x04
  const BOOLEAN: byte := 0x01
  const SEQUENCE: byte := 0x30

  /** CBB_flush: the longest contents that get a length. */
  const MAX_LENGTH: nat := 0xffff_fffe
  const LIMIT32: nat := 0x1_0000_0000
  const LIMIT64: nat := 0x1_0000_0000_0000_0000

  /** A constructed context-specific tag with a number up to 30. */
  function Context(n: nat): byte
    requires n <= 30
  {
    0xa0 + n
  }

  datatype Got<+T> = Bad | Good(value: T, rest: seq<byte>)

  // ---------------------------------------------------------------- writing

  /** The fewest bytes that hold `n`, at least one. */
  function Size(n: nat): (k: nat)
    ensures k >= 1 && n < Pow2(8 * k) && (k > 1 ==> n >= Pow2(8 * (k - 1)))
  {
    if n < 256 then
      Byte();
      1
    else
      var k := Size(n / 256);
      SizeStep(n, k);
      1 + k
  }

  lemma SizeStep(n: nat, k: nat)
    requires n >= 256 && k >= 1
    ensures n / 256 < Pow2(8 * k) ==> n < Pow2(8 * (k + 1))
    ensures (k > 1 ==> n / 256 >= Pow2(8 * (k - 1))) ==> n >= Pow2(8 * k)
  {
    PowByte(k);
    PowByte(k - 1);
  }

  function LengthBytes(n: nat): seq<byte>
    requires n <= MAX_LENGTH
  {
    if n < 128 then [n] else (SmallSize(n); [0x80 + Size(n)]) + ToBE(n, Size(n))
  }

  lemma Pow32()
    ensures Pow2(32) == LIMIT32
  {
    Limit16();
    PowAdd(16, 16);
  }

  lemma Pow64()
    ensures Pow2(64) == LIMIT64
  {
    Pow32();
    PowAdd(32, 32);
  }

  lemma SmallSize(n: nat)
    requires n < LIMIT32
    ensures Size(n) <= 4
  {
    Pow32();
    if Size(n) > 4 { PowMonotone(32, 8 * (Size(n) - 1)); }
  }

  lemma SmallSize64(n: nat)
    requires n < LIMIT64
    ensures Size(n) <= 8
  {
    Pow64();
    if Size(n) > 8 { PowMonotone(64, 8 * (Size(n) - 1)); }
  }

  /** CBB_add_asn1 with its contents flushed. */
  function Tlv(tag: byte, contents: seq<byte>): seq<byte>
    requires |contents| <= MAX_LENGTH
  {
    [tag] + LengthBytes(|contents|) + contents
  }

  /** CBB_add_asn1_uint64 inside its INTEGER: no leading zeros, but one where the number would be negative. */
  function UintBytes(n: nat): (s: seq<byte>)
    ensures s != []
  {
    var s := ToBE(n, Size(n));
    if s[0] >= 128 then [0] + s else s
  }

  function BoolBytes(b: bool): seq<byte> {
    [if b then 0xff else 0]
  }

  // ---------------------------------------------------------------- reading

  /** The bytes of a tag: one, or a number in base 128 behind it. */
  function TagSize(s: seq<byte>): (k: nat)
    ensures k <= |s|
  {
    if s == [] then 0
    else if s[0] % 32 != 31 then 1
    else
      var k := Base128Size(s[1..], 0);
      if k == 0 then 0 else 1 + k
  }

  /** parse_base128_integer, with the bounds on tag numbers; 0 if it fails. */
  function Base128Size(s: seq<byte>, v: nat): (k: nat)
    ensures k <= |s|
    decreases |s|
  {
    if s == [] || v >= 0x200_0000_0000_0000 || (v == 0 && s[0] == 0x80) then 0
    else
      var w := 128 * v + s[0] % 128;
      if s[0] >= 128 then
        var k := Base128Size(s[1..], w);
        if k == 0 then 0 else 1 + k
      else if 31 <= w < 0x2000_0000 then 1
      else 0
  }

  /** What follows the tag: the length and the size of its encoding; DER only. */
  function Length(s: seq<byte>): (r: Option<(nat, nat)>)
    ensures r.Some? ==> 1 <= r.value.1 <= |s|
  {
    if s == [] then None
    else if s[0] < 128 then Some((s[0], 1))
    else
      var k := s[0] - 128;
      if k == 0 || k > 4 || |s| < 1 + k then None
      else
        var n := FromBE(s[1..1 + k]);
        if n < 128 || n < Pow2(8 * (k - 1)) then None else Some((n, 1 + k))
  }

  /** CBS_get_any_asn1_element: a whole element and the size of its header. */
  function AnyElement(s: seq<byte>): (r: Got<(seq<byte>, nat)>)
    ensures r.Good? ==> 2 <= r.value.1 <= |r.value.0| <= |s| && r.value.0 + r.rest == s
  {
    var t := TagSize(s);
    if t == 0 then Bad
    else
      var len := Length(s[t..]);
      if len.None? then Bad
      else
        var header := t + len.value.1;
        if |s| < header + len.value.0 then Bad
        else Good((s[..header + len.value.0], header), s[header + len.value.0..])
  }

  /** CBS_get_asn1 for a tag of one byte: the contents. */
  function Get(tag: byte, s: seq<byte>): Got<seq<byte>> {
    match AnyElement(s)
    case Bad => Bad
    case Good(e, rest) => if s[0] == tag && tag % 32 != 31 then Good(e.0[e.1..], rest) else Bad
  }

  /** CBS_get_optional_asn1 */
  function GetOptional(tag: byte, s: seq<byte>): Got<Option<seq<byte>>> {
    if s == [] || s[0] != tag then Good(None, s)
    else
      match Get(tag, s)
      case Bad => Bad
      case Good(v, rest) => Good(Some(v), rest)
  }

  /** CBS_get_asn1_uint64 on the contents of the INTEGER. */
  function Uint(s: seq<byte>): Option<nat> {
    if s == [] || s[0] >= 128 || (s[0] == 0 && |s| > 1 && s[1] < 128) then None
    else if FromBE(s) < LIMIT64 then Some(FromBE(s))
    else None
  }

  function GetUint(s: seq<byte>): Got<nat> {
    match Get(INTEGER, s)
    case Bad => Bad
    case Good(v, rest) => if Uint(v).Some? then Good(Uint(v).value, rest) else Bad
  }

  function Bool(s: seq<byte>): Option<bool> {
    if s == [0] then Some(false) else if s == [0xff] then Some(true) else None
  }

  // ---------------------------------------------------------------- inverses

  lemma LengthInverse(n: nat, rest: seq<byte>)
    requires n <= MAX_LENGTH
    ensures Length(LengthBytes(n) + rest) == Some((n, |LengthBytes(n)|))
  {
    hide Pow2, FromBE, ToBE;
    var s := LengthBytes(n) + rest;
    if n >= 128 {
      SmallSize(n);
      var k := Size(n);
      assert s[1..1 + k] == ToBE(n, k);
      FromToBE(n, k);
      if k == 1 { Byte(); }
    }
  }

  lemma ElementInverse(tag: byte, contents: seq<byte>, rest: seq<byte>)
    requires tag % 32 != 31 && |contents| <= MAX_LENGTH
    ensures AnyElement(Tlv(tag, contents) + rest) == Good((Tlv(tag, contents), |Tlv(tag, contents)| - |contents|), rest)
  {
    hide LengthBytes, Length;
    var s := Tlv(tag, contents) + rest;
    var behind := contents + rest;
    assert s[1..] == LengthBytes(|contents|) + behind;
    LengthInverse(|contents|, behind);
    assert s[..|Tlv(tag, contents)|] == Tlv(tag, contents) && s[|Tlv(tag, contents)|..] == rest;
  }

  lemma GetInverse(tag: byte, contents: seq<byte>, rest: seq<byte>)
    requires tag % 32 != 31 && |contents| <= MAX_LENGTH
    ensures Get(tag, Tlv(tag, contents) + rest) == Good(contents, rest)
    ensures GetOptional(tag, Tlv(tag, contents) + rest) == Good(Some(contents), rest)
  {
    hide LengthBytes, AnyElement;
    ElementInverse(tag, contents, rest);
    var e := Tlv(tag, contents);
    assert e[|e| - |contents|..] == contents;
  }

  lemma {:induction false} FirstByte(n: nat, k: nat)
    requires k >= 1 && n < Pow2(8 * k)
    ensures k > 1 && n >= Pow2(8 * (k - 1)) ==> ToBE(n, k)[0] > 0
    decreases k
  {
    hide Pow2;
    if k > 1 && n >= Pow2(8 * (k - 1)) {
      PowByte(k - 1);
      PowByte(k - 2);
      assert ToBE(n, k)[0] == ToBE(n / 256, k - 1)[0];
      if k == 2 {
        Byte();
        assert ToBE(n / 256, 1) == ToBE(n / 256 / 256, 0) + [n / 256 % 256];
      } else {
        FirstByte(n / 256, k - 1);
      }
    }
  }

  lemma {:induction false} LeadingZero(s: seq<byte>)
    ensures FromBE([0] + s) == FromBE(s)
  {
    if s != [] {
      LeadingZero(s[..|s| - 1]);
      assert ([0] + s)[..|s|] == [0] + s[..|s| - 1];
    } else {
      assert ([0] + s)[..0] == [];
    }
  }

  lemma UintInverse(n: nat)
    requires n < LIMIT64
    ensures Uint(UintBytes(n)) == Some(n)
  {
    hide Pow2, FromBE, ToBE;
    var s := ToBE(n, Size(n));
    FromToBE(n, Size(n));
    LeadingZero(s);
    FirstByte(n, Size(n));
  }

  lemma UintLength(n: nat)
    requires n < LIMIT64
    ensures 1 <= |UintBytes(n)| <= 9
  {
    SmallSize64(n);
  }

  lemma GetUintInverse(n: nat, rest: seq<byte>)
    requires n < LIMIT64
    ensures |UintBytes(n)| <= MAX_LENGTH && GetUint(Tlv(INTEGER, UintBytes(n)) + rest) == Good(n, rest)
  {
    hide Get, Uint;
    UintLength(n);
    UintInverse(n);
    GetInverse(INTEGER, UintBytes(n), rest);
  }
}
