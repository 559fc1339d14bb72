/**
The scalar wire encodings of nanopb: varints, zig-zag and fixed-width integers, and their inverses
(Protocol Buffers Encoding, "Base 128 Varints" and "Signed Integers").
*/
module PbWire {
  import opened Words
  import opened Wire

  const TWO32: nat := 0x1_0000_0000
  const TWO64: nat := 0x1_0000_0000_0000_0000

  datatype WireType = WtVarint | Wt64 | WtString | Wt32 | WtOther(code: nat)

  function WireCode(w: WireType): nat {
    match w case WtVarint => 0 case Wt64 => 1 case WtString => 2 case Wt32 => 5 case WtOther(c) => c
  }

  function WireOf(code: nat): WireType {
    if code == 0 then WtVarint else if code == 1 then Wt64 else if code == 2 then WtString
    else if code == 5 then Wt32 else WtOther(code)
  }

  // ---------------------------------------------------------------- encoding

  /** pb_encode_varint: seven bits a byte, least significant first, the top bit set on all but the last. */
  function EncVarint(n: nat): (s: seq<byte>)
    ensures s != []
  {
    if n <= 0x7f then [n] else [n % 128 + 128] + EncVarint(n / 128)
  }

  /** (uint64_t)value of a signed integer. */
  function Unsigned64(v: int): (n: nat)
    requires -(TWO64 / 2) <= v < TWO64 / 2
    ensures n < TWO64
  {
    if v < 0 then v + TWO64 else v
  }

  /** pb_encode_svarint */
  function ZigZag(v: int): (n: nat)
    requires -(TWO64 / 2) <= v < TWO64 / 2
    ensures n < TWO64
  {
    if v < 0 then -2 * v - 1 else 2 * v
  }

  /** Little-endian, `len` bytes. */
  function EncFixed(n: nat, len: nat): (s: seq<byte>)
    ensures |s| == len
  {
    if len == 0 then [] else [n % 256] + EncFixed(n / 256, len - 1)
  }

  function EncTag(w: WireType, tag: nat): seq<byte> {
    EncVarint(8 * tag + WireCode(w))
  }

  // ---------------------------------------------------------------- decoding

  /** What a decoder returns: a value and the rest of the input, or failure. */
  datatype Parsed<+T> = Fail | Got(value: T, rest: seq<byte>)

  /** The loop of pb_decode_varint from bit position `bitpos` on. */
  function Varint64Loop(s: seq<byte>, result: nat, bitpos: nat): (p: Parsed<nat>)
    ensures p.Got? ==> |p.rest| < |s|
    decreases |s|
  {
    if bitpos >= 64 || s == [] then Fail
    else
      var r := Or(result, Shl(s[0] % 128, bitpos, 64));
      if s[0] >= 128 then Varint64Loop(s[1..], r, bitpos + 7) else Got(r, s[1..])
  }

  function DecVarint64(s: seq<byte>): Parsed<nat> {
    Varint64Loop(s, 0, 0)
  }

  /** The bit position is an 8-bit counter. */
  function NextBitpos(bitpos: nat): nat {
    (bitpos + 7) % 256
  }

  /** The multi-byte loop of pb_decode_varint32_eof, up to and including its final check. */
  function Varint32Loop(s: seq<byte>, result: nat, bitpos: nat): (p: Parsed<nat>)
    ensures p.Got? ==> |p.rest| < |s|
    decreases |s|
  {
    if s == [] then Fail
    else
      var b := s[0];
      var signExtension := if bitpos < 63 then 0xff else 0x01;
      if bitpos >= 32 && b % 128 != 0 && (result < TWO32 / 2 || b != signExtension) then Fail
      else
        var r := if bitpos >= 32 then result else Or(result, Shl(b % 128, bitpos, 32));
        var next := NextBitpos(bitpos);
        if b >= 128 then Varint32Loop(s[1..], r, next)
        else if next == 35 && (b / 16) % 8 != 0 then Fail
        else Got(r, s[1..])
  }

  function DecVarint32(s: seq<byte>): Parsed<nat> {
    if s == [] then Fail
    else if s[0] < 128 then Got(s[0], s[1..])
    else Varint32Loop(s[1..], s[0] % 128, 7)
  }

  function UnZigZag(n: nat): int {
    if n % 2 == 1 then -(n / 2) - 1 else n / 2
  }

  function DecFixed(s: seq<byte>, len: nat): Parsed<nat> {
    if |s| < len then Fail else Got(FixedValue(s[..len]), s[len..])
  }

  function FixedValue(s: seq<byte>): nat {
    if s == [] then 0 else s[0] + 256 * FixedValue(s[1..])
  }

  /** A cast to a signed type with `limit` values: the low bits, read as two's complement. */
  function Signed(n: int, limit: nat): int
    requires limit > 0
  {
    if n % limit < limit / 2 then n % limit else n % limit - limit
  }

  // ---------------------------------------------------------------- inverses

  lemma {:induction false} OrZero(a: nat)
    ensures Or(a, 0) == a && Or(0, a) == a
  {
  }

  /** Bits above and below do not meet, so `|` is `+`. */
  lemma {:induction false} OrAdds(low: nat, high: nat, k: nat)
    requires low < Pow2(k)
    ensures Or(low, high * Pow2(k)) == low + high * Pow2(k)
    decreases k
  {
    if k > 0 {
      var h := high * Pow2(k - 1);
      assert high * Pow2(k) == 2 * h;
      OrAdds(low / 2, high, k - 1);
      if low != 0 && h != 0 {
        assert Or(low, 2 * h) == 2 * Or(low / 2, h) + low % 2;
      }
    } else {
      OrZero(high);
    }
  }

  lemma Product(x: nat, p: nat, q: nat)
    requires x < q && p > 0
    ensures x * p < p * q && x * p + p <= p * q
  {
    var d := q - x - 1;
    assert p * q == x * p + p + d * p;
    assert d * p >= 0;
  }

  lemma SmallMod(x: nat, d: nat)
    requires x < d
    ensures x % d == x
  {
  }

  lemma ShlSmall(x: nat, k: nat, width: nat)
    requires x * Pow2(k) < Pow2(width)
    ensures Shl(x, k, width) == x * Pow2(k)
  {
    hide Pow2;
    SmallMod(x * Pow2(k), Pow2(width));
  }

  lemma SevenBits()
    ensures Pow2(7) == 128
  {
  }

  /** Up to seven more bits at position `k`. */
  lemma AddSeven(low: nat, x: nat, k: nat, m: nat, width: nat)
    requires low < Pow2(k) && x < Pow2(m) && k + m <= width
    ensures Or(low, Shl(x, k, width)) == low + x * Pow2(k)
    ensures low + x * Pow2(k) < Pow2(k + m) <= Pow2(width)
  {
    hide Pow2, Or, Shl;
    PowAdd(k, m);
    PowMonotone(k + m, width);
    Product(x, Pow2(k), Pow2(m));
    ShlSmall(x, k, width);
    OrAdds(low, x, k);
  }

  /** What is left of a number below 2^(width - k) after seven bits are taken. */
  lemma Shrink(n: nat, k: nat, width: nat)
    requires k + 7 <= width && n < Pow2(width - k)
    ensures n / 128 < Pow2(width - k - 7)
  {
    PowAdd(width - k - 7, 7);
    SevenBits();
  }

  lemma SplitProduct(n: nat, k: nat)
    ensures (n % 128) * Pow2(k) + (n / 128) * Pow2(k + 7) == n * Pow2(k)
  {
    hide Pow2;
    PowAdd(k, 7);
    SevenBits();
    var p, low, high := Pow2(k), n % 128, n / 128;
    assert n == low + 128 * high;
    assert high * (p * 128) == (128 * high) * p;
    assert n * p == low * p + (128 * high) * p;
  }

  lemma VarintHead(n: nat, rest: seq<byte>)
    ensures var s := EncVarint(n) + rest;
            if n <= 0x7f then s[0] == n && s[1..] == rest
            else s[0] == n % 128 + 128 && s[1..] == EncVarint(n / 128) + rest
  {
  }

  lemma Varint64Turn(n: nat, result: nat, k: nat, rest: seq<byte>)
    requires k < 64
    ensures Varint64Loop(EncVarint(n) + rest, result, k)
         == if n <= 0x7f then Got(Or(result, Shl(n, k, 64)), rest)
            else Varint64Loop(EncVarint(n / 128) + rest, Or(result, Shl(n % 128, k, 64)), k + 7)
  {
    hide Or, Shl, EncVarint;
    VarintHead(n, rest);
  }

  /** The 64-bit loop reads what is left of an encoded number, from any position it can have reached. */
  lemma {:induction false} Varint64Inverse(n: nat, result: nat, k: nat, rest: seq<byte>)
    requires k < 64 && result < Pow2(k) && n < Pow2(64 - k)
    ensures Varint64Loop(EncVarint(n) + rest, result, k) == Got(result + n * Pow2(k), rest)
    decreases n
  {
    hide Pow2, Or, Shl, Varint64Loop, EncVarint;
    SevenBits();
    Varint64Turn(n, result, k, rest);
    if k + 7 >= 64 { PowMonotone(64 - k, 7); }
    if n <= 0x7f {
      AddSeven(result, n, k, if k + 7 <= 64 then 7 else 64 - k, 64);
    } else {
      AddSeven(result, n % 128, k, 7, 64);
      Shrink(n, k, 64);
      Varint64Inverse(n / 128, result + (n % 128) * Pow2(k), k + 7, rest);
      SplitProduct(n, k);
    }
  }

  lemma DecVarint64Inverse(n: nat, rest: seq<byte>)
    requires n < TWO64
    ensures DecVarint64(EncVarint(n) + rest) == Got(n, rest)
  {
    SixtyFour();
    Varint64Inverse(n, 0, 0, rest);
  }

  lemma SixtyFour()
    ensures Pow2(64) == TWO64
  {
    Limit48();
    assert Pow2(8) == 256;
    PowAdd(8, 8);
    PowAdd(48, 16);
  }

  lemma ThirtyTwo()
    ensures Pow2(32) == TWO32
  {
    assert Pow2(8) == 256;
    PowAdd(8, 8);
    PowAdd(16, 16);
  }

  lemma Varint32Turn(n: nat, result: nat, k: nat, rest: seq<byte>)
    requires k + 7 <= 35
    ensures Varint32Loop(EncVarint(n) + rest, result, k)
         == if n > 0x7f then Varint32Loop(EncVarint(n / 128) + rest, Or(result, Shl(n % 128, k, 32)), k + 7)
            else if k == 28 && (n / 16) % 8 != 0 then Fail
            else Got(Or(result, Shl(n, k, 32)), rest)
  {
    hide Or, Shl, EncVarint;
    VarintHead(n, rest);
  }

  lemma {:induction false} Varint32Inverse(n: nat, result: nat, k: nat, rest: seq<byte>)
    requires k == 7 || k == 14 || k == 21 || k == 28
    requires result < Pow2(k) && n < Pow2(32 - k)
    ensures Varint32Loop(EncVarint(n) + rest, result, k) == Got(result + n * Pow2(k), rest)
    decreases n
  {
    hide Pow2, Or, Shl, Varint32Loop, EncVarint;
    SevenBits();
    Varint32Turn(n, result, k, rest);
    if k == 28 { FourBits(); }
    if n <= 0x7f {
      AddSeven(result, n, k, if k == 28 then 4 else 7, 32);
    } else {
      AddSeven(result, n % 128, k, 7, 32);
      Shrink(n, k, 32);
      Varint32Inverse(n / 128, result + (n % 128) * Pow2(k), k + 7, rest);
      SplitProduct(n, k);
    }
  }

  lemma FourBits()
    ensures Pow2(4) == 16
  {
  }

  /** The 32-bit decoder reads every encoded number that fits, and only rejects the others. */
  lemma DecVarint32Inverse(n: nat, rest: seq<byte>)
    requires n < TWO32
    ensures DecVarint32(EncVarint(n) + rest) == Got(n, rest)
  {
    hide Varint32Loop, Pow2, EncVarint;
    VarintHead(n, rest);
    if n > 0x7f {
      ThirtyTwo();
      SevenBits();
      Shrink(n, 0, 32);
      Varint32Inverse(n / 128, n % 128, 7, rest);
    }
  }

  lemma ZigZagInverse(v: int)
    requires -(TWO64 / 2) <= v < TWO64 / 2
    ensures UnZigZag(ZigZag(v)) == v
  {
  }

  lemma {:induction false} FixedInverse(n: nat, len: nat)
    requires n < Pow2(8 * len)
    ensures FixedValue(EncFixed(n, len)) == n
  {
    if len > 0 {
      hide Pow2;
      PowByte(len - 1);
      FixedInverse(n / 256, len - 1);
    } else {
      assert Pow2(0) == 1;
    }
  }

  lemma DecFixedInverse(n: nat, len: nat, rest: seq<byte>)
    requires n < Pow2(8 * len)
    ensures DecFixed(EncFixed(n, len) + rest, len) == Got(n, rest)
  {
    FixedInverse(n, len);
    var s := EncFixed(n, len) + rest;
    assert s[..len] == EncFixed(n, len) && s[len..] == rest;
  }
}
