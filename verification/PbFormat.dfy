/**
The wire format as the Protocol Buffers Encoding gives it, by its bytes: base-128 numbers, the keys of fields and
the four kinds of payload.  What pb_encode writes is measured against it, and so is what pb_decode skips.
*/
module PbFormat {
  import opened Words
  import opened Wire
  import opened PbWire
  import opened PbMessage

  // ---------------------------------------------------------------- numbers

  /** The number that groups of seven bits stand for, the least significant group first. */
  function Groups(s: seq<byte>): nat {
    if s == [] then 0 else s[0] % 128 + 128 * Groups(s[1..])
  }

  /** The top bit is set on every byte but the last. */
  predicate Delimits(s: seq<byte>) {
    s != [] && s[|s| - 1] < 128 && forall i :: 0 <= i < |s| - 1 ==> s[i] >= 128
  }

  /** Without superfluous groups. */
  predicate Shortest(s: seq<byte>) {
    |s| > 1 ==> s[|s| - 1] != 0
  }

  lemma DelimitsTail(s: seq<byte>)
    requires |s| > 1
    ensures Delimits(s) <==> s[0] >= 128 && Delimits(s[1..])
    ensures Shortest(s) ==> Shortest(s[1..])
  {
    if s[0] >= 128 && Delimits(s[1..]) {
      forall i | 0 <= i < |s| - 1 ensures s[i] >= 128 {
        if i > 0 { assert s[i] == s[1..][i - 1]; }
      }
    }
  }

  /** A varint is the shortest base-128 form of its number. */
  lemma {:induction false} VarintIsShortest(n: nat)
    ensures Delimits(EncVarint(n)) && Shortest(EncVarint(n)) && Groups(EncVarint(n)) == n
    decreases n
  {
    var s := EncVarint(n);
    if n <= 0x7f {
      assert s[1..] == [];
    } else {
      VarintIsShortest(n / 128);
      assert s[1..] == EncVarint(n / 128);
      DelimitsTail(s);
    }
  }

  lemma {:induction false} ShortestPositive(s: seq<byte>)
    requires Delimits(s) && Shortest(s) && |s| > 1
    ensures Groups(s) == s[0] % 128 + 128 * Groups(s[1..]) && Groups(s[1..]) > 0
  {
    DelimitsTail(s);
    if |s| > 2 { ShortestPositive(s[1..]); } else { assert s[1..][1..] == []; }
  }

  lemma VarintOf(b: byte, high: nat)
    requires b >= 128 && high > 0
    ensures EncVarint(b % 128 + 128 * high) == [b] + EncVarint(high)
  {
  }

  /** And it is the only one. */
  lemma {:induction false} ShortestIsVarint(s: seq<byte>)
    requires Delimits(s) && Shortest(s)
    ensures s == EncVarint(Groups(s))
  {
    if |s| == 1 {
      assert s[1..] == [];
    } else {
      ShortestPositive(s);
      DelimitsTail(s);
      ShortestIsVarint(s[1..]);
      VarintOf(s[0], Groups(s[1..]));
      hide EncVarint, Groups;
      assert s == [s[0]] + s[1..];
    }
  }

  function Wrap64(n: nat): nat {
    n % TWO64
  }

  /** The 64-bit decoder takes any base-128 form of up to ten bytes, whatever is behind it, modulo 2^64. */
  lemma DecodesGroups(s: seq<byte>, rest: seq<byte>)
    requires Delimits(s)
    ensures DecVarint64(s + rest) == if |s| <= 10 then Got(Wrap64(Groups(s)), rest) else Fail
  {
    hide Groups, Varint64Loop;
    assert Pow2(0) == 1;
    GroupsLoop(s, rest, 0, 0);
  }

  /** The loop after `n` bytes. */
  lemma {:induction false} GroupsLoop(s: seq<byte>, rest: seq<byte>, result: nat, n: nat)
    requires Delimits(s) && n <= 9 && result < Pow2(7 * n)
    ensures Varint64Loop(s + rest, result, 7 * n)
         == if n + |s| <= 10 then Got(Wrap64(result + Groups(s) * Pow2(7 * n)), rest) else Fail
    decreases |s|
  {
    hide Pow2, Or, Shl, Varint64Loop, Wrap64;
    var x := s[0] % 128;
    LoopTurn(s, rest, result, 7 * n);
    if n == 9 {
      TopBits(result, x, 63, Pow2(63));
      if |s| > 1 {
        DelimitsTail(s);
        LoopOver(s[1..] + rest, Or(result, Shl(x, 63, 64)));
      } else {
        OneGroup(s);
      }
    } else {
      SevenBits();
      AddSeven(result, x, 7 * n, 7, 64);
      if |s| == 1 {
        OneGroup(s);
        SixtyFour();
        Small(result + x * Pow2(7 * n));
      } else {
        DelimitsTail(s);
        GroupsLoop(s[1..], rest, result + x * Pow2(7 * n), n + 1);
        NextGroups(s, result, 7 * n);
      }
    }
  }

  lemma LoopTurn(s: seq<byte>, rest: seq<byte>, result: nat, k: nat)
    requires Delimits(s) && k < 64
    ensures var r := Or(result, Shl(s[0] % 128, k, 64));
            Varint64Loop(s + rest, result, k)
            == if |s| == 1 then Got(r, rest) else Varint64Loop(s[1..] + rest, r, k + 7)
  {
    hide Or, Shl;
    assert (s + rest)[1..] == s[1..] + rest;
    if |s| == 1 { assert (s + rest)[1..] == rest; }
  }

  lemma LoopOver(s: seq<byte>, result: nat)
    ensures Varint64Loop(s, result, 70) == Fail
  {
  }

  lemma OneGroup(s: seq<byte>)
    requires |s| == 1
    ensures Groups(s) == s[0] % 128
  {
    assert s[1..] == [];
  }

  lemma Small(n: nat)
    requires n < TWO64
    ensures Wrap64(n) == n
  {
  }

  lemma NextGroups(s: seq<byte>, result: nat, k: nat)
    requires s != []
    ensures result + (s[0] % 128) * Pow2(k) + Groups(s[1..]) * Pow2(k + 7) == result + Groups(s) * Pow2(k)
  {
    hide Pow2;
    PowAdd(k, 7);
    SevenBits();
    var p, low, high := Pow2(k), s[0] % 128, Groups(s[1..]);
    assert high * (p * 128) == (128 * high) * p;
    assert (low + 128 * high) * p == low * p + (128 * high) * p;
  }

  lemma OneBit()
    ensures Pow2(1) == 2
  {
    assert Pow2(0) == 1;
  }

  function WithHigh(low: nat, x: nat, top: nat): nat {
    low + x * top
  }

  /** The tenth byte: only its lowest bit is left of it. */
  lemma TopBits(result: nat, x: nat, k: nat, top: nat)
    requires k == 63 && top == Pow2(k) && result < top && x < 128
    ensures Or(result, Shl(x, k, 64)) == Wrap64(WithHigh(result, x, top))
  {
    hide Or, Shl, Pow2, Wrap64;
    SixtyFour();
    PowAdd(k, 1);
    OneBit();
    ShlTop(x, k, top);
    OrAdds(result, x % 2, k);
    WrapTop(result, x, top);
  }

  lemma ShlTop(x: nat, k: nat, top: nat)
    requires k == 63 && top == Pow2(k) && Pow2(64) == 2 * top == TWO64
    ensures Shl(x, k, 64) == (x % 2) * top
  {
    hide Pow2;
    assert x * top == (x % 2) * top + (x / 2) * (2 * top);
  }

  lemma WrapTop(result: nat, x: nat, top: nat)
    requires result < top && 2 * top == TWO64
    ensures Wrap64(result + x * top) == result + (x % 2) * top
  {
    assert x * top == (x % 2) * top + (x / 2) * TWO64;
  }

  /** A base-128 form that is cut short, or has an eleventh byte, is refused. */
  lemma {:induction false} CutVarint(s: seq<byte>, result: nat, k: nat)
    requires forall i :: 0 <= i < |s| ==> s[i] >= 128
    ensures Varint64Loop(s, result, k) == Fail && SkipVarint(s) == Fail
    decreases |s|
  {
    hide Or, Shl;
    if s != [] { CutVarint(s[1..], Or(result, Shl(s[0] % 128, k, 64)), k + 7); }
  }

  function Pow256(k: nat): (p: nat)
    ensures p > 0
  {
    if k == 0 then 1 else 256 * Pow256(k - 1)
  }

  /** Fixed-width numbers: byte `k` counts 256^k. */
  lemma {:induction false} FixedDigit(n: nat, len: nat, k: nat)
    requires k < len
    ensures EncFixed(n, len)[k] == n / Pow256(k) % 256
    decreases k
  {
    if k > 0 {
      FixedDigit(n / 256, len - 1, k - 1);
      DivTwice(n, Pow256(k - 1));
    }
  }

  lemma DivTwice(n: nat, p: nat)
    requires p > 0
    ensures n / 256 / p == n / (256 * p)
  {
    var q, s, t := n / 256 / p, n / 256 % p, n % 256;
    assert n / 256 == q * p + s;
    assert n == q * (256 * p) + (256 * s + t);
    Quotient(n, 256 * p, q, 256 * s + t);
  }

  lemma Quotient(n: nat, d: nat, q: nat, r: nat)
    requires r < d && n == q * d + r
    ensures n / d == q
  {
    OneQuotient(n / d, n % d, q, r, d);
  }

  lemma {:induction false} OneQuotient(k: nat, r: nat, q: nat, s: nat, d: nat)
    requires r < d && s < d && k * d + r == q * d + s
    ensures k == q
  {
    if k > 0 { OneMore(k, d); }
    if q > 0 { OneMore(q, d); }
    if k > 0 && q > 0 { OneQuotient(k - 1, r, q - 1, s, d); }
  }

  lemma OneMore(k: nat, d: nat)
    requires k > 0
    ensures k * d == (k - 1) * d + d && (k - 1) * d >= 0
  {
  }

  /** The zig-zag numbers 0, 1, 2, 3, 4, .. stand for 0, -1, 1, -2, 2, .. */
  lemma ZigZagOrder(v: nat)
    requires v < TWO64 / 2
    ensures ZigZag(v) == 2 * v && ZigZag(-1 - v) == 2 * v + 1
    ensures UnZigZag(2 * v) == v && UnZigZag(2 * v + 1) == -1 - v
  {
  }

  // ---------------------------------------------------------------- fields

  /** What a field carries behind its key. */
  datatype Payload = Varint(n: nat) | Fixed64(data: seq<byte>) | Delimited(data: seq<byte>) | Fixed32(data: seq<byte>)
  {
    predicate Valid() {
      match this
      case Varint(n) => n < TWO64
      case Fixed64(data) => |data| == 8
      case Delimited(data) => |data| < TWO32
      case Fixed32(data) => |data| == 4
    }

    /** The wire type. */
    function Code(): nat {
      match this case Varint(_) => 0 case Fixed64(_) => 1 case Delimited(_) => 2 case Fixed32(_) => 5
    }

    function Bytes(): seq<byte> {
      match this
      case Varint(n) => EncVarint(n)
      case Delimited(data) => EncVarint(|data|) + data
      case Fixed64(data) => data
      case Fixed32(data) => data
    }
  }

  function Key(tag: nat, code: nat): seq<byte> {
    EncVarint(8 * tag + code)
  }

  /** A whole field. */
  function FieldBytes(tag: nat, p: Payload): seq<byte> {
    Key(tag, p.Code()) + p.Bytes()
  }

  lemma KeyIs(tag: nat, code: nat, rest: seq<byte>)
    requires tag < MAX_TAG && code < 8 && 8 * tag + code > 0
    ensures DecTag(Key(tag, code) + rest) == Tag(WireOf(code), tag, rest)
  {
    hide EncVarint, DecVarint32;
    DecVarint32Inverse(8 * tag + code, rest);
  }

  lemma {:induction false} SkipsVarint(s: seq<byte>, rest: seq<byte>)
    requires Delimits(s)
    ensures SkipVarint(s + rest) == Got((), rest)
  {
    assert (s + rest)[1..] == s[1..] + rest;
    if |s| == 1 {
      assert (s + rest)[1..] == rest;
    } else {
      DelimitsTail(s);
      SkipsVarint(s[1..], rest);
    }
  }

  /** Skipping takes the payload and nothing else. */
  lemma SkipsPayload(p: Payload, rest: seq<byte>)
    requires p.Valid()
    ensures SkipField(WireOf(p.Code()), p.Bytes() + rest) == Got((), rest)
  {
    hide EncVarint, DecVarint32, SkipVarint;
    match p
    case Varint(n) =>
      VarintIsShortest(n);
      SkipsVarint(EncVarint(n), rest);
    case Fixed64(data) => assert (data + rest)[8..] == rest;
    case Fixed32(data) => assert (data + rest)[4..] == rest;
    case Delimited(data) =>
      DecVarint32Inverse(|data|, data + rest);
      assert EncVarint(|data|) + data + rest == EncVarint(|data|) + (data + rest);
      assert (data + rest)[|data|..] == rest;
  }

  /**
  A field with a tag that the descriptor does not have, by its bytes.  A tag of 0 will do behind a wire type other than
  0, if the descriptor has any entry.
  */
  ghost predicate IsUnknown(fields: seq<Field>, u: seq<byte>, tag: nat, p: Payload) {
    && (tag > 0 || (p.Code() > 0 && fields != [])) && tag < MAX_TAG && !HasTag(fields, tag)
    && p.Valid() && u == FieldBytes(tag, p)
  }

  /** The loop passes over an unknown field. */
  lemma LoopSkips(fields: seq<Field>, u: seq<byte>, tag: nat, p: Payload, b: seq<byte>, st: Struct, seen: set<nat>)
    requires IsUnknown(fields, u, tag, p)
    ensures DecLoop(fields, u + b, st, seen) == DecLoop(fields, b, st, seen)
  {
    hide SkipField, DecTag, Key, DecCell;
    KeyIs(tag, p.Code(), p.Bytes() + b);
    SkipsPayload(p, b);
    assert u + b == Key(tag, p.Code()) + (p.Bytes() + b);
    assert Find(fields, tag, 0).None?;
    KeyNotEmpty(tag, p.Code());
  }

  lemma KeyNotEmpty(tag: nat, code: nat)
    ensures Key(tag, code) != []
  {
  }

  // ---------------------------------------------------------------- what goes wrong

  /** Wire types 3, 4, 6 and 7 of an unknown field are refused. */
  lemma OtherCodesFail(fields: seq<Field>, tag: nat, code: nat, b: seq<byte>, st: Struct, seen: set<nat>)
    requires 0 < tag < MAX_TAG && !HasTag(fields, tag) && (code == 3 || code == 4 || code == 6 || code == 7)
    ensures DecLoop(fields, Key(tag, code) + b, st, seen) == Broken
  {
    hide DecTag, Key, DecCell;
    KeyIs(tag, code, b);
    KeyNotEmpty(tag, code);
    assert Find(fields, tag, 0).None?;
  }

  /** An unknown field whose payload is cut short is refused. */
  lemma CutPayloadFails(p: Payload, n: nat)
    requires p.Valid() && n < |p.Bytes()|
    ensures SkipField(WireOf(p.Code()), p.Bytes()[..n]) == Fail
  {
    hide EncVarint, DecVarint32, SkipVarint;
    match p
    case Varint(m) =>
      VarintIsShortest(m);
      CutVarint(EncVarint(m)[..n], 0, 0);
    case Delimited(data) =>
      var key := EncVarint(|data|);
      if n >= |key| {
        DecVarint32Inverse(|data|, data[..n - |key|]);
        assert p.Bytes()[..n] == key + data[..n - |key|];
      } else {
        VarintIsShortest(|data|);
        assert p.Bytes()[..n] == key[..n];
        CutVarint32(key[..n]);
      }
    case _ =>
  }

  lemma {:induction false} CutLoop32(s: seq<byte>, result: nat, k: nat)
    requires forall i :: 0 <= i < |s| ==> s[i] >= 128
    ensures Varint32Loop(s, result, k) == Fail
    decreases |s|
  {
    hide Or, Shl;
    if s != [] {
      CutLoop32(s[1..], if k >= 32 then result else Or(result, Shl(s[0] % 128, k, 32)), NextBitpos(k));
    }
  }

  lemma CutVarint32(s: seq<byte>)
    requires forall i :: 0 <= i < |s| ==> s[i] >= 128
    ensures DecVarint32(s) == Fail
  {
    if s != [] { CutLoop32(s[1..], s[0] % 128, 7); }
  }

  // ---------------------------------------------------------------- what is written

  /** The payload that the Protocol Buffers Encoding gives a value of each type. */
  function PayloadOf(f: Field, v: Value): Payload
    requires EncValue(f, v).Some?
  {
    match f.ltype
    case LVarint => Varint(if v.n < 0 then v.n + TWO64 else v.n)
    case LUvarint => Varint(v.n)
    case LSvarint => Varint(if v.n < 0 then -2 * v.n - 1 else 2 * v.n)
    case LFixed32 => Fixed32(EncFixed(v.n, 4))
    case LFixed64 => Fixed64(EncFixed(v.n, 8))
    case LString => Delimited(CString(v.chars))
    case LSubmessage => Delimited(EncFrom(f.sub, v.st, 0).value)
    case _ => Delimited(v.bytes)
  }

  /** What is written for a value is its payload, and the key in front of it says which kind that is. */
  lemma WritesPayload(f: Field, v: Value)
    requires EncValue(f, v).Some?
    ensures EncValue(f, v).value == PayloadOf(f, v).Bytes()
    ensures FieldTag(f) == Key(f.tag, PayloadOf(f, v).Code())
  {
    hide EncVarint, EncFrom, EncFixed;
  }
}
