/**
The nanopb decoder as it runs: an input stream that moves forward, length-limited substreams, the loop
over the fields of a message and the bitmask of required fields.  Every method is proved to return what
its specification in PbMessage gives for the bytes that were left, and to leave the bytes it says.
*/
module PbDecode {
  import opened Words
  import opened Wire
  import opened PbWire
  import opened PbMessage
  import opened PbIter

  /** A decoder did what `p` says: succeeded with that value and left that rest, or failed. */
  predicate Took<T(==)>(p: Parsed<T>, ok: bool, v: T, rest: seq<byte>) {
    && (ok <==> p.Got?)
    && (ok ==> v == p.value && rest == p.rest)
  }

  lemma Slices(s: seq<byte>, a: nat, b: nat, n: nat)
    requires a + n <= b <= |s|
    ensures s[a..b][..n] == s[a..a + n] && s[a..b][n..] == s[a + n..b]
  {
  }

  lemma FixedFirst(s: seq<byte>)
    requires s != []
    ensures FixedValue(s[..1]) == s[0]
  {
    assert s[..1][1..] == [];
  }

  lemma {:induction false} FixedSnoc(s: seq<byte>, i: nat)
    requires i < |s|
    ensures FixedValue(s[..i + 1]) == FixedValue(s[..i]) + s[i] * Pow2(8 * i)
    ensures FixedValue(s[..i]) < Pow2(8 * i)
    decreases i
  {
    if i == 0 {
      FixedFirst(s);
      assert Pow2(0) == 1;
    } else {
      hide Pow2;
      FixedSnoc(s[1..], i - 1);
      PowByte(i - 1);
      assert s[..i + 1][1..] == s[1..][..i] && s[..i][1..] == s[1..][..i - 1];
      Scaled(s[i], Pow2(8 * (i - 1)));
    }
  }

  lemma Scaled(x: nat, p: nat)
    ensures 256 * (x * p) == x * (256 * p)
  {
  }

  /** Byte `i` goes in at bit 8 * i. */
  lemma FixedNext(s: seq<byte>, i: nat, width: nat)
    requires i < |s| && 8 * i + 8 <= width
    ensures Or(FixedValue(s[..i]), Shl(s[i], 8 * i, width)) == FixedValue(s[..i + 1])
  {
    hide FixedValue, Or, Shl;
    assert Pow2(8) == 256;
    FixedSnoc(s, i);
    AddSeven(FixedValue(s[..i]), s[i], 8 * i, 8, width);
  }

  lemma CastFits(v: int, size: nat)
    requires IntSize(size)
    ensures Signed(v, Limit(size)) == v <==> InSigned(v, Limit(size))
  {
  }

  // ---------------------------------------------------------------- unions

  /** A union that holds a field other than entry `i` holds one that the descriptor has. */
  ghost predicate OldUnionKnown(fields: seq<Field>, i: nat, st: Struct)
    requires i < |fields|
  {
    fields[i].htype.Oneof? && fields[i].htype.group < |st.unions| ==>
      var which := st.unions[fields[i].htype.group].which;
      which == 0 || which == fields[i].tag || HasTag(fields, which)
  }

  lemma UnknownUnion(fields: seq<Field>, i: nat, w: WireType, s: seq<byte>, st: Struct)
    requires i < |fields| && !OldUnionKnown(fields, i, st)
    ensures DecCell(fields, i, w, s, st).Fail?
  {
  }

  lemma SameTag(fields: seq<Field>, i: nat, j: nat)
    requires Wf(fields) && i < |fields|
    ensures j < |fields| && fields[j].tag == fields[i].tag ==> j == i
    ensures HasTag(fields, fields[i].tag) && fields[i].tag != 0
  {
    WfAt(fields, 0, i);
  }

  lemma SubWf(fields: seq<Field>, i: nat)
    requires Wf(fields) && i < |fields|
    ensures Wf(fields[i].sub)
  {
    WfAt(fields, 0, i);
  }

  lemma TagsNonZero(fields: seq<Field>)
    requires Wf(fields)
    ensures forall i :: 0 <= i < |fields| ==> fields[i].tag != 0
  {
    forall i | 0 <= i < |fields| ensures fields[i].tag != 0 { WfAt(fields, 0, i); }
  }

  /** The loop after a tag was read. */
  function AfterTag(fields: seq<Field>, t: Tagged, st: Struct, seen: set<nat>): Loop {
    match t
    case NoTag => Broken
    case EndTag(rest) => Done(st, seen, rest, true)
    case Tag(w, tag, after) =>
      var found := Find(fields, tag, 0);
      if found.Some? then AfterKnown(fields, found.value, DecCell(fields, found.value, w, after, st), seen)
      else if fields == [] && tag == 0 then Broken
      else AfterUnknown(fields, SkipField(w, after), st, seen)
  }

  function AfterKnown(fields: seq<Field>, i: nat, r: Parsed<Struct>, seen: set<nat>): Loop
    requires i < |fields|
  {
    match r
    case Fail => Broken
    case Got(next, rest) => DecLoop(fields, rest, next, SeenWith(fields, i, seen))
  }

  function AfterUnknown(fields: seq<Field>, r: Parsed<()>, st: Struct, seen: set<nat>): Loop {
    match r
    case Fail => Broken
    case Got(_, rest) => DecLoop(fields, rest, st, seen)
  }

  /** One turn of the loop, as an equation. */
  lemma LoopTurn(fields: seq<Field>, s: seq<byte>, st: Struct, seen: set<nat>)
    requires s != []
    ensures DecLoop(fields, s, st, seen) == AfterTag(fields, DecTag(s), st, seen)
  {
    hide DecTag, DecCell, SkipField, Find;
  }

  lemma LoopEnd(fields: seq<Field>, st: Struct, seen: set<nat>)
    ensures DecLoop(fields, [], st, seen) == Done(st, seen, [], false)
  {
  }

  /** What the iterator finds is what the specification of the loop finds. */
  lemma KnownTag(fields: seq<Field>, tag: nat, pos: nat, found: bool)
    requires Wf(fields) && (found <==> HasField(fields, tag)) && (found ==> TagAt(fields, pos) == tag)
    requires pos < |fields| || (fields == [] && pos == 0)
    ensures Find(fields, tag, 0) == if found && fields != [] then Some(pos) else None
    ensures found && fields == [] ==> tag == 0
    ensures !found ==> !(fields == [] && tag == 0)
  {
    if found && fields != [] { FindTag(fields, pos, 0); }
  }

  // ---------------------------------------------------------------- the bitmask of required fields

  const ALL_BITS: nat := 0xffff_ffff

  /** Required field number `k` was seen. */
  ghost predicate SeenAt(fields: seq<Field>, seen: set<nat>, k: nat) {
    exists i: nat :: i < |fields| && fields[i].htype.Required? && RequiredBefore(fields, i) == k && i in seen
  }

  /** Bit `k` of fields_seen, two words of 32 bits, is set exactly when required field `k` was seen. */
  ghost predicate MaskSays(mask: seq<nat>, fields: seq<Field>, seen: set<nat>) {
    && |mask| == 2 && mask[0] < Pow2(32) && mask[1] < Pow2(32)
    && forall k: nat :: k < 64 ==> (Bit(mask[k / 32], k % 32) <==> SeenAt(fields, seen, k))
  }

  lemma NoneSeen(fields: seq<Field>, mask: seq<nat>)
    requires mask == [0, 0]
    ensures MaskSays(mask, fields, {})
  {
    forall k: nat | k < 64 ensures Bit(mask[k / 32], k % 32) <==> SeenAt(fields, {}, k) { ZeroBit(k % 32); }
  }

  lemma {:induction false} RequiredGrows(fields: seq<Field>, i: nat, j: nat)
    requires i < j <= |fields|
    ensures RequiredBefore(fields, i) + (if fields[i].htype.Required? then 1 else 0) <= RequiredBefore(fields, j)
    decreases j - i
  {
    if i + 1 < j { RequiredGrows(fields, i, j - 1); }
  }

  lemma {:induction false} RequiredNth(fields: seq<Field>, n: nat, k: nat) returns (i: nat)
    requires n <= |fields| && k < RequiredBefore(fields, n)
    ensures i < n && fields[i].htype.Required? && RequiredBefore(fields, i) == k
    decreases n
  {
    if fields[n - 1].htype.Required? && RequiredBefore(fields, n - 1) == k {
      i := n - 1;
    } else {
      i := RequiredNth(fields, n - 1, k);
    }
  }

  lemma SeenOne(fields: seq<Field>, seen: set<nat>, i: nat, k: nat)
    requires i < |fields| && fields[i].htype.Required?
    ensures SeenAt(fields, seen + {i}, k) <==> SeenAt(fields, seen, k) || RequiredBefore(fields, i) == k
  {
    hide RequiredBefore;
  }

  lemma OneBit(i: nat)
    ensures Bit(1, i) <==> i == 0
  {
    PowBit(0, i);
  }

  /** Setting bit `k` of a word. */
  lemma SetBit(word: nat, k: nat, j: nat)
    requires k < 32 && j < 32 && word < Pow2(32)
    ensures Or(word, Shl(1, k, 32)) < Pow2(32)
    ensures Bit(Or(word, Shl(1, k, 32)), j) <==> Bit(word, j) || j == k
  {
    hide Or, Pow2, Bit;
    OrBit(word, Shl(1, k, 32), j);
    ShlBit(1, k, 32, j);
    if k <= j { OneBit(j - k); }
    OrBound(word, Shl(1, k, 32), 32);
  }

  function Marked(mask: seq<nat>, k: nat): seq<nat>
    requires |mask| == 2 && k < 64
  {
    mask[k / 32 := Or(mask[k / 32], Shl(1, k % 32, 32))]
  }

  /** Marking required field `i` in the mask. */
  lemma MarkSeen(mask: seq<nat>, fields: seq<Field>, seen: set<nat>, i: nat)
    requires MaskSays(mask, fields, seen)
    requires i < |fields| && fields[i].htype.Required? && RequiredBefore(fields, i) < 64
    ensures MaskSays(Marked(mask, RequiredBefore(fields, i)), fields, seen + {i})
  {
    hide Or, Shl, Pow2, Bit, SeenAt, RequiredBefore;
    var k := RequiredBefore(fields, i);
    var next := Marked(mask, k);
    SetBit(mask[k / 32], k % 32, k % 32);
    forall j: nat | j < 64 ensures Bit(next[j / 32], j % 32) <==> SeenAt(fields, seen + {i}, j) {
      SeenOne(fields, seen, i, j);
      SetBit(mask[k / 32], k % 32, j % 32);
    }
  }

  /** Required fields past the first 64 have no bit. */
  lemma PastSeen(mask: seq<nat>, fields: seq<Field>, seen: set<nat>, i: nat)
    requires MaskSays(mask, fields, seen) && i < |fields|
    requires fields[i].htype.Required? ==> RequiredBefore(fields, i) >= 64
    ensures fields[i].htype.Required? ==> MaskSays(mask, fields, seen + {i})
  {
    hide Pow2, Bit, SeenAt, RequiredBefore;
    if fields[i].htype.Required? {
      forall j: nat | j < 64 ensures SeenAt(fields, seen + {i}, j) <==> SeenAt(fields, seen, j) {
        SeenOne(fields, seen, i, j);
      }
    }
  }

  /** The required fields that count were all seen exactly when their numbers were. */
  lemma SeenIff(fields: seq<Field>, seen: set<nat>, count: nat)
    requires var total := RequiredBefore(fields, |fields|); count == if total > 64 then 64 else total
    ensures RequiredSeen(fields, seen) <==> forall k: nat :: k < count ==> SeenAt(fields, seen, k)
  {
    hide RequiredBefore;
    if RequiredSeen(fields, seen) {
      forall k: nat | k < count ensures SeenAt(fields, seen, k) {
        var i := RequiredNth(fields, |fields|, k);
      }
    }
    if forall k: nat :: k < count ==> SeenAt(fields, seen, k) {
      forall i: nat | i < |fields| && fields[i].htype.Required? && RequiredBefore(fields, i) < 64 ensures i in seen {
        RequiredGrows(fields, i, |fields|);
        assert SeenAt(fields, seen, RequiredBefore(fields, i));
        var j: nat :| j < |fields| && fields[j].htype.Required?
                      && RequiredBefore(fields, j) == RequiredBefore(fields, i)
                      && j in seen;
        if i < j { RequiredGrows(fields, i, j); }
        if j < i { RequiredGrows(fields, j, i); }
      }
    }
  }

  lemma NoMore(fields: seq<Field>, seen: set<nat>, k: nat)
    requires k >= RequiredBefore(fields, |fields|)
    ensures !SeenAt(fields, seen, k)
  {
    hide RequiredBefore;
    forall i: nat | i < |fields| && fields[i].htype.Required? ensures RequiredBefore(fields, i) != k {
      RequiredGrows(fields, i, |fields|);
    }
  }

  lemma AllBits(m: nat)
    requires 0 < m <= 32
    ensures ALL_BITS / Pow2(32 - m) == Pow2(m) - 1 && Pow2(m) <= Pow2(32) && ALL_BITS == Pow2(32) - 1
  {
    hide Pow2;
    ThirtyTwo();
    PowAdd(m, 32 - m);
    PowMonotone(m, 32);
    var p, d := Pow2(m), Pow2(32 - m);
    assert p * d == (p - 1) * d + d;
    DivModUnique(ALL_BITS, d, p - 1, d - 1);
  }

  /** Word `i` of the mask is `allbits >> (32 - m)` exactly when its low `m` fields were seen. */
  lemma WordFull(mask: seq<nat>, fields: seq<Field>, seen: set<nat>, i: nat, m: nat)
    requires MaskSays(mask, fields, seen) && i < 2 && 0 < m <= 32
    requires forall k: nat :: 32 * i + m <= k < 32 * i + 32 ==> !SeenAt(fields, seen, k)
    ensures mask[i] == ALL_BITS / Pow2(32 - m)
       <==> forall k: nat :: 32 * i <= k < 32 * i + m ==> SeenAt(fields, seen, k)
  {
    hide Pow2, Bit, SeenAt;
    AllBits(m);
    var word := mask[i];
    forall j: nat | j < 32
      ensures Bit(word, j) <==> SeenAt(fields, seen, 32 * i + j)
      ensures Bit(Pow2(m) - 1, j) <==> j < m
    {
      var k := 32 * i + j;
      assert k / 32 == i && k % 32 == j;
      LowBits(m, j);
    }
    if forall k: nat :: 32 * i <= k < 32 * i + m ==> SeenAt(fields, seen, k) {
      forall j: nat | j < 32 ensures Bit(word, j) <==> Bit(Pow2(m) - 1, j) {
        assert SeenAt(fields, seen, 32 * i + j) <==> Bit(word, j);
      }
      Extensional(word, Pow2(m) - 1, 32);
    }
    if word == Pow2(m) - 1 {
      forall k: nat | 32 * i <= k < 32 * i + m ensures SeenAt(fields, seen, k) {
        assert Bit(word, k - 32 * i);
      }
    }
  }

  class IStream {
    const source: seq<byte>
    /** The state pointer, as an offset into the source. */
    var pos: nat
    var bytesLeft: nat

    ghost predicate Valid()
      reads this
    {
      pos + bytesLeft <= |source|
    }

    /** The bytes that are left. */
    ghost function Rest(): seq<byte>
      requires Valid()
      reads this
    {
      source[pos..pos + bytesLeft]
    }

    /** The end of the stream in the source; it stays where it is. */
    ghost function End(): nat
      reads this
    {
      pos + bytesLeft
    }

    /** pb_istream_from_buffer */
    constructor (s: seq<byte>)
      ensures Valid() && source == s && Rest() == s
    {
      source, pos, bytesLeft := s, 0, |s|;
    }

    constructor Slice(s: seq<byte>, start: nat, n: nat)
      requires start + n <= |s|
      ensures Valid() && source == s && pos == start && bytesLeft == n
    {
      source, pos, bytesLeft := s, start, n;
    }

    /** pb_readbyte */
    method ReadByte() returns (ok: bool, b: byte)
      requires Valid()
      modifies this
      ensures Valid() && End() == old(End())
      ensures ok <==> old(Rest()) != []
      ensures ok ==> b == old(Rest())[0] && Rest() == old(Rest())[1..]
      ensures !ok ==> bytesLeft == 0
    {
      if bytesLeft == 0 { return false, 0; }
      b := source[pos];
      pos := pos + 1;
      bytesLeft := bytesLeft - 1;
      return true, b;
    }

    /** pb_read with buf_read as the callback; the data is not used when input is skipped. */
    method Read(count: nat) returns (ok: bool, data: seq<byte>)
      requires Valid()
      modifies this
      ensures Valid() && End() == old(End())
      ensures ok <==> count <= |old(Rest())|
      ensures ok ==> data == old(Rest())[..count] && Rest() == old(Rest())[count..]
    {
      if bytesLeft < count { return false, []; }
      Slices(source, pos, pos + bytesLeft, count);
      data := source[pos..pos + count];
      pos := pos + count;
      bytesLeft := bytesLeft - count;
      return true, data;
    }

    /** pb_decode_varint */
    method DecodeVarint64() returns (ok: bool, result: nat)
      requires Valid()
      modifies this
      ensures Valid() && End() == old(End())
      ensures Took(DecVarint64(old(Rest())), ok, result, Rest())
    {
      hide Or, Shl;
      var bitpos := 0;
      result := 0;
      while true
        invariant Valid() && End() == old(End())
        invariant DecVarint64(old(Rest())) == Varint64Loop(Rest(), result, bitpos)
        decreases bytesLeft
      {
        if bitpos >= 64 { return false, 0; }
        var b;
        ok, b := ReadByte();
        if !ok { return; }
        result := Or(result, Shl(b % 128, bitpos, 64));
        bitpos := bitpos + 7;
        if b < 128 { return true, result; }
      }
    }

    /** pb_decode_varint32_eof */
    method DecodeVarint32() returns (ok: bool, eof: bool, result: nat)
      requires Valid()
      modifies this
      ensures Valid() && End() == old(End())
      ensures Took(DecVarint32(old(Rest())), ok, result, Rest())
      ensures (eof <==> old(bytesLeft) == 0) && (eof ==> !ok)
    {
      hide Or, Shl;
      var b;
      ok, b := ReadByte();
      eof := !ok;
      if !ok { return false, true, 0; }
      result := b % 128;
      if b < 128 { return; }
      var bitpos := 7;
      while true
        invariant Valid() && End() == old(End())
        invariant DecVarint32(old(Rest())) == Varint32Loop(Rest(), result, bitpos)
        decreases bytesLeft
      {
        ok, b := ReadByte();
        if !ok { return; }
        if bitpos >= 32 {
          var signExtension := if bitpos < 63 then 0xff else 0x01;
          if b % 128 != 0 && (result < TWO32 / 2 || b != signExtension) { return false, eof, result; }
        } else {
          result := Or(result, Shl(b % 128, bitpos, 32));
        }
        bitpos := NextBitpos(bitpos);
        if b < 128 {
          if bitpos == 35 && b / 16 % 8 != 0 { return false, eof, result; }
          return true, eof, result;
        }
      }
    }

    /** pb_skip_varint */
    method SkipVarintBytes() returns (ok: bool)
      requires Valid()
      modifies this
      ensures Valid() && End() == old(End())
      ensures Took(SkipVarint(old(Rest())), ok, (), Rest())
    {
      while true
        invariant Valid() && End() == old(End())
        invariant SkipVarint(old(Rest())) == SkipVarint(Rest())
        decreases bytesLeft
      {
        var data;
        ok, data := Read(1);
        if !ok { return; }
        if data[0] < 128 { return true; }
      }
    }

    /** pb_skip_string */
    method SkipString() returns (ok: bool)
      requires Valid()
      modifies this
      ensures Valid() && End() == old(End())
      ensures Took(SkipField(WtString, old(Rest())), ok, (), Rest())
    {
      hide DecVarint32;
      var eof, length;
      ok, eof, length := DecodeVarint32();
      if !ok { return; }
      var data;
      ok, data := Read(length);
    }

    /** pb_skip_field */
    method Skip(w: WireType) returns (ok: bool)
      requires Valid()
      modifies this
      ensures Valid() && End() == old(End())
      ensures Took(SkipField(w, old(Rest())), ok, (), Rest())
    {
      hide SkipVarint, Substream;
      var data;
      match w {
        case WtVarint => ok := SkipVarintBytes();
        case Wt64 => ok, data := Read(8);
        case WtString => ok := SkipString();
        case Wt32 => ok, data := Read(4);
        case WtOther(_) => return false;
      }
    }

    /** pb_decode_tag */
    method DecodeTag() returns (ok: bool, eof: bool, w: WireType, tag: nat)
      requires Valid()
      modifies this
      ensures Valid() && End() == old(End())
      ensures old(bytesLeft) > 0 ==>
                match DecTag(old(Rest()))
                case NoTag => !ok && !eof
                case EndTag(rest) => !ok && eof && Rest() == rest
                case Tag(wire, number, rest) => ok && w == wire && tag == number && Rest() == rest
      ensures old(bytesLeft) == 0 ==> !ok && eof
    {
      hide DecVarint32;
      var temp;
      w, tag := WtVarint, 0;
      ok, eof, temp := DecodeVarint32();
      if !ok { return; }
      if temp == 0 { return false, true, w, tag; }
      return true, false, WireOf(temp % 8), temp / 8;
    }

    /** pb_make_string_substream: the parent is left with what follows the payload, still behind it. */
    method MakeSubstream() returns (ok: bool, sub: IStream?)
      requires Valid()
      modifies this
      ensures Valid() && End() <= old(End()) && (ok <==> Substream(old(Rest())).Got?)
      ensures ok ==> sub != null && fresh(sub) && Parent(sub) && sub.Rest() == Substream(old(Rest())).value
      ensures ok ==> Behind(sub.End()) == Substream(old(Rest())).rest && sub.End() + bytesLeft == old(End())
    {
      hide DecVarint32;
      var eof, size;
      ok, eof, size := DecodeVarint32();
      sub := null;
      if !ok { return; }
      if bytesLeft < size { return false, null; }
      Slices(source, pos, pos + bytesLeft, size);
      sub := new IStream.Slice(source, pos, size);
      bytesLeft := bytesLeft - size;
      return true, sub;
    }

    ghost predicate Parent(sub: IStream)
      reads this, sub
    {
      sub != this && sub.source == source && sub.Valid() && sub.End() + bytesLeft <= |source|
    }

    /** The bytes that are left once a substream ending at `end` is closed. */
    ghost function Behind(end: nat): seq<byte>
      requires end + bytesLeft <= |source|
      reads this
    {
      source[end..end + bytesLeft]
    }

    /** pb_close_string_substream: what the substream did not use is skipped. */
    method CloseSubstream(sub: IStream) returns (ok: bool)
      requires Parent(sub)
      modifies this, sub
      ensures ok && Valid() && pos == old(sub.End()) && bytesLeft == old(bytesLeft)
    {
      if sub.bytesLeft > 0 {
        var data;
        ok, data := sub.Read(sub.bytesLeft);
        if !ok { return; }
      }
      pos := sub.pos;
      return true;
    }

    /** pb_decode_svarint */
    method DecodeSvarint() returns (ok: bool, v: int)
      requires Valid()
      modifies this
      ensures Valid() && End() == old(End())
      ensures ok <==> DecVarint64(old(Rest())).Got?
      ensures ok ==> v == UnZigZag(DecVarint64(old(Rest())).value) && Rest() == DecVarint64(old(Rest())).rest
    {
      hide Varint64Loop;
      var value: int;
      ok, value := DecodeVarint64();
      v := if value % 2 == 1 then -(value / 2) - 1 else value / 2;
    }

    /** pb_decode_fixed32 */
    method DecodeFixed32() returns (ok: bool, n: nat)
      requires Valid()
      modifies this
      ensures Valid() && End() == old(End())
      ensures Took(DecFixed(old(Rest()), 4), ok, n, Rest())
    {
      hide FixedValue, Or, Shl;
      var bytes;
      ok, bytes := Read(4);
      n := 0;
      if !ok { return; }
      FixedFirst(bytes);
      n := bytes[0];
      FixedNext(bytes, 1, 32);
      n := Or(n, Shl(bytes[1], 8, 32));
      FixedNext(bytes, 2, 32);
      n := Or(n, Shl(bytes[2], 16, 32));
      FixedNext(bytes, 3, 32);
      n := Or(n, Shl(bytes[3], 24, 32));
      assert bytes[..4] == bytes;
    }

    /** pb_decode_fixed64 */
    method DecodeFixed64() returns (ok: bool, n: nat)
      requires Valid()
      modifies this
      ensures Valid() && End() == old(End())
      ensures Took(DecFixed(old(Rest()), 8), ok, n, Rest())
    {
      hide FixedValue, Or, Shl;
      var bytes;
      ok, bytes := Read(8);
      n := 0;
      if !ok { return; }
      FixedFirst(bytes);
      n := bytes[0];
      FixedNext(bytes, 1, 64);
      n := Or(n, Shl(bytes[1], 8, 64));
      FixedNext(bytes, 2, 64);
      n := Or(n, Shl(bytes[2], 16, 64));
      FixedNext(bytes, 3, 64);
      n := Or(n, Shl(bytes[3], 24, 64));
      FixedNext(bytes, 4, 64);
      n := Or(n, Shl(bytes[4], 32, 64));
      FixedNext(bytes, 5, 64);
      n := Or(n, Shl(bytes[5], 40, 64));
      FixedNext(bytes, 6, 64);
      n := Or(n, Shl(bytes[6], 48, 64));
      FixedNext(bytes, 7, 64);
      n := Or(n, Shl(bytes[7], 56, 64));
      assert bytes[..8] == bytes;
    }

    /** pb_dec_varint, pb_dec_uvarint, pb_dec_svarint, pb_dec_fixed32 and pb_dec_fixed64 */
    method DecodeNum(f: Field) returns (ok: bool, v: Value)
      requires Valid() && f.ltype.Packable()
      modifies this
      ensures Valid() && End() == old(End())
      ensures Took(DecNum(f, old(Rest())), ok, v, Rest())
    {
      hide Varint64Loop, FixedValue;
      v := Num(0);
      var n: nat, svalue: int, clamped: int;
      match f.ltype {
        case LFixed32 =>
          ok, n := DecodeFixed32();
          return ok, Num(n);
        case LFixed64 =>
          ok, n := DecodeFixed64();
          return ok, Num(n);
        case LUvarint =>
          ok, n := DecodeVarint64();
          if !ok { return; }
          if !IntSize(f.dataSize) { return false, v; }
          clamped := n % Limit(f.dataSize);
          return clamped == n, Num(clamped);
        case LVarint =>
          ok, n := DecodeVarint64();
          if !ok { return; }
          svalue := if f.dataSize == 8 then Signed(n, TWO64) else Signed(n, TWO32);
        case LSvarint =>
          ok, svalue := DecodeSvarint();
          if !ok { return; }
      }
      if !IntSize(f.dataSize) { return false, v; }
      clamped := Signed(svalue, Limit(f.dataSize));
      CastFits(svalue, f.dataSize);
      return clamped == svalue, Num(clamped);
    }

    /** pb_dec_bytes, pb_dec_string and pb_dec_fixed_length_bytes */
    method DecodeBlob(f: Field) returns (ok: bool, v: Value)
      requires Valid() && (f.ltype.LBytes? || f.ltype.LString? || f.ltype.LFixedBytes?)
      modifies this
      ensures Valid() && End() == old(End())
      ensures Took(DecValue(f, old(Rest()), Struct([], [])), ok, v, Rest())
    {
      hide DecVarint32;
      var eof, size;
      v := Blob([]);
      ok, eof, size := DecodeVarint32();
      if !ok { return; }
      var data;
      match f.ltype {
        case LBytes =>
          if size + BYTES_OFFSET > f.dataSize { return false, v; }
          ok, data := Read(size);
          return ok, Blob(data);
        case LString =>
          if size + 1 > f.dataSize { return false, v; }
          ok, data := Read(size);
          return ok, Text(data);
        case LFixedBytes =>
          if size == 0 { return true, Blob(Zeros(f.dataSize)); }
          if size != f.dataSize { return false, v; }
          ok, data := Read(f.dataSize);
          return ok, Blob(data);
      }
    }

    /** The field decoders, PB_DECODERS; `into` is what is at the destination of a submessage. */
    method DecodeValue(f: Field, into: Struct) returns (ok: bool, v: Value)
      requires Valid() && Wf(f.sub)
      modifies this
      ensures Valid() && End() <= old(End()) && (ok ==> End() == old(End()))
      ensures Took(DecValue(f, old(Rest()), into), ok, v, Rest())
      decreases f, 0
    {
      hide DecNum, DecNoInit, Substream, Wf, DecBlob;
      if f.ltype.Packable() {
        ok, v := DecodeNum(f);
      } else if f.ltype.LSubmessage? {
        ok, v := DecodeSubmessage(f, into);
      } else {
        ok, v := DecodeBlob(f);
      }
    }

    /** pb_dec_submessage */
    method DecodeSubmessage(f: Field, into: Struct) returns (ok: bool, v: Value)
      requires Valid() && Wf(f.sub) && f.ltype.LSubmessage?
      modifies this
      ensures Valid() && End() <= old(End()) && (ok ==> End() == old(End()))
      ensures Took(DecValue(f, old(Rest()), into), ok, v, Rest())
      decreases f, 0, 0
    {
      hide DecNoInit, Substream, Wf;
      var sub;
      v := Num(0);
      ok, sub := MakeSubstream();
      if !ok { return; }
      var status, st := sub.DecodeNoInit(f.sub, into);
      ok := CloseSubstream(sub);
      return ok && status, Msg(st);
    }

    /** The loop over a packed array, on its substream. */
    method DecodeItems(f: Field, before: seq<Value>) returns (ok: bool, items: seq<Value>)
      requires Valid() && f.ltype.Packable()
      modifies this
      ensures Valid() && End() == old(End())
      ensures ok <==> DecPacked(f, old(Rest()), before).Some?
      ensures ok ==> items == DecPacked(f, old(Rest()), before).value && bytesLeft == 0
    {
      hide DecNum;
      items := before;
      while bytesLeft > 0 && |items| < f.arraySize
        invariant Valid() && End() == old(End())
        invariant DecPacked(f, old(Rest()), before) == DecPacked(f, Rest(), items)
        decreases f.arraySize - |items|
      {
        var v;
        ok, v := DecodeNum(f);
        if !ok { return; }
        items := items + [v];
      }
      return bytesLeft == 0, items;
    }

    /** The branch of decode_static_field for a packed array. */
    method DecodePacked(f: Field, before: seq<Value>) returns (ok: bool, items: seq<Value>)
      requires Valid() && f.ltype.Packable()
      modifies this
      ensures Valid() && End() <= old(End()) && (ok ==> End() == old(End()))
      ensures var p := Substream(old(Rest()));
              && (ok <==> p.Got? && DecPacked(f, p.value, before).Some?)
              && (ok ==> items == DecPacked(f, p.value, before).value && Rest() == p.rest)
    {
      hide Substream, DecPacked;
      var sub;
      items := before;
      ok, sub := MakeSubstream();
      if !ok { return; }
      ok, items := sub.DecodeItems(f, before);
      if !ok { return; }
      ok := CloseSubstream(sub);
    }

    /** decode_static_field, for the field the iterator is at. */
    method DecodeStaticField(fields: seq<Field>, i: nat, w: WireType, st: Struct) returns (ok: bool, out: Struct)
      requires Valid() && Wf(fields) && i < |fields|
      requires OldUnionKnown(fields, i, st)
      modifies this
      ensures Valid() && End() <= old(End()) && (ok ==> End() == old(End()))
      ensures Took(DecCell(fields, i, w, old(Rest()), st), ok, out, Rest())
      decreases fields, 0
    {
      hide DecValue, Substream, DecPacked, Wf, DefaultStruct, HasTag;
      var f := fields[i];
      SubWf(fields, i);
      out := st;
      if i >= |st.cells| { return false, out; }
      var cell := st.cells[i];
      var v;
      match f.htype {
        case Repeated =>
          if !cell.Many? { return false, out; }
          if w == WtString && f.ltype.Packable() {
            var items;
            ok, items := DecodePacked(f, cell.items);
            return ok, st.(cells := st.cells[i := Many(items)]);
          }
          if |cell.items| >= f.arraySize { return false, out; }
          ok, v := DecodeValue(f, DefaultStruct(f.sub));
          return ok, st.(cells := st.cells[i := Many(cell.items + [v])]);
        case Oneof(g) =>
          if g >= |st.unions| { return false, out; }
          ok, v := DecodeValue(f, DefaultStruct(f.sub));
          return ok, st.(unions := st.unions[g := Union(f.tag, Some(v))]);
        case Optional =>
          if !cell.Maybe? { return false, out; }
          ok, v := DecodeValue(f, OldStruct(f, cell.v));
          return ok, st.(cells := st.cells[i := Maybe(true, v)]);
        case Required =>
          if !cell.One? { return false, out; }
          ok, v := DecodeValue(f, OldStruct(f, cell.v));
          return ok, st.(cells := st.cells[i := One(v)]);
        case Singular =>
          if !cell.One? { return false, out; }
          ok, v := DecodeValue(f, OldStruct(f, cell.v));
          return ok, st.(cells := st.cells[i := One(v)]);
      }
    }

    /**
    decode_field.  A oneof that holds another field must hold one the descriptor knows; looking for it moves
    the iterator, and looking for the new tag brings it back.
    */
    method DecodeField(iter: FieldIter, w: WireType, st: Struct) returns (ok: bool, out: Struct)
      requires Valid() && iter.Valid() && Wf(iter.fields) && iter.pos < |iter.fields|
      modifies this, iter
      ensures Valid() && End() <= old(End()) && (ok ==> End() == old(End()))
      ensures iter.Valid() && (ok ==> iter.pos == old(iter.pos))
      ensures Took(DecCell(iter.fields, old(iter.pos), w, old(Rest()), st), ok, out, Rest())
      decreases iter.fields, 1
    {
      hide DecCell, Wf, HasTag;
      var i := iter.pos;
      var f := iter.fields[i];
      out := st;
      if f.htype.Oneof? && f.htype.group < |st.unions| {
        var which := st.unions[f.htype.group].which;
        if which != 0 && which != f.tag {
          var found := iter.Find(which);
          if !found {
            UnknownUnion(iter.fields, i, w, Rest(), st);
            return false, out;
          }
          found := iter.Find(f.tag);
          SameTag(iter.fields, i, iter.pos);
          if !found { return false, out; }
        }
      }
      ok, out := DecodeStaticField(iter.fields, i, w, st);
    }

    /** pb_decode_noinit */
    method DecodeNoInit(fields: seq<Field>, dest: Struct) returns (ok: bool, st: Struct)
      requires Valid() && Wf(fields)
      modifies this
      ensures Valid() && End() <= old(End()) && (ok ==> End() == old(End()))
      ensures Took(DecNoInit(fields, old(Rest()), dest), ok, st, Rest())
      decreases fields, 2
    {
      hide DecLoop, DecTag, DecCell, SkipField, HasTag, Wf, MaskSays, RequiredSeen, FieldIter.Valid, Find;
      TagsNonZero(fields);
      var iter := new FieldIter(fields);
      var fieldsSeen := new nat[2];
      fieldsSeen[0], fieldsSeen[1] := 0, 0;
      ghost var seen: set<nat> := {};
      NoneSeen(fields, fieldsSeen[..]);
      st := dest;
      ghost var stopped := false;
      while bytesLeft > 0
        invariant Valid() && End() == old(End())
        invariant fresh(iter) && fresh(fieldsSeen) && iter.Valid() && iter.fields == fields
        invariant fieldsSeen.Length == 2 && MaskSays(fieldsSeen[..], fields, seen)
        invariant DecLoop(fields, old(Rest()), dest, {}) == DecLoop(fields, Rest(), st, seen)
        decreases bytesLeft
      {
        ghost var s := Rest();
        LoopTurn(fields, s, st, seen);
        var eof, w, tag;
        ok, eof, w, tag := DecodeTag();
        if !ok {
          if !eof { return; }
          stopped := true;
          break;
        }
        ghost var after := Rest();
        var found := iter.Find(tag);
        KnownTag(fields, tag, iter.pos, found);
        if !found {
          ok := Skip(w);
          if !ok { return; }
          continue;
        }
        if fields == [] {
          // The terminator, taken for a required field of size 0: "invalid data_size", if not before.
          return false, st;
        }
        MarkRequired(iter, fieldsSeen, seen);
        seen := SeenWith(fields, iter.pos, seen);
        ok, st := DecodeField(iter, w, st);
        if !ok { return; }
      }
      if !stopped {
        assert Rest() == [];
        LoopEnd(fields, st, seen);
      }
      assert DecLoop(fields, old(Rest()), dest, {}) == Done(st, seen, Rest(), stopped);
      ok := CheckRequired(iter, fieldsSeen, seen);
    }
  }

  function SeenWith(fields: seq<Field>, i: nat, seen: set<nat>): set<nat>
    requires i < |fields|
  {
    if fields[i].htype.Required? then seen + {i} else seen
  }

  /** The bit for the field the iterator is at, if it is one of the first 64 required ones. */
  method MarkRequired(iter: FieldIter, fieldsSeen: array<nat>, ghost seen: set<nat>)
    requires iter.Valid() && iter.pos < |iter.fields| && fieldsSeen.Length == 2
    requires MaskSays(fieldsSeen[..], iter.fields, seen)
    modifies fieldsSeen
    ensures MaskSays(fieldsSeen[..], iter.fields, SeenWith(iter.fields, iter.pos, seen))
  {
    hide MaskSays;
    if iter.fields[iter.pos].htype.Required? && iter.requiredIndex < MAX_REQUIRED_FIELDS {
      var k := iter.requiredIndex;
      MarkSeen(fieldsSeen[..], iter.fields, seen, iter.pos);
      MaskWords(fieldsSeen[..], iter.fields, seen);
      ghost var mask := fieldsSeen[..];
      fieldsSeen[k / 32] := Or(fieldsSeen[k / 32], Shl(1, k % 32, 32));
      assert fieldsSeen[..] == Marked(mask, k);
    } else {
      PastSeen(fieldsSeen[..], iter.fields, seen, iter.pos);
    }
  }

  lemma MaskWords(mask: seq<nat>, fields: seq<Field>, seen: set<nat>)
    requires MaskSays(mask, fields, seen)
    ensures |mask| == 2
  {
  }

  /** The last part of pb_decode_noinit: the bitmask has a bit for each of the first 64 required fields. */
  method CheckRequired(iter: FieldIter, fieldsSeen: array<nat>, ghost seen: set<nat>) returns (ok: bool)
    requires iter.Valid() && fieldsSeen.Length == 2 && MaskSays(fieldsSeen[..], iter.fields, seen)
    modifies iter
    ensures ok <==> RequiredSeen(iter.fields, seen)
  {
    hide MaskSays, RequiredSeen;
    ghost var fields := iter.fields;
    var count := 0;
    var lastRequired := true;
    var more := true;
    while more
      invariant iter.Valid()
      invariant more || iter.pos == 0
      invariant !more && fields != [] ==> count == RequiredBefore(fields, |fields| - 1)
                                          && lastRequired == fields[|fields| - 1].htype.Required?
      invariant !more && fields == [] ==> count == 0
      decreases more, |fields| - iter.pos
    {
      count := iter.requiredIndex;
      lastRequired := if iter.pos < |iter.fields| then iter.fields[iter.pos].htype.Required? else true;
      more := iter.Next();
    }
    if lastRequired && TagAt(iter.fields, iter.pos) != 0 { count := count + 1; }
    assert count == RequiredBefore(fields, |fields|);
    if count > MAX_REQUIRED_FIELDS { count := MAX_REQUIRED_FIELDS; }
    SeenIff(fields, seen, count);
    ok := FullMask(fieldsSeen, count, fields, seen);
  }

  /** The comparison of the bitmask, whole words first. */
  method FullMask(fieldsSeen: array<nat>, count: nat, ghost fields: seq<Field>, ghost seen: set<nat>) returns (ok: bool)
    requires fieldsSeen.Length == 2 && MaskSays(fieldsSeen[..], fields, seen)
    requires count <= 64 && (count < 64 ==> count == RequiredBefore(fields, |fields|))
    ensures ok <==> forall k: nat :: k < count ==> SeenAt(fields, seen, k)
  {
    hide SeenAt;
    for i := 0 to count / 32
      invariant forall k: nat :: k < 32 * i ==> SeenAt(fields, seen, k)
    {
      WordFull(fieldsSeen[..], fields, seen, i, 32);
      if fieldsSeen[i] != ALL_BITS { return false; }
    }
    if count % 32 != 0 {
      forall k: nat | k >= count ensures !SeenAt(fields, seen, k) { NoMore(fields, seen, k); }
      WordFull(fieldsSeen[..], fields, seen, count / 32, count % 32);
      if fieldsSeen[count / 32] != ALL_BITS / Pow2(32 - count % 32) { return false; }
    }
    return true;
  }

  /** pb_decode */
  method Decode(stream: IStream, fields: seq<Field>) returns (ok: bool, st: Struct)
    requires stream.Valid() && Wf(fields)
    modifies stream
    ensures stream.Valid() && Took(PbMessage.Decode(fields, old(stream.Rest())), ok, st, stream.Rest())
  {
    hide DecNoInit, Wf, DefaultStruct;
    ok, st := stream.DecodeNoInit(fields, DefaultStruct(fields));
  }
}
