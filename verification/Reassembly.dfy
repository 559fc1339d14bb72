/** Reassembly of one incoming handshake message (d1_both.cc): a byte buffer and a bitmask. */
module Reassembly {
  import opened Words
  import opened Wire

  const HEADER_LENGTH := 12

  /** The 12-byte DTLS handshake fragment header, section 4.2.2 of RFC 6347. */
  datatype Header = Header(msgType: byte, msgLen: nat, seqNo: nat, fragOff: nat, fragLen: nat) {
    predicate Encodable() {
      msgLen < LIMIT24 && seqNo < LIMIT16 && fragOff < LIMIT24 && fragLen < LIMIT24
    }
  }

  function EncodeHeader(h: Header): (s: seq<byte>)
    ensures |s| == HEADER_LENGTH
  {
    [h.msgType] + ToBE(h.msgLen, W24) + ToBE(h.seqNo, W16) + ToBE(h.fragOff, W24) + ToBE(h.fragLen, W24)
  }

  /** The header of a whole message, as the transcript and `raw` carry it. */
  function MessageHeader(msgType: byte, seqNo: nat, msgLen: nat): Header {
    Header(msgType, msgLen, seqNo, 0, msgLen)
  }

  /** An incoming message: bytes received so far, None where nothing arrived yet. */
  datatype Partial = Partial(msgType: byte, seqNo: nat, body: seq<Option<byte>>) {
    predicate Complete() {
      forall k :: 0 <= k < |body| ==> body[k].Some?
    }

    function Merge(off: nat, bytes: seq<byte>): Partial
      requires off + |bytes| <= |body|
    {
      this.(body := seq(|body|, k requires 0 <= k < |body| =>
                                  if off <= k < off + |bytes| then Some(bytes[k - off]) else body[k]))
    }

    function Bytes(): (s: seq<byte>)
      requires Complete()
      ensures |s| == |body| && forall k :: 0 <= k < |s| ==> body[k] == Some(s[k])
    {
      seq(|body|, k requires 0 <= k < |body| => body[k].value)
    }

    /** `raw`: the message with the header it had before fragmentation. */
    function Raw(): seq<byte>
      requires Complete()
    {
      EncodeHeader(MessageHeader(msgType, seqNo, |body|)) + Bytes()
    }
  }

  function Fresh(h: Header): (p: Partial)
    ensures |p.body| == h.msgLen
  {
    Partial(h.msgType, h.seqNo, seq(h.msgLen, k => None))
  }

  /** Bit `k` of a bitmask stored eight to a byte. */
  predicate MaskBit(mask: seq<byte>, k: nat)
    requires k < 8 * |mask|
  {
    Bit(mask[k / 8], k % 8)
  }

  /** `(uint8_t)(~((1u << start) - 1) & ((1u << end) - 1))` */
  function BitRange(start: nat, end: nat): (b: byte)
    requires start <= 8 && end <= 8
  {
    hide Pow2, Not, And;
    RangeIsByte(start, end);
    And(Not(Pow2(start) - 1, 32), Pow2(end) - 1)
  }

  lemma RangeIsByte(start: nat, end: nat)
    requires start <= 8 && end <= 8
    ensures Pow2(start) - 1 < Pow2(32) && Pow2(start) >= 1 && Pow2(end) >= 1
    ensures And(Not(Pow2(start) - 1, 32), Pow2(end) - 1) < 256
  {
    hide Pow2, Not, And;
    LowMaskBound(start, 32);
    LowMaskBound(end, 8);
    Byte();
    AndAtMost(Not(Pow2(start) - 1, 32), Pow2(end) - 1);
  }

  lemma LowMaskBound(n: nat, width: nat)
    requires n <= width
    ensures Pow2(n) - 1 < Pow2(width)
  {
    PowMonotone(n, width);
  }

  lemma RangeBit(start: nat, end: nat, i: nat)
    requires start <= 8 && end <= 8
    ensures Bit(BitRange(start, end), i) <==> start <= i < end
  {
    hide Pow2, And, Not, Bit;
    RangeIsByte(start, end);
    AndBit(Not(Pow2(start) - 1, 32), Pow2(end) - 1, i);
    NotBit(Pow2(start) - 1, 32, i);
    LowBits(start, i);
    LowBits(end, i);
  }

  lemma {:induction false} AndAtMost(a: nat, b: nat)
    ensures And(a, b) <= b
    decreases a + b
  {
    if a != 0 && b != 0 { AndAtMost(a / 2, b / 2); }
  }

  /** The mask after marking: bits of `[start, end)` join those of the old mask. */
  ghost predicate Marked(was: seq<byte>, now: seq<byte>, start: nat, end: nat) {
    && |now| == |was|
    && forall k: nat :: k < 8 * |now| ==> (MaskBit(now, k) <==> MaskBit(was, k) || start <= k < end)
  }

  class HmFragment {
    const msgType: byte
    const seqNo: nat
    const msgLen: nat
    const data: array<byte>
    var reassembly: array?<byte>

    ghost predicate Valid()
      reads this, reassembly
    {
      && data.Length == HEADER_LENGTH + msgLen
      && (msgLen == 0 ==> reassembly == null)
      && (reassembly != null ==>
            && reassembly != data
            && reassembly.Length == (msgLen + 7) / 8
            && (forall k: nat :: msgLen <= k < 8 * reassembly.Length ==> !MaskBit(reassembly[..], k))
            && (exists k: nat :: k < msgLen && !MaskBit(reassembly[..], k)))
    }

    /** Byte `k` has arrived. */
    ghost predicate Has(k: nat)
      requires Valid() && k < msgLen
      reads this, reassembly
    {
      reassembly == null || MaskBit(reassembly[..], k)
    }

    /** The fragment holds the message `p`, byte for byte where bytes have arrived. */
    ghost predicate Holds(p: Partial)
      reads this, reassembly, data
    {
      && Valid()
      && p.msgType == msgType && p.seqNo == seqNo && |p.body| == msgLen
      && data[..HEADER_LENGTH] == EncodeHeader(MessageHeader(msgType, seqNo, msgLen))
      && forall k: nat :: k < msgLen ==> p.body[k] == if Has(k) then Some(data[HEADER_LENGTH + k]) else None
    }

    /** While the mask is there, some byte is missing. */
    lemma MissingByte(p: Partial)
      requires Holds(p)
      ensures p.Complete() <==> reassembly == null
      ensures |p.body| == msgLen
    {
      if reassembly != null {
        var k: nat :| k < msgLen && !MaskBit(reassembly[..], k);
        assert p.body[k].None?;
      }
    }

    ghost function Footprint(): set<object>
      reads this
    {
      {this, data} + (if reassembly == null then {} else {reassembly})
    }

    constructor (h: Header)
      ensures Holds(Fresh(h)) && fresh(data) && (reassembly != null ==> fresh(reassembly))
    {
      msgType, seqNo, msgLen := h.msgType, h.seqNo, h.msgLen;
      data := new byte[HEADER_LENGTH + h.msgLen];
      reassembly := null;
      new;
      var header := EncodeHeader(MessageHeader(msgType, seqNo, msgLen));
      forall i | 0 <= i < HEADER_LENGTH { data[i] := header[i]; }
      assert data[..HEADER_LENGTH] == header;
      if msgLen > 0 {
        reassembly := new byte[(msgLen + 7) / 8](_ => 0);
        forall k: nat | k < 8 * reassembly.Length ensures !MaskBit(reassembly[..], k) { ZeroBit(k % 8); }
        assert !MaskBit(reassembly[..], 0);
      }
      assert data[..HEADER_LENGTH] == header;
    }

    /** Marks `[start, end)` as received; drops the mask when nothing is missing any more. */
    method Mark(start: nat, end: nat)
      requires Valid() && reassembly != null && start <= end <= msgLen
      modifies this`reassembly, reassembly
      ensures Valid()
      ensures reassembly == null || reassembly == old(reassembly)
      ensures forall k: nat :: k < msgLen ==> (Has(k) <==> old(Has(k)) || start <= k < end)
      ensures reassembly == null <==> forall k: nat :: k < msgLen ==> old(Has(k)) || start <= k < end
    {
      if start == end {
        ghost var k: nat :| k < msgLen && !MaskBit(reassembly[..], k);
        assert !Has(k);
        return;
      }
      ghost var was := reassembly[..];
      SetRange(reassembly, start, end);
      ghost var now := reassembly[..];
      assert Marked(was, now, start, end);
      assert forall k: nat :: k < msgLen ==> (MaskBit(now, k) <==> old(Has(k)) || start <= k < end);
      var complete := IsFull(reassembly, msgLen);
      if complete {
        reassembly := null;
      }
    }

    /** Copies a fragment's body into place and marks it: what the loop of dtls1_open_handshake does. */
    method Store(off: nat, bytes: seq<byte>, ghost p: Partial)
      requires Holds(p) && reassembly != null && off + |bytes| <= msgLen
      modifies this`reassembly, reassembly, data
      ensures Holds(p.Merge(off, bytes))
      ensures reassembly == null || reassembly == old(reassembly)
      ensures reassembly == null <==> p.Merge(off, bytes).Complete()
    {
      ghost var q := p.Merge(off, bytes);
      CopyInto(data, HEADER_LENGTH + off, bytes);
      assert data[..HEADER_LENGTH] == old(data[..HEADER_LENGTH]);
      assert forall k: nat :: k < msgLen ==> (Has(k) <==> old(Has(k)));
      Mark(off, off + |bytes|);
      forall k: nat | k < msgLen
        ensures q.body[k] == if Has(k) then Some(data[HEADER_LENGTH + k]) else None
      {
        assert p.body[k] == if old(Has(k)) then Some(old(data[HEADER_LENGTH + k])) else None;
      }
    }
  }

  const RING_SIZE := 7

  function EmptyRing(): seq<Option<Partial>> {
    seq(RING_SIZE, _ => None)
  }

  /** The array of unique pointers that holds the incoming messages; `slots` says what it stands for. */
  class MessageRing {
    const frags: array<HmFragment?>
    ghost var slots: seq<Option<Partial>>
    ghost var Repr: set<object>

    ghost predicate Valid()
      reads this, Repr
    {
      && this in Repr && frags in Repr
      && frags.Length == |slots| == RING_SIZE
      && (forall i :: 0 <= i < RING_SIZE && frags[i] != null ==> frags[i] in Repr && frags[i].Footprint() <= Repr)
      && (forall i, j :: 0 <= i < j < RING_SIZE && frags[i] != null && frags[j] != null ==>
            frags[i].Footprint() !! frags[j].Footprint())
      && (forall i :: 0 <= i < RING_SIZE ==> (frags[i] == null <==> slots[i].None?))
      && (forall i :: 0 <= i < RING_SIZE && frags[i] != null ==> frags[i].Holds(slots[i].value))
    }

    constructor ()
      ensures Valid() && fresh(Repr) && slots == EmptyRing()
    {
      frags := new HmFragment?[RING_SIZE](_ => null);
      slots := EmptyRing();
      new;
      Repr := {this, frags};
    }

    /** Fills an empty slot with a new, empty message. */
    method Create(idx: nat, h: Header)
      requires Valid() && idx < RING_SIZE && slots[idx].None?
      modifies Repr
      ensures Valid() && fresh(Repr - old(Repr))
      ensures slots == old(slots)[idx := Some(Fresh(h))]
    {
      var frag := new HmFragment(h);
      Place(idx, frag, Fresh(h));
    }

    method Place(idx: nat, frag: HmFragment, ghost p: Partial)
      requires Valid() && idx < RING_SIZE && slots[idx].None?
      requires frag.Holds(p) && frag.Footprint() !! Repr
      modifies this, frags
      ensures Valid() && Repr == old(Repr) + frag.Footprint()
      ensures slots == old(slots)[idx := Some(p)]
    {
      hide HmFragment.Holds;
      frags[idx] := frag;
      slots := slots[idx := Some(p)];
      Repr := Repr + frag.Footprint();
    }

    /** Whether the message in an occupied slot has all of its bytes, which is when its mask is gone. */
    method IsComplete(idx: nat) returns (complete: bool)
      requires Valid() && idx < RING_SIZE
      ensures complete <==> slots[idx].Some? && slots[idx].value.Complete()
    {
      if frags[idx] == null {
        return false;
      }
      frags[idx].MissingByte(slots[idx].value);
      return frags[idx].reassembly == null;
    }

    method Store(idx: nat, off: nat, bytes: seq<byte>)
      requires Valid() && idx < RING_SIZE && slots[idx].Some?
      requires !slots[idx].value.Complete() && off + |bytes| <= |slots[idx].value.body|
      modifies Repr
      ensures Valid() && Repr == old(Repr)
      ensures slots == old(slots)[idx := Some(old(slots)[idx].value.Merge(off, bytes))]
    {
      hide HmFragment.Holds, Partial.Merge, Partial.Complete;
      var frag := frags[idx];
      ghost var p := slots[idx].value;
      frag.MissingByte(p);
      frag.Store(off, bytes, p);
      slots := slots[idx := Some(p.Merge(off, bytes))];
      assert frag.Footprint() <= Repr;
      assert forall i :: 0 <= i < RING_SIZE && i != idx && frags[i] != null ==> frags[i].Holds(slots[i].value);
    }

    /** The message, header included, of a complete slot. */
    method Raw(idx: nat) returns (raw: seq<byte>)
      requires Valid() && idx < RING_SIZE && slots[idx].Some? && slots[idx].value.Complete()
      ensures raw == slots[idx].value.Raw()
    {
      ghost var p := slots[idx].value;
      var frag := frags[idx];
      raw := frag.data[..];
      frag.MissingByte(p);
      assert raw == frag.data[..HEADER_LENGTH] + p.Bytes();
    }

    method Reset(idx: nat)
      requires Valid() && idx < RING_SIZE
      modifies Repr
      ensures Valid() && Repr == old(Repr)
      ensures slots == old(slots)[idx := None]
    {
      hide HmFragment.Holds;
      frags[idx] := null;
      slots := slots[idx := None];
    }
  }

  /** memcpy */
  method CopyInto(dest: array<byte>, at: nat, bytes: seq<byte>)
    requires at + |bytes| <= dest.Length
    modifies dest
    ensures forall k :: 0 <= k < dest.Length ==>
              dest[k] == if at <= k < at + |bytes| then bytes[k - at] else old(dest[k])
  {
    forall i | 0 <= i < |bytes| { dest[at + i] := bytes[i]; }
  }

  /** The three cases of dtls1_hm_fragment_mark: one byte, or a first byte, whole bytes and a last byte. */
  method SetRange(mask: array<byte>, start: nat, end: nat)
    requires start < end <= 8 * mask.Length
    modifies mask
    ensures Marked(old(mask[..]), mask[..], start, end)
  {
    hide Marked, Bit;
    var first, last := start / 8, end / 8;
    if first == last {
      SetBits(mask, first, start % 8, end % 8);
    } else {
      SetBits(mask, first, start % 8, 8);
      var i := first + 1;
      while i < last
        invariant first + 1 <= i <= last
        invariant Marked(old(mask[..]), mask[..], start, 8 * i)
      {
        MarkByte(old(mask[..]), mask[..], start, i);
        ghost var before := mask[..];
        mask[i] := 0xff;
        assert mask[..] == before[i := 0xff];
        i := i + 1;
      }
      if end % 8 != 0 {
        ghost var before := mask[..];
        SetBits(mask, last, 0, end % 8);
        MarkTwice(old(mask[..]), before, mask[..], start, 8 * last, end);
      }
    }
  }

  lemma MarkTwice(was: seq<byte>, mid: seq<byte>, now: seq<byte>, start: nat, join: nat, end: nat)
    requires Marked(was, mid, start, join) && Marked(mid, now, join, end) && start <= join <= end
    ensures Marked(was, now, start, end)
  {
    hide MaskBit;
  }

  /** A whole byte more. */
  lemma MarkByte(was: seq<byte>, now: seq<byte>, start: nat, i: nat)
    requires Marked(was, now, start, 8 * i) && start <= 8 * i < 8 * |now|
    ensures Marked(was, now[i := 0xff], start, 8 * (i + 1))
  {
    hide Bit;
    AllOnes();
    var next := now[i := 0xff];
    forall k: nat | k < 8 * |next| ensures MaskBit(next, k) <==> MaskBit(was, k) || start <= k < 8 * (i + 1) {
      if k / 8 != i { assert next[k / 8] == now[k / 8]; }
      assert MaskBit(now, k) <==> MaskBit(was, k) || start <= k < 8 * i;
    }
  }

  lemma AllOnes()
    ensures forall j: nat :: j < 8 ==> Bit(0xff, j)
  {
    Byte();
    forall j: nat | j < 8 ensures Bit(0xff, j) { LowBits(8, j); }
  }

  /** `mask[i] |= bit_range(from, to)` */
  method SetBits(mask: array<byte>, i: nat, from: nat, to: nat)
    requires i < mask.Length && from <= to <= 8
    modifies mask
    ensures Marked(old(mask[..]), mask[..], 8 * i + from, 8 * i + to)
  {
    hide Or, And, Pow2, BitRange, Bit;
    ghost var before := mask[..];
    Byte();
    OrBound(mask[i], BitRange(from, to), 8);
    mask[i] := Or(mask[i], BitRange(from, to));
    forall k: nat | k < 8 * |before|
      ensures MaskBit(mask[..], k) <==> MaskBit(before, k) || 8 * i + from <= k < 8 * i + to
    {
      if k / 8 == i {
        OrBit(before[i], BitRange(from, to), k % 8);
        RangeBit(from, to, k % 8);
      }
    }
  }

  /** The completeness test: whole bytes against 0xff, the last partial byte against bit_range. */
  method IsFull(mask: array<byte>, msgLen: nat) returns (full: bool)
    requires mask.Length == (msgLen + 7) / 8
    requires forall k: nat :: msgLen <= k < 8 * mask.Length ==> !MaskBit(mask[..], k)
    ensures full <==> HasRange(mask[..], 0, msgLen)
  {
    ghost var m := mask[..];
    var i := 0;
    while i < msgLen / 8
      invariant i <= msgLen / 8
      invariant HasRange(m, 0, 8 * i)
    {
      WholeByte(m, i);
      JoinRanges(m, 0, 8 * i, 8 * i + 8);
      if mask[i] != 0xff {
        JoinRanges(m, 0, 8 * i + 8, msgLen);
        return false;
      }
      i := i + 1;
    }
    if msgLen % 8 != 0 {
      LastByte(m, msgLen);
      JoinRanges(m, 0, msgLen - msgLen % 8, msgLen);
      if mask[msgLen / 8] != BitRange(0, msgLen % 8) {
        return false;
      }
    }
    return true;
  }

  ghost predicate HasRange(mask: seq<byte>, start: nat, end: nat)
    requires end <= 8 * |mask|
  {
    forall k: nat :: start <= k < end ==> MaskBit(mask, k)
  }

  lemma JoinRanges(mask: seq<byte>, a: nat, b: nat, c: nat)
    requires a <= b <= c <= 8 * |mask|
    ensures HasRange(mask, a, c) <==> HasRange(mask, a, b) && HasRange(mask, b, c)
  {
  }

  lemma WholeByte(mask: seq<byte>, i: nat)
    requires i < |mask|
    ensures mask[i] == 0xff <==> HasRange(mask, 8 * i, 8 * i + 8)
  {
    Byte();
    AllOnes();
    if HasRange(mask, 8 * i, 8 * i + 8) {
      forall j: nat | j < 8 ensures Bit(mask[i], j) { assert MaskBit(mask, 8 * i + j); }
      Extensional(mask[i], 0xff, 8);
    } else {
      var k: nat :| 8 * i <= k < 8 * i + 8 && !MaskBit(mask, k);
      assert k / 8 == i;
    }
  }

  lemma LastByte(mask: seq<byte>, msgLen: nat)
    requires |mask| == (msgLen + 7) / 8 && msgLen % 8 != 0
    requires forall k: nat :: msgLen <= k < 8 * |mask| ==> !MaskBit(mask, k)
    ensures mask[msgLen / 8] == BitRange(0, msgLen % 8) <==> HasRange(mask, msgLen - msgLen % 8, msgLen)
  {
    hide Bit, BitRange;
    var i, n := msgLen / 8, msgLen % 8;
    forall j: nat | j < 8
      ensures Bit(BitRange(0, n), j) <==> j < n
      ensures Bit(mask[i], j) <==> MaskBit(mask, 8 * i + j)
    {
      RangeBit(0, n, j);
    }
    if HasRange(mask, 8 * i, msgLen) {
      Byte();
      Extensional(mask[i], BitRange(0, n), 8);
    } else {
      var k: nat :| 8 * i <= k < msgLen && !MaskBit(mask, k);
      assert k / 8 == i && k % 8 < n;
    }
  }
}
