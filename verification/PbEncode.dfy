/**
The nanopb encoder as it runs: an output stream that either writes into a buffer or only counts, and the
two-pass submessage encoder.  Every method is proved to put out exactly the bytes of its specification in
PbMessage, on both kinds of stream.
*/
module PbEncode {
  import opened Words
  import opened Wire
  import opened PbWire
  import opened PbMessage
  import opened PbIter

  // ---------------------------------------------------------------- C structs

  /** `v` is what a C object of the field's type can hold, with sizes that fit size_t and pb_size_t. */
  ghost predicate Typed(f: Field, v: Value)
    decreases f, 0
  {
    match f.ltype
    case LVarint => v.Num? && (IntSize(f.dataSize) ==> InSigned(v.n, Limit(f.dataSize)))
    case LSvarint => v.Num? && (IntSize(f.dataSize) ==> InSigned(v.n, Limit(f.dataSize)))
    case LUvarint => v.Num? && (IntSize(f.dataSize) ==> 0 <= v.n < Limit(f.dataSize))
    case LFixed32 => v.Num? && 0 <= v.n < TWO32
    case LFixed64 => v.Num? && 0 <= v.n < TWO64
    case LBytes => v.Blob? && |v.bytes| < TWO32
    case LString => v.Text? && |v.chars| <= f.dataSize < TWO32
    case LFixedBytes => v.Blob? && |v.bytes| == f.dataSize < TWO32
    case LSubmessage => v.Msg? && TypedStruct(f.sub, v.st) && Short(EncFrom(f.sub, v.st, 0))
  }

  ghost predicate Short(e: Option<seq<byte>>) {
    e.Some? ==> |e.value| < TWO64
  }

  ghost predicate TypedItems(f: Field, items: seq<Value>)
    decreases f, 1
  {
    && (forall i :: 0 <= i < |items| ==> Typed(f, items[i]))
    && (f.ltype.Packable() ==> Short(EncItems(f, items, [])))
  }

  ghost predicate TypedCell(f: Field, cell: Cell, unions: seq<Union>)
    decreases f, 2
  {
    && 0 < f.tag < TWO32
    && match f.htype
       case Required => cell.One? && Typed(f, cell.v)
       case Singular => cell.One? && Typed(f, cell.v)
       case Optional => cell.Maybe? && Typed(f, cell.v)
       case Repeated => cell.Many? && TypedItems(f, cell.items)
       case Oneof(g) =>
         && g < |unions|
         && (unions[g].which == f.tag ==> unions[g].value.Some? && Typed(f, unions[g].value.value))
  }

  ghost predicate TypedStruct(fields: seq<Field>, st: Struct)
    decreases fields, 0
  {
    && |st.cells| == |fields|
    && forall i :: 0 <= i < |fields| ==> TypedCell(fields[i], st.cells[i], st.unions)
  }

  // ---------------------------------------------------------------- what a stream did

  /** A pb_ostream_t with the memory it writes to. */
  datatype Out = Out(writing: bool, mem: seq<byte>, pos: nat, max: nat, written: nat)

  predicate OutValid(s: Out) {
    s.writing ==> s.written <= s.max && s.pos + (s.max - s.written) <= |s.mem|
  }

  /**
  From `a` to `b` the stream was given the output `e`, or an encoder gave up (`None`).  A counting stream
  succeeds exactly when there is an output; a writing stream exactly when, also, there is room for it.
  Then it has counted the bytes and has put them, and nothing else, into the buffer.
  */
  predicate Wrote(a: Out, e: Option<seq<byte>>, ok: bool, b: Out) {
    && OutValid(a) && OutValid(b)
    && b.writing == a.writing && b.max == a.max && |b.mem| == |a.mem|
    && (ok <==> e.Some? && (a.writing ==> a.written + |e.value| <= a.max))
    && (ok ==> b.written == a.written + |e.value|)
    && (ok && a.writing ==>
          && b.pos == a.pos + |e.value|
          && b.mem == a.mem[..a.pos] + e.value + a.mem[b.pos..])
    && (a.writing ==>
          && b.pos - b.written == a.pos - a.written
          && b.written >= a.written
          && b.mem[..a.pos] == a.mem[..a.pos]
          && b.mem[a.pos + (a.max - a.written)..] == a.mem[a.pos + (a.max - a.written)..])
  }

  lemma WroteNothing(a: Out)
    requires OutValid(a)
    ensures Wrote(a, Some([]), true, a) && Wrote(a, None, false, a)
  {
    if a.writing {
      assert a.mem == a.mem[..a.pos] + [] + a.mem[a.pos..];
    }
  }

  lemma WroteBoth(a: Out, x: Option<seq<byte>>, b: Out, y: Option<seq<byte>>, ok: bool, c: Out)
    requires Wrote(a, x, true, b) && Wrote(b, y, ok, c)
    ensures Wrote(a, Cat(x, y), ok, c)
  {
    if a.writing {
      var end := a.pos + (a.max - a.written);
      assert c.mem[..a.pos] == c.mem[..b.pos][..a.pos];
      if ok {
        assert b.mem[..b.pos] == a.mem[..a.pos] + x.value;
        assert b.mem[c.pos..] == a.mem[c.pos..];
        assert c.mem == a.mem[..a.pos] + (x.value + y.value) + a.mem[c.pos..];
      }
      assert c.mem[end..] == b.mem[end..] == a.mem[end..];
    }
  }

  lemma WroteLess(a: Out, x: Option<seq<byte>>, b: Out, y: Option<seq<byte>>)
    requires Wrote(a, x, false, b)
    ensures Wrote(a, Cat(x, y), false, b)
  {
  }

  /**
  Two passes over the same output: the counting pass and a writing pass with room for what was counted
  succeed or fail alike, and the count is the number of bytes written.
  */
  lemma PassesAgree(a: Out, b: Out, e: Option<seq<byte>>, counted: bool, c: Out, d: Out, wrote: bool)
    requires !a.writing && Wrote(a, e, counted, b)
    requires c.writing && Wrote(c, e, wrote, d)
    requires counted ==> c.written + (b.written - a.written) <= c.max
    ensures counted == wrote
    ensures counted ==> b.written - a.written == d.written - c.written == d.pos - c.pos
  {
  }

  // ---------------------------------------------------------------- arrays and structs item by item

  lemma {:induction false} ItemsSnoc(f: Field, items: seq<Value>, v: Value, prefix: seq<byte>)
    ensures EncItems(f, items + [v], prefix) == Cat(EncItems(f, items, prefix), Cat(Some(prefix), EncValue(f, v)))
    decreases items
  {
    hide EncValue;
    if items == [] {
      assert ([] + [v])[1..] == [];
      var e := Cat(Some(prefix), EncValue(f, v));
      if e.Some? { assert e.value + [] == e.value == [] + e.value; }
    } else {
      assert (items + [v])[1..] == items[1..] + [v];
      ItemsSnoc(f, items[1..], v, prefix);
      CatAssoc(Cat(Some(prefix), EncValue(f, items[0])), EncItems(f, items[1..], prefix),
               Cat(Some(prefix), EncValue(f, v)));
    }
  }

  lemma CatAssoc(a: Option<seq<byte>>, b: Option<seq<byte>>, c: Option<seq<byte>>)
    ensures Cat(Cat(a, b), c) == Cat(a, Cat(b, c))
  {
    if a.Some? && b.Some? && c.Some? {
      assert a.value + b.value + c.value == a.value + (b.value + c.value);
    }
  }

  lemma CatEmpty(a: Option<seq<byte>>)
    ensures Cat(Some([]), a) == a == Cat(a, Some([]))
  {
    if a.Some? { assert [] + a.value == a.value + [] == a.value; }
  }

  /** An array is its first `i` items, then item `i`, then the others. */
  lemma {:induction false} ItemsSplit(f: Field, items: seq<Value>, prefix: seq<byte>, i: nat)
    requires i <= |items|
    ensures EncItems(f, items, prefix) == Cat(EncItems(f, items[..i], prefix), EncItems(f, items[i..], prefix))
    ensures i < |items| ==>
              EncItems(f, items[..i + 1], prefix)
              == Cat(EncItems(f, items[..i], prefix), Cat(Some(prefix), EncValue(f, items[i])))
    decreases i
  {
    hide EncValue;
    if i < |items| {
      assert items[..i + 1] == items[..i] + [items[i]];
      ItemsSnoc(f, items[..i], items[i], prefix);
    }
    if i == 0 {
      assert items[0..] == items;
      CatEmpty(EncItems(f, items, prefix));
    } else {
      ItemsSplit(f, items, prefix, i - 1);
      assert items[i - 1..][1..] == items[i..];
      CatAssoc(EncItems(f, items[..i - 1], prefix), Cat(Some(prefix), EncValue(f, items[i - 1])),
               EncItems(f, items[i..], prefix));
    }
  }

  lemma {:induction false} FixedItems(f: Field, items: seq<Value>)
    requires f.ltype.LFixed32? || f.ltype.LFixed64?
    requires forall i :: 0 <= i < |items| ==> Typed(f, items[i])
    ensures EncItems(f, items, []).Some?
    ensures |EncItems(f, items, []).value| == (if f.ltype.LFixed32? then 4 else 8) * |items|
    decreases items
  {
    hide EncFixed;
    if items != [] { FixedItems(f, items[1..]); }
  }

  function EncUpTo(fields: seq<Field>, st: Struct, n: nat): Option<seq<byte>>
    requires n <= |fields| == |st.cells|
  {
    if n == 0 then Some([]) else Cat(EncUpTo(fields, st, n - 1), EncCell(fields[n - 1], st.cells[n - 1], st.unions))
  }

  lemma {:induction false} UpToThenFrom(fields: seq<Field>, st: Struct, n: nat)
    requires n <= |fields| == |st.cells|
    ensures EncFrom(fields, st, 0) == Cat(EncUpTo(fields, st, n), EncFrom(fields, st, n))
    decreases n
  {
    hide EncCell;
    if n == 0 {
      CatEmpty(EncFrom(fields, st, 0));
    } else {
      UpToThenFrom(fields, st, n - 1);
      CatAssoc(EncUpTo(fields, st, n - 1), EncCell(fields[n - 1], st.cells[n - 1], st.unions), EncFrom(fields, st, n));
    }
  }

  lemma VarintShape(n: nat)
    ensures EncVarint(n) == if n <= 0x7f then [n] else [n % 128 + 128] + EncVarint(n / 128)
  {
  }

  lemma TopBit(n: nat)
    requires n < Pow2(0)
    ensures n == 0
  {
  }

  /** Shifting by eight bits again and again is shifting by more. */
  lemma Shifts(n: nat)
    ensures n / 0x100 / 256 == n / 0x1_0000 && n / 0x1_0000 / 256 == n / 0x100_0000
    ensures n / 0x100_0000 / 256 == n / 0x1_0000_0000 && n / 0x1_0000_0000 / 256 == n / 0x100_0000_0000
    ensures n / 0x100_0000_0000 / 256 == n / 0x1_0000_0000_0000
    ensures n / 0x1_0000_0000_0000 / 256 == n / 0x100_0000_0000_0000
  {
  }

  lemma FarShifts(n: nat)
    ensures var h := n / 0x1_0000_0000;
            && h / 0x100 == n / 0x100_0000_0000 && h / 0x1_0000 == n / 0x1_0000_0000_0000
            && h / 0x100_0000 == n / 0x100_0000_0000_0000
  {
  }

  /** Four bytes, and the others. */
  lemma FourBytes(n: nat, len: nat)
    requires len >= 4
    ensures EncFixed(n, len)
         == [n % 256, n / 0x100 % 256, n / 0x1_0000 % 256, n / 0x100_0000 % 256] + EncFixed(n / 0x1_0000_0000, len - 4)
  {
    Shifts(n);
    var a := n / 0x100;
    var b := n / 0x1_0000;
    var c := n / 0x100_0000;
    var rest := EncFixed(n / 0x1_0000_0000, len - 4);
    assert EncFixed(c, len - 3) == [c % 256] + rest;
    assert EncFixed(b, len - 2) == [b % 256] + EncFixed(c, len - 3);
    assert EncFixed(a, len - 1) == [a % 256] + EncFixed(b, len - 2);
    assert EncFixed(n, len) == [n % 256] + EncFixed(a, len - 1);
  }

  function Prefixed(e: Option<seq<byte>>): Option<seq<byte>> {
    if e.None? then None else Some(EncString(e.value))
  }

  /** The loop of pb_encode_varint; ten bytes are enough for 64 bits. */
  method FillVarint(buffer: array<byte>, n: nat) returns (i: nat)
    requires buffer.Length == 10 && 0 < n < TWO64
    modifies buffer
    ensures i <= 10 && buffer[..i] == EncVarint(n)
  {
    hide Pow2, EncVarint, Written;
    var value: nat := n;
    i := 0;
    SixtyFour();
    PowMonotone(64, 70);
    NoneWritten(n);
    while value != 0
      invariant i <= 10 && value < Pow2(70 - 7 * i) && Written(buffer[..i], value, n)
    {
      if i == 10 { TopBit(value); }
      WriteMore(buffer[..i], value, n);
      Shrink(value, 7 * i, 70);
      ghost var before := buffer[..i];
      buffer[i] := value % 128 + 128;
      assert buffer[..i + 1] == before + [value % 128 + 128];
      value := value / 128;
      i := i + 1;
    }
    LastWritten(buffer[..i], n);
    ghost var before := buffer[..i - 1];
    buffer[i - 1] := buffer[i - 1] - 128;
    assert buffer[..i] == before + [buffer[i - 1]];
  }

  /** Every byte so far with its top bit set, and `value` still to come. */
  ghost predicate Written(s: seq<byte>, value: nat, n: nat) {
    && (value != 0 ==> EncVarint(n) == s + EncVarint(value))
    && (value == 0 ==> s != [] && s[|s| - 1] >= 128 && EncVarint(n) == s[..|s| - 1] + [s[|s| - 1] - 128])
  }

  lemma NoneWritten(n: nat)
    requires n > 0
    ensures Written([], n, n)
  {
    assert [] + EncVarint(n) == EncVarint(n);
  }

  lemma WriteMore(s: seq<byte>, value: nat, n: nat)
    requires value > 0 && Written(s, value, n)
    ensures Written(s + [value % 128 + 128], value / 128, n)
  {
    hide EncVarint;
    VarintShape(value);
    var t := s + [value % 128 + 128];
    assert t[..|s|] == s;
    if value > 0x7f {
      assert s + ([value % 128 + 128] + EncVarint(value / 128)) == t + EncVarint(value / 128);
    }
  }

  lemma LastWritten(s: seq<byte>, n: nat)
    requires Written(s, 0, n)
    ensures s != [] && s[|s| - 1] >= 128 && EncVarint(n) == s[..|s| - 1] + [s[|s| - 1] - 128]
  {
  }

  lemma {:induction false} CStringIs(t: seq<byte>, n: nat)
    requires n <= |t| && (forall k :: 0 <= k < n ==> t[k] != 0) && (n < |t| ==> t[n] == 0)
    ensures t[..n] == CString(t)
    decreases n
  {
    if n > 0 {
      CStringIs(t[1..], n - 1);
      assert t[..n] == [t[0]] + t[1..][..n - 1];
    }
  }

  /** The strnlen loop of pb_enc_string. */
  method StringLength(chars: seq<byte>, maxSize: nat) returns (size: nat)
    requires |chars| <= maxSize
    ensures size <= |chars| && chars[..size] == CString(chars)
  {
    size := 0;
    while size < maxSize && size < |chars| && chars[size] != 0
      invariant size <= |chars| && forall k :: 0 <= k < size ==> chars[k] != 0
    {
      size := size + 1;
    }
    CStringIs(chars, size);
  }

  lemma {:induction false} AllZeroFrom(fields: seq<Field>, st: Struct, i: nat)
    requires i <= |fields| == |st.cells|
    ensures AllZero(fields, st, i) <==> forall j :: i <= j < |fields| ==> IsZero(fields[j], st.cells[j], st.unions)
    decreases |fields| - i
  {
    hide IsZero;
    if i < |fields| { AllZeroFrom(fields, st, i + 1); }
  }

  /** pb_check_proto3_default_value */
  method CheckDefault(f: Field, cell: Cell, unions: seq<Union>) returns (zero: bool)
    requires TypedCell(f, cell, unions)
    ensures zero == IsZero(f, cell, unions)
    decreases f
  {
    hide TypedItems, AllZero, EncFrom;
    match f.htype {
      case Required => return false;
      case Repeated => return |cell.items| == 0;
      case Oneof(g) => return unions[g].which == 0;
      case Optional => return !cell.has;
      case Singular =>
    }
    match cell.v {
      case Blob(bytes) => return if f.ltype.LFixedBytes? then f.dataSize == 0 else |bytes| == 0;
      case Text(chars) => return chars == [] || chars[0] == 0;
      case Num(n) => return n == 0;
      case Msg(st) =>
        assert TypedStruct(f.sub, st);
        AllZeroFrom(f.sub, st, 0);
        NonZero(f.sub, st);
        var iter := new FieldIter(f.sub);
        var more := f.sub != [];
        ghost var done := 0;
        while more
          invariant fresh(iter) && iter.Valid() && iter.fields == f.sub && done <= |f.sub|
          invariant if more then done == iter.pos < |f.sub| else done == |f.sub|
          invariant forall j :: 0 <= j < done ==> IsZero(f.sub[j], st.cells[j], st.unions)
          decreases |f.sub| - done
        {
          var i := iter.pos;
          TypedAt(f.sub, st, i);
          var sub := CheckDefault(f.sub[i], st.cells[i], st.unions);
          if !sub { return false; }
          more := iter.Next();
          done := i + 1;
        }
        return true;
    }
  }

  lemma WroteTooMuch(a: Out, x: seq<byte>, b: Out, y: seq<byte>)
    requires Wrote(a, Some(x), true, b) && b.writing && b.written + |y| > b.max
    ensures Wrote(a, Some(x + y), false, b)
  {
  }

  /** What the counting pass says. */
  lemma CountPass(a: Out, e: Option<seq<byte>>, ok: bool, b: Out)
    requires Wrote(a, e, ok, b) && !a.writing && a.written == 0
    ensures ok <==> e.Some?
    ensures ok ==> b.written == |e.value|
  {
  }

  lemma PrefixedIs(e: Option<seq<byte>>)
    ensures Prefixed(e) == if e.Some? then Cat(Some(EncVarint(|e.value|)), e) else None
  {
    hide EncVarint;
  }

  /** The writing pass, on a stream that ends where the counted size ends, writes all of it. */
  lemma WritePass(mid: Out, e: seq<byte>, a: Out, ok: bool, b: Out)
    requires OutValid(mid) && mid.writing && mid.written + |e| <= mid.max
    requires a == Out(true, mid.mem, mid.pos, |e|, 0) && Wrote(a, Some(e), ok, b)
    ensures ok && b.written == |e|
    ensures Wrote(mid, Some(e), true, Out(true, b.mem, b.pos, mid.max, mid.written + b.written))
  {
    var end := mid.pos + (mid.max - mid.written);
    assert b.mem[end..] == b.mem[b.pos..][end - b.pos..] == mid.mem[end..];
  }

  lemma NoItems(f: Field, prefix: seq<byte>)
    ensures EncItems(f, [], prefix) == Some([])
  {
  }

  lemma NoFields(fields: seq<Field>, st: Struct)
    requires |fields| == |st.cells|
    ensures EncUpTo(fields, st, 0) == Some([])
    ensures fields == [] ==> EncFrom(fields, st, 0) == Some([])
  {
  }

  lemma UpToStep(fields: seq<Field>, st: Struct, i: nat)
    requires i < |fields| == |st.cells|
    ensures EncUpTo(fields, st, i + 1) == Cat(EncUpTo(fields, st, i), EncCell(fields[i], st.cells[i], st.unions))
  {
  }

  lemma UpToAll(fields: seq<Field>, st: Struct)
    requires |fields| == |st.cells|
    ensures EncFrom(fields, st, |fields|) == Some([])
    ensures Cat(EncUpTo(fields, st, |fields|), EncFrom(fields, st, |fields|)) == EncUpTo(fields, st, |fields|)
  {
    CatEmpty(EncUpTo(fields, st, |fields|));
  }

  lemma TypedAt(fields: seq<Field>, st: Struct, i: nat)
    requires TypedStruct(fields, st) && i < |fields|
    ensures TypedCell(fields[i], st.cells[i], st.unions)
  {
  }

  lemma NonZero(fields: seq<Field>, st: Struct)
    requires TypedStruct(fields, st)
    ensures forall i :: 0 <= i < |fields| ==> fields[i].tag != 0
  {
    forall i | 0 <= i < |fields| ensures fields[i].tag != 0 {
      assert TypedCell(fields[i], st.cells[i], st.unions);
    }
  }

  // ---------------------------------------------------------------- the stream

  /** buf_write */
  method BufWrite(buf: array<byte>, dest: nat, data: seq<byte>)
    requires dest + |data| <= buf.Length
    modifies buf
    ensures buf[..] == old(buf[..])[..dest] + data + old(buf[..])[dest + |data|..]
  {
    ghost var mem := buf[..];
    for i := 0 to |data|
      invariant forall k :: 0 <= k < buf.Length ==> buf[k] == if dest <= k < dest + i then data[k - dest] else mem[k]
    {
      buf[dest + i] := data[i];
    }
    assert |buf[..]| == |mem[..dest] + data + mem[dest + |data|..]|;
  }

  class OStream {
    /** Null for a sizing stream: its callback is NULL and nothing is written. */
    var buf: array?<byte>
    var pos: nat
    var maxSize: nat
    var bytesWritten: nat

    ghost function State(): Out
      reads this, buf
    {
      Out(buf != null, if buf == null then [] else buf[..], pos, maxSize, bytesWritten)
    }

    ghost predicate Valid()
      reads this, buf
    {
      OutValid(State())
    }

    /** PB_OSTREAM_SIZING */
    constructor Sizing()
      ensures Valid() && buf == null && bytesWritten == 0
    {
      buf, pos, maxSize, bytesWritten := null, 0, 0, 0;
    }

    /** pb_ostream_from_buffer */
    constructor FromBuffer(b: array<byte>)
      ensures Valid() && buf == b && pos == 0 && bytesWritten == 0 && maxSize == b.Length
    {
      buf, pos, maxSize, bytesWritten := b, 0, b.Length, 0;
    }

    /** pb_write with buf_write as the callback */
    method Write(data: seq<byte>) returns (ok: bool)
      requires Valid()
      modifies this, buf
      ensures buf == old(buf) && Valid() && Wrote(old(State()), Some(data), ok, State())
    {
      if buf != null {
        if bytesWritten + |data| > maxSize { return false; }
        BufWrite(buf, pos, data);
        pos := pos + |data|;
      }
      bytesWritten := bytesWritten + |data|;
      return true;
    }

    /** pb_write with no data, on a sizing stream: only the size of `data` is known. */
    method Count(size: nat, ghost data: seq<byte>)
      requires Valid() && buf == null && |data| == size
      modifies this
      ensures buf == null && Valid() && Wrote(old(State()), Some(data), true, State())
    {
      bytesWritten := bytesWritten + size;
    }

    /** pb_encode_varint */
    method EncodeVarint(n: nat) returns (ok: bool)
      requires Valid() && n < TWO64
      modifies this, buf
      ensures buf == old(buf) && Valid() && Wrote(old(State()), Some(EncVarint(n)), ok, State())
    {
      hide EncVarint, Wrote;
      if n <= 0x7f {
        VarintShape(n);
        ok := Write([n]);
        return;
      }
      var buffer := new byte[10];
      var i := FillVarint(buffer, n);
      ok := Write(buffer[..i]);
    }

    /** pb_encode_svarint */
    method EncodeSvarint(v: int) returns (ok: bool)
      requires Valid() && -(TWO64 / 2) <= v < TWO64 / 2
      modifies this, buf
      ensures buf == old(buf) && Valid() && Wrote(old(State()), Some(EncVarint(ZigZag(v))), ok, State())
    {
      hide EncVarint, Wrote;
      var shifted := 2 * Unsigned64(v) % TWO64;
      var zigzagged := if v < 0 then TWO64 - 1 - shifted else shifted;
      assert zigzagged == ZigZag(v);
      ok := EncodeVarint(zigzagged);
    }

    /** pb_encode_fixed32 */
    method EncodeFixed32(n: nat) returns (ok: bool)
      requires Valid() && n < TWO32
      modifies this, buf
      ensures buf == old(buf) && Valid() && Wrote(old(State()), Some(EncFixed(n, 4)), ok, State())
    {
      hide Wrote, EncFixed;
      var bytes := new byte[4];
      bytes[0] := n % 256;
      bytes[1] := n / 0x100 % 256;
      bytes[2] := n / 0x1_0000 % 256;
      bytes[3] := n / 0x100_0000 % 256;
      FourBytes(n, 4);
      assert bytes[..] == EncFixed(n, 4);
      ok := Write(bytes[..]);
    }

    /** pb_encode_fixed64 */
    method EncodeFixed64(n: nat) returns (ok: bool)
      requires Valid() && n < TWO64
      modifies this, buf
      ensures buf == old(buf) && Valid() && Wrote(old(State()), Some(EncFixed(n, 8)), ok, State())
    {
      hide Wrote, EncFixed;
      var bytes := new byte[8];
      bytes[0] := n % 256;
      bytes[1] := n / 0x100 % 256;
      bytes[2] := n / 0x1_0000 % 256;
      bytes[3] := n / 0x100_0000 % 256;
      bytes[4] := n / 0x1_0000_0000 % 256;
      bytes[5] := n / 0x100_0000_0000 % 256;
      bytes[6] := n / 0x1_0000_0000_0000 % 256;
      bytes[7] := n / 0x100_0000_0000_0000 % 256;
      FourBytes(n, 8);
      FourBytes(n / 0x1_0000_0000, 4);
      FarShifts(n);
      assert bytes[..] == EncFixed(n, 8);
      ok := Write(bytes[..]);
    }

    /** pb_encode_tag */
    method EncodeTag(w: WireType, tag: nat) returns (ok: bool)
      requires Valid() && tag < TWO32 && !w.WtOther?
      modifies this, buf
      ensures buf == old(buf) && Valid() && Wrote(old(State()), Some(EncTag(w, tag)), ok, State())
    {
      hide Wrote;
      ok := EncodeVarint(8 * tag + WireCode(w));
    }

    /** pb_encode_tag_for_field */
    method EncodeTagForField(f: Field) returns (ok: bool)
      requires Valid() && f.tag < TWO32
      modifies this, buf
      ensures buf == old(buf) && Valid() && Wrote(old(State()), Some(FieldTag(f)), ok, State())
    {
      hide Wrote, EncTag;
      ok := EncodeTag(f.ltype.Wire(), f.tag);
    }

    /** pb_encode_string */
    method EncodeString(s: seq<byte>) returns (ok: bool)
      requires Valid() && |s| < TWO64
      modifies this, buf
      ensures buf == old(buf) && Valid() && Wrote(old(State()), Some(EncString(s)), ok, State())
    {
      hide Wrote;
      ok := EncodeVarint(|s|);
      if !ok {
        WroteLess(old(State()), Some(EncVarint(|s|)), State(), Some(s));
        return;
      }
      ghost var mid := State();
      ok := Write(s);
      WroteBoth(old(State()), Some(EncVarint(|s|)), mid, Some(s), ok, State());
    }

    /** The field encoders, pb_enc_* */
    method EncodeValue(f: Field, v: Value) returns (ok: bool)
      requires Valid() && Typed(f, v)
      modifies this, buf
      ensures buf == old(buf) && Valid() && Wrote(old(State()), EncValue(f, v), ok, State())
      decreases f, 0
    {
      hide Wrote, OutValid, EncVarint, EncFixed, EncString, CString, TypedStruct, EncFrom;
      match f.ltype {
        case LVarint =>
          if !IntSize(f.dataSize) {
            WroteNothing(State());
            return false;
          }
          ok := EncodeVarint(Unsigned64(v.n));
        case LUvarint =>
          if !IntSize(f.dataSize) {
            WroteNothing(State());
            return false;
          }
          ok := EncodeVarint(v.n);
        case LSvarint =>
          if !IntSize(f.dataSize) {
            WroteNothing(State());
            return false;
          }
          ok := EncodeSvarint(v.n);
        case LFixed32 =>
          ok := EncodeFixed32(v.n);
        case LFixed64 =>
          ok := EncodeFixed64(v.n);
        case LBytes =>
          if |v.bytes| + BYTES_OFFSET > f.dataSize {
            WroteNothing(State());
            return false;
          }
          ok := EncodeString(v.bytes);
        case LString =>
          var size := StringLength(v.chars, f.dataSize);
          ok := EncodeString(v.chars[..size]);
        case LFixedBytes =>
          ok := EncodeString(v.bytes);
        case LSubmessage =>
          ok := EncodeSubmessage(f.sub, v.st);
      }
    }

    /** pb_encode_submessage: a counting pass, the length, and a writing pass limited to that length. */
    method EncodeSubmessage(fields: seq<Field>, st: Struct) returns (ok: bool)
      requires Valid() && TypedStruct(fields, st) && Short(EncFrom(fields, st, 0))
      modifies this, buf
      ensures buf == old(buf) && Valid() && Wrote(old(State()), Prefixed(EncFrom(fields, st, 0)), ok, State())
      decreases fields, 1
    {
      hide EncVarint, EncFrom, TypedStruct, Wrote, Cat;
      ghost var e := EncFrom(fields, st, 0);
      PrefixedIs(e);
      ghost var start := State();
      var substream := new OStream.Sizing();
      ghost var before := substream.State();
      ok := substream.Encode(fields, st);
      CountPass(before, e, ok, substream.State());
      if !ok {
        WroteNothing(start);
        return;
      }
      var size := substream.bytesWritten;
      ok := EncodeVarint(size);
      if !ok {
        WroteLess(start, Some(EncVarint(size)), State(), e);
        return;
      }
      ghost var mid := State();
      if buf == null {
        Count(size, e.value);
        WroteBoth(start, Some(EncVarint(size)), mid, e, true, State());
        return true;
      }
      if bytesWritten + size > maxSize {
        WroteTooMuch(start, EncVarint(size), mid, e.value);
        return false;
      }
      substream.buf, substream.pos, substream.maxSize, substream.bytesWritten := buf, pos, size, 0;
      before := substream.State();
      ok := substream.Encode(fields, st);
      WritePass(mid, e.value, before, ok, substream.State());
      bytesWritten := bytesWritten + substream.bytesWritten;
      pos := substream.pos;
      // The second pass writes what the first one counted: "submsg size changed" is never reported.
      assert substream.bytesWritten == size;
      ok := ok && substream.bytesWritten == size;
      WroteBoth(start, Some(EncVarint(size)), mid, e, ok, State());
    }

    method EncodeItem(f: Field, v: Value, tagged: bool) returns (ok: bool)
      requires Valid() && Typed(f, v) && f.tag < TWO32
      modifies this, buf
      ensures buf == old(buf) && Valid()
      ensures Wrote(old(State()), Cat(Some(if tagged then FieldTag(f) else []), EncValue(f, v)), ok, State())
      decreases f, 1
    {
      hide Wrote, OutValid, EncValue, FieldTag, Typed;
      ghost var start := State();
      ghost var prefix := if tagged then FieldTag(f) else [];
      if tagged {
        ok := EncodeTagForField(f);
        if !ok {
          WroteLess(start, Some(prefix), State(), EncValue(f, v));
          return;
        }
      } else {
        WroteNothing(start);
      }
      ghost var mid := State();
      ok := EncodeValue(f, v);
      WroteBoth(start, Some(prefix), mid, EncValue(f, v), ok, State());
    }

    /** The loops of encode_array. */
    method EncodeItems(f: Field, items: seq<Value>, tagged: bool) returns (ok: bool)
      requires Valid() && f.tag < TWO32 && forall i :: 0 <= i < |items| ==> Typed(f, items[i])
      modifies this, buf
      ensures buf == old(buf) && Valid()
      ensures Wrote(old(State()), EncItems(f, items, if tagged then FieldTag(f) else []), ok, State())
      decreases f, 2
    {
      hide Wrote, OutValid, EncValue, FieldTag, Typed, EncItems;
      ghost var start := State();
      ghost var prefix := if tagged then FieldTag(f) else [];
      WroteNothing(start);
      NoItems(f, prefix);
      for i := 0 to |items|
        invariant buf == old(buf) && Valid()
        invariant Wrote(start, EncItems(f, items[..i], prefix), true, State())
      {
        ghost var mid := State();
        ok := EncodeItem(f, items[i], tagged);
        ItemsSplit(f, items, prefix, i);
        WroteBoth(start, EncItems(f, items[..i], prefix), mid, Cat(Some(prefix), EncValue(f, items[i])), ok, State());
        if !ok {
          ItemsSplit(f, items, prefix, i + 1);
          WroteLess(start, EncItems(f, items[..i + 1], prefix), State(), EncItems(f, items[i + 1..], prefix));
          return;
        }
      }
      assert items[..|items|] == items;
      return true;
    }

    /** encode_array */
    method EncodeArray(f: Field, items: seq<Value>) returns (ok: bool)
      requires Valid() && f.tag < TWO32 && TypedItems(f, items)
      modifies this, buf
      ensures buf == old(buf) && Valid() && Wrote(old(State()), EncArray(f, items), ok, State())
      decreases f, 3
    {
      hide Wrote, OutValid, FieldTag, Typed, EncItems, EncTag;
      if |items| == 0 {
        WroteNothing(State());
        return true;
      }
      if |items| > f.arraySize {
        WroteNothing(State());
        return false;
      }
      if f.ltype.Packable() {
        ok := EncodePacked(f, items);
      } else {
        ok := EncodeItems(f, items, true);
      }
    }

    /** The packed form of encode_array: the size of the whole array first. */
    method EncodePacked(f: Field, items: seq<Value>) returns (ok: bool)
      requires Valid() && f.tag < TWO32 && TypedItems(f, items) && f.ltype.Packable()
      modifies this, buf
      ensures buf == old(buf) && Valid()
      ensures Wrote(old(State()), Cat(Some(EncTag(WtString, f.tag)), Prefixed(EncItems(f, items, []))), ok, State())
      decreases f, 3, 1
    {
      hide Wrote, OutValid, Typed, EncItems, EncTag, EncVarint;
      ghost var start := State();
      ghost var e := EncItems(f, items, []);
      ok := EncodeTag(WtString, f.tag);
      if !ok {
        WroteLess(start, Some(EncTag(WtString, f.tag)), State(), Prefixed(e));
        return;
      }
      ghost var tagged := State();
      var size;
      ok, size := PackedSize(f, items);
      if !ok {
        WroteNothing(tagged);
        WroteBoth(start, Some(EncTag(WtString, f.tag)), tagged, None, false, tagged);
        return;
      }
      ok := EncodeVarint(size);
      if !ok {
        WroteLess(tagged, Some(EncVarint(size)), State(), e);
        WroteBoth(start, Some(EncTag(WtString, f.tag)), tagged, Prefixed(e), false, State());
        return;
      }
      ghost var sized := State();
      if buf == null {
        Count(size, e.value);
        ok := true;
      } else {
        ok := EncodeItems(f, items, false);
      }
      WroteBoth(tagged, Some(EncVarint(size)), sized, e, ok, State());
      WroteBoth(start, Some(EncTag(WtString, f.tag)), tagged, Prefixed(e), ok, State());
    }

    method PackedSize(f: Field, items: seq<Value>) returns (ok: bool, size: nat)
      requires f.tag < TWO32 && TypedItems(f, items) && f.ltype.Packable()
      ensures ok <==> EncItems(f, items, []).Some?
      ensures ok ==> size == |EncItems(f, items, []).value|
      decreases f, 3, 0
    {
      hide EncItems, Typed;
      if f.ltype.LFixed32? {
        FixedItems(f, items);
        return true, 4 * |items|;
      }
      if f.ltype.LFixed64? {
        FixedItems(f, items);
        return true, 8 * |items|;
      }
      var sizestream := new OStream.Sizing();
      ok := sizestream.EncodeItems(f, items, false);
      size := sizestream.bytesWritten;
    }

    /** encode_basic_field */
    method EncodeBasicField(f: Field, cell: Cell, unions: seq<Union>) returns (ok: bool)
      requires Valid() && TypedCell(f, cell, unions)
      modifies this, buf
      ensures buf == old(buf) && Valid() && Wrote(old(State()), EncCell(f, cell, unions), ok, State())
      decreases f, 4
    {
      hide Wrote, OutValid, Typed, EncValue, EncArray, FieldTag, IsZero, TypedItems;
      WroteNothing(State());
      match f.htype {
        case Required =>
          ok := EncodeItem(f, cell.v, true);
        case Optional =>
          if !cell.has { return true; }
          ok := EncodeItem(f, cell.v, true);
        case Singular =>
          var zero := CheckDefault(f, cell, unions);
          if zero { return true; }
          ok := EncodeItem(f, cell.v, true);
        case Repeated =>
          ok := EncodeArray(f, cell.items);
        case Oneof(g) =>
          if unions[g].which != f.tag { return true; }
          ok := EncodeItem(f, unions[g].value.value, true);
      }
    }

    /** pb_encode */
    method Encode(fields: seq<Field>, st: Struct) returns (ok: bool)
      requires Valid() && TypedStruct(fields, st)
      modifies this, buf
      ensures buf == old(buf) && Valid() && Wrote(old(State()), EncFrom(fields, st, 0), ok, State())
      decreases fields, 0
    {
      hide Wrote, OutValid, TypedCell, EncCell, EncFrom, EncUpTo;
      ghost var start := State();
      WroteNothing(start);
      NoFields(fields, st);
      NonZero(fields, st);
      var iter := new FieldIter(fields);
      if fields == [] { return true; }
      var more := true;
      ghost var done := 0;
      while more
        invariant fresh(iter) && iter.Valid() && iter.fields == fields
        invariant buf == old(buf) && Valid() && done <= |fields|
        invariant if more then done == iter.pos < |fields| else done == |fields|
        invariant Wrote(start, EncUpTo(fields, st, done), true, State())
        decreases |fields| - done
      {
        ghost var mid := State();
        var i := iter.pos;
        ok := EncodeBasicField(fields[i], st.cells[i], st.unions);
        UpToStep(fields, st, i);
        WroteBoth(start, EncUpTo(fields, st, i), mid, EncCell(fields[i], st.cells[i], st.unions), ok, State());
        if !ok {
          UpToThenFrom(fields, st, i + 1);
          WroteLess(start, EncUpTo(fields, st, i + 1), State(), EncFrom(fields, st, i + 1));
          return;
        }
        more := iter.Next();
        done := i + 1;
      }
      UpToThenFrom(fields, st, |fields|);
      UpToAll(fields, st);
      return true;
    }
  }

  /** pb_get_encoded_size */
  method GetEncodedSize(fields: seq<Field>, st: Struct) returns (ok: bool, size: nat)
    requires TypedStruct(fields, st)
    ensures ok <==> EncFrom(fields, st, 0).Some?
    ensures ok ==> size == |EncFrom(fields, st, 0).value|
  {
    hide EncFrom, TypedStruct;
    var stream := new OStream.Sizing();
    ok := stream.Encode(fields, st);
    size := stream.bytesWritten;
  }
}
