/**
nanopb descriptors and structs, and what pb_encode and pb_decode compute on them.  A struct is a list
of cells, one for each descriptor entry, and a list of unions, one for each oneof.
*/
module PbMessage {
  import opened Wire
  import opened PbWire

  /** offsetof(pb_bytes_array_t, bytes) with a 32-bit pb_size_t. */
  const BYTES_OFFSET := 4
  const MAX_REQUIRED_FIELDS := 64

  datatype LType = LVarint | LUvarint | LSvarint | LFixed32 | LFixed64 | LBytes | LString | LSubmessage | LFixedBytes
  {
    predicate Packable() {
      LVarint? || LUvarint? || LSvarint? || LFixed32? || LFixed64?
    }

    function Wire(): WireType {
      match this
      case LFixed32 => Wt32
      case LFixed64 => Wt64
      case LBytes | LString | LSubmessage | LFixedBytes => WtString
      case _ => WtVarint
    }
  }

  /** `Singular` is an optional field without a has_ flag (proto3); `Oneof` names its union. */
  datatype HType = Required | Optional | Singular | Repeated | Oneof(group: nat)

  datatype AType = Static | Callback | Pointer

  /** Where a field lies in the struct; only the field iterator looks at this. */
  datatype Layout = Layout(atype: AType, dataOffset: nat, sizeOffset: int)

  /** A pb_field_t; `sub` describes a submessage, `default` is the default value. */
  datatype Field = Field(tag: nat, ltype: LType, htype: HType, layout: Layout, dataSize: nat, arraySize: nat,
                         default: Option<Value>, sub: seq<Field>)

  /** `Text` is what the buffer of a string holds before the terminator that the decoder writes. */
  datatype Value = Num(n: int) | Blob(bytes: seq<byte>) | Text(chars: seq<byte>) | Msg(st: Struct)

  datatype Cell = One(v: Value) | Maybe(has: bool, v: Value) | Many(items: seq<Value>) | InUnion

  datatype Union = Union(which: nat, value: Option<Value>)

  datatype Struct = Struct(cells: seq<Cell>, unions: seq<Union>)

  // ---------------------------------------------------------------- well-formed descriptors

  const MAX_TAG := 0x2000_0000

  ghost predicate WfFrom(fields: seq<Field>, i: nat)
    decreases fields, |fields| - i
  {
    i >= |fields| || (0 < fields[i].tag < MAX_TAG && Wf(fields[i].sub) && WfFrom(fields, i + 1))
  }

  /** Distinct tags in 1 .. 2^29 - 1, here and in every submessage. */
  ghost predicate Wf(fields: seq<Field>)
    decreases fields, |fields| + 1
  {
    && (forall i, j :: 0 <= i < j < |fields| ==> fields[i].tag != fields[j].tag)
    && WfFrom(fields, 0)
  }

  lemma {:induction false} WfAt(fields: seq<Field>, i: nat, j: nat)
    requires WfFrom(fields, i) && i <= j < |fields|
    ensures 0 < fields[j].tag < MAX_TAG && Wf(fields[j].sub)
    decreases j - i
  {
    if i < j { WfAt(fields, i + 1, j); }
  }

  // ---------------------------------------------------------------- encoding

  function Cat(a: Option<seq<byte>>, b: Option<seq<byte>>): Option<seq<byte>> {
    if a.Some? && b.Some? then Some(a.value + b.value) else None
  }

  predicate IntSize(size: nat) {
    size == 1 || size == 2 || size == 4 || size == 8
  }

  function Limit(size: nat): nat
    requires IntSize(size)
  {
    if size == 1 then 0x100 else if size == 2 then 0x1_0000 else if size == 4 then TWO32 else TWO64
  }

  predicate InSigned(n: int, limit: nat) {
    -(limit / 2) <= n < limit / 2
  }

  /** strnlen */
  function CString(t: seq<byte>): (s: seq<byte>)
    ensures |s| <= |t| && s == t[..|s|]
  {
    if t == [] || t[0] == 0 then [] else [t[0]] + CString(t[1..])
  }

  /** pb_encode_string */
  function EncString(s: seq<byte>): seq<byte> {
    EncVarint(|s|) + s
  }

  /** The field encoders, pb_enc_*; None for what they reject. */
  function EncValue(f: Field, v: Value): Option<seq<byte>>
    decreases f, 0
  {
    match f.ltype
    case LVarint =>
      if v.Num? && IntSize(f.dataSize) && InSigned(v.n, Limit(f.dataSize)) then Some(EncVarint(Unsigned64(v.n)))
      else None
    case LUvarint =>
      if v.Num? && IntSize(f.dataSize) && 0 <= v.n < Limit(f.dataSize) then Some(EncVarint(v.n)) else None
    case LSvarint =>
      if v.Num? && IntSize(f.dataSize) && InSigned(v.n, Limit(f.dataSize)) then Some(EncVarint(ZigZag(v.n))) else None
    case LFixed32 => if v.Num? && 0 <= v.n < TWO32 then Some(EncFixed(v.n, 4)) else None
    case LFixed64 => if v.Num? && 0 <= v.n < TWO64 then Some(EncFixed(v.n, 8)) else None
    case LBytes => if v.Blob? && |v.bytes| + BYTES_OFFSET <= f.dataSize then Some(EncString(v.bytes)) else None
    case LString => if v.Text? && |v.chars| <= f.dataSize then Some(EncString(CString(v.chars))) else None
    case LFixedBytes => if v.Blob? && |v.bytes| == f.dataSize then Some(EncString(v.bytes)) else None
    case LSubmessage =>
      if !v.Msg? then None
      else
        var e := EncFrom(f.sub, v.st, 0);
        if e.None? then None else Some(EncString(e.value))
  }

  /** The values of an array one after the other, each behind `prefix`. */
  function EncItems(f: Field, items: seq<Value>, prefix: seq<byte>): Option<seq<byte>>
    decreases f, 1, |items|
  {
    if items == [] then Some([])
    else Cat(Cat(Some(prefix), EncValue(f, items[0])), EncItems(f, items[1..], prefix))
  }

  function FieldTag(f: Field): seq<byte> {
    EncTag(f.ltype.Wire(), f.tag)
  }

  /** encode_array: numbers are packed behind one length, everything else gets a tag for each item. */
  function EncArray(f: Field, items: seq<Value>): Option<seq<byte>>
    decreases f, 2
  {
    if items == [] then Some([])
    else if |items| > f.arraySize then None
    else if f.ltype.Packable() then
      var payload := EncItems(f, items, []);
      if payload.None? then None else Some(EncTag(WtString, f.tag) + EncString(payload.value))
    else EncItems(f, items, FieldTag(f))
  }

  /** pb_check_proto3_default_value */
  predicate IsZero(f: Field, cell: Cell, unions: seq<Union>)
    decreases f
  {
    match f.htype
    case Required => false
    case Repeated => cell.Many? && cell.items == []
    case Oneof(g) => g < |unions| && unions[g].which == 0
    case Optional => cell.Maybe? && !cell.has
    case Singular =>
      cell.One? &&
      match cell.v
      case Num(n) => n == 0
      case Blob(b) => if f.ltype.LFixedBytes? then f.dataSize == 0 else b == []
      case Text(t) => t == [] || t[0] == 0
      case Msg(st) => AllZero(f.sub, st, 0)
  }

  predicate AllZero(fields: seq<Field>, st: Struct, i: nat)
    decreases fields, |fields| - i
  {
    i >= |fields| || (i < |st.cells| && IsZero(fields[i], st.cells[i], st.unions) && AllZero(fields, st, i + 1))
  }

  /** encode_basic_field */
  function EncCell(f: Field, cell: Cell, unions: seq<Union>): Option<seq<byte>>
    decreases f, 3
  {
    match f.htype
    case Required => if cell.One? then Cat(Some(FieldTag(f)), EncValue(f, cell.v)) else None
    case Optional =>
      if !cell.Maybe? then None
      else if cell.has then Cat(Some(FieldTag(f)), EncValue(f, cell.v))
      else Some([])
    case Singular =>
      if !cell.One? then None
      else if IsZero(f, cell, unions) then Some([])
      else Cat(Some(FieldTag(f)), EncValue(f, cell.v))
    case Repeated => if cell.Many? then EncArray(f, cell.items) else None
    case Oneof(g) =>
      if g >= |unions| then None
      else if unions[g].which != f.tag then Some([])
      else if unions[g].value.None? then None
      else Cat(Some(FieldTag(f)), EncValue(f, unions[g].value.value))
  }

  /** pb_encode from entry `i` on. */
  function EncFrom(fields: seq<Field>, st: Struct, i: nat): Option<seq<byte>>
    decreases fields, |fields| - i
  {
    if i >= |fields| then Some([])
    else if i >= |st.cells| then None
    else Cat(EncCell(fields[i], st.cells[i], st.unions), EncFrom(fields, st, i + 1))
  }

  // ---------------------------------------------------------------- defaults

  function GroupCount(fields: seq<Field>): nat {
    if fields == [] then 0
    else
      var rest := GroupCount(fields[1..]);
      if fields[0].htype.Oneof? && fields[0].htype.group >= rest then fields[0].htype.group + 1 else rest
  }

  function Zeros(n: nat): seq<byte> {
    seq(n, _ => 0)
  }

  function ZeroValue(f: Field): Value {
    match f.ltype
    case LBytes => Blob([])
    case LFixedBytes => Blob(Zeros(f.dataSize))
    case LString => Text([])
    case LSubmessage => Msg(Struct([], []))
    case _ => Num(0)
  }

  function DefaultValue(f: Field): Value
    decreases f, 0
  {
    if f.ltype.LSubmessage? then Msg(DefaultStruct(f.sub))
    else if f.default.Some? then f.default.value
    else ZeroValue(f)
  }

  function DefaultCell(f: Field): Cell
    decreases f, 1
  {
    match f.htype
    case Required => One(DefaultValue(f))
    case Singular => One(DefaultValue(f))
    case Optional => Maybe(false, DefaultValue(f))
    case Repeated => Many([])
    case Oneof(_) => InUnion
  }

  function DefaultCells(fields: seq<Field>, i: nat): (cells: seq<Cell>)
    requires i <= |fields|
    ensures |cells| == |fields| - i
    decreases fields, |fields| - i
  {
    if i == |fields| then [] else [DefaultCell(fields[i])] + DefaultCells(fields, i + 1)
  }

  function NoUnions(n: nat): (u: seq<Union>)
    ensures |u| == n && forall i :: 0 <= i < n ==> u[i] == Union(0, None)
  {
    seq(n, _ => Union(0, None))
  }

  /** pb_message_set_to_defaults */
  function DefaultStruct(fields: seq<Field>): Struct
    decreases fields, |fields| + 1
  {
    Struct(DefaultCells(fields, 0), NoUnions(GroupCount(fields)))
  }

  // ---------------------------------------------------------------- decoding

  datatype Tagged = NoTag | EndTag(rest: seq<byte>) | Tag(wire: WireType, tag: nat, rest: seq<byte>)

  /** pb_decode_tag on non-empty input: a zero ends the message. */
  function DecTag(s: seq<byte>): (t: Tagged)
    ensures !t.NoTag? ==> |t.rest| < |s|
  {
    match DecVarint32(s)
    case Fail => NoTag
    case Got(n, rest) => if n == 0 then EndTag(rest) else Tag(WireOf(n % 8), n / 8, rest)
  }

  /** pb_make_string_substream: the payload and what follows it. */
  function Substream(s: seq<byte>): (r: Parsed<seq<byte>>)
    ensures r.Got? ==> |r.rest| < |s|
  {
    match DecVarint32(s)
    case Fail => Fail
    case Got(n, rest) => if |rest| < n then Fail else Got(rest[..n], rest[n..])
  }

  function SkipVarint(s: seq<byte>): (r: Parsed<()>)
    ensures r.Got? ==> |r.rest| < |s|
  {
    if s == [] then Fail else if s[0] >= 128 then SkipVarint(s[1..]) else Got((), s[1..])
  }

  function SkipBytes(s: seq<byte>, n: nat): Parsed<()> {
    if |s| < n then Fail else Got((), s[n..])
  }

  /** pb_skip_field */
  function SkipField(w: WireType, s: seq<byte>): (r: Parsed<()>)
    ensures r.Got? ==> |r.rest| < |s|
  {
    match w
    case WtVarint => SkipVarint(s)
    case Wt64 => SkipBytes(s, 8)
    case Wt32 => SkipBytes(s, 4)
    case WtString => (match Substream(s) case Fail => Fail case Got(_, rest) => Got((), rest))
    case WtOther(_) => Fail
  }

  /** pb_dec_varint reads small fields as 32-bit integers first, then checks the range. */
  function SignedField(n: nat, size: nat): int {
    if size == 8 then Signed(n, TWO64) else Signed(n, TWO32)
  }

  /** The value of a varint in a field; None when it does not fit the field. */
  function VarintField(f: Field, n: nat): Option<int> {
    if !IntSize(f.dataSize) then None
    else if f.ltype.LUvarint? then if n < Limit(f.dataSize) then Some(n) else None
    else
      var v := if f.ltype.LVarint? then SignedField(n, f.dataSize) else UnZigZag(n);
      if InSigned(v, Limit(f.dataSize)) then Some(v) else None
  }

  /** pb_dec_varint, pb_dec_uvarint, pb_dec_svarint, pb_dec_fixed32 and pb_dec_fixed64 */
  function DecNum(f: Field, s: seq<byte>): (r: Parsed<Value>)
    requires f.ltype.Packable()
    ensures r.Got? ==> |r.rest| < |s|
  {
    if f.ltype.LFixed32? || f.ltype.LFixed64? then
      (match DecFixed(s, if f.ltype.LFixed32? then 4 else 8)
       case Fail => Fail
       case Got(n, rest) => Got(Num(n), rest))
    else
      match DecVarint64(s)
      case Fail => Fail
      case Got(n, rest) =>
        var v := VarintField(f, n);
        if v.Some? then Got(Num(v.value), rest) else Fail
  }

  /** pb_dec_bytes, pb_dec_string and pb_dec_fixed_length_bytes, given the length prefix and what follows. */
  function DecBlob(f: Field, n: nat, rest: seq<byte>): (r: Parsed<Value>)
    requires f.ltype.LBytes? || f.ltype.LString? || f.ltype.LFixedBytes?
    ensures r.Got? ==> |r.rest| <= |rest|
  {
    if f.ltype.LFixedBytes? && n == 0 then Got(Blob(Zeros(f.dataSize)), rest)
    else if (f.ltype.LBytes? && n + BYTES_OFFSET > f.dataSize)
         || (f.ltype.LString? && n + 1 > f.dataSize)
         || (f.ltype.LFixedBytes? && n != f.dataSize)
         || |rest| < n then Fail
    else Got(if f.ltype.LString? then Text(rest[..n]) else Blob(rest[..n]), rest[n..])
  }

  /** The field decoders; `into` is what a submessage is merged into. */
  function DecValue(f: Field, s: seq<byte>, into: Struct): (r: Parsed<Value>)
    ensures r.Got? ==> |r.rest| < |s|
    decreases f, 0
  {
    if f.ltype.Packable() then DecNum(f, s)
    else if f.ltype.LSubmessage? then
      (match Substream(s)
       case Fail => Fail
       case Got(payload, rest) =>
         match DecNoInit(f.sub, payload, into)
         case Fail => Fail
         case Got(st, _) => Got(Msg(st), rest))
    else
      match DecVarint32(s)
      case Fail => Fail
      case Got(n, rest) => DecBlob(f, n, rest)
  }

  /** The loop over a packed array. */
  function DecPacked(f: Field, s: seq<byte>, items: seq<Value>): Option<seq<Value>>
    requires f.ltype.Packable()
    decreases f.arraySize - |items|
  {
    if s == [] then Some(items)
    else if |items| >= f.arraySize then None
    else
      match DecNum(f, s)
      case Fail => None
      case Got(v, rest) => DecPacked(f, rest, items + [v])
  }

  function OldStruct(f: Field, v: Value): Struct {
    if v.Msg? then v.st else DefaultStruct(f.sub)
  }

  predicate HasTag(fields: seq<Field>, tag: nat) {
    exists i :: 0 <= i < |fields| && fields[i].tag == tag
  }

  /** decode_static_field for entry `i`. */
  function DecCell(fields: seq<Field>, i: nat, w: WireType, s: seq<byte>, st: Struct): (r: Parsed<Struct>)
    requires i < |fields|
    ensures r.Got? ==> |r.rest| < |s|
    decreases fields, 0
  {
    var f := fields[i];
    if i >= |st.cells| then Fail
    else
      var cell := st.cells[i];
      match f.htype
      case Repeated =>
        if !cell.Many? then Fail
        else if w.WtString? && f.ltype.Packable() then
          (match Substream(s)
           case Fail => Fail
           case Got(payload, rest) =>
             var items := DecPacked(f, payload, cell.items);
             if items.None? then Fail else Got(st.(cells := st.cells[i := Many(items.value)]), rest))
        else if |cell.items| >= f.arraySize then Fail
        else
          (match DecValue(f, s, DefaultStruct(f.sub))
           case Fail => Fail
           case Got(v, rest) => Got(st.(cells := st.cells[i := Many(cell.items + [v])]), rest))
      case Oneof(g) =>
        if g >= |st.unions| then Fail
        else if st.unions[g].which != 0 && st.unions[g].which != f.tag && !HasTag(fields, st.unions[g].which) then Fail
        else
          (match DecValue(f, s, DefaultStruct(f.sub))
           case Fail => Fail
           case Got(v, rest) => Got(st.(unions := st.unions[g := Union(f.tag, Some(v))]), rest))
      case Optional =>
        if !cell.Maybe? then Fail
        else
          (match DecValue(f, s, OldStruct(f, cell.v))
           case Fail => Fail
           case Got(v, rest) => Got(st.(cells := st.cells[i := Maybe(true, v)]), rest))
      case _ =>
        if !cell.One? then Fail
        else
          (match DecValue(f, s, OldStruct(f, cell.v))
           case Fail => Fail
           case Got(v, rest) => Got(st.(cells := st.cells[i := One(v)]), rest))
  }

  /** The first entry with a tag: what pb_field_iter_find finds when tags are distinct. */
  function Find(fields: seq<Field>, tag: nat, i: nat): (r: Option<nat>)
    requires i <= |fields|
    ensures r.Some? ==> i <= r.value < |fields| && fields[r.value].tag == tag
    ensures r.None? ==> forall j :: i <= j < |fields| ==> fields[j].tag != tag
    decreases |fields| - i
  {
    if i == |fields| then None else if fields[i].tag == tag then Some(i) else Find(fields, tag, i + 1)
  }

  /** With distinct tags, any entry with the tag is the one. */
  lemma {:induction false} FindTag(fields: seq<Field>, i: nat, j: nat)
    requires j <= i < |fields| && forall a, b :: 0 <= a < b < |fields| ==> fields[a].tag != fields[b].tag
    ensures Find(fields, fields[i].tag, j) == Some(i)
    decreases i - j
  {
    if j < i { FindTag(fields, i, j + 1); }
  }

  /** Where the loop of pb_decode_noinit ends: by a zero tag or at the end of the input. */
  datatype Loop = Broken | Done(st: Struct, seen: set<nat>, rest: seq<byte>, stopped: bool)

  /** The loop of pb_decode_noinit; `seen` collects the entries of required fields. */
  function DecLoop(fields: seq<Field>, s: seq<byte>, st: Struct, seen: set<nat>): Loop
    decreases fields, 1, |s|
  {
    if s == [] then Done(st, seen, s, false)
    else
      match DecTag(s)
      case NoTag => Broken
      case EndTag(rest) => Done(st, seen, rest, true)
      case Tag(w, tag, after) =>
        var found := Find(fields, tag, 0);
        if found.None? then
          // An empty descriptor is its own terminator: tag 0 finds that, and fails as a field of size 0.
          if fields == [] && tag == 0 then Broken
          else
            match SkipField(w, after)
            case Fail => Broken
            case Got(_, rest) => DecLoop(fields, rest, st, seen)
        else
          var i := found.value;
          match DecCell(fields, i, w, after, st)
          case Fail => Broken
          case Got(next, rest) =>
            DecLoop(fields, rest, next, if fields[i].htype.Required? then seen + {i} else seen)
  }

  /** Number of required fields before entry `i`: pb_field_iter's required_field_index. */
  function RequiredBefore(fields: seq<Field>, i: nat): nat
    requires i <= |fields|
  {
    if i == 0 then 0 else RequiredBefore(fields, i - 1) + if fields[i - 1].htype.Required? then 1 else 0
  }

  /** Each of the first 64 required fields was seen. */
  predicate RequiredSeen(fields: seq<Field>, seen: set<nat>) {
    forall i :: 0 <= i < |fields| && fields[i].htype.Required? && RequiredBefore(fields, i) < MAX_REQUIRED_FIELDS
      ==> i in seen
  }

  /** pb_decode_noinit */
  function DecNoInit(fields: seq<Field>, s: seq<byte>, st: Struct): Parsed<Struct>
    decreases fields, 2
  {
    match DecLoop(fields, s, st, {})
    case Broken => Fail
    case Done(next, seen, rest, _) => if RequiredSeen(fields, seen) then Got(next, rest) else Fail
  }

  /** pb_decode */
  function Decode(fields: seq<Field>, s: seq<byte>): Parsed<Struct> {
    DecNoInit(fields, s, DefaultStruct(fields))
  }
}
