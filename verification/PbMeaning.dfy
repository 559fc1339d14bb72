/**
What a sequence of fields means for a struct, in the terms of the Protocol Buffers Encoding: numbers by their type,
the last value of a single entry, one more item of an array, submessages merged.  pb_decode computes exactly this.
*/
module PbMeaning {
  import opened Wire
  import opened PbWire
  import opened PbMessage
  import opened PbFormat
  import opened PbRoundTrip

  // ---------------------------------------------------------------- values

  /** The wire type that each type of field has. */
  function KindOf(t: LType): nat {
    match t
    case LVarint => 0
    case LUvarint => 0
    case LSvarint => 0
    case LFixed64 => 1
    case LFixed32 => 5
    case _ => 2
  }

  function TwosComplement(n: nat, size: nat): int
    requires size > 0
  {
    var m := n % Pow256(size);
    if m < Pow256(size) / 2 then m else m - Pow256(size)
  }

  /** The number a payload stands for, if a field of this type and size can hold it. */
  function NumberOf(f: Field, p: Payload): Option<int> {
    match p
    case Fixed32(data) => Some(FixedValue(data))
    case Fixed64(data) => Some(FixedValue(data))
    case Delimited(_) => None
    case Varint(n) =>
      if f.dataSize != 1 && f.dataSize != 2 && f.dataSize != 4 && f.dataSize != 8 then None
      else if f.ltype.LUvarint? then if n < Pow256(f.dataSize) then Some(n) else None
      else
        // Small signed fields are read as 32-bit integers.
        var v := if f.ltype.LSvarint? then if n % 2 == 0 then n / 2 else -1 - n / 2
                 else TwosComplement(n, if f.dataSize == 8 then 8 else 4);
        if 2 * v < Pow256(f.dataSize) && -2 * v <= Pow256(f.dataSize) then Some(v) else None
  }

  /** The value a payload stands for; a submessage is merged into `into`. */
  function ValueOf(f: Field, p: Payload, into: Struct): Option<Value> {
    match p
    case Delimited(data) =>
      (match f.ltype
       case LBytes => if |data| + 4 <= f.dataSize then Some(Blob(data)) else None
       case LString => if |data| < f.dataSize then Some(Text(data)) else None
       case LFixedBytes =>
         if |data| == f.dataSize then Some(Blob(data))
         else if data == [] then Some(Blob(Zeros(f.dataSize)))
         else None
       case LSubmessage =>
         (match DecNoInit(f.sub, data, into)
          case Fail => None
          case Got(st, _) => Some(Msg(st)))
       case _ => None)
    case _ =>
      var n := NumberOf(f, p);
      if n.Some? then Some(Num(n.value)) else None
  }

  function Result<T>(v: Option<T>, rest: seq<byte>): Parsed<T> {
    if v.Some? then Got(v.value, rest) else Fail
  }

  lemma Powers()
    ensures Pow256(1) == 0x100 && Pow256(2) == 0x1_0000 && Pow256(4) == TWO32 && Pow256(8) == TWO64
  {
    assert Pow256(3) == 0x100_0000;
    assert Pow256(6) == 0x1_0000_0000_0000;
  }

  lemma VarintDecodes(f: Field, n: nat)
    requires n < TWO64 && (f.ltype.LVarint? || f.ltype.LUvarint? || f.ltype.LSvarint?)
    ensures VarintField(f, n) == NumberOf(f, Varint(n))
  {
    Powers();
    hide Pow256;
  }

  lemma NumberDecodes(f: Field, p: Payload, rest: seq<byte>)
    requires p.Valid() && f.ltype.Packable() && p.Code() == KindOf(f.ltype)
    ensures DecNum(f, p.Bytes() + rest) == Result(ValueOf(f, p, Struct([], [])), rest)
  {
    hide EncVarint, VarintField, NumberOf, DecVarint64, FixedValue;
    match p
    case Varint(n) =>
      DecVarint64Inverse(n, rest);
      VarintDecodes(f, n);
    case Fixed32(data) =>
      FixedDecodes(f, p);
      assert (data + rest)[..4] == data && (data + rest)[4..] == rest;
    case Fixed64(data) =>
      FixedDecodes(f, p);
      assert (data + rest)[..8] == data && (data + rest)[8..] == rest;
  }

  lemma FixedDecodes(f: Field, p: Payload)
    requires p.Fixed32? || p.Fixed64?
    ensures NumberOf(f, p) == Some(FixedValue(p.data))
  {
  }

  /** A value of its own kind is decoded to what its payload stands for. */
  lemma ValueDecodes(f: Field, p: Payload, into: Struct, rest: seq<byte>)
    requires p.Valid() && p.Code() == KindOf(f.ltype)
    ensures DecValue(f, p.Bytes() + rest, into) == Result(ValueOf(f, p, into), rest)
  {
    hide EncVarint, DecVarint32, DecNum, DecNoInit, NumberOf;
    if f.ltype.Packable() {
      NumberDecodes(f, p, rest);
    } else {
      var data := p.data;
      DecVarint32Inverse(|data|, data + rest);
      assert p.Bytes() + rest == EncVarint(|data|) + (data + rest);
      assert (data + rest)[..|data|] == data && (data + rest)[|data|..] == rest;
      if data == [] {
        assert data + rest == rest;
        assert f.dataSize == 0 ==> Zeros(f.dataSize) == data;
      }
    }
  }

  // ---------------------------------------------------------------- entries

  /** A struct laid out as its descriptor says; a oneof that is in use holds a field of the descriptor. */
  ghost predicate Shaped(fields: seq<Field>, st: Struct) {
    && |st.cells| == |fields|
    && forall i :: 0 <= i < |fields| ==> ShapedCell(fields, fields[i].htype, st.cells[i], st.unions)
  }

  ghost predicate ShapedCell(fields: seq<Field>, h: HType, cell: Cell, unions: seq<Union>) {
    match h
    case Required => cell.One?
    case Singular => cell.One?
    case Optional => cell.Maybe?
    case Repeated => cell.Many?
    case Oneof(g) => g < |unions| && (unions[g].which == 0 || HasTag(fields, unions[g].which))
  }

  /** What a submessage of this entry is merged into. */
  function Into(fields: seq<Field>, i: nat, st: Struct): Struct
    requires i < |fields| && i < |st.cells|
  {
    match st.cells[i]
    case One(v) => OldStruct(fields[i], v)
    case Maybe(_, v) => OldStruct(fields[i], v)
    case _ => DefaultStruct(fields[i].sub)
  }

  /** One more value for entry `i`: the last one counts, an array takes all as long as there is room. */
  function Keep(fields: seq<Field>, i: nat, v: Value, st: Struct): Option<Struct>
    requires i < |fields| && i < |st.cells|
    requires fields[i].htype.Repeated? ==> st.cells[i].Many?
    requires fields[i].htype.Oneof? ==> fields[i].htype.group < |st.unions|
  {
    match fields[i].htype
    case Required => Some(st.(cells := st.cells[i := One(v)]))
    case Singular => Some(st.(cells := st.cells[i := One(v)]))
    case Optional => Some(st.(cells := st.cells[i := Maybe(true, v)]))
    case Oneof(g) => Some(st.(unions := st.unions[g := Union(fields[i].tag, Some(v))]))
    case Repeated =>
      if |st.cells[i].items| < fields[i].arraySize
      then Some(st.(cells := st.cells[i := Many(st.cells[i].items + [v])]))
      else None
  }

  /** A field of its own kind, for entry `i`. */
  function Meant(fields: seq<Field>, i: nat, p: Payload, st: Struct): Option<Struct>
    requires i < |fields| && i < |st.cells|
    requires fields[i].htype.Repeated? ==> st.cells[i].Many?
    requires fields[i].htype.Oneof? ==> fields[i].htype.group < |st.unions|
  {
    var f := fields[i];
    var into := if f.htype.Oneof? then DefaultStruct(f.sub) else Into(fields, i, st);
    var v := ValueOf(f, p, into);
    if v.None? then None else Keep(fields, i, v.value, st)
  }

  lemma CellDecodes(fields: seq<Field>, i: nat, w: WireType, p: Payload, st: Struct, rest: seq<byte>)
    requires i < |fields| && Shaped(fields, st) && p.Valid() && p.Code() == KindOf(fields[i].ltype)
    requires WireOf(p.Code()) == w
    ensures DecCell(fields, i, w, p.Bytes() + rest, st) == Result(Meant(fields, i, p, st), rest)
  {
    hide DecValue, DefaultStruct, HasTag, ValueOf, Payload.Bytes, Payload.Valid;
    var f := fields[i];
    assert ShapedCell(fields, f.htype, st.cells[i], st.unions);
    ValueDecodes(f, p, DefaultStruct(f.sub), rest);
    if !f.htype.Oneof? { ValueDecodes(f, p, Into(fields, i, st), rest); }
  }

  // ---------------------------------------------------------------- packed arrays

  function Concat(ps: seq<Payload>): seq<byte> {
    if ps == [] then [] else ps[0].Bytes() + Concat(ps[1..])
  }

  /** The numbers of a packed array behind those that are there. */
  function Appended(f: Field, ps: seq<Payload>, items: seq<Value>): Option<seq<Value>>
    decreases ps
  {
    if ps == [] then Some(items)
    else if |items| >= f.arraySize || NumberOf(f, ps[0]).None? then None
    else Appended(f, ps[1..], items + [Num(NumberOf(f, ps[0]).value)])
  }

  ghost predicate AllOf(f: Field, ps: seq<Payload>) {
    forall k :: 0 <= k < |ps| ==> ps[k].Valid() && ps[k].Code() == KindOf(f.ltype)
  }

  lemma {:induction false} PackedDecodes(f: Field, ps: seq<Payload>, items: seq<Value>)
    requires f.ltype.Packable() && AllOf(f, ps)
    ensures DecPacked(f, Concat(ps), items) == Appended(f, ps, items)
    decreases ps
  {
    hide DecNum, NumberOf;
    if ps != [] {
      var rest := Concat(ps[1..]);
      NumberDecodes(f, ps[0], rest);
      BytesNotEmpty(ps[0]);
      if NumberOf(f, ps[0]).Some? && |items| < f.arraySize {
        PackedDecodes(f, ps[1..], items + [Num(NumberOf(f, ps[0]).value)]);
      }
    }
  }

  lemma BytesNotEmpty(p: Payload)
    requires p.Valid()
    ensures p.Bytes() != []
  {
  }

  // ---------------------------------------------------------------- a whole message

  /** A field of a message: a plain one, or an array packed into one field. */
  datatype Item = Plain(tag: nat, p: Payload) | Packed(tag: nat, ps: seq<Payload>) {
    function Bytes(): seq<byte> {
      match this
      case Plain(tag, p) => FieldBytes(tag, p)
      case Packed(tag, ps) => FieldBytes(tag, Delimited(Concat(ps)))
    }
  }

  /** The field has a proper tag, and if the descriptor knows it, it is of the kind it has there. */
  ghost predicate Proper(fields: seq<Field>, x: Item) {
    && 0 < x.tag < MAX_TAG
    && (x.Plain? ==> x.p.Valid())
    && (x.Packed? ==> |Concat(x.ps)| < TWO32)
    && forall i :: 0 <= i < |fields| && fields[i].tag == x.tag ==>
         if x.Plain? then x.p.Code() == KindOf(fields[i].ltype)
         else fields[i].htype.Repeated? && fields[i].ltype.Packable() && AllOf(fields[i], x.ps)
  }

  /** What a field of entry `i` makes of a struct. */
  function MeantAt(fields: seq<Field>, i: nat, x: Item, st: Struct): Option<Struct>
    requires i < |fields| && i < |st.cells|
    requires fields[i].htype.Repeated? ==> st.cells[i].Many?
    requires fields[i].htype.Oneof? ==> fields[i].htype.group < |st.unions|
    requires x.Packed? ==> fields[i].htype.Repeated?
  {
    match x
    case Plain(_, p) => Meant(fields, i, p, st)
    case Packed(_, ps) =>
      var items := Appended(fields[i], ps, st.cells[i].items);
      if items.None? then None else Some(st.(cells := st.cells[i := Many(items.value)]))
  }

  /** What a field makes of a struct: nothing if its tag is unknown. */
  ghost function MeaningOf(fields: seq<Field>, x: Item, st: Struct): Option<Struct>
    requires Shaped(fields, st) && Proper(fields, x)
  {
    match Find(fields, x.tag, 0)
    case None => Some(st)
    case Some(i) =>
      assert ShapedCell(fields, fields[i].htype, st.cells[i], st.unions);
      MeantAt(fields, i, x, st)
  }

  /** The required entry a field is of, if any. */
  ghost function Marks(fields: seq<Field>, x: Item): set<nat> {
    set i | 0 <= i < |fields| && fields[i].tag == x.tag && fields[i].htype.Required?
  }

  lemma MeantShaped(fields: seq<Field>, i: nat, x: Item, st: Struct)
    requires Shaped(fields, st) && i < |fields| && (x.Packed? ==> fields[i].htype.Repeated?)
    requires ShapedCell(fields, fields[i].htype, st.cells[i], st.unions)
    ensures MeantAt(fields, i, x, st).Some? ==> Shaped(fields, MeantAt(fields, i, x, st).value)
  {
    hide ValueOf, Appended, DefaultStruct;
    if MeantAt(fields, i, x, st).Some? {
      var next := MeantAt(fields, i, x, st).value;
      assert HasTag(fields, fields[i].tag);
      forall j | 0 <= j < |fields| ensures ShapedCell(fields, fields[j].htype, next.cells[j], next.unions) {
        assert ShapedCell(fields, fields[j].htype, st.cells[j], st.unions);
      }
    }
  }

  lemma KnownItem(fields: seq<Field>, i: nat, x: Item, b: seq<byte>, st: Struct, seen: set<nat>)
    requires Wf(fields) && Shaped(fields, st) && Proper(fields, x) && i < |fields| && fields[i].tag == x.tag
    requires ShapedCell(fields, fields[i].htype, st.cells[i], st.unions)
    ensures var next := MeantAt(fields, i, x, st);
            DecLoop(fields, x.Bytes() + b, st, seen)
            == if next.None? then Broken
               else DecLoop(fields, b, next.value, if fields[i].htype.Required? then seen + {i} else seen)
  {
    hide DecTag, DecCell, Key, HasTag, Wf, Payload.Bytes, MeantAt, Payload.Code;
    var p := if x.Plain? then x.p else Delimited(Concat(x.ps));
    KnownTag(fields, i);
    CodeSmall(p);
    KeyIs(x.tag, p.Code(), p.Bytes() + b);
    KeyNotEmpty(x.tag, p.Code());
    assert x.Bytes() + b == Key(x.tag, p.Code()) + (p.Bytes() + b);
    ItemCell(fields, i, x, p, b, st);
  }

  lemma CodeSmall(p: Payload)
    ensures p.Code() < 8 && (p.Delimited? ==> p.Code() == 2)
  {
  }

  lemma KnownTag(fields: seq<Field>, i: nat)
    requires Wf(fields) && i < |fields|
    ensures Find(fields, fields[i].tag, 0) == Some(i)
  {
    FindTag(fields, i, 0);
  }

  /** What is stored for the entry of a field. */
  lemma ItemCell(fields: seq<Field>, i: nat, x: Item, p: Payload, b: seq<byte>, st: Struct)
    requires Shaped(fields, st) && Proper(fields, x) && i < |fields| && fields[i].tag == x.tag
    requires ShapedCell(fields, fields[i].htype, st.cells[i], st.unions)
    requires p == if x.Plain? then x.p else Delimited(Concat(x.ps))
    ensures DecCell(fields, i, WireOf(p.Code()), p.Bytes() + b, st) == Result(MeantAt(fields, i, x, st), b)
  {
    hide HasTag, ValueOf, Concat, DecValue, DecPacked, EncVarint, DecVarint32, Meant, Appended, DefaultStruct, NumberOf;
    if x.Plain? {
      CellDecodes(fields, i, WireOf(p.Code()), p, st, b);
    } else {
      var data := p.data;
      DecVarint32Inverse(|data|, data + b);
      assert p.Bytes() + b == EncVarint(|data|) + (data + b);
      assert (data + b)[..|data|] == data && (data + b)[|data|..] == b;
      PackedDecodes(fields[i], x.ps, st.cells[i].items);
    }
  }

  /** One field in front of the input. */
  lemma ItemDecodes(fields: seq<Field>, x: Item, b: seq<byte>, st: Struct, seen: set<nat>)
    requires Wf(fields) && Shaped(fields, st) && Proper(fields, x)
    ensures var next := MeaningOf(fields, x, st);
            && (next.Some? ==> Shaped(fields, next.value))
            && DecLoop(fields, x.Bytes() + b, st, seen)
               == if next.None? then Broken else DecLoop(fields, b, next.value, seen + Marks(fields, x))
  {
    hide DecLoop, MeantAt, Item.Bytes, Wf;
    var found := Find(fields, x.tag, 0);
    assert seen + {} == seen;
    if found.Some? {
      var i := found.value;
      assert ShapedCell(fields, fields[i].htype, st.cells[i], st.unions);
      MeantShaped(fields, i, x, st);
      KnownItem(fields, i, x, b, st, seen);
      OneMark(fields, i, x);
    } else {
      UnknownItem(fields, x, b, st, seen);
      assert seen + Marks(fields, x) == seen;
    }
  }

  lemma UnknownItem(fields: seq<Field>, x: Item, b: seq<byte>, st: Struct, seen: set<nat>)
    requires Proper(fields, x) && !HasTag(fields, x.tag)
    ensures DecLoop(fields, x.Bytes() + b, st, seen) == DecLoop(fields, b, st, seen)
  {
    hide DecLoop;
    LoopSkips(fields, x.Bytes(), x.tag, if x.Plain? then x.p else Delimited(Concat(x.ps)), b, st, seen);
  }

  lemma OneMark(fields: seq<Field>, i: nat, x: Item)
    requires Wf(fields) && i < |fields| && fields[i].tag == x.tag
    ensures Marks(fields, x) == if fields[i].htype.Required? then {i} else {}
  {
  }

  function AllBytes(xs: seq<Item>): seq<byte> {
    if xs == [] then [] else xs[0].Bytes() + AllBytes(xs[1..])
  }

  ghost predicate AllProper(fields: seq<Field>, xs: seq<Item>) {
    forall k :: 0 <= k < |xs| ==> Proper(fields, xs[k])
  }

  /** One field after the other. */
  ghost function Meaning(fields: seq<Field>, xs: seq<Item>, st: Struct): Option<Struct>
    requires Wf(fields) && Shaped(fields, st) && AllProper(fields, xs)
    decreases xs
  {
    if xs == [] then Some(st)
    else
      var next := MeaningOf(fields, xs[0], st);
      ItemDecodes(fields, xs[0], [], st, {});
      if next.None? then None else Meaning(fields, xs[1..], next.value)
  }

  ghost function AllMarks(fields: seq<Field>, xs: seq<Item>): set<nat> {
    if xs == [] then {} else Marks(fields, xs[0]) + AllMarks(fields, xs[1..])
  }

  lemma {:induction false} LoopDecodes(fields: seq<Field>, xs: seq<Item>, st: Struct, seen: set<nat>)
    requires Wf(fields) && Shaped(fields, st) && AllProper(fields, xs)
    ensures DecLoop(fields, AllBytes(xs), st, seen)
         == match Meaning(fields, xs, st)
            case None => Broken
            case Some(next) => Done(next, seen + AllMarks(fields, xs), [], false)
    decreases xs
  {
    hide DecLoop, MeaningOf, Proper, Wf, Marks, Item.Bytes, Shaped;
    if xs == [] {
      LoopEnd(fields, st, seen);
      assert seen + {} == seen;
    } else {
      ItemDecodes(fields, xs[0], AllBytes(xs[1..]), st, seen);
      var next := MeaningOf(fields, xs[0], st);
      if next.Some? {
        LoopDecodes(fields, xs[1..], next.value, seen + Marks(fields, xs[0]));
        assert seen + Marks(fields, xs[0]) + AllMarks(fields, xs[1..]) == seen + AllMarks(fields, xs);
      }
    }
  }

  lemma LoopEnd(fields: seq<Field>, st: Struct, seen: set<nat>)
    ensures DecLoop(fields, [], st, seen) == Done(st, seen, [], false)
  {
  }

  /** Every required entry, of the first 64 of them, is among the fields. */
  ghost predicate RequiredGiven(fields: seq<Field>, xs: seq<Item>) {
    forall i :: 0 <= i < |fields| && fields[i].htype.Required? && |RequiredAhead(fields, i)| < 64 ==>
      exists k :: 0 <= k < |xs| && xs[k].tag == fields[i].tag
  }

  ghost function RequiredAhead(fields: seq<Field>, i: nat): set<nat>
    requires i <= |fields|
  {
    set j: nat | j < i && fields[j].htype.Required?
  }

  lemma {:induction false} AheadCount(fields: seq<Field>, i: nat)
    requires i <= |fields|
    ensures |RequiredAhead(fields, i)| == RequiredBefore(fields, i)
  {
    if i > 0 {
      AheadCount(fields, i - 1);
      var more: set<nat> := if fields[i - 1].htype.Required? then {i - 1} else {};
      assert RequiredAhead(fields, i) == RequiredAhead(fields, i - 1) + more;
    }
  }

  lemma {:induction false} MarkedGiven(fields: seq<Field>, xs: seq<Item>, i: nat)
    requires i < |fields| && fields[i].htype.Required?
    ensures i in AllMarks(fields, xs) <==> exists k :: 0 <= k < |xs| && xs[k].tag == fields[i].tag
  {
    if xs != [] {
      MarkedGiven(fields, xs[1..], i);
      if k :| 0 <= k < |xs| && xs[k].tag == fields[i].tag { assert k > 0 ==> xs[1..][k - 1] == xs[k]; }
    }
  }

  lemma SeenIsGiven(fields: seq<Field>, xs: seq<Item>)
    ensures RequiredSeen(fields, AllMarks(fields, xs)) <==> RequiredGiven(fields, xs)
  {
    forall i: nat | i < |fields| && fields[i].htype.Required?
      ensures |RequiredAhead(fields, i)| == RequiredBefore(fields, i)
      ensures i in AllMarks(fields, xs) <==> exists k :: 0 <= k < |xs| && xs[k].tag == fields[i].tag
    {
      AheadCount(fields, i);
      MarkedGiven(fields, xs, i);
    }
  }

  /**
  pb_decode_noinit of any sequence of fields, known or not, in any order and any number: it uses all of it and gives
  their meaning, exactly if each fits what is there, and every required entry is given.
  */
  lemma DecodesFields(fields: seq<Field>, xs: seq<Item>, st: Struct)
    requires Wf(fields) && Shaped(fields, st) && AllProper(fields, xs)
    ensures var r := Meaning(fields, xs, st);
            DecNoInit(fields, AllBytes(xs), st)
            == if r.Some? && RequiredGiven(fields, xs) then Got(r.value, []) else Fail
  {
    hide DecLoop, Meaning, RequiredSeen, RequiredGiven, Wf, Shaped, AllMarks;
    LoopDecodes(fields, xs, st, {});
    SeenIsGiven(fields, xs);
    assert {} + AllMarks(fields, xs) == AllMarks(fields, xs);
  }

  // ---------------------------------------------------------------- what the encoder writes

  lemma {:induction false} JoinBytes(xs: seq<Item>, ys: seq<Item>)
    ensures AllBytes(xs + ys) == AllBytes(xs) + AllBytes(ys)
  {
    hide Item.Bytes;
    if xs == [] {
      assert xs + ys == ys;
    } else {
      assert (xs + ys)[1..] == xs[1..] + ys;
      JoinBytes(xs[1..], ys);
    }
  }

  lemma OneItem(x: Item)
    ensures AllBytes([x]) == x.Bytes()
  {
    assert AllBytes([x][1..]) == [];
  }

  /** Fields of entry `i`. */
  ghost predicate OfEntry(fields: seq<Field>, i: nat, xs: seq<Item>)
    requires i < |fields|
  {
    AllProper(fields, xs) && forall k :: 0 <= k < |xs| ==> xs[k].tag == fields[i].tag
  }

  function ItemOf(f: Field, v: Value): Item
    requires EncValue(f, v).Some?
  {
    Plain(f.tag, PayloadOf(f, v))
  }

  lemma KindWritten(f: Field, v: Value)
    requires EncValue(f, v).Some? && FitsValue(f, v)
    ensures PayloadOf(f, v).Valid() && PayloadOf(f, v).Code() == KindOf(f.ltype)
  {
    hide EncFrom, EncVarint, EncFixed, FitsFrom;
  }

  /** A value behind its tag is one proper field. */
  lemma ValueWritten(fields: seq<Field>, i: nat, v: Value)
    requires Wf(fields) && i < |fields| && EncValue(fields[i], v).Some? && FitsValue(fields[i], v)
    ensures FieldTag(fields[i]) + EncValue(fields[i], v).value == ItemOf(fields[i], v).Bytes()
    ensures Proper(fields, ItemOf(fields[i], v))
  {
    hide EncValue, FieldTag, Key, PayloadOf, Payload.Bytes, Payload.Valid;
    WfAt(fields, 0, i);
    WritesPayload(fields[i], v);
    KindWritten(fields[i], v);
    OnlyEntry(fields, i);
  }

  lemma OnlyEntry(fields: seq<Field>, i: nat)
    requires Wf(fields) && i < |fields|
    ensures forall j :: 0 <= j < |fields| && fields[j].tag == fields[i].tag ==> j == i
  {
  }

  lemma {:induction false} ItemsWritten(fields: seq<Field>, i: nat, items: seq<Value>) returns (xs: seq<Item>)
    requires Wf(fields) && i < |fields| && FitsItems(fields[i], items)
    requires EncItems(fields[i], items, FieldTag(fields[i])).Some?
    ensures |xs| == |items| && OfEntry(fields, i, xs)
    ensures EncItems(fields[i], items, FieldTag(fields[i])).value == AllBytes(xs)
    decreases items
  {
    hide EncValue, FieldTag, Proper, FitsValue, PayloadOf, Item.Bytes, Wf;
    if items == [] {
      xs := [];
    } else {
      var rest := ItemsWritten(fields, i, items[1..]);
      ValueWritten(fields, i, items[0]);
      xs := [ItemOf(fields[i], items[0])] + rest;
      assert xs[1..] == rest;
    }
  }

  lemma {:induction false} PackedWritten(f: Field, items: seq<Value>) returns (ps: seq<Payload>)
    requires f.ltype.Packable() && EncItems(f, items, []).Some?
    ensures |ps| == |items| && AllOf(f, ps) && EncItems(f, items, []).value == Concat(ps)
    ensures forall k :: 0 <= k < |ps| ==> EncValue(f, items[k]).Some? && ps[k] == PayloadOf(f, items[k])
    decreases items
  {
    hide EncValue, PayloadOf, Payload.Bytes, Payload.Valid, Payload.Code, FitsValue;
    if items == [] {
      ps := [];
    } else {
      var rest := PackedWritten(f, items[1..]);
      WritesPayload(f, items[0]);
      NumbersFit(f, items[0]);
      KindWritten(f, items[0]);
      ps := [PayloadOf(f, items[0])] + rest;
      assert ps[1..] == rest;
      assert [] + EncValue(f, items[0]).value == EncValue(f, items[0]).value;
    }
  }

  lemma NumbersFit(f: Field, v: Value)
    requires f.ltype.Packable() && EncValue(f, v).Some?
    ensures FitsValue(f, v)
  {
  }

  /** What is written for an entry is a sequence of proper fields with its tag. */
  lemma CellWritten(fields: seq<Field>, i: nat, cell: Cell, unions: seq<Union>) returns (xs: seq<Item>)
    requires Wf(fields) && i < |fields| && FitsCell(fields[i], cell, unions)
    requires EncCell(fields[i], cell, unions).Some?
    ensures OfEntry(fields, i, xs) && EncCell(fields[i], cell, unions).value == AllBytes(xs)
  {
    hide EncValue, FieldTag, FitsValue, Proper, PayloadOf, Item.Bytes, Wf, EncArray, FitsArray, IsZero, FitsItems;
    var f := fields[i];
    if EncCell(f, cell, unions) == Some([]) {
      xs := [];
    } else if f.htype.Repeated? {
      xs := ArrayWritten(fields, i, cell.items);
    } else {
      var v := if f.htype.Oneof? then unions[f.htype.group].value.value else cell.v;
      ValueWritten(fields, i, v);
      xs := [ItemOf(f, v)];
      OneItem(xs[0]);
    }
  }

  lemma ArrayWritten(fields: seq<Field>, i: nat, items: seq<Value>) returns (xs: seq<Item>)
    requires Wf(fields) && i < |fields| && fields[i].htype.Repeated? && FitsArray(fields[i], items)
    requires EncArray(fields[i], items).Some?
    ensures OfEntry(fields, i, xs) && EncArray(fields[i], items).value == AllBytes(xs)
  {
    hide EncItems, FitsItems, EncVarint, AllOf, Concat;
    var f := fields[i];
    WfAt(fields, 0, i);
    if items == [] {
      xs := [];
    } else if f.ltype.Packable() {
      var ps := PackedWritten(f, items);
      xs := [Packed(f.tag, ps)];
      OneItem(xs[0]);
    } else {
      xs := ItemsWritten(fields, i, items);
    }
  }

  /**
  Everything that pb_encode writes is a sequence of fields of the wire format, each with the tag of an entry and of
  the kind that the entry has.
  */
  lemma {:induction false} WritesFields(fields: seq<Field>, st: Struct, i: nat) returns (xs: seq<Item>)
    requires Wf(fields) && i <= |fields| && EncFrom(fields, st, i).Some? && FitsFrom(fields, st, i)
    ensures AllProper(fields, xs) && EncFrom(fields, st, i).value == AllBytes(xs)
    ensures forall k :: 0 <= k < |xs| ==> HasTag(fields, xs[k].tag)
    decreases |fields| - i
  {
    hide EncCell, FitsCell, Proper, Wf, Item.Bytes;
    if i == |fields| {
      xs := [];
    } else {
      var first := CellWritten(fields, i, st.cells[i], st.unions);
      var rest := WritesFields(fields, st, i + 1);
      JoinBytes(first, rest);
      xs := first + rest;
    }
  }

  /** So a reader that knows none of the tags takes it for a message without any of its fields. */
  lemma StrangersIgnore(fields: seq<Field>, st: Struct, other: seq<Field>, into: Struct)
    requires Wf(fields) && EncFrom(fields, st, 0).Some? && FitsFrom(fields, st, 0)
    requires Wf(other) && Shaped(other, into) && forall i :: 0 <= i < |fields| ==> !HasTag(other, fields[i].tag)
    ensures DecNoInit(other, EncFrom(fields, st, 0).value, into) == DecNoInit(other, [], into)
  {
    hide EncFrom, FitsFrom, DecNoInit, Meaning, Wf, Shaped, MeaningOf;
    var xs := WritesFields(fields, st, 0);
    forall k | 0 <= k < |xs| ensures Proper(other, xs[k]) && !HasTag(other, xs[k].tag) {
      assert Proper(fields, xs[k]) && HasTag(fields, xs[k].tag);
      StillProper(fields, other, xs[k]);
    }
    NoneKnown(other, xs, into);
    NoneKnown(other, [], into);
    DecodesFields(other, xs, into);
    DecodesFields(other, [], into);
    assert AllBytes([]) == [];
  }

  lemma StillProper(fields: seq<Field>, other: seq<Field>, x: Item)
    requires Proper(fields, x) && HasTag(fields, x.tag) && !HasTag(other, x.tag)
    ensures Proper(other, x)
  {
  }

  lemma {:induction false} NoneKnown(fields: seq<Field>, xs: seq<Item>, st: Struct)
    requires Wf(fields) && Shaped(fields, st) && AllProper(fields, xs)
    requires forall k :: 0 <= k < |xs| ==> !HasTag(fields, xs[k].tag)
    ensures Meaning(fields, xs, st) == Some(st) && (RequiredGiven(fields, xs) <==> RequiredGiven(fields, []))
    decreases xs
  {
    hide Proper, Wf, Shaped;
    if xs != [] {
      assert Find(fields, xs[0].tag, 0).None?;
      NoneKnown(fields, xs[1..], st);
    }
  }

  // ---------------------------------------------------------------- what proto3 leaves out

  /** A number, string or bytes field without has_ flag is left out exactly if it is zero or empty. */
  lemma ScalarLeftOut(f: Field, v: Value, unions: seq<Union>)
    requires f.htype.Singular? && EncValue(f, v).Some? && !f.ltype.LSubmessage?
    ensures IsZero(f, One(v), unions) <==>
              match v
              case Num(n) => n == 0
              case Text(t) => CString(t) == []
              case Blob(b) => b == []
              case Msg(_) => false
  {
    hide EncVarint, EncFixed;
  }

  /** A oneof that is in use holds one of its own fields. */
  ghost predicate OwnFields(fields: seq<Field>, unions: seq<Union>) {
    forall i :: 0 <= i < |fields| && fields[i].htype.Oneof? && fields[i].htype.group < |unions| ==>
      || unions[fields[i].htype.group].which == 0
      || exists j :: 0 <= j < |fields| && fields[j].htype == fields[i].htype
                     && fields[j].tag == unions[fields[i].htype.group].which
  }

  lemma CatEmpty(a: Option<seq<byte>>, b: Option<seq<byte>>)
    ensures Cat(a, b) == Some([]) <==> a == Some([]) && b == Some([])
  {
    if a.Some? && b.Some? { assert |a.value + b.value| == |a.value| + |b.value|; }
  }

  lemma {:induction false} AllCells(fields: seq<Field>, st: Struct, i: nat)
    requires i <= |fields| == |st.cells|
    ensures AllZero(fields, st, i) <==> forall k :: i <= k < |fields| ==> IsZero(fields[k], st.cells[k], st.unions)
    ensures EncFrom(fields, st, i) == Some([]) <==>
              forall k :: i <= k < |fields| ==> EncCell(fields[k], st.cells[k], st.unions) == Some([])
    decreases |fields| - i
  {
    hide IsZero, EncCell, Cat;
    if i < |fields| {
      AllCells(fields, st, i + 1);
      CatEmpty(EncCell(fields[i], st.cells[i], st.unions), EncFrom(fields, st, i + 1));
    }
  }

  /** Outside of a oneof, an entry that is zero is one that writes nothing. */
  lemma ZeroCell(fields: seq<Field>, i: nat, st: Struct)
    requires i < |fields| && i < |st.cells| && ShapedCell(fields, fields[i].htype, st.cells[i], st.unions)
    requires fields[i].tag > 0
    ensures var f := fields[i];
            IsZero(f, st.cells[i], st.unions) <==>
              if f.htype.Oneof? then st.unions[f.htype.group].which == 0
              else EncCell(f, st.cells[i], st.unions) == Some([])
  {
    hide EncValue, EncItems, AllZero, Cat, FieldTag, EncVarint;
    var f, cell := fields[i], st.cells[i];
    TagNotEmpty(f);
    if f.htype.Repeated? {
      if cell.items != [] { ArrayNotEmpty(f, cell.items); }
    } else if !f.htype.Oneof? {
      CatEmpty(Some(FieldTag(f)), EncValue(f, cell.v));
    }
  }

  lemma TagNotEmpty(f: Field)
    ensures FieldTag(f) != []
  {
  }

  lemma ArrayNotEmpty(f: Field, items: seq<Value>)
    requires items != []
    ensures EncArray(f, items) != Some([])
  {
    hide EncValue, FieldTag, Cat, EncItems;
    TagNotEmpty(f);
    KeyNotEmpty(f.tag, 2);
    ItemsNotEmpty(f, items);
  }

  lemma ItemsNotEmpty(f: Field, items: seq<Value>)
    requires items != []
    ensures EncItems(f, items, FieldTag(f)) != Some([])
  {
    hide EncValue, FieldTag, Cat;
    TagNotEmpty(f);
    var first := Cat(Some(FieldTag(f)), EncValue(f, items[0]));
    CatEmpty(Some(FieldTag(f)), EncValue(f, items[0]));
    CatEmpty(first, EncItems(f, items[1..], FieldTag(f)));
  }

  /** A submessage is left out exactly if nothing would be written for any of its entries. */
  lemma MessageLeftOut(f: Field, st: Struct, unions: seq<Union>)
    requires f.htype.Singular? && Wf(f.sub) && Shaped(f.sub, st) && OwnFields(f.sub, st.unions)
    ensures IsZero(f, One(Msg(st)), unions) <==> EncFrom(f.sub, st, 0) == Some([])
  {
    hide EncFrom, IsZero, EncValue, FieldTag;
    var fields := f.sub;
    AllCells(fields, st, 0);
    forall k | 0 <= k < |fields|
      ensures ShapedCell(fields, fields[k].htype, st.cells[k], st.unions) && fields[k].tag > 0
    {
      WfAt(fields, 0, k);
      ZeroCell(fields, k, st);
    }
    SingularMessage(f, st, unions);
    if EncFrom(fields, st, 0) == Some([]) {
      forall k | 0 <= k < |fields| ensures IsZero(fields[k], st.cells[k], st.unions) {
        ZeroCell(fields, k, st);
        if fields[k].htype.Oneof? && st.unions[fields[k].htype.group].which != 0 {
          var j :| 0 <= j < |fields| && fields[j].htype == fields[k].htype
                   && fields[j].tag == st.unions[fields[k].htype.group].which;
          WritesSomething(fields[j], st.cells[j], st.unions);
          assert false;
        }
      }
    } else if AllZero(fields, st, 0) {
      forall k | 0 <= k < |fields| ensures EncCell(fields[k], st.cells[k], st.unions) == Some([]) {
        ZeroCell(fields, k, st);
        WfAt(fields, 0, k);
      }
    }
  }

  lemma SingularMessage(f: Field, st: Struct, unions: seq<Union>)
    requires f.htype.Singular?
    ensures IsZero(f, One(Msg(st)), unions) <==> AllZero(f.sub, st, 0)
  {
  }

  lemma WritesSomething(f: Field, cell: Cell, unions: seq<Union>)
    requires f.htype.Oneof? && f.htype.group < |unions| && unions[f.htype.group].which == f.tag
    ensures EncCell(f, cell, unions) != Some([])
  {
    hide EncValue, FieldTag, Cat;
    TagNotEmpty(f);
    if unions[f.htype.group].value.Some? {
      CatEmpty(Some(FieldTag(f)), EncValue(f, unions[f.htype.group].value.value));
    }
  }

  /** What is left out comes back as well: the default that is there is the value, if it has no other default. */
  lemma LeftOutComesBack(f: Field, v: Value, unions: seq<Union>)
    requires f.htype.Singular? && f.default.None? && EncValue(f, v).Some? && Wf(f.sub)
    requires IsZero(f, One(v), unions)
    ensures NormValue(f, v) == DefaultValue(f)
  {
    hide EncVarint, EncFixed, EncFrom, AllZero;
    if v.Msg? {
      ZeroNorm(f.sub, v.st, |f.sub|);
    } else if f.ltype.LFixedBytes? {
      assert Zeros(0) == [];
    }
  }

  lemma {:induction false} AllZeroAt(fields: seq<Field>, st: Struct, i: nat, k: nat)
    requires AllZero(fields, st, i) && i <= k < |fields|
    ensures k < |st.cells| && IsZero(fields[k], st.cells[k], st.unions)
    decreases k - i
  {
    hide IsZero;
    if i < k { AllZeroAt(fields, st, i + 1, k); }
  }

  lemma {:induction false} ZeroNorm(fields: seq<Field>, st: Struct, n: nat)
    requires Wf(fields) && AllZero(fields, st, 0) && n <= |fields|
    ensures NormUpTo(fields, st, n) == DefaultStruct(fields)
    decreases n
  {
    hide DefaultStruct, NormValue, NormItems, AllZero;
    if n > 0 {
      ZeroNorm(fields, st, n - 1);
      AllZeroAt(fields, st, 0, n - 1);
      WfAt(fields, 0, n - 1);
    }
  }

  /** The round trip gives back every single proto3 entry, written or left out. */
  lemma SingularComesBack(fields: seq<Field>, st: Struct, i: nat)
    requires Wf(fields) && i < |fields| && EncFrom(fields, st, 0).Some?
    requires fields[i].htype.Singular? && fields[i].default.None?
    requires i < |st.cells| && st.cells[i].One? && EncValue(fields[i], st.cells[i].v).Some?
    ensures var back := NormStruct(fields, st);
            i < |back.cells| && back.cells[i] == One(NormValue(fields[i], st.cells[i].v))
  {
    hide NormValue, DefaultValue, EncFrom, IsZero, Wf;
    RestoresPresent(fields, st, i);
    WfSub(fields, i);
    if IsZero(fields[i], st.cells[i], st.unions) { LeftOutComesBack(fields[i], st.cells[i].v, st.unions); }
  }

  lemma WfSub(fields: seq<Field>, i: nat)
    requires Wf(fields) && i < |fields|
    ensures Wf(fields[i].sub)
  {
    WfAt(fields, 0, i);
  }

  // ---------------------------------------------------------------- defaults

  /** The value an entry starts with. */
  ghost predicate StartsWith(f: Field, v: Value) {
    match f.ltype
    case LSubmessage => v == Msg(DefaultStruct(f.sub))
    case LBytes => v == if f.default.Some? then f.default.value else Blob([])
    case LString => v == if f.default.Some? then f.default.value else Text([])
    case LFixedBytes => v == if f.default.Some? then f.default.value else Blob(Zeros(f.dataSize))
    case _ => v == if f.default.Some? then f.default.value else Num(0)
  }

  ghost predicate Fresh(fields: seq<Field>, st: Struct) {
    && |st.cells| == |fields|
    && (forall g :: 0 <= g < |st.unions| ==> st.unions[g] == Union(0, None))
    && forall i :: 0 <= i < |fields| ==>
         match fields[i].htype
         case Required => st.cells[i].One? && StartsWith(fields[i], st.cells[i].v)
         case Singular => st.cells[i].One? && StartsWith(fields[i], st.cells[i].v)
         case Optional => st.cells[i].Maybe? && !st.cells[i].has && StartsWith(fields[i], st.cells[i].v)
         case Repeated => st.cells[i] == Many([])
         case Oneof(g) => st.cells[i] == InUnion && g < |st.unions|
  }

  lemma DefaultsFresh(fields: seq<Field>)
    ensures Fresh(fields, DefaultStruct(fields))
  {
    hide DefaultCell;
    DefaultShape(fields, 0);
    forall i | 0 <= i < |fields| ensures DefaultStruct(fields).cells[i] == DefaultCell(fields[i]) {}
    forall i | 0 <= i < |fields| && fields[i].htype.Oneof? ensures fields[i].htype.group < GroupCount(fields) {
      GroupBound(fields, i);
    }
    forall i | 0 <= i < |fields| ensures FreshEntry(fields[i]) { EntryFresh(fields[i]); }
  }

  ghost predicate FreshEntry(f: Field) {
    match f.htype
    case Required => DefaultCell(f).One? && StartsWith(f, DefaultCell(f).v)
    case Singular => DefaultCell(f).One? && StartsWith(f, DefaultCell(f).v)
    case Optional => DefaultCell(f).Maybe? && !DefaultCell(f).has && StartsWith(f, DefaultCell(f).v)
    case Repeated => DefaultCell(f) == Many([])
    case Oneof(_) => DefaultCell(f) == InUnion
  }

  lemma EntryFresh(f: Field)
    ensures FreshEntry(f)
  {
  }

  lemma FreshShaped(fields: seq<Field>, st: Struct)
    requires Fresh(fields, st)
    ensures Shaped(fields, st)
  {
    forall i | 0 <= i < |fields| ensures ShapedCell(fields, fields[i].htype, st.cells[i], st.unions) {}
  }

  /** pb_decode: the fields, one after the other, over the defaults. */
  lemma DecodesMessage(fields: seq<Field>, xs: seq<Item>) returns (st: Struct)
    requires Wf(fields) && AllProper(fields, xs)
    ensures Fresh(fields, st) && Shaped(fields, st)
    ensures var r := Meaning(fields, xs, st);
            Decode(fields, AllBytes(xs)) == if r.Some? && RequiredGiven(fields, xs) then Got(r.value, []) else Fail
  {
    hide DecNoInit, Meaning, Shaped, Fresh, RequiredGiven;
    st := DefaultStruct(fields);
    DefaultsFresh(fields);
    FreshShaped(fields, st);
    DecodesFields(fields, xs, st);
  }
}
