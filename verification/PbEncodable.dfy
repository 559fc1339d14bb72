/** What pb_encode can write: exactly the structs whose entries hold values that their fields can carry. */
module PbEncodable {
  import opened Wire
  import opened PbWire
  import opened PbMessage
  import opened PbFormat

  /** A field can carry the value. */
  ghost predicate Carries(f: Field, v: Value)
    decreases f, 0
  {
    match f.ltype
    case LUvarint => v.Num? && OfSize(f.dataSize) && 0 <= v.n < Pow256(f.dataSize)
    case LFixed32 => v.Num? && 0 <= v.n < 0x1_0000_0000
    case LFixed64 => v.Num? && 0 <= v.n < 0x1_0000_0000_0000_0000
    case LBytes => v.Blob? && |v.bytes| + 4 <= f.dataSize
    case LString => v.Text? && |v.chars| <= f.dataSize
    case LFixedBytes => v.Blob? && |v.bytes| == f.dataSize
    case LSubmessage => v.Msg? && AllCarried(f.sub, v.st, 0)
    case _ => v.Num? && OfSize(f.dataSize) && 2 * v.n < Pow256(f.dataSize) && -2 * v.n <= Pow256(f.dataSize)
  }

  predicate OfSize(size: nat) {
    size == 1 || size == 2 || size == 4 || size == 8
  }

  /** An entry can be written: it is absent, or its values can be carried and an array has no more than its room. */
  ghost predicate Carried(f: Field, cell: Cell, unions: seq<Union>)
    decreases f, 1
  {
    match f.htype
    case Required => cell.One? && Carries(f, cell.v)
    case Optional => cell.Maybe? && (cell.has ==> Carries(f, cell.v))
    case Singular => cell.One? && (IsZero(f, cell, unions) || Carries(f, cell.v))
    case Repeated =>
      cell.Many? && |cell.items| <= f.arraySize && forall k :: 0 <= k < |cell.items| ==> Carries(f, cell.items[k])
    case Oneof(g) =>
      g < |unions| && (unions[g].which == f.tag ==> unions[g].value.Some? && Carries(f, unions[g].value.value))
  }

  ghost predicate AllCarried(fields: seq<Field>, st: Struct, i: nat)
    decreases fields, |fields| - i
  {
    i >= |fields| || (i < |st.cells| && Carried(fields[i], st.cells[i], st.unions) && AllCarried(fields, st, i + 1))
  }

  lemma Powers(size: nat)
    requires OfSize(size)
    ensures Pow256(size) == Limit(size) && Limit(size) % 2 == 0
  {
    assert Pow256(1) == 0x100 && Pow256(2) == 0x1_0000 && Pow256(3) == 0x100_0000 && Pow256(4) == 0x1_0000_0000;
    assert Pow256(5) == 0x100_0000_0000 && Pow256(6) == 0x1_0000_0000_0000 && Pow256(7) == 0x100_0000_0000_0000;
  }

  lemma {:induction false} ValueEncodable(f: Field, v: Value)
    ensures EncValue(f, v).Some? <==> Carries(f, v)
    decreases f, 0
  {
    hide EncFrom, EncVarint, EncFixed, Pow256, Limit, AllCarried;
    if OfSize(f.dataSize) { Powers(f.dataSize); }
    if f.ltype.LSubmessage? && v.Msg? { StructEncodable(f.sub, v.st, 0); }
  }

  lemma {:induction false} ItemsEncodable(f: Field, items: seq<Value>, prefix: seq<byte>)
    ensures EncItems(f, items, prefix).Some? <==> forall k :: 0 <= k < |items| ==> Carries(f, items[k])
    decreases f, 1, |items|
  {
    hide EncValue, Carries;
    if items != [] {
      ValueEncodable(f, items[0]);
      ItemsEncodable(f, items[1..], prefix);
      assert forall k :: 1 <= k < |items| ==> items[k] == items[1..][k - 1];
    }
  }

  lemma {:induction false} CellEncodable(f: Field, cell: Cell, unions: seq<Union>)
    ensures EncCell(f, cell, unions).Some? <==> Carried(f, cell, unions)
    decreases f, 2
  {
    hide EncValue, EncItems, Carries, IsZero, FieldTag;
    match f.htype
    case Repeated =>
      if cell.Many? {
        ItemsEncodable(f, cell.items, []);
        ItemsEncodable(f, cell.items, FieldTag(f));
      }
    case Oneof(g) =>
      if g < |unions| && unions[g].value.Some? { ValueEncodable(f, unions[g].value.value); }
    case _ =>
      if cell.One? || cell.Maybe? { ValueEncodable(f, cell.v); }
  }

  /** pb_encode succeeds exactly if every entry can be written. */
  lemma {:induction false} StructEncodable(fields: seq<Field>, st: Struct, i: nat)
    ensures EncFrom(fields, st, i).Some? <==> AllCarried(fields, st, i)
    decreases fields, |fields| - i
  {
    hide EncCell, Carried;
    if i < |fields| {
      if i < |st.cells| { CellEncodable(fields[i], st.cells[i], st.unions); }
      StructEncodable(fields, st, i + 1);
    }
  }
}
