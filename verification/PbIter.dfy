/**
The field iterator of nanopb: it walks a descriptor in a circle, keeping the place of the current field in
the struct and the number of required fields passed.  However it got where it is, these agree with one
walk from the first field.
*/
module PbIter {
  import opened PbMessage

  /** PB_SIZE_MAX of a 32-bit pb_size_t: the data offset of the later members of a union. */
  const SIZE_MAX := 0xffff_ffff
  const POINTER_SIZE := 8

  /** The tag at position `i`; the terminator behind the last field has tag 0. */
  function TagAt(fields: seq<Field>, i: nat): nat {
    if i < |fields| then fields[i].tag else 0
  }

  predicate SharesUnion(prev: Field, next: Field) {
    prev.htype.Oneof? && next.htype.Oneof? && next.layout.dataOffset == SIZE_MAX
  }

  /** What a field takes in the struct. */
  function Stride(f: Field): nat {
    if f.layout.atype.Static? && f.htype.Repeated? then f.dataSize * f.arraySize
    else if f.layout.atype.Pointer? then POINTER_SIZE
    else f.dataSize
  }

  /** Where the data of field `i` starts: offsets are relative to the end of the field before. */
  function DataAt(fields: seq<Field>, i: nat): nat
    requires i < |fields| || i == 0
  {
    if i >= |fields| then 0
    else if i == 0 then fields[0].layout.dataOffset
    else if SharesUnion(fields[i - 1], fields[i]) then DataAt(fields, i - 1)
    else DataAt(fields, i - 1) + Stride(fields[i - 1]) + fields[i].layout.dataOffset
  }

  /** Where its has_ flag, count or which_ tag is; the members of a union have one which_ tag. */
  function SizeAt(fields: seq<Field>, i: nat): int
    requires i < |fields| || i == 0
  {
    if i >= |fields| then 0
    else if i > 0 && SharesUnion(fields[i - 1], fields[i]) then SizeAt(fields, i - 1)
    else DataAt(fields, i) + fields[i].layout.sizeOffset
  }

  ghost predicate HasField(fields: seq<Field>, tag: nat) {
    HasTag(fields, tag) || (fields == [] && tag == 0)
  }

  /** Position `i` of the circle, `k` steps on. */
  function Around(i: nat, k: nat, n: nat): nat {
    if i + k < n then i + k else i + k - n
  }

  class FieldIter {
    const fields: seq<Field>
    var pos: nat
    var requiredIndex: nat
    var data: nat
    var size: int

    /** Everything the iterator keeps is what a walk from the first field to `pos` gives. */
    ghost predicate Valid()
      reads this
    {
      && (forall i :: 0 <= i < |fields| ==> fields[i].tag != 0)
      && (pos < |fields| || (fields == [] && pos == 0))
      && requiredIndex == RequiredBefore(fields, pos)
      && data == DataAt(fields, pos)
      && size == SizeAt(fields, pos)
    }

    constructor (fields: seq<Field>)
      requires forall i :: 0 <= i < |fields| ==> fields[i].tag != 0
      ensures Valid() && this.fields == fields && pos == 0
    {
      this.fields := fields;
      pos := 0;
      requiredIndex := 0;
      data := if fields == [] then 0 else fields[0].layout.dataOffset;
      size := if fields == [] then 0 else fields[0].layout.dataOffset + fields[0].layout.sizeOffset;
    }

    /** pb_field_iter_begin */
    method Begin() returns (nonEmpty: bool)
      requires forall i :: 0 <= i < |fields| ==> fields[i].tag != 0
      modifies this
      ensures Valid() && pos == 0
      ensures nonEmpty <==> fields != []
    {
      pos := 0;
      requiredIndex := 0;
      data := if fields == [] then 0 else fields[0].layout.dataOffset;
      size := if fields == [] then 0 else data + fields[0].layout.sizeOffset;
      nonEmpty := TagAt(fields, pos) != 0;
    }

    /** pb_field_iter_next */
    method Next() returns (more: bool)
      requires Valid()
      modifies this
      ensures Valid()
      ensures more <==> old(pos) + 1 < |fields|
      ensures pos == if more then old(pos) + 1 else 0
    {
      if TagAt(fields, pos) == 0 { return false; }
      var prev := fields[pos];
      pos := pos + 1;
      if TagAt(fields, pos) == 0 {
        var _ := Begin();
        return false;
      }
      if SharesUnion(prev, fields[pos]) { return true; }
      if prev.htype.Required? { requiredIndex := requiredIndex + 1; }
      data := data + Stride(prev) + fields[pos].layout.dataOffset;
      size := data + fields[pos].layout.sizeOffset;
      return true;
    }

    /**
    pb_field_iter_find: from any position it finds a tag exactly when the descriptor has it, and it comes
    back to where it was when the descriptor does not.
    */
    method Find(tag: nat) returns (found: bool)
      requires Valid()
      modifies this
      ensures Valid()
      ensures found <==> HasField(fields, tag)
      ensures found ==> TagAt(fields, pos) == tag
      ensures !found ==> pos == old(pos)
    {
      var start := pos;
      ghost var n, k := |fields|, 0;
      while true
        invariant Valid()
        invariant k == 0 || k < n
        invariant pos == Around(start, k, n)
        invariant forall j :: 0 <= j < k ==> TagAt(fields, Around(start, j, n)) != tag
        decreases n - k
      {
        if TagAt(fields, pos) == tag { return true; }
        var _ := Next();
        k := k + 1;
        if pos == start { break; }
      }
      if HasTag(fields, tag) {
        ghost var i :| 0 <= i < n && fields[i].tag == tag;
        assert k == n;
        assert Around(start, if i >= start then i - start else i + n - start, n) == i;
      }
      return false;
    }
  }
}
