/**
pb_decode undoes pb_encode: for every well-formed descriptor and every struct that can be encoded, the
decoder reads the whole output and restores every present field, at every depth of nesting, exactly when
every encoded string leaves room for its terminator.
*/
module PbRoundTrip {
  import opened Wire
  import opened PbWire
  import opened PbMessage

  // ---------------------------------------------------------------- what comes back

  /** A value after the trip: strings end at their first zero byte, submessages are normalised. */
  function NormValue(f: Field, v: Value): Value
    decreases f, 0
  {
    match v
    case Text(t) => Text(CString(t))
    case Msg(st) => Msg(NormStruct(f.sub, st))
    case _ => v
  }

  function NormItems(f: Field, items: seq<Value>): (r: seq<Value>)
    ensures |r| == |items|
    decreases f, 1, |items|
  {
    if items == [] then [] else [NormValue(f, items[0])] + NormItems(f, items[1..])
  }

  /** A decoded value stored for entry `i`, which is not repeated. */
  function Put(fields: seq<Field>, i: nat, v: Value, cur: Struct): Struct
    requires i < |fields|
  {
    match fields[i].htype
    case Oneof(g) =>
      if g < |cur.unions| then cur.(unions := cur.unions[g := Union(fields[i].tag, Some(v))]) else cur
    case Optional => if i < |cur.cells| then cur.(cells := cur.cells[i := Maybe(true, v)]) else cur
    case _ => if i < |cur.cells| then cur.(cells := cur.cells[i := One(v)]) else cur
  }

  /** Entry `i` of `st` written over `cur`; absent fields leave the default that is there. */
  function NormCell(fields: seq<Field>, st: Struct, i: nat, cur: Struct): Struct
    requires i < |fields|
    decreases fields, 0
  {
    var f := fields[i];
    if i >= |st.cells| || i >= |cur.cells| then cur
    else
      var cell := st.cells[i];
      match f.htype
      case Required => if cell.One? then Put(fields, i, NormValue(f, cell.v), cur) else cur
      case Optional => if cell.Maybe? && cell.has then Put(fields, i, NormValue(f, cell.v), cur) else cur
      case Singular =>
        if cell.One? && !IsZero(f, cell, st.unions) then Put(fields, i, NormValue(f, cell.v), cur) else cur
      case Repeated =>
        if cell.Many? && cell.items != [] then cur.(cells := cur.cells[i := Many(NormItems(f, cell.items))]) else cur
      case Oneof(g) =>
        if g < |st.unions| && st.unions[g].which == f.tag && st.unions[g].value.Some?
        then Put(fields, i, NormValue(f, st.unions[g].value.value), cur)
        else cur
  }

  function NormUpTo(fields: seq<Field>, st: Struct, n: nat): Struct
    requires n <= |fields|
    decreases fields, 1, n
  {
    if n == 0 then DefaultStruct(fields) else NormCell(fields, st, n - 1, NormUpTo(fields, st, n - 1))
  }

  /** The struct with every present field, and the default everywhere else. */
  function NormStruct(fields: seq<Field>, st: Struct): Struct
    decreases fields, 2
  {
    NormUpTo(fields, st, |fields|)
  }

  // ---------------------------------------------------------------- strings with a terminator

  predicate TermValue(f: Field, v: Value)
    decreases f, 0
  {
    match v
    case Text(t) => |CString(t)| < f.dataSize
    case Msg(st) => TermFrom(f.sub, st, 0)
    case _ => true
  }

  predicate TermItems(f: Field, items: seq<Value>)
    decreases f, 1, |items|
  {
    items == [] || (TermValue(f, items[0]) && TermItems(f, items[1..]))
  }

  /** Every string that is encoded for this entry fits its buffer together with its terminator. */
  predicate TermCell(f: Field, cell: Cell, unions: seq<Union>)
    decreases f, 2
  {
    match f.htype
    case Required => cell.One? ==> TermValue(f, cell.v)
    case Optional => cell.Maybe? && cell.has ==> TermValue(f, cell.v)
    case Singular => cell.One? && !IsZero(f, cell, unions) ==> TermValue(f, cell.v)
    case Repeated => cell.Many? ==> TermItems(f, cell.items)
    case Oneof(g) =>
      g < |unions| && unions[g].which == f.tag && unions[g].value.Some? ==> TermValue(f, unions[g].value.value)
  }

  predicate TermFrom(fields: seq<Field>, st: Struct, i: nat)
    decreases fields, |fields| - i
  {
    i >= |fields| || (i < |st.cells| ==> TermCell(fields[i], st.cells[i], st.unions) && TermFrom(fields, st, i + 1))
  }

  // ---------------------------------------------------------------- lengths that a prefix can hold

  /** What is written behind a length prefix. */
  function Prefixed(f: Field, v: Value): Option<seq<byte>> {
    match v
    case Blob(b) => Some(b)
    case Text(t) => Some(CString(t))
    case Msg(st) => EncFrom(f.sub, st, 0)
    case Num(_) => None
  }

  predicate Short(payload: Option<seq<byte>>) {
    payload.Some? ==> |payload.value| < TWO32
  }

  predicate FitsValue(f: Field, v: Value)
    decreases f, 0
  {
    Short(Prefixed(f, v)) && (v.Msg? ==> FitsFrom(f.sub, v.st, 0))
  }

  predicate FitsItems(f: Field, items: seq<Value>)
    decreases f, 1, |items|
  {
    items == [] || (FitsValue(f, items[0]) && FitsItems(f, items[1..]))
  }

  predicate FitsArray(f: Field, items: seq<Value>)
    decreases f, 2
  {
    if f.ltype.Packable() then Short(EncItems(f, items, [])) else FitsItems(f, items)
  }

  /** Every length prefix that is written for this entry fits 32 bits. */
  predicate FitsCell(f: Field, cell: Cell, unions: seq<Union>)
    decreases f, 3
  {
    match f.htype
    case Required => cell.One? ==> FitsValue(f, cell.v)
    case Optional => cell.Maybe? && cell.has ==> FitsValue(f, cell.v)
    case Singular => cell.One? && !IsZero(f, cell, unions) ==> FitsValue(f, cell.v)
    case Repeated => cell.Many? ==> FitsArray(f, cell.items)
    case Oneof(g) =>
      g < |unions| && unions[g].which == f.tag && unions[g].value.Some? ==> FitsValue(f, unions[g].value.value)
  }

  predicate FitsFrom(fields: seq<Field>, st: Struct, i: nat)
    decreases fields, |fields| - i
  {
    i >= |fields| || (i < |st.cells| ==> FitsCell(fields[i], st.cells[i], st.unions) && FitsFrom(fields, st, i + 1))
  }

  // ---------------------------------------------------------------- pieces of the format

  lemma TagTrip(f: Field, rest: seq<byte>)
    requires 0 < f.tag < MAX_TAG
    ensures DecTag(FieldTag(f) + rest) == Tag(f.ltype.Wire(), f.tag, rest)
    ensures DecTag(EncTag(WtString, f.tag) + rest) == Tag(WtString, f.tag, rest)
  {
    hide EncVarint, DecVarint32;
    DecVarint32Inverse(8 * f.tag + WireCode(f.ltype.Wire()), rest);
    DecVarint32Inverse(8 * f.tag + WireCode(WtString), rest);
  }

  lemma StringTrip(e: seq<byte>, rest: seq<byte>)
    requires |e| < TWO32
    ensures DecVarint32(EncString(e) + rest) == Got(|e|, e + rest)
    ensures Substream(EncString(e) + rest) == Got(e, rest)
  {
    hide EncVarint, DecVarint32;
    DecVarint32Inverse(|e|, e + rest);
    assert EncString(e) + rest == EncVarint(|e|) + (e + rest);
    assert (e + rest)[..|e|] == e && (e + rest)[|e|..] == rest;
  }

  lemma SignedTrip(v: int, size: nat)
    requires IntSize(size) && InSigned(v, Limit(size))
    ensures SignedField(Unsigned64(v), size) == v
  {
    if v < 0 {
      assert (v + TWO64) % TWO32 == v + TWO32 || size == 8;
    }
  }

  lemma NumTrip(f: Field, v: Value, rest: seq<byte>)
    requires f.ltype.Packable() && EncValue(f, v).Some?
    ensures v.Num? && DecNum(f, EncValue(f, v).value + rest) == Got(v, rest)
  {
    hide EncVarint, DecVarint64, EncFixed, DecFixed;
    match f.ltype
    case LVarint => SignedTrip(v.n, f.dataSize); DecVarint64Inverse(Unsigned64(v.n), rest);
    case LUvarint => DecVarint64Inverse(v.n, rest);
    case LSvarint => ZigZagInverse(v.n); DecVarint64Inverse(ZigZag(v.n), rest);
    case LFixed32 => ThirtyTwo(); DecFixedInverse(v.n, 4, rest);
    case LFixed64 => SixtyFour(); DecFixedInverse(v.n, 8, rest);
  }

  lemma BlobTrip(f: Field, v: Value, rest: seq<byte>)
    requires f.ltype.LBytes? || f.ltype.LString? || f.ltype.LFixedBytes?
    requires EncValue(f, v).Some? && FitsValue(f, v)
    ensures DecValue(f, EncValue(f, v).value + rest, DefaultStruct(f.sub))
         == if TermValue(f, v) then Got(NormValue(f, v), rest) else Fail
  {
    hide EncVarint, DecVarint32;
    var b := if f.ltype.LString? then CString(v.chars) else v.bytes;
    StringTrip(b, rest);
    assert (b + rest)[..|b|] == b && (b + rest)[|b|..] == rest;
    if f.ltype.LFixedBytes? && b == [] {
      assert Zeros(f.dataSize) == b && b + rest == rest;
    }
  }

  function Mark(fields: seq<Field>, i: nat, seen: set<nat>): set<nat>
    requires i < |fields|
  {
    if fields[i].htype.Required? then seen + {i} else seen
  }

  function TagWire(f: Field, packed: bool): WireType {
    if packed then WtString else f.ltype.Wire()
  }

  /** The rest of the loop after entry `i` was decoded. */
  function AfterCell(fields: seq<Field>, i: nat, r: Parsed<Struct>, seen: set<nat>): Loop
    requires i < |fields|
  {
    match r
    case Fail => Broken
    case Got(next, rest) => DecLoop(fields, rest, next, Mark(fields, i, seen))
  }

  /** One known field at the front of the input: what the loop does with it. */
  lemma LoopStep(fields: seq<Field>, i: nat, packed: bool, y: seq<byte>, cur: Struct, seen: set<nat>)
    requires Wf(fields) && i < |fields|
    ensures DecLoop(fields, EncTag(TagWire(fields[i], packed), fields[i].tag) + y, cur, seen)
         == AfterCell(fields, i, DecCell(fields, i, TagWire(fields[i], packed), y, cur), seen)
  {
    hide EncVarint, DecCell, DecTag;
    WfAt(fields, 0, i);
    TagTrip(fields[i], y);
    FindTag(fields, i, 0);
  }

  lemma {:induction false} PackedTrip(f: Field, items: seq<Value>, done: seq<Value>)
    requires f.ltype.Packable() && EncItems(f, items, []).Some? && |done| + |items| <= f.arraySize
    ensures DecPacked(f, EncItems(f, items, []).value, done) == Some(done + items)
    ensures NormItems(f, items) == items && TermItems(f, items)
    decreases items
  {
    hide EncValue, DecNum;
    if items == [] {
      assert done + items == done;
    } else {
      var e, rest := EncValue(f, items[0]).value, EncItems(f, items[1..], []).value;
      NumTrip(f, items[0], rest);
      assert EncItems(f, items, []).value == e + rest;
      EncNotEmpty(f, items[0]);
      PackedTrip(f, items[1..], done + [items[0]]);
      assert done + items == done + [items[0]] + items[1..];
    }
  }

  lemma EncNotEmpty(f: Field, v: Value)
    requires f.ltype.Packable() && EncValue(f, v).Some?
    ensures EncValue(f, v).value != []
  {
  }

  // ---------------------------------------------------------------- shapes

  /** What the decoder has built when entries below `n` are done. */
  lemma {:induction false} UpToShape(fields: seq<Field>, st: Struct, n: nat)
    requires n <= |fields| && forall a, b :: 0 <= a < b < |fields| ==> fields[a].tag != fields[b].tag
    requires forall i :: 0 <= i < |fields| ==> fields[i].tag > 0
    ensures var cur := NormUpTo(fields, st, n);
            && |cur.cells| == |fields| && |cur.unions| == GroupCount(fields)
            && (forall i :: n <= i < |fields| ==> cur.cells[i] == DefaultCell(fields[i]))
            && (forall g :: 0 <= g < |cur.unions| ==>
                  cur.unions[g].which == 0 || HasTag(fields, cur.unions[g].which))
    decreases n
  {
    hide NormValue, NormItems, IsZero;
    if n == 0 {
      DefaultShape(fields, 0);
    } else {
      UpToShape(fields, st, n - 1);
    }
  }

  lemma {:induction false} DefaultShape(fields: seq<Field>, k: nat)
    requires k <= |fields|
    ensures forall i :: k <= i < |fields| ==> DefaultCells(fields, k)[i - k] == DefaultCell(fields[i])
    decreases |fields| - k
  {
    if k < |fields| { DefaultShape(fields, k + 1); }
  }

  lemma {:induction false} GroupBound(fields: seq<Field>, i: nat)
    requires i < |fields| && fields[i].htype.Oneof?
    ensures fields[i].htype.group < GroupCount(fields)
  {
    if i > 0 { GroupBound(fields[1..], i - 1); }
  }

  // ---------------------------------------------------------------- the round trip

  /** One value. */
  lemma {:induction false} ValueTrip(f: Field, v: Value, rest: seq<byte>)
    requires Wf(f.sub) && EncValue(f, v).Some? && FitsValue(f, v)
    ensures DecValue(f, EncValue(f, v).value + rest, DefaultStruct(f.sub))
         == if TermValue(f, v) then Got(NormValue(f, v), rest) else Fail
    decreases f, 1
  {
    if f.ltype.Packable() {
      NumTrip(f, v, rest);
    } else if f.ltype.LSubmessage? {
      SubmessageTrip(f, v, rest);
    } else {
      BlobTrip(f, v, rest);
    }
  }

  lemma {:induction false} SubmessageTrip(f: Field, v: Value, rest: seq<byte>)
    requires f.ltype.LSubmessage? && Wf(f.sub) && EncValue(f, v).Some? && FitsValue(f, v)
    ensures DecValue(f, EncValue(f, v).value + rest, DefaultStruct(f.sub))
         == if TermValue(f, v) then Got(NormValue(f, v), rest) else Fail
    decreases f, 0
  {
    hide DecLoop, EncFrom, TermFrom, EncVarint, RequiredSeen, NormUpTo;
    var e := EncFrom(f.sub, v.st, 0).value;
    StringTrip(e, rest);
    StructTrip(f.sub, v.st, 0, {});
    AllRequired(f.sub, 0, {});
    StartOfNorm(f.sub, v.st);
  }

  /** Entries from `i` on, when those before are done. */
  lemma {:induction false} StructTrip(fields: seq<Field>, st: Struct, i: nat, seen: set<nat>)
    requires Wf(fields) && i <= |fields| && EncFrom(fields, st, i).Some? && FitsFrom(fields, st, i)
    ensures DecLoop(fields, EncFrom(fields, st, i).value, NormUpTo(fields, st, i), seen)
         == if TermFrom(fields, st, i) then Done(NormStruct(fields, st), SeenFrom(fields, i, seen), [], false)
           else Broken
    decreases fields, 3, |fields| - i
  {
    hide EncCell, TermCell, NormCell, DecLoop, Wf, Ready, DefaultStruct;
    if i == |fields| {
      LoopEnd(fields, NormUpTo(fields, st, i), seen);
    } else {
      var e, x := EncCell(fields[i], st.cells[i], st.unions).value, EncFrom(fields, st, i + 1).value;
      var cur := NormUpTo(fields, st, i);
      ReadyAt(fields, st, i);
      CellTrip(fields, st, i, x, cur, seen);
      StructTrip(fields, st, i + 1, Mark(fields, i, seen));
    }
  }

  lemma LoopEnd(fields: seq<Field>, st: Struct, seen: set<nat>)
    ensures DecLoop(fields, [], st, seen) == Done(st, seen, [], false)
  {
  }

  function SeenFrom(fields: seq<Field>, i: nat, seen: set<nat>): set<nat>
    requires i <= |fields|
    decreases |fields| - i
  {
    if i == |fields| then seen else SeenFrom(fields, i + 1, Mark(fields, i, seen))
  }

  lemma {:induction false} AllRequired(fields: seq<Field>, i: nat, seen: set<nat>)
    requires i <= |fields| && forall j :: 0 <= j < i && fields[j].htype.Required? ==> j in seen
    ensures RequiredSeen(fields, SeenFrom(fields, i, seen))
    decreases |fields| - i
  {
    if i < |fields| { AllRequired(fields, i + 1, Mark(fields, i, seen)); }
  }

  /** What the decoder may find in the struct it is building, at entry `i`. */
  ghost predicate Ready(fields: seq<Field>, i: nat, cur: Struct)
    requires i < |fields|
  {
    var f := fields[i];
    && i < |cur.cells|
    && cur.cells[i] == DefaultCell(f)
    && (f.htype.Oneof? ==>
          f.htype.group < |cur.unions|
          && (cur.unions[f.htype.group].which == 0 || HasTag(fields, cur.unions[f.htype.group].which)))
  }

  lemma ReadyAt(fields: seq<Field>, st: Struct, i: nat)
    requires Wf(fields) && i < |fields|
    ensures Ready(fields, i, NormUpTo(fields, st, i))
  {
    forall j | 0 <= j < |fields| ensures fields[j].tag > 0 { WfAt(fields, 0, j); }
    UpToShape(fields, st, i);
    if fields[i].htype.Oneof? { GroupBound(fields, i); }
  }

  /** One entry with its encoding in front of `x`. */
  lemma {:induction false} CellTrip(fields: seq<Field>, st: Struct, i: nat, x: seq<byte>, cur: Struct, seen: set<nat>)
    requires Wf(fields) && i < |fields| && i < |st.cells| && Ready(fields, i, cur)
    requires EncCell(fields[i], st.cells[i], st.unions).Some?
    requires FitsCell(fields[i], st.cells[i], st.unions)
    ensures DecLoop(fields, EncCell(fields[i], st.cells[i], st.unions).value + x, cur, seen)
         == if TermCell(fields[i], st.cells[i], st.unions)
            then DecLoop(fields, x, NormCell(fields, st, i, cur), Mark(fields, i, seen)) else Broken
    decreases fields, 2
  {
    hide DecLoop, EncValue, TermValue, NormValue, IsZero, EncArray, NormItems, TermItems, Put, Ready, FieldTag;
    var f, cell := fields[i], st.cells[i];
    CellsLong(fields, i, cur);
    if EncCell(f, cell, st.unions) == Some([]) {
      assert [] + x == x;
    }
    match f.htype
    case Required => SingleTrip(fields, i, cell.v, x, cur, seen);
    case Optional => if cell.has { SingleTrip(fields, i, cell.v, x, cur, seen); }
    case Singular => if !IsZero(f, cell, st.unions) { SingleTrip(fields, i, cell.v, x, cur, seen); }
    case Repeated => ArrayTrip(fields, i, cell.items, x, cur, seen);
    case Oneof(g) =>
      if st.unions[g].which == f.tag { SingleTrip(fields, i, st.unions[g].value.value, x, cur, seen); }
  }

  lemma CellsLong(fields: seq<Field>, i: nat, cur: Struct)
    requires i < |fields| && Ready(fields, i, cur)
    ensures i < |cur.cells|
  {
  }

  lemma {:induction false} SingleTrip(fields: seq<Field>, i: nat, v: Value, x: seq<byte>, cur: Struct, seen: set<nat>)
    requires Wf(fields) && i < |fields| && Ready(fields, i, cur) && !fields[i].htype.Repeated?
    requires EncValue(fields[i], v).Some? && FitsValue(fields[i], v)
    ensures DecLoop(fields, FieldTag(fields[i]) + EncValue(fields[i], v).value + x, cur, seen)
         == if TermValue(fields[i], v)
            then DecLoop(fields, x, Put(fields, i, NormValue(fields[i], v), cur), Mark(fields, i, seen)) else Broken
    decreases fields, 0
  {
    hide DecLoop, EncValue, TermValue, NormValue, DecValue, EncTag, HasTag;
    var f := fields[i];
    var e := EncValue(f, v).value;
    WfAt(fields, 0, i);
    ValueTrip(f, v, x);
    assert FieldTag(f) + e + x == FieldTag(f) + (e + x);
    LoopStep(fields, i, false, e + x, cur, seen);
    if !f.htype.Oneof? {
      FreshCell(f);
      IntoIgnored(f, e + x, OldStruct(f, DefaultValue(f)));
    }
  }

  lemma FreshCell(f: Field)
    requires !f.htype.Oneof? && !f.htype.Repeated?
    ensures DefaultCell(f) == if f.htype.Optional? then Maybe(false, DefaultValue(f)) else One(DefaultValue(f))
    ensures f.ltype.LSubmessage? ==> OldStruct(f, DefaultValue(f)) == DefaultStruct(f.sub)
  {
  }

  /** Only submessages look at what is there already. */
  lemma IntoIgnored(f: Field, s: seq<byte>, into: Struct)
    ensures !f.ltype.LSubmessage? ==> DecValue(f, s, into) == DecValue(f, s, DefaultStruct(f.sub))
  {
  }

  lemma {:induction false} ArrayTrip(fields: seq<Field>, i: nat, items: seq<Value>, x: seq<byte>, cur: Struct,
                                     seen: set<nat>)
    requires Wf(fields) && i < |fields| && Ready(fields, i, cur) && fields[i].htype.Repeated?
    requires EncArray(fields[i], items).Some? && FitsArray(fields[i], items)
    ensures DecLoop(fields, EncArray(fields[i], items).value + x, cur, seen)
         == if TermItems(fields[i], items)
            then DecLoop(fields, x, if items == [] then cur
                                    else cur.(cells := cur.cells[i := Many(NormItems(fields[i], items))]), seen)
            else Broken
    decreases fields, 1
  {
    hide DecLoop, EncItems, NormItems, DecValue, EncTag, EncVarint, HasTag, TermItems, DecPacked, Substream;
    var f := fields[i];
    if items == [] {
      assert [] + x == x;
      NoItems(f);
    } else if f.ltype.Packable() {
      var payload := EncItems(f, items, []).value;
      var tag := EncTag(WtString, f.tag);
      assert EncArray(f, items).value + x == tag + (EncString(payload) + x);
      LoopStep(fields, i, true, EncString(payload) + x, cur, seen);
      StringTrip(payload, x);
      PackedTrip(f, items, []);
      assert [] + items == items;
    } else {
      ItemsTrip(fields, i, items, [], x, cur, seen);
      assert [] + NormItems(f, items) == NormItems(f, items);
    }
  }

  lemma NoItems(f: Field)
    ensures TermItems(f, [])
  {
  }

  /** Items with a tag each, when `done` items are there already. */
  lemma {:induction false} ItemsTrip(fields: seq<Field>, i: nat, items: seq<Value>, done: seq<Value>, x: seq<byte>,
                                     cur: Struct, seen: set<nat>)
    requires Wf(fields) && i < |fields| && fields[i].htype.Repeated? && !fields[i].ltype.Packable()
    requires i < |cur.cells| && cur.cells[i] == Many(done) && |done| + |items| <= fields[i].arraySize
    requires EncItems(fields[i], items, FieldTag(fields[i])).Some?
    requires FitsItems(fields[i], items)
    ensures DecLoop(fields, EncItems(fields[i], items, FieldTag(fields[i])).value + x, cur, seen)
         == if TermItems(fields[i], items)
            then DecLoop(fields, x, cur.(cells := cur.cells[i := Many(done + NormItems(fields[i], items))]), seen)
            else Broken
    decreases fields, 0, |items|
  {
    hide DecLoop, EncValue, TermValue, NormValue, DecValue, EncTag, HasTag;
    var f := fields[i];
    if items == [] {
      assert [] + x == x && done + [] == done && cur.cells[i := Many(done)] == cur.cells;
    } else {
      var e, rest := EncValue(f, items[0]).value, EncItems(f, items[1..], FieldTag(f)).value;
      WfAt(fields, 0, i);
      ValueTrip(f, items[0], rest + x);
      assert EncItems(f, items, FieldTag(f)).value + x == FieldTag(f) + (e + (rest + x));
      LoopStep(fields, i, false, e + (rest + x), cur, seen);
      var v := NormValue(f, items[0]);
      var next := cur.(cells := cur.cells[i := Many(done + [v])]);
      ItemsTrip(fields, i, items[1..], done + [v], x, next, seen);
      assert done + [v] + NormItems(f, items[1..]) == done + NormItems(f, items);
      assert next.cells[i := Many(done + NormItems(f, items))] == cur.cells[i := Many(done + NormItems(f, items))];
    }
  }

  /**
  The round trip: on the whole output of pb_encode, pb_decode consumes everything and returns the struct
  with every present field restored, if every encoded string is shorter than its buffer; if one is not,
  decoding fails.  Lengths of strings, submessages and packed arrays fit their 32-bit prefixes.
  */
  lemma RoundTrip(fields: seq<Field>, st: Struct)
    requires Wf(fields) && EncFrom(fields, st, 0).Some? && FitsFrom(fields, st, 0)
    ensures Decode(fields, EncFrom(fields, st, 0).value)
         == if TermFrom(fields, st, 0) then Got(NormStruct(fields, st), []) else Fail
  {
    hide DecLoop, EncFrom, TermFrom, RequiredSeen, NormUpTo;
    StructTrip(fields, st, 0, {});
    AllRequired(fields, 0, {});
    StartOfNorm(fields, st);
  }

  /** A required string with a buffer of one byte. */
  function TightField(): Field {
    Field(1, LString, Required, Layout(Static, 0, 0), 1, 0, None, [])
  }

  /** A string that fills its buffer is encoded, but its encoding is not decoded. */
  lemma FullStringFails()
    ensures var fields, st := [TightField()], Struct([One(Text([0x41]))], []);
            && Wf(fields)
            && EncFrom(fields, st, 0) == Some([0x0a, 0x01, 0x41])
            && Decode(fields, [0x0a, 0x01, 0x41]).Fail?
  {
    hide DecLoop, NormUpTo;
    var fields, st := [TightField()], Struct([One(Text([0x41]))], []);
    TightEncoding();
    assert !TermFrom(fields, st, 0);
    RoundTrip(fields, st);
  }

  lemma TightEncoding()
    ensures Wf([TightField()])
    ensures EncFrom([TightField()], Struct([One(Text([0x41]))], []), 0) == Some([0x0a, 0x01, 0x41])
    ensures CString([0x41]) == [0x41]
  {
    var t: seq<byte> := [0x41];
    assert t[1..] == [];
    assert CString(t) == t;
    assert EncVarint(10) == [10] && EncVarint(1) == [1];
    assert EncString(t) == [0x01, 0x41];
    assert EncValue(TightField(), Text(t)) == Some([0x01, 0x41]);
    assert FieldTag(TightField()) == [0x0a];
    var tag, body: seq<byte> := [0x0a], [0x01, 0x41];
    assert tag + body == [0x0a, 0x01, 0x41];
    assert EncCell(TightField(), One(Text(t)), []) == Cat(Some(tag), Some(body));
    assert tag + body + [] == [0x0a, 0x01, 0x41];
    assert EncCell(TightField(), One(Text(t)), []) == Some([0x0a, 0x01, 0x41]);
    assert EncFrom([TightField()], Struct([One(Text(t))], []), 1) == Some([]);
    assert WfFrom([TightField()], 1);
    assert Wf([]);
    assert WfFrom([TightField()], 0);
  }

  lemma StartOfNorm(fields: seq<Field>, st: Struct)
    ensures NormUpTo(fields, st, 0) == DefaultStruct(fields)
  {
  }

  // ---------------------------------------------------------------- what is restored

  /** Entry `f`, encoded from `st` as entry `i`, is found again in `back`. */
  ghost predicate Restored(f: Field, st: Struct, back: Struct, i: nat) {
    && i < |st.cells| && i < |back.cells|
    && match f.htype
       case Required => st.cells[i].One? && back.cells[i] == One(NormValue(f, st.cells[i].v))
       case Optional =>
         && st.cells[i].Maybe? && back.cells[i].Maybe? && back.cells[i].has == st.cells[i].has
         && back.cells[i].v == if st.cells[i].has then NormValue(f, st.cells[i].v) else DefaultValue(f)
       case Singular =>
         && st.cells[i].One? && back.cells[i].One?
         && back.cells[i].v
            == if IsZero(f, st.cells[i], st.unions) then DefaultValue(f) else NormValue(f, st.cells[i].v)
       case Repeated => st.cells[i].Many? && back.cells[i] == Many(NormItems(f, st.cells[i].items))
       case Oneof(g) =>
         && g < |st.unions| && g < |back.unions|
         && (st.unions[g].which == f.tag ==> OneofRestored(f, st.unions[g], back.unions[g]))
  }

  ghost predicate OneofRestored(f: Field, u: Union, back: Union) {
    u.value.Some? && back == Union(f.tag, Some(NormValue(f, u.value.value)))
  }

  /** Every entry of the encoded struct is found again in the struct of the round trip. */
  lemma RestoresPresent(fields: seq<Field>, st: Struct, i: nat)
    requires Wf(fields) && i < |fields| && EncFrom(fields, st, 0).Some?
    ensures Restored(fields[i], st, NormStruct(fields, st), i)
  {
    hide NormValue, NormItems, EncValue, IsZero, DefaultStruct, EncArray, Wf, Restored, NormUpTo, Ready;
    EncAt(fields, st, 0, i);
    ReadyAt(fields, st, i);
    PutRestores(fields, st, i, NormUpTo(fields, st, i));
    NormStep(fields, st, i);
    StaysRestored(fields, st, i, |fields|);
  }

  lemma NormStep(fields: seq<Field>, st: Struct, i: nat)
    requires i < |fields|
    ensures NormUpTo(fields, st, i + 1) == NormCell(fields, st, i, NormUpTo(fields, st, i))
  {
  }

  lemma {:induction false} EncAt(fields: seq<Field>, st: Struct, k: nat, i: nat)
    requires k <= i < |fields| && EncFrom(fields, st, k).Some?
    ensures i < |st.cells| && EncCell(fields[i], st.cells[i], st.unions).Some?
    decreases i - k
  {
    if k < i { EncAt(fields, st, k + 1, i); }
  }

  lemma PutRestores(fields: seq<Field>, st: Struct, i: nat, cur: Struct)
    requires i < |fields| && Ready(fields, i, cur)
    requires i < |st.cells| && EncCell(fields[i], st.cells[i], st.unions).Some?
    ensures Restored(fields[i], st, NormCell(fields, st, i, cur), i)
  {
    hide NormValue, EncValue, IsZero, DefaultValue, EncItems, HasTag;
  }

  /** Later entries leave cell `i` alone, and the union of entry `i` while that entry is the one in use. */
  lemma {:induction false} StaysRestored(fields: seq<Field>, st: Struct, i: nat, n: nat)
    requires Wf(fields) && i < n <= |fields|
    requires Restored(fields[i], st, NormUpTo(fields, st, i + 1), i)
    ensures Restored(fields[i], st, NormUpTo(fields, st, n), i)
    decreases n
  {
    hide NormValue, NormItems, IsZero, DefaultValue, DefaultStruct, WfFrom;
    if n > i + 1 {
      assert fields[n - 1].tag != fields[i].tag;
      StaysRestored(fields, st, i, n - 1);
    }
  }
}
