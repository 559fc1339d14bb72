/**
Decoding composes: the decoder works field by field, each step using exactly its own bytes, so decoding
a concatenation is decoding one part after the other, and complete unknown fields leave no trace.
*/
module PbCompose {
  import opened Words
  import opened Wire
  import opened PbWire
  import opened PbMessage
  import opened PbFormat

  /** More input behind what a parser needs changes nothing but the rest. */
  function Extend<T>(p: Parsed<T>, t: seq<byte>): Parsed<T> {
    match p case Fail => Fail case Got(v, rest) => Got(v, rest + t)
  }

  lemma {:induction false} Varint64More(s: seq<byte>, t: seq<byte>, result: nat, k: nat)
    requires Varint64Loop(s, result, k).Got?
    ensures Varint64Loop(s + t, result, k) == Extend(Varint64Loop(s, result, k), t)
    decreases |s|
  {
    hide Or, Shl;
    assert (s + t)[1..] == s[1..] + t;
    if s[0] >= 128 { Varint64More(s[1..], t, Or(result, Shl(s[0] % 128, k, 64)), k + 7); }
  }

  lemma {:induction false} Varint32More(s: seq<byte>, t: seq<byte>, result: nat, k: nat)
    requires Varint32Loop(s, result, k).Got?
    ensures Varint32Loop(s + t, result, k) == Extend(Varint32Loop(s, result, k), t)
    decreases |s|
  {
    hide Or, Shl;
    assert (s + t)[1..] == s[1..] + t;
    if s[0] >= 128 {
      Varint32More(s[1..], t, if k >= 32 then result else Or(result, Shl(s[0] % 128, k, 32)), NextBitpos(k));
    }
  }

  lemma Dec32More(s: seq<byte>, t: seq<byte>)
    requires DecVarint32(s).Got?
    ensures DecVarint32(s + t) == Extend(DecVarint32(s), t)
  {
    hide Varint32Loop;
    assert (s + t)[1..] == s[1..] + t;
    if s[0] >= 128 { Varint32More(s[1..], t, s[0] % 128, 7); }
  }

  lemma TagMore(s: seq<byte>, t: seq<byte>)
    requires DecTag(s).Tag?
    ensures DecTag(s + t) == DecTag(s).(rest := DecTag(s).rest + t)
  {
    hide DecVarint32;
    Dec32More(s, t);
  }

  lemma SubstreamMore(s: seq<byte>, t: seq<byte>)
    requires Substream(s).Got?
    ensures Substream(s + t) == Extend(Substream(s), t)
  {
    hide DecVarint32;
    Dec32More(s, t);
    var n, rest := DecVarint32(s).value, DecVarint32(s).rest;
    assert (rest + t)[..n] == rest[..n] && (rest + t)[n..] == rest[n..] + t;
  }

  lemma {:induction false} SkipVarintMore(s: seq<byte>, t: seq<byte>)
    requires SkipVarint(s).Got?
    ensures SkipVarint(s + t) == Extend(SkipVarint(s), t)
    decreases |s|
  {
    assert (s + t)[1..] == s[1..] + t;
    if s[0] >= 128 { SkipVarintMore(s[1..], t); }
  }

  lemma SkipMore(w: WireType, s: seq<byte>, t: seq<byte>)
    requires SkipField(w, s).Got?
    ensures SkipField(w, s + t) == Extend(SkipField(w, s), t)
  {
    hide Substream, SkipVarint;
    match w
    case WtVarint => SkipVarintMore(s, t);
    case WtString => SubstreamMore(s, t);
    case Wt64 => assert (s + t)[8..] == s[8..] + t;
    case Wt32 => assert (s + t)[4..] == s[4..] + t;
    case WtOther(_) =>
  }

  lemma NumMore(f: Field, s: seq<byte>, t: seq<byte>)
    requires f.ltype.Packable() && DecNum(f, s).Got?
    ensures DecNum(f, s + t) == Extend(DecNum(f, s), t)
  {
    hide Varint64Loop, VarintField, FixedValue;
    if f.ltype.LFixed32? || f.ltype.LFixed64? {
      var n := if f.ltype.LFixed32? then 4 else 8;
      assert (s + t)[..n] == s[..n] && (s + t)[n..] == s[n..] + t;
    } else {
      Varint64More(s, t, 0, 0);
    }
  }

  /** A value, nested messages included: a submessage that ends early is skipped to its end. */
  lemma ValueMore(f: Field, s: seq<byte>, t: seq<byte>, into: Struct)
    requires DecValue(f, s, into).Got?
    ensures DecValue(f, s + t, into) == Extend(DecValue(f, s, into), t)
  {
    hide DecNum, DecVarint32, DecNoInit, Substream;
    if f.ltype.Packable() {
      NumMore(f, s, t);
    } else if f.ltype.LSubmessage? {
      SubstreamMore(s, t);
    } else {
      Dec32More(s, t);
      var n, rest := DecVarint32(s).value, DecVarint32(s).rest;
      if n <= |rest| {
        assert (rest + t)[..n] == rest[..n] && (rest + t)[n..] == rest[n..] + t;
      }
    }
  }

  lemma CellMore(fields: seq<Field>, i: nat, w: WireType, s: seq<byte>, t: seq<byte>, st: Struct)
    requires i < |fields| && DecCell(fields, i, w, s, st).Got?
    ensures DecCell(fields, i, w, s + t, st) == Extend(DecCell(fields, i, w, s, st), t)
  {
    hide DecValue, Substream, DecPacked, HasTag, DefaultStruct;
    var f := fields[i];
    if f.htype.Repeated? && w.WtString? && f.ltype.Packable() {
      SubstreamMore(s, t);
    } else if f.htype.Repeated? || f.htype.Oneof? {
      ValueMore(f, s, t, DefaultStruct(f.sub));
    } else {
      ValueMore(f, s, t, OldStruct(f, st.cells[i].v));
    }
  }

  /** `a` is a sequence of complete fields without a zero tag: the loop reads all of it and does not stop. */
  ghost predicate Complete(fields: seq<Field>, a: seq<byte>, st: Struct, seen: set<nat>) {
    var r := DecLoop(fields, a, st, seen);
    r.Done? && r.rest == [] && !r.stopped
  }

  /** The loop over a concatenation is the loop over the second part from where the first one got to. */
  lemma {:induction false} LoopComposes(fields: seq<Field>, a: seq<byte>, b: seq<byte>, st: Struct, seen: set<nat>)
    requires Complete(fields, a, st, seen)
    ensures var r := DecLoop(fields, a, st, seen); DecLoop(fields, a + b, st, seen) == DecLoop(fields, b, r.st, r.seen)
    decreases |a|
  {
    hide DecTag, DecCell, SkipField, Find;
    if a == [] {
      assert a + b == b;
    } else {
      TagMore(a, b);
      var tag := DecTag(a);
      var found := Find(fields, tag.tag, 0);
      if found.None? {
        SkipMore(tag.wire, tag.rest, b);
        LoopComposes(fields, SkipField(tag.wire, tag.rest).rest, b, st, seen);
      } else {
        var i := found.value;
        CellMore(fields, i, tag.wire, tag.rest, b, st);
        var r := DecCell(fields, i, tag.wire, tag.rest, st);
        LoopComposes(fields, r.rest, b, r.value, if fields[i].htype.Required? then seen + {i} else seen);
      }
    }
  }

  /**
  An unknown field between two parts, of any wire type and with any content, changes nothing: not the struct, not the
  required fields seen.
  */
  lemma UnknownIgnored(fields: seq<Field>, a: seq<byte>, u: seq<byte>, tag: nat, p: Payload, b: seq<byte>, st: Struct)
    requires Complete(fields, a, st, {}) && IsUnknown(fields, u, tag, p)
    ensures DecNoInit(fields, a + u + b, st) == DecNoInit(fields, a + b, st)
  {
    hide DecLoop, IsUnknown;
    var r := DecLoop(fields, a, st, {});
    LoopComposes(fields, a, b, st, {});
    LoopComposes(fields, a, u + b, st, {});
    LoopSkips(fields, u, tag, p, b, r.st, r.seen);
    assert a + u + b == a + (u + b);
  }

  /** One that is cut short makes the whole message fail. */
  lemma CutUnknownFails(fields: seq<Field>, a: seq<byte>, tag: nat, p: Payload, n: nat, st: Struct)
    requires Complete(fields, a, st, {}) && 0 < tag < MAX_TAG && !HasTag(fields, tag)
    requires p.Valid() && n < |p.Bytes()|
    ensures DecNoInit(fields, a + (Key(tag, p.Code()) + p.Bytes()[..n]), st) == Fail
  {
    hide DecLoop, Payload.Bytes, Payload.Valid, Payload.Code, Key;
    var r := DecLoop(fields, a, st, {});
    LoopComposes(fields, a, Key(tag, p.Code()) + p.Bytes()[..n], st, {});
    CodeIs(p);
    CutPayloadFails(p, n);
    BrokenTurn(fields, tag, p.Code(), p.Bytes()[..n], r.st, r.seen);
  }

  lemma CodeIs(p: Payload)
    ensures p.Code() < 8
  {
  }

  lemma BrokenTurn(fields: seq<Field>, tag: nat, code: nat, b: seq<byte>, st: Struct, seen: set<nat>)
    requires 0 < tag < MAX_TAG && code < 8 && !HasTag(fields, tag) && SkipField(WireOf(code), b).Fail?
    ensures DecLoop(fields, Key(tag, code) + b, st, seen) == Broken
  {
    hide SkipField, DecTag, Key, DecCell;
    KeyIs(tag, code, b);
    KeyNotEmpty(tag, code);
    assert Find(fields, tag, 0).None?;
  }

  /** The struct that is built does not depend on which required fields were seen before. */
  lemma {:induction false} SeenOnlyGrows(fields: seq<Field>, s: seq<byte>, st: Struct, seen: set<nat>, more: set<nat>)
    requires seen <= more
    ensures var a, b := DecLoop(fields, s, st, seen), DecLoop(fields, s, st, more);
            && (a.Done? <==> b.Done?)
            && (a.Done? ==> a.st == b.st && a.rest == b.rest && a.stopped == b.stopped
                            && a.seen <= b.seen && more <= b.seen && seen <= a.seen)
    decreases |s|
  {
    hide DecTag, DecCell, SkipField, Find;
    if s != [] && DecTag(s).Tag? {
      var tag := DecTag(s);
      var found := Find(fields, tag.tag, 0);
      if found.None? {
        var r := SkipField(tag.wire, tag.rest);
        if r.Got? && !(fields == [] && tag.tag == 0) { SeenOnlyGrows(fields, r.rest, st, seen, more); }
      } else {
        var i := found.value;
        var r := DecCell(fields, i, tag.wire, tag.rest, st);
        if r.Got? {
          var x: set<nat> := if fields[i].htype.Required? then {i} else {};
          assert seen + {} == seen && more + {} == more;
          SeenOnlyGrows(fields, r.rest, r.value, seen + x, more + x);
        }
      }
    }
  }

  /**
  pb_decode_noinit on a concatenation gives the struct that decoding the first part and then the second
  part into the result gives, whenever both succeed.
  */
  lemma Composes(fields: seq<Field>, a: seq<byte>, b: seq<byte>, st: Struct)
    requires Complete(fields, a, st, {})
    requires DecNoInit(fields, a, st).Got?
    requires DecNoInit(fields, b, DecNoInit(fields, a, st).value).Got?
    ensures DecNoInit(fields, a + b, st) == DecNoInit(fields, b, DecNoInit(fields, a, st).value)
  {
    hide DecLoop;
    var r := DecLoop(fields, a, st, {});
    LoopComposes(fields, a, b, st, {});
    SeenOnlyGrows(fields, b, r.st, {}, r.seen);
  }
}
