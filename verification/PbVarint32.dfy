/** What the 32-bit decoder makes of any base-128 form: where it is exact, and where it is not. */
module PbVarint32 {
  import opened Words
  import opened Wire
  import opened PbWire
  import opened PbMessage
  import opened PbFormat

  function Wrap32(n: nat): nat {
    n % TWO32
  }

  function Plus(low: nat, x: nat, p: nat): nat {
    low + x * p
  }

  /** A byte at position `i` above the 32 bits: idle, or one of the extension of a negative number. */
  predicate Idle(b: byte, i: nat, value: nat) {
    b % 128 == 0 || (value >= 0x8000_0000 && b == if i < 9 then 0xff else 1)
  }

  /** The bytes `s`, from position `i` on, say nothing beyond 32 bits that the decoder notices. */
  predicate Accepted(s: seq<byte>, i: nat, value: nat)
    requires s != []
  {
    && (i + |s| == 5 ==> s[|s| - 1] < 16)
    && forall j :: 0 <= j < |s| && i + j >= 5 ==> Idle(s[j], i + j, value)
  }

  lemma AcceptedTail(s: seq<byte>, i: nat, value: nat)
    requires |s| > 1
    ensures Accepted(s, i, value) <==> (i >= 5 ==> Idle(s[0], i, value)) && Accepted(s[1..], i + 1, value)
  {
    if (i >= 5 ==> Idle(s[0], i, value)) && Accepted(s[1..], i + 1, value) {
      forall j | 0 <= j < |s| && i + j >= 5 ensures Idle(s[j], i + j, value) {
        if j > 0 { assert Idle(s[1..][j - 1], i + 1 + (j - 1), value); }
      }
    }
  }

  lemma Turn(s: seq<byte>, rest: seq<byte>, result: nat, i: nat)
    requires Delimits(s) && 1 <= i < 36
    ensures Varint32Loop(s + rest, result, 7 * i)
         == if i >= 5 && !Idle(s[0], i, result) then Fail
            else
              var r := if i >= 5 then result else Or(result, Shl(s[0] % 128, 7 * i, 32));
              if |s| > 1 then Varint32Loop(s[1..] + rest, r, 7 * (i + 1))
              else if i == 4 && s[0] >= 16 then Fail
              else Got(r, rest)
  {
    hide Or, Shl;
    assert (s + rest)[1..] == s[1..] + rest;
    if |s| == 1 { assert s[1..] + rest == rest; }
  }

  /** Behind the fifth byte. */
  lemma {:induction false} High(s: seq<byte>, rest: seq<byte>, value: nat, i: nat)
    requires Delimits(s) && 5 <= i && i + |s| <= 36
    ensures Varint32Loop(s + rest, value, 7 * i) == if Accepted(s, i, value) then Got(value, rest) else Fail
    decreases |s|
  {
    hide Varint32Loop, Idle;
    Turn(s, rest, value, i);
    if |s| > 1 {
      DelimitsTail(s);
      AcceptedTail(s, i, value);
      High(s[1..], rest, value, i + 1);
    }
  }

  /** The fifth byte: four of its bits are left of it. */
  lemma FifthByte(result: nat, x: nat, k: nat, p: nat)
    requires k == 28 && p == Pow2(k) && result < p && x < 128
    ensures Or(result, Shl(x, k, 32)) == Wrap32(Plus(result, x, p)) < TWO32
  {
    hide Or, Shl, Pow2, Wrap32, Plus;
    ThirtyTwo();
    PowAdd(k, 4);
    FourBits();
    ShlFour(x, k, p, 32);
    OrAdds(result, x % 16, k);
    WrapFour(result, x, p);
  }

  lemma ShlFour(x: nat, k: nat, p: nat, width: nat)
    requires p == Pow2(k) && Pow2(width) == 16 * p == TWO32
    ensures Shl(x, k, width) == (x % 16) * p
  {
    hide Pow2;
    assert x * p == (x % 16) * p + (x / 16) * (16 * p);
  }

  lemma WrapFour(result: nat, x: nat, p: nat)
    requires result < p && 16 * p == TWO32
    ensures Wrap32(Plus(result, x, p)) == result + (x % 16) * p < TWO32
  {
    assert x * p == (x % 16) * p + (x / 16) * TWO32;
  }

  lemma WrapMore(low: nat, high: nat)
    ensures Wrap32(low + high * TWO32) == Wrap32(low)
  {
  }

  /** What is behind the fifth byte does not count. */
  lemma NextWraps(s: seq<byte>, result: nat, p: nat)
    requires p == Pow2(28) && s != []
    ensures Wrap32(Plus(result, Groups(s), p)) == Wrap32(Plus(result, s[0] % 128, p))
  {
    hide Pow2;
    ThirtyTwo();
    PowAdd(28, 4);
    FourBits();
    var x, g := s[0] % 128, Groups(s[1..]);
    assert (x + 128 * g) * p == x * p + (8 * g) * TWO32;
    WrapMore(result + x * p, 8 * g);
  }

  lemma NextPlus(s: seq<byte>, result: nat, k: nat)
    requires s != []
    ensures Plus(Plus(result, s[0] % 128, Pow2(k)), Groups(s[1..]), Pow2(k + 7)) == Plus(result, Groups(s), Pow2(k))
  {
    hide Pow2, Groups;
    NextGroups(s, result, k);
  }

  lemma Small32(n: nat)
    requires n < TWO32
    ensures Wrap32(n) == n
  {
  }

  /** The loop from position `i` on. */
  lemma {:induction false} Low(s: seq<byte>, rest: seq<byte>, result: nat, i: nat)
    requires Delimits(s) && 1 <= i <= 4 && i + |s| <= 36 && result < Pow2(7 * i)
    ensures var value := Wrap32(Plus(result, Groups(s), Pow2(7 * i)));
            Varint32Loop(s + rest, result, 7 * i) == if Accepted(s, i, value) then Got(value, rest) else Fail
    decreases |s|
  {
    hide Pow2, Or, Shl, Varint32Loop, Wrap32, Plus, Idle, Groups;
    var x := s[0] % 128;
    Turn(s, rest, result, i);
    if i == 4 {
      FifthByte(result, x, 28, Pow2(28));
      NextWraps(s, result, Pow2(28));
      if |s| > 1 {
        DelimitsTail(s);
        AcceptedTail(s, 4, Or(result, Shl(x, 28, 32)));
        High(s[1..], rest, Or(result, Shl(x, 28, 32)), 5);
      }
    } else {
      SevenBits();
      AddSeven(result, x, 7 * i, 7, 32);
      var r := Plus(result, x, Pow2(7 * i));
      assert r == result + x * Pow2(7 * i) by { PlusIs(result, x, Pow2(7 * i)); }
      if |s| == 1 {
        OneGroup(s);
        ThirtyTwo();
        Small32(r);
      } else {
        DelimitsTail(s);
        NextPlus(s, result, 7 * i);
        AcceptedTail(s, i, Wrap32(Plus(result, Groups(s), Pow2(7 * i))));
        Low(s[1..], rest, r, i + 1);
      }
    }
  }

  lemma PlusIs(low: nat, x: nat, p: nat)
    ensures Plus(low, x, p) == low + x * p
  {
  }

  /**
  The 32-bit decoder on any base-128 form of up to 36 bytes, whatever is behind it.  The value is cut to 32 bits;
  of what is cut off, the upper bits of the fifth byte are only looked at if it is the last one.
  */
  lemma Decodes32(s: seq<byte>, rest: seq<byte>)
    requires Delimits(s) && |s| <= 36
    ensures var value := Wrap32(Groups(s));
            DecVarint32(s + rest) == if Accepted(s, 0, value) then Got(value, rest) else Fail
  {
    hide Varint32Loop, Wrap32, Idle, Pow2, Plus, Groups, Accepted;
    FirstTurn(s, rest);
    if |s| == 1 {
      OneGroup(s);
      Small32(Groups(s));
      AcceptedOne(s, Wrap32(Groups(s)));
    } else {
      DelimitsTail(s);
      FirstGroup(s, 7);
      LowFromOne(s, rest);
      AcceptedTail(s, 0, Wrap32(Groups(s)));
    }
  }

  lemma FirstTurn(s: seq<byte>, rest: seq<byte>)
    requires Delimits(s)
    ensures DecVarint32(s + rest)
         == if |s| == 1 then Got(s[0] % 128, rest) else Varint32Loop(s[1..] + rest, s[0] % 128, 7)
  {
    hide Varint32Loop;
    assert (s + rest)[1..] == s[1..] + rest;
    if |s| == 1 { assert s[1..] + rest == rest; }
  }

  lemma AcceptedOne(s: seq<byte>, value: nat)
    requires |s| == 1
    ensures Accepted(s, 0, value)
  {
  }

  lemma LowFromOne(s: seq<byte>, rest: seq<byte>)
    requires Delimits(s) && 1 < |s| <= 36
    ensures Varint32Loop(s[1..] + rest, s[0] % 128, 7)
         == if Accepted(s[1..], 1, Wrap32(Groups(s))) then Got(Wrap32(Groups(s)), rest) else Fail
  {
    hide *;
    DelimitsTail(s);
    FirstGroup(s, 7);
    Low(s[1..], rest, s[0] % 128, 1);
  }

  lemma FirstGroup(s: seq<byte>, k: nat)
    requires s != [] && k == 7
    ensures s[0] % 128 < Pow2(k) && Plus(s[0] % 128, Groups(s[1..]), Pow2(k)) == Groups(s)
  {
    hide Pow2;
    SevenBits();
  }

  /** A number below 2^32 has nothing in its upper groups. */
  lemma {:induction false} SmallGroups(s: seq<byte>, i: nat)
    requires i < |s|
    ensures Groups(s) >= (s[i] % 128) * Pow2(7 * i)
    decreases i
  {
    if i == 0 {
      assert Pow2(0) == 1;
    } else {
      SmallGroups(s[1..], i - 1);
      hide Pow2, Groups;
      PowAdd(7 * (i - 1), 7);
      SevenBits();
      NextGroups(s, 0, 0);
      assert Pow2(0) == 1 by { PowZero(); }
      Scale(s[i] % 128, Pow2(7 * (i - 1)));
    }
  }

  lemma PowZero()
    ensures Pow2(0) == 1
  {
  }

  lemma Scale(x: nat, p: nat)
    ensures x * (p * 128) == 128 * (x * p)
  {
  }

  lemma NoUpperGroups(s: seq<byte>, i: nat)
    requires Groups(s) < TWO32 && 4 <= i < |s|
    ensures if i == 4 then s[i] % 128 < 16 else s[i] % 128 == 0
  {
    hide Pow2, Groups;
    SmallGroups(s, i);
    var x, p := s[i] % 128, Pow2(28);
    ThirtyTwo();
    PowAdd(28, 4);
    FourBits();
    if i == 4 {
      if x >= 16 { AtLeast(x, 16, p); }
    } else {
      PowMonotone(32, 7 * i);
      if x >= 1 { AtLeast(x, 1, Pow2(7 * i)); }
    }
  }

  lemma AtLeast(x: nat, y: nat, p: nat)
    requires x >= y
    ensures x * p >= y * p
  {
  }

  /** The decoder gets the number itself exactly if it has 32 bits; with more it fails, or gives another one. */
  lemma Exact32(s: seq<byte>, rest: seq<byte>)
    requires Delimits(s) && |s| <= 36
    ensures DecVarint32(s + rest) == Got(Groups(s), rest) <==> Groups(s) < TWO32
  {
    hide DecVarint32, Groups, Idle;
    Decodes32(s, rest);
    if Groups(s) < TWO32 {
      forall i | 4 <= i < |s| ensures if i == 4 then s[i] % 128 < 16 else s[i] % 128 == 0 { NoUpperGroups(s, i); }
      IdleZeros(s, Wrap32(Groups(s)));
    }
  }

  lemma IdleZeros(s: seq<byte>, value: nat)
    requires Delimits(s) && forall i :: 4 <= i < |s| ==> if i == 4 then s[i] % 128 < 16 else s[i] % 128 == 0
    ensures Accepted(s, 0, value)
  {
  }

  /** So a length or a tag of 7 * 2^32, in six bytes, is taken for 0. */
  lemma TakenForZero(rest: seq<byte>)
    ensures var s := [0x80, 0x80, 0x80, 0x80, 0xf0, 0x00];
            Delimits(s) && Groups(s) == 7 * TWO32 && DecVarint32(s + rest) == Got(0, rest)
  {
    hide DecVarint32;
    var s: seq<byte> := [0x80, 0x80, 0x80, 0x80, 0xf0, 0x00];
    assert s[1..] == [0x80, 0x80, 0x80, 0xf0, 0x00];
    assert s[1..][1..] == [0x80, 0x80, 0xf0, 0x00];
    assert s[1..][1..][1..] == [0x80, 0xf0, 0x00];
    assert s[1..][1..][1..][1..] == [0xf0, 0x00];
    assert s[1..][1..][1..][1..][1..] == [0x00];
    assert s[1..][1..][1..][1..][1..][1..] == [];
    assert Groups([0x00]) == 0;
    assert Groups([0xf0, 0x00]) == 0x70;
    assert Groups([0x80, 0xf0, 0x00]) == 0x70 * 128;
    assert Groups([0x80, 0x80, 0xf0, 0x00]) == 0x70 * 128 * 128;
    assert Groups([0x80, 0x80, 0x80, 0xf0, 0x00]) == 0x70 * 128 * 128 * 128;
    Decodes32(s, rest);
  }

  /** A zero in any form of up to 36 bytes, where a key is due, ends the message; what is behind it is left. */
  lemma ZeroEnds(fields: seq<Field>, zero: seq<byte>, behind: seq<byte>, st: Struct, seen: set<nat>)
    requires Delimits(zero) && |zero| <= 36 && Groups(zero) == 0
    ensures DecLoop(fields, zero + behind, st, seen) == Done(st, seen, behind, true)
  {
    hide Groups, DecVarint32, DecCell, Delimits;
    Exact32(zero, behind);
    NotEmpty(zero);
  }

  lemma NotEmpty(s: seq<byte>)
    requires Delimits(s)
    ensures s != []
  {
  }

  // ---------------------------------------------------------------- where the position counter wraps

  /** Idle bytes change nothing, up to where the counter wraps. */
  lemma {:induction false} IdleBytes(n: nat, i: nat, rest: seq<byte>)
    requires 1 <= i && i + n <= 36
    ensures Varint32Loop(Idles(n) + rest, 0, 7 * i) == Varint32Loop(rest, 0, 7 * (i + n))
    decreases n
  {
    hide Varint32Loop;
    if n == 0 {
      assert Idles(0) + rest == rest;
    } else {
      assert (Idles(n) + rest)[1..] == Idles(n - 1) + rest;
      OneIdle(Idles(n) + rest, i);
      IdleBytes(n - 1, i + 1, rest);
    }
  }

  function Idles(n: nat): seq<byte> {
    seq(n, _ => 0x80)
  }

  lemma OneIdle(s: seq<byte>, i: nat)
    requires s != [] && s[0] == 0x80 && 1 <= i <= 35
    ensures Varint32Loop(s, 0, 7 * i) == Varint32Loop(s[1..], 0, 7 * (i + 1))
  {
    hide Shl, Or;
    NoBits(7 * i, 32);
  }

  lemma NoBits(k: nat, width: nat)
    ensures Or(0, Shl(0, k, width)) == 0
  {
    assert 0 * Pow2(k) == 0;
    assert Pow2(width) > 0;
  }

  /** Behind 37 idle bytes a 1 counts as 8: the counter of bit positions has eight bits. */
  lemma CounterWraps(rest: seq<byte>)
    ensures DecVarint32(Idles(37) + ([1] + rest)) == Got(8, rest)
  {
    hide Varint32Loop;
    var s := Idles(37) + ([1] + rest);
    assert s[1..] == Idles(35) + ([0x80, 1] + rest);
    IdleBytes(35, 1, [0x80, 1] + rest);
    WrapTurn(rest);
  }

  lemma WrapTurn(rest: seq<byte>)
    ensures Varint32Loop([0x80, 1] + rest, 0, 252) == Got(8, rest)
  {
    hide Shl, Or;
    NoBits(252, 32);
    assert ([0x80, 1] + rest)[1..] == [1] + rest && ([1] + rest)[1..] == rest;
    ThreeUp(3, 32);
  }

  lemma ThreeUp(k: nat, width: nat)
    requires k == 3 && width == 32
    ensures Or(0, Shl(1, k, width)) == 8
  {
    hide Pow2;
    ThirtyTwo();
    Eight(k);
    Small32(8);
  }

  lemma Eight(k: nat)
    requires k == 3
    ensures Pow2(k) == 8
  {
  }
}
