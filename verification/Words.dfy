/**
Unsigned machine words as natural numbers, with the C operators `<<`, `|`, `&` and `~` written
out arithmetically and characterised bit by bit.  The replay window, the reassembly bitmask and
the required-field bitmask are all stated in these terms.
*/
module Words {

  function Pow2(n: nat): (p: nat)
    ensures p >= 1
  {
    if n == 0 then 1 else 2 * Pow2(n - 1)
  }

  /** Bit `i` of `x`, counted from the least significant. */
  predicate Bit(x: nat, i: nat)
    decreases i
  {
    if i == 0 then x % 2 == 1 else Bit(x / 2, i - 1)
  }

  /** `x << s` in a word of `width` bits. */
  function Shl(x: nat, s: nat, width: nat): nat {
    (x * Pow2(s)) % Pow2(width)
  }

  /** `a | b` */
  function Or(a: nat, b: nat): nat
    decreases a + b
  {
    if a == 0 then b
    else if b == 0 then a
    else 2 * Or(a / 2, b / 2) + (if a % 2 == 1 || b % 2 == 1 then 1 else 0)
  }

  /** `a & b` */
  function And(a: nat, b: nat): nat
    decreases a + b
  {
    if a == 0 || b == 0 then 0
    else 2 * And(a / 2, b / 2) + (if a % 2 == 1 && b % 2 == 1 then 1 else 0)
  }

  /** `a ^ b` */
  function Xor(a: nat, b: nat): nat
    decreases a + b
  {
    if a == 0 then b
    else if b == 0 then a
    else 2 * Xor(a / 2, b / 2) + (if a % 2 != b % 2 then 1 else 0)
  }

  lemma {:induction false} XorTwice(a: nat, b: nat)
    ensures Xor(Xor(a, b), b) == a
    decreases a + b
  {
    if a == 0 {
      XorSelf(b);
    } else if b != 0 {
      XorTwice(a / 2, b / 2);
    }
  }

  lemma {:induction false} XorSelf(b: nat)
    ensures Xor(b, b) == 0
  {
    if b != 0 { XorSelf(b / 2); }
  }

  lemma {:induction false} XorBound(a: nat, b: nat, width: nat)
    requires a < Pow2(width) && b < Pow2(width)
    ensures Xor(a, b) < Pow2(width)
  {
    if a != 0 && b != 0 && width > 0 { XorBound(a / 2, b / 2, width - 1); }
  }

  /** `~x` in a word of `width` bits. */
  function Not(x: nat, width: nat): nat
    requires x < Pow2(width)
  {
    Pow2(width) - 1 - x
  }

  lemma {:induction false} ZeroBit(i: nat)
    ensures !Bit(0, i)
  {
    if i > 0 { ZeroBit(i - 1); }
  }

  lemma {:induction false} OrBit(a: nat, b: nat, i: nat)
    ensures Bit(Or(a, b), i) <==> Bit(a, i) || Bit(b, i)
    decreases i
  {
    ZeroBit(i);
    if a != 0 && b != 0 && i > 0 { OrBit(a / 2, b / 2, i - 1); }
  }

  lemma {:induction false} AndBit(a: nat, b: nat, i: nat)
    ensures Bit(And(a, b), i) <==> Bit(a, i) && Bit(b, i)
    decreases i
  {
    ZeroBit(i);
    if a != 0 && b != 0 && i > 0 { AndBit(a / 2, b / 2, i - 1); }
  }

  lemma {:induction false} NotBit(x: nat, width: nat, i: nat)
    requires x < Pow2(width)
    ensures Bit(Not(x, width), i) <==> i < width && !Bit(x, i)
    decreases width
  {
    if width == 0 {
      ZeroBit(i);
    } else if i > 0 {
      assert Not(x, width) / 2 == Not(x / 2, width - 1);
      NotBit(x / 2, width - 1, i - 1);
    }
  }

  /** `(1 << n) - 1` has exactly its low `n` bits set. */
  lemma {:induction false} LowBits(n: nat, i: nat)
    ensures Bit(Pow2(n) - 1, i) <==> i < n
    decreases n
  {
    if n == 0 {
      ZeroBit(i);
    } else if i > 0 {
      assert (Pow2(n) - 1) / 2 == Pow2(n - 1) - 1;
      LowBits(n - 1, i - 1);
    }
  }

  lemma {:induction false} PowBit(n: nat, i: nat)
    ensures Bit(Pow2(n), i) <==> i == n
    decreases n
  {
    if n == 0 {
      if i > 0 { ZeroBit(i - 1); }
    } else if i > 0 {
      PowBit(n - 1, i - 1);
    }
  }

  lemma {:induction false} MulPowBit(x: nat, s: nat, i: nat)
    ensures Bit(x * Pow2(s), i) <==> s <= i && Bit(x, i - s)
    decreases s
  {
    if s == 0 {
    } else {
      var y := x * Pow2(s - 1);
      assert x * Pow2(s) == 2 * y;
      if i > 0 { MulPowBit(x, s - 1, i - 1); }
    }
  }

  lemma HalveMod(x: nat, p: nat)
    requires p > 0
    ensures (x % (2 * p)) / 2 == (x / 2) % p
    ensures (x % (2 * p)) % 2 == x % 2
  {
    var q, r := x / (2 * p), x % (2 * p);
    assert x == 2 * (p * q) + r;
    assert x / 2 == p * q + r / 2;
    assert r / 2 < p;
    DivModUnique(x / 2, p, q, r / 2);
  }

  lemma MulAwayFromZero(d: nat, t: int)
    ensures t > 0 ==> d * t >= d
    ensures t < 0 ==> d * t + d <= 0
  {
  }

  lemma DivModUnique(x: nat, d: nat, q: nat, r: nat)
    requires d > 0 && x == d * q + r && r < d
    ensures x / d == q && x % d == r
  {
    var t := x / d - q;
    assert d * (x / d) == d * q + d * t;
    assert x % d == r - d * t;
    MulAwayFromZero(d, t);
  }

  lemma {:induction false} TruncBit(x: nat, width: nat, i: nat)
    ensures Bit(x % Pow2(width), i) <==> i < width && Bit(x, i)
    decreases width
  {
    if width == 0 {
      ZeroBit(i);
    } else {
      HalveMod(x, Pow2(width - 1));
      if i > 0 { TruncBit(x / 2, width - 1, i - 1); }
    }
  }

  /** Shifting left moves bit `i - s` to bit `i` and drops what leaves the word. */
  lemma ShlBit(x: nat, s: nat, width: nat, i: nat)
    ensures Bit(Shl(x, s, width), i) <==> s <= i < width && Bit(x, i - s)
  {
    TruncBit(x * Pow2(s), width, i);
    MulPowBit(x, s, i);
  }

  lemma {:induction false} Extensional(a: nat, b: nat, width: nat)
    requires a < Pow2(width) && b < Pow2(width)
    requires forall i: nat :: i < width ==> (Bit(a, i) <==> Bit(b, i))
    ensures a == b
  {
    if width > 0 {
      assert Bit(a, 0) <==> Bit(b, 0);
      forall i: nat | i < width - 1
        ensures Bit(a / 2, i) <==> Bit(b / 2, i)
      {
        assert Bit(a, i + 1) <==> Bit(b, i + 1);
      }
      Extensional(a / 2, b / 2, width - 1);
    }
  }

  lemma {:induction false} OrBound(a: nat, b: nat, width: nat)
    requires a < Pow2(width) && b < Pow2(width)
    ensures Or(a, b) < Pow2(width)
  {
    if a != 0 && b != 0 && width > 0 { OrBound(a / 2, b / 2, width - 1); }
  }

  lemma {:induction false} AndBound(a: nat, b: nat, width: nat)
    requires a < Pow2(width) && b < Pow2(width)
    ensures And(a, b) < Pow2(width)
  {
    if a != 0 && b != 0 && width > 0 { AndBound(a / 2, b / 2, width - 1); }
  }

  lemma {:induction false} PowMonotone(m: nat, n: nat)
    requires m <= n
    ensures Pow2(m) <= Pow2(n)
    decreases n
  {
    if m < n { PowMonotone(m, n - 1); }
  }

  lemma PowAdd(m: nat, n: nat)
    ensures Pow2(m + n) == Pow2(m) * Pow2(n)
    decreases m
  {
    if m > 0 { PowAdd(m - 1, n); }
  }

  lemma Byte()
    ensures Pow2(8) == 256 && Pow2(0) == 1
  {
  }

  lemma PowByte(k: nat)
    ensures Pow2(8 * (k + 1)) == 256 * Pow2(8 * k)
  {
    Byte();
    PowAdd(8, 8 * k);
  }
}
