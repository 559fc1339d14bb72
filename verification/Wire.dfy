/** Option values, bytes and big-endian integers, as read and written by CBS and CBB. */
module Wire {
  import opened Words

  datatype Option<+T> = None | Some(value: T)

  type byte = b: int | 0 <= b < 256

  function FromBE(s: seq<byte>): (n: nat)
  {
    if s == [] then 0 else FromBE(s[..|s| - 1]) * 256 + s[|s| - 1]
  }

  /** The low `len` bytes of `n`, most significant first. */
  function ToBE(n: nat, len: nat): (s: seq<byte>)
    ensures |s| == len
  {
    if len == 0 then [] else ToBE(n / 256, len - 1) + [n % 256]
  }

  lemma {:induction false} FromToBE(n: nat, len: nat)
    requires n < Pow2(8 * len)
    ensures FromBE(ToBE(n, len)) == n
  {
    if len > 0 {
      PowAdd(8 * (len - 1), 8);
      assert Pow2(8) == 256;
      assert n / 256 < Pow2(8 * (len - 1));
      FromToBE(n / 256, len - 1);
      assert ToBE(n, len)[..len - 1] == ToBE(n / 256, len - 1);
    }
  }

  lemma {:induction false} ToFromBE(s: seq<byte>)
    ensures ToBE(FromBE(s), |s|) == s
    ensures FromBE(s) < Pow2(8 * |s|)
  {
    if s != [] {
      ToFromBE(s[..|s| - 1]);
      PowAdd(8 * (|s| - 1), 8);
      assert Pow2(8) == 256;
    }
  }

  /** Field widths in bytes. */
  const W16: nat := 2
  const W24: nat := 3
  const W48: nat := 6

  const LIMIT16: nat := 0x1_0000
  const LIMIT24: nat := 0x100_0000
  const LIMIT48: nat := 0x1_0000_0000_0000

  /** Adding one in 48 bits. */
  function Next48(n: nat): nat {
    if n + 1 == LIMIT48 then 0 else n + 1
  }

  /** Adding one in 16 bits. */
  function Next16(n: nat): nat {
    if n + 1 == LIMIT16 then 0 else n + 1
  }

  lemma Limit16()
    ensures Pow2(8 * W16) == LIMIT16
  {
    assert Pow2(8) == 256;
    PowAdd(8, 8);
  }

  lemma Limit24()
    ensures Pow2(8 * W24) == LIMIT24
  {
    Limit16();
    assert Pow2(8) == 256;
    PowAdd(16, 8);
  }

  lemma Limit48()
    ensures Pow2(8 * W48) == LIMIT48
  {
    Limit24();
    PowAdd(8 * W24, 8 * W24);
  }

  lemma FromTo16(n: nat)
    requires n < LIMIT16
    ensures FromBE(ToBE(n, W16)) == n
  {
    Limit16();
    FromToBE(n, W16);
  }

  lemma FromTo24(n: nat)
    requires n < LIMIT24
    ensures FromBE(ToBE(n, W24)) == n
  {
    Limit24();
    FromToBE(n, W24);
  }
}
