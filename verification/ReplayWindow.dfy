/** The 64-record sliding replay window of dtls_record.cc, against the set of recorded numbers. */
module ReplayWindow {
  import opened Words

  const WINDOW_SIZE := 64

  /** What the window stands for: the numbers recorded in this epoch and the largest of them. */
  datatype Seen = Seen(recorded: set<nat>, top: nat) {
    ghost predicate Valid() {
      && (forall n :: n in recorded ==> n <= top)
      && (if recorded == {} then top == 0 else top in recorded)
    }

    /** A number is a replay, or too old to tell. */
    predicate Rejects(n: nat) {
      n in recorded || n + WINDOW_SIZE <= top
    }

    function Add(n: nat): Seen {
      Seen(recorded + {n}, if n > top then n else top)
    }
  }

  const EMPTY := Seen({}, 0)

  /** Bit `i` of the map of a window up to `top` says whether `top - i` was recorded. */
  ghost predicate Maps(bits: nat, top: nat, recorded: set<nat>) {
    && bits < Pow2(WINDOW_SIZE)
    && forall i: nat :: i < WINDOW_SIZE ==> (Bit(bits, i) <==> i <= top && top - i in recorded)
  }

  ghost predicate Agree(bits: nat, maxSeqNum: nat, seen: Seen) {
    && seen.Valid()
    && seen.top == maxSeqNum
    && Maps(bits, maxSeqNum, seen.recorded)
  }

  class Bitmap {
    var bits: nat
    var maxSeqNum: nat
    ghost var seen: Seen

    ghost predicate Valid()
      reads this
    {
      Agree(bits, maxSeqNum, seen)
    }

    constructor ()
      ensures Valid() && seen == EMPTY
    {
      bits, maxSeqNum, seen := 0, 0, EMPTY;
      new;
      forall i: nat | i < WINDOW_SIZE ensures !Bit(bits, i) { ZeroBit(i); }
    }

    /** The memset to zero on a change of read epoch. */
    method Clear()
      modifies this
      ensures Valid() && seen == EMPTY
    {
      bits, maxSeqNum, seen := 0, 0, EMPTY;
      forall i: nat | i < WINDOW_SIZE ensures !Bit(bits, i) { ZeroBit(i); }
    }

    method ShouldDiscard(seqNum: nat) returns (discard: bool)
      requires Valid()
      ensures discard <==> seen.Rejects(seqNum)
    {
      if seqNum > maxSeqNum {
        return false;
      }
      var idx := maxSeqNum - seqNum;
      if idx >= WINDOW_SIZE {
        return true;
      }
      AndBit(bits, Pow2(idx), idx);
      PowBit(idx, idx);
      SingleBit(bits, idx);
      return And(bits, Pow2(idx)) != 0;
    }

    method Record(seqNum: nat)
      requires Valid()
      modifies this
      ensures Valid() && seen == old(seen).Add(seqNum)
    {
      hide Maps, Bit, Or, Shl, Pow2;
      if seqNum > maxSeqNum {
        var shift := seqNum - maxSeqNum;
        MoveWindow(bits, maxSeqNum, seen, seqNum);
        if shift >= WINDOW_SIZE {
          bits := 0;
        } else {
          bits := Shl(bits, shift, WINDOW_SIZE);
        }
        maxSeqNum := seqNum;
      }
      var idx := maxSeqNum - seqNum;
      MarkBit(bits, maxSeqNum, seen.recorded, seqNum);
      if idx < WINDOW_SIZE {
        bits := Or(bits, Pow2(idx));
      }
      seen := seen.Add(seqNum);
    }
  }

  lemma MoveWindow(bits: nat, maxSeqNum: nat, seen: Seen, seqNum: nat)
    requires Agree(bits, maxSeqNum, seen) && seqNum > maxSeqNum
    ensures var shift := seqNum - maxSeqNum;
            Maps(if shift >= WINDOW_SIZE then 0 else Shl(bits, shift, WINDOW_SIZE), seqNum, seen.recorded)
  {
    hide Bit, Shl;
    var shift := seqNum - maxSeqNum;
    var moved := if shift >= WINDOW_SIZE then 0 else Shl(bits, shift, WINDOW_SIZE);
    ShlBound(bits, shift, WINDOW_SIZE);
    forall i: nat | i < WINDOW_SIZE ensures Bit(moved, i) <==> i <= seqNum && seqNum - i in seen.recorded
    {
      ZeroBit(i);
      ShlBit(bits, shift, WINDOW_SIZE, i);
    }
  }

  lemma ShlBound(x: nat, s: nat, width: nat)
    ensures Shl(x, s, width) < Pow2(width)
  {
  }

  lemma MarkBit(bits: nat, top: nat, recorded: set<nat>, n: nat)
    requires Maps(bits, top, recorded) && n <= top
    ensures Maps(if top - n < WINDOW_SIZE then Or(bits, Pow2(top - n)) else bits, top, recorded + {n})
  {
    hide Bit, Or, Pow2;
    var idx := top - n;
    if idx < WINDOW_SIZE {
      PowStrict(idx, WINDOW_SIZE);
      OrBound(bits, Pow2(idx), WINDOW_SIZE);
      forall i: nat | i < WINDOW_SIZE
        ensures Bit(Or(bits, Pow2(idx)), i) <==> i <= top && top - i in recorded + {n}
      {
        OrBit(bits, Pow2(idx), i);
        PowBit(idx, i);
      }
    }
  }

  lemma {:induction false} PowStrict(m: nat, n: nat)
    requires m < n
    ensures Pow2(m) < Pow2(n)
    decreases n
  {
    if m < n - 1 { PowStrict(m, n - 1); }
  }

  /** Masking with one bit leaves a non-zero word exactly when that bit is set. */
  lemma SingleBit(x: nat, i: nat)
    ensures And(x, Pow2(i)) != 0 <==> Bit(x, i)
  {
    AndBit(x, Pow2(i), i);
    PowBit(i, i);
    ZeroBit(i);
    if !Bit(x, i) {
      var width := i + 1 + x;
      BelowOwnPower(x);
      PowMonotone(x, width);
      PowStrict(i, width);
      AndBound(x, Pow2(i), width);
      forall j: nat | j < width ensures Bit(And(x, Pow2(i)), j) <==> Bit(0, j) {
        AndBit(x, Pow2(i), j);
        PowBit(i, j);
        ZeroBit(j);
      }
      Extensional(And(x, Pow2(i)), 0, width);
    }
  }

  lemma {:induction false} BelowOwnPower(x: nat)
    ensures x < Pow2(x)
  {
    if x > 0 { BelowOwnPower(x - 1); }
  }

  /** The records of one epoch that pass the filter, in arrival order. */
  function Accepted(seen: Seen, arrivals: seq<nat>): seq<nat>
    decreases arrivals
  {
    if arrivals == [] then []
    else if seen.Rejects(arrivals[0]) then Accepted(seen, arrivals[1..])
    else [arrivals[0]] + Accepted(seen.Add(arrivals[0]), arrivals[1..])
  }

  ghost predicate Distinct(a: seq<nat>) {
    forall i, j :: 0 <= i < j < |a| ==> a[i] != a[j]
  }

  ghost predicate Avoids(a: seq<nat>, s: set<nat>) {
    forall n :: n in a ==> n !in s
  }

  /** No record is accepted twice in an epoch, whatever arrives, and none that was recorded before. */
  lemma {:induction false} NoReplay(seen: Seen, arrivals: seq<nat>)
    ensures Distinct(Accepted(seen, arrivals)) && Avoids(Accepted(seen, arrivals), seen.recorded)
    decreases arrivals
  {
    if arrivals != [] {
      if seen.Rejects(arrivals[0]) {
        NoReplay(seen, arrivals[1..]);
      } else {
        var next := seen.Add(arrivals[0]);
        NoReplay(next, arrivals[1..]);
        var rest := Accepted(next, arrivals[1..]);
        assert arrivals[0] !in rest;
      }
    }
  }

  /** A first arrival that is less than 64 behind everything that came before it is accepted. */
  lemma {:induction false} FreshAccepted(seen: Seen, before: seq<nat>, n: nat, after: seq<nat>)
    requires n !in seen.recorded && n !in before
    requires seen.top < n + WINDOW_SIZE
    requires forall m :: m in before ==> m < n + WINDOW_SIZE
    ensures n in Accepted(seen, before + [n] + after)
    decreases before
  {
    if before == [] {
      assert (before + [n] + after)[0] == n;
    } else {
      var tail := before[1..];
      assert (before + [n] + after)[1..] == tail + [n] + after;
      assert before[0] in before && forall m :: m in tail ==> m in before;
      FreshAccepted(if seen.Rejects(before[0]) then seen else seen.Add(before[0]), tail, n, after);
    }
  }
}
