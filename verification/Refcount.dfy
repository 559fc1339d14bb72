/**
The reference count that saturates, under any interleaving of any number of threads: the compare-and-swap
loops of refcount_c11.c and the locked form of refcount_lock.c, both shown to refine one atomic counter.
*/
module Refcount {

  const MAX: nat := 0xffff_ffff

  // ---------------------------------------------------------------- the atomic counter

  /** `held` says how many references each thread owns; `zeros` counts the decrements that returned true. */
  datatype Counter = Counter(
    count: nat, held: seq<nat>, start: nat, incs: nat, decs: nat, zeros: nat, saturated: bool, aborted: bool)

  datatype Op = Inc | Dec

  function Sum(held: seq<nat>): nat {
    if held == [] then 0 else held[0] + Sum(held[1..])
  }

  /** A thread that owns a reference does one whole operation; an increment gives it one more. */
  function Apply(a: Counter, op: Op, t: nat): Counter
    requires t < |a.held| && a.held[t] > 0
  {
    match op
    case Inc =>
      a.(count := if a.count == MAX then MAX else a.count + 1,
         held := a.held[t := a.held[t] + 1],
         incs := a.incs + 1,
         saturated := a.saturated || a.count + 1 >= MAX)
    case Dec =>
      if a.count == 0 then a.(aborted := true)
      else a.(count := if a.count == MAX then MAX else a.count - 1,
              held := a.held[t := a.held[t] - 1],
              decs := a.decs + 1,
              zeros := a.zeros + if a.count == 1 then 1 else 0)
  }

  /** One thread hands a reference to another. */
  function Share(a: Counter, from: nat, to: nat): Counter
    requires from < |a.held| && to < |a.held| && a.held[from] > 0
  {
    var taken := a.held[from := a.held[from] - 1];
    a.(held := taken[to := taken[to] + 1])
  }

  /**
  Until it saturates, the count is the number of references that threads own, and the initial value plus
  increments minus decrements; once saturated it stays so.  A decrement told its caller at most once that it
  was the last, it did so when the count came to zero, and then nobody owns a reference any more.
  */
  ghost predicate Sound(a: Counter) {
    && a.count <= MAX && !a.aborted
    && (a.saturated <==> a.count == MAX)
    && (!a.saturated ==> a.count == Sum(a.held) && a.count + a.decs == a.start + a.incs)
    && a.zeros <= 1
    && (a.zeros == 1 ==> a.count == 0 && Sum(a.held) == 0)
    && (a.start > 0 && a.count == 0 ==> a.zeros == 1)
  }

  lemma {:induction false} SumSet(held: seq<nat>, t: nat, n: nat)
    requires t < |held|
    ensures Sum(held[t := n]) == Sum(held) - held[t] + n
    ensures held[t] <= Sum(held)
    decreases held
  {
    if t == 0 {
      assert held[0 := n][1..] == held[1..];
    } else {
      assert held[t := n][1..] == held[1..][t - 1 := n];
      SumSet(held[1..], t - 1, n);
    }
  }

  /** Every operation by the owner of a reference keeps this; in particular it does not abort. */
  lemma ApplySound(a: Counter, op: Op, t: nat)
    requires Sound(a) && t < |a.held| && a.held[t] > 0
    ensures Sound(Apply(a, op, t))
  {
    hide Sum;
    SumSet(a.held, t, a.held[t] + 1);
    SumSet(a.held, t, a.held[t] - 1);
  }

  lemma ShareSound(a: Counter, from: nat, to: nat)
    requires Sound(a) && from < |a.held| && to < |a.held| && a.held[from] > 0
    ensures Sound(Share(a, from, to))
  {
    hide Sum;
    SumSet(a.held, from, a.held[from] - 1);
    var taken := a.held[from := a.held[from] - 1];
    SumSet(taken, to, taken[to] + 1);
  }

  // ---------------------------------------------------------------- compare and swap

  /** What a thread is doing: nothing, or a loop that has last seen `expected`. */
  datatype Pc = Idle | Trying(op: Op, expected: nat)

  /** The shared word is `shared.count`; the rest of `shared` is what happened so far. */
  datatype Swapping = Swapping(shared: Counter, pcs: seq<Pc>)

  /** `spurious` is the weak exchange failing although the word has the expected value. */
  datatype SwapEvent = Begin(t: nat, op: Op) | Try(t: nat, spurious: bool) | Hand(from: nat, to: nat)

  /** The return from an operation that left `count` in the word. */
  function Return(a: Counter, op: Op, t: nat, count: nat, zero: bool): Counter
    requires t < |a.held| && a.held[t] > 0
  {
    match op
    case Inc =>
      a.(count := count, held := a.held[t := a.held[t] + 1], incs := a.incs + 1,
         saturated := a.saturated || count == MAX)
    case Dec =>
      a.(count := count, held := a.held[t := a.held[t] - 1], decs := a.decs + 1,
         zeros := a.zeros + if zero then 1 else 0)
  }

  /** One turn of the loop of CRYPTO_refcount_inc or CRYPTO_refcount_dec_and_test_zero. */
  function Turn(s: Swapping, t: nat, spurious: bool): Swapping
    requires t < |s.pcs| && t < |s.shared.held| && s.pcs[t].Trying? && s.shared.held[t] > 0
  {
    var a := s.shared;
    var expected := s.pcs[t].expected;
    var idle := s.pcs[t := Idle];
    var again := s.(pcs := s.pcs[t := Trying(s.pcs[t].op, a.count)]);
    match s.pcs[t].op
    case Inc =>
      if expected == MAX then Swapping(Return(a, Inc, t, a.count, false), idle)
      else if !spurious && a.count == expected then Swapping(Return(a, Inc, t, expected + 1, false), idle)
      else again
    case Dec =>
      if expected == 0 then s.(shared := a.(aborted := true))
      else if expected == MAX then Swapping(Return(a, Dec, t, a.count, false), idle)
      else if !spurious && a.count == expected then Swapping(Return(a, Dec, t, expected - 1, expected - 1 == 0), idle)
      else again
  }

  /** A thread keeps the reference that an operation in progress needs. */
  predicate CanHand(s: Swapping, from: nat) {
    from < |s.pcs| && from < |s.shared.held| && s.shared.held[from] > if s.pcs[from].Idle? then 0 else 1
  }

  function SwapStep(s: Swapping, e: SwapEvent): Swapping {
    match e
    case Begin(t, op) =>
      if t < |s.pcs| && t < |s.shared.held| && s.pcs[t].Idle? && s.shared.held[t] > 0
      then s.(pcs := s.pcs[t := Trying(op, s.shared.count)]) else s
    case Try(t, spurious) =>
      if t < |s.pcs| && t < |s.shared.held| && s.pcs[t].Trying? && s.shared.held[t] > 0 then Turn(s, t, spurious) else s
    case Hand(from, to) =>
      if CanHand(s, from) && to < |s.shared.held| then s.(shared := Share(s.shared, from, to)) else s
  }

  /** A loop owns a reference, has not seen 0, and has seen MAX only if the count is saturated. */
  ghost predicate SwapInv(s: Swapping) {
    && Sound(s.shared) && |s.pcs| == |s.shared.held|
    && forall t :: 0 <= t < |s.pcs| && s.pcs[t].Trying? ==> Fresh(s, s.pcs[t].expected) && s.shared.held[t] > 0
  }

  predicate Fresh(s: Swapping, expected: nat) {
    0 < expected <= MAX && (expected == MAX ==> s.shared.count == MAX)
  }

  lemma OwnedCount(a: Counter, t: nat)
    requires Sound(a) && t < |a.held| && a.held[t] > 0
    ensures a.count > 0
  {
    hide Sum;
    SumSet(a.held, t, 0);
  }

  /**
  Refinement: a turn of a loop either leaves the counter alone or is one whole operation of the atomic
  counter, with its result.
  */
  lemma TurnRefines(s: Swapping, t: nat, spurious: bool)
    requires SwapInv(s) && t < |s.pcs| && s.pcs[t].Trying?
    ensures var n := Turn(s, t, spurious);
            && SwapInv(n)
            && if n.pcs[t].Idle? then n.shared == Apply(s.shared, s.pcs[t].op, t) else n.shared == s.shared
  {
    hide Sum, Sound;
    OwnedCount(s.shared, t);
    CountBound(s.shared);
    ApplySound(s.shared, s.pcs[t].op, t);
  }

  lemma CountBound(a: Counter)
    requires Sound(a)
    ensures a.count <= MAX && (a.saturated <==> a.count == MAX)
  {
  }

  lemma SwapStepKeeps(s: Swapping, e: SwapEvent)
    requires SwapInv(s)
    ensures SwapInv(SwapStep(s, e))
  {
    hide Sum, Sound, Turn, Share, Apply;
    match e
    case Begin(t, op) =>
      if t < |s.pcs| && s.shared.held[t] > 0 { OwnedCount(s.shared, t); CountBound(s.shared); }
    case Try(t, spurious) =>
      if t < |s.pcs| && s.pcs[t].Trying? { TurnRefines(s, t, spurious); }
    case Hand(from, to) =>
      if CanHand(s, from) && to < |s.shared.held| {
        ShareSound(s.shared, from, to);
        ShareHeld(s.shared, from, to);
      }
  }

  lemma ShareHeld(a: Counter, from: nat, to: nat)
    requires from < |a.held| && to < |a.held| && a.held[from] > 0
    ensures var b := Share(a, from, to);
            && |b.held| == |a.held| && b.count == a.count
            && forall t :: 0 <= t < |a.held| ==> b.held[t] >= (if t == from then a.held[t] - 1 else a.held[t])
  {
  }

  function SwapRun(s: Swapping, events: seq<SwapEvent>): Swapping {
    if events == [] then s else SwapStep(SwapRun(s, events[..|events| - 1]), events[|events| - 1])
  }

  /** Threads that are idle, with the references they own counted. */
  ghost predicate Fair(a: Counter) {
    && a.start == a.count == Sum(a.held) < MAX
    && a.incs == a.decs == a.zeros == 0 && !a.saturated && !a.aborted
  }

  /**
  Any number of threads, any interleaving, any spurious failures: the count stays sound, so no decrement
  aborts, and at most one returns true.
  */
  lemma {:induction false} SwapSound(s: Swapping, events: seq<SwapEvent>)
    requires Fair(s.shared) && |s.pcs| == |s.shared.held| && forall t :: 0 <= t < |s.pcs| ==> s.pcs[t].Idle?
    ensures SwapInv(SwapRun(s, events))
  {
    hide SwapStep;
    if events != [] {
      SwapSound(s, events[..|events| - 1]);
      SwapStepKeeps(SwapRun(s, events[..|events| - 1]), events[|events| - 1]);
    }
  }

  // ---------------------------------------------------------------- lock

  /** In refcount_lock.c a thread waits for the lock, reads the count, writes it, and leaves. */
  datatype LockPc = Out | Waiting(op: Op) | Inside(op: Op) | Read(op: Op, seen: nat) | Leaving

  datatype Locking = Locking(shared: Counter, holder: int, pcs: seq<LockPc>)

  const NOBODY := -1

  datatype LockEvent = Call(t: nat, op: Op) | Acquire(t: nat) | Load(t: nat) | Store(t: nat) | Release(t: nat)
                     | Pass(from: nat, to: nat)

  /** The write under the lock, from the value that was read under it. */
  function Write(s: Locking, t: nat): Locking
    requires t < |s.pcs| && t < |s.shared.held| && s.pcs[t].Read? && s.shared.held[t] > 0
  {
    var seen := s.pcs[t].seen;
    var left := s.pcs[t := Leaving];
    match s.pcs[t].op
    case Inc => s.(shared := Return(s.shared, Inc, t, if seen < MAX then seen + 1 else seen, false), pcs := left)
    case Dec =>
      if seen == 0 then s.(shared := s.shared.(aborted := true))
      else
        var count := if seen < MAX then seen - 1 else seen;
        s.(shared := Return(s.shared, Dec, t, count, count == 0), pcs := left)
  }

  predicate Working(pc: LockPc) {
    pc.Waiting? || pc.Inside? || pc.Read?
  }

  function LockStep(s: Locking, e: LockEvent): Locking {
    match e
    case Call(t, op) =>
      if t < |s.pcs| && t < |s.shared.held| && s.pcs[t].Out? && s.shared.held[t] > 0
      then s.(pcs := s.pcs[t := Waiting(op)]) else s
    case Acquire(t) =>
      if t < |s.pcs| && s.pcs[t].Waiting? && s.holder == NOBODY
      then s.(holder := t, pcs := s.pcs[t := Inside(s.pcs[t].op)]) else s
    case Load(t) =>
      if t < |s.pcs| && s.pcs[t].Inside? then s.(pcs := s.pcs[t := Read(s.pcs[t].op, s.shared.count)]) else s
    case Store(t) =>
      if t < |s.pcs| && t < |s.shared.held| && s.pcs[t].Read? && s.shared.held[t] > 0 then Write(s, t) else s
    case Release(t) =>
      if t < |s.pcs| && s.pcs[t].Leaving? then s.(holder := NOBODY, pcs := s.pcs[t := Out]) else s
    case Pass(from, to) =>
      if from < |s.pcs| && from < |s.shared.held| && to < |s.shared.held|
         && s.shared.held[from] > (if Working(s.pcs[from]) then 1 else 0)
      then s.(shared := Share(s.shared, from, to)) else s
  }

  /** Whoever is past the lock holds it, so what was read under it is still there. */
  ghost predicate LockInv(s: Locking) {
    && Sound(s.shared) && |s.pcs| == |s.shared.held|
    && forall t :: 0 <= t < |s.pcs| ==> ThreadOk(s, t)
  }

  predicate ThreadOk(s: Locking, t: nat)
    requires t < |s.pcs| == |s.shared.held|
  {
    var pc := s.pcs[t];
    && (pc.Inside? || pc.Read? || pc.Leaving? ==> s.holder == t)
    && (pc.Read? ==> pc.seen == s.shared.count)
    && (Working(pc) ==> s.shared.held[t] > 0)
  }

  /** Refinement: the write under the lock is one whole operation of the atomic counter. */
  lemma WriteRefines(s: Locking, t: nat)
    requires LockInv(s) && t < |s.pcs| && s.pcs[t].Read?
    ensures s.shared.held[t] > 0 && LockInv(Write(s, t))
    ensures Write(s, t).shared == Apply(s.shared, s.pcs[t].op, t)
  {
    hide Sum, Sound;
    assert ThreadOk(s, t);
    OwnedCount(s.shared, t);
    CountBound(s.shared);
    ApplySound(s.shared, s.pcs[t].op, t);
    var n := Write(s, t);
    forall u | 0 <= u < |n.pcs| ensures ThreadOk(n, u) {
      assert ThreadOk(s, u);
    }
  }

  lemma LockStepKeeps(s: Locking, e: LockEvent)
    requires LockInv(s)
    ensures LockInv(LockStep(s, e))
  {
    hide Sum, Sound, Write, Share, Apply;
    var n := LockStep(s, e);
    if e.Store? && e.t < |s.pcs| && s.pcs[e.t].Read? {
      WriteRefines(s, e.t);
    } else {
      if e.Pass? && e.from < |s.pcs| && e.to < |s.pcs| && s.shared.held[e.from] > 0 {
        ShareSound(s.shared, e.from, e.to);
        ShareHeld(s.shared, e.from, e.to);
      }
      forall u | 0 <= u < |n.pcs| ensures ThreadOk(n, u) {
        assert ThreadOk(s, u);
        if e.Release? && e.t < |s.pcs| { assert ThreadOk(s, e.t); }
      }
    }
  }

  function LockRun(s: Locking, events: seq<LockEvent>): Locking {
    if events == [] then s else LockStep(LockRun(s, events[..|events| - 1]), events[|events| - 1])
  }

  /** The same for the locked form. */
  lemma {:induction false} LockSound(s: Locking, events: seq<LockEvent>)
    requires Fair(s.shared) && |s.pcs| == |s.shared.held| && forall t :: 0 <= t < |s.pcs| ==> s.pcs[t].Out?
    ensures LockInv(LockRun(s, events))
  {
    hide LockStep;
    if events != [] {
      LockSound(s, events[..|events| - 1]);
      LockStepKeeps(LockRun(s, events[..|events| - 1]), events[|events| - 1]);
    }
  }
}
