/**
Nonce use: over any interleaving of seals in the current and the previous epoch with changes of write
keys, when can two uses of one protection context share a nonce?
*/
module DtlsNonce {
  import opened Wire
  import opened Aead
  import opened DtlsRecord

  /** One use of the cipher: the installed context (by position) and the sequence handed to it. */
  datatype Use = Use(owner: nat, sequence: seq<byte>)

  /** The write state, every context installed so far, and every use of a cipher, oldest first. */
  datatype Trace = Trace(w: WriteState, contexts: seq<Context>, log: seq<Use>)

  datatype Op =
    | Seal(typ: byte, plain: seq<byte>, previous: bool, random: seq<byte>, maxOut: nat)
    | Install(ctx: Context)

  predicate Possible(w: WriteState, op: Op) {
    op.Seal? ==> w.Usable(op.previous) && RandomFits(w.Ctx(op.previous), op.random)
  }

  function Owner(t: Trace, previous: bool): int {
    |t.contexts| - if previous then 2 else 1
  }

  ghost function Next(t: Trace, op: Op): Trace {
    match op
    case Seal(typ, plain, previous, random, maxOut) =>
      if !t.w.Valid() || !Possible(t.w, op) then t
      else
        var used := CipherSeal(t.w, typ, plain, previous, random, maxOut).Some? && Owner(t, previous) >= 0;
        Trace(SealRecord(t.w, typ, plain, previous, random, maxOut).0, t.contexts,
              if used then t.log + [Use(Owner(t, previous), t.w.Sequence(previous))] else t.log)
    case Install(ctx) =>
      if !ctx.Valid() then t else Trace(t.w.Install(ctx), t.contexts + [ctx], t.log)
  }

  ghost function Run(ctx: Context, ops: seq<Op>): Trace
    decreases |ops|
  {
    if ops == [] then Trace(WriteState(0, ctx, 0, None, 0), [ctx], [])
    else Next(Run(ctx, ops[..|ops| - 1]), ops[|ops| - 1])
  }

  /** How often a context was used. */
  function Count(log: seq<Use>, owner: nat): nat {
    if log == [] then 0
    else Count(log[..|log| - 1], owner) + if log[|log| - 1].owner == owner then 1 else 0
  }

  /** The how-manieth use of its context entry `i` is. */
  function Rank(log: seq<Use>, i: nat): nat
    requires i < |log|
  {
    Count(log[..i], log[i].owner)
  }

  const WRAP: int := 0x1_0000_0000_0000

  function Wrapped(n: nat): nat {
    n % 0x1_0000_0000_0000
  }

  function EpochOf(owner: nat): nat {
    owner % 0x1_0000
  }

  function NthSequence(owner: nat, rank: nat): seq<byte> {
    ToBE(EpochOf(owner), W16) + ToBE(Wrapped(rank), W48)
  }

  ghost predicate Inv(t: Trace) {
    var n := |t.contexts|;
    && t.w.Valid() && n >= 1
    && t.w.epoch == EpochOf(n - 1) && t.w.ctx == t.contexts[n - 1]
    && (t.w.lastCtx.Some? <==> n >= 2)
    && (n >= 2 ==> t.w.lastCtx.value == t.contexts[n - 2] && t.w.lastSeqNum == Wrapped(Count(t.log, n - 2)))
    && t.w.seqNum == Wrapped(Count(t.log, n - 1))
    && (forall i :: 0 <= i < |t.log| ==>
          t.log[i].owner < n && t.log[i].sequence == NthSequence(t.log[i].owner, Rank(t.log, i)))
  }

  lemma {:induction false} CountNone(log: seq<Use>, owner: nat)
    requires forall i :: 0 <= i < |log| ==> log[i].owner < owner
    ensures Count(log, owner) == 0
  {
    if log != [] { CountNone(log[..|log| - 1], owner); }
  }

  lemma NextWrapped(n: nat)
    ensures Next48(Wrapped(n)) == Wrapped(n + 1)
  {
  }

  lemma LogGrows(log: seq<Use>, u: Use, o: nat)
    ensures Count(log + [u], o) == Count(log, o) + if u.owner == o then 1 else 0
    ensures forall i :: 0 <= i < |log| ==> (log + [u])[i] == log[i] && Rank(log + [u], i) == Rank(log, i)
    ensures Rank(log + [u], |log|) == Count(log, u.owner)
  {
    assert (log + [u])[..|log|] == log;
    forall i | 0 <= i < |log| ensures (log + [u])[..i] == log[..i] {}
  }

  /** Using a context appends its next sequence to the log and moves its counter on. */
  lemma UseKeeps(t: Trace, previous: bool)
    requires Inv(t) && t.w.Usable(previous)
    ensures Owner(t, previous) >= 0
    ensures Inv(Trace(t.w.Advance(previous), t.contexts, t.log + [Use(Owner(t, previous), t.w.Sequence(previous))]))
  {
    hide ToBE, Context.Valid, Wrapped, Rank, Count;
    var n, owner := |t.contexts|, Owner(t, previous);
    var u := Use(owner, t.w.Sequence(previous));
    LogGrows(t.log, u, n - 1);
    if n >= 2 { LogGrows(t.log, u, n - 2); }
    NextWrapped(Count(t.log, owner));
    assert u.sequence == NthSequence(owner, Count(t.log, owner));
  }

  lemma WrappedZero()
    ensures Wrapped(0) == 0
  {
  }

  lemma NextEpoch(owner: nat)
    ensures Next16(EpochOf(owner)) == EpochOf(owner + 1)
  {
  }

  lemma InstallKeeps(t: Trace, ctx: Context)
    requires Inv(t) && ctx.Valid()
    ensures Inv(Next(t, Install(ctx)))
  {
    hide ToBE, Context.Valid, Wrapped, Rank, Count, NthSequence, EpochOf;
    CountNone(t.log, |t.contexts|);
    WrappedZero();
    NextEpoch(|t.contexts| - 1);
  }

  lemma NextKeeps(t: Trace, op: Op)
    requires Inv(t)
    ensures Inv(Next(t, op))
  {
    hide CipherSeal, EncodeRecord, Inv;
    match op
    case Install(ctx) =>
      if ctx.Valid() { InstallKeeps(t, ctx); }
    case Seal(typ, plain, previous, random, maxOut) =>
      if t.w.Valid() && Possible(t.w, op) { UseKeeps(t, previous); }
  }

  lemma {:induction false} RunKeeps(ctx: Context, ops: seq<Op>)
    requires ctx.Valid()
    ensures Inv(Run(ctx, ops))
    decreases |ops|
  {
    hide Next, Inv;
    if ops == [] {
      StartHolds(ctx);
    } else {
      RunKeeps(ctx, ops[..|ops| - 1]);
      NextKeeps(Run(ctx, ops[..|ops| - 1]), ops[|ops| - 1]);
    }
  }

  lemma StartHolds(ctx: Context)
    requires ctx.Valid()
    ensures Inv(Trace(WriteState(0, ctx, 0, None, 0), [ctx], []))
  {
  }

  lemma {:induction false} CountMonotone(log: seq<Use>, i: nat, j: nat, owner: nat)
    requires i <= j <= |log|
    ensures Count(log[..i], owner) <= Count(log[..j], owner)
    ensures i < j && log[i].owner == owner ==> Count(log[..i], owner) < Count(log[..j], owner)
    decreases j
  {
    if i < j {
      assert log[..j][..j - 1] == log[..j - 1];
      CountMonotone(log, i, j - 1, owner);
    }
  }

  lemma RankGrows(log: seq<Use>, i: nat, j: nat)
    requires i < j < |log| && log[i].owner == log[j].owner
    ensures Rank(log, i) < Rank(log, j)
  {
    CountMonotone(log, i, j, log[i].owner);
  }

  lemma SequenceInjective(owner: nat, a: nat, b: nat)
    ensures NthSequence(owner, a) == NthSequence(owner, b) <==> Wrapped(a) == Wrapped(b)
  {
    hide ToBE, FromBE;
    Limit48();
    FromToBE(Wrapped(a), W48);
    FromToBE(Wrapped(b), W48);
    var s, r := NthSequence(owner, a), NthSequence(owner, b);
    assert s[W16..] == ToBE(Wrapped(a), W48) && r[W16..] == ToBE(Wrapped(b), W48);
  }

  /** Two ranks wrap to the same number exactly when a multiple of 2^48 lies between them. */
  lemma WrappedEqual(a: nat, b: nat)
    requires a <= b
    ensures Wrapped(a) == Wrapped(b) <==> (b - a) % 0x1_0000_0000_0000 == 0
  {
  }

  /**
  In every run, two uses of one nonce-carrying context have the same nonce exactly when the number of
  uses between them is a multiple of 2^48.
  */
  lemma NonceReuse(ctx: Context, ops: seq<Op>, i: nat, j: nat)
    requires ctx.Valid()
    requires var t := Run(ctx, ops); i < j < |t.log| && t.log[i].owner == t.log[j].owner < |t.contexts|
    requires var t := Run(ctx, ops); var c := t.contexts[t.log[i].owner]; c.Keyed? && !c.randomNonce && c.Valid()
    ensures var t := Run(ctx, ops);
            var c := t.contexts[t.log[i].owner];
            && |t.log[i].sequence| == |t.log[j].sequence| == SEQUENCE_LENGTH
            && Rank(t.log, i) < Rank(t.log, j)
            && (c.Nonce(t.log[i].sequence) == c.Nonce(t.log[j].sequence)
                <==> (Rank(t.log, j) - Rank(t.log, i)) % 0x1_0000_0000_0000 == 0)
  {
    hide Run, Context.Nonce, Wrapped, Rank, Count, Primitive.Correct, ToBE;
    RunKeeps(ctx, ops);
    var t := Run(ctx, ops);
    var owner := t.log[i].owner;
    RankGrows(t.log, i, j);
    SequenceInjective(owner, Rank(t.log, i), Rank(t.log, j));
    WrappedEqual(Rank(t.log, i), Rank(t.log, j));
    NonceInjective(t.contexts[owner], t.log[i].sequence, t.log[j].sequence);
  }

  lemma CounterIsCount(t: Trace, previous: bool)
    requires Inv(t) && Owner(t, previous) >= 0
    ensures t.w.SeqNum(previous) == Wrapped(Count(t.log, Owner(t, previous)))
  {
  }

  /** So nonces are unique as long as no context has been used more than 2^48 times... */
  lemma NonceUnique(ctx: Context, ops: seq<Op>, i: nat, j: nat)
    requires ctx.Valid()
    requires var t := Run(ctx, ops); i < j < |t.log| && t.log[i].owner == t.log[j].owner < |t.contexts|
    requires var t := Run(ctx, ops); var c := t.contexts[t.log[i].owner]; c.Keyed? && !c.randomNonce && c.Valid()
    requires var t := Run(ctx, ops); Count(t.log, t.log[i].owner) <= WRAP
    ensures var t := Run(ctx, ops);
            var c := t.contexts[t.log[i].owner];
            && |t.log[i].sequence| == |t.log[j].sequence| == SEQUENCE_LENGTH
            && c.Nonce(t.log[i].sequence) != c.Nonce(t.log[j].sequence)
  {
    hide Run, Context.Nonce;
    NonceReuse(ctx, ops, i, j);
    var t := Run(ctx, ops);
    CountMonotone(t.log, j, |t.log|, t.log[i].owner);
    assert t.log[..|t.log|] == t.log;
    assert 0 < Rank(t.log, j) - Rank(t.log, i) < WRAP;
  }

  /** ... and the 2^48th use of a context is the one that dtls_seal_record reports as a failure. */
  lemma LastUseFails(ctx: Context, ops: seq<Op>, op: Op)
    requires ctx.Valid() && op.Seal?
    requires var t := Run(ctx, ops);
             t.w.Valid() && Possible(t.w, op) && Owner(t, op.previous) >= 0
             && CipherSeal(t.w, op.typ, op.plain, op.previous, op.random, op.maxOut).Some?
             && Count(t.log, Owner(t, op.previous)) + 1 == WRAP
    ensures SealRecord(Run(ctx, ops).w, op.typ, op.plain, op.previous, op.random, op.maxOut).1.None?
  {
    hide Run, CipherSeal, Inv, Count, Context.Valid, EncodeRecord, WriteState.Valid, Rank;
    RunKeeps(ctx, ops);
    CounterIsCount(Run(ctx, ops), op.previous);
  }
}
