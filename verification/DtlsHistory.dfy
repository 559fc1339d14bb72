/** What the queue of a sender holds, told from what was done with it. */
module DtlsHistory {
  import opened Wire
  import opened Aead
  import opened Reassembly
  import opened DtlsRecord
  import opened DtlsReceive
  import opened DtlsSend

  /** What the handshake does with a sender. */
  datatype Act =
    | Add(isCcs: bool, data: seq<byte>)
    | Keys(ctx: Context)
    | Flush(mtu: nat, bio: nat -> int, flushed: int, entropy: Entropy)
    | Again(mtu: nat, bio: nat -> int, flushed: int, entropy: Entropy)
    | Reply
  {
    ghost predicate Ok() {
      match this
      case Add(isCcs, data) => |data| <= MAX_MESSAGE_SIZE && forall epoch :: WellFormed(Outgoing(data, epoch, isCcs))
      case Keys(ctx) => ctx.Valid()
      case _ => true
    }

    predicate Builds() {
      Add? || Keys?
    }
  }

  ghost predicate AllOk(acts: seq<Act>) {
    forall i :: 0 <= i < |acts| ==> acts[i].Ok()
  }

  ghost function Done(tx: Tx, a: Act): (next: Tx)
    requires tx.Valid() && a.Ok()
    ensures next.Valid()
  {
    match a
    case Add(isCcs, data) =>
      QueueValid(tx, isCcs, data);
      AddOutgoing(tx, isCcs, data).0
    case Keys(ctx) =>
      KeysValid(tx, ctx);
      NewWriteState(tx, ctx)
    case Flush(mtu, bio, flushed, entropy) =>
      FlushValid(tx);
      CallKeeps(tx.(complete := true), mtu, bio, entropy, 0);
      SendFlight(tx.(complete := true), mtu, bio, flushed, entropy).tx
    case Again(mtu, bio, flushed, entropy) =>
      FlushValid(tx);
      CallKeeps(Rewind(tx), mtu, bio, entropy, 0);
      SendFlight(Rewind(tx), mtu, bio, flushed, entropy).tx
    case Reply =>
      FlushValid(tx);
      NoteReply(tx)
  }

  ghost function AllDone(tx: Tx, acts: seq<Act>): (last: Tx)
    requires tx.Valid() && AllOk(acts)
    ensures last.Valid()
    decreases acts
  {
    if acts == [] then tx else AllDone(Done(tx, acts[0]), acts[1..])
  }

  lemma KeysValid(tx: Tx, ctx: Context)
    requires tx.Valid() && ctx.Valid()
    ensures NewWriteState(tx, ctx).Valid()
  {
    hide WellFormed, Context.Valid;
  }

  lemma FlushValid(tx: Tx)
    requires tx.Valid()
    ensures tx.(complete := true).Valid() && tx.(hasReply := true).Valid() && Rewind(tx).Valid()
  {
    hide WellFormed, WriteState.Valid;
  }

  /** A call of send_flight changes nothing but the position and the sequence numbers. */
  lemma {:induction false} CallKeeps(tx: Tx, mtu: nat, bio: nat -> int, entropy: Entropy, k: nat)
    requires tx.Valid()
    ensures var s := SendLoop(tx, mtu, bio, entropy, k).tx; s.Valid() && s == tx.(w := s.w, at := s.at)
    decreases |tx.messages| - tx.at.written, BytesLeft(tx)
  {
    hide SealRecords, WellFormed, WriteState.Valid, Flatten;
    AtWithinFlight(tx);
    if tx.at.written < |tx.messages| {
      PacketProgress(tx, mtu, entropy, k);
      SendLoopTurn(tx, mtu, bio, entropy, k);
      var (next, packet) := SealNextPacket(tx, mtu, entropy, k);
      if packet.Some? && bio(k) > 0 { CallKeeps(next, mtu, bio, entropy, k + 1); }
    }
  }

  // ---------------------------------------------------------------- building a flight

  /** The messages that `acts` queue, each with the epoch that it was added in. */
  function Queued(acts: seq<Act>, epoch: nat): seq<Outgoing> {
    if acts == [] then []
    else
      match acts[0]
      case Add(isCcs, data) => [Outgoing(data, epoch, isCcs)] + Queued(acts[1..], epoch)
      case Keys(_) => Queued(acts[1..], Next16(epoch))
      case _ => Queued(acts[1..], epoch)
  }

  /** The handshake messages among them, which go into the transcript. */
  function Hashes(acts: seq<Act>): seq<seq<byte>> {
    if acts == [] then []
    else (if acts[0].Add? && !acts[0].isCcs then [acts[0].data] else []) + Hashes(acts[1..])
  }

  ghost predicate Building(acts: seq<Act>) {
    forall i :: 0 <= i < |acts| ==> acts[i].Builds()
  }

  function Plus16(a: nat, n: nat): nat {
    (a + n) % LIMIT16
  }

  function EpochAfter(a: Act, epoch: nat): nat {
    if a.Keys? then Next16(epoch) else epoch
  }

  function QueuedBy(a: Act, epoch: nat): seq<Outgoing> {
    if a.Add? then [Outgoing(a.data, epoch, a.isCcs)] else []
  }

  function HashedBy(a: Act): seq<seq<byte>> {
    if a.Add? && !a.isCcs then [a.data] else []
  }

  lemma FirstOf(acts: seq<Act>, epoch: nat)
    requires acts != []
    ensures Queued(acts, epoch) == QueuedBy(acts[0], epoch) + Queued(acts[1..], EpochAfter(acts[0], epoch))
    ensures Hashes(acts) == HashedBy(acts[0]) + Hashes(acts[1..])
  {
    assert [] + Queued(acts[1..], EpochAfter(acts[0], epoch)) == Queued(acts[1..], EpochAfter(acts[0], epoch));
  }

  lemma BuildStep(tx: Tx, a: Act)
    requires tx.Valid() && !tx.complete && a.Ok() && a.Builds() && (a.Add? ==> |tx.messages| < MAX_FLIGHT)
    ensures var next := Done(tx, a);
            && !next.complete && next.hasReply == tx.hasReply && next.at == tx.at
            && next.w.epoch == EpochAfter(a, tx.w.epoch)
            && next.messages == tx.messages + QueuedBy(a, tx.w.epoch) && next.hashed == tx.hashed + HashedBy(a)
            && next.writeSeq == Plus16(tx.writeSeq, |HashedBy(a)|)
  {
    hide WellFormed, WriteState.Valid, Context.Valid;
    assert tx.messages + [] == tx.messages && tx.hashed + [] == tx.hashed;
  }

  lemma PlusTwice(a: nat, m: nat, n: nat)
    requires m <= 1
    ensures Plus16(Plus16(a, m), n) == Plus16(a, m + n)
  {
  }

  /** A flight that is being built holds what is added to it, in that order. */
  lemma {:induction false} FlightGrows(tx: Tx, acts: seq<Act>)
    requires tx.Valid() && !tx.complete && AllOk(acts) && Building(acts)
    requires |tx.messages| + |Queued(acts, tx.w.epoch)| <= MAX_FLIGHT
    ensures var last := AllDone(tx, acts);
            && last.messages == tx.messages + Queued(acts, tx.w.epoch) && last.hashed == tx.hashed + Hashes(acts)
            && last.writeSeq == Plus16(tx.writeSeq, |Hashes(acts)|)
            && last.at == tx.at && !last.complete && last.hasReply == tx.hasReply
    decreases acts
  {
    hide Done, Act.Ok, Plus16, Queued, Hashes, QueuedBy, HashedBy, EpochAfter, Tx.Valid;
    if acts == [] {
      NothingBuilt(tx);
    } else {
      var a, rest := acts[0], acts[1..];
      FirstOf(acts, tx.w.epoch);
      assert a.Builds();
      AtMostOne(a, tx.w.epoch);
      BuildStep(tx, a);
      FlightGrows(Done(tx, a), rest);
      PlusTwice(tx.writeSeq, |HashedBy(a)|, |Hashes(rest)|);
      AppendTwice(tx.messages, QueuedBy(a, tx.w.epoch), Queued(rest, EpochAfter(a, tx.w.epoch)));
      AppendTwice(tx.hashed, HashedBy(a), Hashes(rest));
    }
  }

  lemma AppendTwice<T>(a: seq<T>, b: seq<T>, c: seq<T>)
    ensures a + b + c == a + (b + c)
  {
  }

  lemma AtMostOne(a: Act, epoch: nat)
    ensures |HashedBy(a)| <= 1 && (a.Add? ==> |QueuedBy(a, epoch)| == 1)
  {
  }

  lemma NothingBuilt(tx: Tx)
    requires tx.Valid()
    ensures tx.messages + Queued([], tx.w.epoch) == tx.messages && tx.hashed + Hashes([]) == tx.hashed
    ensures Plus16(tx.writeSeq, |Hashes([])|) == tx.writeSeq
  {
    PlusNone(tx);
  }

  lemma PlusNone(tx: Tx)
    requires tx.Valid()
    ensures Plus16(tx.writeSeq, 0) == tx.writeSeq
  {
    hide WellFormed, WriteState.Valid;
  }

  /** A new flight begins with nothing in the queue, or behind a flight that is complete. */
  ghost predicate Begins(tx: Tx) {
    tx.complete || (tx.messages == [] && !tx.hasReply && tx.at == Cursor(0, 0))
  }

  lemma BeginStep(tx: Tx, a: Act)
    requires tx.Valid() && Begins(tx) && a.Ok() && a.Add?
    ensures var cleared := tx.(messages := [], at := Cursor(0, 0), complete := false, hasReply := false);
            cleared.Valid() && Done(tx, a) == Done(cleared, a)
  {
    hide WellFormed, WriteState.Valid;
  }

  /** A flight holds what was added to it since it began, and only that. */
  lemma FlightQueued(tx: Tx, acts: seq<Act>)
    requires tx.Valid() && Begins(tx) && AllOk(acts) && Building(acts) && acts != [] && acts[0].Add?
    requires |Queued(acts, tx.w.epoch)| <= MAX_FLIGHT
    ensures var last := AllDone(tx, acts);
            && last.messages == Queued(acts, tx.w.epoch) && last.hashed == tx.hashed + Hashes(acts)
            && last.writeSeq == Plus16(tx.writeSeq, |Hashes(acts)|)
            && last.at == Cursor(0, 0) && !last.complete && !last.hasReply
  {
    hide Done, Act.Ok, Tx.Valid, Queued, Hashes;
    BeginStep(tx, acts[0]);
    var cleared := tx.(messages := [], at := Cursor(0, 0), complete := false, hasReply := false);
    FlightGrows(cleared, acts);
    assert [] + Queued(acts, tx.w.epoch) == Queued(acts, tx.w.epoch);
  }

  /** There is no room for more than seven messages. */
  lemma FlightLimit(tx: Tx, isCcs: bool, data: seq<byte>)
    requires tx.Valid() && !tx.complete && |tx.messages| == 7
    ensures AddOutgoing(tx, isCcs, data) == (tx, false)
  {
  }

  // ---------------------------------------------------------------- sending a flight

  ghost predicate Sending(acts: seq<Act>) {
    forall i :: 0 <= i < |acts| ==> !acts[i].Add?
  }

  predicate Flushed(acts: seq<Act>) {
    exists i :: 0 <= i < |acts| && acts[i].Flush?
  }

  /** A reply came after the flight was complete. */
  predicate Answered(complete: bool, acts: seq<Act>) {
    exists j :: 0 <= j < |acts| && acts[j].Reply? && (complete || Flushed(acts[..j]))
  }

  lemma SendStep(tx: Tx, a: Act)
    requires tx.Valid() && a.Ok() && !a.Add?
    ensures var next := Done(tx, a);
            && next == tx.(w := next.w, at := next.at, complete := tx.complete || a.Flush?,
                           hasReply := tx.hasReply || (a.Reply? && tx.complete))
  {
    hide WellFormed, WriteState.Valid, Context.Valid, SendLoop;
    FlushValid(tx);
    match a
    case Flush(mtu, bio, flushed, entropy) => CallKeeps(tx.(complete := true), mtu, bio, entropy, 0);
    case Again(mtu, bio, flushed, entropy) => CallKeeps(Rewind(tx), mtu, bio, entropy, 0);
    case _ =>
  }

  lemma FirstSent(complete: bool, acts: seq<Act>)
    requires acts != []
    ensures Flushed(acts) <==> acts[0].Flush? || Flushed(acts[1..])
    ensures Answered(complete, acts)
       <==> (acts[0].Reply? && complete) || Answered(complete || acts[0].Flush?, acts[1..])
  {
    if Answered(complete, acts) {
      var j :| 0 <= j < |acts| && acts[j].Reply? && (complete || Flushed(acts[..j]));
      if j > 0 {
        assert acts[1..][j - 1].Reply? && acts[1..][..j - 1] == acts[..j][1..];
        if Flushed(acts[..j]) {
          var i :| 0 <= i < j && acts[..j][i].Flush?;
          if i > 0 { assert acts[1..][..j - 1][i - 1].Flush?; }
        }
      }
    }
    if Answered(complete || acts[0].Flush?, acts[1..]) {
      var j :| 0 <= j < |acts| - 1 && acts[1..][j].Reply? && (complete || acts[0].Flush? || Flushed(acts[1..][..j]));
      assert acts[j + 1].Reply?;
      assert acts[..j + 1][0] == acts[0];
      if Flushed(acts[1..][..j]) {
        var i :| 0 <= i < j && acts[1..][..j][i].Flush?;
        assert acts[..j + 1][i + 1].Flush?;
      }
    }
    if acts[0].Reply? && complete { assert acts[0].Reply?; }
  }

  /** Sending, retransmitting, replies and new keys leave the flight as it is. */
  lemma {:induction false} FlightStays(tx: Tx, acts: seq<Act>)
    requires tx.Valid() && AllOk(acts) && Sending(acts)
    ensures var last := AllDone(tx, acts);
            && last.messages == tx.messages && last.hashed == tx.hashed && last.writeSeq == tx.writeSeq
            && (last.complete <==> tx.complete || Flushed(acts))
            && (last.hasReply <==> tx.hasReply || Answered(tx.complete, acts))
    decreases acts
  {
    hide Done, Act.Ok, Tx.Valid, Flushed, Answered;
    if acts == [] {
      NothingSent(tx.complete);
    } else {
      SendStep(tx, acts[0]);
      FirstSent(tx.complete, acts);
      FlightStays(Done(tx, acts[0]), acts[1..]);
    }
  }

  lemma NothingSent(complete: bool)
    ensures !Flushed([]) && !Answered(complete, [])
  {
  }

  /**
  The history of a flight: it is built, and then sent, retransmitted and answered in any order.  At any time until
  the next one begins it holds what was added to it; when the handshake completes it is dropped exactly if a reply
  came after it was complete, so that a last flight without a reply can still be retransmitted.
  */
  lemma FlightHistory(tx: Tx, built: seq<Act>, sent: seq<Act>)
    requires tx.Valid() && Begins(tx) && AllOk(built) && Building(built) && built != [] && built[0].Add?
    requires |Queued(built, tx.w.epoch)| <= MAX_FLIGHT && AllOk(sent) && Sending(sent)
    ensures var last := AllDone(AllDone(tx, built), sent);
            && last.messages == Queued(built, tx.w.epoch) && last.hashed == tx.hashed + Hashes(built)
            && last.writeSeq == Plus16(tx.writeSeq, |Hashes(built)|)
            && (Flushed(sent) ==> Begins(last))
            && HandshakeComplete(last).messages == (if Answered(false, sent) then [] else Queued(built, tx.w.epoch))
            && (Answered(false, sent) ==> Begins(HandshakeComplete(last)))
  {
    hide Done, Act.Ok, Tx.Valid, Queued, Hashes, Flushed, Answered;
    FlightQueued(tx, built);
    FlightStays(AllDone(tx, built), sent);
  }
}
