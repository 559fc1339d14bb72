/** When sending a flight skips bytes: conditions that can be checked before the call, and where they end. */
module DtlsSkips {
  import opened Wire
  import opened Aead
  import opened Reassembly
  import opened DtlsRecord
  import opened DtlsReceive
  import opened DtlsSend
  import opened DtlsFlight

  /** The smallest MTU that leaves room, behind a smallest record, for one that is too long. */
  const SKIP_MTU: nat := LIMIT16 + 2 * RECORD_HEADER_LENGTH + 1

  /** The keys of a message are still there: it is of the current epoch or the one before. */
  predicate Kept(current: nat, epoch: nat) {
    epoch == current || epoch + 1 == current
  }

  ghost predicate AllKept(tx: Tx) {
    forall i :: tx.at.written <= i < |tx.messages| ==> Kept(tx.w.epoch, tx.messages[i].epoch)
  }

  lemma KeptOn(tx: Tx, next: Tx)
    requires AllKept(tx) && next.messages == tx.messages && next.w.epoch == tx.w.epoch
    requires tx.at.written <= next.at.written
    ensures AllKept(next)
    ensures tx.at.written < |tx.messages| ==> Kept(tx.w.epoch, tx.messages[tx.at.written].epoch)
  {
  }

  /** The sequence numbers of both epochs are good for `n` more records. */
  predicate Lasts(w: WriteState, n: int) {
    w.seqNum + n < LIMIT48 && (w.epoch >= 1 ==> w.lastSeqNum + n < LIMIT48)
  }

  function LeftFrom(messages: seq<Outgoing>, i: nat): nat
    requires i <= |messages|
    decreases |messages| - i
  {
    if i == |messages| then 0 else BodyLen(messages[i]) + 1 + LeftFrom(messages, i + 1)
  }

  /** At most so many records are sealed from here on: each takes a byte of a message, or finishes it. */
  function Left(messages: seq<Outgoing>, at: Cursor): int
    requires at.written <= |messages|
  {
    LeftFrom(messages, at.written) - at.offset
  }

  lemma ParsesWhole(tx: Tx)
    requires tx.Valid() && tx.at.written < |tx.messages| && !tx.messages[tx.at.written].isCcs
    ensures var parsed := ParseFragment(tx.messages[tx.at.written].data);
            && parsed.Some? && parsed.value.0.fragOff == 0 && parsed.value.0.msgLen == |parsed.value.1|
            && tx.at.offset <= |parsed.value.1| && parsed.value.2 == []
  {
    hide Context.Valid;
    var msg := tx.messages[tx.at.written];
    assert WellFormed(msg);
    var typ, n, body :| IsMessage(msg.data, typ, n, body);
    ParseEncodedFragment(MessageHeader(typ, n, |body|), body, []);
    assert msg.data == EncodeHeader(MessageHeader(typ, n, |body|)) + body + [];
  }

  lemma PlanKept(tx: Tx, maxOut: nat)
    requires tx.Valid() && tx.at.written < |tx.messages| && Kept(tx.w.epoch, tx.messages[tx.at.written].epoch)
    ensures var plan := PlanNext(tx, maxOut);
            && !plan.Broken?
            && (plan.Send? ==> plan.plain != [] && tx.w.Usable(plan.previous)
                               && |plan.plain| + tx.w.MaxSealOverhead(plan.previous) <= maxOut)
  {
    hide Context.MaxOverhead, ParseFragment, Context.Valid;
    var msg := tx.messages[tx.at.written];
    if !msg.isCcs { ParsesWhole(tx); }
  }

  /** With room for the overhead and numbers left, only a ciphertext of 2^16 bytes or more is refused. */
  lemma SealKept(w: WriteState, typ: byte, plain: seq<byte>, previous: bool, random: seq<byte>, maxOut: nat, n: nat)
    requires w.Valid() && w.Usable(previous) && RandomFits(w.Ctx(previous), random)
    requires plain != [] && |plain| + w.MaxSealOverhead(previous) <= maxOut && n > 0 && Lasts(w, n)
    ensures var (next, record) := SealRecord(w, typ, plain, previous, random, maxOut);
            && next.epoch == w.epoch && Lasts(next, n - 1)
            && (record.None? ==> maxOut >= LIMIT16 + RECORD_HEADER_LENGTH)
            && (record.Some? ==> |record.value| > RECORD_HEADER_LENGTH)
  {
    hide Context.Seal;
  }

  lemma MessageKept(tx: Tx, maxOut: nat, entropy: Entropy, k: nat, n: nat)
    requires tx.Valid() && tx.at.written < |tx.messages| && Kept(tx.w.epoch, tx.messages[tx.at.written].epoch)
    requires n > 0 && Lasts(tx.w, n)
    ensures var (next, result) := SealNextMessage(tx, maxOut, entropy, k);
            && next.w.epoch == tx.w.epoch && Lasts(next.w, n - 1) && (result.NoProgress? ==> next == tx)
            && (result.SealError? ==> maxOut >= LIMIT16 + RECORD_HEADER_LENGTH)
            && (result.Partially? || result.Fully? ==> |result.record| > RECORD_HEADER_LENGTH)
  {
    hide PlanNext, SealRecord, Draw;
    PlanKept(tx, maxOut);
    var plan := PlanNext(tx, maxOut);
    if plan.Send? {
      var random := Draw(tx.w.Ctx(plan.previous), entropy, k, tx.at.written);
      SealKept(tx.w, plan.typ, plan.plain, plan.previous, random, maxOut, n);
    }
  }

  /** What one record takes away from what is left. */
  lemma LeftLess(messages: seq<Outgoing>, from: Cursor, to: Cursor)
    requires InFlight(messages, from) && InFlight(messages, to) && from.written < |messages|
    ensures Left(messages, from) > 0
    ensures from.written == to.written && from.offset < to.offset ==> Left(messages, to) < Left(messages, from)
    ensures to == Cursor(from.written + 1, 0) ==> Left(messages, to) < Left(messages, from)
  {
  }

  lemma LeftBound(messages: seq<Outgoing>, at: Cursor)
    requires InFlight(messages, at)
    ensures Left(messages, at) >= 0
  {
  }

  /** A packet: sealing can only fail for want of room in the length field, and so not behind another record. */
  lemma {:induction false} PacketKept(tx: Tx, maxOut: nat, entropy: Entropy, k: nat, n: nat)
    requires tx.Valid() && AllKept(tx) && Left(tx.messages, tx.at) <= n && Lasts(tx.w, n)
    ensures var (next, ok, records) := SealRecords(tx, maxOut, entropy, k);
            && next.w.epoch == tx.w.epoch && tx.at.written <= next.at.written
            && Left(tx.messages, next.at) <= Left(tx.messages, tx.at)
            && Lasts(next.w, n - Left(tx.messages, tx.at) + if ok then Left(tx.messages, next.at) else 0)
            && (!ok ==> maxOut >= LIMIT16 + RECORD_HEADER_LENGTH)
            && (!ok && records != [] ==> maxOut >= SKIP_MTU)
    decreases |tx.messages| - tx.at.written
  {
    hide SealNextMessage, SealRecords, Tx.Valid, WriteState.Valid, Left, AllKept, Kept;
    AtWithinFlight(tx);
    LeftBound(tx.messages, tx.at);
    KeptOn(tx, tx);
    if tx.at.written == |tx.messages| {
      SealRecordsDone(tx, maxOut, entropy, k);
    } else {
      SealRecordsTurn(tx, maxOut, entropy, k);
      LeftLess(tx.messages, tx.at, tx.at);
      MessageProgress(tx, maxOut, entropy, k);
      MessageKept(tx, maxOut, entropy, k, n);
      var (next, result) := SealNextMessage(tx, maxOut, entropy, k);
      if result.Fully? {
        var done := MessageDone(next);
        StaysValid(tx, done);
        KeptOn(tx, done);
        LeftLess(tx.messages, tx.at, done.at);
        PacketKept(done, maxOut - |result.record|, entropy, k, n - 1);
      } else if result.Partially? {
        LeftLess(tx.messages, tx.at, next.at);
      }
    }
  }

  /** One call, with any failing writes. */
  lemma {:induction false} CallKept(tx: Tx, mtu: nat, bio: nat -> int, entropy: Entropy, k: nat, n: nat)
    requires tx.Valid() && AllKept(tx) && Left(tx.messages, tx.at) <= n && Lasts(tx.w, n) && mtu < SKIP_MTU
    ensures !Skips(tx, mtu, bio, entropy, k)
    ensures var last := SendLoop(tx, mtu, bio, entropy, k).tx;
            && last.Valid() && last.messages == tx.messages && AllKept(last)
            && Left(tx.messages, last.at) <= Left(tx.messages, tx.at) && Lasts(last.w, n - Left(tx.messages, tx.at))
    decreases |tx.messages| - tx.at.written, BytesLeft(tx)
  {
    hide SealRecords, WellFormed, Flatten, Left, AllKept, Kept;
    LeftBound(tx.messages, tx.at);
    if tx.at.written < |tx.messages| {
      var (next, packet) := SealNextPacket(tx, mtu, entropy, k);
      PacketProgress(tx, mtu, entropy, k);
      RecordsProgress(tx, mtu, entropy, k);
      PacketKept(tx, mtu, entropy, k, n);
      LeftBound(tx.messages, next.at);
      KeptOn(tx, next);
      KeptOn(tx, next.(at := tx.at));
      if packet.Some? && bio(k) > 0 {
        CallKept(next, mtu, bio, entropy, k + 1, n - (Left(tx.messages, tx.at) - Left(tx.messages, next.at)));
      } else {
        StaysValid(tx, next.(at := tx.at));
      }
    }
  }

  /** Every call of a sequence has an MTU that is too small for skipping. */
  ghost predicate Moderate(calls: seq<Call>) {
    forall j :: 0 <= j < |calls| ==> calls[j].mtu < SKIP_MTU
  }

  lemma OneLess(n: nat, most: nat)
    requires n > 0
    ensures n * most == (n - 1) * most + most
  {
  }

  /**
  What a caller can check: while the epochs of the flight are kept, their numbers last and MTUs are moderate, no
  call skips, whatever writes fail.
  */
  lemma {:induction false} NoneSkips(tx: Tx, calls: seq<Call>, most: nat)
    requires tx.Valid() && AllKept(tx) && Moderate(calls)
    requires Left(tx.messages, tx.at) <= most && Lasts(tx.w, |calls| * most)
    ensures !AnySkips(tx, calls)
    decreases calls
  {
    hide SendLoop, Skips, Left, Tx.Valid, AllKept;
    if calls != [] {
      var c := calls[0];
      OneLess(|calls|, most);
      CallKept(tx, c.mtu, c.bio, c.entropy, 0, |calls| * most);
      FlightChain(tx, c.mtu, c.bio, c.entropy, 0);
      NoneSkips(SendLoop(tx, c.mtu, c.bio, c.entropy, 0).tx, calls[1..], most);
    }
  }

  // ---------------------------------------------------------------- and where that ends

  const LONG: nat := 70000

  function LongMessage(): seq<byte> {
    FinishMessage(InitMessage(11, 0, seq(LONG, _ => 0)))
  }

  /** A new sender that has queued a ChangeCipherSpec and a long message. */
  function Overfull(): Tx {
    AddOutgoing(AddOutgoing(INITIAL_TX, true, []).0, false, LongMessage()).0
  }

  lemma OverfullIs()
    ensures var tx := Overfull();
            && tx.messages == [Outgoing([], 0, true), Outgoing(LongMessage(), 0, false)]
            && tx.at == Cursor(0, 0) && tx.w == INITIAL_TX.w
            && tx.Valid() && AllKept(tx) && Lasts(tx.w, Left(tx.messages, tx.at))
    ensures IsMessage(LongMessage(), 11, 0, seq(LONG, _ => 0))
  {
    hide InitMessage, FinishMessage;
    FinishedIsMessage(11, 0, seq(LONG, _ => 0));
    LongLength();
    assert WellFormed(Outgoing(LongMessage(), 0, false));
    var messages := Overfull().messages;
    assert LeftFrom(messages, 2) == 0;
    assert LeftFrom(messages, 1) == BodyLen(messages[1]) + 1;
  }

  lemma LongLength()
    ensures |LongMessage()| == HEADER_LENGTH + LONG
  {
  }

  /** The first record is a ChangeCipherSpec of the smallest size. */
  lemma SmallFirst(mtu: nat, entropy: Entropy)
    requires mtu >= SKIP_MTU
    ensures var (next, result) := SealNextMessage(Overfull(), mtu, entropy, 0);
            && next == Overfull().(w := next.w) && next.w == INITIAL_TX.w.Advance(false)
            && result.Fully? && |result.record| == RECORD_HEADER_LENGTH + 1
  {
    OverfullIs();
    hide Overfull, LongMessage, Tx.Valid;
  }

  /** The second is a fragment with a ciphertext of 2^16 bytes or more. */
  lemma LongSecond(tx: Tx, room: nat, entropy: Entropy)
    requires room >= LIMIT16 + RECORD_HEADER_LENGTH
    requires tx.messages == Overfull().messages && tx.at == Cursor(1, 0) && tx.w == INITIAL_TX.w.Advance(false)
    ensures SealNextMessage(tx, room, entropy, 0).1.SealError?
  {
    OverfullIs();
    hide Overfull, LongMessage, Tx.Valid;
    var data, body := tx.messages[1].data, seq(LONG, _ => 0 as byte);
    ParseEncodedFragment(MessageHeader(11, 0, LONG), body, []);
    assert data == EncodeHeader(MessageHeader(11, 0, LONG)) + body + [];
    hide ParseFragment, EncodeHeader;
    var plan := PlanNext(tx, room);
    assert plan.Send? && |plan.plain| >= LIMIT16;
  }

  /** From that MTU on there is a call that skips: nothing was written, and the position is past the first message. */
  lemma SkippingCall(mtu: nat, bio: nat -> int, entropy: Entropy)
    requires mtu >= SKIP_MTU
    ensures Overfull().Valid() && Skips(Overfull(), mtu, bio, entropy, 0)
    ensures EmitFlight(Overfull(), mtu, bio, entropy, 0) == []
    ensures SendLoop(Overfull(), mtu, bio, entropy, 0).tx.at == Cursor(1, 0)
  {
    OverfullIs();
    var tx := Overfull();
    hide Overfull, LongMessage, SealNextMessage, SealRecords, Tx.Valid;
    AtWithinFlight(tx);
    SmallFirst(mtu, entropy);
    var (next, result) := SealNextMessage(tx, mtu, entropy, 0);
    var rest := MessageDone(next);
    SealRecordsTurn(tx, mtu, entropy, 0);
    LongSecond(rest, mtu - |result.record|, entropy);
    SealRecordsTurn(rest, mtu - |result.record|, entropy, 0);
    MessageProgress(tx, mtu, entropy, 0);
    StaysValid(tx, rest);
    MessageProgress(rest, mtu - |result.record|, entropy, 0);
  }

  /** Everything but the MTU is in order for one call. */
  ghost predicate InOrder(tx: Tx) {
    tx.Valid() && AllKept(tx) && Lasts(tx.w, Left(tx.messages, tx.at))
  }

  lemma InOrderSafe(tx: Tx, mtu: nat, bio: nat -> int, entropy: Entropy)
    requires InOrder(tx) && mtu < SKIP_MTU
    ensures !Skips(tx, mtu, bio, entropy, 0)
  {
    hide Skips, Left, AllKept, Lasts;
    LeftBound(tx.messages, tx.at);
    CallKept(tx, mtu, bio, entropy, 0, Left(tx.messages, tx.at));
  }

  function AllTaken(): nat -> int {
    _ => 1
  }

  function NoEntropy(): Entropy {
    (_, _, _) => 0
  }

  lemma SomeSkips(mtu: nat)
    requires mtu >= SKIP_MTU
    ensures exists tx, bio, entropy :: InOrder(tx) && Skips(tx, mtu, bio, entropy, 0)
  {
    OverfullIs();
    var tx, bio, entropy := Overfull(), AllTaken(), NoEntropy();
    assert InOrder(tx);
    hide *;
    SkippingCall(mtu, bio, entropy);
    assert InOrder(tx) && Skips(tx, mtu, bio, entropy, 0);
  }

  /** So an MTU is safe for every sender that is in order exactly if it is less than that. */
  lemma SafeMtu(mtu: nat)
    ensures (forall tx, bio, entropy :: InOrder(tx) ==> !Skips(tx, mtu, bio, entropy, 0)) <==> mtu < SKIP_MTU
  {
    hide Tx.Valid, AllKept, Skips, Left, Lasts;
    if mtu < SKIP_MTU {
      forall tx, bio, entropy | InOrder(tx) ensures !Skips(tx, mtu, bio, entropy, 0) {
        InOrderSafe(tx, mtu, bio, entropy);
      }
    } else {
      SomeSkips(mtu);
    }
  }
}
