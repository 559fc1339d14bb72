/**
How well a flight is packed and when sending it succeeds: a packet ends only where no more of the flight fits, a
call with room for every message fails only where a write fails, and the queue holds what was added to this flight.
*/
module DtlsPacking {
  import opened Wire
  import opened Aead
  import opened Reassembly
  import opened DtlsRecord
  import opened DtlsReceive
  import opened DtlsSend
  import opened DtlsSkips

  // ---------------------------------------------------------------- how long a record is

  /** Contexts whose ciphertexts are a fixed number of bytes longer than the plaintexts; CBC pads. */
  ghost predicate Constant(c: Context) {
    c.Keyed? ==> c.prim.FixedOverhead()
  }

  /** A record is at most its overhead longer than its plaintext, and exactly that but for the padding of CBC. */
  lemma OverheadTight(w: WriteState, typ: byte, plain: seq<byte>, previous: bool, random: seq<byte>, maxOut: nat)
    requires w.Valid() && w.Usable(previous) && RandomFits(w.Ctx(previous), random)
    requires SealRecord(w, typ, plain, previous, random, maxOut).1.Some?
    ensures var r := |SealRecord(w, typ, plain, previous, random, maxOut).1.value|;
            && |plain| + RECORD_HEADER_LENGTH <= r <= |plain| + w.MaxSealOverhead(previous)
            && (Constant(w.Ctx(previous)) ==> r == |plain| + w.MaxSealOverhead(previous))
  {
  }

  // ---------------------------------------------------------------- packets are full

  /** The least room for any of a message: a ChangeCipherSpec, or a fragment with one byte. */
  function Need(w: WriteState, msg: Outgoing): nat
    requires w.Valid() && Kept(w.epoch, msg.epoch)
  {
    (if msg.isCcs then 1 else HEADER_LENGTH + 1) + w.MaxSealOverhead(msg.epoch != w.epoch)
  }

  /** There is more to send, and no room for any of it. */
  ghost predicate Crowded(tx: Tx, room: int) {
    && tx.w.Valid() && tx.at.written < |tx.messages| && Kept(tx.w.epoch, tx.messages[tx.at.written].epoch)
    && room < Need(tx.w, tx.messages[tx.at.written])
  }

  lemma ParsedLength(tx: Tx)
    requires tx.Valid() && tx.at.written < |tx.messages| && !tx.messages[tx.at.written].isCcs
    ensures var parsed := ParseFragment(tx.messages[tx.at.written].data);
            && parsed.Some? && parsed.value.0.fragOff == 0 && parsed.value.2 == []
            && parsed.value.0.msgLen == |parsed.value.1| == BodyLen(tx.messages[tx.at.written])
  {
    hide WriteState.Valid;
    var msg := tx.messages[tx.at.written];
    assert WellFormed(msg);
    var typ, n, body :| IsMessage(msg.data, typ, n, body);
    ParseEncodedFragment(MessageHeader(typ, n, |body|), body, []);
    assert msg.data == EncodeHeader(MessageHeader(typ, n, |body|)) + body + [];
  }

  /** What is planned where there is room, and where there is none. */
  lemma PlanFits(tx: Tx, room: nat)
    requires tx.Valid() && tx.at.written < |tx.messages| && Kept(tx.w.epoch, tx.messages[tx.at.written].epoch)
    ensures PlanNext(tx, room).NoRoom? <==> room < Need(tx.w, tx.messages[tx.at.written])
    ensures var plan, msg := PlanNext(tx, room), tx.messages[tx.at.written];
            plan.Send? ==>
              && plan.previous == (msg.epoch != tx.w.epoch)
              && |plan.plain| == (if msg.isCcs then 1 else HEADER_LENGTH + plan.todo)
              && (tx.at.offset + plan.todo < BodyLen(msg) ==>
                    !msg.isCcs && room == |plan.plain| + tx.w.MaxSealOverhead(plan.previous))
  {
    if !tx.messages[tx.at.written].isCcs { ParsedLength(tx); }
    var offset := tx.at.offset;
    assert tx.messages[tx.at.written].isCcs ==> offset == 0;
    hide Tx.Valid, WriteState.Valid, Context.Valid, ParseFragment, BodyLen, WellFormed, Context.MaxOverhead,
         Context.ExplicitNonceLen;
    OverheadCovers(tx.w);
  }

  lemma OverheadCovers(w: WriteState)
    ensures forall previous | w.Usable(previous) :: w.SealPrefixLen(previous) <= w.MaxSealOverhead(previous)
  {
  }

  /** Sealing leaves the keys alone. */
  lemma SameNeed(w: WriteState, typ: byte, plain: seq<byte>, previous: bool, random: seq<byte>, maxOut: nat)
    requires w.Valid() && w.Usable(previous) && RandomFits(w.Ctx(previous), random)
    ensures var next := SealRecord(w, typ, plain, previous, random, maxOut).0;
            next.epoch == w.epoch && next.ctx == w.ctx && next.lastCtx == w.lastCtx
  {
    hide Context.Seal;
  }

  /** A piece that leaves some of its message fills the room. */
  lemma PieceFull(tx: Tx, next: Tx, room: nat, random: seq<byte>)
    requires tx.Valid() && tx.at.written < |tx.messages| && Kept(tx.w.epoch, tx.messages[tx.at.written].epoch)
    requires PlanNext(tx, room).Send? && tx.w.Usable(PlanNext(tx, room).previous)
    requires RandomFits(tx.w.Ctx(PlanNext(tx, room).previous), random)
    requires var plan := PlanNext(tx, room);
             var (w, record) := SealRecord(tx.w, plan.typ, plan.plain, plan.previous, random, room);
             record.Some? && next == tx.(w := w, at := Cursor(tx.at.written, next.at.offset))
    requires tx.at.offset + PlanNext(tx, room).todo < BodyLen(tx.messages[tx.at.written])
    ensures var plan := PlanNext(tx, room);
            var record := SealRecord(tx.w, plan.typ, plan.plain, plan.previous, random, room).1.value;
            Crowded(next, room - |record|)
  {
    PlanFits(tx, room);
    var plan := PlanNext(tx, room);
    SameNeed(tx.w, plan.typ, plan.plain, plan.previous, random, room);
    OverheadTight(tx.w, plan.typ, plan.plain, plan.previous, random, room);
    hide PlanNext, SealRecord, Tx.Valid, Context.Valid, Context.MaxOverhead, WellFormed, BodyLen, Kept;
  }

  /** One record: none if there is no room, and if some of the message is left there is no room behind it. */
  lemma MessageFull(tx: Tx, room: nat, entropy: Entropy, k: nat)
    requires tx.Valid() && tx.at.written < |tx.messages| && Kept(tx.w.epoch, tx.messages[tx.at.written].epoch)
    ensures var (next, result) := SealNextMessage(tx, room, entropy, k);
            && next.w.epoch == tx.w.epoch && next.w.ctx == tx.w.ctx && next.w.lastCtx == tx.w.lastCtx
            && (result.NoProgress? <==> room < Need(tx.w, tx.messages[tx.at.written]))
            && (result.NoProgress? ==> next == tx)
            && (result.Partially? ==> |result.record| <= room && Crowded(next, room - |result.record|))
  {
    PlanFits(tx, room);
    var plan := PlanNext(tx, room);
    if plan.Send? {
      PlanLength(tx, room);
      PlanEpoch(tx, room);
      var random := Draw(tx.w.Ctx(plan.previous), entropy, k, tx.at.written);
      SameNeed(tx.w, plan.typ, plan.plain, plan.previous, random, room);
      hide PlanNext, SealRecord, Draw, Tx.Valid, Context.Valid, Context.MaxOverhead, WellFormed, BodyLen, Kept, Crowded,
           Need;
      if SealNextMessage(tx, room, entropy, k).1.Partially? {
        PieceFull(tx, SealNextMessage(tx, room, entropy, k).0, room, random);
      }
    }
  }

  /** A packet that ends before the flight does has no room for any more of it. */
  lemma {:induction false} RecordsFull(tx: Tx, room: nat, entropy: Entropy, k: nat)
    requires tx.Valid() && AllKept(tx)
    ensures var (next, ok, records) := SealRecords(tx, room, entropy, k);
            ok && next.at.written < |tx.messages| ==> Crowded(next, room - |Flatten(records)|)
    decreases |tx.messages| - tx.at.written
  {
    hide SealNextMessage, SealRecords, Tx.Valid, WriteState.Valid, AllKept, Kept, Need;
    AtWithinFlight(tx);
    KeptOn(tx, tx);
    if tx.at.written == |tx.messages| {
      SealRecordsDone(tx, room, entropy, k);
    } else {
      SealRecordsTurn(tx, room, entropy, k);
      MessageProgress(tx, room, entropy, k);
      MessageFull(tx, room, entropy, k);
      var (next, result) := SealNextMessage(tx, room, entropy, k);
      if result.Fully? {
        StaysValid(tx, MessageDone(next));
        KeptOn(tx, MessageDone(next));
        RecordsFull(MessageDone(next), room - |result.record|, entropy, k);
      } else if result.Partially? {
        assert [result.record][1..] == [];
      }
    }
  }

  lemma PacketFull(tx: Tx, mtu: nat, entropy: Entropy, k: nat)
    requires tx.Valid() && AllKept(tx)
    ensures var (next, packet) := SealNextPacket(tx, mtu, entropy, k);
            packet.Some? && next.at.written < |tx.messages| ==> Crowded(next, mtu - |Flatten(packet.value)|)
  {
    hide SealRecords, Tx.Valid, WriteState.Valid, AllKept, Crowded;
    AtWithinFlight(tx);
    RecordsFull(tx, mtu, entropy, k);
  }

  // ---------------------------------------------------------------- when sending succeeds

  /** With numbers left, a packet comes about exactly if the MTU has room for any of the next message. */
  lemma PacketComes(tx: Tx, mtu: nat, entropy: Entropy, k: nat, n: nat)
    requires tx.Valid() && AllKept(tx) && tx.at.written < |tx.messages|
    requires Left(tx.messages, tx.at) <= n && Lasts(tx.w, n) && mtu < LIMIT16 + RECORD_HEADER_LENGTH
    ensures var (next, packet) := SealNextPacket(tx, mtu, entropy, k);
            (packet.None? <==> Crowded(tx, mtu)) && (packet.None? ==> next == tx)
  {
    hide SealNextMessage, SealRecords, Tx.Valid, WriteState.Valid, Left, AllKept, Kept, Need;
    AtWithinFlight(tx);
    KeptOn(tx, tx);
    LeftLess(tx.messages, tx.at, tx.at);
    PacketKept(tx, mtu, entropy, k, n);
    MessageFull(tx, mtu, entropy, k);
    MessageKept(tx, mtu, entropy, k, n);
    SealRecordsTurn(tx, mtu, entropy, k);
  }

  /** The MTU has room for some of every message from `from` to before `to`. */
  ghost predicate Roomy(tx: Tx, from: nat, to: nat, mtu: nat) {
    && tx.w.Valid() && to <= |tx.messages|
    && forall i :: from <= i < to ==>
         Kept(tx.w.epoch, tx.messages[i].epoch) && Need(tx.w, tx.messages[i]) <= mtu
  }

  lemma RoomyFrom(tx: Tx, next: Tx, from: nat, mid: nat, to: nat, room: nat, mtu: nat)
    requires tx.w.Valid() && next.w.Valid() && next.messages == tx.messages && room <= mtu
    requires next.w.epoch == tx.w.epoch && next.w.ctx == tx.w.ctx && next.w.lastCtx == tx.w.lastCtx
    requires Roomy(tx, from, mid, mtu) && Roomy(next, mid, to, room)
    ensures Roomy(tx, from, to, mtu)
  {
  }

  ghost predicate SameWriter(tx: Tx, next: Tx) {
    && next.messages == tx.messages && tx.w.Valid() && next.w.Valid()
    && next.w.epoch == tx.w.epoch && next.w.ctx == tx.w.ctx && next.w.lastCtx == tx.w.lastCtx
  }

  /** The way from `tx` to `next`: the same keys, and of every message that was passed some fitted the room. */
  ghost predicate Past(tx: Tx, next: Tx, room: nat) {
    SameWriter(tx, next) && tx.at.written <= next.at.written && Roomy(tx, tx.at.written, next.at.written, room)
  }

  lemma PastMore(tx: Tx, done: Tx, last: Tx, less: nat, room: nat)
    requires SameWriter(tx, done) && done.at.written == tx.at.written + 1 && less <= room
    requires tx.at.written < |tx.messages| && Kept(tx.w.epoch, tx.messages[tx.at.written].epoch)
    requires Need(tx.w, tx.messages[tx.at.written]) <= room && Past(done, last, less)
    ensures Past(tx, last, room)
  {
    RoomyFrom(tx, done, tx.at.written, done.at.written, last.at.written, less, room);
  }

  lemma PastKeeps(tx: Tx, next: Tx, room: nat)
    requires Past(tx, next, room)
    ensures SameWriter(tx, next)
  {
  }

  lemma PastNone(tx: Tx, next: Tx, room: nat)
    requires SameWriter(tx, next) && next.at.written == tx.at.written <= |tx.messages|
    ensures Past(tx, next, room)
  {
  }

  lemma {:induction false} RecordsRoomy(tx: Tx, room: nat, entropy: Entropy, k: nat)
    requires tx.Valid() && AllKept(tx)
    ensures Past(tx, SealRecords(tx, room, entropy, k).0, room)
    decreases |tx.messages| - tx.at.written
  {
    hide SealNextMessage, SealRecords, Tx.Valid, WriteState.Valid, AllKept, Kept, Need, Past, Roomy;
    AtWithinFlight(tx);
    KeptOn(tx, tx);
    if tx.at.written == |tx.messages| {
      SealRecordsDone(tx, room, entropy, k);
      PastNone(tx, tx, room);
    } else {
      SealRecordsTurn(tx, room, entropy, k);
      MessageProgress(tx, room, entropy, k);
      MessageFull(tx, room, entropy, k);
      var (next, result) := SealNextMessage(tx, room, entropy, k);
      if result.Fully? {
        var done := MessageDone(next);
        StaysValid(tx, done);
        KeptOn(tx, done);
        RecordsRoomy(done, room - |result.record|, entropy, k);
        PastMore(tx, done, SealRecords(done, room - |result.record|, entropy, k).0, room - |result.record|, room);
      } else {
        PastNone(tx, next, room);
      }
    }
  }

  /**
  How the rest of a call ends: 1 if everything is sent, -1 if the MTU has no room for the next message, and else
  what the first write returned that did not succeed.
  */
  ghost predicate Returned(s: Sent, tx: Tx, mtu: nat, bio: nat -> int, k: nat) {
    && Past(tx, s.tx, mtu) && s.tx.at.written <= |tx.messages|
    && s.ret == (if s.tx.at.written == |tx.messages| then 1 else if Crowded(s.tx, mtu) then -1
                 else bio(k + |s.packets|))
    && (s.tx.at.written < |tx.messages| && !Crowded(s.tx, mtu) ==> bio(k + |s.packets|) <= 0)
    && (forall j :: k <= j < k + |s.packets| ==> bio(j) > 0)
  }

  lemma ReturnedMore(s: Sent, packet: seq<seq<byte>>, tx: Tx, next: Tx, mtu: nat, bio: nat -> int, k: nat)
    requires Returned(s, next, mtu, bio, k + 1) && Past(tx, next, mtu) && bio(k) > 0
    ensures Returned(s.(packets := [packet] + s.packets), tx, mtu, bio, k)
  {
    hide Crowded, Roomy, WriteState.Valid;
    RoomyFrom(tx, next, tx.at.written, next.at.written, s.tx.at.written, mtu, mtu);
    assert k + 1 + |s.packets| == k + |[packet] + s.packets|;
  }

  lemma ReturnedNow(s: Sent, tx: Tx, mtu: nat, bio: nat -> int, k: nat)
    requires SameWriter(tx, s.tx) && s.packets == [] && s.tx.at == tx.at && tx.at.written <= |tx.messages|
    requires tx.at.written == |tx.messages| ==> s.ret == 1
    requires tx.at.written < |tx.messages| ==> if Crowded(tx, mtu) then s.ret == -1 else s.ret == bio(k) <= 0
    ensures Returned(s, tx, mtu, bio, k)
  {
  }

  lemma {:induction false} CallReturns(tx: Tx, mtu: nat, bio: nat -> int, entropy: Entropy, k: nat, n: nat)
    requires tx.Valid() && AllKept(tx) && Left(tx.messages, tx.at) <= n && Lasts(tx.w, n)
    requires mtu < LIMIT16 + RECORD_HEADER_LENGTH
    ensures Returned(SendLoop(tx, mtu, bio, entropy, k), tx, mtu, bio, k)
    decreases |tx.messages| - tx.at.written, BytesLeft(tx)
  {
    hide SealRecords, WellFormed, Flatten, Left, AllKept, Kept, Crowded, Tx.Valid, WriteState.Valid, Need, Past,
         Returned;
    AtWithinFlight(tx);
    if tx.at.written == |tx.messages| {
      ReturnedNow(SendLoop(tx, mtu, bio, entropy, k), tx, mtu, bio, k);
    } else {
      LeftBound(tx.messages, tx.at);
      var (next, packet) := SealNextPacket(tx, mtu, entropy, k);
      SendLoopTurn(tx, mtu, bio, entropy, k);
      PacketMoves(tx, mtu, entropy, k, n);
      hide SealNextPacket, SendLoop, Lasts;
      if packet.Some? && bio(k) > 0 {
        var m := n - (Left(tx.messages, tx.at) - Left(tx.messages, next.at));
        AtWithinFlight(next);
        LeftBound(next.messages, next.at);
        CallReturns(next, mtu, bio, entropy, k + 1, m);
        ReturnedMore(SendLoop(next, mtu, bio, entropy, k + 1), packet.value, tx, next, mtu, bio, k);
      } else {
        ReturnedNow(SendLoop(tx, mtu, bio, entropy, k), tx, mtu, bio, k);
      }
    }
  }

  /** What a packet leaves behind. */
  lemma PacketMoves(tx: Tx, mtu: nat, entropy: Entropy, k: nat, n: nat)
    requires tx.Valid() && AllKept(tx) && tx.at.written < |tx.messages|
    requires Left(tx.messages, tx.at) <= n && Lasts(tx.w, n) && mtu < LIMIT16 + RECORD_HEADER_LENGTH
    ensures var (next, packet) := SealNextPacket(tx, mtu, entropy, k);
            && (packet.None? <==> Crowded(tx, mtu)) && (packet.None? ==> next == tx)
            && SameWriter(tx, next) && next.Valid() && AllKept(next) && Past(tx, next, mtu)
            && Left(tx.messages, next.at) <= Left(tx.messages, tx.at)
            && (packet.Some? ==> Lasts(next.w, n - (Left(tx.messages, tx.at) - Left(tx.messages, next.at))))
  {
    hide SealRecords, WellFormed, Flatten, Left, AllKept, Kept, Crowded, Tx.Valid, WriteState.Valid, Need, Past, Lasts;
    AtWithinFlight(tx);
    PacketProgress(tx, mtu, entropy, k);
    RecordsRoomy(tx, mtu, entropy, k);
    PastKeeps(tx, SealNextPacket(tx, mtu, entropy, k).0, mtu);
    PacketKept(tx, mtu, entropy, k, n);
    PacketComes(tx, mtu, entropy, k, n);
    KeptOn(tx, SealNextPacket(tx, mtu, entropy, k).0);
  }

  /** The same of send_flight, which flushes at the end: a flush that fails is -1, with everything sent. */
  lemma FlightReturns(tx: Tx, mtu: nat, bio: nat -> int, flushed: int, entropy: Entropy, n: nat)
    requires tx.Valid() && AllKept(tx) && Left(tx.messages, tx.at) <= n && Lasts(tx.w, n)
    requires mtu < LIMIT16 + RECORD_HEADER_LENGTH
    ensures var s := SendFlight(tx, mtu, bio, flushed, entropy);
            && s.ret == (if s.tx.at.written == |tx.messages| then if flushed > 0 then 1 else -1
                         else if Crowded(s.tx, mtu) then -1
                         else bio(|s.packets|))
            && (s.tx.at.written < |tx.messages| && !Crowded(s.tx, mtu) ==> bio(|s.packets|) <= 0)
            && (forall j :: 0 <= j < |s.packets| ==> bio(j) > 0)
            && s.tx.messages == tx.messages && tx.at.written <= s.tx.at.written <= |tx.messages|
  {
    hide SendLoop, Left, AllKept, Tx.Valid, WriteState.Valid, Lasts, Crowded, Roomy;
    CallReturns(tx, mtu, bio, entropy, 0, n);
  }

  /** A call whose writes all succeed succeeds exactly if the MTU has room for some of every message to be sent. */
  lemma FlightSucceeds(tx: Tx, mtu: nat, bio: nat -> int, flushed: int, entropy: Entropy, n: nat)
    requires tx.Valid() && AllKept(tx) && Left(tx.messages, tx.at) <= n && Lasts(tx.w, n)
    requires mtu < LIMIT16 + RECORD_HEADER_LENGTH && flushed > 0 && forall k: nat :: bio(k) > 0
    ensures var s := SendFlight(tx, mtu, bio, flushed, entropy);
            && (s.ret == 1 <==> Roomy(tx, tx.at.written, |tx.messages|, mtu))
            && (s.ret == 1 <==> s.tx.at.written == |tx.messages|)
            && (s.ret != 1 ==> s.ret == -1 && Crowded(s.tx, mtu))
  {
    hide SendLoop, Left, AllKept, Tx.Valid, WriteState.Valid, Lasts;
    CallReturns(tx, mtu, bio, entropy, 0, n);
    var s := SendLoop(tx, mtu, bio, entropy, 0);
    if s.tx.at.written < |tx.messages| {
      assert bio(0 + |s.packets|) > 0;
    }
  }

  /** The MTU that is sent with: the one before if it will do or must do, else what was asked for, else 1472. */
  lemma MtuSettles(mtu: nat, noQuery: bool, queried: int, again: int)
    ensures var m := UpdateMtu(mtu, noQuery, queried);
            && (m == mtu || m == queried || m == 1472)
            && (m == mtu <== noQuery || mtu >= 228)
            && (m == queried <== !noQuery && mtu < 228 <= queried <= 0x4000_0000)
            && (!noQuery ==> m >= 228) && UpdateMtu(m, noQuery, again) == m
  {
    assert MIN_MTU == 228 && DEFAULT_MTU == 1472;
  }
}
