/** Sending DTLS flights (d1_both.cc): queueing, fragmenting to the MTU, packing and retransmitting. */
module DtlsSend {
  import opened Wire
  import opened Aead
  import opened Reassembly
  import opened DtlsRecord
  import opened DtlsReceive

  const MIN_MTU := 256 - 28
  const DEFAULT_MTU := 1500 - 28
  const MAX_MTU := 0x4000_0000
  const MAX_MESSAGE_SIZE: nat := 0xffff_ffff

  datatype Outgoing = Outgoing(data: seq<byte>, epoch: nat, isCcs: bool)

  /** A position in the flight: messages done, and bytes of the next one done. */
  datatype Cursor = Cursor(written: nat, offset: nat)

  /** `hashed` lists, oldest first, what was added to the transcript: one entry per handshake message. */
  datatype Tx = Tx(messages: seq<Outgoing>, complete: bool, hasReply: bool, at: Cursor, writeSeq: nat,
                   hashed: seq<seq<byte>>, w: WriteState)
  {
    ghost predicate Valid() {
      && w.Valid() && writeSeq < LIMIT16 && |messages| <= MAX_FLIGHT
      && (forall i :: 0 <= i < |messages| ==> WellFormed(messages[i]))
      && InFlight(messages, at)
    }
  }

  const INITIAL_TX := Tx([], false, false, Cursor(0, 0), 0, [], WriteState(0, Null(0), 0, None, 0))

  function BodyLen(m: Outgoing): nat {
    if m.isCcs || |m.data| < HEADER_LENGTH then 0 else |m.data| - HEADER_LENGTH
  }

  /** A queued message is one unfragmented message with its header, or a ChangeCipherSpec. */
  ghost predicate WellFormed(m: Outgoing) {
    m.isCcs || exists typ, n, body :: IsMessage(m.data, typ, n, body)
  }

  ghost predicate IsMessage(data: seq<byte>, typ: byte, n: nat, body: seq<byte>) {
    && n < LIMIT16 && |body| < LIMIT24
    && data == EncodeHeader(MessageHeader(typ, n, |body|)) + body
  }

  ghost predicate InFlight(messages: seq<Outgoing>, at: Cursor) {
    && at.written <= |messages|
    && (at.offset > 0 ==> at.written < |messages| && at.offset < BodyLen(messages[at.written]))
  }

  /** Bytes of the current message still to be sent. */
  function BytesLeft(tx: Tx): nat {
    if tx.at.written < |tx.messages| && tx.at.offset <= BodyLen(tx.messages[tx.at.written])
    then BodyLen(tx.messages[tx.at.written]) - tx.at.offset
    else 0
  }

  // ---------------------------------------------------------------- building and queueing

  /** dtls1_init_message with the body filled in: the message length is still zero. */
  function InitMessage(typ: byte, writeSeq: nat, body: seq<byte>): (s: seq<byte>)
    ensures |s| == HEADER_LENGTH + |body|
  {
    EncodeHeader(Header(typ, 0, writeSeq, 0, |body|)) + body
  }

  /** dtls1_finish_message: copies the fragment length over the message length. */
  function FinishMessage(s: seq<byte>): seq<byte>
    requires |s| >= HEADER_LENGTH
  {
    s[..1] + s[9..12] + s[4..]
  }

  lemma FinishedIsMessage(typ: byte, n: nat, body: seq<byte>)
    requires n < LIMIT16 && |body| < LIMIT24
    ensures IsMessage(FinishMessage(InitMessage(typ, n, body)), typ, n, body)
  {
    var s := InitMessage(typ, n, body);
    assert s[..1] == [typ];
    assert s[9..12] == ToBE(|body|, W24);
    assert s[4..] == ToBE(n, W16) + ToBE(0, W24) + ToBE(|body|, W24) + body;
  }

  function ClearFlight(tx: Tx): Tx {
    tx.(messages := [], at := Cursor(0, 0), complete := false, hasReply := false)
  }

  /** add_outgoing: a message after a completed flight starts a new one. */
  function AddOutgoing(tx: Tx, isCcs: bool, data: seq<byte>): (Tx, bool) {
    var t := if tx.complete then ClearFlight(tx) else tx;
    if |t.messages| >= MAX_FLIGHT || |data| > MAX_MESSAGE_SIZE then (t, false)
    else
      var u := if isCcs then t else t.(hashed := t.hashed + [data], writeSeq := Next16(t.writeSeq));
      (u.(messages := u.messages + [Outgoing(data, u.w.epoch, isCcs)]), true)
  }

  /** A reply to a complete flight was processed: the last lines of dtls1_next_message. */
  function NoteReply(tx: Tx): Tx {
    if tx.complete then tx.(hasReply := true) else tx
  }

  /** dtls1_on_handshake_complete */
  function HandshakeComplete(tx: Tx): Tx {
    if tx.hasReply then ClearFlight(tx) else tx
  }

  function NewWriteState(tx: Tx, ctx: Context): Tx {
    tx.(w := tx.w.Install(ctx))
  }

  /** The start of dtls1_retransmit_outgoing_messages. */
  function Rewind(tx: Tx): Tx {
    tx.(at := Cursor(0, 0))
  }

  // ---------------------------------------------------------------- sealing

  /** What the next record of the flight carries; `todo` bytes of the body are left in it. */
  datatype Plan = Broken | NoRoom | Send(typ: byte, plain: seq<byte>, previous: bool, todo: nat)

  /** The decision part of seal_next_message. */
  function PlanNext(tx: Tx, maxOut: nat): Plan
    requires tx.at.written < |tx.messages|
    requires tx.w.epoch >= 1 ==> tx.w.lastCtx.Some?
  {
    var msg := tx.messages[tx.at.written];
    var previous := tx.w.epoch >= 1 && msg.epoch == tx.w.epoch - 1;
    if !previous && msg.epoch != tx.w.epoch then Broken
    else
      var overhead := tx.w.MaxSealOverhead(previous);
      if msg.isCcs then
        if maxOut < 1 + overhead then NoRoom else Send(TYPE_CHANGE_CIPHER_SPEC, [CCS_BYTE], previous, 0)
      else
        var parsed := ParseFragment(msg.data);
        if parsed.None? then Broken
        else
          var (h, body, rest) := parsed.value;
          if h.fragOff != 0 || h.msgLen != |body| || tx.at.offset > |body| || rest != [] then Broken
          else if maxOut < HEADER_LENGTH + 1 + overhead || maxOut < tx.w.SealPrefixLen(previous) then NoRoom
          else
            var left, room := |body| - tx.at.offset, maxOut - HEADER_LENGTH - overhead;
            var todo := if left > room then room else left;
            Send(TYPE_HANDSHAKE,
                 EncodeHeader(Header(h.msgType, h.msgLen, h.seqNo, tx.at.offset, todo))
                 + body[tx.at.offset..tx.at.offset + todo],
                 previous, todo)
  }

  /** Bytes of entropy for packet `k`, message `i`; only CBC suites look at them. */
  type Entropy = (nat, nat, nat) -> byte

  function Draw(c: Context, entropy: Entropy, k: nat, i: nat): (s: seq<byte>)
    ensures RandomFits(c, s)
  {
    if c.Keyed? && c.randomNonce then seq(c.variableNonceLen, j requires j >= 0 => entropy(k, i, j)) else []
  }

  datatype SealResult = SealError | NoProgress | Partially(record: seq<byte>) | Fully(record: seq<byte>)

  function SealNextMessage(tx: Tx, maxOut: nat, entropy: Entropy, k: nat): (r: (Tx, SealResult))
    requires tx.w.Valid() && tx.at.written < |tx.messages|
    ensures r.0.w.Valid() && r.0 == tx.(w := r.0.w, at := Cursor(tx.at.written, r.0.at.offset))
    ensures r.1.Partially? || r.1.Fully? ==> 0 < |r.1.record| <= maxOut
  {
    match PlanNext(tx, maxOut)
    case Broken => (tx, SealError)
    case NoRoom => (tx, NoProgress)
    case Send(typ, plain, previous, todo) =>
      var random := Draw(tx.w.Ctx(previous), entropy, k, tx.at.written);
      var (w, record) := SealRecord(tx.w, typ, plain, previous, random, maxOut);
      if record.None? then (tx.(w := w), SealError)
      else if tx.messages[tx.at.written].isCcs then (tx.(w := w), Fully(record.value))
      else if tx.at.offset + todo == BodyLen(tx.messages[tx.at.written]) then
        (tx.(w := w, at := tx.at.(offset := 0)), Fully(record.value))
      else
        (tx.(w := w, at := tx.at.(offset := tx.at.offset + todo)), Partially(record.value))
  }

  /** The loop of seal_next_packet: records of one packet, and whether sealing went well. */
  function SealRecords(tx: Tx, maxOut: nat, entropy: Entropy, k: nat): (r: (Tx, bool, seq<seq<byte>>))
    requires tx.w.Valid() && tx.at.written <= |tx.messages|
    ensures r.0.w.Valid() && r.0.at.written <= |r.0.messages|
    ensures r.0.messages == tx.messages && r.0.hashed == tx.hashed && r.0.writeSeq == tx.writeSeq
    ensures r.0.complete == tx.complete && r.0.hasReply == tx.hasReply
    decreases |tx.messages| - tx.at.written
  {
    if tx.at.written == |tx.messages| then (tx, true, [])
    else
      var (next, result) := SealNextMessage(tx, maxOut, entropy, k);
      match result
      case SealError => (next, false, [])
      case NoProgress => (next, true, [])
      case Partially(record) => (next, true, [record])
      case Fully(record) =>
        var (last, ok, records) :=
          SealRecords(MessageDone(next), maxOut - |record|, entropy, k);
        (last, ok, [record] + records)
  }

  function MessageDone(tx: Tx): Tx {
    tx.(at := tx.at.(written := tx.at.written + 1))
  }

  /** One turn of the loop of seal_next_packet, as an equation. */
  lemma SealRecordsTurn(tx: Tx, maxOut: nat, entropy: Entropy, k: nat)
    requires tx.w.Valid() && tx.at.written < |tx.messages|
    ensures var (next, result) := SealNextMessage(tx, maxOut, entropy, k);
            && next.w.Valid() && next.at.written == tx.at.written && next.messages == tx.messages
            && (result.Fully? ==>
                  && |result.record| <= maxOut
                  && var rest := SealRecords(MessageDone(next), maxOut - |result.record|, entropy, k);
                     SealRecords(tx, maxOut, entropy, k) == (rest.0, rest.1, [result.record] + rest.2))
            && (!result.Fully? ==>
                  SealRecords(tx, maxOut, entropy, k)
                  == (next, !result.SealError?, if result.Partially? then [result.record] else []))
  {
    hide PlanNext, SealRecord, Draw;
  }

  lemma SealRecordsDone(tx: Tx, maxOut: nat, entropy: Entropy, k: nat)
    requires tx.w.Valid() && tx.at.written == |tx.messages|
    ensures SealRecords(tx, maxOut, entropy, k) == (tx, true, [])
  {
  }

  function Flatten(records: seq<seq<byte>>): seq<byte> {
    if records == [] then [] else records[0] + Flatten(records[1..])
  }

  /** seal_next_packet fails when sealing failed or nothing fitted. */
  function SealNextPacket(tx: Tx, maxOut: nat, entropy: Entropy, k: nat): (r: (Tx, Option<seq<seq<byte>>>))
    requires tx.w.Valid() && tx.at.written <= |tx.messages|
  {
    var (next, ok, records) := SealRecords(tx, maxOut, entropy, k);
    (next, if ok && records != [] then Some(records) else None)
  }

  // ---------------------------------------------------------------- sending

  /** An MTU that the BIO may report. */
  predicate UsableMtu(mtu: int) {
    MIN_MTU <= mtu <= MAX_MTU
  }

  /** dtls1_update_mtu: asks the BIO when the MTU is below the minimum, unless that is switched off. */
  function UpdateMtu(mtu: nat, noQuery: bool, queried: int): (m: nat)
    ensures !noQuery ==> m >= MIN_MTU
    ensures mtu >= MIN_MTU || noQuery ==> m == mtu
  {
    if mtu < MIN_MTU && !noQuery then if UsableMtu(queried) then queried else DEFAULT_MTU else mtu
  }

  /** After a packet: packets accepted so far in this call, and the return value when it is over. */
  datatype Sent = Sent(tx: Tx, packets: seq<seq<seq<byte>>>, ret: int)

  /** The loop of send_flight; `bio(k)` is what BIO_write returns for the k-th packet of this call. */
  function SendLoop(tx: Tx, mtu: nat, bio: nat -> int, entropy: Entropy, k: nat): (r: Sent)
    requires tx.Valid()
    decreases |tx.messages| - tx.at.written, BytesLeft(tx)
  {
    if tx.at.written == |tx.messages| then Sent(tx, [], 1)
    else
      var (next, packet) := SealNextPacket(tx, mtu, entropy, k);
      if packet.None? then Sent(next, [], -1)
      else if bio(k) <= 0 then Sent(next.(at := tx.at), [], bio(k))
      else
        PacketProgress(tx, mtu, entropy, k);
        var rest := SendLoop(next, mtu, bio, entropy, k + 1);
        rest.(packets := [packet.value] + rest.packets)
  }

  /** send_flight; `flushed` is what BIO_flush returns. */
  function SendFlight(tx: Tx, mtu: nat, bio: nat -> int, flushed: int, entropy: Entropy): Sent
    requires tx.Valid()
  {
    var sent := SendLoop(tx, mtu, bio, entropy, 0);
    if sent.ret == 1 && sent.tx.at.written == |sent.tx.messages| && flushed <= 0 then sent.(ret := -1) else sent
  }

  predicate Before(a: Cursor, b: Cursor) {
    a.written < b.written || (a.written == b.written && a.offset < b.offset)
  }

  /** The fragment that is planned for message `msg` from `offset` on. */
  ghost predicate CutsFrom(plan: Plan, msg: Outgoing, offset: nat, typ: byte, n: nat, body: seq<byte>)
    requires plan.Send?
  {
    && IsMessage(msg.data, typ, n, body)
    && offset + plan.todo <= |body|
    && (plan.todo == 0 ==> offset == |body|)
    && plan.typ == TYPE_HANDSHAKE
    && plan.plain == EncodeHeader(Header(typ, |body|, n, offset, plan.todo)) + body[offset..offset + plan.todo]
  }

  lemma PlanCuts(tx: Tx, maxOut: nat) returns (typ: byte, n: nat, body: seq<byte>)
    requires tx.Valid() && tx.at.written < |tx.messages| && !tx.messages[tx.at.written].isCcs
    requires PlanNext(tx, maxOut).Send?
    ensures CutsFrom(PlanNext(tx, maxOut), tx.messages[tx.at.written], tx.at.offset, typ, n, body)
  {
    var msg := tx.messages[tx.at.written];
    assert WellFormed(msg);
    typ, n, body :| IsMessage(msg.data, typ, n, body);
    ParseEncodedFragment(MessageHeader(typ, n, |body|), body, []);
    assert msg.data == EncodeHeader(MessageHeader(typ, n, |body|)) + body + [];
  }

  /** The planned piece lies in the message, and only at its end is it empty. */
  lemma PlanLength(tx: Tx, maxOut: nat)
    requires tx.Valid() && tx.at.written < |tx.messages| && PlanNext(tx, maxOut).Send?
    ensures var todo, len := PlanNext(tx, maxOut).todo, BodyLen(tx.messages[tx.at.written]);
            tx.at.offset + todo <= len && (todo == 0 ==> tx.at.offset == len)
  {
    hide PlanNext;
    if tx.messages[tx.at.written].isCcs {
      CcsPlan(tx, maxOut);
    } else {
      var typ, n, body := PlanCuts(tx, maxOut);
    }
  }

  lemma PlanEpoch(tx: Tx, room: nat)
    requires tx.w.Valid() && tx.at.written < |tx.messages| && PlanNext(tx, room).Send?
    ensures var plan := PlanNext(tx, room);
            && tx.w.Usable(plan.previous) && tx.w.Epoch(plan.previous) == tx.messages[tx.at.written].epoch
            && |plan.plain| <= room
  {
    hide ParseFragment;
  }

  lemma CcsPlan(tx: Tx, maxOut: nat)
    requires tx.w.Valid() && tx.at.written < |tx.messages| && tx.messages[tx.at.written].isCcs
    ensures var plan := PlanNext(tx, maxOut);
            plan.Send? ==> plan.todo == 0 && plan.typ == TYPE_CHANGE_CIPHER_SPEC && plan.plain == [CCS_BYTE]
  {
  }

  /** What one seal_next_message does to a valid flight. */
  lemma MessageProgress(tx: Tx, maxOut: nat, entropy: Entropy, k: nat)
    requires tx.Valid() && tx.at.written < |tx.messages|
    ensures var (next, result) := SealNextMessage(tx, maxOut, entropy, k);
            && next == tx.(w := next.w, at := next.at) && next.w.Valid()
            && (result.SealError? || result.NoProgress? ==> next.at == tx.at)
            && (result.Partially? ==> Before(tx.at, next.at) && next.at.written == tx.at.written
                                      && InFlight(tx.messages, next.at))
            && (result.Fully? ==> next.at == Cursor(tx.at.written, 0))
  {
    hide PlanNext, SealRecord, WellFormed;
    if PlanNext(tx, maxOut).Send? { PlanLength(tx, maxOut); }
  }

  lemma AtWithinFlight(tx: Tx)
    requires tx.Valid()
    ensures tx.w.Valid() && InFlight(tx.messages, tx.at)
  {
  }

  lemma StaysValid(tx: Tx, next: Tx)
    requires tx.Valid() && next == tx.(w := next.w, at := next.at)
    requires next.w.Valid() && InFlight(tx.messages, next.at)
    ensures next.Valid()
  {
  }

  lemma {:induction false} RecordsProgress(tx: Tx, maxOut: nat, entropy: Entropy, k: nat)
    requires tx.Valid()
    ensures var (next, ok, records) := SealRecords(tx, maxOut, entropy, k);
            && InFlight(tx.messages, next.at)
            && (records == [] ==> next.at == tx.at)
            && (records != [] ==> Before(tx.at, next.at))
    decreases |tx.messages| - tx.at.written
  {
    hide SealNextMessage;
    if tx.at.written < |tx.messages| {
      MessageProgress(tx, maxOut, entropy, k);
      var (next, result) := SealNextMessage(tx, maxOut, entropy, k);
      if result.Fully? {
        SealRecordsTurn(tx, maxOut, entropy, k);
        StaysValid(tx, MessageDone(next));
        RecordsProgress(MessageDone(next), maxOut - |result.record|, entropy, k);
      }
    }
  }

  /** A packet that was sealed fits the MTU, is not empty and moves the cursor strictly forward. */
  lemma PacketProgress(tx: Tx, mtu: nat, entropy: Entropy, k: nat)
    requires tx.Valid()
    ensures var (next, packet) := SealNextPacket(tx, mtu, entropy, k);
            && next.Valid() && next.messages == tx.messages
            && (packet.Some? ==> Before(tx.at, next.at) && 0 < |Flatten(packet.value)| <= mtu)
  {
    RecordsProgress(tx, mtu, entropy, k);
    StaysValid(tx, SealNextPacket(tx, mtu, entropy, k).0);
    RecordsFit(tx, mtu, entropy, k);
  }

  lemma {:induction false} RecordsFit(tx: Tx, maxOut: nat, entropy: Entropy, k: nat)
    requires tx.w.Valid() && tx.at.written <= |tx.messages|
    ensures var records := SealRecords(tx, maxOut, entropy, k).2;
            |Flatten(records)| <= maxOut && (records != [] ==> |Flatten(records)| > 0)
    decreases |tx.messages| - tx.at.written
  {
    hide SealNextMessage, SealRecords;
    if tx.at.written == |tx.messages| {
      SealRecordsDone(tx, maxOut, entropy, k);
    } else {
      SealRecordsTurn(tx, maxOut, entropy, k);
      var (next, result) := SealNextMessage(tx, maxOut, entropy, k);
      if result.Fully? {
        RecordsFit(MessageDone(next), maxOut - |result.record|, entropy, k);
      } else if result.Partially? {
        assert [result.record][1..] == [];
      }
    }
  }

  /** One turn of the loop of send_flight, as an equation. */
  lemma SendLoopTurn(tx: Tx, mtu: nat, bio: nat -> int, entropy: Entropy, k: nat)
    requires tx.Valid() && tx.at.written < |tx.messages|
    ensures var (next, packet) := SealNextPacket(tx, mtu, entropy, k);
            && next.Valid() && next.messages == tx.messages && next.(at := tx.at).Valid()
            && (packet.None? ==> SendLoop(tx, mtu, bio, entropy, k) == Sent(next, [], -1))
            && (packet.Some? && bio(k) <= 0 ==>
                  SendLoop(tx, mtu, bio, entropy, k) == Sent(next.(at := tx.at), [], bio(k)))
            && (packet.Some? && bio(k) > 0 ==>
                  && (next.at.written > tx.at.written
                      || (next.at.written == tx.at.written && BytesLeft(next) < BytesLeft(tx)))
                  && (var rest := SendLoop(next, mtu, bio, entropy, k + 1);
                      SendLoop(tx, mtu, bio, entropy, k) == rest.(packets := [packet.value] + rest.packets)))
  {
    hide WellFormed, Flatten, SealRecords;
    PacketProgress(tx, mtu, entropy, k);
    var next := SealNextPacket(tx, mtu, entropy, k).0;
    StaysValid(tx, next.(at := tx.at));
  }

  /** A call of send_flight that put out `packets` so far, and is at `tx` with the k-th packet to come. */
  ghost predicate Underway(target: Sent, packets: seq<seq<seq<byte>>>, tx: Tx, mtu: nat, bio: nat -> int,
                           entropy: Entropy, k: nat)
  {
    tx.Valid() && var rest := SendLoop(tx, mtu, bio, entropy, k); target == rest.(packets := packets + rest.packets)
  }

  lemma SendStart(tx: Tx, mtu: nat, bio: nat -> int, entropy: Entropy)
    requires tx.Valid()
    ensures Underway(SendLoop(tx, mtu, bio, entropy, 0), [], tx, mtu, bio, entropy, 0)
  {
    hide SendLoop;
    var all := SendLoop(tx, mtu, bio, entropy, 0).packets;
    assert [] + all == all;
  }

  /** One more turn: the call is over, or on its way with one packet more. */
  lemma SendTurn(target: Sent, packets: seq<seq<seq<byte>>>, tx: Tx, mtu: nat, bio: nat -> int, entropy: Entropy,
                 k: nat)
    requires Underway(target, packets, tx, mtu, bio, entropy, k) && tx.Valid() && tx.at.written < |tx.messages|
    ensures var (next, packet) := SealNextPacket(tx, mtu, entropy, k);
            && next.Valid() && next.at.written <= |next.messages| && next.messages == tx.messages
            && next.(at := tx.at).Valid()
            && (packet.None? ==> target == Sent(next, packets, -1))
            && (packet.Some? && bio(k) <= 0 ==> target == Sent(next.(at := tx.at), packets, bio(k)))
            && (packet.Some? && bio(k) > 0 ==>
                  && Underway(target, packets + [packet.value], next, mtu, bio, entropy, k + 1)
                  && (next.at.written > tx.at.written
                      || (next.at.written == tx.at.written && BytesLeft(next) < BytesLeft(tx))))
  {
    hide SendLoop, SealNextPacket, WellFormed, WriteState.Valid;
    SendLoopTurn(tx, mtu, bio, entropy, k);
    var (next, packet) := SealNextPacket(tx, mtu, entropy, k);
    assert packets + [] == packets;
    if packet.Some? && bio(k) > 0 {
      var rest := SendLoop(next, mtu, bio, entropy, k + 1).packets;
      assert packets + ([packet.value] + rest) == packets + [packet.value] + rest;
    }
  }

  lemma SendEnd(target: Sent, packets: seq<seq<seq<byte>>>, tx: Tx, mtu: nat, bio: nat -> int, entropy: Entropy, k: nat)
    requires Underway(target, packets, tx, mtu, bio, entropy, k) && tx.at.written == |tx.messages|
    ensures target == Sent(tx, packets, 1)
  {
    assert packets + [] == packets;
  }

  lemma QueueValid(tx: Tx, isCcs: bool, data: seq<byte>)
    requires tx.Valid() && WellFormed(Outgoing(data, tx.w.epoch, isCcs))
    ensures AddOutgoing(tx, isCcs, data).0.Valid() && ClearFlight(tx).Valid()
  {
    hide WriteState.Valid, IsMessage;
  }
}
