/** The sending endpoint, updated in place, against the functions of DtlsSend. */
module DtlsSender {
  import opened Wire
  import opened Aead
  import opened Reassembly
  import opened DtlsRecord
  import opened DtlsReceive
  import opened DtlsSend

  class Sender {
    const writer: RecordWriter
    var messages: seq<Outgoing>
    var messagesComplete: bool
    var flightHasReply: bool
    var written: nat
    var offset: nat
    var writeSeq: nat
    var mtu: nat
    ghost var hashed: seq<seq<byte>>

    ghost predicate Valid()
      reads this, writer, writer.writeSequence, writer.lastWriteSequence
    {
      writer.Valid() && State().Valid()
    }

    ghost function State(): Tx
      requires writer.writeSequence.Length == writer.lastWriteSequence.Length == SEQUENCE_LENGTH
      reads this, writer, writer.writeSequence, writer.lastWriteSequence
    {
      Tx(messages, messagesComplete, flightHasReply, Cursor(written, offset), writeSeq, hashed, writer.State())
    }

    constructor (mtu: nat)
      ensures this.mtu == mtu && Valid() && fresh(writer) && fresh(writer.writeSequence)
              && fresh(writer.lastWriteSequence)
      ensures State() == INITIAL_TX
    {
      writer := new RecordWriter();
      messages, messagesComplete, flightHasReply, written, offset, writeSeq := [], false, false, 0, 0, 0;
      hashed := [];
      this.mtu := mtu;
    }

    method ClearOutgoingMessages()
      requires Valid()
      modifies this
      ensures Valid() && State() == ClearFlight(old(State()))
    {
      messages, written, offset, messagesComplete, flightHasReply := [], 0, 0, false, false;
    }

    static lemma WellFormedAnyEpoch(data: seq<byte>, epoch: nat, isCcs: bool)
      requires isCcs || WellFormed(Outgoing(data, 0, false))
      ensures WellFormed(Outgoing(data, epoch, isCcs))
    {
      if !isCcs {
        var typ, n, body :| IsMessage(data, typ, n, body);
        assert IsMessage(Outgoing(data, epoch, isCcs).data, typ, n, body);
      }
    }

    /** add_outgoing */
    method AddOutgoingMessage(isCcs: bool, data: seq<byte>) returns (ok: bool)
      requires Valid() && (isCcs || WellFormed(Outgoing(data, 0, false)))
      modifies this
      ensures Valid() && (State(), ok) == AddOutgoing(old(State()), isCcs, data)
    {
      hide Tx.Valid, WellFormed;
      WellFormedAnyEpoch(data, writer.epoch, isCcs);
      QueueValid(State(), isCcs, data);
      if messagesComplete {
        ClearOutgoingMessages();
      }
      if |messages| >= MAX_FLIGHT || |data| > MAX_MESSAGE_SIZE {
        return false;
      }
      if !isCcs {
        hashed := hashed + [data];
        writeSeq := Next16(writeSeq);
      }
      messages := messages + [Outgoing(data, writer.epoch, isCcs)];
      return true;
    }

    /** init_message, the caller's body, finish_message and add_message. */
    method AddMessage(typ: byte, body: seq<byte>) returns (ok: bool)
      requires Valid() && |body| < LIMIT24
      modifies this
      ensures Valid()
      ensures (State(), ok) == AddOutgoing(old(State()), false, FinishMessage(InitMessage(typ, old(writeSeq), body)))
    {
      var data := FinishMessage(InitMessage(typ, writeSeq, body));
      FinishedIsMessage(typ, writeSeq, body);
      assert IsMessage(Outgoing(data, 0, false).data, typ, writeSeq, body);
      ok := AddOutgoingMessage(false, data);
    }

    /** What seal_next_message decides before it seals. */
    method Decide(maxOut: nat) returns (plan: Plan)
      requires Valid() && written < |messages|
      ensures plan == PlanNext(State(), maxOut)
    {
      hide ParseFragment, EncodeHeader, RecordWriter.Valid, WellFormed;
      var msg := messages[written];
      var previous := false;
      if writer.epoch >= 1 && msg.epoch == writer.epoch - 1 {
        previous := true;
      } else if msg.epoch != writer.epoch {
        return Broken;
      }
      var aead := if previous then writer.lastCtx.value else writer.ctx;
      var overhead := RECORD_HEADER_LENGTH + aead.MaxOverhead();
      var prefix := RECORD_HEADER_LENGTH + aead.ExplicitNonceLen();
      if msg.isCcs {
        return if maxOut < 1 + overhead then NoRoom else Plan.Send(TYPE_CHANGE_CIPHER_SPEC, [CCS_BYTE], previous, 0);
      }
      var parsed := ParseFragment(msg.data);
      if parsed.None? {
        return Broken;
      }
      var (h, body, rest) := parsed.value;
      if h.fragOff != 0 || h.msgLen != |body| || offset > |body| || rest != [] {
        return Broken;
      }
      if maxOut < HEADER_LENGTH + 1 + overhead || maxOut < prefix {
        return NoRoom;
      }
      var todo := |body| - offset;
      if todo > maxOut - HEADER_LENGTH - overhead {
        todo := maxOut - HEADER_LENGTH - overhead;
      }
      var frag := EncodeHeader(Header(h.msgType, h.msgLen, h.seqNo, offset, todo)) + body[offset..offset + todo];
      return Plan.Send(TYPE_HANDSHAKE, frag, previous, todo);
    }

    /** seal_next_message */
    method SealMessage(maxOut: nat, entropy: Entropy, k: nat) returns (result: SealResult)
      requires Valid() && written < |messages|
      modifies this`offset, writer.writeSequence, writer.lastWriteSequence
      ensures writer.Valid() && (State(), result) == SealNextMessage(old(State()), maxOut, entropy, k)
    {
      hide PlanNext, SealRecord, Draw, Tx.Valid;
      AtWithinFlight(State());
      var plan := Decide(maxOut);
      match plan {
        case Broken => return SealError;
        case NoRoom => return NoProgress;
        case Send(typ, plain, previous, todo) =>
          PlanEpoch(State(), maxOut);
          var random := Draw(if previous then writer.lastCtx.value else writer.ctx, entropy, k, written);
          var record := writer.Seal(typ, plain, previous, random, maxOut);
          if record.None? {
            return SealError;
          }
          if messages[written].isCcs {
            return Fully(record.value);
          }
          if offset + todo == BodyLen(messages[written]) {
            offset := 0;
            return Fully(record.value);
          }
          offset := offset + todo;
          return Partially(record.value);
      }
    }

    /** seal_next_packet */
    method SealPacket(maxOut: nat, entropy: Entropy, k: nat) returns (packet: Option<seq<seq<byte>>>)
      requires Valid()
      modifies this`written, this`offset, writer.writeSequence, writer.lastWriteSequence
      ensures Valid() && (State(), packet) == SealNextPacket(old(State()), maxOut, entropy, k)
    {
      hide SealNextMessage, SealRecords, Flatten, Before, Tx.Valid, WriteState.Valid, RecordWriter.State;
      ghost var start := State();
      AtWithinFlight(start);
      ghost var target := SealRecords(start, maxOut, entropy, k);
      assert [] + target.2 == target.2;
      PacketProgress(start, maxOut, entropy, k);
      var out: seq<seq<byte>> := [];
      var room := maxOut;
      while written < |messages|
        invariant Valid() && written <= |messages|
        invariant State() == start.(w := writer.State(), at := Cursor(written, offset))
        invariant var r := SealRecords(State(), room, entropy, k); target == (r.0, r.1, out + r.2)
        decreases |messages| - written
      {
        ghost var before := State();
        MessageProgress(before, room, entropy, k);
        SealRecordsTurn(before, room, entropy, k);
        ghost var next := SealNextMessage(before, room, entropy, k).0;
        ghost var rest := SealRecords(before, room, entropy, k).2;
        var result := SealMessage(room, entropy, k);
        match result {
          case SealError =>
            return None;
          case NoProgress =>
            assert target == (State(), true, out) by { assert out + [] == out; }
            return if out == [] then None else Some(out);
          case Partially(record) =>
            return Some(out + [record]);
          case Fully(record) =>
            StaysValid(before, MessageDone(State()));
            assert out + rest == out + [record] + rest[1..];
            out := out + [record];
            room := room - |record|;
            written := written + 1;
            assert State() == MessageDone(next);
        }
      }
      SealRecordsDone(State(), room, entropy, k);
      assert target == (State(), true, out) by { assert out + [] == out; }
      return if out == [] then None else Some(out);
    }

    /** The loop of send_flight: the packets BIO_write accepted, and the result. */
    method SendPackets(bio: nat -> int, entropy: Entropy) returns (packets: seq<seq<seq<byte>>>, ret: int)
      requires Valid()
      modifies this`written, this`offset, writer.writeSequence, writer.lastWriteSequence
      ensures Valid() && Sent(State(), packets, ret) == SendLoop(old(State()), mtu, bio, entropy, 0)
    {
      hide SendLoop, SealNextPacket, Underway, Tx.Valid, BytesLeft, RecordWriter.State;
      ghost var start := State();
      ghost var target := SendLoop(start, mtu, bio, entropy, 0);
      SendStart(start, mtu, bio, entropy);
      AtWithinFlight(start);
      packets := [];
      var k := 0;
      while written < |messages|
        invariant Valid() && State() == start.(w := writer.State(), at := Cursor(written, offset))
        invariant written <= |messages| && Underway(target, packets, State(), mtu, bio, entropy, k)
        decreases |messages| - written, BytesLeft(State())
      {
        var oldWritten, oldOffset := written, offset;
        SendTurn(target, packets, State(), mtu, bio, entropy, k);
        var packet := SealPacket(mtu, entropy, k);
        if packet.None? {
          return packets, -1;
        }
        var written' := bio(k);
        if written' <= 0 {
          written, offset := oldWritten, oldOffset;
          return packets, written';
        }
        packets := packets + [packet.value];
        k := k + 1;
      }
      SendEnd(target, packets, State(), mtu, bio, entropy, k);
      return packets, 1;
    }

    /** send_flight; `queried` is the MTU that the BIO reports if it is asked, `flushed` what BIO_flush returns. */
    method Send(noQuery: bool, queried: int, bio: nat -> int, flushed: int, entropy: Entropy)
      returns (packets: seq<seq<seq<byte>>>, ret: int)
      requires Valid()
      modifies this`mtu, this`written, this`offset, writer.writeSequence, writer.lastWriteSequence
      ensures mtu == UpdateMtu(old(mtu), noQuery, queried)
      ensures Valid() && Sent(State(), packets, ret) == SendFlight(old(State()), mtu, bio, flushed, entropy)
    {
      hide SendLoop, Tx.Valid, RecordWriter.State;
      mtu := UpdateMtu(mtu, noQuery, queried);
      packets, ret := SendPackets(bio, entropy);
      if ret == 1 && written == |messages| && flushed <= 0 {
        ret := -1;
      }
    }

    method FlushFlight(noQuery: bool, queried: int, bio: nat -> int, flushed: int, entropy: Entropy)
      returns (packets: seq<seq<seq<byte>>>, ret: int)
      requires Valid()
      modifies this, writer.writeSequence, writer.lastWriteSequence
      ensures Valid() && mtu == UpdateMtu(old(mtu), noQuery, queried)
      ensures Sent(State(), packets, ret) == SendFlight(old(State()).(complete := true), mtu, bio, flushed, entropy)
    {
      messagesComplete := true;
      packets, ret := Send(noQuery, queried, bio, flushed, entropy);
    }

    /** Rewinds to the start of the flight and sends it again. */
    method Retransmit(noQuery: bool, queried: int, bio: nat -> int, flushed: int, entropy: Entropy)
      returns (packets: seq<seq<seq<byte>>>, ret: int)
      requires Valid()
      modifies this, writer.writeSequence, writer.lastWriteSequence
      ensures Valid() && mtu == UpdateMtu(old(mtu), noQuery, queried)
      ensures Sent(State(), packets, ret) == SendFlight(Rewind(old(State())), mtu, bio, flushed, entropy)
    {
      written, offset := 0, 0;
      packets, ret := Send(noQuery, queried, bio, flushed, entropy);
    }

    method ChangeWriteState(ctx: Context)
      requires Valid() && ctx.Valid()
      modifies this, writer, writer.writeSequence, writer.lastWriteSequence
      ensures Valid() && State() == NewWriteState(old(State()), ctx)
    {
      writer.SetWriteState(ctx);
    }

    method ReplyReceived()
      requires Valid()
      modifies this
      ensures Valid() && State() == NoteReply(old(State()))
    {
      if messagesComplete {
        flightHasReply := true;
      }
    }

    method OnHandshakeComplete()
      requires Valid()
      modifies this
      ensures Valid() && State() == HandshakeComplete(old(State()))
    {
      if flightHasReply {
        ClearOutgoingMessages();
      }
    }
  }
}
