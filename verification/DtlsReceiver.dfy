/** The receiving endpoint, updated in place, against the functions of DtlsReceive. */
module DtlsReceiver {
  import opened Wire
  import opened Aead
  import opened Reassembly
  import opened DtlsRecord
  import opened DtlsReceive

  class Receiver {
    const reader: RecordReader
    const ring: MessageRing
    var readSeq: nat
    var hasMessage: bool
    var hasChangeCipherSpec: bool

    ghost predicate Valid()
      reads this, reader, reader.bitmap, ring, ring.Repr
    {
      && reader.Valid() && ring.Valid()
      && {this, reader, reader.bitmap} !! ring.Repr
    }

    ghost function State(): Rx
      reads this, reader, reader.bitmap, ring
    {
      Rx(readSeq, ring.slots, hasMessage, hasChangeCipherSpec, reader.State())
    }

    constructor ()
      ensures Valid() && fresh(reader) && fresh(reader.bitmap) && fresh(ring.Repr)
      ensures State() == INITIAL && State().Valid() && !reader.readShutdown
    {
      reader := new RecordReader();
      ring := new MessageRing();
      readSeq, hasMessage, hasChangeCipherSpec := 0, false, false;
    }

    /** dtls1_get_incoming_message: the alert to send, or None once the slot is there to copy into. */
    method GetIncomingMessage(h: Header) returns (alert: Option<Alert>)
      requires Valid() && State().Valid()
      modifies ring.Repr
      ensures Valid() && fresh(ring.Repr - old(ring.Repr)) && reader.State() == old(reader.State())
      ensures alert == if h.seqNo < readSeq || h.seqNo - readSeq >= MAX_FLIGHT then Some(InternalError)
                       else if Mismatch(old(Slot(State(), h)), h) then Some(IllegalParameter)
                       else None
      ensures ring.slots == if alert.Some? then old(ring.slots)
                            else old(ring.slots[h.seqNo % MAX_FLIGHT := Some(Slot(State(), h))])
    {
      if h.seqNo < readSeq || h.seqNo - readSeq >= MAX_FLIGHT {
        return Some(InternalError);
      }
      var idx := h.seqNo % MAX_FLIGHT;
      var frag := ring.frags[idx];
      if frag != null {
        ghost var p := ring.slots[idx].value;
        assert State().SlotOk(idx, p);
        SameSlotSameNumber(readSeq, h.seqNo, p.seqNo);
        assert frag.seqNo == h.seqNo;
        if frag.msgType != h.msgType || frag.msgLen != h.msgLen {
          return Some(IllegalParameter);
        }
        assert ring.slots == ring.slots[idx := Some(p)];
        return None;
      }
      ring.Create(idx, h);
      return None;
    }

    /** The loop body of dtls1_open_handshake. */
    method HandleFragment(h: Header, body: seq<byte>, maxLen: nat) returns (alert: Option<Alert>)
      requires Valid() && State().Valid() && |body| == h.fragLen
      modifies ring.Repr
      ensures Valid() && fresh(ring.Repr - old(ring.Repr)) && reader.State() == old(reader.State())
      ensures StepFragment(old(State()), h, body, maxLen)
           == match alert { case Some(a) => Stop(a) case None => Go(State()) }
      ensures alert.Some? ==> State() == old(State())
    {
      hide MessageRing.Valid, RecordReader.Valid;
      if h.fragOff > h.msgLen || h.fragOff + h.fragLen > h.msgLen || h.msgLen > maxLen {
        return Some(IllegalParameter);
      }
      if reader.epoch == 1 && h.seqNo != readSeq {
        return Some(UnexpectedMessage);
      }
      if h.seqNo < readSeq || h.seqNo > readSeq + MAX_FLIGHT {
        return None;
      }
      alert := GetIncomingMessage(h);
      if alert.Some? {
        return;
      }
      var idx := h.seqNo % MAX_FLIGHT;
      var complete := ring.IsComplete(idx);
      if !complete {
        ring.Store(idx, h.fragOff, body);
      }
    }

    method OpenHandshake(input: seq<byte>, maxLen: nat) returns (consumed: nat, outcome: Outcome)
      requires Valid() && State().Valid()
      modifies this`hasChangeCipherSpec, reader.bitmap, ring.Repr
      ensures Valid() && State().Valid() && fresh(ring.Repr - old(ring.Repr))
      ensures (State(), consumed, outcome) == HandshakeInput(old(State()), reader.readShutdown, input, maxLen)
    {
      hide OpenRecord, HandleRecord, Rx.Valid;
      ghost var before := State();
      HandshakeInputValid(before, reader.readShutdown, input, maxLen);
      SlotCount(before);
      var opened' := reader.Open(input);
      NewRead(before, reader.State());
      match opened' {
        case CloseNotify => return 0, Closed;
        case NeedMore => return 0, NeedInput;
        case Dropped(n) => return n, Discard;
        case TooLong(n) => return n, Fatal(RecordOverflow);
        case AlertRecord(n, plain) => return n, PeerAlert(plain);
        case Record(n, typ, plain) =>
          consumed := n;
          outcome := TakeRecord(typ, plain, maxLen);
      }
    }

    /** The part of dtls1_open_handshake after the record was opened. */
    method TakeRecord(typ: byte, plain: seq<byte>, maxLen: nat) returns (outcome: Outcome)
      requires Valid() && State().Valid()
      modifies this`hasChangeCipherSpec, ring.Repr
      ensures Valid() && State().Valid() && fresh(ring.Repr - old(ring.Repr))
      ensures (State(), outcome) == HandleRecord(old(State()), typ, plain, maxLen)
    {
      hide OpenFragments, Rx.Valid;
      HandleRecordValid(State(), typ, plain, maxLen);
      SlotCount(State());
      if typ == TYPE_APPLICATION_DATA {
        return if reader.ctx.Null? then Fatal(UnexpectedMessage) else Discard;
      }
      if typ == TYPE_CHANGE_CIPHER_SPEC {
        if !reader.ctx.Null? {
          return Fatal(UnexpectedMessage);
        }
        if plain != [CCS_BYTE] {
          return Fatal(IllegalParameter);
        }
        hasChangeCipherSpec := true;
        return Success;
      }
      if typ != TYPE_HANDSHAKE {
        return Fatal(UnexpectedMessage);
      }
      outcome := ReadFragments(plain, maxLen);
    }

    /** The loop of dtls1_open_handshake over the fragments of one record. */
    method ReadFragments(plain: seq<byte>, maxLen: nat) returns (outcome: Outcome)
      requires Valid() && State().Valid()
      modifies ring.Repr
      ensures Valid() && fresh(ring.Repr - old(ring.Repr))
      ensures (State(), outcome) == OpenFragments(old(State()), plain, maxLen)
    {
      ghost var target := OpenFragments(State(), plain, maxLen);
      var cbs := plain;
      while cbs != []
        invariant Valid() && State().Valid() && fresh(ring.Repr - old(ring.Repr))
        invariant OpenFragments(State(), cbs, maxLen) == target
        decreases |cbs|
      {
        var parsed := ParseFragment(cbs);
        if parsed.None? {
          return Fatal(DecodeError);
        }
        var (h, body, rest) := parsed.value;
        ParsedIsEncodable(cbs);
        ghost var before := State();
        var alert := HandleFragment(h, body, maxLen);
        if alert.Some? {
          return Fatal(alert.value);
        }
        StepFragmentValid(before, h, body, maxLen);
        cbs := rest;
      }
      return Success;
    }

    method OpenChangeCipherSpec(input: seq<byte>, maxLen: nat) returns (consumed: nat, outcome: Outcome)
      requires Valid() && State().Valid()
      modifies this`hasChangeCipherSpec, reader.bitmap, ring.Repr
      ensures Valid() && State().Valid() && fresh(ring.Repr - old(ring.Repr))
      ensures (State(), consumed, outcome) == ChangeCipherSpecInput(old(State()), reader.readShutdown, input, maxLen)
    {
      HandshakeInputValid(State(), reader.readShutdown, input, maxLen);
      consumed := 0;
      if !hasChangeCipherSpec {
        consumed, outcome := OpenHandshake(input, maxLen);
        if outcome != Success {
          return;
        }
      }
      if hasChangeCipherSpec {
        hasChangeCipherSpec := false;
        return consumed, Success;
      }
      return consumed, Discard;
    }

    /** dtls1_get_message: `raw` of the current message once it is complete. */
    method GetMessage() returns (raw: Option<seq<byte>>)
      requires Valid() && State().Valid()
      modifies this`hasMessage
      ensures Valid() && State().Valid()
      ensures (State(), raw) == PeekMessage(old(State()))
    {
      hide Rx.Valid, Partial.Complete, Partial.Raw, MessageRing.Valid, RecordReader.Valid;
      ghost var before := State();
      PeekValid(before);
      SlotCount(before);
      var idx := readSeq % MAX_FLIGHT;
      var complete := ring.IsComplete(idx);
      if !complete {
        return None;
      }
      var bytes := ring.Raw(idx);
      hasMessage := true;
      return Some(bytes);
    }

    method NextMessage()
      requires Valid() && State().Valid() && hasMessage
      modifies this`readSeq, this`hasMessage, ring.Repr
      ensures Valid() && State().Valid() && fresh(ring.Repr - old(ring.Repr))
      ensures State() == DropMessage(old(State()))
    {
      DropMessageValid(State());
      ring.Reset(readSeq % MAX_FLIGHT);
      readSeq := Next16(readSeq);
      hasMessage := false;
    }

    method HasUnprocessedHandshakeData() returns (left: bool)
      requires Valid() && State().Valid()
      ensures left <==> State().HasUnprocessed()
    {
      if hasChangeCipherSpec {
        return true;
      }
      var current := readSeq % MAX_FLIGHT;
      var i := 0;
      while i < MAX_FLIGHT
        invariant i <= MAX_FLIGHT
        invariant forall k :: 0 <= k < i && ring.slots[k].Some? ==> hasMessage && k == current
      {
        if !(hasMessage && i == current) && ring.frags[i] != null {
          return true;
        }
        i := i + 1;
      }
      return false;
    }

    /** dtls1_set_read_state: refused while handshake data of the old epoch is left over. */
    method SetReadState(ctx: Context) returns (ok: bool)
      requires Valid() && State().Valid() && ctx.Valid()
      modifies reader, reader.bitmap
      ensures Valid() && State().Valid()
      ensures ok <==> !old(State().HasUnprocessed())
      ensures State() == if ok then NewReadState(old(State()), ctx) else old(State())
    {
      var left := HasUnprocessedHandshakeData();
      if left {
        return false;
      }
      NewReadStateValid(State(), ctx);
      reader.NextEpoch(ctx);
      return true;
    }
  }
}
