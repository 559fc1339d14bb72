/** Receiving DTLS handshake messages (d1_both.cc, dtls_method.cc): the seven-slot ring and read epochs. */
module DtlsReceive {
  import opened Wire
  import opened Aead
  import opened ReplayWindow
  import opened Reassembly
  import opened DtlsRecord

  const MAX_FLIGHT := RING_SIZE
  const CCS_BYTE: byte := 1

  datatype Alert = UnexpectedMessage | IllegalParameter | DecodeError | InternalError | RecordOverflow

  datatype Outcome = Success | Discard | NeedInput | Closed | Fatal(alert: Alert) | PeerAlert(plain: seq<byte>)

  /** dtls1_parse_fragment: header, body and what follows. */
  function ParseFragment(s: seq<byte>): (r: Option<(Header, seq<byte>, seq<byte>)>)
    ensures r.Some? ==> |r.value.1| == r.value.0.fragLen && HEADER_LENGTH + |r.value.1| + |r.value.2| == |s|
  {
    if |s| < HEADER_LENGTH then None
    else
      var h := Header(s[0], FromBE(s[1..4]), FromBE(s[4..6]), FromBE(s[6..9]), FromBE(s[9..12]));
      if |s| < HEADER_LENGTH + h.fragLen then None
      else Some((h, s[12..12 + h.fragLen], s[12 + h.fragLen..]))
  }

  lemma ParseEncodedFragment(h: Header, body: seq<byte>, rest: seq<byte>)
    requires h.Encodable() && h.fragLen == |body|
    ensures ParseFragment(EncodeHeader(h) + body + rest) == Some((h, body, rest))
  {
    hide ToBE, FromBE;
    var s := EncodeHeader(h) + body + rest;
    FromTo24(h.msgLen);
    FromTo16(h.seqNo);
    FromTo24(h.fragOff);
    FromTo24(h.fragLen);
    assert s[1..4] == ToBE(h.msgLen, W24);
    assert s[4..6] == ToBE(h.seqNo, W16);
    assert s[6..9] == ToBE(h.fragOff, W24);
    assert s[9..12] == ToBE(h.fragLen, W24);
  }

  /** The header of a fragment by its bytes: section 4.2.2 of RFC 6347. */
  lemma FragmentBytes(h: Header)
    requires h.Encodable()
    ensures var s := EncodeHeader(h);
            && s[0] == h.msgType && FromBE(s[1..4]) == h.msgLen && FromBE(s[4..6]) == h.seqNo
            && FromBE(s[6..9]) == h.fragOff && FromBE(s[9..12]) == h.fragLen
  {
    hide FromBE, ToBE;
    var s := EncodeHeader(h);
    FromTo24(h.msgLen);
    FromTo16(h.seqNo);
    FromTo24(h.fragOff);
    FromTo24(h.fragLen);
    assert s[1..4] == ToBE(h.msgLen, W24) && s[4..6] == ToBE(h.seqNo, W16);
    assert s[6..9] == ToBE(h.fragOff, W24) && s[9..12] == ToBE(h.fragLen, W24);
  }

  lemma ParsedIsEncodable(s: seq<byte>)
    requires ParseFragment(s).Some?
    ensures ParseFragment(s).value.0.Encodable()
  {
    Limit16();
    Limit24();
    ToFromBE(s[1..4]);
    ToFromBE(s[4..6]);
    ToFromBE(s[6..9]);
    ToFromBE(s[9..12]);
  }

  // ---------------------------------------------------------------- state

  datatype Rx = Rx(readSeq: nat, slots: seq<Option<Partial>>, hasMessage: bool, hasCcs: bool, read: ReadState) {
    /** The ring invariant: slot `i` only holds messages of the window whose number is `i` modulo 7. */
    ghost predicate Valid() {
      && |slots| == MAX_FLIGHT && readSeq < LIMIT16 && read.epoch < LIMIT16 && read.ctx.Valid()
      && (forall i :: 0 <= i < MAX_FLIGHT && slots[i].Some? ==> SlotOk(i, slots[i].value))
      && (hasMessage ==> CurrentComplete())
    }

    ghost predicate SlotOk(i: nat, p: Partial) {
      && p.seqNo % MAX_FLIGHT == i
      && readSeq <= p.seqNo < readSeq + MAX_FLIGHT && p.seqNo < LIMIT16
      && |p.body| < LIMIT24
    }

    function Current(): nat {
      readSeq % MAX_FLIGHT
    }

    /** dtls1_is_current_message_complete */
    predicate CurrentComplete()
      requires |slots| == MAX_FLIGHT
    {
      slots[Current()].Some? && slots[Current()].value.Complete()
    }

    /** dtls_has_unprocessed_handshake_data */
    predicate HasUnprocessed()
      requires |slots| == MAX_FLIGHT
    {
      hasCcs || exists i :: 0 <= i < MAX_FLIGHT && !(hasMessage && i == Current()) && slots[i].Some?
    }
  }

  const INITIAL := Rx(0, EmptyRing(), false, false, ReadState(0, Null(0), EMPTY))

  datatype FragmentResult = Stop(alert: Alert) | Go(rx: Rx)

  /** The slot after dtls1_get_incoming_message found or created the message, before the copy. */
  function Slot(rx: Rx, h: Header): Partial
    requires |rx.slots| == MAX_FLIGHT
  {
    var slot := rx.slots[h.seqNo % MAX_FLIGHT];
    if slot.Some? then slot.value else Fresh(h)
  }

  predicate Mismatch(p: Partial, h: Header) {
    p.msgType != h.msgType || |p.body| != h.msgLen
  }

  /** A fragment that is looked at: in range, and neither from the past nor too far ahead. */
  predicate InWindow(rx: Rx, h: Header) {
    rx.readSeq <= h.seqNo <= rx.readSeq + MAX_FLIGHT
  }

  /** One turn of the loop in dtls1_open_handshake. */
  function StepFragment(rx: Rx, h: Header, body: seq<byte>, maxLen: nat): FragmentResult
    requires |rx.slots| == MAX_FLIGHT && |body| == h.fragLen
  {
    if h.fragOff > h.msgLen || h.fragOff + h.fragLen > h.msgLen || h.msgLen > maxLen then Stop(IllegalParameter)
    else if rx.read.epoch == 1 && h.seqNo != rx.readSeq then Stop(UnexpectedMessage)
    else if !InWindow(rx, h) then Go(rx)
    else if h.seqNo - rx.readSeq >= MAX_FLIGHT then Stop(InternalError)
    else
      var p := Slot(rx, h);
      if Mismatch(p, h) then Stop(IllegalParameter)
      else
        var q := if p.Complete() then p else p.Merge(h.fragOff, body);
        Go(rx.(slots := rx.slots[h.seqNo % MAX_FLIGHT := Some(q)]))
  }

  /** The fragments of one handshake record; an error keeps what earlier fragments of the record did. */
  function OpenFragments(rx: Rx, s: seq<byte>, maxLen: nat): (Rx, Outcome)
    requires |rx.slots| == MAX_FLIGHT
    decreases |s|
  {
    if s == [] then (rx, Success)
    else
      var parsed := ParseFragment(s);
      if parsed.None? then (rx, Fatal(DecodeError))
      else
        match StepFragment(rx, parsed.value.0, parsed.value.1, maxLen)
        case Stop(alert) => (rx, Fatal(alert))
        case Go(next) => OpenFragments(next, parsed.value.2, maxLen)
  }

  /** What dtls1_open_handshake does with an opened record. */
  function HandleRecord(rx: Rx, typ: byte, plain: seq<byte>, maxLen: nat): (Rx, Outcome)
    requires |rx.slots| == MAX_FLIGHT
  {
    if typ == TYPE_APPLICATION_DATA then
      (rx, if rx.read.ctx.Null? then Fatal(UnexpectedMessage) else Discard)
    else if typ == TYPE_CHANGE_CIPHER_SPEC then
      if !rx.read.ctx.Null? then (rx, Fatal(UnexpectedMessage))
      else if plain != [CCS_BYTE] then (rx, Fatal(IllegalParameter))
      else (rx.(hasCcs := true), Success)
    else if typ == TYPE_HANDSHAKE then OpenFragments(rx, plain, maxLen)
    else (rx, Fatal(UnexpectedMessage))
  }

  /** dtls1_open_handshake: new state, bytes consumed, outcome. */
  function HandshakeInput(rx: Rx, shutdown: bool, input: seq<byte>, maxLen: nat): (Rx, nat, Outcome)
    requires |rx.slots| == MAX_FLIGHT && rx.read.ctx.Valid()
  {
    var (read, outcome) := OpenRecord(rx.read, shutdown, input);
    var rx' := rx.(read := read);
    match outcome
    case CloseNotify => (rx', 0, Closed)
    case NeedMore => (rx', 0, NeedInput)
    case Dropped(n) => (rx', n, Discard)
    case TooLong(n) => (rx', n, Fatal(RecordOverflow))
    case AlertRecord(n, plain) => (rx', n, PeerAlert(plain))
    case Record(n, typ, plain) =>
      var (rx'', result) := HandleRecord(rx', typ, plain, maxLen);
      (rx'', n, result)
  }

  /** dtls1_open_change_cipher_spec */
  function ChangeCipherSpecInput(rx: Rx, shutdown: bool, input: seq<byte>, maxLen: nat): (Rx, nat, Outcome)
    requires |rx.slots| == MAX_FLIGHT && rx.read.ctx.Valid()
  {
    var (rx', n, outcome) := if rx.hasCcs then (rx, 0, Success) else HandshakeInput(rx, shutdown, input, maxLen);
    if !rx.hasCcs && outcome != Success then (rx', n, outcome)
    else if rx'.hasCcs then (rx'.(hasCcs := false), n, Success)
    else (rx', n, Discard)
  }

  /** dtls1_get_message: the current message with its header, if it is complete. */
  function PeekMessage(rx: Rx): (Rx, Option<seq<byte>>)
    requires |rx.slots| == MAX_FLIGHT
  {
    if rx.CurrentComplete() then (rx.(hasMessage := true), Some(rx.slots[rx.Current()].value.Raw()))
    else (rx, None)
  }

  /** dtls1_next_message */
  function DropMessage(rx: Rx): Rx
    requires |rx.slots| == MAX_FLIGHT
  {
    rx.(slots := rx.slots[rx.Current() := None], readSeq := Next16(rx.readSeq), hasMessage := false)
  }

  /** dtls1_set_read_state, when no handshake data is left over. */
  function NewReadState(rx: Rx, ctx: Context): Rx {
    rx.(read := ReadState(Next16(rx.read.epoch), ctx, EMPTY))
  }

  // ---------------------------------------------------------------- invariants

  lemma StepFragmentValid(rx: Rx, h: Header, body: seq<byte>, maxLen: nat)
    requires rx.Valid() && h.Encodable() && |body| == h.fragLen
    requires StepFragment(rx, h, body, maxLen).Go?
    ensures StepFragment(rx, h, body, maxLen).rx.Valid()
    ensures InWindow(rx, h) && rx.slots[h.seqNo % MAX_FLIGHT].Some?
            ==> rx.slots[h.seqNo % MAX_FLIGHT].value.seqNo == h.seqNo
  {
    if InWindow(rx, h) {
      var i := h.seqNo % MAX_FLIGHT;
      var p := Slot(rx, h);
      if rx.slots[i].Some? {
        SameSlotSameNumber(rx.readSeq, h.seqNo, p.seqNo);
      }
    }
  }

  /** Numbers of one window that share a slot are equal: the assert in dtls1_get_incoming_message. */
  lemma SameSlotSameNumber(readSeq: nat, a: nat, b: nat)
    requires readSeq <= a < readSeq + MAX_FLIGHT && readSeq <= b < readSeq + MAX_FLIGHT
    requires a % MAX_FLIGHT == b % MAX_FLIGHT
    ensures a == b
  {
  }

  lemma {:induction false} OpenFragmentsValid(rx: Rx, s: seq<byte>, maxLen: nat)
    requires rx.Valid()
    ensures OpenFragments(rx, s, maxLen).0.Valid()
    decreases |s|
  {
    if s != [] && ParseFragment(s).Some? {
      var (h, body, rest) := ParseFragment(s).value;
      ParsedIsEncodable(s);
      var r := StepFragment(rx, h, body, maxLen);
      if r.Go? {
        StepFragmentValid(rx, h, body, maxLen);
        OpenFragmentsValid(r.rx, rest, maxLen);
      }
    }
  }

  lemma SlotCount(rx: Rx)
    requires rx.Valid()
    ensures |rx.slots| == MAX_FLIGHT && rx.read.ctx.Valid()
  {
  }

  lemma NewRead(rx: Rx, read: ReadState)
    requires rx.Valid() && read.epoch == rx.read.epoch && read.ctx == rx.read.ctx
    ensures rx.(read := read).Valid()
  {
  }

  lemma HandleRecordValid(rx: Rx, typ: byte, plain: seq<byte>, maxLen: nat)
    requires rx.Valid()
    ensures HandleRecord(rx, typ, plain, maxLen).0.Valid()
  {
    hide OpenFragments;
    OpenFragmentsValid(rx, plain, maxLen);
  }

  /** Every input keeps the ring invariant, whether it is accepted, discarded or fatal. */
  lemma HandshakeInputValid(rx: Rx, shutdown: bool, input: seq<byte>, maxLen: nat)
    requires rx.Valid()
    ensures HandshakeInput(rx, shutdown, input, maxLen).0.Valid()
    ensures ChangeCipherSpecInput(rx, shutdown, input, maxLen).0.Valid()
  {
    hide OpenRecord, HandleRecord;
    var (read, outcome) := OpenRecord(rx.read, shutdown, input);
    assert rx.(read := read).Valid();
    if outcome.Record? { HandleRecordValid(rx.(read := read), outcome.typ, outcome.plain, maxLen); }
  }

  /** Moving on keeps the ring invariant, across the wrap-around of the 16-bit read sequence as well. */
  lemma DropMessageValid(rx: Rx)
    requires rx.Valid()
    ensures DropMessage(rx).Valid()
    ensures rx.readSeq + 1 == LIMIT16 ==> forall i :: 0 <= i < MAX_FLIGHT ==> DropMessage(rx).slots[i].None?
  {
    var next := DropMessage(rx);
    forall i | 0 <= i < MAX_FLIGHT && next.slots[i].Some?
      ensures rx.readSeq < rx.slots[i].value.seqNo
    {
      assert rx.SlotOk(i, rx.slots[i].value);
    }
  }

  lemma PeekValid(rx: Rx)
    requires rx.Valid()
    ensures PeekMessage(rx).0.Valid()
  {
  }

  /** A fragment changes at most its own slot, and not at all if the message there is complete. */
  lemma StepSlots(rx: Rx, h: Header, body: seq<byte>, maxLen: nat)
    requires |rx.slots| == MAX_FLIGHT && |body| == h.fragLen && StepFragment(rx, h, body, maxLen).Go?
    ensures var next, i := StepFragment(rx, h, body, maxLen).rx, h.seqNo % MAX_FLIGHT;
            && |next.slots| == MAX_FLIGHT && next == rx.(slots := next.slots)
            && (!InWindow(rx, h) ==> next == rx)
            && (InWindow(rx, h) ==>
                  && h.seqNo < rx.readSeq + MAX_FLIGHT && next.slots == rx.slots[i := next.slots[i]]
                  && next.slots[i].Some?
                  && next.slots[i].value.seqNo == Slot(rx, h).seqNo
                  && (Slot(rx, h).Complete() ==> next.slots[i].value == Slot(rx, h)))
  {
  }

  lemma NewReadStateValid(rx: Rx, ctx: Context)
    requires rx.Valid() && ctx.Valid()
    ensures NewReadState(rx, ctx).Valid()
  {
  }
}
