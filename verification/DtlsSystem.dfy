/**
One direction of a DTLS handshake end to end: a sender, a network that loses, repeats and reorders
datagrams, and a receiver.  Whatever happens, what the receiver hands out is, message by message and
byte by byte, what the sender added to its transcript (section 4.2.6 of RFC 6347).
*/
module DtlsSystem {
  import opened Wire
  import opened Aead
  import opened Reassembly
  import opened DtlsRecord
  import opened DtlsReceive
  import opened DtlsSend
  import opened DtlsFlight

  // ---------------------------------------------------------------- what may be on the wire

  /** `data` is message number `n`, with its header before fragmentation. */
  ghost predicate Numbered(data: seq<byte>, n: nat) {
    && HEADER_LENGTH <= |data| < HEADER_LENGTH + LIMIT24
    && data[..HEADER_LENGTH] == EncodeHeader(MessageHeader(data[0], n, |data| - HEADER_LENGTH))
  }

  /** The transcript log: message `n` of the sender carries number `n`. */
  ghost predicate LogOk(hashed: seq<seq<byte>>) {
    |hashed| < LIMIT16 && forall n :: 0 <= n < |hashed| ==> Numbered(hashed[n], n)
  }

  function FragmentHeader(hashed: seq<seq<byte>>, n: nat, off: nat, len: nat): Header
    requires n < |hashed| && HEADER_LENGTH <= |hashed[n]|
  {
    Header(hashed[n][0], |hashed[n]| - HEADER_LENGTH, n, off, len)
  }

  /** `plain` is bytes `[off, off + len)` of message `n` under the header that says so. */
  ghost predicate FragmentOf(plain: seq<byte>, hashed: seq<seq<byte>>, n: nat, off: nat, len: nat) {
    && n < |hashed| && HEADER_LENGTH <= |hashed[n]| && off + len <= |hashed[n]| - HEADER_LENGTH
    && plain == EncodeHeader(FragmentHeader(hashed, n, off, len))
             + hashed[n][HEADER_LENGTH + off..HEADER_LENGTH + off + len]
  }

  ghost predicate Genuine(e: Emitted, hashed: seq<seq<byte>>) {
    && e.Valid()
    && ((e.typ == TYPE_CHANGE_CIPHER_SPEC && e.plain == [CCS_BYTE])
        || (e.typ == TYPE_HANDSHAKE && exists n: nat, off: nat, len: nat :: FragmentOf(e.plain, hashed, n, off, len)))
  }

  ghost predicate AllGenuine(es: seq<Emitted>, hashed: seq<seq<byte>>) {
    forall i :: 0 <= i < |es| ==> Genuine(es[i], hashed)
  }

  ghost predicate Grows(was: seq<seq<byte>>, now: seq<seq<byte>>) {
    |was| <= |now| && now[..|was|] == was
  }

  lemma GenuineGrows(es: seq<Emitted>, was: seq<seq<byte>>, now: seq<seq<byte>>)
    requires AllGenuine(es, was) && Grows(was, now)
    ensures AllGenuine(es, now)
  {
    hide Emitted.Valid;
    forall i | 0 <= i < |es| ensures Genuine(es[i], now) {
      assert Genuine(es[i], was);
      if es[i].typ == TYPE_HANDSHAKE {
        var n: nat, off: nat, len: nat :| FragmentOf(es[i].plain, was, n, off, len);
        assert now[n] == now[..|was|][n];
        assert FragmentOf(es[i].plain, now, n, off, len);
      }
    }
  }

  // ---------------------------------------------------------------- sender

  /** Every queued handshake message is one of the log. */
  ghost predicate Logged(tx: Tx) {
    forall j :: 0 <= j < |tx.messages| && !tx.messages[j].isCcs ==>
      exists n :: 0 <= n < |tx.hashed| && tx.messages[j].data == tx.hashed[n]
  }

  ghost predicate SenderOk(tx: Tx) {
    tx.Valid() && LogOk(tx.hashed) && Logged(tx) && tx.writeSeq == |tx.hashed|
  }

  /** A message as IsMessage describes it is the message of the log with its number. */
  lemma MessageIsNumbered(data: seq<byte>, typ: byte, n: nat, body: seq<byte>, m: nat)
    requires IsMessage(data, typ, n, body) && Numbered(data, m) && m < LIMIT16
    ensures typ == data[0] && n == m && body == data[HEADER_LENGTH..] && |body| == |data| - HEADER_LENGTH
  {
    hide ToBE, FromBE;
    assert data[4..6] == ToBE(n, W16);
    assert data[..HEADER_LENGTH][4..6] == ToBE(m, W16);
    assert data[..HEADER_LENGTH][4..6] == data[4..6];
    FromTo16(n);
    FromTo16(m);
  }

  lemma NumberIsMessage(data: seq<byte>, n: nat)
    requires Numbered(data, n) && n < LIMIT16
    ensures IsMessage(data, data[0], n, data[HEADER_LENGTH..])
  {
    assert data == data[..HEADER_LENGTH] + data[HEADER_LENGTH..];
  }

  /** The record carries the bytes its piece says, of the logged message its piece points at, in its epoch. */
  ghost predicate Faithful(e: Emitted, messages: seq<Outgoing>, hashed: seq<seq<byte>>) {
    && e.piece.index < |messages|
    && e.w.Usable(e.previous) && e.w.Epoch(e.previous) == messages[e.piece.index].epoch
    && |e.plain| <= e.room
    && (!messages[e.piece.index].isCcs ==>
          e.typ == TYPE_HANDSHAKE
          && exists m: nat :: m < |hashed| && messages[e.piece.index].data == hashed[m]
                              && FragmentOf(e.plain, hashed, m, e.piece.off, e.piece.len))
  }

  ghost predicate AllFaithful(es: seq<Emitted>, messages: seq<Outgoing>, hashed: seq<seq<byte>>) {
    forall i :: 0 <= i < |es| ==> Faithful(es[i], messages, hashed)
  }

  lemma EmitNextGenuine(tx: Tx, room: nat, entropy: Entropy, k: nat)
    requires SenderOk(tx) && tx.at.written < |tx.messages|
    requires var result := SealNextMessage(tx, room, entropy, k).1; result.Partially? || result.Fully?
    ensures PlanNext(tx, room).Send? && Genuine(EmitNext(tx, room, entropy, k), tx.hashed)
    ensures Faithful(EmitNext(tx, room, entropy, k), tx.messages, tx.hashed)
  {
    hide SealRecord, SealNextMessage, PlanNext, FragmentOf, Tx.Valid, LogOk, Emitted.Valid;
    AtWithinFlight(tx);
    EmitNextFollows(tx, room, entropy, k);
    PlanEpoch(tx, room);
    var e, msg := EmitNext(tx, room, entropy, k), tx.messages[tx.at.written];
    if msg.isCcs {
      CcsPlan(tx, room);
    } else {
      var m :| 0 <= m < |tx.hashed| && msg.data == tx.hashed[m];
      PlanIsFragment(tx, room, m);
      assert FragmentOf(e.plain, tx.hashed, m, e.piece.off, e.piece.len);
    }
  }

  lemma PlanIsFragment(tx: Tx, room: nat, m: nat)
    requires SenderOk(tx) && tx.at.written < |tx.messages| && !tx.messages[tx.at.written].isCcs
    requires m < |tx.hashed| && tx.messages[tx.at.written].data == tx.hashed[m] && PlanNext(tx, room).Send?
    ensures PlanNext(tx, room).typ == TYPE_HANDSHAKE
    ensures FragmentOf(PlanNext(tx, room).plain, tx.hashed, m, tx.at.offset, PlanNext(tx, room).todo)
  {
    hide PlanNext, EncodeHeader;
    var typ, n, body := PlanCuts(tx, room);
    MessageIsNumbered(tx.hashed[m], typ, n, body, m);
    var off, len := tx.at.offset, PlanNext(tx, room).todo;
    assert body[off..off + len] == tx.hashed[m][HEADER_LENGTH + off..HEADER_LENGTH + off + len];
  }

  lemma {:induction false} EmitRecordsGenuine(tx: Tx, room: nat, entropy: Entropy, k: nat)
    requires SenderOk(tx)
    ensures AllGenuine(EmitRecords(tx, room, entropy, k), tx.hashed)
    ensures AllFaithful(EmitRecords(tx, room, entropy, k), tx.messages, tx.hashed)
    decreases |tx.messages| - tx.at.written
  {
    hide SealNextMessage, EmitNext, Genuine, Faithful, Tx.Valid, LogOk;
    AtWithinFlight(tx);
    if tx.at.written < |tx.messages| {
      MessageProgress(tx, room, entropy, k);
      var (next, result) := SealNextMessage(tx, room, entropy, k);
      if result.Partially? || result.Fully? {
        EmitNextGenuine(tx, room, entropy, k);
        if result.Fully? {
          StaysValid(tx, MessageDone(next));
          EmitRecordsGenuine(MessageDone(next), room - |result.record|, entropy, k);
        }
      }
    }
  }

  ghost predicate PacketsGenuine(net: seq<seq<Emitted>>, hashed: seq<seq<byte>>) {
    forall i :: 0 <= i < |net| ==> AllGenuine(net[i], hashed)
  }

  lemma {:induction false} EmitPacketsGenuine(tx: Tx, mtu: nat, bio: nat -> int, entropy: Entropy, k: nat)
    requires SenderOk(tx)
    ensures PacketsGenuine(EmitPackets(tx, mtu, bio, entropy, k), tx.hashed)
    ensures AllFaithful(EmitFlight(tx, mtu, bio, entropy, k), tx.messages, tx.hashed)
    ensures SenderOk(SendLoop(tx, mtu, bio, entropy, k).tx)
    ensures SendLoop(tx, mtu, bio, entropy, k).tx.hashed == tx.hashed
    decreases |tx.messages| - tx.at.written, BytesLeft(tx)
  {
    hide SealRecords, EmitRecords, AllGenuine, WellFormed, LogOk, Faithful;
    if tx.at.written < |tx.messages| {
      PacketProgress(tx, mtu, entropy, k);
      var (next, packet) := SealNextPacket(tx, mtu, entropy, k);
      assert SenderOk(next);
      if packet.Some? && bio(k) > 0 {
        EmitRecordsGenuine(tx, mtu, entropy, k);
        EmitPacketsGenuine(next, mtu, bio, entropy, k + 1);
        var packets := EmitPackets(next, mtu, bio, entropy, k + 1);
        assert ([EmitRecords(tx, mtu, entropy, k)] + packets)[1..] == packets;
      }
    }
  }

  // ---------------------------------------------------------------- receiver

  /** What has arrived of a message agrees with the sender's message of that number. */
  ghost predicate Agrees(p: Partial, hashed: seq<seq<byte>>) {
    && p.seqNo < |hashed| && Numbered(hashed[p.seqNo], p.seqNo)
    && p.msgType == hashed[p.seqNo][0] && |p.body| == |hashed[p.seqNo]| - HEADER_LENGTH
    && forall k :: 0 <= k < |p.body| && p.body[k].Some? ==> p.body[k].value == hashed[p.seqNo][HEADER_LENGTH + k]
  }

  ghost predicate SlotsAgree(slots: seq<Option<Partial>>, hashed: seq<seq<byte>>) {
    forall i :: 0 <= i < |slots| && slots[i].Some? ==> Agrees(slots[i].value, hashed)
  }

  lemma SlotsAgreeGrows(slots: seq<Option<Partial>>, was: seq<seq<byte>>, now: seq<seq<byte>>)
    requires SlotsAgree(slots, was) && Grows(was, now)
    ensures SlotsAgree(slots, now)
  {
    forall i | 0 <= i < |slots| && slots[i].Some? ensures Agrees(slots[i].value, now) {
      var p := slots[i].value;
      assert now[p.seqNo] == now[..|was|][p.seqNo];
    }
  }

  /** A genuine fragment never raises an alert in a slot check and keeps what has arrived correct. */
  lemma GenuineStep(rx: Rx, hashed: seq<seq<byte>>, n: nat, off: nat, len: nat, maxLen: nat)
    requires rx.Valid() && LogOk(hashed) && SlotsAgree(rx.slots, hashed)
    requires n < |hashed| && off + len <= |hashed[n]| - HEADER_LENGTH
    ensures var body := hashed[n][HEADER_LENGTH + off..HEADER_LENGTH + off + len];
            var r := StepFragment(rx, FragmentHeader(hashed, n, off, len), body, maxLen);
            r.Go? ==> SlotsAgree(r.rx.slots, hashed) && r.rx.Valid()
                      && r.rx == rx.(slots := r.rx.slots)
  {
    hide EncodeHeader;
    var h, body := FragmentHeader(hashed, n, off, len), hashed[n][HEADER_LENGTH + off..HEADER_LENGTH + off + len];
    var r := StepFragment(rx, h, body, maxLen);
    if r.Go? {
      StepFragmentValid(rx, h, body, maxLen);
      if InWindow(rx, h) {
        var p := Slot(rx, h);
        assert Agrees(p, hashed);
        if !p.Complete() {
          MergeAgrees(p, hashed, off, len);
        }
      }
    }
  }

  lemma MergeAgrees(p: Partial, hashed: seq<seq<byte>>, off: nat, len: nat)
    requires Agrees(p, hashed) && off + len <= |p.body|
    ensures Agrees(p.Merge(off, hashed[p.seqNo][HEADER_LENGTH + off..HEADER_LENGTH + off + len]), hashed)
  {
  }

  lemma OneFragment(rx: Rx, s: seq<byte>, h: Header, body: seq<byte>, maxLen: nat)
    requires |rx.slots| == MAX_FLIGHT && ParseFragment(s) == Some((h, body, []))
    ensures OpenFragments(rx, s, maxLen).0
         == match StepFragment(rx, h, body, maxLen) { case Stop(_) => rx case Go(next) => next }
  {
    var r := StepFragment(rx, h, body, maxLen);
    if r.Go? {
      assert OpenFragments(r.rx, [], maxLen) == (r.rx, Success);
    }
  }

  lemma GenuineRecord(rx: Rx, e: Emitted, hashed: seq<seq<byte>>, maxLen: nat)
    requires rx.Valid() && LogOk(hashed) && SlotsAgree(rx.slots, hashed) && Genuine(e, hashed)
    ensures var next := HandleRecord(rx, e.typ, e.plain, maxLen).0;
            SlotsAgree(next.slots, hashed) && next.Valid()
            && next.readSeq == rx.readSeq && next.read == rx.read && next.hasMessage == rx.hasMessage
  {
    hide Emitted.Valid, EncodeHeader;
    if e.typ == TYPE_HANDSHAKE {
      var n: nat, off: nat, len: nat :| FragmentOf(e.plain, hashed, n, off, len);
      var h, body := FragmentHeader(hashed, n, off, len), hashed[n][HEADER_LENGTH + off..HEADER_LENGTH + off + len];
      assert Numbered(hashed[n], n);
      ParseEncodedFragment(h, body, []);
      assert e.plain == EncodeHeader(h) + body + [];
      GenuineStep(rx, hashed, n, off, len, maxLen);
      OneFragment(rx, e.plain, h, body, maxLen);
    }
  }

  /** A complete message that agrees with the log is, header included, the message of the log. */
  lemma CompleteIsMessage(p: Partial, hashed: seq<seq<byte>>)
    requires Agrees(p, hashed) && p.Complete()
    ensures p.Raw() == hashed[p.seqNo]
  {
    var data := hashed[p.seqNo];
    assert p.Bytes() == data[HEADER_LENGTH..];
    assert data == data[..HEADER_LENGTH] + data[HEADER_LENGTH..];
  }

  // ---------------------------------------------------------------- the system

  /** `net` holds every datagram that was ever sent; `buffer` is what is left of the one being read. */
  datatype System = System(tx: Tx, rx: Rx, net: seq<seq<Emitted>>, buffer: seq<byte>, pending: seq<Emitted>,
                           delivered: seq<seq<byte>>)

  datatype Event =
    | AddMessage(typ: byte, body: seq<byte>)
    | AddChangeCipherSpec
    | Transmit(rewind: bool, flush: bool, mtu: nat, bio: nat -> int, flushed: int, entropy: Entropy)
    | Reply
    | Complete
    | WriteKeys
    | NullVersion(version: nat)
    | Arrive(i: nat)
    | ReadRecord(maxLen: nat, forCcs: bool)
    | TakeMessage
    | ReadKeys

  const START := System(INITIAL_TX, INITIAL, [], [], [], [])

  /** Both ends derive the same context for the same epoch; epoch 0 is unprotected. */
  ghost predicate KeysOk(keys: nat -> Context) {
    keys(0).Null? && forall e :: keys(e).Valid()
  }

  function Bytes(es: seq<Emitted>): seq<byte>
    requires forall i :: 0 <= i < |es| ==> es[i].Valid()
  {
    if es == [] then [] else es[0].Bytes() + Bytes(es[1..])
  }

  ghost predicate FromEmitted(es: seq<Emitted>, bytes: seq<byte>) {
    (forall i :: 0 <= i < |es| ==> es[i].Valid()) && bytes == Bytes(es)
  }

  /** Events that are not possible in a state change nothing. */
  ghost function Next(s: System, ev: Event, keys: nat -> Context): System {
    if s.tx.Valid() && s.rx.Valid() then Step(s, ev, keys) else s
  }

  ghost function Step(s: System, ev: Event, keys: nat -> Context): System
    requires s.tx.Valid() && s.rx.Valid()
  {
    match ev
    case AddMessage(typ, body) =>
      if |body| >= LIMIT24 then s
      else s.(tx := AddOutgoing(s.tx, false, FinishMessage(InitMessage(typ, s.tx.writeSeq, body))).0)
    case AddChangeCipherSpec => s.(tx := AddOutgoing(s.tx, true, []).0)
    case Transmit(rewind, flush, mtu, bio, flushed, entropy) =>
      var t := if rewind then Rewind(s.tx) else s.tx;
      var tx := if flush then t.(complete := true) else t;
      s.(tx := SendFlight(tx, mtu, bio, flushed, entropy).tx, net := s.net + EmitPackets(tx, mtu, bio, entropy, 0))
    case Reply => s.(tx := NoteReply(s.tx))
    case Complete => s.(tx := HandshakeComplete(s.tx))
    case WriteKeys => s.(tx := NewWriteState(s.tx, keys(Next16(s.tx.w.epoch))))
    case NullVersion(version) =>
      if s.tx.w.ctx.Null? && version < LIMIT16 then s.(tx := s.tx.(w := s.tx.w.(ctx := Null(version)))) else s
    case Arrive(i) =>
      if i < |s.net| && forall j :: 0 <= j < |s.net[i]| ==> s.net[i][j].Valid()
      then s.(buffer := Bytes(s.net[i]), pending := s.net[i])
      else s
    case ReadRecord(maxLen, forCcs) =>
      var (rx, consumed, _) := if forCcs then ChangeCipherSpecInput(s.rx, false, s.buffer, maxLen)
                               else HandshakeInput(s.rx, false, s.buffer, maxLen);
      if consumed == 0 then s.(rx := rx)
      else
        s.(rx := rx, buffer := if consumed <= |s.buffer| then s.buffer[consumed..] else [],
           pending := if consumed >= |s.buffer| || s.pending == [] then [] else s.pending[1..])
    case TakeMessage =>
      var (rx, raw) := PeekMessage(s.rx);
      if raw.None? then s.(rx := rx) else s.(rx := DropMessage(rx), delivered := s.delivered + [raw.value])
    case ReadKeys =>
      if s.rx.HasUnprocessed() then s else s.(rx := NewReadState(s.rx, keys(Next16(s.rx.read.epoch))))
  }

  ghost predicate EmittedKeys(e: Emitted, keys: nat -> Context) {
    && e.w.Usable(e.previous)
    && e.w.Epoch(e.previous) < LIMIT16
    && SameKeys(e.w.Ctx(e.previous), keys(e.w.Epoch(e.previous)))
  }

  ghost predicate AllKeyed(es: seq<Emitted>, keys: nat -> Context) {
    forall i :: 0 <= i < |es| ==> EmittedKeys(es[i], keys)
  }

  ghost predicate NetKeyed(net: seq<seq<Emitted>>, keys: nat -> Context) {
    forall i :: 0 <= i < |net| ==> AllKeyed(net[i], keys)
  }

  ghost predicate WriterKeyed(w: WriteState, keys: nat -> Context) {
    && SameKeys(w.ctx, keys(w.epoch))
    && (w.epoch >= 1 && w.lastCtx.Some? ==> SameKeys(w.lastCtx.value, keys(w.epoch - 1)))
  }

  ghost predicate SenderSide(tx: Tx, net: seq<seq<Emitted>>, pending: seq<Emitted>, buffer: seq<byte>,
                             keys: nat -> Context)
  {
    && SenderOk(tx) && WriterKeyed(tx.w, keys)
    && PacketsGenuine(net, tx.hashed) && NetKeyed(net, keys)
    && AllGenuine(pending, tx.hashed) && AllKeyed(pending, keys)
    && FromEmitted(pending, buffer)
  }

  ghost predicate ReceiverSide(rx: Rx, delivered: seq<seq<byte>>, hashed: seq<seq<byte>>, keys: nat -> Context) {
    && rx.Valid() && SameKeys(rx.read.ctx, keys(rx.read.epoch))
    && SlotsAgree(rx.slots, hashed)
    && Grows(delivered, hashed) && rx.readSeq == |delivered|
  }

  ghost predicate Inv(s: System, keys: nat -> Context) {
    && SenderSide(s.tx, s.net, s.pending, s.buffer, keys)
    && ReceiverSide(s.rx, s.delivered, s.tx.hashed, keys)
  }

  // ---------------------------------------------------------------- every step keeps the invariant

  /** Only the sender moved, and its log at most grew. */
  lemma SenderMoved(s: System, s': System, keys: nat -> Context)
    requires Inv(s, keys)
    requires s' == s.(tx := s'.tx) && SenderOk(s'.tx) && WriterKeyed(s'.tx.w, keys)
    requires Grows(s.tx.hashed, s'.tx.hashed)
    ensures Inv(s', keys)
  {
    hide SenderOk, WriterKeyed, Genuine, Agrees, FromEmitted, Rx.Valid;
    forall i | 0 <= i < |s.net| ensures AllGenuine(s.net[i], s'.tx.hashed) {
      GenuineGrows(s.net[i], s.tx.hashed, s'.tx.hashed);
    }
    GenuineGrows(s.pending, s.tx.hashed, s'.tx.hashed);
    SlotsAgreeGrows(s.rx.slots, s.tx.hashed, s'.tx.hashed);
    assert s'.tx.hashed[..|s.delivered|] == s'.tx.hashed[..|s.tx.hashed|][..|s.delivered|];
  }

  lemma AddMessageKeeps(s: System, typ: byte, body: seq<byte>, keys: nat -> Context)
    requires Inv(s, keys)
    requires |Next(s, AddMessage(typ, body), keys).tx.hashed| < LIMIT16
    ensures Inv(Next(s, AddMessage(typ, body), keys), keys)
  {
    hide EncodeHeader, WriteState.Valid, WriterKeyed;
    if |body| < LIMIT24 {
      var data := FinishMessage(InitMessage(typ, s.tx.writeSeq, body));
      FinishedIsMessage(typ, s.tx.writeSeq, body);
      var n := s.tx.writeSeq;
      assert data[..HEADER_LENGTH] == EncodeHeader(MessageHeader(typ, n, |body|));
      assert data[..HEADER_LENGTH][0] == data[0];
      assert data[0] == EncodeHeader(MessageHeader(typ, n, |body|))[0];
      HeaderType(MessageHeader(typ, n, |body|));
      assert Numbered(data, n);
      QueueKeeps(s.tx, data, typ, body);
      SenderMoved(s, Next(s, AddMessage(typ, body), keys), keys);
    }
  }

  lemma HeaderType(h: Header)
    ensures EncodeHeader(h)[0] == h.msgType
  {
  }

  lemma QueueKeeps(tx: Tx, data: seq<byte>, typ: byte, body: seq<byte>)
    requires SenderOk(tx) && IsMessage(data, typ, tx.writeSeq, body) && Numbered(data, tx.writeSeq)
    requires |AddOutgoing(tx, false, data).0.hashed| < LIMIT16
    ensures var next := AddOutgoing(tx, false, data).0;
            SenderOk(next) && Grows(tx.hashed, next.hashed) && next.w == tx.w
  {
    hide EncodeHeader, WriteState.Valid, Numbered;
    var next := AddOutgoing(tx, false, data).0;
    assert WellFormed(Outgoing(data, tx.w.epoch, false)) by {
      assert IsMessage(Outgoing(data, tx.w.epoch, false).data, typ, tx.writeSeq, body);
    }
    forall j | 0 <= j < |next.messages| && !next.messages[j].isCcs
      ensures exists n :: 0 <= n < |next.hashed| && next.messages[j].data == next.hashed[n]
    {
      if |next.hashed| > |tx.hashed| && j == |next.messages| - 1 {
        assert next.hashed[|tx.hashed|] == data;
      } else {
        assert next.messages[j] == tx.messages[j];
        var n :| 0 <= n < |tx.hashed| && tx.messages[j].data == tx.hashed[n];
        assert next.hashed[n] == tx.hashed[n];
      }
    }
  }

  /** A change of the flight that adds no message. */
  lemma FlightKeeps(tx: Tx, next: Tx)
    requires SenderOk(tx) && next.Valid() && next.hashed == tx.hashed && next.writeSeq == tx.writeSeq
    requires forall j :: 0 <= j < |next.messages| ==> next.messages[j] in tx.messages || next.messages[j].isCcs
    ensures SenderOk(next)
  {
    hide Tx.Valid, LogOk;
  }

  lemma CcsKeepsFlight(tx: Tx)
    requires tx.Valid()
    ensures AddOutgoing(tx, true, []).0.Valid() && NoteReply(tx).Valid() && HandshakeComplete(tx).Valid()
  {
    hide WriteState.Valid, IsMessage;
  }

  /** Sender events that neither add a message nor change keys. */
  lemma IdleKeeps(s: System, ev: Event, keys: nat -> Context)
    requires Inv(s, keys) && (ev.AddChangeCipherSpec? || ev.Reply? || ev.Complete?)
    ensures Inv(Next(s, ev, keys), keys)
  {
    hide Genuine, Agrees, FromEmitted, Rx.Valid, LogOk, Tx.Valid, Logged, WriterKeyed;
    var s' := Next(s, ev, keys);
    CcsKeepsFlight(s.tx);
    FlightKeeps(s.tx, s'.tx);
    SenderMoved(s, s', keys);
  }

  lemma WriterKeeps(tx: Tx, w: WriteState)
    requires SenderOk(tx) && w.Valid()
    ensures SenderOk(tx.(w := w))
  {
    hide LogOk, WellFormed, InFlight;
  }

  /** Events that change the write keys, or the version that is written. */
  lemma WriteKeysKeep(s: System, ev: Event, keys: nat -> Context)
    requires Inv(s, keys) && KeysOk(keys) && (ev.WriteKeys? || ev.NullVersion?)
    ensures Inv(Next(s, ev, keys), keys)
  {
    hide Genuine, Agrees, FromEmitted, Rx.Valid, SenderOk;
    var s' := Next(s, ev, keys);
    SenderValid(s.tx);
    assert keys(Next16(s.tx.w.epoch)).Valid();
    WriterKeeps(s.tx, s'.tx.w);
    SenderMoved(s, s', keys);
  }

  lemma SenderValid(tx: Tx)
    requires SenderOk(tx)
    ensures tx.Valid() && tx.w.Valid()
  {
  }

  lemma TransmitKeeps(s: System, ev: Event, keys: nat -> Context)
    requires Inv(s, keys) && ev.Transmit?
    ensures Inv(Next(s, ev, keys), keys)
  {
    hide Genuine, Agrees, FromEmitted, Rx.Valid, LogOk, SendLoop, EmitPackets, WellFormed, WriterKeyed;
    var t := if ev.rewind then Rewind(s.tx) else s.tx;
    var tx := if ev.flush then t.(complete := true) else t;
    assert SenderOk(tx);
    EmitPacketsGenuine(tx, ev.mtu, ev.bio, ev.entropy, 0);
    EmitPacketsKeyed(tx, ev.mtu, ev.bio, ev.entropy, 0, keys);
    var s' := Next(s, ev, keys);
    SenderMoved(s, s.(tx := s'.tx), keys);
    assert s' == s.(tx := s'.tx, net := s.net + EmitPackets(tx, ev.mtu, ev.bio, ev.entropy, 0));
  }

  lemma {:induction false} EmitRecordsKeyed(tx: Tx, room: nat, entropy: Entropy, k: nat, keys: nat -> Context)
    requires tx.Valid() && WriterKeyed(tx.w, keys)
    ensures AllKeyed(EmitRecords(tx, room, entropy, k), keys)
    ensures WriterKeyed(SealRecords(tx, room, entropy, k).0.w, keys)
    decreases |tx.messages| - tx.at.written
  {
    hide SealNextMessage, SealRecords, EmitRecords, PlanNext, Tx.Valid, EmitNext, EmittedKeys, WriterKeyed, AllKeyed;
    AtWithinFlight(tx);
    NoneKeyed(keys);
    if tx.at.written == |tx.messages| {
      SealRecordsDone(tx, room, entropy, k);
      EmitRecordsDone(tx, room, entropy, k);
    } else {
      SealRecordsTurn(tx, room, entropy, k);
      EmitRecordsTurn(tx, room, entropy, k);
      SealKeepsKeys(tx, room, entropy, k, keys);
      var (next, result) := SealNextMessage(tx, room, entropy, k);
      if result.Partially? {
        KeyedMore(EmitNext(tx, room, entropy, k), [], keys);
      } else if result.Fully? {
        EmitRecordsKeyed(MessageDone(next), room - |result.record|, entropy, k, keys);
        KeyedMore(EmitNext(tx, room, entropy, k), EmitRecords(MessageDone(next), room - |result.record|, entropy, k),
                  keys);
      }
    }
  }

  lemma KeyedMore(e: Emitted, es: seq<Emitted>, keys: nat -> Context)
    requires EmittedKeys(e, keys) && AllKeyed(es, keys)
    ensures AllKeyed([e] + es, keys)
  {
    hide EmittedKeys;
  }

  lemma NoneKeyed(keys: nat -> Context)
    ensures AllKeyed([], keys)
  {
  }

  lemma SealKeepsKeys(tx: Tx, room: nat, entropy: Entropy, k: nat, keys: nat -> Context)
    requires tx.w.Valid() && tx.at.written < |tx.messages| && WriterKeyed(tx.w, keys)
    ensures WriterKeyed(SealNextMessage(tx, room, entropy, k).0.w, keys)
    ensures PlanNext(tx, room).Send? ==> EmittedKeys(EmitNext(tx, room, entropy, k), keys)
  {
    hide PlanNext, SealRecord;
    if PlanNext(tx, room).Send? {
      PlanEpoch(tx, room);
      var plan := PlanNext(tx, room);
      var random := Draw(tx.w.Ctx(plan.previous), entropy, k, tx.at.written);
      SealMovesOn(tx.w, plan.typ, plan.plain, plan.previous, random, room);
    }
  }

  /** Sealing changes nothing but sequence numbers. */
  lemma SealMovesOn(w: WriteState, typ: byte, plain: seq<byte>, previous: bool, random: seq<byte>, maxOut: nat)
    requires w.Valid() && w.Usable(previous) && RandomFits(w.Ctx(previous), random)
    ensures var next := SealRecord(w, typ, plain, previous, random, maxOut).0;
            next.epoch == w.epoch && next.ctx == w.ctx && next.lastCtx == w.lastCtx
  {
    hide CipherSeal, EncodeRecord;
  }

  lemma {:induction false} EmitPacketsKeyed(tx: Tx, mtu: nat, bio: nat -> int, entropy: Entropy, k: nat,
                                            keys: nat -> Context)
    requires tx.Valid() && WriterKeyed(tx.w, keys)
    ensures NetKeyed(EmitPackets(tx, mtu, bio, entropy, k), keys)
    ensures WriterKeyed(SendLoop(tx, mtu, bio, entropy, k).tx.w, keys)
    decreases |tx.messages| - tx.at.written, BytesLeft(tx)
  {
    hide SealRecords, EmitRecords, AllKeyed, WellFormed, WriterKeyed;
    if tx.at.written < |tx.messages| {
      PacketProgress(tx, mtu, entropy, k);
      EmitRecordsKeyed(tx, mtu, entropy, k, keys);
      var (next, packet) := SealNextPacket(tx, mtu, entropy, k);
      if packet.Some? && bio(k) > 0 {
        EmitPacketsKeyed(next, mtu, bio, entropy, k + 1, keys);
      }
    }
  }

  /** The first pending record, as the reader sees it. */
  lemma ReadPending(read: ReadState, e: Emitted, rest: seq<byte>, hashed: seq<seq<byte>>, keys: nat -> Context)
    requires Genuine(e, hashed) && EmittedKeys(e, keys)
    requires read.ctx.Valid() && SameKeys(read.ctx, keys(read.epoch))
    ensures var (next, outcome) := OpenRecord(read, false, e.Bytes() + rest);
            && !outcome.AlertRecord?
            && (outcome.Record? ==> outcome.typ == e.typ && outcome.plain == e.plain)
            && (!outcome.Record? ==> next == read)
            && (outcome.Consumed() == |e.Bytes()| || outcome.Consumed() == |e.Bytes() + rest|)
  {
    hide SealRecord, OpenRecord;
    OpenSealedRecord(e.w, e.typ, e.plain, e.previous, e.random, e.room, read, rest);
  }

  /** One record read from the buffer: state, and what is left of buffer and pending records. */
  lemma InputKeeps(s: System, maxLen: nat, keys: nat -> Context)
    requires Inv(s, keys)
    ensures var (rx, consumed, _) := HandshakeInput(s.rx, false, s.buffer, maxLen);
            && rx.readSeq == s.rx.readSeq && rx.read.epoch == s.rx.read.epoch && rx.read.ctx == s.rx.read.ctx
            && SlotsAgree(rx.slots, s.tx.hashed) && rx.Valid()
            && consumed <= |s.buffer|
            && (0 < consumed < |s.buffer| ==>
                  s.pending != [] && FromEmitted(s.pending[1..], s.buffer[consumed..]))
  {
    hide Agrees, EncodeHeader, SlotsAgree, HandleRecord, OpenRecord, PacketsGenuine, NetKeyed, SealRecord, Rx.Valid,
         Genuine, EmittedKeys, Emitted.Valid;
    SlotCount(s.rx);
    HandshakeInputValid(s.rx, false, s.buffer, maxLen);
    var (read, outcome) := OpenRecord(s.rx.read, false, s.buffer);
    if s.pending == [] {
      EmptyInput(s.rx.read);
    } else {
      var e, rest := s.pending[0], s.pending[1..];
      assert Genuine(e, s.tx.hashed) && EmittedKeys(e, keys);
      assert s.buffer == e.Bytes() + Bytes(rest);
      ReadPending(s.rx.read, e, Bytes(rest), s.tx.hashed, keys);
      assert (e.Bytes() + Bytes(rest))[|e.Bytes()|..] == Bytes(rest);
      if outcome.Record? {
        NewRead(s.rx, read);
        GenuineRecord(s.rx.(read := read), e, s.tx.hashed, maxLen);
      }
    }
  }

  lemma EmptyInput(read: ReadState)
    requires read.ctx.Valid()
    ensures OpenRecord(read, false, []) == (read, NeedMore)
  {
  }

  lemma ReadKeeps(s: System, ev: Event, keys: nat -> Context)
    requires Inv(s, keys) && ev.ReadRecord?
    ensures Inv(Next(s, ev, keys), keys)
  {
    hide Agrees, Tx.Valid, LogOk, Logged, SlotsAgree, HandshakeInput, PacketsGenuine, NetKeyed, WriterKeyed,
         Rx.Valid,
         Genuine, EmittedKeys, FromEmitted;
    SlotCount(s.rx);
    CcsKeeps(s.rx, false);
    InputKeeps(s, ev.maxLen, keys);
    NoneLeft();
    var (rx, consumed, _) := HandshakeInput(s.rx, false, s.buffer, ev.maxLen);
    CcsKeeps(rx, false);
    var s' := Next(s, ev, keys);
    assert ReceiverSide(s'.rx, s'.delivered, s.tx.hashed, keys);
    if consumed == |s.buffer| {
      assert s.buffer[consumed..] == [];
    }
    assert AllGenuine(s'.pending, s.tx.hashed) && AllKeyed(s'.pending, keys) && FromEmitted(s'.pending, s'.buffer);
  }

  lemma NoneLeft()
    ensures FromEmitted([], [])
  {
  }

  lemma CcsKeeps(rx: Rx, hasCcs: bool)
    requires rx.Valid()
    ensures rx.(hasCcs := hasCcs).Valid()
  {
  }

  lemma ArriveKeeps(s: System, ev: Event, keys: nat -> Context)
    requires Inv(s, keys) && ev.Arrive?
    ensures Inv(Next(s, ev, keys), keys)
  {
    hide SenderOk, WriterKeyed, Genuine, EmittedKeys, ReceiverSide;
    if ev.i < |s.net| {
      assert AllGenuine(s.net[ev.i], s.tx.hashed) && AllKeyed(s.net[ev.i], keys);
    }
  }

  /** The message that is handed out is the next one of the sender's log. */
  lemma TakeKeeps(s: System, keys: nat -> Context)
    requires Inv(s, keys)
    ensures Inv(Next(s, TakeMessage, keys), keys)
  {
    hide SenderSide, Agrees, Numbered;
    DropMessageValid(s.rx);
    if s.rx.CurrentComplete() {
      var p := s.rx.slots[s.rx.Current()].value;
      assert s.rx.SlotOk(s.rx.Current(), p);
      SameSlotSameNumber(s.rx.readSeq, s.rx.readSeq, p.seqNo);
      AgreesInLog(p, s.tx.hashed);
      CompleteIsMessage(p, s.tx.hashed);
      var n := |s.delivered|;
      assert s.tx.hashed[..n + 1] == s.tx.hashed[..n] + [s.tx.hashed[n]];
      LogBound(s, keys);
    }
  }

  lemma AgreesInLog(p: Partial, hashed: seq<seq<byte>>)
    requires Agrees(p, hashed)
    ensures p.seqNo < |hashed|
  {
  }

  lemma LogBound(s: System, keys: nat -> Context)
    requires Inv(s, keys)
    ensures |s.tx.hashed| < LIMIT16
  {
  }

  lemma ReadKeysKeeps(s: System, keys: nat -> Context)
    requires Inv(s, keys) && KeysOk(keys)
    ensures Inv(Next(s, ReadKeys, keys), keys)
  {
    hide SenderSide, Agrees;
    NewReadStateValid(s.rx, keys(Next16(s.rx.read.epoch)));
  }

  lemma StepKeeps(s: System, ev: Event, keys: nat -> Context)
    requires Inv(s, keys) && KeysOk(keys)
    requires |Next(s, ev, keys).tx.hashed| < LIMIT16
    ensures Inv(Next(s, ev, keys), keys)
  {
    hide Inv, Next;
    match ev
    case AddMessage(typ, body) => AddMessageKeeps(s, typ, body, keys);
    case Transmit(_, _, _, _, _, _) => TransmitKeeps(s, ev, keys);
    case Arrive(_) => ArriveKeeps(s, ev, keys);
    case ReadRecord(_, _) => ReadKeeps(s, ev, keys);
    case TakeMessage => TakeKeeps(s, keys);
    case ReadKeys => ReadKeysKeeps(s, keys);
    case WriteKeys => WriteKeysKeep(s, ev, keys);
    case NullVersion(_) => WriteKeysKeep(s, ev, keys);
    case _ => IdleKeeps(s, ev, keys);
  }

  lemma StartHolds(keys: nat -> Context)
    requires KeysOk(keys)
    ensures Inv(START, keys)
  {
  }

  // ---------------------------------------------------------------- every run

  /** A run: the states it goes through, each made from the one before by an event. */
  ghost predicate IsRun(states: seq<System>, events: seq<Event>, keys: nat -> Context) {
    && |states| == |events| + 1 && states[0] == START
    && forall i :: 0 <= i < |events| ==> states[i + 1] == Next(states[i], events[i], keys)
  }

  lemma {:induction false} RunKeeps(states: seq<System>, events: seq<Event>, keys: nat -> Context, i: nat)
    requires KeysOk(keys) && IsRun(states, events, keys) && i <= |events|
    requires forall j :: 0 <= j <= i ==> |states[j].tx.hashed| < LIMIT16
    ensures Inv(states[i], keys)
  {
    hide Inv, Next;
    if i == 0 {
      StartHolds(keys);
    } else {
      RunKeeps(states, events, keys, i - 1);
      assert states[i - 1 + 1] == Next(states[i - 1], events[i - 1], keys);
      StepKeeps(states[i - 1], events[i - 1], keys);
    }
  }

  /**
  End to end: in every run in which the sender has not used up its 16-bit message numbers, the messages
  the receiver has handed out are exactly the first messages the sender added to its transcript, in order,
  each once, with header and body equal byte for byte.
  */
  lemma EndToEnd(states: seq<System>, events: seq<Event>, keys: nat -> Context, i: nat)
    requires KeysOk(keys) && IsRun(states, events, keys) && i <= |events|
    requires forall j :: 0 <= j <= i ==> |states[j].tx.hashed| < LIMIT16
    ensures |states[i].delivered| <= |states[i].tx.hashed|
    ensures forall n :: 0 <= n < |states[i].delivered| ==> states[i].delivered[n] == states[i].tx.hashed[n]
  {
    RunKeeps(states, events, keys, i);
    var s := states[i];
    forall n | 0 <= n < |s.delivered| ensures s.delivered[n] == s.tx.hashed[n] {
      assert s.delivered[n] == s.tx.hashed[..|s.delivered|][n];
    }
  }
}
