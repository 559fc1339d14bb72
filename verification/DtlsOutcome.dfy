/**
What the receive path reports: for every record a peer can seal, whether it is taken, discarded or fatal, and with
which alert.  Honest records are never fatal.
*/
module DtlsOutcome {
  import opened Wire
  import opened Aead
  import opened ReplayWindow
  import opened Reassembly
  import opened DtlsRecord
  import opened DtlsReceive
  import opened DtlsSend
  import opened DtlsFlight
  import opened DtlsSystem
  import opened DtlsDelivery

  /** A record by a peer with the same keys: its type and content are up to the peer. */
  ghost predicate Sealed(rx: Rx, e: Emitted, keys: nat -> Context) {
    && rx.Valid() && SameKeys(rx.read.ctx, keys(rx.read.epoch))
    && e.Valid() && EmittedKeys(e, keys) && Readable(rx.read.ctx, e)
  }

  /** The receiver with the record noted in its replay window. */
  ghost function Noted(rx: Rx, e: Emitted): Rx
    requires e.Valid()
  {
    rx.(read := rx.read.(seen := rx.read.seen.Add(Number(e))))
  }

  lemma Opens(rx: Rx, e: Emitted, rest: seq<byte>, keys: nat -> Context)
    requires Sealed(rx, e, keys)
    ensures OpenRecord(rx.read, false, e.Bytes() + rest)
         == if EpochOf(e) != rx.read.epoch || rx.read.seen.Rejects(Number(e)) then (rx.read, Dropped(|e.Bytes()|))
            else if |e.plain| > 16384 then (rx.read, TooLong(|e.Bytes()|))
            else if e.typ == TYPE_ALERT then (Noted(rx, e).read, AlertRecord(|e.Bytes()|, e.plain))
            else (Noted(rx, e).read, Record(|e.Bytes()|, e.typ, e.plain))
  {
    hide SealRecord, OpenRecord;
    OpenSealedRecord(e.w, e.typ, e.plain, e.previous, e.random, e.room, rx.read, rest);
  }

  /** A record of another epoch, a replay, or one too old to tell is discarded, and changes nothing. */
  lemma OldIsDiscarded(rx: Rx, e: Emitted, rest: seq<byte>, keys: nat -> Context, maxLen: nat)
    requires Sealed(rx, e, keys) && (EpochOf(e) != rx.read.epoch || rx.read.seen.Rejects(Number(e)))
    ensures HandshakeInput(rx, false, e.Bytes() + rest, maxLen) == (rx, |e.Bytes()|, Discard)
  {
    hide OpenRecord, Sealed;
    SealedValid(rx, e, keys);
    Opens(rx, e, rest, keys);
    assert rx.(read := rx.read) == rx;
  }

  lemma SealedValid(rx: Rx, e: Emitted, keys: nat -> Context)
    requires Sealed(rx, e, keys)
    ensures |rx.slots| == MAX_FLIGHT && rx.read.ctx.Valid() && e.Valid()
  {
  }

  /** Any other record, of all types but handshake. */
  lemma OtherOutcome(rx: Rx, e: Emitted, rest: seq<byte>, keys: nat -> Context, maxLen: nat)
    requires Sealed(rx, e, keys) && EpochOf(e) == rx.read.epoch && !rx.read.seen.Rejects(Number(e))
    ensures var (next, consumed, outcome) := HandshakeInput(rx, false, e.Bytes() + rest, maxLen);
            && consumed == |e.Bytes()|
            && if |e.plain| > 16384 then next == rx && outcome == Fatal(RecordOverflow)
               else if e.typ == TYPE_ALERT then next == Noted(rx, e) && outcome == PeerAlert(e.plain)
               else if e.typ == TYPE_APPLICATION_DATA then
                 // Protected data comes too early and is dropped; without protection it is an error.
                 next == Noted(rx, e) && outcome == if rx.read.ctx.Null? then Fatal(UnexpectedMessage) else Discard
               else if e.typ == TYPE_CHANGE_CIPHER_SPEC then
                 if rx.read.ctx.Null? && e.plain == [1] then next == Noted(rx, e).(hasCcs := true) && outcome == Success
                 else
                   && next == Noted(rx, e)
                   && outcome == Fatal(if rx.read.ctx.Null? then IllegalParameter else UnexpectedMessage)
               else e.typ != TYPE_HANDSHAKE ==> next == Noted(rx, e) && outcome == Fatal(UnexpectedMessage)
  {
    hide OpenRecord, OpenFragments, Sealed;
    SealedValid(rx, e, keys);
    Opens(rx, e, rest, keys);
    assert rx.(read := rx.read) == rx;
  }

  // ---------------------------------------------------------------- handshake records

  /** A message of this number has begun to arrive, with another type or length. */
  ghost predicate Contradicts(rx: Rx, h: Header) {
    exists i :: 0 <= i < |rx.slots| && rx.slots[i].Some? && rx.slots[i].value.seqNo == h.seqNo
                && (rx.slots[i].value.msgType != h.msgType || |rx.slots[i].value.body| != h.msgLen)
  }

  /** What is wrong with a fragment. */
  ghost function Objection(rx: Rx, h: Header, maxLen: nat): Option<Alert> {
    if h.fragOff + h.fragLen > h.msgLen || h.msgLen > maxLen then Some(IllegalParameter)
    else if rx.read.epoch == 1 && h.seqNo != rx.readSeq then Some(UnexpectedMessage)
    else if h.seqNo == rx.readSeq + 7 then Some(InternalError)
    else if rx.readSeq <= h.seqNo < rx.readSeq + 7 && Contradicts(rx, h) then Some(IllegalParameter)
    else None
  }

  lemma StepObjects(rx: Rx, h: Header, body: seq<byte>, maxLen: nat)
    requires rx.Valid() && |body| == h.fragLen
    ensures var r := StepFragment(rx, h, body, maxLen);
            match Objection(rx, h, maxLen) case Some(alert) => r == Stop(alert) case None => r.Go?
  {
    if rx.readSeq <= h.seqNo < rx.readSeq + MAX_FLIGHT {
      var i := h.seqNo % MAX_FLIGHT;
      if rx.slots[i].Some? {
        assert rx.SlotOk(i, rx.slots[i].value);
        SameSlotSameNumber(rx.readSeq, h.seqNo, rx.slots[i].value.seqNo);
      }
      forall j | 0 <= j < |rx.slots| && rx.slots[j].Some? && rx.slots[j].value.seqNo == h.seqNo ensures j == i {
        assert rx.SlotOk(j, rx.slots[j].value);
      }
    }
  }

  /** The receiver after a fragment that is not objected to. */
  ghost function After(rx: Rx, h: Header, body: seq<byte>, maxLen: nat): (next: Rx)
    requires rx.Valid() && h.Encodable() && |body| == h.fragLen && Objection(rx, h, maxLen).None?
    ensures next.Valid()
  {
    StepObjects(rx, h, body, maxLen);
    StepFragmentValid(rx, h, body, maxLen);
    StepFragment(rx, h, body, maxLen).rx
  }

  /** A handshake record: its fragments in order, up to the first that is objected to. */
  lemma FragmentOutcome(rx: Rx, h: Header, body: seq<byte>, more: seq<byte>, maxLen: nat)
    requires rx.Valid() && h.Encodable() && |body| == h.fragLen
    ensures HandleRecord(rx, TYPE_HANDSHAKE, EncodeHeader(h) + body + more, maxLen)
         == match Objection(rx, h, maxLen)
            case Some(alert) => (rx, Fatal(alert))
            case None => HandleRecord(After(rx, h, body, maxLen), TYPE_HANDSHAKE, more, maxLen)
  {
    hide EncodeHeader, StepFragment, Objection, ParseFragment;
    StepObjects(rx, h, body, maxLen);
    ParseEncodedFragment(h, body, more);
    assert |EncodeHeader(h) + body + more| > 0;
  }

  /** At the end of the fragments the record was taken; what is no fragment is an error. */
  lemma LastOutcome(rx: Rx, tail: seq<byte>, maxLen: nat)
    requires |rx.slots| == MAX_FLIGHT
    ensures HandleRecord(rx, TYPE_HANDSHAKE, [], maxLen) == (rx, Success)
    ensures 0 < |tail| < 12 || (|tail| >= 12 && |tail| < 12 + FromBE(tail[9..12])) ==>
              HandleRecord(rx, TYPE_HANDSHAKE, tail, maxLen) == (rx, Fatal(DecodeError))
  {
    hide FromBE;
  }

  /** What a fragment leaves behind: nothing out of the window, or in a message that is complete; else its bytes. */
  lemma AfterHolds(rx: Rx, h: Header, body: seq<byte>, maxLen: nat)
    requires rx.Valid() && h.Encodable() && |body| == h.fragLen && Objection(rx, h, maxLen).None?
    ensures var next, i := After(rx, h, body, maxLen), h.seqNo % MAX_FLIGHT;
            && next == rx.(slots := next.slots) && |next.slots| == |rx.slots|
            && (forall j :: 0 <= j < |rx.slots| && j != i ==> next.slots[j] == rx.slots[j])
            && if !(rx.readSeq <= h.seqNo < rx.readSeq + 7) then next == rx
               else if rx.slots[i].Some? && rx.slots[i].value.Complete() then next == rx
               else
                 && next.slots[i].Some? && next.slots[i].value.seqNo == h.seqNo
                 && next.slots[i].value.msgType == h.msgType && |next.slots[i].value.body| == h.msgLen
                 && forall k :: 0 <= k < h.msgLen ==>
                      next.slots[i].value.body[k]
                      == if h.fragOff <= k < h.fragOff + |body| then Some(body[k - h.fragOff])
                         else if rx.slots[i].Some? then rx.slots[i].value.body[k]
                         else None
  {
    StepObjects(rx, h, body, maxLen);
  }

  // ---------------------------------------------------------------- honest records

  /** What is to be said of a fragment of message `m` of the sender, by its number and length alone. */
  ghost function Verdict(rx: Rx, hashed: seq<seq<byte>>, m: nat, maxLen: nat): Outcome
    requires m < |hashed| && |hashed[m]| >= HEADER_LENGTH
  {
    if |hashed[m]| - HEADER_LENGTH > maxLen then Fatal(IllegalParameter)
    else if rx.read.epoch == 1 && m != rx.readSeq then Fatal(UnexpectedMessage)
    else if m == rx.readSeq + 7 then Fatal(InternalError)
    else Success
  }

  lemma NoContradiction(rx: Rx, hashed: seq<seq<byte>>, m: nat, off: nat, len: nat)
    requires SlotsAgree(rx.slots, hashed) && m < |hashed| && |hashed[m]| >= HEADER_LENGTH
    ensures !Contradicts(rx, FragmentHeader(hashed, m, off, len))
  {
    forall i | 0 <= i < |rx.slots| && rx.slots[i].Some? && rx.slots[i].value.seqNo == m
      ensures rx.slots[i].value.msgType == hashed[m][0] && |rx.slots[i].value.body| == |hashed[m]| - HEADER_LENGTH
    {
      assert Agrees(rx.slots[i].value, hashed);
    }
  }

  /** A handshake record of the sender. */
  lemma GenuineOutcome(rx: Rx, e: Emitted, hashed: seq<seq<byte>>, m: nat, off: nat, len: nat, maxLen: nat)
    requires rx.Valid() && LogOk(hashed) && SlotsAgree(rx.slots, hashed) && e.typ == TYPE_HANDSHAKE
    requires FragmentOf(e.plain, hashed, m, off, len)
    ensures HandleRecord(rx, e.typ, e.plain, maxLen).1 == Verdict(rx, hashed, m, maxLen)
  {
    hide EncodeHeader, HandleRecord, Contradicts, Rx.Valid;
    var h, body := FragmentHeader(hashed, m, off, len), hashed[m][HEADER_LENGTH + off..HEADER_LENGTH + off + len];
    assert Numbered(hashed[m], m);
    assert e.plain == EncodeHeader(h) + body + [];
    NoContradiction(rx, hashed, m, off, len);
    FragmentOutcome(rx, h, body, [], maxLen);
    if Objection(rx, h, maxLen).None? {
      SlotCount(After(rx, h, body, maxLen));
      LastOutcome(After(rx, h, body, maxLen), [], maxLen);
    }
  }

  /** Of the records that a sender makes, the receiver can do without objection with this one. */
  ghost predicate Welcome(rx: Rx, e: Emitted, hashed: seq<seq<byte>>, maxLen: nat)
    requires e.Valid()
  {
    if !LetThrough(rx.read, e) then EpochOf(e) == rx.read.epoch ==> rx.read.seen.Rejects(Number(e))
    else if e.typ == TYPE_CHANGE_CIPHER_SPEC then rx.read.ctx.Null?
    else forall m: nat, off: nat, len: nat ::
           FragmentOf(e.plain, hashed, m, off, len) ==> Verdict(rx, hashed, m, maxLen).Success?
  }

  /** The first record of a datagram of the sender is fatal exactly if it is not welcome, and else taken or dropped. */
  lemma HonestOutcome(rx: Rx, e: Emitted, rest: seq<byte>, hashed: seq<seq<byte>>, keys: nat -> Context, maxLen: nat)
    requires Sealed(rx, e, keys) && Genuine(e, hashed) && LogOk(hashed) && SlotsAgree(rx.slots, hashed)
    ensures var outcome := HandshakeInput(rx, false, e.Bytes() + rest, maxLen).2;
            && (outcome.Fatal? <==> !Welcome(rx, e, hashed, maxLen))
            && (Welcome(rx, e, hashed, maxLen) ==> outcome == if LetThrough(rx.read, e) then Success else Discard)
  {
    hide OpenRecord, HandleRecord, EncodeHeader, SlotsAgree, LogOk, Verdict, Rx.Valid, SameKeys, EmittedKeys,
         Emitted.Valid;
    SealedValid(rx, e, keys);
    Opens(rx, e, rest, keys);
    if !LetThrough(rx.read, e) {
      if EpochOf(e) != rx.read.epoch || rx.read.seen.Rejects(Number(e)) { OldIsDiscarded(rx, e, rest, keys, maxLen); }
    } else if e.typ == TYPE_CHANGE_CIPHER_SPEC {
      OtherOutcome(rx, e, rest, keys, maxLen);
    } else {
      forall m: nat, off: nat, len: nat | FragmentOf(e.plain, hashed, m, off, len)
        ensures HandshakeInput(rx, false, e.Bytes() + rest, maxLen).2 == Verdict(rx, hashed, m, maxLen)
      {
        NotedValid(rx, e);
        GenuineOutcome(Noted(rx, e), e, hashed, m, off, len, maxLen);
        NotedVerdict(rx, e, hashed, m, off, len, maxLen);
      }
      var m: nat, off: nat, len: nat :| FragmentOf(e.plain, hashed, m, off, len);
      VerdictFatal(rx, hashed, m, off, len, e.plain, maxLen);
    }
  }

  lemma NotedValid(rx: Rx, e: Emitted)
    requires rx.Valid() && e.Valid()
    ensures Noted(rx, e).Valid()
  {
  }

  lemma NotedVerdict(rx: Rx, e: Emitted, hashed: seq<seq<byte>>, m: nat, off: nat, len: nat, maxLen: nat)
    requires e.Valid() && FragmentOf(e.plain, hashed, m, off, len)
    ensures Verdict(Noted(rx, e), hashed, m, maxLen) == Verdict(rx, hashed, m, maxLen)
  {
  }

  lemma VerdictFatal(rx: Rx, hashed: seq<seq<byte>>, m: nat, off: nat, len: nat, plain: seq<byte>, maxLen: nat)
    requires FragmentOf(plain, hashed, m, off, len)
    ensures Verdict(rx, hashed, m, maxLen).Fatal? || Verdict(rx, hashed, m, maxLen).Success?
  {
  }

  /** In every run, reading from the network is not fatal while what arrives is welcome. */
  lemma NeverFatal(states: seq<System>, events: seq<Event>, keys: nat -> Context, i: nat, maxLen: nat)
    requires KeysOk(keys) && IsRun(states, events, keys) && i <= |events|
    requires forall j :: 0 <= j <= i ==> |states[j].tx.hashed| < LIMIT16
    requires var s := states[i];
             s.pending != [] && s.pending[0].Valid() ==> Welcome(s.rx, s.pending[0], s.tx.hashed, maxLen)
    ensures var s := states[i]; s.rx.Valid() && !HandshakeInput(s.rx, false, s.buffer, maxLen).2.Fatal?
  {
    hide HandshakeInput, Welcome, Next, EmittedKeys, SameKeys, Genuine;
    RunKeeps(states, events, keys, i);
    var s := states[i];
    if s.pending == [] {
      NothingRead(s.rx, maxLen);
    } else {
      var e := s.pending[0];
      assert Genuine(e, s.tx.hashed) && EmittedKeys(e, keys) && e.Valid();
      if Readable(s.rx.read.ctx, e) {
        HonestOutcome(s.rx, e, Bytes(s.pending[1..]), s.tx.hashed, keys, maxLen);
      } else {
        UnreadableDropped(s.rx, e, Bytes(s.pending[1..]), keys, maxLen);
      }
    }
  }

  lemma NothingRead(rx: Rx, maxLen: nat)
    requires rx.Valid()
    ensures HandshakeInput(rx, false, [], maxLen) == (rx, 0, NeedInput)
    ensures forall input :: HandshakeInput(rx, true, input, maxLen) == (rx, 0, Closed)
  {
    assert rx.(read := rx.read) == rx;
  }

  /** What is no complete record of a length that can be, is dropped. */
  lemma GarbageDropped(rx: Rx, input: seq<byte>, maxLen: nat)
    requires rx.Valid() && input != []
    requires |input| >= 13 ==> |input| < 13 + FromBE(input[11..13]) || FromBE(input[11..13]) > 16704
    ensures HandshakeInput(rx, false, input, maxLen) == (rx, |input|, Discard)
  {
    hide FromBE, Rx.Valid;
    SlotCount(rx);
    assert rx.(read := rx.read) == rx;
  }

  /** A record that is not sealed with the keys of the reader is dropped. */
  lemma ForgedDropped(rx: Rx, typ: byte, version: nat, number: seq<byte>, body: seq<byte>, rest: seq<byte>, maxLen: nat)
    requires rx.Valid() && version < LIMIT16 && |number| == 8 && |body| <= 16704
    requires Speaks(rx.read.ctx, version) && rx.read.ctx.Open(typ, version, number, body).None?
    ensures var input := EncodeRecord(typ, version, number, body) + rest;
            HandshakeInput(rx, false, input, maxLen) == (rx, 13 + |body|, Discard)
  {
    hide FromBE, Rx.Valid, Context.Open, EncodeRecord, Context.RecordVersion;
    SlotCount(rx);
    VersionSpeaks(rx.read.ctx, version);
    ParseEncoded(typ, version, number, body, rest);
    assert rx.(read := rx.read) == rx;
  }

  /** So is anything in a record of another version, with what is behind it. */
  lemma VersionDropped(rx: Rx, typ: byte, version: nat, number: seq<byte>, body: seq<byte>, rest: seq<byte>,
                       maxLen: nat)
    requires rx.Valid() && version < LIMIT16 && |number| == 8 && |body| <= 16704 && !Speaks(rx.read.ctx, version)
    ensures var input := EncodeRecord(typ, version, number, body) + rest;
            HandshakeInput(rx, false, input, maxLen) == (rx, |input|, Discard)
  {
    hide EncodeRecord, ParseRecord, Context.Open;
    SlotCount(rx);
    VersionSpeaks(rx.read.ctx, version);
    ParseEncoded(typ, version, number, body, rest);
  }

  /** A record with another version, or one that is too long, is dropped with everything behind it. */
  lemma UnreadableDropped(rx: Rx, e: Emitted, rest: seq<byte>, keys: nat -> Context, maxLen: nat)
    requires rx.Valid() && SameKeys(rx.read.ctx, keys(rx.read.epoch))
    requires e.Valid() && EmittedKeys(e, keys) && !Readable(rx.read.ctx, e)
    ensures HandshakeInput(rx, false, e.Bytes() + rest, maxLen) == (rx, |e.Bytes() + rest|, Discard)
  {
    hide SealRecord, OpenRecord;
    OpenSealedRecord(e.w, e.typ, e.plain, e.previous, e.random, e.room, rx.read, rest);
    assert rx.(read := rx.read) == rx;
  }

  // ---------------------------------------------------------------- while a ChangeCipherSpec is awaited

  /** A kept ChangeCipherSpec is used up without reading; else what is read decides. */
  lemma AwaitOutcome(rx: Rx, input: seq<byte>, maxLen: nat)
    requires rx.Valid()
    ensures rx.hasCcs ==> ChangeCipherSpecInput(rx, false, input, maxLen) == (rx.(hasCcs := false), 0, Success)
    ensures var (next, consumed, outcome) := HandshakeInput(rx, false, input, maxLen);
            !rx.hasCcs ==>
              ChangeCipherSpecInput(rx, false, input, maxLen)
              == if outcome.Success? && next.hasCcs then (next.(hasCcs := false), consumed, Success)
                 else (next, consumed, if outcome.Success? then Discard else outcome)
  {
    hide HandshakeInput;
  }

  // ---------------------------------------------------------------- handing out messages and changing keys

  /** The next message is handed out exactly when all of it is there. */
  lemma HandsOut(rx: Rx, message: seq<byte>)
    requires rx.Valid()
    ensures var (next, raw) := PeekMessage(rx);
            && next == rx.(hasMessage := rx.hasMessage || raw.Some?)
            && (raw == Some(message) <==> Holds(rx, rx.readSeq, message))
            && (raw.None? ==> forall m :: !Holds(rx, rx.readSeq, m))
  {
    hide Partial.Raw;
  }

  /** Moving on makes room for one more number and leaves the others that are there. */
  lemma MovesOn(rx: Rx, n: nat, message: seq<byte>)
    requires rx.Valid() && rx.readSeq < n < rx.readSeq + 7
    ensures var next := DropMessage(rx);
            && next.readSeq == (if rx.readSeq == 65535 then 0 else rx.readSeq + 1) && !next.hasMessage
            && next.hasCcs == rx.hasCcs && next.read == rx.read
            && (Holds(next, n, message) <==> Holds(rx, n, message))
            && next.slots[rx.readSeq % 7].None?
  {
    hide Partial.Raw, Partial.Complete;
  }

  /** A message that was begun and is not the one that was handed out. */
  ghost predicate Unread(rx: Rx, n: nat)
    requires |rx.slots| == MAX_FLIGHT
  {
    && rx.readSeq <= n < rx.readSeq + 7 && !(rx.hasMessage && n == rx.readSeq)
    && rx.slots[n % 7].Some?
  }

  /** New read keys are refused exactly if a ChangeCipherSpec or a message is left over. */
  lemma RefusesKeys(rx: Rx)
    requires rx.Valid()
    ensures rx.HasUnprocessed() <==> rx.hasCcs || exists n: nat :: Unread(rx, n)
  {
    if i :| 0 <= i < MAX_FLIGHT && !(rx.hasMessage && i == rx.Current()) && rx.slots[i].Some? {
      assert rx.SlotOk(i, rx.slots[i].value);
      assert Unread(rx, rx.slots[i].value.seqNo);
    }
    if n: nat :| Unread(rx, n) {
      assert n % 7 == rx.Current() ==> n == rx.readSeq;
      assert rx.slots[n % 7].Some?;
    }
  }
}
