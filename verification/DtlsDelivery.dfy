/**
What has to arrive: when every byte of a message is carried by some record that arrives, whatever transmission
it is from and whatever else arrives, the receiver has the whole message; one transmission is enough for that.
*/
module DtlsDelivery {
  import opened Wire
  import opened Aead
  import opened ReplayWindow
  import opened Reassembly
  import opened DtlsRecord
  import opened DtlsReceive
  import opened DtlsSend
  import opened DtlsFlight
  import opened DtlsSystem

  // ---------------------------------------------------------------- records that were let through

  /** The records the record layer let through, one after the other. */
  function Feed(rx: Rx, arrivals: seq<Emitted>, maxLen: nat): (last: Rx)
    requires |rx.slots| == MAX_FLIGHT
    ensures |last.slots| == MAX_FLIGHT
    decreases arrivals
  {
    if arrivals == [] then rx
    else
      var next := HandleRecord(rx, arrivals[0].typ, arrivals[0].plain, maxLen).0;
      if |next.slots| == MAX_FLIGHT then Feed(next, arrivals[1..], maxLen) else rx
  }

  /** Message `n` has a slot; byte `k` of it, when it has one, has arrived. */
  ghost predicate Arrived(rx: Rx, n: nat, k: nat)
    requires |rx.slots| == MAX_FLIGHT
  {
    var slot := rx.slots[n % MAX_FLIGHT];
    slot.Some? && slot.value.seqNo == n && (k < |slot.value.body| ==> slot.value.body[k].Some?)
  }

  /** The messages of the log that a record may carry without being refused in this state; epoch 1 has only one. */
  ghost predicate Acceptable(rx: Rx, hashed: seq<seq<byte>>, n: nat, maxLen: nat) {
    n < |hashed| && n < rx.readSeq + MAX_FLIGHT && |hashed[n]| <= HEADER_LENGTH + maxLen
    && (rx.read.epoch == 1 ==> n == rx.readSeq)
  }

  /** `e` carries byte `k` of message `n`, or all of an empty message `n`. */
  ghost predicate Carries(e: Emitted, hashed: seq<seq<byte>>, n: nat, k: nat) {
    e.typ == TYPE_HANDSHAKE
    && exists off: nat, len: nat :: FragmentOf(e.plain, hashed, n, off, len) && (off <= k < off + len
                                                                               || |hashed[n]| == HEADER_LENGTH)
  }

  ghost predicate OnlyAcceptable(rx: Rx, hashed: seq<seq<byte>>, es: seq<Emitted>, maxLen: nat) {
    forall i, n: nat, off: nat, len: nat :: 0 <= i < |es| && FragmentOf(es[i].plain, hashed, n, off, len)
      ==> Acceptable(rx, hashed, n, maxLen)
  }

  lemma FragmentStep(rx: Rx, hashed: seq<seq<byte>>, m: nat, off: nat, len: nat, maxLen: nat, n: nat, k: nat)
    requires rx.Valid() && LogOk(hashed) && SlotsAgree(rx.slots, hashed) && Acceptable(rx, hashed, m, maxLen)
    requires off + len <= |hashed[m]| - HEADER_LENGTH && rx.readSeq <= n < rx.readSeq + MAX_FLIGHT
    ensures var body := hashed[m][HEADER_LENGTH + off..HEADER_LENGTH + off + len];
            var r := StepFragment(rx, FragmentHeader(hashed, m, off, len), body, maxLen);
            && r.Go? && |r.rx.slots| == MAX_FLIGHT
            && (Arrived(rx, n, k) ==> Arrived(r.rx, n, k))
            && (m == n && (off <= k < off + len || |hashed[m]| == HEADER_LENGTH) ==> Arrived(r.rx, n, k))
  {
    hide EncodeHeader;
    var h, body := FragmentHeader(hashed, m, off, len), hashed[m][HEADER_LENGTH + off..HEADER_LENGTH + off + len];
    assert Numbered(hashed[m], m);
    if InWindow(rx, h) {
      var p := Slot(rx, h);
      if rx.slots[m % MAX_FLIGHT].Some? {
        assert rx.SlotOk(m % MAX_FLIGHT, p);
        SameSlotSameNumber(rx.readSeq, m, p.seqNo);
      }
      assert Agrees(p, hashed);
    }
  }

  lemma {:induction false} FeedArrives(rx: Rx, hashed: seq<seq<byte>>, arrivals: seq<Emitted>, maxLen: nat, n: nat,
                                       k: nat)
    requires rx.Valid() && LogOk(hashed) && SlotsAgree(rx.slots, hashed) && AllGenuine(arrivals, hashed)
    requires OnlyAcceptable(rx, hashed, arrivals, maxLen)
    requires n < |hashed| && rx.readSeq <= n < rx.readSeq + MAX_FLIGHT
    ensures var last := Feed(rx, arrivals, maxLen);
            && last.Valid() && SlotsAgree(last.slots, hashed) && last.readSeq == rx.readSeq
            && (Arrived(rx, n, k) || (exists i :: 0 <= i < |arrivals| && Carries(arrivals[i], hashed, n, k))
                ==> Arrived(last, n, k))
    decreases arrivals
  {
    hide Emitted.Valid, EncodeHeader, Agrees, Numbered;
    if arrivals != [] {
      var e, rest := arrivals[0], arrivals[1..];
      assert Genuine(e, hashed);
      GenuineRecord(rx, e, hashed, maxLen);
      var next := HandleRecord(rx, e.typ, e.plain, maxLen).0;
      SlotCount(next);
      assert AllGenuine(rest, hashed) by {
        forall i | 0 <= i < |rest| ensures Genuine(rest[i], hashed) { assert rest[i] == arrivals[i + 1]; }
      }
      assert OnlyAcceptable(next, hashed, rest, maxLen) by {
        forall i, m: nat, off: nat, len: nat | 0 <= i < |rest| && FragmentOf(rest[i].plain, hashed, m, off, len)
          ensures Acceptable(next, hashed, m, maxLen)
        {
          assert rest[i] == arrivals[i + 1] && Acceptable(rx, hashed, m, maxLen);
        }
      }
      FeedArrives(next, hashed, rest, maxLen, n, k);
      RecordArrives(rx, e, hashed, maxLen, n, k);
      if i :| 0 <= i < |arrivals| && Carries(arrivals[i], hashed, n, k) {
        assert i > 0 ==> rest[i - 1] == arrivals[i];
      }
    }
  }

  lemma CcsSlots(rx: Rx, n: nat, k: nat)
    requires |rx.slots| == MAX_FLIGHT
    ensures Arrived(rx.(hasCcs := true), n, k) <==> Arrived(rx, n, k)
  {
  }

  lemma RecordArrives(rx: Rx, e: Emitted, hashed: seq<seq<byte>>, maxLen: nat, n: nat, k: nat)
    requires rx.Valid() && LogOk(hashed) && SlotsAgree(rx.slots, hashed) && Genuine(e, hashed)
    requires OnlyAcceptable(rx, hashed, [e], maxLen)
    requires n < |hashed| && rx.readSeq <= n < rx.readSeq + MAX_FLIGHT
    ensures var next := HandleRecord(rx, e.typ, e.plain, maxLen).0;
            |next.slots| == MAX_FLIGHT
            && (Arrived(rx, n, k) || Carries(e, hashed, n, k) ==> Arrived(next, n, k))
  {
    hide Emitted.Valid, EncodeHeader, Agrees, Arrived, Acceptable, FragmentOf, Rx.Valid, LogOk;
    SlotCount(rx);
    CcsSlots(rx, n, k);
    if e.typ == TYPE_HANDSHAKE {
      var m: nat, off: nat, len: nat :| FragmentOf(e.plain, hashed, m, off, len);
      if Carries(e, hashed, n, k) {
        m := n;
        off, len :| FragmentOf(e.plain, hashed, n, off, len) && (off <= k < off + len || |hashed[n]| == HEADER_LENGTH);
      }
      assert [e][0] == e;
      FragmentArrives(rx, e.plain, hashed, maxLen, m, off, len, n, k);
    }
  }

  lemma FragmentArrives(rx: Rx, plain: seq<byte>, hashed: seq<seq<byte>>, maxLen: nat, m: nat, off: nat, len: nat,
                        n: nat, k: nat)
    requires rx.Valid() && LogOk(hashed) && SlotsAgree(rx.slots, hashed)
    requires FragmentOf(plain, hashed, m, off, len) && Acceptable(rx, hashed, m, maxLen)
    requires rx.readSeq <= n < rx.readSeq + MAX_FLIGHT
    ensures var next := HandleRecord(rx, TYPE_HANDSHAKE, plain, maxLen).0;
            |next.slots| == MAX_FLIGHT
            && (Arrived(rx, n, k) || (m == n && (off <= k < off + len || |hashed[m]| == HEADER_LENGTH))
                ==> Arrived(next, n, k))
  {
    hide EncodeHeader, Agrees, Arrived, StepFragment, Rx.Valid;
    SlotCount(rx);
    var h, body := FragmentHeader(hashed, m, off, len), hashed[m][HEADER_LENGTH + off..HEADER_LENGTH + off + len];
    assert Numbered(hashed[m], m);
    ParseEncodedFragment(h, body, []);
    assert plain == EncodeHeader(h) + body + [];
    FragmentStep(rx, hashed, m, off, len, maxLen, n, k);
    OneFragment(rx, plain, h, body, maxLen);
  }

  /** Some record carries byte `k` of message `n`, or the empty message `n`. */
  ghost predicate CarriedBy(es: seq<Emitted>, hashed: seq<seq<byte>>, n: nat, k: nat) {
    exists a :: 0 <= a < |es| && Carries(es[a], hashed, n, k)
  }

  ghost predicate Needed(hashed: seq<seq<byte>>, n: nat, k: nat) {
    n < |hashed| && (HEADER_LENGTH + k < |hashed[n]| || |hashed[n]| == HEADER_LENGTH)
  }

  /** A receiver that has room for message `n`, and what it has so far is right. */
  ghost predicate Expects(rx: Rx, hashed: seq<seq<byte>>, n: nat) {
    rx.Valid() && SlotsAgree(rx.slots, hashed) && rx.readSeq <= n < rx.readSeq + MAX_FLIGHT
  }

  /** The receiver holds the whole message. */
  ghost predicate Holds(rx: Rx, n: nat, message: seq<byte>) {
    && |rx.slots| == MAX_FLIGHT
    && var slot := rx.slots[n % MAX_FLIGHT];
       slot.Some? && slot.value.Complete() && slot.value.Raw() == message
  }

  /**
  Pieces of any transmissions, cut to any MTUs, in any order and any number of times, and other records with
  them: once every byte of a message is there or has been let through, the message is complete and equals the
  sender's.
  */
  lemma CoverageDelivers(rx: Rx, hashed: seq<seq<byte>>, arrivals: seq<Emitted>, maxLen: nat, n: nat)
    requires LogOk(hashed) && n < |hashed| && Expects(rx, hashed, n)
    requires AllGenuine(arrivals, hashed) && OnlyAcceptable(rx, hashed, arrivals, maxLen)
    requires forall k: nat :: Needed(hashed, n, k) ==> Arrived(rx, n, k) || CarriedBy(arrivals, hashed, n, k)
    ensures Holds(Feed(rx, arrivals, maxLen), n, hashed[n])
  {
    hide LogOk, AllGenuine, OnlyAcceptable, Feed, Rx.Valid, SlotsAgree, Carries, Partial.Complete;
    SlotCount(rx);
    var last := Feed(rx, arrivals, maxLen);
    LogAt(hashed, n);
    assert Needed(hashed, n, 0);
    FeedArrives(rx, hashed, arrivals, maxLen, n, 0);
    var p := last.slots[n % MAX_FLIGHT].value;
    SlotAgrees(last, hashed, n % MAX_FLIGHT);
    forall k: nat | k < |p.body| ensures p.body[k].Some? {
      assert Needed(hashed, n, k);
      FeedArrives(rx, hashed, arrivals, maxLen, n, k);
    }
    AllThere(p);
    CompleteIsMessage(p, hashed);
  }

  lemma LogAt(hashed: seq<seq<byte>>, n: nat)
    requires LogOk(hashed) && n < |hashed|
    ensures Numbered(hashed[n], n)
  {
  }

  lemma SlotAgrees(rx: Rx, hashed: seq<seq<byte>>, i: nat)
    requires SlotsAgree(rx.slots, hashed) && i < |rx.slots| && rx.slots[i].Some?
    ensures Agrees(rx.slots[i].value, hashed)
  {
  }

  lemma AllThere(p: Partial)
    requires forall k: nat :: k < |p.body| ==> p.body[k].Some?
    ensures p.Complete()
  {
  }

  // ---------------------------------------------------------------- one transmission covers its messages

  /** A transmission, resumed after failed writes, that came past message `i` of the flight, number `n` of the log. */
  ghost predicate Transmits(tx: Tx, calls: seq<Call>, i: nat, n: nat) {
    && SenderOk(tx) && tx.at == Cursor(0, 0) && !AnySkips(tx, calls) && AfterCalls(tx, calls).at.written > i
    && i < |tx.messages| && !tx.messages[i].isCcs && n < |tx.hashed| && tx.messages[i].data == tx.hashed[n]
  }

  lemma {:induction false} CallsGenuine(tx: Tx, calls: seq<Call>)
    requires SenderOk(tx)
    ensures PacketsGenuine(EmitCalls(tx, calls), tx.hashed)
    ensures AllFaithful(Join(EmitCalls(tx, calls)), tx.messages, tx.hashed)
    decreases calls
  {
    hide SendLoop, EmitPackets, AllGenuine, Faithful, LogOk, Logged, Tx.Valid;
    if calls != [] {
      var c := calls[0];
      FlightChain(tx, c.mtu, c.bio, c.entropy, 0);
      EmitPacketsGenuine(tx, c.mtu, c.bio, c.entropy, 0);
      var next := SendLoop(tx, c.mtu, c.bio, c.entropy, 0).tx;
      CallsGenuine(next, calls[1..]);
      JoinBoth(EmitPackets(tx, c.mtu, c.bio, c.entropy, 0), EmitCalls(next, calls[1..]));
    }
  }

  lemma {:induction false} CallsKeyed(tx: Tx, calls: seq<Call>, keys: nat -> Context)
    requires tx.Valid() && WriterKeyed(tx.w, keys)
    ensures NetKeyed(EmitCalls(tx, calls), keys)
    decreases calls
  {
    hide SendLoop, EmitPackets, AllKeyed, WriterKeyed, Tx.Valid;
    if calls != [] {
      var c := calls[0];
      FlightChain(tx, c.mtu, c.bio, c.entropy, 0);
      EmitPacketsKeyed(tx, c.mtu, c.bio, c.entropy, 0, keys);
      CallsKeyed(SendLoop(tx, c.mtu, c.bio, c.entropy, 0).tx, calls[1..], keys);
    }
  }

  /** The record of a transmission with byte `k` of message `i`, or with any piece of an empty one. */
  lemma CarriedByFlight(tx: Tx, calls: seq<Call>, i: nat, n: nat, k: nat) returns (j: nat)
    requires Transmits(tx, calls, i, n) && Needed(tx.hashed, n, k)
    ensures var es := Join(EmitCalls(tx, calls));
            j < |es| && es[j].piece.index == i && Carries(es[j], tx.hashed, n, k)
  {
    hide AfterCalls, EmitCalls, AnySkips, EncodeHeader, Tx.Valid, Faithful, Carries, Logged, LogOk;
    var es := Join(EmitCalls(tx, calls));
    LogAt(tx.hashed, n);
    CallsGenuine(tx, calls);
    j := PieceOfFlight(tx, calls, i, k);
    assert Faithful(es[j], tx.messages, tx.hashed);
    FaithfulCarries(es[j], tx, i, n, k);
  }

  lemma PieceOfFlight(tx: Tx, calls: seq<Call>, i: nat, k: nat) returns (j: nat)
    requires tx.Valid() && tx.at == Cursor(0, 0) && !AnySkips(tx, calls) && AfterCalls(tx, calls).at.written > i
    requires i < |tx.messages| && (k < BodyLen(tx.messages[i]) || BodyLen(tx.messages[i]) == 0)
    ensures var es := Join(EmitCalls(tx, calls));
            && j < |es| && es[j].piece.index == i && (BodyLen(tx.messages[i]) > 0 ==> es[j].piece.Covers(i, k))
  {
    hide AfterCalls, EmitCalls, AnySkips, Tx.Valid;
    var es := Join(EmitCalls(tx, calls));
    if BodyLen(tx.messages[i]) == 0 {
      ResumedChain(tx, calls);
      ChainVisits(tx.messages, es, tx.at, AfterCalls(tx, calls).at, i);
      j :| j < |es| && es[j].piece.index == i;
    } else {
      ResumedComplete(tx, calls, i, k);
      j :| j < |es| && es[j].piece.Covers(i, k);
    }
  }

  lemma FaithfulCarries(e: Emitted, tx: Tx, i: nat, n: nat, k: nat)
    requires LogOk(tx.hashed) && n < |tx.hashed| && i < |tx.messages| && Faithful(e, tx.messages, tx.hashed)
    requires !tx.messages[i].isCcs && tx.messages[i].data == tx.hashed[n] && e.piece.index == i
    requires e.piece.Covers(i, k) || |tx.hashed[n]| == HEADER_LENGTH
    ensures Carries(e, tx.hashed, n, k)
  {
    hide EncodeHeader;
    assert Numbered(tx.hashed[n], n);
    var m: nat :| m < |tx.hashed| && tx.hashed[n] == tx.hashed[m]
                  && FragmentOf(e.plain, tx.hashed, m, e.piece.off, e.piece.len);
    NumberIsMessage(tx.hashed[n], n);
    MessageIsNumbered(tx.hashed[n], tx.hashed[n][0], n, tx.hashed[n][HEADER_LENGTH..], m);
  }

  // ---------------------------------------------------------------- records as they arrive

  /** What the receiver makes of a datagram: dtls1_open_handshake until nothing of it is left. */
  ghost function ReadAll(rx: Rx, input: seq<byte>, maxLen: nat): (last: Rx)
    requires rx.Valid()
    ensures last.Valid()
    decreases |input|
  {
    HandshakeInputValid(rx, false, input, maxLen);
    var (next, consumed, _) := HandshakeInput(rx, false, input, maxLen);
    if 0 < consumed <= |input| then ReadAll(next, input[consumed..], maxLen) else next
  }

  ghost function Deliver(rx: Rx, datagrams: seq<seq<byte>>, maxLen: nat): Rx
    requires rx.Valid()
    decreases datagrams
  {
    if datagrams == [] then rx else Deliver(ReadAll(rx, datagrams[0], maxLen), datagrams[1..], maxLen)
  }

  ghost function Number(e: Emitted): nat
    requires e.Valid()
  {
    FromBE(e.w.Sequence(e.previous))
  }

  ghost function EpochOf(e: Emitted): nat
    requires e.Valid()
  {
    e.w.Epoch(e.previous)
  }

  /** A record of this epoch, not seen before nor too old to tell, and not too long. */
  ghost predicate LetThrough(read: ReadState, e: Emitted)
    requires e.Valid()
  {
    EpochOf(e) == read.epoch && !read.seen.Rejects(Number(e)) && |e.plain| <= 16384
  }

  /** The records the record layer lets through, and its state after them. */
  ghost function Filter(read: ReadState, es: seq<Emitted>): (ReadState, seq<Emitted>)
    requires forall i :: 0 <= i < |es| ==> es[i].Valid()
    decreases es
  {
    if es == [] then (read, [])
    else if LetThrough(read, es[0]) then
      var (last, passed) := Filter(read.(seen := read.seen.Add(Number(es[0]))), es[1..]);
      (last, [es[0]] + passed)
    else Filter(read, es[1..])
  }

  /** A record this receiver can tell the length and version of; others make it drop the rest of a datagram. */
  ghost predicate Readable(ctx: Context, e: Emitted)
    requires e.Valid()
  {
    Speaks(ctx, e.w.ctx.RecordVersion()) && |e.Bytes()| <= 13 + 16704
  }

  /** Arriving records are ones the sender made, under the keys of their epochs, and readable. */
  ghost predicate Sound(ctx: Context, es: seq<Emitted>, hashed: seq<seq<byte>>, keys: nat -> Context) {
    && AllGenuine(es, hashed) && AllKeyed(es, keys)
    && forall i :: 0 <= i < |es| ==> es[i].Valid() && Readable(ctx, es[i])
  }

  /** The record layer on one record: exactly the filter. */
  lemma OpenFilters(read: ReadState, e: Emitted, rest: seq<byte>, hashed: seq<seq<byte>>, keys: nat -> Context)
    requires Genuine(e, hashed) && EmittedKeys(e, keys) && Readable(read.ctx, e)
    requires read.ctx.Valid() && SameKeys(read.ctx, keys(read.epoch))
    ensures var (next, outcome) := OpenRecord(read, false, e.Bytes() + rest);
            && outcome.Consumed() == |e.Bytes()|
            && if LetThrough(read, e) then
                 outcome == Record(|e.Bytes()|, e.typ, e.plain) && next == read.(seen := read.seen.Add(Number(e)))
               else
                 && next == read
                 && outcome == if EpochOf(e) == read.epoch && !read.seen.Rejects(Number(e)) then TooLong(|e.Bytes()|)
                               else Dropped(|e.Bytes()|)
  {
    hide SealRecord, OpenRecord;
    OpenSealedRecord(e.w, e.typ, e.plain, e.previous, e.random, e.room, read, rest);
  }

  /** Feeding a record does not look at the replay window. */
  lemma {:induction false} FragmentsAside(rx: Rx, read: ReadState, s: seq<byte>, maxLen: nat)
    requires |rx.slots| == MAX_FLIGHT && read.epoch == rx.read.epoch
    ensures var a, b := OpenFragments(rx.(read := read), s, maxLen), OpenFragments(rx, s, maxLen);
            a == (b.0.(read := read), b.1)
    decreases |s|
  {
    hide StepFragment, ParseFragment;
    if s != [] && ParseFragment(s).Some? {
      var (h, body, rest) := ParseFragment(s).value;
      StepAside(rx, read, h, body, maxLen);
      var r := StepFragment(rx, h, body, maxLen);
      if r.Go? {
        StepSlots(rx, h, body, maxLen);
        FragmentsAside(r.rx, read, rest, maxLen);
      }
    }
  }

  function Reading(r: FragmentResult, read: ReadState): FragmentResult {
    match r
    case Stop(alert) => Stop(alert)
    case Go(next) => Go(next.(read := read))
  }

  lemma StepAside(rx: Rx, read: ReadState, h: Header, body: seq<byte>, maxLen: nat)
    requires |rx.slots| == MAX_FLIGHT && read.epoch == rx.read.epoch && |body| == h.fragLen
    ensures StepFragment(rx.(read := read), h, body, maxLen) == Reading(StepFragment(rx, h, body, maxLen), read)
  {
  }

  lemma HandleAside(rx: Rx, read: ReadState, typ: byte, plain: seq<byte>, maxLen: nat)
    requires |rx.slots| == MAX_FLIGHT && read.epoch == rx.read.epoch && read.ctx == rx.read.ctx
    ensures var a, b := HandleRecord(rx.(read := read), typ, plain, maxLen), HandleRecord(rx, typ, plain, maxLen);
            a == (b.0.(read := read), b.1)
  {
    hide OpenFragments;
    FragmentsAside(rx, read, plain, maxLen);
  }

  lemma HandleSlots(rx: Rx, typ: byte, plain: seq<byte>, maxLen: nat)
    requires |rx.slots| == MAX_FLIGHT
    ensures var next := HandleRecord(rx, typ, plain, maxLen).0; |next.slots| == MAX_FLIGHT && next.read == rx.read
  {
    hide OpenFragments;
    FragmentsSlots(rx, plain, maxLen);
  }

  lemma {:induction false} FragmentsSlots(rx: Rx, s: seq<byte>, maxLen: nat)
    requires |rx.slots| == MAX_FLIGHT
    ensures var next := OpenFragments(rx, s, maxLen).0; |next.slots| == MAX_FLIGHT && next.read == rx.read
    decreases |s|
  {
    hide StepFragment, ParseFragment;
    if s != [] && ParseFragment(s).Some? {
      var (h, body, rest) := ParseFragment(s).value;
      var r := StepFragment(rx, h, body, maxLen);
      if r.Go? {
        StepSlots(rx, h, body, maxLen);
        FragmentsSlots(r.rx, rest, maxLen);
      }
    }
  }

  /** Reading one datagram is feeding the records that pass the filter. */
  lemma {:induction false} ReadAllFeeds(rx: Rx, read: ReadState, es: seq<Emitted>, maxLen: nat, hashed: seq<seq<byte>>,
                                        keys: nat -> Context)
    requires rx.(read := read).Valid() && read.epoch == rx.read.epoch && read.ctx == rx.read.ctx
    requires SameKeys(read.ctx, keys(read.epoch)) && Sound(read.ctx, es, hashed, keys)
    ensures var (last, passed) := Filter(read, es);
            && ReadAll(rx.(read := read), Bytes(es), maxLen) == Feed(rx, passed, maxLen).(read := last)
            && last.epoch == read.epoch && last.ctx == read.ctx
    decreases es
  {
    hide Rx.Valid, Emitted.Valid, EncodeHeader, Genuine, EmittedKeys, Readable, LetThrough, HandleRecord, OpenRecord,
         SealRecord;
    var now := rx.(read := read);
    SlotCount(now);
    if es == [] {
      EmptyInput(read);
    } else {
      var e, rest := es[0], es[1..];
      var input := e.Bytes() + Bytes(rest);
      OpenFilters(read, e, Bytes(rest), hashed, keys);
      assert input[|e.Bytes()|..] == Bytes(rest);
      assert Sound(read.ctx, rest, hashed, keys) by { SoundRest(read.ctx, es, hashed, keys); }
      HandshakeInputValid(now, false, input, maxLen);
      var next := OpenRecord(read, false, input).0;
      HandleAside(rx, next, e.typ, e.plain, maxLen);
      HandleSlots(rx, e.typ, e.plain, maxLen);
      if LetThrough(read, e) {
        var fed := HandleRecord(rx, e.typ, e.plain, maxLen).0;
        assert HandshakeInput(now, false, input, maxLen).0 == fed.(read := next);
        ReadAllFeeds(fed, next, rest, maxLen, hashed, keys);
        assert ([e] + Filter(next, rest).1)[1..] == Filter(next, rest).1;
      } else {
        ReadAllFeeds(rx, read, rest, maxLen, hashed, keys);
      }
    }
  }

  lemma SoundRest(ctx: Context, es: seq<Emitted>, hashed: seq<seq<byte>>, keys: nat -> Context)
    requires Sound(ctx, es, hashed, keys) && es != []
    ensures Genuine(es[0], hashed) && EmittedKeys(es[0], keys) && es[0].Valid() && Readable(ctx, es[0])
    ensures Sound(ctx, es[1..], hashed, keys)
  {
    hide Emitted.Valid, Genuine, EmittedKeys, Readable;
  }

  lemma {:induction false} FeedJoin(rx: Rx, a: seq<Emitted>, b: seq<Emitted>, maxLen: nat)
    requires |rx.slots| == MAX_FLIGHT
    ensures Feed(rx, a + b, maxLen) == Feed(Feed(rx, a, maxLen), b, maxLen)
    decreases a
  {
    hide HandleRecord;
    if a == [] {
      assert a + b == b;
    } else {
      assert (a + b)[1..] == a[1..] + b;
      HandleSlots(rx, a[0].typ, a[0].plain, maxLen);
      FeedJoin(HandleRecord(rx, a[0].typ, a[0].plain, maxLen).0, a[1..], b, maxLen);
    }
  }

  lemma {:induction false} FeedRead(rx: Rx, es: seq<Emitted>, maxLen: nat)
    requires |rx.slots| == MAX_FLIGHT
    ensures Feed(rx, es, maxLen).read == rx.read
    decreases es
  {
    hide HandleRecord;
    if es != [] {
      HandleSlots(rx, es[0].typ, es[0].plain, maxLen);
      FeedRead(HandleRecord(rx, es[0].typ, es[0].plain, maxLen).0, es[1..], maxLen);
    }
  }

  lemma {:induction false} FilterJoin(read: ReadState, a: seq<Emitted>, b: seq<Emitted>)
    requires forall i :: 0 <= i < |a| ==> a[i].Valid()
    requires forall i :: 0 <= i < |b| ==> b[i].Valid()
    ensures forall i :: 0 <= i < |a + b| ==> (a + b)[i].Valid()
    ensures var (mid, first) := Filter(read, a);
            var (last, second) := Filter(mid, b);
            Filter(read, a + b) == (last, first + second)
    decreases a
  {
    hide Emitted.Valid, LetThrough;
    if a == [] {
      assert a + b == b && [] + Filter(read, b).1 == Filter(read, b).1;
    } else {
      assert (a + b)[1..] == a[1..] + b && (a + b)[0] == a[0];
      var next := if LetThrough(read, a[0]) then read.(seen := read.seen.Add(Number(a[0]))) else read;
      FilterJoin(next, a[1..], b);
      var (mid, first) := Filter(next, a[1..]);
      assert [a[0]] + first + Filter(mid, b).1 == [a[0]] + (first + Filter(mid, b).1);
    }
  }

  /** These datagrams, with these records in them. */
  ghost predicate Packed(packets: seq<seq<Emitted>>, datagrams: seq<seq<byte>>) {
    |packets| == |datagrams| && forall i :: 0 <= i < |packets| ==> FromEmitted(packets[i], datagrams[i])
  }

  ghost predicate AllSound(ctx: Context, packets: seq<seq<Emitted>>, hashed: seq<seq<byte>>, keys: nat -> Context) {
    forall i :: 0 <= i < |packets| ==> Sound(ctx, packets[i], hashed, keys)
  }

  lemma {:induction false} JoinSound(ctx: Context, packets: seq<seq<Emitted>>, hashed: seq<seq<byte>>,
                                     keys: nat -> Context)
    requires AllSound(ctx, packets, hashed, keys)
    ensures Sound(ctx, Join(packets), hashed, keys)
  {
    hide Emitted.Valid, Genuine, EmittedKeys, Readable;
    if packets != [] {
      assert Sound(ctx, packets[0], hashed, keys);
      assert AllSound(ctx, packets[1..], hashed, keys);
      JoinSound(ctx, packets[1..], hashed, keys);
    }
  }

  /** Reading datagrams one after the other is feeding the records that pass the filter, in order. */
  lemma {:induction false} DeliverFeeds(rx: Rx, read: ReadState, packets: seq<seq<Emitted>>, datagrams: seq<seq<byte>>,
                                        maxLen: nat, hashed: seq<seq<byte>>, keys: nat -> Context)
    requires rx.(read := read).Valid() && read.epoch == rx.read.epoch && read.ctx == rx.read.ctx
    requires SameKeys(read.ctx, keys(read.epoch)) && AllSound(read.ctx, packets, hashed, keys)
    requires Packed(packets, datagrams)
    ensures Sound(read.ctx, Join(packets), hashed, keys)
    ensures var (last, passed) := Filter(read, Join(packets));
            Deliver(rx.(read := read), datagrams, maxLen) == Feed(rx, passed, maxLen).(read := last)
    decreases packets
  {
    hide Rx.Valid, Emitted.Valid, Genuine, EmittedKeys, Readable, LetThrough, HandleRecord, SealRecord, ReadAll;
    var now := rx.(read := read);
    SlotCount(now);
    JoinSound(read.ctx, packets, hashed, keys);
    if packets != [] {
      var first, rest := packets[0], packets[1..];
      assert Sound(read.ctx, first, hashed, keys) && FromEmitted(first, datagrams[0]);
      ReadAllFeeds(rx, read, first, maxLen, hashed, keys);
      var (mid, passed) := Filter(read, first);
      var fed := Feed(rx, passed, maxLen);
      FeedRead(rx, passed, maxLen);
      assert AllSound(read.ctx, rest, hashed, keys) && Packed(rest, datagrams[1..]);
      DeliverFeeds(fed, mid, rest, datagrams[1..], maxLen, hashed, keys);
      FilterJoin(read, first, Join(rest));
      FeedJoin(rx, passed, Filter(mid, Join(rest)).1, maxLen);
    }
  }

  // ---------------------------------------------------------------- what the replay window lets through

  lemma {:induction false} FilterWithin(read: ReadState, es: seq<Emitted>)
    requires forall i :: 0 <= i < |es| ==> es[i].Valid()
    ensures forall e :: e in Filter(read, es).1 ==> e in es && EpochOf(e) == read.epoch
    decreases es
  {
    hide Emitted.Valid;
    if es != [] {
      FilterWithin(if LetThrough(read, es[0]) then read.(seen := read.seen.Add(Number(es[0]))) else read, es[1..]);
    }
  }

  /**
  The record is in reach of the window: its number is new, nothing else arrives under it, and nothing that
  was or will be let through is 64 or more ahead of it.
  */
  ghost predicate InReach(read: ReadState, e: Emitted, es: seq<Emitted>)
    requires forall i :: 0 <= i < |es| ==> es[i].Valid()
  {
    && e.Valid() && Number(e) !in read.seen.recorded && read.seen.top < Number(e) + WINDOW_SIZE
    && forall i :: 0 <= i < |es| && EpochOf(es[i]) == read.epoch ==>
         Number(es[i]) < Number(e) + WINDOW_SIZE && (Number(es[i]) == Number(e) ==> es[i] == e)
  }

  lemma {:induction false} FilterPasses(read: ReadState, e: Emitted, es: seq<Emitted>)
    requires e.Valid() && EpochOf(e) == read.epoch && |e.plain| <= MAX_PLAIN_LENGTH
    requires (forall i :: 0 <= i < |es| ==> es[i].Valid()) && e in es && InReach(read, e, es)
    ensures e in Filter(read, es).1
    decreases es
  {
    hide Emitted.Valid;
    if es[0] != e {
      var next := if LetThrough(read, es[0]) then read.(seen := read.seen.Add(Number(es[0]))) else read;
      FilterPasses(next, e, es[1..]);
    }
  }

  // ---------------------------------------------------------------- the whole way

  ghost predicate AllWithin(es: seq<Emitted>, mtu: nat) {
    forall i :: 0 <= i < |es| ==> es[i].room <= mtu
  }

  lemma {:induction false} RecordsWithin(tx: Tx, room: nat, entropy: Entropy, k: nat, mtu: nat)
    requires tx.w.Valid() && tx.at.written <= |tx.messages| && room <= mtu
    ensures AllWithin(EmitRecords(tx, room, entropy, k), mtu)
    decreases |tx.messages| - tx.at.written
  {
    hide SealNextMessage, EmitNext;
    if tx.at.written < |tx.messages| {
      var (next, result) := SealNextMessage(tx, room, entropy, k);
      if result.Partially? || result.Fully? { RoomOfNext(tx, room, entropy, k); }
      if result.Fully? { RecordsWithin(MessageDone(next), room - |result.record|, entropy, k, mtu); }
    }
  }

  lemma RoomOfNext(tx: Tx, room: nat, entropy: Entropy, k: nat)
    requires tx.w.Valid() && tx.at.written < |tx.messages|
    requires var result := SealNextMessage(tx, room, entropy, k).1; result.Partially? || result.Fully?
    ensures PlanNext(tx, room).Send? && EmitNext(tx, room, entropy, k).room == room
  {
  }

  lemma {:induction false} FlightWithin(tx: Tx, mtu: nat, bio: nat -> int, entropy: Entropy, k: nat, limit: nat)
    requires tx.Valid() && mtu <= limit
    ensures AllWithin(EmitFlight(tx, mtu, bio, entropy, k), limit)
    decreases |tx.messages| - tx.at.written, BytesLeft(tx)
  {
    hide SealRecords, EmitRecords, WellFormed;
    if tx.at.written < |tx.messages| {
      var (next, packet) := SealNextPacket(tx, mtu, entropy, k);
      if packet.Some? && bio(k) > 0 {
        PacketProgress(tx, mtu, entropy, k);
        RecordsWithin(tx, mtu, entropy, k, limit);
        FlightWithin(next, mtu, bio, entropy, k + 1, limit);
        JoinMore(EmitRecords(tx, mtu, entropy, k), EmitPackets(next, mtu, bio, entropy, k + 1));
      }
    }
  }

  ghost predicate SmallCalls(calls: seq<Call>, limit: nat) {
    forall j :: 0 <= j < |calls| ==> calls[j].mtu <= limit
  }

  lemma {:induction false} CallsWithin(tx: Tx, calls: seq<Call>, limit: nat)
    requires tx.Valid() && SmallCalls(calls, limit)
    ensures AllWithin(Join(EmitCalls(tx, calls)), limit)
    decreases calls
  {
    hide SendLoop, EmitPackets, Tx.Valid;
    if calls != [] {
      var c := calls[0];
      FlightChain(tx, c.mtu, c.bio, c.entropy, 0);
      FlightWithin(tx, c.mtu, c.bio, c.entropy, 0, limit);
      var next := SendLoop(tx, c.mtu, c.bio, c.entropy, 0).tx;
      CallsWithin(next, calls[1..], limit);
      JoinBoth(EmitPackets(tx, c.mtu, c.bio, c.entropy, 0), EmitCalls(next, calls[1..]));
    }
  }

  /** Records of this epoch carry messages that are not refused. */
  ghost predicate EpochAcceptable(rx: Rx, hashed: seq<seq<byte>>, es: seq<Emitted>, maxLen: nat) {
    forall i, n: nat, off: nat, len: nat ::
      0 <= i < |es| && es[i].Valid() && EpochOf(es[i]) == rx.read.epoch && FragmentOf(es[i].plain, hashed, n, off, len)
      ==> Acceptable(rx, hashed, n, maxLen)
  }

  /** A record of the read epoch, short enough and in reach of the window, carries byte `k` of message `n`. */
  ghost predicate InReachCarried(read: ReadState, es: seq<Emitted>, hashed: seq<seq<byte>>, n: nat, k: nat) {
    && (forall j :: 0 <= j < |es| ==> es[j].Valid())
    && exists a :: 0 <= a < |es| && Carries(es[a], hashed, n, k) && EpochOf(es[a]) == read.epoch
                   && |es[a].plain| <= MAX_PLAIN_LENGTH && InReach(read, es[a], es)
  }

  /**
  Datagrams of any transmissions, with any MTUs and in any epochs, arrive in any order and any number of times:
  when every byte of a message in the receiver's window is there already or carried by a record of its epoch that
  is in reach of the replay window, the receiver ends up with the whole message, equal to the sender's.
  */
  lemma ArrivalsDeliver(hashed: seq<seq<byte>>, keys: nat -> Context, rx: Rx, packets: seq<seq<Emitted>>,
                        datagrams: seq<seq<byte>>, maxLen: nat, n: nat)
    requires LogOk(hashed) && n < |hashed| && Expects(rx, hashed, n)
    requires SameKeys(rx.read.ctx, keys(rx.read.epoch)) && AllSound(rx.read.ctx, packets, hashed, keys)
    requires Packed(packets, datagrams) && EpochAcceptable(rx, hashed, Join(packets), maxLen)
    requires forall k: nat ::
               Needed(hashed, n, k) ==> Arrived(rx, n, k) || InReachCarried(rx.read, Join(packets), hashed, n, k)
    ensures Holds(Deliver(rx, datagrams, maxLen), n, hashed[n])
  {
    hide Rx.Valid, LogOk, SlotsAgree, AllSound, Packed, EpochAcceptable, Filter, InReach, Carries, Sound, Deliver, Feed,
         AllGenuine, OnlyAcceptable, Join, Emitted.Valid, Needed;
    var es := Join(packets);
    assert rx.(read := rx.read) == rx;
    DeliverFeeds(rx, rx.read, packets, datagrams, maxLen, hashed, keys);
    SoundValid(rx.read.ctx, es, hashed, keys);
    SlotCount(rx);
    var passed := Filter(rx.read, es).1;
    FilterWithin(rx.read, es);
    PassedSound(rx, es, passed, hashed, keys, maxLen);
    forall k: nat | Needed(hashed, n, k) && !Arrived(rx, n, k) ensures CarriedBy(passed, hashed, n, k) {
      assert InReachCarried(rx.read, es, hashed, n, k);
      var a :| 0 <= a < |es| && Carries(es[a], hashed, n, k) && EpochOf(es[a]) == rx.read.epoch
               && |es[a].plain| <= MAX_PLAIN_LENGTH && InReach(rx.read, es[a], es);
      FilterPasses(rx.read, es[a], es);
    }
    CoverageDelivers(rx, hashed, passed, maxLen, n);
    assert Deliver(rx, datagrams, maxLen).slots == Feed(rx, passed, maxLen).slots;
  }

  lemma SoundValid(ctx: Context, es: seq<Emitted>, hashed: seq<seq<byte>>, keys: nat -> Context)
    requires Sound(ctx, es, hashed, keys)
    ensures forall j :: 0 <= j < |es| ==> es[j].Valid()
  {
  }

  lemma PassedSound(rx: Rx, es: seq<Emitted>, passed: seq<Emitted>, hashed: seq<seq<byte>>, keys: nat -> Context,
                    maxLen: nat)
    requires Sound(rx.read.ctx, es, hashed, keys) && EpochAcceptable(rx, hashed, es, maxLen)
    requires forall e :: e in passed ==> e in es && EpochOf(e) == rx.read.epoch
    ensures AllGenuine(passed, hashed) && OnlyAcceptable(rx, hashed, passed, maxLen)
  {
    hide Emitted.Valid, Genuine, EmittedKeys, Readable, FragmentOf, Acceptable;
    forall a | 0 <= a < |passed|
      ensures Genuine(passed[a], hashed) && exists b :: 0 <= b < |es| && es[b] == passed[a]
    {
      assert passed[a] in passed;
    }
  }

  /** The records with pieces of message `i` arrived, each in reach of the window. */
  ghost predicate MessageArrives(read: ReadState, flight: seq<Emitted>, i: nat, es: seq<Emitted>) {
    && (forall j :: 0 <= j < |es| ==> es[j].Valid())
    && forall j :: 0 <= j < |flight| && flight[j].piece.index == i ==> flight[j] in es && InReach(read, flight[j], es)
  }

  /**
  In particular one transmission is enough, resumed by as many calls as it takes: when its records that carry a
  message of the receiver's epoch and window are among those that arrive.
  */
  lemma FlightDelivers(tx: Tx, calls: seq<Call>, keys: nat -> Context, rx: Rx, packets: seq<seq<Emitted>>,
                       datagrams: seq<seq<byte>>, maxLen: nat, i: nat, n: nat)
    requires Transmits(tx, calls, i, n) && SmallCalls(calls, MAX_PLAIN_LENGTH)
    requires Expects(rx, tx.hashed, n) && tx.messages[i].epoch == rx.read.epoch
    requires SameKeys(rx.read.ctx, keys(rx.read.epoch)) && AllSound(rx.read.ctx, packets, tx.hashed, keys)
    requires Packed(packets, datagrams) && EpochAcceptable(rx, tx.hashed, Join(packets), maxLen)
    requires MessageArrives(rx.read, Join(EmitCalls(tx, calls)), i, Join(packets))
    ensures Holds(Deliver(rx, datagrams, maxLen), n, tx.hashed[n])
  {
    hide AfterCalls, EmitCalls, AnySkips, Tx.Valid, LogOk, Logged, Expects, AllSound, Packed, EpochAcceptable, InReach,
         Carries, Deliver, Holds, Join, Emitted.Valid, Needed, SameKeys, SmallCalls, Faithful;
    var flight, es := Join(EmitCalls(tx, calls)), Join(packets);
    CallsGenuine(tx, calls);
    CallsWithin(tx, calls, MAX_PLAIN_LENGTH);
    forall k: nat | Needed(tx.hashed, n, k) ensures InReachCarried(rx.read, es, tx.hashed, n, k) {
      var j := CarriedByFlight(tx, calls, i, n, k);
      assert flight[j] in es && InReach(rx.read, flight[j], es);
      FaithfulEpoch(flight[j], tx);
    }
    ArrivalsDeliver(tx.hashed, keys, rx, packets, datagrams, maxLen, n);
  }

  lemma FaithfulEpoch(e: Emitted, tx: Tx)
    requires e.Valid() && Faithful(e, tx.messages, tx.hashed)
    ensures e.piece.index < |tx.messages| && EpochOf(e) == tx.messages[e.piece.index].epoch && |e.plain| <= e.room
  {
    hide Emitted.Valid;
  }

  /** Every packet is one that was sent before or is sent now. */
  ghost predicate FromNetwork(packets: seq<seq<Emitted>>, net: seq<seq<Emitted>>) {
    forall a :: 0 <= a < |packets| ==> packets[a] in net
  }

  ghost predicate AllReadable(ctx: Context, packets: seq<seq<Emitted>>) {
    forall a, b :: 0 <= a < |packets| && 0 <= b < |packets[a]| ==> packets[a][b].Valid() && Readable(ctx, packets[a][b])
  }

  /**
  From every state that two endpoints and their network can get into, a retransmission with any MTUs up to a
  full record is enough, however often it has to be resumed: datagrams of the past and of the retransmission
  arrive as they like, and the message is there as soon as its records of the retransmission are among them.
  */
  lemma Recovers(s: System, keys: nat -> Context, calls: seq<Call>, packets: seq<seq<Emitted>>,
                 datagrams: seq<seq<byte>>, maxLen: nat, i: nat, n: nat)
    requires Inv(s, keys) && Transmits(Rewind(s.tx), calls, i, n) && SmallCalls(calls, MAX_PLAIN_LENGTH)
    requires s.rx.readSeq <= n < s.rx.readSeq + MAX_FLIGHT && s.tx.messages[i].epoch == s.rx.read.epoch
    requires FromNetwork(packets, s.net + EmitCalls(Rewind(s.tx), calls)) && AllReadable(s.rx.read.ctx, packets)
    requires Packed(packets, datagrams) && EpochAcceptable(s.rx, s.tx.hashed, Join(packets), maxLen)
    requires MessageArrives(s.rx.read, Join(EmitCalls(Rewind(s.tx), calls)), i, Join(packets))
    ensures Holds(Deliver(s.rx, datagrams, maxLen), n, s.tx.hashed[n])
  {
    hide AfterCalls, EmitCalls, AnySkips, Genuine, EmittedKeys, Readable, FromEmitted, Emitted.Valid, Packed,
         EpochAcceptable, MessageArrives, WriterKeyed, LogOk, Logged, Rx.Valid, SlotsAgree, Holds, Tx.Valid, Join,
         SmallCalls, Deliver;
    var tx := Rewind(s.tx);
    CallsGenuine(tx, calls);
    CallsKeyed(tx, calls, keys);
    forall a | 0 <= a < |packets| ensures Sound(s.rx.read.ctx, packets[a], s.tx.hashed, keys) {
      assert AllGenuine(packets[a], s.tx.hashed) && AllKeyed(packets[a], keys);
    }
    FlightDelivers(tx, calls, keys, s.rx, packets, datagrams, maxLen, i, n);
  }
}
