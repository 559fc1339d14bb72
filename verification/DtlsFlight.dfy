/** What one transmission of a flight puts on the wire: every message cut into complete, disjoint pieces. */
module DtlsFlight {
  import opened Wire
  import opened DtlsRecord
  import opened DtlsSend

  /** Bytes `[off, off + len)` of the body of message `index` of the flight. */
  datatype Piece = Piece(index: nat, off: nat, len: nat) {
    predicate Covers(i: nat, k: nat) {
      index == i && off <= k < off + len
    }
  }

  /** One sealed record: what was sealed, with what, and the piece of the flight it carries. */
  datatype Emitted = Emitted(w: WriteState, typ: byte, plain: seq<byte>, previous: bool, random: seq<byte>, room: nat,
                             piece: Piece)
  {
    ghost predicate Valid() {
      && w.Valid() && w.Usable(previous) && RandomFits(w.Ctx(previous), random)
      && SealRecord(w, typ, plain, previous, random, room).1.Some?
    }

    function Bytes(): seq<byte>
      requires Valid()
    {
      SealRecord(w, typ, plain, previous, random, room).1.value
    }
  }

  function EmitNext(tx: Tx, room: nat, entropy: Entropy, k: nat): Emitted
    requires tx.w.Valid() && tx.at.written < |tx.messages| && PlanNext(tx, room).Send?
  {
    var plan := PlanNext(tx, room);
    Emitted(tx.w, plan.typ, plan.plain, plan.previous, Draw(tx.w.Ctx(plan.previous), entropy, k, tx.at.written), room,
            Piece(tx.at.written, tx.at.offset, plan.todo))
  }

  /** The records of one packet, in the order of SealRecords. */
  function EmitRecords(tx: Tx, room: nat, entropy: Entropy, k: nat): seq<Emitted>
    requires tx.w.Valid() && tx.at.written <= |tx.messages|
    decreases |tx.messages| - tx.at.written
  {
    if tx.at.written == |tx.messages| then []
    else
      var (next, result) := SealNextMessage(tx, room, entropy, k);
      match result
      case SealError => []
      case NoProgress => []
      case Partially(_) => [EmitNext(tx, room, entropy, k)]
      case Fully(record) =>
        [EmitNext(tx, room, entropy, k)] + EmitRecords(MessageDone(next), room - |record|, entropy, k)
  }

  /** The packets that BIO_write accepted in one call of send_flight. */
  function EmitPackets(tx: Tx, mtu: nat, bio: nat -> int, entropy: Entropy, k: nat): seq<seq<Emitted>>
    requires tx.Valid()
    decreases |tx.messages| - tx.at.written, BytesLeft(tx)
  {
    if tx.at.written == |tx.messages| then []
    else
      var (next, packet) := SealNextPacket(tx, mtu, entropy, k);
      if packet.None? || bio(k) <= 0 then []
      else
        PacketProgress(tx, mtu, entropy, k);
        [EmitRecords(tx, mtu, entropy, k)] + EmitPackets(next, mtu, bio, entropy, k + 1)
  }

  function Join(packets: seq<seq<Emitted>>): seq<Emitted> {
    if packets == [] then [] else packets[0] + Join(packets[1..])
  }

  function EmitFlight(tx: Tx, mtu: nat, bio: nat -> int, entropy: Entropy, k: nat): seq<Emitted>
    requires tx.Valid()
  {
    Join(EmitPackets(tx, mtu, bio, entropy, k))
  }

  // ---------------------------------------------------------------- pieces follow each other

  /** The position right after a piece. */
  function After(messages: seq<Outgoing>, p: Piece): Cursor
    requires p.index < |messages|
  {
    if p.off + p.len == BodyLen(messages[p.index]) then Cursor(p.index + 1, 0) else Cursor(p.index, p.off + p.len)
  }

  /** The pieces run from one position to another without gap or overlap, and none is idle. */
  ghost predicate Chain(messages: seq<Outgoing>, es: seq<Emitted>, from: Cursor, to: Cursor) {
    if es == [] then from == to
    else
      var p := es[0].piece;
      && p.index == from.written < |messages| && p.off == from.offset
      && p.off + p.len <= BodyLen(messages[p.index])
      && (p.len == 0 ==> p.off == BodyLen(messages[p.index]))
      && Chain(messages, es[1..], After(messages, p), to)
  }

  lemma {:induction false} ChainJoin(messages: seq<Outgoing>, a: seq<Emitted>, b: seq<Emitted>,
                                     from: Cursor, mid: Cursor, to: Cursor)
    requires Chain(messages, a, from, mid) && Chain(messages, b, mid, to)
    ensures Chain(messages, a + b, from, to)
    decreases a
  {
    if a == [] {
      assert a + b == b;
    } else {
      assert (a + b)[1..] == a[1..] + b;
      ChainJoin(messages, a[1..], b, After(messages, a[0].piece), mid, to);
    }
  }

  lemma EmitNextFollows(tx: Tx, room: nat, entropy: Entropy, k: nat)
    requires tx.Valid() && tx.at.written < |tx.messages|
    requires var result := SealNextMessage(tx, room, entropy, k).1; result.Partially? || result.Fully?
    ensures PlanNext(tx, room).Send?
    ensures var e := EmitNext(tx, room, entropy, k);
            var (next, result) := SealNextMessage(tx, room, entropy, k);
            && e.Valid() && e.Bytes() == result.record
            && e.piece.off + e.piece.len <= BodyLen(tx.messages[tx.at.written])
            && (e.piece.len == 0 ==> e.piece.off == BodyLen(tx.messages[tx.at.written]))
            && After(tx.messages, e.piece) == if result.Fully? then MessageDone(next).at else next.at
  {
    hide SealRecord, PlanNext, WellFormed;
    if PlanNext(tx, room).Send? {
      PlanLength(tx, room);
      PlanEpoch(tx, room);
    }
  }

  /** One record more, as an equation beside SealRecordsTurn; what is left is valid. */
  lemma EmitRecordsTurn(tx: Tx, room: nat, entropy: Entropy, k: nat)
    requires tx.Valid() && tx.at.written < |tx.messages|
    ensures var (next, result) := SealNextMessage(tx, room, entropy, k);
            && (result.Partially? || result.Fully? ==> PlanNext(tx, room).Send?)
            && (result.Partially? ==> EmitRecords(tx, room, entropy, k) == [EmitNext(tx, room, entropy, k)] + [])
            && (result.SealError? || result.NoProgress? ==> EmitRecords(tx, room, entropy, k) == [])
            && (result.Fully? ==>
                  && |result.record| <= room && MessageDone(next).Valid()
                  && EmitRecords(tx, room, entropy, k)
                  == [EmitNext(tx, room, entropy, k)]
                     + EmitRecords(MessageDone(next), room - |result.record|, entropy, k))
  {
    hide SealNextMessage, EmitNext, PlanNext, Tx.Valid, Emitted.Valid, Emitted.Bytes, BodyLen, After;
    AtWithinFlight(tx);
    MessageProgress(tx, room, entropy, k);
    var (next, result) := SealNextMessage(tx, room, entropy, k);
    if result.Partially? || result.Fully? { EmitNextFollows(tx, room, entropy, k); }
    if result.Fully? { StaysValid(tx, MessageDone(next)); }
  }

  lemma EmitRecordsDone(tx: Tx, room: nat, entropy: Entropy, k: nat)
    requires tx.w.Valid() && tx.at.written == |tx.messages|
    ensures EmitRecords(tx, room, entropy, k) == []
  {
  }

  /** One packet: its records carry consecutive pieces, from the old position to the new one. */
  lemma {:induction false} RecordsChain(tx: Tx, room: nat, entropy: Entropy, k: nat)
    requires tx.Valid()
    ensures Chain(tx.messages, EmitRecords(tx, room, entropy, k), tx.at, SealRecords(tx, room, entropy, k).0.at)
    decreases |tx.messages| - tx.at.written
  {
    hide SealNextMessage, SealRecords, EmitNext, Emitted.Valid, Emitted.Bytes, Tx.Valid;
    AtWithinFlight(tx);
    if tx.at.written == |tx.messages| {
      SealRecordsDone(tx, room, entropy, k);
    } else {
      MessageProgress(tx, room, entropy, k);
      SealRecordsTurn(tx, room, entropy, k);
      var (next, result) := SealNextMessage(tx, room, entropy, k);
      if result.Partially? || result.Fully? {
        EmitNextFollows(tx, room, entropy, k);
        EmitNextAt(tx, room, entropy, k);
        var e := EmitNext(tx, room, entropy, k);
        if result.Fully? {
          StaysValid(tx, MessageDone(next));
          RecordsChain(MessageDone(next), room - |result.record|, entropy, k);
          var rest := EmitRecords(MessageDone(next), room - |result.record|, entropy, k);
          assert ([e] + rest)[1..] == rest;
          assert Chain(tx.messages, [e] + rest, tx.at, SealRecords(tx, room, entropy, k).0.at);
        } else {
          assert [e][1..] == [] && Chain(tx.messages, [], next.at, next.at);
          assert Chain(tx.messages, [e], tx.at, next.at);
        }
      }
    }
  }

  ghost predicate Match(es: seq<Emitted>, records: seq<seq<byte>>) {
    |es| == |records| && forall i :: 0 <= i < |es| ==> es[i].Valid() && es[i].Bytes() == records[i]
  }

  lemma MatchMore(e: Emitted, es: seq<Emitted>, record: seq<byte>, records: seq<seq<byte>>)
    requires e.Valid() && e.Bytes() == record && Match(es, records)
    ensures Match([e] + es, [record] + records)
  {
    hide Emitted.Valid, Emitted.Bytes;
  }

  /** The emitted records are, byte for byte, the records of the packet. */
  lemma {:induction false} RecordsMatch(tx: Tx, room: nat, entropy: Entropy, k: nat)
    requires tx.Valid()
    ensures Match(EmitRecords(tx, room, entropy, k), SealRecords(tx, room, entropy, k).2)
    decreases |tx.messages| - tx.at.written
  {
    hide SealNextMessage, SealRecords, EmitNext, Tx.Valid, Emitted.Valid, Emitted.Bytes, Match;
    AtWithinFlight(tx);
    NoneMatch();
    if tx.at.written == |tx.messages| {
      SealRecordsDone(tx, room, entropy, k);
    } else {
      MessageProgress(tx, room, entropy, k);
      SealRecordsTurn(tx, room, entropy, k);
      var (next, result) := SealNextMessage(tx, room, entropy, k);
      if result.Partially? {
        EmitNextFollows(tx, room, entropy, k);
        var e := EmitNext(tx, room, entropy, k);
        MatchMore(e, [], result.record, []);
        assert [e] + [] == [e] && [result.record] + [] == [result.record];
      } else if result.Fully? {
        EmitNextFollows(tx, room, entropy, k);
        StaysValid(tx, MessageDone(next));
        RecordsMatch(MessageDone(next), room - |result.record|, entropy, k);
        MatchMore(EmitNext(tx, room, entropy, k), EmitRecords(MessageDone(next), room - |result.record|, entropy, k),
                  result.record, SealRecords(MessageDone(next), room - |result.record|, entropy, k).2);
      }
    }
  }

  lemma NoneMatch()
    ensures Match([], [])
  {
  }

  lemma EmitNextAt(tx: Tx, room: nat, entropy: Entropy, k: nat)
    requires tx.w.Valid() && tx.at.written < |tx.messages| && PlanNext(tx, room).Send?
    ensures EmitNext(tx, room, entropy, k).piece.index == tx.at.written
    ensures EmitNext(tx, room, entropy, k).piece.off == tx.at.offset
  {
  }

  // ---------------------------------------------------------------- one call

  /** The position behind the last packet that BIO_write accepted in one call of send_flight. */
  function WrittenTo(tx: Tx, mtu: nat, bio: nat -> int, entropy: Entropy, k: nat): Cursor
    requires tx.Valid()
    decreases |tx.messages| - tx.at.written, BytesLeft(tx)
  {
    if tx.at.written == |tx.messages| then tx.at
    else
      var (next, packet) := SealNextPacket(tx, mtu, entropy, k);
      if packet.None? || bio(k) <= 0 then tx.at
      else
        PacketProgress(tx, mtu, entropy, k);
        WrittenTo(next, mtu, bio, entropy, k + 1)
  }

  /**
  A call that ends because sealing failed when the packet already had a record: then nothing sets the
  position back, and it stays past bytes that were never written.
  */
  predicate Skips(tx: Tx, mtu: nat, bio: nat -> int, entropy: Entropy, k: nat)
    requires tx.Valid()
    decreases |tx.messages| - tx.at.written, BytesLeft(tx)
  {
    if tx.at.written == |tx.messages| then false
    else
      var (next, packet) := SealNextPacket(tx, mtu, entropy, k);
      if packet.None? then SealRecords(tx, mtu, entropy, k).2 != []
      else if bio(k) <= 0 then false
      else
        PacketProgress(tx, mtu, entropy, k);
        Skips(next, mtu, bio, entropy, k + 1)
  }

  predicate Reaches(a: Cursor, b: Cursor) {
    a == b || Before(a, b)
  }

  /**
  A whole call of send_flight, whichever write fails: the accepted packets carry consecutive pieces, and the
  call stops right behind them, except when it skips.
  */
  lemma {:induction false} FlightChain(tx: Tx, mtu: nat, bio: nat -> int, entropy: Entropy, k: nat)
    requires tx.Valid()
    ensures var sent := SendLoop(tx, mtu, bio, entropy, k);
            && sent.tx.Valid() && sent.tx.messages == tx.messages
            && (sent.ret <= 0 || sent.tx.at == Cursor(|tx.messages|, 0))
            && Chain(tx.messages, EmitFlight(tx, mtu, bio, entropy, k), tx.at, WrittenTo(tx, mtu, bio, entropy, k))
            && (if Skips(tx, mtu, bio, entropy, k) then Before(WrittenTo(tx, mtu, bio, entropy, k), sent.tx.at)
                else WrittenTo(tx, mtu, bio, entropy, k) == sent.tx.at)
    decreases |tx.messages| - tx.at.written, BytesLeft(tx)
  {
    hide SealRecords, EmitRecords, WellFormed, Flatten;
    if tx.at.written < |tx.messages| {
      var (next, packet) := SealNextPacket(tx, mtu, entropy, k);
      PacketProgress(tx, mtu, entropy, k);
      RecordsProgress(tx, mtu, entropy, k);
      if packet.Some? && bio(k) > 0 {
        RecordsChain(tx, mtu, entropy, k);
        FlightChain(next, mtu, bio, entropy, k + 1);
        var a, b := EmitRecords(tx, mtu, entropy, k), EmitFlight(next, mtu, bio, entropy, k + 1);
        ChainJoin(tx.messages, a, b, tx.at, next.at, WrittenTo(next, mtu, bio, entropy, k + 1));
        JoinMore(a, EmitPackets(next, mtu, bio, entropy, k + 1));
      } else {
        StaysValid(tx, next.(at := tx.at));
      }
    }
  }

  lemma JoinMore(packet: seq<Emitted>, packets: seq<seq<Emitted>>)
    ensures Join([packet] + packets) == packet + Join(packets)
  {
  }

  // ---------------------------------------------------------------- calls that resume a transmission

  /** One call of send_flight. */
  datatype Call = Call(mtu: nat, bio: nat -> int, entropy: Entropy)

  /** The sender after calls each of which goes on where the one before stopped. */
  function AfterCalls(tx: Tx, calls: seq<Call>): (last: Tx)
    requires tx.Valid()
    ensures last.Valid() && last.messages == tx.messages
    decreases calls
  {
    if calls == [] then tx
    else
      var c := calls[0];
      FlightChain(tx, c.mtu, c.bio, c.entropy, 0);
      AfterCalls(SendLoop(tx, c.mtu, c.bio, c.entropy, 0).tx, calls[1..])
  }

  /** The packets that BIO_write accepted in all of them. */
  function EmitCalls(tx: Tx, calls: seq<Call>): seq<seq<Emitted>>
    requires tx.Valid()
    decreases calls
  {
    if calls == [] then []
    else
      var c := calls[0];
      FlightChain(tx, c.mtu, c.bio, c.entropy, 0);
      EmitPackets(tx, c.mtu, c.bio, c.entropy, 0)
      + EmitCalls(SendLoop(tx, c.mtu, c.bio, c.entropy, 0).tx, calls[1..])
  }

  predicate AnySkips(tx: Tx, calls: seq<Call>)
    requires tx.Valid()
    decreases calls
  {
    if calls == [] then false
    else
      var c := calls[0];
      FlightChain(tx, c.mtu, c.bio, c.entropy, 0);
      Skips(tx, c.mtu, c.bio, c.entropy, 0) || AnySkips(SendLoop(tx, c.mtu, c.bio, c.entropy, 0).tx, calls[1..])
  }

  lemma {:induction false} JoinBoth(a: seq<seq<Emitted>>, b: seq<seq<Emitted>>)
    ensures Join(a + b) == Join(a) + Join(b)
  {
    if a == [] {
      assert a + b == b;
    } else {
      assert (a + b)[1..] == a[1..] + b;
      JoinBoth(a[1..], b);
    }
  }

  /** A chain ends where its pieces say, and not before it starts. */
  lemma {:induction false} ChainEnd(messages: seq<Outgoing>, es: seq<Emitted>, from: Cursor, a: Cursor, b: Cursor)
    requires Chain(messages, es, from, a)
    ensures Reaches(from, a) && (Chain(messages, es, from, b) <==> a == b)
    decreases es
  {
    if es != [] { ChainEnd(messages, es[1..], After(messages, es[0].piece), a, b); }
  }

  lemma {:induction false} ChainSplit(messages: seq<Outgoing>, a: seq<Emitted>, b: seq<Emitted>,
                                      from: Cursor, mid: Cursor, to: Cursor)
    requires Chain(messages, a, from, mid)
    ensures Chain(messages, a + b, from, to) <==> Chain(messages, b, mid, to)
    decreases a
  {
    if a == [] {
      assert a + b == b;
    } else {
      assert (a + b)[1..] == a[1..] + b;
      ChainSplit(messages, a[1..], b, After(messages, a[0].piece), mid, to);
    }
  }

  /** Nothing that is sent later lies before the position. */
  ghost predicate Onward(from: Cursor, es: seq<Emitted>, to: Cursor) {
    Reaches(from, to) && (es != [] ==> Reaches(from, Cursor(es[0].piece.index, es[0].piece.off)))
  }

  lemma {:induction false} CallsOnward(tx: Tx, calls: seq<Call>)
    requires tx.Valid()
    ensures Onward(tx.at, Join(EmitCalls(tx, calls)), AfterCalls(tx, calls).at)
    decreases calls
  {
    hide SendLoop, EmitPackets, WrittenTo, Skips, Tx.Valid;
    if calls != [] {
      var c := calls[0];
      FlightChain(tx, c.mtu, c.bio, c.entropy, 0);
      var first, next := EmitFlight(tx, c.mtu, c.bio, c.entropy, 0), SendLoop(tx, c.mtu, c.bio, c.entropy, 0).tx;
      var to := WrittenTo(tx, c.mtu, c.bio, c.entropy, 0);
      ChainEnd(tx.messages, first, tx.at, to, to);
      CallsOnward(next, calls[1..]);
      JoinBoth(EmitPackets(tx, c.mtu, c.bio, c.entropy, 0), EmitCalls(next, calls[1..]));
    }
  }

  /**
  Any number of calls with any MTUs and any writes that fail and are tried again by the next call: all that was
  accepted runs, without gap or overlap, from where the first call started to where the last one stopped,
  exactly if no call skipped.
  */
  lemma {:induction false} ResumedChain(tx: Tx, calls: seq<Call>)
    requires tx.Valid()
    ensures Chain(tx.messages, Join(EmitCalls(tx, calls)), tx.at, AfterCalls(tx, calls).at) <==> !AnySkips(tx, calls)
    decreases calls
  {
    hide SendLoop, EmitPackets, WrittenTo, Skips, Tx.Valid;
    if calls != [] {
      var c := calls[0];
      FlightChain(tx, c.mtu, c.bio, c.entropy, 0);
      var first, next := EmitFlight(tx, c.mtu, c.bio, c.entropy, 0), SendLoop(tx, c.mtu, c.bio, c.entropy, 0).tx;
      var rest, to := Join(EmitCalls(next, calls[1..])), WrittenTo(tx, c.mtu, c.bio, c.entropy, 0);
      JoinBoth(EmitPackets(tx, c.mtu, c.bio, c.entropy, 0), EmitCalls(next, calls[1..]));
      ChainSplit(tx.messages, first, rest, tx.at, to, AfterCalls(tx, calls).at);
      ResumedChain(next, calls[1..]);
      CallsOnward(next, calls[1..]);
    }
  }

  // ---------------------------------------------------------------- complete and disjoint

  predicate AtOrAfter(c: Cursor, i: nat, k: nat) {
    c.written < i || (c.written == i && c.offset <= k)
  }

  /** Byte `k` of message `i` lies between two positions exactly when one piece of the chain covers it. */
  lemma {:induction false} ChainCovers(messages: seq<Outgoing>, es: seq<Emitted>, from: Cursor, to: Cursor, i: nat,
                                       k: nat)
    requires Chain(messages, es, from, to) && InFlight(messages, from)
    requires i < |messages| && k < BodyLen(messages[i])
    ensures InFlight(messages, to) && (!AtOrAfter(from, i, k) ==> !AtOrAfter(to, i, k))
    ensures (exists j :: 0 <= j < |es| && es[j].piece.Covers(i, k)) <==> AtOrAfter(from, i, k) && !AtOrAfter(to, i, k)
    ensures forall a, b :: 0 <= a < b < |es| && es[a].piece.Covers(i, k) ==> !es[b].piece.Covers(i, k)
    decreases es
  {
    if es != [] {
      var p, rest := es[0].piece, es[1..];
      ChainCovers(messages, rest, After(messages, p), to, i, k);
      assert forall j :: 0 < j < |es| ==> es[j] == rest[j - 1];
      assert forall j :: 0 <= j < |rest| ==> rest[j] == es[j + 1];
      if p.Covers(i, k) {
        assert !AtOrAfter(After(messages, p), i, k);
        assert es[0].piece.Covers(i, k);
      } else if j :| 0 <= j < |rest| && rest[j].piece.Covers(i, k) {
        assert es[j + 1].piece.Covers(i, k);
      }
    }
  }

  /**
  Of a transmission from the start of the flight, resumed after any failed writes and not skipping: a byte was
  sent exactly once if the position is past it, and not at all if it is not.
  */
  lemma ResumedComplete(tx: Tx, calls: seq<Call>, i: nat, k: nat)
    requires tx.Valid() && tx.at == Cursor(0, 0) && !AnySkips(tx, calls)
    requires i < |tx.messages| && k < BodyLen(tx.messages[i])
    ensures var es := Join(EmitCalls(tx, calls));
            && ((exists j :: 0 <= j < |es| && es[j].piece.Covers(i, k)) <==> !AtOrAfter(AfterCalls(tx, calls).at, i, k))
            && forall a, b :: 0 <= a < b < |es| && es[a].piece.Covers(i, k) ==> !es[b].piece.Covers(i, k)
  {
    hide AfterCalls, EmitCalls, AnySkips;
    ResumedChain(tx, calls);
    ChainCovers(tx.messages, Join(EmitCalls(tx, calls)), tx.at, AfterCalls(tx, calls).at, i, k);
  }

  /** A chain that passes a message has a piece of it, be it an empty one. */
  lemma {:induction false} ChainVisits(messages: seq<Outgoing>, es: seq<Emitted>, from: Cursor, to: Cursor, i: nat)
    requires Chain(messages, es, from, to) && from.written <= i < to.written
    ensures exists j :: 0 <= j < |es| && es[j].piece.index == i
    decreases es
  {
    var p, rest := es[0].piece, es[1..];
    if p.index != i || After(messages, p).written == i {
      ChainVisits(messages, rest, After(messages, p), to, i);
      var j :| 0 <= j < |rest| && rest[j].piece.index == i;
      assert es[j + 1].piece.index == i;
    } else {
      assert es[0].piece.index == i;
    }
  }
}
