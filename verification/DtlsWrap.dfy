/**
Where the end-to-end law ends: message numbers and epochs have 16 bits.  After 65536 messages and as many
changes of read keys, an old record of the first message passes for the next one.  And nothing keeps a sender
from getting 65536 messages ahead of its receiver: if the network loses all messages but the last of 65537,
that one has the number of the first, and is handed out in its place.
*/
module DtlsWrap {
  import opened Wire
  import opened Aead
  import opened ReplayWindow
  import opened Reassembly
  import opened DtlsRecord
  import opened DtlsReceive
  import opened DtlsSend
  import opened DtlsFlight
  import opened DtlsSystem

  const TYP: byte := 1
  const MTU := 100

  /** All bodies are empty but the last. */
  function Body(k: nat): seq<byte> {
    if k == LIMIT16 then [1] else []
  }

  function Data(k: nat): seq<byte> {
    FinishMessage(InitMessage(TYP, k % LIMIT16, Body(k)))
  }

  lemma DataIs(k: nat)
    ensures IsMessage(Data(k), TYP, k % LIMIT16, Body(k)) && |Data(k)| == HEADER_LENGTH + |Body(k)|
    ensures Data(k) == EncodeHeader(MessageHeader(TYP, k % LIMIT16, |Body(k)|)) + Body(k)
  {
    FinishedIsMessage(TYP, k % LIMIT16, Body(k));
  }

  function Log(k: nat): seq<seq<byte>> {
    seq(k, i requires i >= 0 => Data(i))
  }

  /** The sender with message `k` queued, and after `k` messages were sent one by one. */
  function Queued(k: nat): Tx {
    Tx([Outgoing(Data(k), 0, false)], true, false, Cursor(0, 0), (k + 1) % LIMIT16, Log(k + 1),
       WriteState(0, Null(0), k, None, 0))
  }

  function TxAt(k: nat): Tx {
    if k == 0 then INITIAL_TX else Queued(k - 1).(at := Cursor(1, 0), w := WriteState(0, Null(0), k, None, 0))
  }

  ghost function Accepting(): nat -> int {
    k => 1
  }

  ghost function NoEntropy(): Entropy {
    (k, i, j) => 0
  }

  lemma QueuedValid(k: nat)
    requires k < LIMIT48
    ensures Queued(k).Valid()
  {
    DataIs(k);
    assert WellFormed(Queued(k).messages[0]);
  }

  /** What is planned for the one message: all of it. */
  lemma PlanOne(k: nat)
    requires k < LIMIT48
    ensures Queued(k).Valid()
    ensures PlanNext(Queued(k), MTU) == Send(TYPE_HANDSHAKE, Data(k), false, |Body(k)|)
  {
    hide EncodeHeader;
    QueuedValid(k);
    DataIs(k);
    var h := MessageHeader(TYP, k % LIMIT16, |Body(k)|);
    ParseEncodedFragment(h, Body(k), []);
    assert EncodeHeader(h) + Body(k) + [] == Data(k);
    assert Body(k)[0..|Body(k)|] == Body(k);
  }

  lemma SealOne(k: nat)
    requires k + 1 < LIMIT48
    ensures Queued(k).Valid()
    ensures var (next, result) := SealNextMessage(Queued(k), MTU, NoEntropy(), 0);
            result.Fully? && MessageDone(next) == TxAt(k + 1)
  {
    hide PlanNext, EncodeRecord;
    PlanOne(k);
    DataIs(k);
  }

  function OneRecord(k: nat): Emitted
    requires k < LIMIT48
  {
    Emitted(WriteState(0, Null(0), k, None, 0), TYPE_HANDSHAKE, Data(k), false, [], MTU, Piece(0, 0, |Body(k)|))
  }

  lemma EmitOne(k: nat)
    requires k + 1 < LIMIT48
    ensures Queued(k).Valid() && PlanNext(Queued(k), MTU).Send?
    ensures EmitNext(Queued(k), MTU, NoEntropy(), 0) == OneRecord(k) && OneRecord(k).Valid()
  {
    hide PlanNext, SealNextMessage;
    PlanOne(k);
    SealOne(k);
    EmitNextFollows(Queued(k), MTU, NoEntropy(), 0);
  }

  lemma SendOne(k: nat)
    requires k + 1 < LIMIT48
    ensures Queued(k).Valid() && TxAt(k + 1).Valid()
    ensures SendFlight(Queued(k), MTU, Accepting(), 1, NoEntropy()).tx == TxAt(k + 1)
    ensures EmitPackets(Queued(k), MTU, Accepting(), NoEntropy(), 0) == [[OneRecord(k)]]
  {
    hide PlanNext, SealNextMessage, EmitNext, Tx.Valid, Data, Log;
    var tx := Queued(k);
    SealOne(k);
    EmitOne(k);
    var (next, result) := SealNextMessage(tx, MTU, NoEntropy(), 0);
    var last := MessageDone(next);
    SealRecordsTurn(tx, MTU, NoEntropy(), 0);
    SealRecordsDone(last, MTU - |result.record|, NoEntropy(), 0);
    EmitRecordsTurn(tx, MTU, NoEntropy(), 0);
    EmitRecordsDone(last, MTU - |result.record|, NoEntropy(), 0);
    assert SealRecords(tx, MTU, NoEntropy(), 0) == (last, true, [result.record] + []);
    assert [OneRecord(k)] + [] == [OneRecord(k)] && [[OneRecord(k)]] + [] == [[OneRecord(k)]];
    PacketProgress(tx, MTU, NoEntropy(), 0);
  }

  // ---------------------------------------------------------------- what the sender has done

  lemma LogMore(k: nat)
    ensures |Log(k)| == k && Log(k) + [Data(k)] == Log(k + 1)
  {
    hide Data;
  }

  lemma NextNumber(k: nat)
    ensures Next16(k % LIMIT16) == (k + 1) % LIMIT16
  {
  }

  lemma ShortData(k: nat)
    ensures |Data(k)| <= MAX_MESSAGE_SIZE
  {
    DataIs(k);
  }

  /** Queueing the next message, until it is sent. */
  lemma QueueOne(k: nat)
    requires k < LIMIT48
    ensures AddOutgoing(TxAt(k), false, Data(k)).0.(complete := true) == Queued(k)
  {
    hide Data, Log, Next16;
    ShortData(k);
    LogMore(k);
    LogMore(0);
    NextNumber(k);
    assert [] + [Outgoing(Data(k), 0, false)] == [Outgoing(Data(k), 0, false)];
  }

  lemma TxAtValid(k: nat)
    requires k < LIMIT48
    ensures TxAt(k).Valid() && AddOutgoing(TxAt(k), false, Data(k)).0.Valid()
  {
    hide Queued, TxAt, Data, Tx.Valid, AddOutgoing, SendFlight, EmitPackets, OneRecord;
    if k > 0 { SendOne(k - 1); } else { FirstTx(); }
    QueueOne(k);
    QueuedValid(k);
    CompleteAside(AddOutgoing(TxAt(k), false, Data(k)).0);
  }

  lemma FirstTx()
    ensures TxAt(0).Valid()
  {
  }

  lemma CompleteAside(tx: Tx)
    requires tx.(complete := true).Valid()
    ensures tx.Valid()
  {
    hide WellFormed, WriteState.Valid;
  }

  /** The sender made `k` messages, one record each; the receiver is at `rx` and handed out `delivered`. */
  ghost predicate Stands(s: System, k: nat, rx: Rx, delivered: seq<seq<byte>>) {
    && s.tx == TxAt(k) && s.rx == rx && s.delivered == delivered && |s.net| == k
    && forall i :: 0 <= i < k && i < LIMIT48 ==> s.net[i] == [OneRecord(i)]
  }

  ghost function Adding(k: nat): Event {
    AddMessage(TYP, Body(k))
  }

  ghost function Sending(): Event {
    Transmit(false, true, MTU, Accepting(), 1, NoEntropy())
  }

  lemma WriteSeqAt(k: nat)
    ensures TxAt(k).writeSeq == k % LIMIT16
  {
  }

  lemma DataDef(k: nat)
    ensures Data(k) == FinishMessage(InitMessage(TYP, k % LIMIT16, Body(k)))
  {
  }

  lemma AddOne(s: System, k: nat, rx: Rx, delivered: seq<seq<byte>>, keys: nat -> Context)
    requires Stands(s, k, rx, delivered) && rx.Valid() && k + 1 < LIMIT48
    ensures Next(s, Adding(k), keys) == s.(tx := AddOutgoing(TxAt(k), false, Data(k)).0)
  {
    hide Data, Log, AddOutgoing, Tx.Valid, Rx.Valid, TxAt, OneRecord;
    TxAtValid(k);
    assert TxAt(k).writeSeq == k % LIMIT16 by { WriteSeqAt(k); }
    assert Data(k) == FinishMessage(InitMessage(TYP, k % LIMIT16, Body(k))) by { DataDef(k); }
  }

  /** One more message is made and sent. */
  lemma SendKeeps(s: System, k: nat, rx: Rx, delivered: seq<seq<byte>>, keys: nat -> Context)
    requires Stands(s, k, rx, delivered) && rx.Valid() && k + 1 < LIMIT48
    ensures Stands(Next(Next(s, Adding(k), keys), Sending(), keys), k + 1, rx, delivered)
  {
    hide EmitPackets, SendFlight, Data, Log, AddOutgoing, Tx.Valid, Rx.Valid, TxAt, Queued, OneRecord;
    AddOne(s, k, rx, delivered, keys);
    TxAtValid(k);
    QueueOne(k);
    SendOne(k);
  }

  // ---------------------------------------------------------------- what the receiver makes of a record

  /** A receiver with nothing at hand that waits for message `n`. */
  function Waiting(n: nat, read: ReadState): Rx {
    Rx(n % LIMIT16, EmptyRing(), false, false, read)
  }

  /** It reads unprotected records of epoch 0. */
  ghost predicate Plain(read: ReadState) {
    read.epoch == 0 && read.ctx.Null? && read.ctx.Valid()
  }

  function Whole(i: nat): Partial {
    Partial(TYP, i % LIMIT16, seq(|Body(i)|, k requires 0 <= k < |Body(i)| => Some(Body(i)[k])))
  }

  lemma WholeIs(i: nat)
    ensures Whole(i).Complete() && Whole(i).Raw() == Data(i)
  {
    hide EncodeHeader;
    DataIs(i);
    assert Whole(i).Bytes() == Body(i);
  }

  lemma {:induction false} LeadingZeros(s: seq<byte>)
    ensures FromBE([0, 0] + s) == FromBE(s)
  {
    if s == [] {
      var zero, zeros: seq<byte> := [0], [0, 0];
      assert zeros + s == zeros && zeros[..1] == zero && zero[..0] == [];
      assert FromBE(zero) == 0;
    } else {
      LeadingZeros(s[..|s| - 1]);
      assert ([0, 0] + s)[..|s| + 1] == [0, 0] + s[..|s| - 1];
    }
  }

  /** The sequence number of the record with message `k` is `k`. */
  lemma NumberIs(k: nat)
    requires k < LIMIT48
    ensures FromBE(OneRecord(k).w.Sequence(false)) == k && |OneRecord(k).plain| <= HEADER_LENGTH + 1
  {
    DataIs(k);
    Limit48();
    FromToBE(k, W48);
    LeadingZeros(ToBE(k, W48));
    var none: seq<byte> := [0, 0];
    assert ToBE(0, W16) == none;
  }

  lemma WaitingValid(n: nat, read: ReadState)
    requires Plain(read)
    ensures Waiting(n, read).Valid()
  {
  }

  /** A record with the number that the receiver waits for fills the slot. */
  lemma FillsSlot(n: nat, read: ReadState, i: nat)
    requires Plain(read) && n % LIMIT16 == i % LIMIT16
    ensures var rx := Waiting(n, read);
            StepFragment(rx, MessageHeader(TYP, i % LIMIT16, |Body(i)|), Body(i), 1)
            == Go(rx.(slots := rx.slots[rx.Current() := Some(Whole(i))]))
  {
    var h := MessageHeader(TYP, i % LIMIT16, |Body(i)|);
    if Body(i) == [] {
      assert Fresh(h).body == [] && Fresh(h) == Whole(i);
    } else {
      assert Fresh(h).body[0].None?;
      assert Fresh(h).Merge(0, Body(i)).body == Whole(i).body;
    }
  }

  lemma TakesRecord(n: nat, read: ReadState, i: nat)
    requires i + 1 < LIMIT48 && OneRecord(i).Valid() && Plain(read) && !read.seen.Rejects(i)
    requires n % LIMIT16 == i % LIMIT16
    ensures var rx, input := Waiting(n, read), OneRecord(i).Bytes();
            && HandshakeInput(rx, false, input, 1).0
            == rx.(read := read.(seen := read.seen.Add(i)), slots := rx.slots[rx.Current() := Some(Whole(i))])
            && 0 < HandshakeInput(rx, false, input, 1).1 == |input|
  {
    hide SealRecord, OpenRecord, EncodeHeader, StepFragment, Whole, Data, WriteState.Sequence;
    var e, input := OneRecord(i), OneRecord(i).Bytes();
    assert input + [] == input;
    NumberIs(i);
    OpenSealedRecord(e.w, e.typ, e.plain, false, [], MTU, read, []);
    DataIs(i);
    var h := MessageHeader(TYP, i % LIMIT16, |Body(i)|);
    ParseEncodedFragment(h, Body(i), []);
    assert EncodeHeader(h) + Body(i) + [] == Data(i);
    var next := read.(seen := read.seen.Add(i));
    FillsSlot(n, next, i);
    OneFragment(Waiting(n, next), Data(i), h, Body(i), 1);
  }

  /** The message is handed out, and the receiver waits for the next one. */
  lemma HandsOut(n: nat, read: ReadState, i: nat)
    requires Plain(read) && n % LIMIT16 == i % LIMIT16
    ensures var w := Waiting(n, read);
            var rx := w.(slots := w.slots[w.Current() := Some(Whole(i))]);
            && rx.Valid() && PeekMessage(rx).1 == Some(Data(i))
            && DropMessage(PeekMessage(rx).0) == Waiting(n + 1, read)
  {
    hide EncodeHeader, Data;
    WholeIs(i);
    var w := Waiting(n, read);
    var rx := w.(slots := w.slots[w.Current() := Some(Whole(i))]);
    assert rx.slots[w.Current() := None] == EmptyRing();
  }

  lemma ArrivesAt(s: System, i: nat, keys: nat -> Context)
    requires s.tx.Valid() && s.rx.Valid() && i < |s.net| && i + 1 < LIMIT48
    requires OneRecord(i).Valid() && s.net[i] == [OneRecord(i)]
    ensures Next(s, Arrive(i), keys) == s.(buffer := OneRecord(i).Bytes(), pending := [OneRecord(i)])
  {
    hide OneRecord, Tx.Valid, Rx.Valid, Emitted.Valid, Emitted.Bytes;
    var e := OneRecord(i);
    assert Bytes([e]) == e.Bytes() + [] == e.Bytes();
  }

  lemma ReadsAll(s: System, keys: nat -> Context)
    requires s.tx.Valid() && s.rx.Valid() && 0 < HandshakeInput(s.rx, false, s.buffer, 1).1 == |s.buffer|
    ensures Next(s, ReadRecord(1, false), keys)
         == s.(rx := HandshakeInput(s.rx, false, s.buffer, 1).0, buffer := [], pending := [])
  {
    hide HandshakeInput, Rx.Valid, Tx.Valid;
    SlotCount(s.rx);
    assert s.buffer[|s.buffer|..] == [];
  }

  lemma TakesNext(s: System, keys: nat -> Context)
    requires s.tx.Valid() && s.rx.Valid() && PeekMessage(s.rx).1.Some?
    ensures Next(s, TakeMessage, keys)
         == s.(rx := DropMessage(PeekMessage(s.rx).0), delivered := s.delivered + [PeekMessage(s.rx).1.value])
  {
    hide Tx.Valid;
    SlotCount(s.rx);
  }

  /** A record arrives, is read and taken for the message that is waited for. */
  lemma TakesIn(s: System, k: nat, n: nat, read: ReadState, delivered: seq<seq<byte>>, i: nat, keys: nat -> Context)
    requires Stands(s, k, Waiting(n, read), delivered) && i < k && k + 1 < LIMIT48
    requires Plain(read) && !read.seen.Rejects(i) && n % LIMIT16 == i % LIMIT16
    ensures Stands(Next(Next(Next(s, Arrive(i), keys), ReadRecord(1, false), keys), TakeMessage, keys), k,
                   Waiting(n + 1, read.(seen := read.seen.Add(i))), delivered + [Data(i)])
  {
    hide Next, HandshakeInput, PeekMessage, DropMessage, Waiting, Whole, Data, TxAt, OneRecord, Tx.Valid, Rx.Valid;
    TxAtValid(k);
    WaitingValid(n, read);
    EmitOne(i);
    ArrivesAt(s, i, keys);
    TakesRecord(n, read, i);
    ReadsAll(Next(s, Arrive(i), keys), keys);
    var next := read.(seen := read.seen.Add(i));
    HandsOut(n, next, i);
    WaitingRead(n, read, next);
    TakesNext(Next(Next(s, Arrive(i), keys), ReadRecord(1, false), keys), keys);
  }

  lemma WaitingRead(n: nat, read: ReadState, next: ReadState)
    ensures Waiting(n, read).(read := next) == Waiting(n, next) && Waiting(n, read).slots == Waiting(n, next).slots
    ensures Waiting(n, read).Current() == Waiting(n, next).Current()
  {
  }

  // ---------------------------------------------------------------- runs

  /** The run of these events. */
  ghost function States(events: seq<Event>, keys: nat -> Context): (states: seq<System>)
    ensures |states| == |events| + 1
  {
    if events == [] then [START]
    else
      var before := States(events[..|events| - 1], keys);
      before + [Next(before[|before| - 1], events[|events| - 1], keys)]
  }

  lemma {:induction false} StatesRun(events: seq<Event>, keys: nat -> Context)
    ensures IsRun(States(events, keys), events, keys)
  {
    hide Next;
    if events != [] { StatesRun(events[..|events| - 1], keys); }
  }

  ghost function Final(events: seq<Event>, keys: nat -> Context): System {
    States(events, keys)[|events|]
  }

  lemma FinalNext(events: seq<Event>, ev: Event, keys: nat -> Context)
    ensures Final(events + [ev], keys) == Next(Final(events, keys), ev, keys)
  {
    hide Next;
    assert (events + [ev])[..|events|] == events;
  }

  lemma StartStands(keys: nat -> Context)
    ensures Stands(Final([], keys), 0, Waiting(0, ReadState(0, Null(0), EMPTY)), [])
  {
  }

  ghost function Lost(k: nat): seq<Event> {
    if k == 0 then [] else Lost(k - 1) + [Adding(k - 1)] + [Sending()]
  }

  /** All messages are lost. */
  lemma {:induction false} AllLost(k: nat, keys: nat -> Context)
    requires k + 1 < LIMIT48
    ensures Stands(Final(Lost(k), keys), k, Waiting(0, ReadState(0, Null(0), EMPTY)), [])
  {
    hide Stands, Final, Next, Waiting;
    if k == 0 {
      StartStands(keys);
    } else {
      AllLost(k - 1, keys);
      var before, rx := Lost(k - 1), Waiting(0, ReadState(0, Null(0), EMPTY));
      WaitingValid(0, ReadState(0, Null(0), EMPTY));
      FinalNext(before, Adding(k - 1), keys);
      FinalNext(before + [Adding(k - 1)], Sending(), keys);
      SendKeeps(Final(before, keys), k - 1, rx, [], keys);
    }
  }

  /** So there is a run of 65537 messages in which what is handed out first is not what was sent first. */
  lemma NumbersRepeat(keys: nat -> Context)
    requires KeysOk(keys)
    ensures exists states: seq<System>, events: seq<Event> ::
              && IsRun(states, events, keys)
              && |states[|events|].tx.hashed| == LIMIT16 + 1 && |states[|events|].delivered| == 1
              && states[|events|].delivered[0] != states[|events|].tx.hashed[0]
  {
    hide Next, States, Data, Waiting, TxAt, Lost;
    var n := LIMIT16 + 1;
    AllLost(n, keys);
    var a := Lost(n) + [Arrive(LIMIT16)];
    var b := a + [ReadRecord(1, false)];
    FinalNext(Lost(n), Arrive(LIMIT16), keys);
    FinalNext(a, ReadRecord(1, false), keys);
    FinalNext(b, TakeMessage, keys);
    TakesIn(Final(Lost(n), keys), n, 0, ReadState(0, Null(0), EMPTY), [], LIMIT16, keys);
    StatesRun(b + [TakeMessage], keys);
    DataIs(0);
    DataIs(LIMIT16);
    LogAt(n);
    assert |States(b + [TakeMessage], keys)[|b + [TakeMessage]|].tx.hashed| == n;
  }

  lemma LogAt(k: nat)
    requires k > 0
    ensures TxAt(k).hashed == Log(k) && |Log(k)| == k && Log(k)[0] == Data(0)
  {
    hide Data;
  }

  function Below(k: nat): set<nat> {
    if k == 0 then {} else Below(k - 1) + {k - 1}
  }

  lemma {:induction false} BelowIs(k: nat)
    ensures forall n :: n in Below(k) ==> n < k
  {
    if k > 0 { BelowIs(k - 1); }
  }

  /** The numbers below `k`, as recorded by a reader. */
  function Upto(k: nat): Seen {
    Seen(Below(k), if k == 0 then 0 else k - 1)
  }

  lemma UptoMore(k: nat)
    ensures !Upto(k).Rejects(k) && Upto(k).Add(k) == Upto(k + 1) && Upto(0) == EMPTY
  {
    BelowIs(k);
  }

  ghost function Handed(k: nat): seq<Event> {
    if k == 0 then []
    else
      Handed(k - 1) + [Adding(k - 1)] + [Sending()] + [Arrive(k - 1)] + [ReadRecord(1, false)] + [TakeMessage]
  }

  /** Every message arrives and is handed out before the next one is made. */
  lemma {:induction false} AllHanded(k: nat, keys: nat -> Context)
    requires k + 1 < LIMIT48
    ensures Stands(Final(Handed(k), keys), k, Waiting(k, ReadState(0, Null(0), Upto(k))), Log(k))
  {
    hide Stands, Final, Next, Waiting, Log, Data, Upto, Seen.Rejects, Seen.Add;
    UptoMore(0);
    if k == 0 {
      StartStands(keys);
      assert Log(0) == [] by { LogMore(0); }
    } else {
      var j := k - 1;
      AllHanded(j, keys);
      UptoMore(j);
      LogMore(j);
      var read := ReadState(0, Null(0), Upto(j));
      WaitingValid(j, read);
      var a := Handed(j) + [Adding(j)];
      var b := a + [Sending()];
      var c := b + [Arrive(j)];
      var d := c + [ReadRecord(1, false)];
      FinalNext(Handed(j), Adding(j), keys);
      FinalNext(a, Sending(), keys);
      FinalNext(b, Arrive(j), keys);
      FinalNext(c, ReadRecord(1, false), keys);
      FinalNext(d, TakeMessage, keys);
      SendKeeps(Final(Handed(j), keys), j, Waiting(j, read), Log(j), keys);
      TakesIn(Final(b, keys), k, j, read, Log(j), j, keys);
    }
  }

  ghost function Rekeyed(before: seq<Event>, j: nat): seq<Event> {
    if j == 0 then before else Rekeyed(before, j - 1) + [ReadKeys]
  }

  ghost function KeysAt(j: nat, keys: nat -> Context): ReadState {
    ReadState(j % LIMIT16, keys(j % LIMIT16), EMPTY)
  }

  lemma RekeyKeeps(s: System, k: nat, n: nat, read: ReadState, delivered: seq<seq<byte>>, keys: nat -> Context)
    requires Stands(s, k, Waiting(n, read), delivered) && Waiting(n, read).Valid() && k < LIMIT48
    ensures Stands(Next(s, ReadKeys, keys), k, Waiting(n, KeysAt(read.epoch + 1, keys)), delivered)
  {
    hide TxAt, OneRecord, Tx.Valid, Data, Log;
    TxAtValid(k);
  }

  lemma KeysValid(n: nat, j: nat, keys: nat -> Context)
    requires KeysOk(keys)
    ensures Waiting(n, KeysAt(j, keys)).Valid()
  {
  }

  /** Changes of read keys, with nothing at hand. */
  lemma {:induction false} Rekeying(before: seq<Event>, k: nat, n: nat, read: ReadState, delivered: seq<seq<byte>>,
                                    j: nat, keys: nat -> Context)
    requires KeysOk(keys) && Stands(Final(before, keys), k, Waiting(n, read), delivered) && k < LIMIT48
    requires Plain(read) && j > 0
    ensures Stands(Final(Rekeyed(before, j), keys), k, Waiting(n, KeysAt(j, keys)), delivered)
  {
    hide Stands, Final, Next, Waiting;
    FinalNext(Rekeyed(before, j - 1), ReadKeys, keys);
    var s := Final(Rekeyed(before, j - 1), keys);
    if j == 1 {
      WaitingValid(n, read);
      RekeyKeeps(s, k, n, read, delivered, keys);
    } else {
      Rekeying(before, k, n, read, delivered, j - 1, keys);
      KeysValid(n, j - 1, keys);
      RekeyKeeps(s, k, n, KeysAt(j - 1, keys), delivered, keys);
      KeysRound(j - 1, keys);
    }
  }

  lemma KeysRound(j: nat, keys: nat -> Context)
    ensures KeysAt(KeysAt(j, keys).epoch + 1, keys) == KeysAt(j + 1, keys)
  {
  }

  /** And there is a run of 65536 messages in which one more is handed out than was sent. */
  lemma EpochsRepeat(keys: nat -> Context)
    requires KeysOk(keys)
    ensures exists states: seq<System>, events: seq<Event> ::
              && IsRun(states, events, keys)
              && |states[|events|].tx.hashed| == LIMIT16 && |states[|events|].delivered| == LIMIT16 + 1
  {
    hide Next, States, Data, Waiting, TxAt, Handed, Rekeyed, Log, Upto;
    AllHanded(LIMIT16, keys);
    Rekeying(Handed(LIMIT16), LIMIT16, LIMIT16, ReadState(0, Null(0), Upto(LIMIT16)), Log(LIMIT16), LIMIT16, keys);
    var before := Rekeyed(Handed(LIMIT16), LIMIT16);
    var a := before + [Arrive(0)];
    var b := a + [ReadRecord(1, false)];
    FinalNext(before, Arrive(0), keys);
    FinalNext(a, ReadRecord(1, false), keys);
    FinalNext(b, TakeMessage, keys);
    TakesIn(Final(before, keys), LIMIT16, LIMIT16, KeysAt(LIMIT16, keys), Log(LIMIT16), 0, keys);
    StatesRun(b + [TakeMessage], keys);
    LogAt(LIMIT16);
    assert |States(b + [TakeMessage], keys)[|b + [TakeMessage]|].tx.hashed| == LIMIT16;
  }
}
