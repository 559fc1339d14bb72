/**
Epoch separation: in every reachable state of the receiver, for every input whatsoever, all fragments
that were merged into one message arrived in the same read epoch.
*/
module DtlsEpochs {
  import opened Wire
  import opened Aead
  import opened Reassembly
  import opened DtlsRecord
  import opened DtlsReceive

  /**
  A receiver with its history.  `taken` counts the messages handed out and `generation` the changes of
  read keys, neither of which wraps; `sources[m]` are the generations whose fragments went into message `m`.
  */
  datatype Traced = Traced(rx: Rx, taken: nat, generation: nat, sources: map<nat, set<nat>>) {
    function Sources(m: nat): set<nat> {
      if m in sources then sources[m] else {}
    }

    /** The running number of the message with sequence number `seqNo` of the current window. */
    function Number(seqNo: nat): nat
      requires rx.readSeq <= seqNo
    {
      taken + (seqNo - rx.readSeq)
    }

    function Merged(m: nat): Traced {
      this.(sources := sources[m := Sources(m) + {generation}])
    }
  }

  const START := Traced(INITIAL, 0, 0, map[])

  datatype Event =
    | Input(shutdown: bool, bytes: seq<byte>, maxLen: nat)
    | CcsInput(shutdown: bool, bytes: seq<byte>, maxLen: nat)
    | Take
    | ReadKeys(ctx: Context)

  /** The body is copied: the fragment is accepted and its message is not complete yet. */
  predicate Copies(rx: Rx, h: Header, body: seq<byte>, maxLen: nat)
    requires |rx.slots| == MAX_FLIGHT && |body| == h.fragLen
  {
    StepFragment(rx, h, body, maxLen).Go? && InWindow(rx, h) && !Slot(rx, h).Complete()
  }

  function TraceFragments(t: Traced, s: seq<byte>, maxLen: nat): (r: Traced)
    requires |t.rx.slots| == MAX_FLIGHT
    decreases |s|
  {
    if s == [] || ParseFragment(s).None? then t
    else
      var (h, body, rest) := ParseFragment(s).value;
      match StepFragment(t.rx, h, body, maxLen)
      case Stop(_) => t
      case Go(next) =>
        var u := if Copies(t.rx, h, body, maxLen) then t.Merged(t.Number(h.seqNo)) else t;
        TraceFragments(u.(rx := next), rest, maxLen)
  }

  function TraceInput(t: Traced, shutdown: bool, bytes: seq<byte>, maxLen: nat): Traced
    requires |t.rx.slots| == MAX_FLIGHT && t.rx.read.ctx.Valid()
  {
    var (read, outcome) := OpenRecord(t.rx.read, shutdown, bytes);
    var u := t.(rx := t.rx.(read := read));
    if outcome.Record? && outcome.typ == TYPE_HANDSHAKE then TraceFragments(u, outcome.plain, maxLen)
    else u.(rx := HandshakeInput(t.rx, shutdown, bytes, maxLen).0)
  }

  ghost function Next(t: Traced, ev: Event): Traced
    requires t.rx.Valid()
  {
    match ev
    case Input(shutdown, bytes, maxLen) => TraceInput(t, shutdown, bytes, maxLen)
    case CcsInput(shutdown, bytes, maxLen) =>
      var u := if t.rx.hasCcs then t else TraceInput(t, shutdown, bytes, maxLen);
      u.(rx := ChangeCipherSpecInput(t.rx, shutdown, bytes, maxLen).0)
    case Take =>
      var (rx, raw) := PeekMessage(t.rx);
      if raw.None? then t.(rx := rx) else t.(rx := DropMessage(rx), taken := t.taken + 1)
    case ReadKeys(ctx) =>
      if t.rx.HasUnprocessed() || !ctx.Valid() then t
      else t.(rx := NewReadState(t.rx, ctx), generation := t.generation + 1)
  }

  /** The traced receiver does what the receiver does. */
  lemma {:induction false} TraceFollows(t: Traced, s: seq<byte>, maxLen: nat)
    requires |t.rx.slots| == MAX_FLIGHT
    ensures var u := TraceFragments(t, s, maxLen);
            u.rx == OpenFragments(t.rx, s, maxLen).0 && u.taken == t.taken && u.generation == t.generation
    decreases |s|
  {
    if s != [] && ParseFragment(s).Some? {
      var (h, body, rest) := ParseFragment(s).value;
      var r := StepFragment(t.rx, h, body, maxLen);
      if r.Go? {
        var u := if Copies(t.rx, h, body, maxLen) then t.Merged(t.Number(h.seqNo)) else t;
        TraceFollows(u.(rx := r.rx), rest, maxLen);
      }
    }
  }

  lemma TraceInputFollows(t: Traced, shutdown: bool, bytes: seq<byte>, maxLen: nat)
    requires |t.rx.slots| == MAX_FLIGHT && t.rx.read.ctx.Valid()
    ensures var u := TraceInput(t, shutdown, bytes, maxLen);
            u.rx == HandshakeInput(t.rx, shutdown, bytes, maxLen).0
            && u.taken == t.taken && u.generation == t.generation
  {
    hide OpenRecord, TraceFragments, OpenFragments;
    var (read, outcome) := OpenRecord(t.rx.read, shutdown, bytes);
    if outcome.Record? {
      TraceFollows(t.(rx := t.rx.(read := read)), outcome.plain, maxLen);
    }
  }

  // ---------------------------------------------------------------- the invariant

  /** The slot, if any, in which message `m` of the window is being put together. */
  function SlotOf(t: Traced, m: nat): Option<Partial>
    requires |t.rx.slots| == MAX_FLIGHT && t.taken <= m
  {
    t.rx.slots[(t.rx.readSeq + (m - t.taken)) % MAX_FLIGHT]
  }

  ghost predicate OneEpoch(sources: set<nat>) {
    forall a, b :: a in sources && b in sources ==> a == b
  }

  ghost predicate Inv(t: Traced) {
    && t.rx.Valid()
    && (forall m :: m in t.sources ==> OneEpoch(t.sources[m]))
    && (forall m :: m in t.sources && m >= t.taken ==>
          && m < t.taken + MAX_FLIGHT
          && SlotOf(t, m).Some?
          && SlotOf(t, m).value.seqNo == t.rx.readSeq + (m - t.taken)
          && (!SlotOf(t, m).value.Complete() ==> t.sources[m] <= {t.generation}))
  }

  lemma {:induction false} FragmentsKeep(t: Traced, s: seq<byte>, maxLen: nat)
    requires Inv(t)
    ensures Inv(TraceFragments(t, s, maxLen))
    decreases |s|
  {
    hide StepFragment, Inv;
    ValidRx(t);
    if s != [] && ParseFragment(s).Some? {
      var (h, body, rest) := ParseFragment(s).value;
      ParsedIsEncodable(s);
      var r := StepFragment(t.rx, h, body, maxLen);
      if r.Go? {
        var u := if Copies(t.rx, h, body, maxLen) then t.Merged(t.Number(h.seqNo)) else t;
        StepKeeps(t, h, body, maxLen);
        FragmentsKeep(u.(rx := r.rx), rest, maxLen);
      }
    }
  }

  lemma ValidRx(t: Traced)
    requires Inv(t)
    ensures t.rx.Valid() && |t.rx.slots| == MAX_FLIGHT && t.rx.read.ctx.Valid()
  {
  }

  /** A change of one slot leaves the other messages of the window where they are. */
  lemma OthersStay(t: Traced, next: Rx, seqNo: nat)
    requires |t.rx.slots| == MAX_FLIGHT == |next.slots| && next.readSeq == t.rx.readSeq
    requires t.rx.readSeq <= seqNo < t.rx.readSeq + MAX_FLIGHT
    requires next.slots == t.rx.slots[seqNo % MAX_FLIGHT := next.slots[seqNo % MAX_FLIGHT]]
    ensures SlotOf(t, t.Number(seqNo)) == t.rx.slots[seqNo % MAX_FLIGHT]
    ensures SlotOf(t.(rx := next), t.Number(seqNo)) == next.slots[seqNo % MAX_FLIGHT]
    ensures forall m :: t.taken <= m < t.taken + MAX_FLIGHT && m != t.Number(seqNo) ==>
              SlotOf(t.(rx := next), m) == SlotOf(t, m)
  {
    forall m | t.taken <= m < t.taken + MAX_FLIGHT && m != t.Number(seqNo)
      ensures SlotOf(t.(rx := next), m) == SlotOf(t, m)
    {
      OtherSlot(t.rx.readSeq, m - t.taken, seqNo - t.rx.readSeq);
    }
  }

  /** Filling the slot of message `n` of the window and noting its source keeps the invariant. */
  lemma FilledKeeps(t: Traced, next: Rx, n: nat, merged: bool)
    requires Inv(t) && next.Valid() && |next.slots| == MAX_FLIGHT && next.readSeq == t.rx.readSeq
    requires t.taken <= n < t.taken + MAX_FLIGHT
    requires forall m :: t.taken <= m < t.taken + MAX_FLIGHT && m != n ==> SlotOf(t.(rx := next), m) == SlotOf(t, m)
    requires var slot := SlotOf(t.(rx := next), n);
             slot.Some? && slot.value.seqNo == t.rx.readSeq + (n - t.taken)
    requires merged || SlotOf(t.(rx := next), n) == SlotOf(t, n) || n !in t.sources
    requires merged && SlotOf(t, n).Some? ==> !SlotOf(t, n).value.Complete()
    ensures Inv((if merged then t.Merged(n) else t).(rx := next))
  {
    hide Rx.Valid, Partial.Complete;
    var v := (if merged then t.Merged(n) else t).(rx := next);
    forall m | m in v.sources && m >= t.taken ensures SlotOf(v, m) == SlotOf(t.(rx := next), m) {}
  }

  /** A slot of the window that is in use has the number of every fragment that goes there. */
  lemma SlotNumber(t: Traced, h: Header)
    requires Inv(t) && |t.rx.slots| == MAX_FLIGHT && t.rx.readSeq <= h.seqNo < t.rx.readSeq + MAX_FLIGHT
    ensures Slot(t.rx, h).seqNo == h.seqNo
    ensures t.rx.slots[h.seqNo % MAX_FLIGHT].None? ==> t.Number(h.seqNo) !in t.sources
  {
  }

  lemma StepKeeps(t: Traced, h: Header, body: seq<byte>, maxLen: nat)
    requires Inv(t) && h.Encodable() && |body| == h.fragLen
    requires StepFragment(t.rx, h, body, maxLen).Go?
    ensures var u := if Copies(t.rx, h, body, maxLen) then t.Merged(t.Number(h.seqNo)) else t;
            Inv(u.(rx := StepFragment(t.rx, h, body, maxLen).rx))
  {
    ValidRx(t);
    hide Inv, Rx.Valid, StepFragment, Partial.Complete, SlotOf;
    StepSlots(t.rx, h, body, maxLen);
    StepFragmentValid(t.rx, h, body, maxLen);
    var next := StepFragment(t.rx, h, body, maxLen).rx;
    if InWindow(t.rx, h) {
      OthersStay(t, next, h.seqNo);
      SlotNumber(t, h);
      FilledKeeps(t, next, t.Number(h.seqNo), Copies(t.rx, h, body, maxLen));
    }
  }

  lemma OtherSlot(readSeq: nat, a: nat, b: nat)
    requires a < MAX_FLIGHT && b < MAX_FLIGHT && a != b
    ensures (readSeq + a) % MAX_FLIGHT != (readSeq + b) % MAX_FLIGHT
  {
  }

  lemma InputKeeps(t: Traced, shutdown: bool, bytes: seq<byte>, maxLen: nat)
    requires Inv(t)
    ensures Inv(TraceInput(t, shutdown, bytes, maxLen))
  {
    hide OpenRecord, TraceFragments, OpenFragments, Rx.Valid;
    SlotCount(t.rx);
    HandshakeInputValid(t.rx, shutdown, bytes, maxLen);
    var (read, outcome) := OpenRecord(t.rx.read, shutdown, bytes);
    NewRead(t.rx, read);
    var u := t.(rx := t.rx.(read := read));
    assert Inv(u);
    if outcome.Record? && outcome.typ == TYPE_HANDSHAKE {
      FragmentsKeep(u, outcome.plain, maxLen);
    }
  }

  lemma TakeKeeps(t: Traced)
    requires Inv(t)
    ensures Inv(Next(t, Take))
  {
    DropMessageValid(t.rx);
    if t.rx.CurrentComplete() {
      var u := Next(t, Take);
      forall m | m in u.sources && m >= u.taken
        ensures SlotOf(u, m) == SlotOf(t, m)
      {
        OtherSlot(t.rx.readSeq, m - t.taken, 0);
        assert t.rx.SlotOk((t.rx.readSeq + (m - t.taken)) % MAX_FLIGHT, SlotOf(t, m).value);
      }
    }
  }

  lemma ReadKeysKeep(t: Traced, ctx: Context)
    requires Inv(t)
    ensures Inv(Next(t, ReadKeys(ctx)))
  {
    if !t.rx.HasUnprocessed() && ctx.Valid() {
      NewReadStateValid(t.rx, ctx);
      forall m | m in t.sources && m >= t.taken
        ensures SlotOf(t, m).value.Complete()
      {
        var i := (t.rx.readSeq + (m - t.taken)) % MAX_FLIGHT;
        assert t.rx.slots[i].Some?;
        assert i == t.rx.Current();
      }
    }
  }

  lemma CcsInputKeeps(t: Traced, shutdown: bool, bytes: seq<byte>, maxLen: nat)
    requires Inv(t)
    ensures Inv(Next(t, CcsInput(shutdown, bytes, maxLen)))
  {
    hide TraceInput, HandshakeInput, Inv;
    ValidRx(t);
    InputKeeps(t, shutdown, bytes, maxLen);
    TraceInputFollows(t, shutdown, bytes, maxLen);
    var u := if t.rx.hasCcs then t else TraceInput(t, shutdown, bytes, maxLen);
    var rx := ChangeCipherSpecInput(t.rx, shutdown, bytes, maxLen).0;
    assert rx == u.rx || rx == u.rx.(hasCcs := false);
    CcsFlag(u, false);
  }

  lemma CcsFlag(t: Traced, hasCcs: bool)
    requires Inv(t)
    ensures Inv(t.(rx := t.rx.(hasCcs := hasCcs)))
  {
  }

  lemma EventKeeps(t: Traced, ev: Event)
    requires Inv(t)
    ensures Inv(Next(t, ev))
  {
    match ev
    case Input(shutdown, bytes, maxLen) => InputKeeps(t, shutdown, bytes, maxLen);
    case CcsInput(shutdown, bytes, maxLen) =>
      CcsInputKeeps(t, shutdown, bytes, maxLen);
    case Take => TakeKeeps(t);
    case ReadKeys(ctx) => ReadKeysKeep(t, ctx);
  }

  // ---------------------------------------------------------------- every run

  ghost predicate Reaches(events: seq<Event>, t: Traced)
    decreases |events|
  {
    if events == [] then t == START
    else
      var last := |events| - 1;
      exists before: Traced :: Reaches(events[..last], before) && before.rx.Valid() && t == Next(before, events[last])
  }

  lemma {:induction false} ReachableInv(events: seq<Event>, t: Traced)
    requires Reaches(events, t)
    ensures Inv(t)
    decreases |events|
  {
    if events != [] {
      var last := |events| - 1;
      var before :| Reaches(events[..last], before) && before.rx.Valid() && t == Next(before, events[last]);
      ReachableInv(events[..last], before);
      EventKeeps(before, events[last]);
    }
  }

  /** Every message, delivered or still incomplete, only ever took fragments of one read epoch. */
  lemma EpochSeparation(events: seq<Event>, t: Traced, m: nat, a: nat, b: nat)
    requires Reaches(events, t) && a in t.Sources(m) && b in t.Sources(m)
    ensures a == b
  {
    ReachableInv(events, t);
  }
}
