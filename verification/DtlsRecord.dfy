/** The DTLS record layer (dtls_record.cc): sealing, opening, epochs and sequence numbers. */
module DtlsRecord {
  import opened Words
  import opened Wire
  import opened Aead
  import opened ReplayWindow

  const RECORD_HEADER_LENGTH := 13
  const MAX_PLAIN_LENGTH := 16384
  const MAX_ENCRYPTED_LENGTH := 16384 + 256 + 64
  const DTLS1_VERSION_MAJOR := 0xfe

  const TYPE_CHANGE_CIPHER_SPEC: byte := 20
  const TYPE_ALERT: byte := 21
  const TYPE_HANDSHAKE: byte := 22
  const TYPE_APPLICATION_DATA: byte := 23

  // ---------------------------------------------------------------- writing

  /** The write side: current epoch, and the previous one kept alive for retransmissions. */
  datatype WriteState = WriteState(epoch: nat, ctx: Context, seqNum: nat, lastCtx: Option<Context>, lastSeqNum: nat) {
    ghost predicate Valid() {
      && epoch < LIMIT16 && seqNum < LIMIT48 && lastSeqNum < LIMIT48
      && ctx.Valid()
      && (lastCtx.Some? ==> lastCtx.value.Valid())
      && (epoch >= 1 ==> lastCtx.Some?)
    }

    /** The previous epoch exists; the source asserts this before it uses it. */
    predicate Usable(previous: bool) {
      previous ==> epoch >= 1 && lastCtx.Some?
    }

    function Epoch(previous: bool): nat
      requires Usable(previous)
    {
      if previous then epoch - 1 else epoch
    }

    function Ctx(previous: bool): Context
      requires Usable(previous)
    {
      if previous then lastCtx.value else ctx
    }

    function SeqNum(previous: bool): nat {
      if previous then lastSeqNum else seqNum
    }

    /** The eight bytes that go into the header, the additional data and the nonce. */
    function Sequence(previous: bool): (s: seq<byte>)
      requires Usable(previous)
      ensures |s| == SEQUENCE_LENGTH
    {
      ToBE(Epoch(previous), W16) + ToBE(SeqNum(previous), W48)
    }

    function Advance(previous: bool): WriteState {
      if previous then this.(lastSeqNum := Next48(lastSeqNum))
      else this.(seqNum := Next48(seqNum))
    }

    function MaxSealOverhead(previous: bool): nat
      requires Usable(previous)
    {
      RECORD_HEADER_LENGTH + Ctx(previous).MaxOverhead()
    }

    function SealPrefixLen(previous: bool): nat
      requires Usable(previous)
    {
      RECORD_HEADER_LENGTH + Ctx(previous).ExplicitNonceLen()
    }

    /** dtls1_set_write_state */
    function Install(next: Context): WriteState {
      WriteState(Next16(epoch), next, 0, Some(ctx), seqNum)
    }
  }

  /** What RAND_bytes delivers is only looked at by CBC suites. */
  predicate RandomFits(c: Context, random: seq<byte>) {
    c.Keyed? && c.randomNonce ==> |random| == c.variableNonceLen
  }

  function EncodeRecord(typ: byte, version: nat, sequence: seq<byte>, ciphertext: seq<byte>): seq<byte> {
    [typ] + ToBE(version, W16) + sequence + ToBE(|ciphertext|, W16) + ciphertext
  }

  function CipherSeal(w: WriteState, typ: byte, plain: seq<byte>, previous: bool, random: seq<byte>, maxOut: nat)
    : (r: Option<seq<byte>>)
    requires w.Valid() && w.Usable(previous) && RandomFits(w.Ctx(previous), random)
  {
    if maxOut < RECORD_HEADER_LENGTH then None
    else w.Ctx(previous).Seal(typ, w.ctx.RecordVersion(), w.Sequence(previous), plain, random,
                              maxOut - RECORD_HEADER_LENGTH)
  }

  /** dtls_seal_record: the sequence number moves on as soon as the cipher has been used. */
  function SealRecord(w: WriteState, typ: byte, plain: seq<byte>, previous: bool, random: seq<byte>, maxOut: nat)
    : (r: (WriteState, Option<seq<byte>>))
    requires w.Valid() && w.Usable(previous) && RandomFits(w.Ctx(previous), random)
    ensures r.0.Valid()
    ensures r.1.Some? ==> RECORD_HEADER_LENGTH <= |r.1.value| <= maxOut
    ensures r.1.Some? ==> |r.1.value| <= |plain| + w.MaxSealOverhead(previous)
  {
    var sealed := CipherSeal(w, typ, plain, previous, random, maxOut);
    if sealed.None? then (w, None)
    else if w.SeqNum(previous) + 1 == LIMIT48 || |sealed.value| >= LIMIT16 then (w.Advance(previous), None)
    else
      (w.Advance(previous), Some(EncodeRecord(typ, w.ctx.RecordVersion(), w.Sequence(previous), sealed.value)))
  }

  /** A big-endian counter after `++` with carry, and whether it did not run over. */
  function Increment(s: seq<byte>): (r: (seq<byte>, bool))
    ensures |r.0| == |s|
  {
    if s == [] then ([], false)
    else
      var n := |s| - 1;
      if s[n] < 255 then (s[..n] + [s[n] + 1], true)
      else var (high, ok) := Increment(s[..n]); (high + [0], ok)
  }

  lemma {:induction false} IncrementAddsOne(s: seq<byte>)
    ensures FromBE(s) < Pow2(8 * |s|)
    ensures FromBE(Increment(s).0) == if FromBE(s) + 1 == Pow2(8 * |s|) then 0 else FromBE(s) + 1
    ensures Increment(s).1 <==> FromBE(s) + 1 < Pow2(8 * |s|)
  {
    ToFromBE(s);
    if s != [] {
      hide FromBE, Pow2, Increment;
      var high, low := s[..|s| - 1], s[|s| - 1];
      IncrementAddsOne(high);
      PowByte(|high|);
      assert s == high + [low];
      IncrementSnoc(high, low);
      FromSnoc(high, low);
      if low < 255 { FromSnoc(high, low + 1); } else { FromSnoc(Increment(high).0, 0); }
    }
  }

  lemma IncrementSnoc(high: seq<byte>, low: byte)
    ensures Increment(high + [low])
         == if low < 255 then (high + [low + 1], true) else (Increment(high).0 + [0], Increment(high).1)
  {
    assert (high + [low])[..|high|] == high;
  }

  lemma FromSnoc(s: seq<byte>, b: nat)
    requires b < 256
    ensures FromBE(s + [b]) == 256 * FromBE(s) + b
  {
    assert (s + [b])[..|s|] == s;
  }

  lemma CounterStep(s: seq<byte>)
    requires |s| == W48
    ensures FromBE(s) < LIMIT48
    ensures FromBE(Increment(s).0) == Next48(FromBE(s))
    ensures Increment(s).1 <==> FromBE(s) + 1 != LIMIT48
  {
    Limit48();
    IncrementAddsOne(s);
  }

  /** Trailing 255s turn into zeros and pass the carry on. */
  lemma {:induction false} Carry(s: seq<byte>, n: nat)
    ensures Increment(s + Repeat(255, n)) == (Increment(s).0 + Repeat(0, n), Increment(s).1)
  {
    if n == 0 {
      assert s + Repeat(255, n) == s && Increment(s).0 + Repeat(0, n) == Increment(s).0;
    } else {
      Carry(s, n - 1);
      var t := s + Repeat(255, n);
      assert t[..|t| - 1] == s + Repeat(255, n - 1);
      assert Increment(s).0 + Repeat(0, n) == Increment(s).0 + Repeat(0, n - 1) + [0];
    }
  }

  function Repeat(b: byte, n: nat): seq<byte> {
    seq(n, _ => b)
  }

  /** A counter that ends in `n` 255s behind position `i`: the carry goes on past a 255, and stops elsewhere. */
  lemma CounterTurn(was: seq<byte>, from: nat, i: nat, n: nat)
    requires from <= i < |was| && n == |was| - i - 1
    requires was[from..] == was[from..i + 1] + Repeat(255, n)
    ensures was[i] == 255 ==> was[from..] == was[from..i] + Repeat(255, n + 1)
    ensures was[i] < 255 ==> Increment(was[from..]) == (was[from..i] + [was[i] + 1] + Repeat(0, n), true)
  {
    var low := was[from..i];
    assert was[from..i + 1] == low + [was[i]];
    if was[i] == 255 {
      assert Repeat(255, n + 1) == [255] + Repeat(255, n);
    } else {
      Carry(low + [was[i]], n);
      assert Increment(low + [was[i]]) == (low + [was[i] + 1], true);
    }
  }

  lemma CounterOver(was: seq<byte>, from: nat)
    requires from <= |was| && was[from..] == was[from..from] + Repeat(255, |was| - from)
    ensures Increment(was[from..]) == (Repeat(0, |was| - from), false)
  {
    Carry([], |was| - from);
    assert was[from..] == [] + Repeat(255, |was| - from);
    assert [] + Repeat(0, |was| - from) == Repeat(0, |was| - from);
  }

  /** Bytes in front, one of them new, zeros behind. */
  lemma ZerosMore(was: seq<byte>, from: nat, i: nat, b: byte, n: nat)
    requires from <= i < |was|
    ensures was[..i] + [b] + Repeat(0, n) == was[..from] + (was[from..i] + [b] + Repeat(0, n))
    ensures was[..i] + [0] + Repeat(0, n) == was[..i] + Repeat(0, n + 1)
  {
  }

  /** ssl_record_sequence_update on the bytes of `a` from `from` on. */
  method SequenceUpdate(a: array<byte>, from: nat) returns (ok: bool)
    requires from <= a.Length
    modifies a
    ensures a[..] == old(a[..from]) + Increment(old(a[from..])).0
    ensures ok == Increment(old(a[from..])).1
  {
    hide Increment, Repeat;
    ghost var was := a[..];
    var i := a.Length;
    NoneYet(was, from);
    while i > from
      invariant from <= i <= a.Length
      invariant a[..] == was[..i] + Repeat(0, a.Length - i)
      invariant was[from..] == was[from..i] + Repeat(255, a.Length - i)
    {
      i := i - 1;
      ghost var n := a.Length - i - 1;
      CounterTurn(was, from, i, n);
      a[i] := if a[i] == 255 then 0 else a[i] + 1;
      assert a[..] == was[..i] + [a[i]] + Repeat(0, n);
      ZerosMore(was, from, i, a[i], n);
      if a[i] != 0 {
        return true;
      }
    }
    CounterOver(was, from);
    return false;
  }

  lemma NoneYet(was: seq<byte>, from: nat)
    requires from <= |was|
    ensures was == was[..|was|] + Repeat(0, 0) && was[from..] == was[from..|was|] + Repeat(255, 0)
  {
  }

  class RecordWriter {
    var epoch: nat
    var ctx: Context
    var lastCtx: Option<Context>
    const writeSequence: array<byte>
    const lastWriteSequence: array<byte>

    ghost predicate Valid()
      reads this, writeSequence, lastWriteSequence
    {
      && writeSequence != lastWriteSequence
      && writeSequence.Length == lastWriteSequence.Length == SEQUENCE_LENGTH
      && writeSequence[0] == writeSequence[1] == 0
      && lastWriteSequence[0] == lastWriteSequence[1] == 0
      && State().Valid()
    }

    ghost function State(): WriteState
      requires writeSequence.Length == lastWriteSequence.Length == SEQUENCE_LENGTH
      reads this, writeSequence, lastWriteSequence
    {
      WriteState(epoch, ctx, FromBE(writeSequence[2..]), lastCtx, FromBE(lastWriteSequence[2..]))
    }

    constructor ()
      ensures Valid() && fresh(writeSequence) && fresh(lastWriteSequence)
      ensures State() == WriteState(0, Null(0), 0, None, 0)
    {
      epoch, ctx, lastCtx := 0, Null(0), None;
      writeSequence := new byte[SEQUENCE_LENGTH](_ => 0);
      lastWriteSequence := new byte[SEQUENCE_LENGTH](_ => 0);
      new;
      assert writeSequence[2..] == lastWriteSequence[2..] == ToBE(0, W48);
      FromToBE(0, W48);
    }

    method Seal(typ: byte, plain: seq<byte>, previous: bool, random: seq<byte>, maxOut: nat)
      returns (out: Option<seq<byte>>)
      requires Valid() && State().Usable(previous) && RandomFits(State().Ctx(previous), random)
      modifies writeSequence, lastWriteSequence
      ensures Valid()
      ensures (State(), out) == SealRecord(old(State()), typ, plain, previous, random, maxOut)
    {
      hide Context.Seal, Context.RecordVersion, Increment, FromBE, ToBE;
      var epochUsed, aead, sequence := epoch, ctx, writeSequence;
      if previous {
        epochUsed, aead, sequence := epoch - 1, lastCtx.value, lastWriteSequence;
      }
      if maxOut < RECORD_HEADER_LENGTH {
        return None;
      }
      var recordVersion := ctx.RecordVersion();
      var header := ToBE(epochUsed, W16) + sequence[2..];
      ghost var before := State();
      ghost var counter := sequence[2..];
      ToFromBE(counter);
      assert header == before.Sequence(previous);
      var sealed := aead.Seal(typ, recordVersion, header, plain, random, maxOut - RECORD_HEADER_LENGTH);
      assert sealed == CipherSeal(before, typ, plain, previous, random, maxOut);
      if sealed.None? {
        return None;
      }
      CounterStep(counter);
      var ok := SequenceUpdate(sequence, 2);
      assert sequence[2..] == Increment(counter).0;
      assert State() == before.Advance(previous);
      if !ok || |sealed.value| >= LIMIT16 {
        return None;
      }
      return Some([typ] + ToBE(recordVersion, W16) + header + ToBE(|sealed.value|, W16) + sealed.value);
    }

    /** dtls1_set_write_state */
    method SetWriteState(next: Context)
      requires Valid() && next.Valid()
      modifies this, writeSequence, lastWriteSequence
      ensures Valid() && State() == old(State()).Install(next)
    {
      epoch := Next16(epoch);
      assert FromBE(writeSequence[2..]) < LIMIT48;
      forall i | 0 <= i < SEQUENCE_LENGTH { lastWriteSequence[i] := writeSequence[i]; }
      assert lastWriteSequence[2..] == old(writeSequence[2..]);
      forall i | 0 <= i < SEQUENCE_LENGTH { writeSequence[i] := 0; }
      assert writeSequence[2..] == ToBE(0, W48);
      FromToBE(0, W48);
      lastCtx := Some(ctx);
      ctx := next;
      assert lastWriteSequence[2..] == old(writeSequence[2..]);
    }
  }

  // ---------------------------------------------------------------- reading

  datatype ReadState = ReadState(epoch: nat, ctx: Context, seen: Seen)

  datatype Opened =
    | CloseNotify
    | NeedMore
    | Dropped(consumed: nat)
    | TooLong(consumed: nat)
    | AlertRecord(consumed: nat, plain: seq<byte>)
    | Record(consumed: nat, typ: byte, plain: seq<byte>)
  {
    /** Bytes of the input that are done with. */
    function Consumed(): nat {
      if CloseNotify? || NeedMore? then 0 else consumed
    }
  }

  predicate VersionOk(c: Context, version: nat) {
    if c.Null? then version / 256 == DTLS1_VERSION_MAJOR else version == c.RecordVersion()
  }

  /** A record header with its body, if the input starts with a complete one that is not too long. */
  function ParseRecord(input: seq<byte>): (r: Option<(byte, nat, seq<byte>, seq<byte>)>)
    ensures r.Some? ==> |r.value.2| == SEQUENCE_LENGTH && RECORD_HEADER_LENGTH + |r.value.3| <= |input|
  {
    if |input| < RECORD_HEADER_LENGTH then None
    else
      var len := FromBE(input[11..13]);
      if |input| < RECORD_HEADER_LENGTH + len || len > MAX_ENCRYPTED_LENGTH then None
      else Some((input[0], FromBE(input[1..3]), input[3..11], input[13..13 + len]))
  }

  /** dtls_open_record */
  function OpenRecord(r: ReadState, shutdown: bool, input: seq<byte>): (res: (ReadState, Opened))
    requires r.ctx.Valid()
    ensures res.0.ctx == r.ctx && res.0.epoch == r.epoch
    ensures res.1.Record? ==> 0 < res.1.consumed <= |input| && |res.1.plain| <= MAX_PLAIN_LENGTH
  {
    if shutdown then (r, CloseNotify)
    else if input == [] then (r, NeedMore)
    else
      var parsed := ParseRecord(input);
      if parsed.None? then (r, Dropped(|input|))
      else
        var (typ, version, sequence, body) := parsed.value;
        if !VersionOk(r.ctx, version) then (r, Dropped(|input|))
        else
          var consumed := RECORD_HEADER_LENGTH + |body|;
          if FromBE(sequence[..2]) != r.epoch || r.seen.Rejects(FromBE(sequence)) then (r, Dropped(consumed))
          else
            var plain := r.ctx.Open(typ, version, sequence, body);
            if plain.None? then (r, Dropped(consumed))
            else if |plain.value| > MAX_PLAIN_LENGTH then (r, TooLong(consumed))
            else
              var next := r.(seen := r.seen.Add(FromBE(sequence)));
              if typ == TYPE_ALERT then (next, AlertRecord(consumed, plain.value))
              else (next, Record(consumed, typ, plain.value))
  }

  class RecordReader {
    var epoch: nat
    var ctx: Context
    var readShutdown: bool
    const bitmap: Bitmap

    ghost predicate Valid()
      reads this, bitmap
    {
      bitmap.Valid() && ctx.Valid()
    }

    ghost function State(): ReadState
      reads this, bitmap
    {
      ReadState(epoch, ctx, bitmap.seen)
    }

    constructor ()
      ensures Valid() && fresh(bitmap)
      ensures State() == ReadState(0, Null(0), EMPTY) && !readShutdown
    {
      epoch, ctx, readShutdown := 0, Null(0), false;
      bitmap := new Bitmap();
    }

    method Open(input: seq<byte>) returns (r: Opened)
      requires Valid()
      modifies bitmap
      ensures Valid()
      ensures (State(), r) == OpenRecord(old(State()), readShutdown, input)
    {
      if readShutdown {
        return CloseNotify;
      }
      if input == [] {
        return NeedMore;
      }
      var parsed := ParseRecord(input);
      if parsed.None? || !VersionOk(ctx, parsed.value.1) {
        return Dropped(|input|);
      }
      var (typ, version, sequence, body) := parsed.value;
      var consumed := RECORD_HEADER_LENGTH + |body|;
      if FromBE(sequence[..2]) != epoch {
        return Dropped(consumed);
      }
      var replay := bitmap.ShouldDiscard(FromBE(sequence));
      if replay {
        return Dropped(consumed);
      }
      var plain := ctx.Open(typ, version, sequence, body);
      if plain.None? {
        return Dropped(consumed);
      }
      if |plain.value| > MAX_PLAIN_LENGTH {
        return TooLong(consumed);
      }
      bitmap.Record(FromBE(sequence));
      if typ == TYPE_ALERT {
        return AlertRecord(consumed, plain.value);
      }
      return Record(consumed, typ, plain.value);
    }

    /** The record-layer half of dtls1_set_read_state. */
    method NextEpoch(next: Context)
      requires Valid() && next.Valid()
      modifies this, bitmap
      ensures Valid() && readShutdown == old(readShutdown)
      ensures State() == ReadState(Next16(old(epoch)), next, EMPTY)
    {
      epoch := Next16(epoch);
      bitmap.Clear();
      ctx := next;
    }
  }

  // ---------------------------------------------------------------- round trip

  /** Equal but for the version that a null cipher was told. */
  ghost predicate SameKeys(a: Context, b: Context) {
    a == b || (a.Null? && b.Null?)
  }

  /** The fields come back from an encoded record, whatever follows it. */
  lemma ParseEncoded(typ: byte, version: nat, sequence: seq<byte>, ciphertext: seq<byte>, rest: seq<byte>)
    requires version < LIMIT16 && |sequence| == SEQUENCE_LENGTH && |ciphertext| < LIMIT16
    ensures ParseRecord(EncodeRecord(typ, version, sequence, ciphertext) + rest)
         == if |ciphertext| <= MAX_ENCRYPTED_LENGTH then Some((typ, version, sequence, ciphertext)) else None
    ensures |EncodeRecord(typ, version, sequence, ciphertext)| == RECORD_HEADER_LENGTH + |ciphertext|
  {
    var input := EncodeRecord(typ, version, sequence, ciphertext) + rest;
    FromTo16(version);
    FromTo16(|ciphertext|);
    assert input[0] == typ;
    assert input[1..3] == ToBE(version, W16);
    assert input[3..11] == sequence;
    assert input[11..13] == ToBE(|ciphertext|, W16);
    assert input[13..13 + |ciphertext|] == ciphertext;
  }

  /** The header of a record by its bytes: section 4.1 of RFC 6347. */
  lemma RecordBytes(w: WriteState, typ: byte, plain: seq<byte>, previous: bool, random: seq<byte>, maxOut: nat)
    requires w.Valid() && w.Usable(previous) && RandomFits(w.Ctx(previous), random)
    requires SealRecord(w, typ, plain, previous, random, maxOut).1.Some?
    ensures var record := SealRecord(w, typ, plain, previous, random, maxOut).1.value;
            && |record| >= 13 && record[0] == typ
            && FromBE(record[1..3]) == (if w.ctx == Null(0) then 0xfeff else w.ctx.version)
            && FromBE(record[3..5]) == (if previous then w.epoch - 1 else w.epoch)
            && FromBE(record[5..11]) == (if previous then w.lastSeqNum else w.seqNum)
            && FromBE(record[11..13]) == |record| - 13
  {
    hide FromBE, ToBE, Pow2, Context.Seal;
    var record := SealRecord(w, typ, plain, previous, random, maxOut).1.value;
    var sealed := CipherSeal(w, typ, plain, previous, random, maxOut).value;
    FromTo16(w.ctx.RecordVersion());
    FromTo16(w.Epoch(previous));
    Limit48();
    FromToBE(w.SeqNum(previous), W48);
    FromTo16(|sealed|);
    assert record[1..3] == ToBE(w.ctx.RecordVersion(), W16);
    assert record[3..5] == ToBE(w.Epoch(previous), W16);
    assert record[5..11] == ToBE(w.SeqNum(previous), W48);
    assert record[11..13] == ToBE(|sealed|, W16);
  }

  /** Without protection only the major version counts, DTLS 1.x being 0xfe; then it is the one that was settled. */
  predicate Speaks(c: Context, version: nat) {
    if c.Null? then 0xfe00 <= version < 0xff00 else version == c.version
  }

  lemma VersionSpeaks(c: Context, version: nat)
    ensures VersionOk(c, version) <==> Speaks(c, version)
  {
  }

  /**
  What a reader makes of a sealed record, followed by anything: with another version, or longer than it takes, the
  rest of the input is dropped with it; of another epoch, or a replay, it is dropped; else it is opened to exactly
  what was sealed.
  */
  lemma OpenSealedRecord(w: WriteState, typ: byte, plain: seq<byte>, previous: bool, random: seq<byte>, maxOut: nat,
                         r: ReadState, rest: seq<byte>)
    requires w.Valid() && w.Usable(previous) && RandomFits(w.Ctx(previous), random)
    requires SealRecord(w, typ, plain, previous, random, maxOut).1.Some?
    requires r.ctx.Valid() && (r.epoch == w.Epoch(previous) ==> SameKeys(r.ctx, w.Ctx(previous)))
    ensures var record := SealRecord(w, typ, plain, previous, random, maxOut).1.value;
            var n := FromBE(w.Sequence(previous));
            var next := r.(seen := r.seen.Add(n));
            OpenRecord(r, false, record + rest)
            == if !Speaks(r.ctx, w.ctx.RecordVersion()) || |record| > 13 + 16704
               then (r, Dropped(|record + rest|))
               else if r.epoch != w.Epoch(previous) || r.seen.Rejects(n) then (r, Dropped(|record|))
               else if |plain| > 16384 then (r, TooLong(|record|))
               else if typ == TYPE_ALERT then (next, AlertRecord(|record|, plain))
               else (next, Record(|record|, typ, plain))
  {
    VersionSpeaks(r.ctx, w.ctx.RecordVersion());
    hide SealRecord, ParseRecord, FromBE, WriteState.Sequence, Context.RecordVersion, Context.Valid, VersionOk, Speaks;
    var record := SealRecord(w, typ, plain, previous, random, maxOut).1.value;
    var sealed := SealedParses(w, typ, plain, previous, random, maxOut, rest);
    if r.epoch == w.Epoch(previous) {
      OpenSealed(r.ctx, typ, w.ctx.RecordVersion(), w.Sequence(previous), plain, random, maxOut - RECORD_HEADER_LENGTH);
    }
  }

  /** A sealed record, whatever follows it, is taken apart into what was sealed. */
  lemma SealedParses(w: WriteState, typ: byte, plain: seq<byte>, previous: bool, random: seq<byte>, maxOut: nat,
                     rest: seq<byte>)
    returns (sealed: seq<byte>)
    requires w.Valid() && w.Usable(previous) && RandomFits(w.Ctx(previous), random)
    requires SealRecord(w, typ, plain, previous, random, maxOut).1.Some?
    ensures maxOut >= RECORD_HEADER_LENGTH && CipherSeal(w, typ, plain, previous, random, maxOut) == Some(sealed)
    ensures var record := SealRecord(w, typ, plain, previous, random, maxOut).1.value;
            && |record| == RECORD_HEADER_LENGTH + |sealed|
            && ParseRecord(record + rest)
            == if |sealed| <= MAX_ENCRYPTED_LENGTH then Some((typ, w.ctx.RecordVersion(), w.Sequence(previous), sealed))
               else None
    ensures FromBE(w.Sequence(previous)[..2]) == w.Epoch(previous)
  {
    sealed := CipherSeal(w, typ, plain, previous, random, maxOut).value;
    ParseEncoded(typ, w.ctx.RecordVersion(), w.Sequence(previous), sealed, rest);
    FromTo16(w.Epoch(previous));
    assert w.Sequence(previous)[..2] == ToBE(w.Epoch(previous), W16);
  }
}
