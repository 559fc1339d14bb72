/**
What the client and the server side of a TLS 1.0 - 1.2 handshake share: messages and records, the running
transcript, asynchronous operations with their answers, the log of what an endpoint did, and the driver
that resolves what the state machine waits for.
*/
module TlsHandshake {
  import opened Wire

  datatype Kind =
    | ClientHello | HelloVerifyRequest | ServerHello | Certificate | CertificateStatus | ServerKeyExchange
    | CertificateRequest | ServerHelloDone | ClientKeyExchange | CertificateVerify | NextProto | ChannelId
    | NewSessionTicket | Finished | Unknown

  datatype Message = Message(kind: Kind, body: seq<byte>)

  /** What the record layer delivers: complete handshake messages, or ChangeCipherSpec. */
  datatype Record = Handshake(msgs: seq<Message>) | ChangeCipherSpec

  /** Operations of the application that may ask to be called again. */
  datatype Operation =
    | CertificateSelection | CertificateLookup | SessionLookup | PrivateKey | VerifyPeer | ChannelIdLookup

  datatype Answer = Retry | Refuse | Accept

  /**
  What becomes of a ChangeCipherSpec while a message is awaited: TLS refuses it, DTLS keeps it for later as
  long as its records are not protected.
  */
  datatype EarlyCcs = Refused | Awaitable | Kept

  /** ssl_hs_wait_t; `LeftForTls13` is the way out into the TLS 1.3 state machine. */
  datatype Wait =
    | Go | Flush | ReadMessage | ReadChangeCipherSpec | Blocked(op: Operation) | EarlyReturn | Failed | LeftForTls13

  datatype Event =
    | Sent(m: Message) | SentChangeCipherSpec
    | Took(m: Message)              // read, hashed and done with
    | Dropped(m: Message)           // read and not hashed: HelloVerifyRequest
    | Restart                       // the transcript starts again
    | ReadKey | WriteKey | EarlyKey // the key of one direction changed
    | PeerVerified(cert: Message, answer: Option<Answer>)   // the chain was accepted; what a callback said of it

  /** Whether a private key operation was started and has not been completed. */
  datatype KeyOp = Idle | Started

  /** Connection state outside the state machine proper. */
  datatype Io = Io(
    wait: Wait,
    keyOp: KeyOp,
    answers: seq<Answer>,           // what the application will answer, in order
    flushes: seq<bool>,             // whether the next attempts to flush get through; any later one does
    inbox: seq<Record>,             // what the peer will send, in order
    pending: seq<Message>,          // received and not yet done with
    early: EarlyCcs,
    buffer: Option<seq<Message>>,   // the handshake buffer, until it is freed
    digest: Option<seq<Message>>,   // what the handshake hash has taken in, once there is one
    log: seq<Event>)

  datatype Kx = Rsa | Ecdhe | Psk

  datatype Cipher = Cipher(certAuth: bool, psk: bool, kx: Kx)

  function Start(dtls: bool, inbox: seq<Record>, answers: seq<Answer>, flushes: seq<bool>): Io {
    Io(Go, Idle, answers, flushes, inbox, [], if dtls then Awaitable else Refused, Some([]), None, [])
  }

  // ---------------------------------------------------------------- steps the states are made of

  function Fail(io: Io): Io {
    io.(wait := Failed)
  }

  function Append(o: Option<seq<Message>>, m: Message): Option<seq<Message>> {
    if o.Some? then Some(o.value + [m]) else None
  }

  /** SSLTranscript::Update */
  function Hash(io: Io, m: Message): Io {
    io.(buffer := Append(io.buffer, m), digest := Append(io.digest, m))
  }

  /** SSLTranscript::InitHash: the hash starts with what was buffered. */
  function InitHash(io: Io): Io {
    io.(digest := io.buffer)
  }

  function FreeBuffer(io: Io): Io {
    io.(buffer := None)
  }

  /** ssl_add_message_cbb: a message is hashed when it is added to the flight. */
  function Emit(io: Io, m: Message): Io {
    Hash(io, m).(log := io.log + [Sent(m)])
  }

  /** ssl_hash_message and next_message */
  function Take(io: Io): Io
    requires io.pending != []
  {
    Hash(io, io.pending[0]).(pending := io.pending[1..], log := io.log + [Took(io.pending[0])])
  }

  function Note(io: Io, e: Event): Io {
    io.(log := io.log + [e])
  }

  /** Messages or a ChangeCipherSpec that came too early for a change of keys. */
  predicate Leftover(io: Io) {
    io.pending != [] || io.early.Kept?
  }

  /** tls1_change_cipher_state(evp_aead_open): not while anything is left over. */
  function ChangeReadKey(io: Io): Io {
    if Leftover(io) then Fail(io) else Note(io.(early := Refused), ReadKey)
  }

  /** add_change_cipher_spec and tls1_change_cipher_state(evp_aead_seal) */
  function ChangeWriteKey(io: Io): Io {
    Note(Note(io, SentChangeCipherSpec), WriteKey)
  }

  /** What the application answers when it is called; with nothing prepared it asks for another call. */
  function NextAnswer(io: Io): Answer {
    if io.answers == [] then Retry else io.answers[0]
  }

  /** Calling the application for `op`: the answer is used up, and a retry blocks the handshake. */
  function Asked(io: Io, op: Operation): Io {
    var rest := if io.answers == [] then [] else io.answers[1..];
    io.(answers := rest,
        keyOp := if !op.PrivateKey? then io.keyOp else if NextAnswer(io).Retry? then Started else Idle,
        wait := match NextAnswer(io) case Retry => Blocked(op) case Refuse => Failed case Accept => io.wait)
  }

  function Await(io: Io): Io {
    io.(wait := ReadMessage)
  }

  /** What GetFinishedMAC covers: the handshake hash. */
  function Digested(io: Io): seq<Message> {
    if io.digest.Some? then io.digest.value else []
  }

  /** The transport does not take the flight: the handshake goes on waiting. */
  predicate FlushFails(io: Io) {
    io.flushes != [] && !io.flushes[0]
  }

  function Flushed(io: Io): Io {
    io.(wait := Go, flushes := if io.flushes == [] then [] else io.flushes[1..])
  }

  /** The part of ssl_run_handshake that resolves what the state machine waits for. */
  function Resolve(io: Io): Io {
    match io.wait
    case Go => io
    case Failed => io
    case LeftForTls13 => io
    case Flush => if FlushFails(io) then io.(flushes := io.flushes[1..]) else Flushed(io)
    case EarlyReturn => io.(wait := Go)
    case Blocked(_) => io.(wait := Go)
    case ReadMessage =>
      if io.inbox == [] then io
      else if io.inbox[0].Handshake? then
        io.(wait := Go, inbox := io.inbox[1..], pending := io.pending + io.inbox[0].msgs)
      else if io.early.Refused? then Fail(io)
      else io.(wait := Go, inbox := io.inbox[1..], early := Kept)
    case ReadChangeCipherSpec =>
      if io.early.Kept? then io.(wait := Go, early := Awaitable)
      else if io.inbox == [] then io
      else if io.inbox[0].ChangeCipherSpec? then io.(wait := Go, inbox := io.inbox[1..])
      else if io.early.Refused? then Fail(io)
      else io.(inbox := io.inbox[1..], pending := io.pending + io.inbox[0].msgs)
  }

  lemma EmitLog(io: Io, m: Message)
    ensures Emit(io, m).log == io.log + [Sent(m)]
  {
  }

  lemma TakeLog(io: Io)
    requires io.pending != []
    ensures Take(io).log == io.log + [Took(io.pending[0])]
  {
  }

  // ---------------------------------------------------------------- the log

  function HashedNext(before: seq<Message>, e: Event): seq<Message> {
    match e
    case Sent(m) => before + [m]
    case Took(m) => before + [m]
    case Restart => []
    case _ => before
  }

  /** The handshake messages of a log in order: what the transcript should be. */
  function Hashed(log: seq<Event>): seq<Message> {
    if log == [] then [] else HashedNext(Hashed(log[..|log| - 1]), log[|log| - 1])
  }

  function UsedNext(before: seq<Message>, e: Event): seq<Message> {
    match e
    case Took(m) => before + [m]
    case Dropped(m) => before + [m]
    case _ => before
  }

  /** The messages an endpoint is done with, in order. */
  function Used(log: seq<Event>): seq<Message> {
    if log == [] then [] else UsedNext(Used(log[..|log| - 1]), log[|log| - 1])
  }

  /** What matters about a log: how often the keys changed, what was taken, and what was accepted. */
  datatype Facts = Facts(
    readKeys: nat, writeKeys: nat, earlyKeys: nat,
    peerFinished: nat, ownFinished: nat,
    hello: Option<Message>,            // the last ClientHello that was taken
    certificates: nat,
    certificate: Option<Message>,      // the last Certificate that was taken
    verified: Option<Message>,         // the last chain that was accepted
    exchanges: nat, exchange: Option<Message>,
    proofs: nat)                       // CertificateVerify messages that were taken

  function FactsNext(f: Facts, e: Event): Facts {
    match e
    case ReadKey => f.(readKeys := f.readKeys + 1)
    case WriteKey => f.(writeKeys := f.writeKeys + 1)
    case EarlyKey => f.(earlyKeys := f.earlyKeys + 1)
    case PeerVerified(cert, _) => f.(verified := Some(cert))
    case Sent(m) => if m.kind == Finished then f.(ownFinished := f.ownFinished + 1) else f
    case Took(m) =>
      (match m.kind
       case ClientHello => f.(hello := Some(m))
       case Finished => f.(peerFinished := f.peerFinished + 1)
       case Certificate => f.(certificates := f.certificates + 1, certificate := Some(m))
       case ServerKeyExchange => f.(exchanges := f.exchanges + 1, exchange := Some(m))
       case CertificateVerify => f.(proofs := f.proofs + 1)
       case _ => f)
    case _ => f
  }

  function FactsOf(log: seq<Event>): Facts {
    if log == [] then Facts(0, 0, 0, 0, 0, None, 0, None, None, 0, None, 0)
    else FactsNext(FactsOf(log[..|log| - 1]), log[|log| - 1])
  }

  function Count(log: seq<Event>, e: Event): nat {
    if log == [] then 0 else Count(log[..|log| - 1], e) + if log[|log| - 1] == e then 1 else 0
  }

  lemma {:induction false} FactsCount(log: seq<Event>)
    ensures FactsOf(log).readKeys == Count(log, ReadKey)
    ensures FactsOf(log).writeKeys == Count(log, WriteKey)
    ensures FactsOf(log).earlyKeys == Count(log, EarlyKey)
  {
    if log != [] { FactsCount(log[..|log| - 1]); }
  }

  lemma Last(log: seq<Event>)
    requires log != []
    ensures log == log[..|log| - 1] + [log[|log| - 1]]
  {
  }

  lemma {:induction false} ChangedIn(log: seq<Event>)
    ensures FactsOf(log).readKeys > 0 ==> ReadKey in log
    ensures FactsOf(log).writeKeys > 0 ==> WriteKey in log
    ensures FactsOf(log).verified.Some? ==> exists a :: PeerVerified(FactsOf(log).verified.value, a) in log
    ensures FactsOf(log).certificate.Some? ==> Took(FactsOf(log).certificate.value) in log
    ensures FactsOf(log).hello.Some? ==> Took(FactsOf(log).hello.value) in log
    ensures FactsOf(log).hello.Some? ==> FactsOf(log).hello.value.kind == ClientHello
  {
    if log != [] {
      Last(log);
      ChangedIn(log[..|log| - 1]);
      assert log[|log| - 1] in log;
    }
  }

  /** With at most one ServerKeyExchange taken, it is the one the facts tell of. */
  lemma {:induction false} OneExchange(log: seq<Event>, m: Message)
    requires Took(m) in log && m.kind == ServerKeyExchange
    ensures FactsOf(log).exchanges > 0 && (FactsOf(log).exchanges == 1 ==> FactsOf(log).exchange == Some(m))
  {
    Last(log);
    if Took(m) in log[..|log| - 1] { OneExchange(log[..|log| - 1], m); }
  }

  lemma {:induction false} OneCertificate(log: seq<Event>, m: Message)
    requires Took(m) in log && m.kind == Certificate
    ensures FactsOf(log).certificates > 0 && (FactsOf(log).certificates == 1 ==> FactsOf(log).certificate == Some(m))
  {
    Last(log);
    if Took(m) in log[..|log| - 1] { OneCertificate(log[..|log| - 1], m); }
  }

  lemma {:induction false} CertificateKind(log: seq<Event>)
    ensures FactsOf(log).certificate.Some? ==> FactsOf(log).certificate.value.kind == Certificate
  {
    if log != [] { CertificateKind(log[..|log| - 1]); }
  }

  lemma {:induction false} TookProof(log: seq<Event>) returns (i: nat)
    requires FactsOf(log).proofs > 0
    ensures i < |log| && log[i].Took? && log[i].m.kind == CertificateVerify
  {
    var n := |log| - 1;
    if log[n].Took? && log[n].m.kind == CertificateVerify { i := n; } else { i := TookProof(log[..n]); }
  }

  lemma {:induction false} TookFinished(log: seq<Event>) returns (i: nat)
    requires FactsOf(log).peerFinished > 0
    ensures i < |log| && log[i].Took? && log[i].m.kind == Finished
  {
    var n := |log| - 1;
    if log[n].Took? && log[n].m.kind == Finished { i := n; } else { i := TookFinished(log[..n]); }
  }

  lemma {:induction false} SentFinished(log: seq<Event>) returns (i: nat)
    requires FactsOf(log).ownFinished > 0
    ensures i < |log| && log[i].Sent? && log[i].m.kind == Finished
  {
    var n := |log| - 1;
    if log[n].Sent? && log[n].m.kind == Finished { i := n; } else { i := SentFinished(log[..n]); }
  }

  function Arriving(inbox: seq<Record>): seq<Message> {
    if inbox == [] then [] else (if inbox[0].Handshake? then inbox[0].msgs else []) + Arriving(inbox[1..])
  }

  lemma Snoc(log: seq<Event>, e: Event)
    ensures (log + [e])[..|log|] == log
    ensures Hashed(log + [e]) == HashedNext(Hashed(log), e)
    ensures Used(log + [e]) == UsedNext(Used(log), e)
    ensures FactsOf(log + [e]) == FactsNext(FactsOf(log), e)
  {
    assert (log + [e])[..|log|] == log;
  }

  /**
  One running transcript: the hash, once there is one, has taken in every message of the log exactly once and
  in order; until then the buffer has; and a buffer that is still there holds all of them.
  */
  ghost predicate OneTranscript(io: Io) {
    && (io.buffer.Some? || io.digest.Some?)
    && (io.buffer.Some? ==> io.buffer.value == Hashed(io.log))
    && (io.digest.Some? ==> io.digest.value == Hashed(io.log))
  }

  /** No message is lost, repeated or reordered on its way through an endpoint. */
  ghost predicate Conserved(io: Io, all: seq<Message>) {
    Used(io.log) + io.pending + Arriving(io.inbox) == all
  }

  lemma EmitKeeps(io: Io, m: Message, all: seq<Message>)
    requires OneTranscript(io) && Conserved(io, all)
    ensures OneTranscript(Emit(io, m)) && Conserved(Emit(io, m), all)
  {
    Snoc(io.log, Sent(m));
  }

  lemma TakeKeeps(io: Io, all: seq<Message>)
    requires OneTranscript(io) && Conserved(io, all) && io.pending != []
    ensures OneTranscript(Take(io)) && Conserved(Take(io), all)
  {
    Snoc(io.log, Took(io.pending[0]));
    assert Used(io.log) + [io.pending[0]] + io.pending[1..] == Used(io.log) + io.pending;
  }

  lemma NoteKeeps(io: Io, e: Event, all: seq<Message>)
    requires OneTranscript(io) && Conserved(io, all)
    requires !e.Sent? && !e.Took? && !e.Dropped? && !e.Restart?
    ensures OneTranscript(Note(io, e)) && Conserved(Note(io, e), all)
  {
    Snoc(io.log, e);
  }

  lemma ResolveSame(io: Io)
    ensures var r := Resolve(io);
            && r.log == io.log && r.buffer == io.buffer && r.digest == io.digest
            && (io.pending != [] ==> r.pending != [] && r.pending[0] == io.pending[0])
  {
  }

  /** Receiving moves messages from the inbox to those at hand, in order. */
  lemma ResolveMoves(io: Io)
    ensures Resolve(io).pending + Arriving(Resolve(io).inbox) == io.pending + Arriving(io.inbox)
  {
    if io.inbox != [] && Resolve(io).inbox != io.inbox {
      TakeIn(io.pending, io.inbox);
    }
  }

  lemma TakeIn(pending: seq<Message>, inbox: seq<Record>)
    requires inbox != []
    ensures pending + Arriving(inbox)
         == (if inbox[0].Handshake? then pending + inbox[0].msgs else pending) + Arriving(inbox[1..])
  {
    var first, rest := if inbox[0].Handshake? then inbox[0].msgs else [], Arriving(inbox[1..]);
    assert Arriving(inbox) == first + rest;
    Grouped(pending, first, rest);
    assert pending + [] == pending;
  }

  lemma Grouped(a: seq<Message>, b: seq<Message>, c: seq<Message>)
    ensures a + (b + c) == a + b + c
  {
  }

  lemma ResolveKeeps(io: Io, all: seq<Message>)
    requires OneTranscript(io) && Conserved(io, all)
    ensures OneTranscript(Resolve(io)) && Conserved(Resolve(io), all)
  {
    hide Hashed, Used, Arriving, Resolve;
    ResolveSame(io);
    ResolveMoves(io);
    var r := Resolve(io);
    Grouped(Used(io.log), io.pending, Arriving(io.inbox));
    Grouped(Used(io.log), r.pending, Arriving(r.inbox));
  }

  // ---------------------------------------------------------------- lawful logs

  /** When an event may follow the log before it. */
  type Law = (seq<Event>, Event) -> bool

  ghost predicate AllLegit(law: Law, log: seq<Event>) {
    log == [] || (AllLegit(law, log[..|log| - 1]) && law(log[..|log| - 1], log[|log| - 1]))
  }

  lemma {:induction false} LegitAt(law: Law, log: seq<Event>, i: nat)
    requires AllLegit(law, log) && i < |log|
    ensures law(log[..i], log[i])
  {
    if i < |log| - 1 {
      LegitAt(law, log[..|log| - 1], i);
      assert log[..|log| - 1][..i] == log[..i];
    }
  }

  lemma {:induction false} LegitBefore(law: Law, log: seq<Event>, i: nat)
    requires AllLegit(law, log) && i <= |log|
    ensures AllLegit(law, log[..i])
  {
    if i < |log| {
      LegitBefore(law, log[..|log| - 1], i);
      assert log[..|log| - 1][..i] == log[..i];
    } else {
      assert log[..i] == log;
    }
  }

  /** What both endpoints keep: the transcript, the peer's messages, and a log in which every event was lawful. */
  ghost predicate LogInv(law: Law, io: Io, all: seq<Message>) {
    OneTranscript(io) && Conserved(io, all) && AllLegit(law, io.log)
  }

  lemma GrowLog(law: Law, log: seq<Event>, e: Event)
    requires AllLegit(law, log) && law(log, e)
    ensures AllLegit(law, log + [e])
    ensures FactsOf(log + [e]) == FactsNext(FactsOf(log), e)
  {
    Snoc(log, e);
  }

  lemma Emitted(law: Law, io: Io, m: Message, all: seq<Message>)
    requires LogInv(law, io, all) && law(io.log, Sent(m))
    ensures var b := Emit(io, m);
            && LogInv(law, b, all) && FactsOf(b.log) == FactsNext(FactsOf(io.log), Sent(m))
            && b.buffer.Some? == io.buffer.Some? && b.digest.Some? == io.digest.Some?
            && b.wait == io.wait && b.pending == io.pending
  {
    EmitKeeps(io, m, all);
    GrowLog(law, io.log, Sent(m));
  }

  lemma Taken(law: Law, io: Io, all: seq<Message>)
    requires LogInv(law, io, all) && io.pending != [] && law(io.log, Took(io.pending[0]))
    ensures var b := Take(io);
            && LogInv(law, b, all) && FactsOf(b.log) == FactsNext(FactsOf(io.log), Took(io.pending[0]))
            && b.buffer.Some? == io.buffer.Some? && b.digest.Some? == io.digest.Some? && b.wait == io.wait
  {
    TakeKeeps(io, all);
    GrowLog(law, io.log, Took(io.pending[0]));
  }

  lemma Noted(law: Law, io: Io, e: Event, all: seq<Message>)
    requires LogInv(law, io, all) && law(io.log, e)
    requires !e.Sent? && !e.Took? && !e.Dropped? && !e.Restart?
    ensures var b := Note(io, e);
            && LogInv(law, b, all) && FactsOf(b.log) == FactsNext(FactsOf(io.log), e)
            && b == io.(log := b.log)
  {
    NoteKeeps(io, e, all);
    GrowLog(law, io.log, e);
  }

  lemma WaitLog(law: Law, io: Io, w: Wait, all: seq<Message>)
    requires LogInv(law, io, all)
    ensures LogInv(law, io.(wait := w), all)
  {
  }

  lemma FreeLog(law: Law, io: Io, all: seq<Message>)
    requires LogInv(law, io, all) && io.digest.Some?
    ensures LogInv(law, FreeBuffer(io), all)
  {
  }

  lemma AskedLog(law: Law, io: Io, op: Operation, all: seq<Message>)
    requires LogInv(law, io, all)
    ensures LogInv(law, Asked(io, op), all)
    ensures var a := Asked(io, op);
            a.log == io.log && a.buffer == io.buffer && a.digest == io.digest && a.pending == io.pending
  {
  }

  lemma InitLog(law: Law, io: Io, all: seq<Message>)
    requires LogInv(law, io, all) && io.buffer.Some?
    ensures LogInv(law, InitHash(io), all)
  {
  }

  lemma BufferWhole(law: Law, io: Io, all: seq<Message>)
    requires LogInv(law, io, all) && io.buffer.Some?
    ensures io.buffer.value == Hashed(io.log)
  {
  }

  lemma DigestWhole(law: Law, io: Io, all: seq<Message>)
    requires LogInv(law, io, all) && io.digest.Some?
    ensures Digested(io) == Hashed(io.log)
  {
  }

  lemma ReadKeyLog(law: Law, io: Io, all: seq<Message>)
    requires LogInv(law, io, all) && !Leftover(io) && law(io.log, ReadKey)
    ensures var b := ChangeReadKey(io);
            && LogInv(law, b, all) && FactsOf(b.log) == FactsNext(FactsOf(io.log), ReadKey)
            && b == io.(log := b.log, early := Refused)
  {
    Noted(law, io.(early := Refused), ReadKey, all);
  }

  lemma KeyedLog(law: Law, io: Io, all: seq<Message>)
    requires LogInv(law, io, all)
    requires law(io.log, SentChangeCipherSpec) && law(Note(io, SentChangeCipherSpec).log, WriteKey)
    ensures var b := ChangeWriteKey(io);
            && LogInv(law, b, all) && FactsOf(b.log) == FactsNext(FactsOf(io.log), WriteKey) && b == io.(log := b.log)
  {
    hide LogInv, FactsOf, Note;
    Noted(law, io, SentChangeCipherSpec, all);
    Noted(law, Note(io, SentChangeCipherSpec), WriteKey, all);
  }

  // ---------------------------------------------------------------- retries

  function Settled(answers: seq<Answer>): seq<Answer> {
    if answers == [] then []
    else if answers[0].Retry? then Settled(answers[1..])
    else [answers[0]] + Settled(answers[1..])
  }

  /** A connection with every trace of retries removed: only final answers, no failing flush, no waiting for a retry. */
  function Calm(io: Io): Io {
    io.(answers := Settled(io.answers), flushes := [], keyOp := Idle, wait := if io.wait.Blocked? then Go else io.wait)
  }

  lemma {:induction false} SettledTwice(answers: seq<Answer>)
    ensures Settled(Settled(answers)) == Settled(answers)
  {
    if answers != [] {
      SettledTwice(answers[1..]);
      if !answers[0].Retry? {
        assert Settled(answers)[1..] == Settled(answers[1..]);
      }
    }
  }

  /**
  A call that is answered with a retry is one that did not happen, and it uses up an answer unless there is
  none; any other call is answered alike.
  */
  lemma AskedCalm(io: Io, op: Operation)
    requires io.wait.Go?
    ensures NextAnswer(io).Retry? ==> Calm(Asked(io, op)) == Calm(io)
    ensures NextAnswer(io).Retry? && io.answers == [] ==> NextAnswer(Calm(io)).Retry?
    ensures NextAnswer(io).Retry? && io.answers != [] ==> |Asked(io, op).answers| < |io.answers|
    ensures !NextAnswer(io).Retry? ==>
              NextAnswer(Calm(io)) == NextAnswer(io) && Calm(Asked(io, op)) == Calm(Asked(Calm(io), op))
    ensures Asked(io, op).wait
         == if NextAnswer(io).Retry? then Blocked(op) else if NextAnswer(io).Refuse? then Failed else Go
    ensures var a := Asked(io, op);
            && a.pending == io.pending && a.buffer == io.buffer && a.digest == io.digest
            && a.log == io.log && a.flushes == io.flushes
  {
    SettledTwice(io.answers);
    if io.answers != [] {
      SettledTwice(io.answers[1..]);
      if !io.answers[0].Retry? {
        assert Settled(io.answers)[1..] == Settled(io.answers[1..]);
      }
    }
  }

  /** The same connection with other answers to come. */
  function Aside(io: Io, answers: seq<Answer>): Io {
    io.(answers := answers, flushes := [], keyOp := Idle)
  }

  lemma TakeAside(io: Io, answers: seq<Answer>)
    requires io.pending != []
    ensures Take(Aside(io, answers)) == Aside(Take(io), answers) && Take(io).answers == io.answers
  {
  }

  /** The next turn is a retry: the application calls again, or the transport is tried again. */
  predicate Retrying(io: Io) {
    io.wait.Blocked? || (io.wait.Flush? && FlushFails(io))
  }

  /** Receiving does not look at answers. */
  lemma ResolveAside(io: Io, answers: seq<Answer>)
    requires !Retrying(io)
    ensures Resolve(Aside(io, answers)) == Aside(Resolve(io), answers)
    ensures !Resolve(io).wait.Blocked? && Resolve(io).answers == io.answers
  {
  }

  lemma ResolveCalm(io: Io)
    requires !io.wait.Go?
    ensures Calm(Resolve(io)) == if Retrying(io) then Calm(io) else Calm(Resolve(Calm(io)))
  {
    if !Retrying(io) {
      hide Settled, Resolve;
      SettledTwice(io.answers);
      ResolveAside(io, Settled(io.answers));
    }
  }

  lemma CalmTwice(io: Io)
    ensures Calm(Calm(io)) == Calm(io)
  {
    SettledTwice(io.answers);
  }

  /** Connections that are alike but for retries stay so. */
  lemma CalmTake(x: Io, y: Io)
    requires x.pending != []
    ensures Calm(x) == Calm(y) ==> y.pending != [] && Calm(Take(x)) == Calm(Take(y))
  {
    hide Settled;
    assert Calm(x).pending == x.pending && Calm(y).pending == y.pending;
    assert Calm(x).log == x.log && Calm(y).log == y.log;
  }

  lemma CalmEmit(x: Io, y: Io, m: Message)
    ensures Calm(x) == Calm(y) ==> Calm(Emit(x, m)) == Calm(Emit(y, m))
  {
    hide Settled;
    assert Calm(x).log == x.log && Calm(y).log == y.log;
  }
}
