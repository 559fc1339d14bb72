/**
The client side of a TLS 1.0 - 1.2 handshake, state by state, and what every run of it keeps.  What the
peer's messages say, signatures, MACs and the application's configuration are parameters (`Config`); what
asynchronous callbacks answer is the list of answers of the connection.
*/
module TlsClient {
  import opened Wire
  import opened TlsHandshake

  datatype State =
    | StartConnect | EnterEarlyData | ReadHelloVerifyRequest | ReadServerHello | Tls13
    | ReadServerCertificate | ReadCertificateStatus | VerifyServerCertificate | ReadServerKeyExchange
    | ReadCertificateRequest | ReadServerHelloDone | SendClientCertificate | SendClientKeyExchange
    | SendClientCertificateVerify | SendClientFinished | FinishFlight | ReadSessionTicket
    | ProcessChangeCipherSpec | ReadServerFinished | FinishClientHandshake | Done

  /** What a well-formed ServerHello settles; `acceptable` stands for the checks of the rest of it. */
  datatype HelloInfo = HelloInfo(
    version13: bool, sameSession: bool, cipher: Cipher,
    certificateStatus: bool, ticket: bool, nextProto: bool, channelId: bool, acceptable: bool)

  datatype TicketInfo = BadTicket | EmptyTicket | NewTicket

  datatype Config = Config(
    dtls: bool,
    established: Option<Message>,                 // the certificate message of the session being renegotiated
    session: bool,                                // a session is offered for resumption
    earlyData: bool,
    hello: seq<byte>,                             // bodies of the messages this side makes
    secondHello: Message -> seq<byte>,            // the ClientHello with the cookie of a HelloVerifyRequest
    cookieOk: Message -> bool,
    parseHello: Message -> Option<HelloInfo>,
    chainOk: Message -> bool,                     // Certificate: parses, not empty, leaf fits the cipher
    statusOk: Message -> bool,
    chainTrusted: Message -> bool,                // session_verify_cert_chain
    customVerify: bool,                           // custom_verify_callback is set
    verifyNone: bool,                             // SSL_VERIFY_NONE
    exchangeOk: (Cipher, Message) -> bool,        // ServerKeyExchange parses under the cipher
    exchangeSigned: (Message, Message) -> bool,   // the key of a Certificate signed this ServerKeyExchange
    requestOk: Message -> bool,
    certCallback: bool,
    hasCertificate: bool,
    certificateFits: bool,                        // ssl_on_certificate_selected
    certificate: seq<byte>,
    keyExchange: Option<seq<byte>>,               // ClientKeyExchange, unless it cannot be made
    keyMethod: bool,                              // the private key is an asynchronous one
    sign: seq<Message> -> Option<seq<byte>>,      // CertificateVerify over the handshake buffer
    channelIdKey: bool,                           // the Channel ID key is there already
    channelIdProof: seq<Message> -> seq<byte>,
    nextProtocol: seq<byte>,
    falseStart: bool,                             // False Start is on; TLS 1.2, an AEAD cipher, a protocol agreed on
    parseTicket: Message -> TicketInfo,
    mac: (bool, seq<Message>) -> seq<byte>)       // Finished of the server (true) or client over a transcript

  /** What the ServerHello settled; fixed from then on. */
  datatype Deal = Deal(resumed: bool, cipher: Cipher, certificateStatus: bool, nextProto: bool, channelId: bool)

  datatype Ticket = NoTicket | TicketExpected
  datatype IdKey = Missing | Present

  datatype Client = Client(
    state: State, deal: Deal, ticket: Ticket, idKey: IdKey,
    peer: Option<Message>,                        // the server's Certificate
    request: Option<Message>,                     // its CertificateRequest
    io: Io)

  function New(g: Config, inbox: seq<Record>, answers: seq<Answer>, flushes: seq<bool>): Client {
    Client(StartConnect, Deal(false, Cipher(false, false, Psk), false, false, false), NoTicket,
           if g.channelIdKey then Present else Missing, None, None, Start(g.dtls, inbox, answers, flushes))
  }

  // ---------------------------------------------------------------- the states

  function Failing(c: Client): Client {
    c.(io := Fail(c.io))
  }

  function Waiting(c: Client): Client {
    c.(io := Await(c.io))
  }

  function DoStartConnect(g: Config, c: Client): Client {
    c.(state := EnterEarlyData, io := Emit(c.io, Message(ClientHello, g.hello)).(wait := Flush))
  }

  function DoEnterEarlyData(g: Config, c: Client): Client {
    if g.dtls then c.(state := ReadHelloVerifyRequest)
    else if !g.earlyData then c.(state := ReadServerHello)
    else c.(state := ReadServerHello, io := Note(Note(c.io, SentChangeCipherSpec), EarlyKey).(wait := EarlyReturn))
  }

  /** DTLS: the HelloVerifyRequest is dropped and the transcript starts again, SSLTranscript::Init. */
  function Restarting(io: Io): Io
    requires io.pending != []
  {
    Note(Note(io.(pending := io.pending[1..]), Dropped(io.pending[0])), Restart).(buffer := Some([]), digest := None)
  }

  function DoReadHelloVerifyRequest(g: Config, c: Client): Client {
    if c.io.pending == [] then Waiting(c)
    else
      var m := c.io.pending[0];
      if m.kind != HelloVerifyRequest then c.(state := ReadServerHello)
      else if !g.cookieOk(m) then Failing(c)
      else
        c.(state := ReadServerHello,
           io := Emit(Restarting(c.io), Message(ClientHello, g.secondHello(m))).(wait := Flush))
  }

  /** A certificate status may be promised under a certificate cipher only, ext_ocsp_parse_serverhello. */
  predicate Acceptable(h: HelloInfo) {
    h.acceptable && (h.certificateStatus ==> h.cipher.certAuth)
  }

  function DoReadServerHello(g: Config, c: Client): Client {
    if c.io.pending == [] then Waiting(c)
    else
      var m := c.io.pending[0];
      var info := g.parseHello(m);
      if m.kind != ServerHello || info.None? then Failing(c)
      else if info.value.version13 then c.(state := Tls13)
      else if g.earlyData || !Acceptable(info.value) then Failing(c)
      else
        var h := info.value;
        var resumed := g.session && g.established.None? && h.sameSession;
        var io := Take(InitHash(c.io));
        c.(state := if resumed then ReadSessionTicket else ReadServerCertificate,
           deal := Deal(resumed, h.cipher, h.certificateStatus, h.nextProto, h.channelId),
           ticket := if h.ticket then TicketExpected else NoTicket,
           io := if resumed || !h.cipher.certAuth then FreeBuffer(io) else io)
  }

  function DoReadServerCertificate(g: Config, c: Client): Client {
    if !c.deal.cipher.certAuth then c.(state := ReadCertificateStatus)
    else if c.io.pending == [] then Waiting(c)
    else
      var m := c.io.pending[0];
      if m.kind != Certificate || !g.chainOk(m) then Failing(c)
      else c.(state := ReadCertificateStatus, peer := Some(m), io := Take(c.io))
  }

  function DoReadCertificateStatus(g: Config, c: Client): Client {
    if !c.deal.certificateStatus then c.(state := VerifyServerCertificate)
    else if c.io.pending == [] then Waiting(c)
    else
      var m := c.io.pending[0];
      if m.kind != CertificateStatus then c.(state := VerifyServerCertificate)
      else if !g.statusOk(m) then Failing(c)
      else c.(state := VerifyServerCertificate, io := Take(c.io))
  }

  /** The chain of `peer` passes ssl_verify_peer_cert, once any callback has given its final answer. */
  predicate Accepts(g: Config, peer: Message, answer: Option<Answer>) {
    if g.established.Some? then g.established.value == peer
    else if g.customVerify then answer == Some(Accept) || (answer == Some(Refuse) && g.verifyNone)
    else g.chainTrusted(peer)
  }

  function DoVerifyServerCertificate(g: Config, c: Client): Client {
    if !c.deal.cipher.certAuth then c.(state := ReadServerKeyExchange)
    else if c.peer.None? then Failing(c)
    else
      var asks := g.established.None? && g.customVerify;
      var answer := if asks then Some(NextAnswer(c.io)) else None;
      var asked := if asks then Asked(c.io, VerifyPeer) else c.io;
      if answer == Some(Retry) then c.(io := asked)
      else if !Accepts(g, c.peer.value, answer) then c.(io := Fail(asked))
      else c.(state := ReadServerKeyExchange, io := Note(asked, PeerVerified(c.peer.value, answer)).(wait := Go))
  }

  function DoReadServerKeyExchange(g: Config, c: Client): Client {
    if c.io.pending == [] then Waiting(c)
    else
      var m := c.io.pending[0];
      if m.kind != ServerKeyExchange then
        if c.deal.cipher.kx.Ecdhe? then Failing(c) else c.(state := ReadCertificateRequest)
      else if c.deal.cipher.kx.Rsa? || !g.exchangeOk(c.deal.cipher, m) then Failing(c)
      else if c.deal.cipher.certAuth && (c.peer.None? || !g.exchangeSigned(c.peer.value, m)) then Failing(c)
      else c.(state := ReadCertificateRequest, io := Take(c.io))
  }

  function DoReadCertificateRequest(g: Config, c: Client): Client {
    if !c.deal.cipher.certAuth then c.(state := ReadServerHelloDone)
    else if c.io.pending == [] then Waiting(c)
    else
      var m := c.io.pending[0];
      if m.kind == ServerHelloDone then c.(state := ReadServerHelloDone, io := FreeBuffer(c.io))
      else if m.kind != CertificateRequest || !g.requestOk(m) then Failing(c)
      else c.(state := ReadServerHelloDone, request := Some(m), io := Take(c.io))
  }

  function DoReadServerHelloDone(g: Config, c: Client): Client {
    if c.io.pending == [] then Waiting(c)
    else
      var m := c.io.pending[0];
      if m.kind != ServerHelloDone || m.body != [] then Failing(c)
      else c.(state := SendClientCertificate, io := Take(c.io))
  }

  function DoSendClientCertificate(g: Config, c: Client): Client {
    if c.request.None? then c.(state := SendClientKeyExchange)
    else
      var asked := if g.certCallback then Asked(c.io, CertificateLookup) else c.io;
      if g.certCallback && !NextAnswer(c.io).Accept? then c.(io := asked)
      else
        var io := if g.hasCertificate then asked else FreeBuffer(asked);
        if !g.certificateFits then c.(io := Fail(asked))
        else c.(state := SendClientKeyExchange, io := Emit(io, Message(Certificate, g.certificate)))
  }

  function DoSendClientKeyExchange(g: Config, c: Client): Client {
    if g.keyExchange.None? then Failing(c)
    else c.(state := SendClientCertificateVerify, io := Emit(c.io, Message(ClientKeyExchange, g.keyExchange.value)))
  }

  function DoSendClientCertificateVerify(g: Config, c: Client): Client {
    if c.request.None? || !g.hasCertificate then c.(state := SendClientFinished)
    else
      var asked := if g.keyMethod then Asked(c.io, PrivateKey) else c.io;
      if g.keyMethod && !NextAnswer(c.io).Accept? then c.(io := asked)
      else
        var signed := if c.io.buffer.Some? then g.sign(c.io.buffer.value) else g.sign([]);
        if signed.None? then c.(io := Fail(asked))
        else c.(state := SendClientFinished, io := FreeBuffer(Emit(asked, Message(CertificateVerify, signed.value))))
  }

  /** ssl_send_finished */
  function SendFinished(g: Config, io: Io): Io {
    Emit(io, Message(Finished, g.mac(false, Digested(io))))
  }

  /** ChangeCipherSpec and what follows it under the new key. */
  function FinishedFlight(g: Config, d: Deal, io: Io): Io {
    var keyed := ChangeWriteKey(io);
    var proto := if d.nextProto then Emit(keyed, Message(NextProto, g.nextProtocol)) else keyed;
    SendFinished(g, if d.channelId then Emit(proto, Message(ChannelId, g.channelIdProof(Digested(proto)))) else proto)
  }

  function DoSendClientFinished(g: Config, c: Client): Client {
    var asks := c.deal.channelId && c.idKey.Missing?;
    var asked := if asks then Asked(c.io, ChannelIdLookup) else c.io;
    if asks && !NextAnswer(c.io).Accept? then c.(io := asked)
    else c.(state := FinishFlight, idKey := if c.deal.channelId then Present else c.idKey,
            io := FinishedFlight(g, c.deal, asked).(wait := Flush))
  }

  /** can_false_start, and not while renegotiating. */
  predicate FalseStarts(g: Config, cipher: Cipher) {
    g.falseStart && !g.dtls && cipher.kx.Ecdhe? && g.established.None?
  }

  function DoFinishFlight(g: Config, c: Client): Client {
    if c.deal.resumed then c.(state := FinishClientHandshake)
    else c.(state := ReadSessionTicket,
            io := if FalseStarts(g, c.deal.cipher) then c.io.(wait := EarlyReturn) else c.io)
  }

  function DoReadSessionTicket(g: Config, c: Client): Client {
    if c.ticket.NoTicket? then c.(state := ProcessChangeCipherSpec, io := c.io.(wait := ReadChangeCipherSpec))
    else if c.io.pending == [] then Waiting(c)
    else
      var m := c.io.pending[0];
      if m.kind != NewSessionTicket || g.parseTicket(m).BadTicket? then Failing(c)
      else c.(state := ProcessChangeCipherSpec,
              ticket := if g.parseTicket(m).EmptyTicket? then NoTicket else TicketExpected,
              io := Take(c.io).(wait := ReadChangeCipherSpec))
  }

  function DoProcessChangeCipherSpec(g: Config, c: Client): Client {
    if Leftover(c.io) then Failing(c) else c.(state := ReadServerFinished, io := ChangeReadKey(c.io))
  }

  /** ssl_get_finished: the MAC is computed before the message is hashed. */
  function DoReadServerFinished(g: Config, c: Client): Client {
    if c.io.pending == [] then Waiting(c)
    else
      var m := c.io.pending[0];
      if m.kind != Finished || m.body != g.mac(true, Digested(c.io)) then Failing(c)
      else c.(state := if c.deal.resumed then SendClientFinished else FinishClientHandshake, io := Take(c.io))
  }

  function DoFinishClientHandshake(g: Config, c: Client): Client {
    c.(state := Done)
  }

  /** The switch of ssl_client_handshake. */
  function Do(g: Config, c: Client): Client {
    match c.state
    case StartConnect => DoStartConnect(g, c)
    case EnterEarlyData => DoEnterEarlyData(g, c)
    case ReadHelloVerifyRequest => DoReadHelloVerifyRequest(g, c)
    case ReadServerHello => DoReadServerHello(g, c)
    case Tls13 => c.(io := c.io.(wait := LeftForTls13))
    case ReadServerCertificate => DoReadServerCertificate(g, c)
    case ReadCertificateStatus => DoReadCertificateStatus(g, c)
    case VerifyServerCertificate => DoVerifyServerCertificate(g, c)
    case ReadServerKeyExchange => DoReadServerKeyExchange(g, c)
    case ReadCertificateRequest => DoReadCertificateRequest(g, c)
    case ReadServerHelloDone => DoReadServerHelloDone(g, c)
    case SendClientCertificate => DoSendClientCertificate(g, c)
    case SendClientKeyExchange => DoSendClientKeyExchange(g, c)
    case SendClientCertificateVerify => DoSendClientCertificateVerify(g, c)
    case SendClientFinished => DoSendClientFinished(g, c)
    case FinishFlight => DoFinishFlight(g, c)
    case ReadSessionTicket => DoReadSessionTicket(g, c)
    case ProcessChangeCipherSpec => DoProcessChangeCipherSpec(g, c)
    case ReadServerFinished => DoReadServerFinished(g, c)
    case FinishClientHandshake => DoFinishClientHandshake(g, c)
    case Done => c
  }

  /** One turn of the driver: run a state, or resolve what the last one waits for. */
  function Step(g: Config, c: Client): Client {
    if c.io.wait.Go? then Do(g, c) else c.(io := Resolve(c.io))
  }

  function Run(g: Config, c: Client, turns: nat): Client {
    if turns == 0 then c else Step(g, Run(g, c, turns - 1))
  }

  // ---------------------------------------------------------------- what every run keeps

  /**
  When an event may happen: our Finished follows the change of the write key and covers the whole transcript,
  the peer's Finished follows the change of the read key and covers it, a CertificateVerify signs all of it,
  and a chain is accepted only if it was received and passes.
  */
  ghost predicate Legit(g: Config, before: seq<Event>, e: Event) {
    match e
    case Sent(m) =>
      && (m.kind == Finished ==> FactsOf(before).writeKeys > 0 && m.body == g.mac(false, Hashed(before)))
      && (m.kind == CertificateVerify ==> g.sign(Hashed(before)) == Some(m.body))
      && (m.kind == ChannelId ==> m.body == g.channelIdProof(Hashed(before)))
    case Took(m) => m.kind == Finished ==> FactsOf(before).readKeys > 0 && m.body == g.mac(true, Hashed(before))
    case PeerVerified(cert, answer) => FactsOf(before).certificate == Some(cert) && Vouched(g, cert, answer)
    case _ => true
  }

  /**
  A renegotiation stays with its certificate; else the callback, if there is one, must take the chain, or refuse it
  where that does not matter; else the chain must be trusted.
  */
  ghost predicate Vouched(g: Config, cert: Message, answer: Option<Answer>) {
    && (g.established.Some? ==> Some(cert) == g.established)
    && (g.established.None? && g.customVerify ==> answer == Some(Accept) || (g.verifyNone && answer == Some(Refuse)))
    && (g.established.None? && !g.customVerify ==> g.chainTrusted(cert))
  }

  ghost function Rule(g: Config): Law {
    (before: seq<Event>, e: Event) => Legit(g, before, e)
  }

  predicate PreHello(s: State) {
    s.StartConnect? || s.EnterEarlyData? || s.ReadHelloVerifyRequest? || s.ReadServerHello?
  }

  /** The read key has changed. */
  predicate ReadChanged(s: State, d: Deal) {
    || s.ReadServerFinished? || s.FinishClientHandshake? || s.Done?
    || (d.resumed && (s.SendClientFinished? || s.FinishFlight?))
  }

  predicate PeerFinished(s: State, d: Deal) {
    ReadChanged(s, d) && !s.ReadServerFinished?
  }

  /** The write key has changed and our Finished was sent. */
  predicate WriteChanged(s: State, d: Deal) {
    || s.FinishFlight? || s.FinishClientHandshake? || s.Done?
    || (!d.resumed && (s.ReadSessionTicket? || s.ProcessChangeCipherSpec? || s.ReadServerFinished?))
  }

  predicate ResumedState(s: State) {
    || s.ReadSessionTicket? || s.ProcessChangeCipherSpec? || s.ReadServerFinished? || s.SendClientFinished?
    || s.FinishFlight? || s.FinishClientHandshake? || s.Done?
  }

  /** A full handshake that has come past the server's certificate, and past its verification. */
  predicate PastCertificate(s: State, d: Deal) {
    !d.resumed && !PreHello(s) && !s.Tls13? && !s.ReadServerCertificate?
  }

  predicate PastVerify(s: State, d: Deal) {
    PastCertificate(s, d) && !s.ReadCertificateStatus? && !s.VerifyServerCertificate?
  }

  predicate BeforeRequest(s: State) {
    || s.ReadServerCertificate? || s.ReadCertificateStatus? || s.VerifyServerCertificate?
    || s.ReadServerKeyExchange? || s.ReadCertificateRequest?
  }

  /** Where the handshake buffer may still be needed for a signature. */
  predicate NeedsBuffer(g: Config, s: State, d: Deal, request: Option<Message>) {
    || PreHello(s)
    || (!d.resumed && d.cipher.certAuth && BeforeRequest(s))
    || (request.Some? && (s.ReadServerHelloDone? || s.SendClientCertificate?))
    || (request.Some? && g.hasCertificate && (s.SendClientKeyExchange? || s.SendClientCertificateVerify?))
  }

  predicate Keys(s: State, d: Deal, f: Facts) {
    && f.readKeys == (if ReadChanged(s, d) then 1 else 0)
    && f.writeKeys == (if WriteChanged(s, d) then 1 else 0)
    && f.peerFinished == (if PeerFinished(s, d) then 1 else 0)
    && f.ownFinished == (if WriteChanged(s, d) then 1 else 0)
  }

  predicate Trusted(g: Config, s: State, d: Deal, peer: Option<Message>, f: Facts) {
    && (d.resumed ==> ResumedState(s) && g.session && g.established.None?)
    && (PastCertificate(s, d) && d.cipher.certAuth ==> peer.Some? && f.certificate == peer)
    && (PastVerify(s, d) && d.cipher.certAuth ==> f.verified == peer)
    && f.exchanges <= (if PastVerify(s, d) && !s.ReadServerKeyExchange? then 1 else 0)
    && (f.exchanges > 0 && d.cipher.certAuth ==> Signed(g, peer, f.exchange))
    && (f.earlyKeys > 0 ==> g.earlyData && (PreHello(s) || s.Tls13?))
  }

  /** A ServerKeyExchange is signed by the key of the peer's certificate. */
  predicate Signed(g: Config, peer: Option<Message>, exchange: Option<Message>) {
    exchange.Some? && peer.Some? && g.exchangeSigned(peer.value, exchange.value)
  }

  predicate Buffers(g: Config, c: Client) {
    && (c.request.Some? ==> c.deal.cipher.certAuth && !c.deal.resumed && !PreHello(c.state) && !BeforeRequest(c.state))
    && (NeedsBuffer(g, c.state, c.deal, c.request) ==> c.io.buffer.Some?)
    && (!PreHello(c.state) && !c.state.Tls13? ==> c.io.digest.Some?)
  }

  ghost predicate Inv(g: Config, c: Client, all: seq<Message>) {
    && LogInv(Rule(g), c.io, all)
    && Keys(c.state, c.deal, FactsOf(c.io.log))
    && Trusted(g, c.state, c.deal, c.peer, FactsOf(c.io.log))
    && Buffers(g, c)
  }

  // ---------------------------------------------------------------- what one event does

  /** A message other than Finished, CertificateVerify and ChannelId. */
  lemma EmittedPlain(g: Config, io: Io, m: Message, all: seq<Message>)
    requires LogInv(Rule(g), io, all)
    requires m.kind != Finished && m.kind != CertificateVerify && m.kind != ChannelId
    ensures var b := Emit(io, m);
            && LogInv(Rule(g), b, all) && FactsOf(b.log) == FactsOf(io.log)
            && b.buffer.Some? == io.buffer.Some? && b.digest.Some? == io.digest.Some?
            && b.wait == io.wait && b.pending == io.pending
  {
    hide LogInv, FactsOf;
    Emitted(Rule(g), io, m, all);
  }

  lemma TakenPlain(g: Config, io: Io, all: seq<Message>)
    requires LogInv(Rule(g), io, all) && io.pending != [] && io.pending[0].kind != Finished
    ensures var b := Take(io);
            && LogInv(Rule(g), b, all) && FactsOf(b.log) == FactsNext(FactsOf(io.log), Took(io.pending[0]))
            && b.buffer.Some? == io.buffer.Some? && b.digest.Some? == io.digest.Some? && b.wait == io.wait
  {
    hide LogInv, FactsOf, Take;
    Taken(Rule(g), io, all);
  }

  // ---------------------------------------------------------------- each state keeps the invariant

  lemma Restarted(g: Config, io: Io, all: seq<Message>)
    requires LogInv(Rule(g), io, all) && io.pending != []
    ensures LogInv(Rule(g), Restarting(io), all) && FactsOf(Restarting(io).log) == FactsOf(io.log)
    ensures Restarting(io).buffer.Some? && Restarting(io).digest.None?
  {
    hide AllLegit, FactsOf, Hashed, Used, Arriving;
    var m := io.pending[0];
    GrowLog(Rule(g), io.log, Dropped(m));
    GrowLog(Rule(g), io.log + [Dropped(m)], Restart);
    Snoc(io.log, Dropped(m));
    Snoc(io.log + [Dropped(m)], Restart);
    assert [m] + io.pending[1..] == io.pending;
    Grouped(Used(io.log), [m], io.pending[1..]);
  }

  lemma FinishedLog(g: Config, io: Io, all: seq<Message>)
    requires LogInv(Rule(g), io, all) && io.digest.Some? && FactsOf(io.log).writeKeys > 0
    ensures var b := SendFinished(g, io);
            && LogInv(Rule(g), b, all)
            && FactsOf(b.log) == FactsOf(io.log).(ownFinished := FactsOf(io.log).ownFinished + 1)
            && b.buffer.Some? == io.buffer.Some? && b.digest.Some?
  {
    hide LogInv, FactsOf;
    DigestWhole(Rule(g), io, all);
    Emitted(Rule(g), io, Message(Finished, g.mac(false, Digested(io))), all);
  }

  lemma FlightLog(g: Config, d: Deal, io: Io, all: seq<Message>)
    requires LogInv(Rule(g), io, all) && io.digest.Some?
    ensures var b, f := FinishedFlight(g, d, io), FactsOf(io.log);
            && LogInv(Rule(g), b, all)
            && FactsOf(b.log) == f.(writeKeys := f.writeKeys + 1, ownFinished := f.ownFinished + 1)
            && b.buffer.Some? == io.buffer.Some? && b.digest.Some?
  {
    hide LogInv, FactsOf, ChangeWriteKey, Emit, SendFinished;
    KeyedLog(Rule(g), io, all);
    var keyed := ChangeWriteKey(io);
    EmittedPlain(g, keyed, Message(NextProto, g.nextProtocol), all);
    var proto := if d.nextProto then Emit(keyed, Message(NextProto, g.nextProtocol)) else keyed;
    var id := Message(ChannelId, g.channelIdProof(Digested(proto)));
    DigestWhole(Rule(g), proto, all);
    Emitted(Rule(g), proto, id, all);
    FinishedLog(g, if d.channelId then Emit(proto, id) else proto, all);
  }

  /** A state that waits, asks or fails changes nothing that matters. */
  lemma StallKeeps(g: Config, c: Client, io: Io, all: seq<Message>)
    requires Inv(g, c, all) && io == c.io.(wait := io.wait, answers := io.answers, keyOp := io.keyOp)
    ensures Inv(g, c.(io := io), all)
  {
    hide FactsOf, AllLegit;
  }

  lemma KeepReadServerCertificate(g: Config, c: Client, all: seq<Message>)
    requires Inv(g, c, all) && c.io.wait.Go? && c.state.ReadServerCertificate?
    ensures Inv(g, DoReadServerCertificate(g, c), all)
  {
    hide Emit, Take, Note, LogInv, FactsOf, Hashed, Used, AllLegit, Legit;
    WaitLog(Rule(g), c.io, Failed, all);
    WaitLog(Rule(g), c.io, ReadMessage, all);
    if c.io.pending != [] && c.io.pending[0].kind != Finished { TakenPlain(g, c.io, all); }
  }

  lemma KeepReadCertificateStatus(g: Config, c: Client, all: seq<Message>)
    requires Inv(g, c, all) && c.io.wait.Go? && c.state.ReadCertificateStatus?
    ensures Inv(g, DoReadCertificateStatus(g, c), all)
  {
    hide Emit, Take, Note, LogInv, FactsOf, Hashed, Used, AllLegit, Legit;
    WaitLog(Rule(g), c.io, Failed, all);
    WaitLog(Rule(g), c.io, ReadMessage, all);
    if c.io.pending != [] && c.io.pending[0].kind != Finished { TakenPlain(g, c.io, all); }
  }

  lemma KeepReadServerKeyExchange(g: Config, c: Client, all: seq<Message>)
    requires Inv(g, c, all) && c.io.wait.Go? && c.state.ReadServerKeyExchange?
    ensures Inv(g, DoReadServerKeyExchange(g, c), all)
  {
    hide Emit, Take, Note, LogInv, FactsOf, Hashed, Used, AllLegit, Legit;
    WaitLog(Rule(g), c.io, Failed, all);
    WaitLog(Rule(g), c.io, ReadMessage, all);
    if c.io.pending != [] && c.io.pending[0].kind != Finished { TakenPlain(g, c.io, all); }
  }

  lemma KeepReadCertificateRequest(g: Config, c: Client, all: seq<Message>)
    requires Inv(g, c, all) && c.io.wait.Go? && c.state.ReadCertificateRequest?
    ensures Inv(g, DoReadCertificateRequest(g, c), all)
  {
    hide Emit, Take, Note, LogInv, FactsOf, Hashed, Used, AllLegit, Legit;
    WaitLog(Rule(g), c.io, Failed, all);
    WaitLog(Rule(g), c.io, ReadMessage, all);
    if c.io.pending != [] && c.io.pending[0].kind != Finished { TakenPlain(g, c.io, all); }
    FreeLog(Rule(g), c.io, all);
  }

  lemma KeepReadServerHelloDone(g: Config, c: Client, all: seq<Message>)
    requires Inv(g, c, all) && c.io.wait.Go? && c.state.ReadServerHelloDone?
    ensures Inv(g, DoReadServerHelloDone(g, c), all)
  {
    hide Emit, Take, Note, LogInv, FactsOf, Hashed, Used, AllLegit, Legit;
    WaitLog(Rule(g), c.io, Failed, all);
    WaitLog(Rule(g), c.io, ReadMessage, all);
    if c.io.pending != [] && c.io.pending[0].kind != Finished { TakenPlain(g, c.io, all); }
  }

  lemma KeepStartConnect(g: Config, c: Client, all: seq<Message>)
    requires Inv(g, c, all) && c.io.wait.Go? && c.state.StartConnect?
    ensures Inv(g, DoStartConnect(g, c), all)
  {
    hide Emit, Take, Note, LogInv, FactsOf, Hashed, Used, AllLegit, Legit;
    EmittedPlain(g, c.io, Message(ClientHello, g.hello), all);
    WaitLog(Rule(g), Emit(c.io, Message(ClientHello, g.hello)), Flush, all);
  }

  lemma KeepEnterEarlyData(g: Config, c: Client, all: seq<Message>)
    requires Inv(g, c, all) && c.io.wait.Go? && c.state.EnterEarlyData?
    ensures Inv(g, DoEnterEarlyData(g, c), all)
  {
    hide Emit, Take, Note, LogInv, FactsOf, Hashed, Used, AllLegit;
    if !g.dtls && g.earlyData {
      Noted(Rule(g), c.io, SentChangeCipherSpec, all);
      Noted(Rule(g), Note(c.io, SentChangeCipherSpec), EarlyKey, all);
      WaitLog(Rule(g), Note(Note(c.io, SentChangeCipherSpec), EarlyKey), EarlyReturn, all);
    }
  }

  lemma KeepReadHelloVerifyRequest(g: Config, c: Client, all: seq<Message>)
    requires Inv(g, c, all) && c.io.wait.Go? && c.state.ReadHelloVerifyRequest?
    ensures Inv(g, DoReadHelloVerifyRequest(g, c), all)
  {
    hide Emit, Take, Note, Restarting, LogInv, FactsOf, Hashed, Used, AllLegit, Legit;
    WaitLog(Rule(g), c.io, Failed, all);
    WaitLog(Rule(g), c.io, ReadMessage, all);
    if c.io.pending != [] && g.cookieOk(c.io.pending[0]) {
      var m := c.io.pending[0];
      Restarted(g, c.io, all);
      EmittedPlain(g, Restarting(c.io), Message(ClientHello, g.secondHello(m)), all);
      WaitLog(Rule(g), Emit(Restarting(c.io), Message(ClientHello, g.secondHello(m))), Flush, all);
    }
  }

  lemma KeepReadServerHello(g: Config, c: Client, all: seq<Message>)
    requires Inv(g, c, all) && c.io.wait.Go? && c.state.ReadServerHello?
    ensures Inv(g, DoReadServerHello(g, c), all)
  {
    hide Emit, Take, Note, LogInv, FactsOf, Hashed, Used, AllLegit, Legit;
    WaitLog(Rule(g), c.io, Failed, all);
    WaitLog(Rule(g), c.io, ReadMessage, all);
    if c.io.pending != [] && c.io.pending[0].kind == ServerHello {
      InitLog(Rule(g), c.io, all);
      TakenPlain(g, InitHash(c.io), all);
      FreeLog(Rule(g), Take(InitHash(c.io)), all);
    }
  }

  lemma KeepVerifyServerCertificate(g: Config, c: Client, all: seq<Message>)
    requires Inv(g, c, all) && c.io.wait.Go? && c.state.VerifyServerCertificate?
    ensures Inv(g, DoVerifyServerCertificate(g, c), all)
  {
    hide Emit, Take, Note, LogInv, FactsOf, Hashed, Used, AllLegit, Asked;
    AskedLog(Rule(g), c.io, VerifyPeer, all);
    WaitLog(Rule(g), Asked(c.io, VerifyPeer), Failed, all);
    WaitLog(Rule(g), c.io, Failed, all);
    var asks := g.established.None? && g.customVerify;
    var answer := if asks then Some(NextAnswer(c.io)) else None;
    if c.deal.cipher.certAuth && Accepts(g, c.peer.value, answer) {
      var asked := if asks then Asked(c.io, VerifyPeer) else c.io;
      Noted(Rule(g), asked, PeerVerified(c.peer.value, answer), all);
      WaitLog(Rule(g), Note(asked, PeerVerified(c.peer.value, answer)), Go, all);
    }
  }

  lemma KeepSendClientCertificate(g: Config, c: Client, all: seq<Message>)
    requires Inv(g, c, all) && c.io.wait.Go? && c.state.SendClientCertificate?
    ensures Inv(g, DoSendClientCertificate(g, c), all)
  {
    hide Emit, Take, Note, LogInv, FactsOf, Hashed, Used, AllLegit, Legit, Asked;
    AskedLog(Rule(g), c.io, CertificateLookup, all);
    var asked := if g.certCallback then Asked(c.io, CertificateLookup) else c.io;
    FreeLog(Rule(g), asked, all);
    var io := if g.hasCertificate then asked else FreeBuffer(asked);
    WaitLog(Rule(g), asked, Failed, all);
    EmittedPlain(g, io, Message(Certificate, g.certificate), all);
  }

  lemma KeepSendClientKeyExchange(g: Config, c: Client, all: seq<Message>)
    requires Inv(g, c, all) && c.io.wait.Go? && c.state.SendClientKeyExchange?
    ensures Inv(g, DoSendClientKeyExchange(g, c), all)
  {
    hide Emit, Take, Note, LogInv, FactsOf, Hashed, Used, AllLegit, Legit;
    WaitLog(Rule(g), c.io, Failed, all);
    WaitLog(Rule(g), c.io, ReadMessage, all);
    if g.keyExchange.Some? { EmittedPlain(g, c.io, Message(ClientKeyExchange, g.keyExchange.value), all); }
  }

  lemma KeepSendClientCertificateVerify(g: Config, c: Client, all: seq<Message>)
    requires Inv(g, c, all) && c.io.wait.Go? && c.state.SendClientCertificateVerify?
    ensures Inv(g, DoSendClientCertificateVerify(g, c), all)
  {
    hide Emit, Take, Note, LogInv, FactsOf, Hashed, Used, AllLegit, Asked;
    AskedLog(Rule(g), c.io, PrivateKey, all);
    if c.request.Some? && g.hasCertificate {
      var asked := if g.keyMethod then Asked(c.io, PrivateKey) else c.io;
      WaitLog(Rule(g), asked, Failed, all);
      BufferWhole(Rule(g), c.io, all);
      var signed := g.sign(c.io.buffer.value);
      if signed.Some? {
        var m := Message(CertificateVerify, signed.value);
        Emitted(Rule(g), asked, m, all);
        FreeLog(Rule(g), Emit(asked, m), all);
      }
    }
  }

  lemma KeepSendClientFinished(g: Config, c: Client, all: seq<Message>)
    requires Inv(g, c, all) && c.io.wait.Go? && c.state.SendClientFinished?
    ensures Inv(g, DoSendClientFinished(g, c), all)
  {
    hide Emit, Take, Note, LogInv, FactsOf, Hashed, Used, AllLegit, Legit, Asked, FinishedFlight;
    AskedLog(Rule(g), c.io, ChannelIdLookup, all);
    var asked := if c.deal.channelId && c.idKey.Missing? then Asked(c.io, ChannelIdLookup) else c.io;
    FlightLog(g, c.deal, asked, all);
    WaitLog(Rule(g), FinishedFlight(g, c.deal, asked), Flush, all);
  }

  lemma KeepFinishFlight(g: Config, c: Client, all: seq<Message>)
    requires Inv(g, c, all) && c.io.wait.Go? && c.state.FinishFlight?
    ensures Inv(g, DoFinishFlight(g, c), all)
  {
    hide Emit, Take, Note, LogInv, FactsOf, Hashed, Used, AllLegit, Legit;
    WaitLog(Rule(g), c.io, EarlyReturn, all);
  }

  lemma TicketKeeps(g: Config, c: Client, ticket: Ticket, all: seq<Message>)
    requires Inv(g, c, all) && c.state.ReadSessionTicket?
    requires c.io.pending != [] && c.io.pending[0].kind == NewSessionTicket
    ensures Inv(g, c.(state := ProcessChangeCipherSpec, ticket := ticket,
                      io := Take(c.io).(wait := ReadChangeCipherSpec)), all)
  {
    hide Take, LogInv, FactsOf, Legit;
    TakenPlain(g, c.io, all);
    WaitLog(Rule(g), Take(c.io), ReadChangeCipherSpec, all);
  }

  lemma NoTicketKeeps(g: Config, c: Client, all: seq<Message>)
    requires Inv(g, c, all) && c.state.ReadSessionTicket?
    ensures Inv(g, c.(state := ProcessChangeCipherSpec, io := c.io.(wait := ReadChangeCipherSpec)), all)
  {
    hide LogInv, FactsOf;
    WaitLog(Rule(g), c.io, ReadChangeCipherSpec, all);
  }

  lemma KeepReadSessionTicket(g: Config, c: Client, all: seq<Message>)
    requires Inv(g, c, all) && c.io.wait.Go? && c.state.ReadSessionTicket?
    ensures Inv(g, DoReadSessionTicket(g, c), all)
  {
    hide Inv, Take;
    StallKeeps(g, c, Await(c.io), all);
    StallKeeps(g, c, Fail(c.io), all);
    NoTicketKeeps(g, c, all);
    if c.io.pending != [] && c.io.pending[0].kind == NewSessionTicket {
      TicketKeeps(g, c, if g.parseTicket(c.io.pending[0]).EmptyTicket? then NoTicket else TicketExpected, all);
    }
  }

  lemma KeepProcessChangeCipherSpec(g: Config, c: Client, all: seq<Message>)
    requires Inv(g, c, all) && c.io.wait.Go? && c.state.ProcessChangeCipherSpec?
    ensures Inv(g, DoProcessChangeCipherSpec(g, c), all)
  {
    hide Emit, Take, Note, LogInv, FactsOf, Hashed, Used, AllLegit;
    WaitLog(Rule(g), c.io, Failed, all);
    WaitLog(Rule(g), c.io, ReadMessage, all);
    if !Leftover(c.io) { ReadKeyLog(Rule(g), c.io, all); }
  }

  lemma MatchKeeps(g: Config, c: Client, all: seq<Message>)
    requires Inv(g, c, all) && c.state.ReadServerFinished?
    requires c.io.pending != [] && c.io.pending[0] == Message(Finished, g.mac(true, Digested(c.io)))
    ensures Inv(g, c.(state := if c.deal.resumed then SendClientFinished else FinishClientHandshake,
                      io := Take(c.io)), all)
  {
    hide Take, LogInv, FactsOf, Hashed;
    DigestWhole(Rule(g), c.io, all);
    Taken(Rule(g), c.io, all);
  }

  lemma KeepReadServerFinished(g: Config, c: Client, all: seq<Message>)
    requires Inv(g, c, all) && c.io.wait.Go? && c.state.ReadServerFinished?
    ensures Inv(g, DoReadServerFinished(g, c), all)
  {
    hide Inv, Take;
    StallKeeps(g, c, Await(c.io), all);
    StallKeeps(g, c, Fail(c.io), all);
    if c.io.pending != [] && c.io.pending[0] == Message(Finished, g.mac(true, Digested(c.io))) {
      MatchKeeps(g, c, all);
    }
  }

  lemma KeepFinishClientHandshake(g: Config, c: Client, all: seq<Message>)
    requires Inv(g, c, all) && c.io.wait.Go? && c.state.FinishClientHandshake?
    ensures Inv(g, DoFinishClientHandshake(g, c), all)
  {
    hide Emit, Take, Note, LogInv, FactsOf, Hashed, Used, AllLegit, Legit;
  }

  lemma KeepStep(g: Config, c: Client, all: seq<Message>)
    requires Inv(g, c, all)
    ensures Inv(g, Step(g, c), all)
  {
    hide Inv;
    if !c.io.wait.Go? {
      KeepResolve(g, c, all);
    } else {
      match c.state
      case StartConnect => KeepStartConnect(g, c, all);
      case EnterEarlyData => KeepEnterEarlyData(g, c, all);
      case ReadHelloVerifyRequest => KeepReadHelloVerifyRequest(g, c, all);
      case ReadServerHello => KeepReadServerHello(g, c, all);
      case Tls13 => KeepTls13(g, c, all);
      case ReadServerCertificate => KeepReadServerCertificate(g, c, all);
      case ReadCertificateStatus => KeepReadCertificateStatus(g, c, all);
      case VerifyServerCertificate => KeepVerifyServerCertificate(g, c, all);
      case ReadServerKeyExchange => KeepReadServerKeyExchange(g, c, all);
      case ReadCertificateRequest => KeepReadCertificateRequest(g, c, all);
      case ReadServerHelloDone => KeepReadServerHelloDone(g, c, all);
      case SendClientCertificate => KeepSendClientCertificate(g, c, all);
      case SendClientKeyExchange => KeepSendClientKeyExchange(g, c, all);
      case SendClientCertificateVerify => KeepSendClientCertificateVerify(g, c, all);
      case SendClientFinished => KeepSendClientFinished(g, c, all);
      case FinishFlight => KeepFinishFlight(g, c, all);
      case ReadSessionTicket => KeepReadSessionTicket(g, c, all);
      case ProcessChangeCipherSpec => KeepProcessChangeCipherSpec(g, c, all);
      case ReadServerFinished => KeepReadServerFinished(g, c, all);
      case FinishClientHandshake => KeepFinishClientHandshake(g, c, all);
      case Done =>
    }
  }

  lemma KeepResolve(g: Config, c: Client, all: seq<Message>)
    requires Inv(g, c, all)
    ensures Inv(g, c.(io := Resolve(c.io)), all)
  {
    hide Resolve, OneTranscript, Conserved, AllLegit, FactsOf;
    ResolveKeeps(c.io, all);
    ResolveSame(c.io);
  }

  lemma KeepTls13(g: Config, c: Client, all: seq<Message>)
    requires Inv(g, c, all) && c.state.Tls13?
    ensures Inv(g, c.(io := c.io.(wait := LeftForTls13)), all)
  {
  }

  /** Every run, over any peer messages and any answers of the application, keeps the invariant. */
  lemma {:induction false} KeepRun(g: Config, inbox: seq<Record>, answers: seq<Answer>, flushes: seq<bool>, turns: nat)
    ensures Inv(g, Run(g, New(g, inbox, answers, flushes), turns), Arriving(inbox))
  {
    hide Step;
    if turns == 0 {
      assert [] + [] + Arriving(inbox) == Arriving(inbox);
    } else {
      KeepRun(g, inbox, answers, flushes, turns - 1);
      KeepStep(g, Run(g, New(g, inbox, answers, flushes), turns - 1), Arriving(inbox));
    }
  }

  // ---------------------------------------------------------------- completion

  /** The peer's Finished was matched at position `i` of the log: after the read key changed, over everything. */
  ghost predicate PeerFinishedAt(g: Config, log: seq<Event>, i: nat) {
    && i < |log| && log[i].Took? && log[i].m.kind == Finished
    && ReadKey in log[..i] && log[i].m.body == g.mac(true, Hashed(log[..i]))
  }

  ghost predicate OwnFinishedAt(g: Config, log: seq<Event>, i: nat) {
    && i < |log| && log[i].Sent? && log[i].m.kind == Finished
    && WriteKey in log[..i] && log[i].m.body == g.mac(false, Hashed(log[..i]))
  }

  /** The chain was received and passed: it is the established one, or the callback or the built-in check took it. */
  ghost predicate ChainAccepted(g: Config, log: seq<Event>, cert: Message) {
    Took(cert) in log && exists a :: PeerVerified(cert, a) in log && Vouched(g, cert, a)
  }

  /** The server proved who it is: its chain was accepted, and the chain's key signed its key exchange. */
  ghost predicate ServerAuthenticated(g: Config, c: Client) {
    && c.peer.Some? && ChainAccepted(g, c.io.log, c.peer.value)
    && forall m: Message :: m.kind == ServerKeyExchange && Took(m) in c.io.log ==> g.exchangeSigned(c.peer.value, m)
  }

  /** What a client that is done can rely on. */
  ghost predicate Completed(g: Config, c: Client, inbox: seq<Record>) {
    var log := c.io.log;
    && Count(log, ReadKey) == 1 && Count(log, WriteKey) == 1 && Count(log, EarlyKey) == 0
    && (exists i :: PeerFinishedAt(g, log, i))
    && (exists i :: OwnFinishedAt(g, log, i))
    && (c.deal.resumed ==> g.session)
    && (!c.deal.resumed && c.deal.cipher.certAuth ==> ServerAuthenticated(g, c))
    && Digested(c.io) == Hashed(log)
    && Used(log) <= Arriving(inbox)
  }

  lemma AcceptedIn(g: Config, log: seq<Event>)
    requires AllLegit(Rule(g), log) && FactsOf(log).verified.Some? && FactsOf(log).certificate == FactsOf(log).verified
    ensures ChainAccepted(g, log, FactsOf(log).verified.value)
  {
    hide AllLegit, FactsOf, Vouched;
    ChangedIn(log);
    var cert := FactsOf(log).verified.value;
    var a :| PeerVerified(cert, a) in log;
    var k :| 0 <= k < |log| && log[k] == PeerVerified(cert, a);
    LegitAt(Rule(g), log, k);
  }

  lemma BothFinished(g: Config, log: seq<Event>)
    requires AllLegit(Rule(g), log) && FactsOf(log).peerFinished > 0 && FactsOf(log).ownFinished > 0
    ensures (exists i :: PeerFinishedAt(g, log, i)) && exists j :: OwnFinishedAt(g, log, j)
  {
    hide FactsOf, Hashed, AllLegit;
    var i := TookFinished(log);
    LegitAt(Rule(g), log, i);
    ChangedIn(log[..i]);
    assert PeerFinishedAt(g, log, i);
    var j := SentFinished(log);
    LegitAt(Rule(g), log, j);
    ChangedIn(log[..j]);
    assert OwnFinishedAt(g, log, j);
  }

  /** Completion safety: every run of the client that reaches its last state. */
  lemma CompletionSafety(g: Config, inbox: seq<Record>, answers: seq<Answer>, flushes: seq<bool>, turns: nat)
    requires Run(g, New(g, inbox, answers, flushes), turns).state.Done?
    ensures Completed(g, Run(g, New(g, inbox, answers, flushes), turns), inbox)
  {
    hide Run, FactsOf, Count, Hashed, Used, AllLegit, PeerFinishedAt, OwnFinishedAt, ChainAccepted;
    KeepRun(g, inbox, answers, flushes, turns);
    var c := Run(g, New(g, inbox, answers, flushes), turns);
    var log := c.io.log;
    FactsCount(log);
    ChangedIn(log);
    BothFinished(g, log);
    if !c.deal.resumed && c.deal.cipher.certAuth { AcceptedIn(g, log); }
    forall m: Message | m.kind == ServerKeyExchange && Took(m) in log
      ensures FactsOf(log).exchanges > 0 && FactsOf(log).exchange == Some(m)
    {
      OneExchange(log, m);
    }
  }

  /** At any point of any run: a CertificateVerify that was sent signs every message before it. */
  lemma SignsEverything(g: Config, inbox: seq<Record>, answers: seq<Answer>, flushes: seq<bool>, turns: nat, i: nat)
    requires var log := Run(g, New(g, inbox, answers, flushes), turns).io.log;
             i < |log| && log[i].Sent? && log[i].m.kind == CertificateVerify
    ensures var log := Run(g, New(g, inbox, answers, flushes), turns).io.log;
            g.sign(Hashed(log[..i])) == Some(log[i].m.body)
  {
    hide Run, Hashed, AllLegit;
    KeepRun(g, inbox, answers, flushes, turns);
    LegitAt(Rule(g), Run(g, New(g, inbox, answers, flushes), turns).io.log, i);
  }
}
