/**
The server side of a TLS 1.0 - 1.2 handshake, state by state, and what every run of it keeps.  What the
client's messages say, signatures, MACs and the application's configuration are parameters (`Config`); what
asynchronous callbacks answer is the list of answers of the connection.
*/
module TlsServer {
  import opened Wire
  import opened TlsHandshake

  datatype State =
    | StartAccept | ReadClientHello | SelectCertificate | Tls13 | SelectParameters | SendServerHello
    | SendServerCertificate | SendServerKeyExchange | SendServerHelloDone | ReadClientCertificate
    | VerifyClientCertificate | ReadClientKeyExchange | ReadClientCertificateVerify | AwaitChangeCipherSpec
    | ProcessChangeCipherSpec | ReadNextProto | ReadChannelId | ReadClientFinished | SendServerFinished
    | FinishServerHandshake | Done

  /** What a ClientHello offers. */
  datatype HelloInfo = HelloInfo(version13: bool, nextProto: bool, channelId: bool, status: bool, acceptable: bool)

  /** What the session lookup comes to: a session that will be resumed, or none. */
  datatype Lookup = BadLookup | NoSession(tickets: bool) | Found(renew: bool, keepsChannelId: bool)

  datatype Config = Config(
    dtls: bool,
    parseHello: Message -> Option<HelloInfo>,
    selectCallback: bool,
    certCallback: bool,
    certificateFits: bool,                        // ssl_on_certificate_selected
    chooseCipher: Message -> Option<Cipher>,      // ssl3_choose_cipher
    lookupCallback: bool,                         // the session lookup is asynchronous
    lookup: Message -> Lookup,
    verifyPeer: bool,                             // SSL_VERIFY_PEER
    unlessChannelId: bool,                        // SSL_VERIFY_PEER_IF_NO_OBC
    requireCertificate: bool,                     // SSL_VERIFY_FAIL_IF_NO_PEER_CERT
    hello: seq<byte>,                             // bodies of the messages this side makes
    hasCertificate: bool,
    certificate: seq<byte>,
    status: seq<byte>,
    identityHint: bool,                           // psk_identity_hint is set
    paramsOk: bool,                               // a shared group and a key share for it
    hasPrivateKey: bool,
    keyMethod: bool,                              // the private key is an asynchronous one
    exchange: Option<seq<byte>>,                  // ServerKeyExchange with its signature, unless that fails
    request: seq<byte>,
    chainOk: Message -> bool,
    chainEmpty: Message -> bool,
    chainTrusted: Message -> bool,                // session_verify_cert_chain
    customVerify: bool,                           // custom_verify_callback is set
    verifyNone: bool,                             // SSL_VERIFY_NONE
    exchangeOk: (Cipher, Message) -> bool,        // ClientKeyExchange parses
    secretOk: (Cipher, Message) -> bool,          // and its secret is found
    provesKey: (Message, seq<Message>, Message) -> bool,   // CertificateVerify by a chain's key over a transcript
    nextProtoOk: Message -> bool,
    channelIdOk: (seq<Message>, Message) -> bool,
    ticket: Option<seq<byte>>,                    // NewSessionTicket, unless it cannot be made
    mac: (bool, seq<Message>) -> seq<byte>)       // Finished of the server (true) or client over a transcript

  /** What was settled for this handshake. */
  datatype Deal = Deal(resumed: bool, cipher: Cipher, requested: bool, keepsChannelId: bool)

  datatype Ticket = NoTicket | TicketExpected
  datatype Params = NoParams | ParamsReady
  datatype ChannelIdUse = NoChannelId | WithChannelId

  datatype Server = Server(
    state: State, deal: Deal, ticket: Ticket, params: Params, channelId: ChannelIdUse,
    hello: Option<HelloInfo>,
    peer: Option<Message>,                        // the client's Certificate, if its chain is not empty
    io: Io)

  function New(g: Config, inbox: seq<Record>, answers: seq<Answer>, flushes: seq<bool>): Server {
    Server(StartAccept, Deal(false, Cipher(false, false, Psk), false, false), NoTicket, NoParams, NoChannelId,
           None, None, Start(g.dtls, inbox, answers, flushes))
  }

  // ---------------------------------------------------------------- the states

  function Failing(c: Server): Server {
    c.(io := Fail(c.io))
  }

  function Waiting(c: Server): Server {
    c.(io := Await(c.io))
  }

  function DoStartAccept(g: Config, c: Server): Server {
    c.(state := ReadClientHello)
  }

  function DoReadClientHello(g: Config, c: Server): Server {
    if c.io.pending == [] then Waiting(c)
    else
      var m := c.io.pending[0];
      var info := g.parseHello(m);
      if m.kind != ClientHello || info.None? then Failing(c)
      else
        var asked := if g.selectCallback then Asked(c.io, CertificateSelection) else c.io;
        if g.selectCallback && !NextAnswer(c.io).Accept? then c.(io := asked)
        else if !info.value.acceptable then c.(io := Fail(asked))
        else c.(state := SelectCertificate, hello := info,
                channelId := if info.value.channelId then WithChannelId else NoChannelId, io := asked)
  }

  function DoSelectCertificate(g: Config, c: Server): Server {
    if c.io.pending == [] then Waiting(c)
    else
      var asked := if g.certCallback then Asked(c.io, CertificateLookup) else c.io;
      var cipher := g.chooseCipher(c.io.pending[0]);
      if g.certCallback && !NextAnswer(c.io).Accept? then c.(io := asked)
      else if !g.certificateFits || c.hello.None? then c.(io := Fail(asked))
      else if c.hello.value.version13 then c.(state := Tls13, io := asked)
      else if cipher.None? then c.(io := Fail(asked))
      else c.(state := SelectParameters, deal := Deal(false, cipher.value, false, false), io := asked)
  }

  /** Whether a full handshake asks for a client certificate. */
  predicate Requests(g: Config, c: Server) {
    g.verifyPeer && !(g.unlessChannelId && c.channelId.WithChannelId?) && c.deal.cipher.certAuth
  }

  function DealFor(found: Lookup, d: Deal, requests: bool): Deal {
    if found.Found? then Deal(true, d.cipher, false, found.keepsChannelId) else Deal(false, d.cipher, requests, true)
  }

  /** The handshake that the session lookup came to; the ClientHello is hashed now. */
  function Settle(g: Config, c: Server, found: Lookup): Server
    requires c.io.pending != [] && !found.BadLookup?
  {
    var deal := DealFor(found, c.deal, Requests(g, c));
    var io := Take(InitHash(c.io));
    c.(state := SendServerHello, deal := deal,
       ticket := if (if found.Found? then found.renew else found.tickets) then TicketExpected else NoTicket,
       io := if deal.requested then io else FreeBuffer(io))
  }

  function DoSelectParameters(g: Config, c: Server): Server {
    if c.io.pending == [] then Waiting(c)
    else
      var asked := if g.lookupCallback then Asked(c.io, SessionLookup) else c.io;
      var found := g.lookup(c.io.pending[0]);
      if g.lookupCallback && !NextAnswer(c.io).Accept? then c.(io := asked)
      else if found.BadLookup? then c.(io := Fail(asked))
      else Settle(g, c.(io := asked), found)
  }

  function DoSendServerHello(g: Config, c: Server): Server {
    c.(state := if c.deal.resumed then SendServerFinished else SendServerCertificate,
       channelId := if c.deal.cipher.kx.Ecdhe? && c.deal.keepsChannelId then c.channelId else NoChannelId,
       io := Emit(c.io, Message(ServerHello, g.hello)))
  }

  /** Certificate and CertificateStatus. */
  function CertificateFlight(g: Config, c: Server): Io {
    var io := Emit(c.io, Message(Certificate, g.certificate));
    if c.hello.Some? && c.hello.value.status then Emit(io, Message(CertificateStatus, g.status)) else io
  }

  function DoSendServerCertificate(g: Config, c: Server): Server {
    if c.deal.cipher.certAuth && !g.hasCertificate then Failing(c)
    else
      var io := if c.deal.cipher.certAuth then CertificateFlight(g, c) else c.io;
      var needed := c.deal.cipher.kx.Ecdhe? || (c.deal.cipher.psk && g.identityHint);
      if needed && !g.paramsOk then Failing(c)
      else c.(state := SendServerKeyExchange, params := if needed then ParamsReady else NoParams, io := io)
  }

  function DoSendServerKeyExchange(g: Config, c: Server): Server {
    if c.params.NoParams? then c.(state := SendServerHelloDone)
    else if c.deal.cipher.certAuth && !g.hasPrivateKey then Failing(c)
    else
      var asks := c.deal.cipher.certAuth && g.keyMethod;
      var asked := if asks then Asked(c.io, PrivateKey) else c.io;
      if asks && !NextAnswer(c.io).Accept? then c.(io := asked)
      else if g.exchange.None? then c.(io := Fail(asked))
      else c.(state := SendServerHelloDone, params := NoParams,
              io := Emit(asked, Message(ServerKeyExchange, g.exchange.value)))
  }

  function DoSendServerHelloDone(g: Config, c: Server): Server {
    var io := if c.deal.requested then Emit(c.io, Message(CertificateRequest, g.request)) else c.io;
    c.(state := ReadClientCertificate, io := Emit(io, Message(ServerHelloDone, [])).(wait := Flush))
  }

  function DoReadClientCertificate(g: Config, c: Server): Server {
    if !c.deal.requested then c.(state := VerifyClientCertificate)
    else if c.io.pending == [] then Waiting(c)
    else
      var m := c.io.pending[0];
      if m.kind != Certificate || !g.chainOk(m) then Failing(c)
      else if !g.chainEmpty(m) then c.(state := VerifyClientCertificate, peer := Some(m), io := Take(c.io))
      else if g.requireCertificate then Failing(c)
      else c.(state := VerifyClientCertificate, io := FreeBuffer(Take(c.io)))
  }

  /** The client's chain passes ssl_verify_peer_cert, once any callback has given its final answer. */
  predicate Accepts(g: Config, peer: Message, answer: Option<Answer>) {
    if g.customVerify then answer == Some(Accept) || (answer == Some(Refuse) && g.verifyNone)
    else g.chainTrusted(peer)
  }

  function DoVerifyClientCertificate(g: Config, c: Server): Server {
    if c.peer.None? then c.(state := ReadClientKeyExchange)
    else
      var asked := if g.customVerify then Asked(c.io, VerifyPeer) else c.io;
      var answer := if g.customVerify then Some(NextAnswer(c.io)) else None;
      if answer == Some(Retry) then c.(io := asked)
      else if !Accepts(g, c.peer.value, answer) then c.(io := Fail(asked))
      else c.(state := ReadClientKeyExchange, io := Note(asked, PeerVerified(c.peer.value, answer)).(wait := Go))
  }

  function DoReadClientKeyExchange(g: Config, c: Server): Server {
    if c.io.pending == [] then Waiting(c)
    else
      var m := c.io.pending[0];
      var asks := c.deal.cipher.kx.Rsa? && g.keyMethod;
      var asked := if asks then Asked(c.io, PrivateKey) else c.io;
      if m.kind != ClientKeyExchange || !g.exchangeOk(c.deal.cipher, m) then Failing(c)
      else if asks && !NextAnswer(c.io).Accept? then c.(io := asked)
      else if !g.secretOk(c.deal.cipher, m) then c.(io := Fail(asked))
      else c.(state := ReadClientCertificateVerify, io := Take(asked))
  }

  /** The signature is checked over the handshake buffer, before the message itself is hashed. */
  function DoReadClientCertificateVerify(g: Config, c: Server): Server {
    if c.peer.None? then c.(state := AwaitChangeCipherSpec, io := FreeBuffer(c.io))
    else if c.io.pending == [] then Waiting(c)
    else
      var m := c.io.pending[0];
      var signed := if c.io.buffer.Some? then c.io.buffer.value else [];
      if m.kind != CertificateVerify || !g.provesKey(c.peer.value, signed, m) then Failing(c)
      else c.(state := AwaitChangeCipherSpec, io := Take(FreeBuffer(c.io)))
  }

  function DoAwaitChangeCipherSpec(g: Config, c: Server): Server {
    c.(state := ProcessChangeCipherSpec, io := c.io.(wait := ReadChangeCipherSpec))
  }

  function DoProcessChangeCipherSpec(g: Config, c: Server): Server {
    if Leftover(c.io) then Failing(c) else c.(state := ReadNextProto, io := ChangeReadKey(c.io))
  }

  function DoReadNextProto(g: Config, c: Server): Server {
    if c.hello.None? || !c.hello.value.nextProto then c.(state := ReadChannelId)
    else if c.io.pending == [] then Waiting(c)
    else
      var m := c.io.pending[0];
      if m.kind != NextProto || !g.nextProtoOk(m) then Failing(c)
      else c.(state := ReadChannelId, io := Take(c.io))
  }

  function DoReadChannelId(g: Config, c: Server): Server {
    if c.channelId.NoChannelId? then c.(state := ReadClientFinished)
    else if c.io.pending == [] then Waiting(c)
    else
      var m := c.io.pending[0];
      if m.kind != ChannelId || !g.channelIdOk(Digested(c.io), m) then Failing(c)
      else c.(state := ReadClientFinished, io := Take(c.io))
  }

  /** ssl_get_finished: the MAC is computed before the message is hashed. */
  function DoReadClientFinished(g: Config, c: Server): Server {
    if c.io.pending == [] then Waiting(c)
    else
      var m := c.io.pending[0];
      if m.kind != Finished || m.body != g.mac(false, Digested(c.io)) then Failing(c)
      else c.(state := if c.deal.resumed then FinishServerHandshake else SendServerFinished, io := Take(c.io))
  }

  /** ssl_send_finished */
  function SendFinished(g: Config, io: Io): Io {
    Emit(io, Message(Finished, g.mac(true, Digested(io))))
  }

  function DoSendServerFinished(g: Config, c: Server): Server {
    if c.ticket.TicketExpected? && g.ticket.None? then Failing(c)
    else
      var io := if c.ticket.TicketExpected? then Emit(c.io, Message(NewSessionTicket, g.ticket.value)) else c.io;
      c.(state := if c.deal.resumed then AwaitChangeCipherSpec else FinishServerHandshake,
         io := SendFinished(g, ChangeWriteKey(io)).(wait := Flush))
  }

  function DoFinishServerHandshake(g: Config, c: Server): Server {
    c.(state := Done)
  }

  /** The switch of ssl_server_handshake. */
  function Do(g: Config, c: Server): Server {
    match c.state
    case StartAccept => DoStartAccept(g, c)
    case ReadClientHello => DoReadClientHello(g, c)
    case SelectCertificate => DoSelectCertificate(g, c)
    case Tls13 => c.(io := c.io.(wait := LeftForTls13))
    case SelectParameters => DoSelectParameters(g, c)
    case SendServerHello => DoSendServerHello(g, c)
    case SendServerCertificate => DoSendServerCertificate(g, c)
    case SendServerKeyExchange => DoSendServerKeyExchange(g, c)
    case SendServerHelloDone => DoSendServerHelloDone(g, c)
    case ReadClientCertificate => DoReadClientCertificate(g, c)
    case VerifyClientCertificate => DoVerifyClientCertificate(g, c)
    case ReadClientKeyExchange => DoReadClientKeyExchange(g, c)
    case ReadClientCertificateVerify => DoReadClientCertificateVerify(g, c)
    case AwaitChangeCipherSpec => DoAwaitChangeCipherSpec(g, c)
    case ProcessChangeCipherSpec => DoProcessChangeCipherSpec(g, c)
    case ReadNextProto => DoReadNextProto(g, c)
    case ReadChannelId => DoReadChannelId(g, c)
    case ReadClientFinished => DoReadClientFinished(g, c)
    case SendServerFinished => DoSendServerFinished(g, c)
    case FinishServerHandshake => DoFinishServerHandshake(g, c)
    case Done => c
  }

  /** One turn of the driver: run a state, or resolve what the last one waits for. */
  function Step(g: Config, c: Server): Server {
    if c.io.wait.Go? then Do(g, c) else c.(io := Resolve(c.io))
  }

  function Run(g: Config, c: Server, turns: nat): Server {
    if turns == 0 then c else Step(g, Run(g, c, turns - 1))
  }

  // ---------------------------------------------------------------- what every run keeps

  /**
  When an event may happen: our Finished follows the change of the write key and covers the whole transcript,
  the peer's Finished follows the change of the read key and covers it, a CertificateVerify is taken only if
  it proves, over the whole transcript, the key of a chain that was accepted before.
  */
  ghost predicate Legit(g: Config, before: seq<Event>, e: Event) {
    match e
    case Sent(m) => m.kind == Finished ==> FactsOf(before).writeKeys > 0 && m.body == g.mac(true, Hashed(before))
    case Took(m) =>
      && (m.kind == Finished ==> FactsOf(before).readKeys > 0 && m.body == g.mac(false, Hashed(before)))
      && (m.kind == CertificateVerify ==> Proves(g, FactsOf(before), Hashed(before), m))
      && (m.kind == ChannelId ==> g.channelIdOk(Hashed(before), m))
    case PeerVerified(cert, answer) => FactsOf(before).certificate == Some(cert) && Vouched(g, cert, answer)
    case _ => true
  }

  /** The callback, if there is one, takes the chain, or refuses it where that does not matter; else it is trusted. */
  ghost predicate Vouched(g: Config, cert: Message, answer: Option<Answer>) {
    && (g.customVerify ==> answer == Some(Accept) || (g.verifyNone && answer == Some(Refuse)))
    && (!g.customVerify ==> g.chainTrusted(cert))
  }

  ghost function Rule(g: Config): Law {
    (before: seq<Event>, e: Event) => Legit(g, before, e)
  }

  predicate Proves(g: Config, f: Facts, transcript: seq<Message>, m: Message) {
    f.certificate.Some? && f.verified == f.certificate && g.provesKey(f.certificate.value, transcript, m)
  }

  predicate PreHello(s: State) {
    s.StartAccept? || s.ReadClientHello? || s.SelectCertificate? || s.SelectParameters?
  }

  /** The read key has changed. */
  predicate ReadChanged(s: State, d: Deal) {
    || s.ReadNextProto? || s.ReadChannelId? || s.ReadClientFinished? || s.FinishServerHandshake? || s.Done?
    || (!d.resumed && s.SendServerFinished?)
  }

  predicate PeerFinished(s: State, d: Deal) {
    s.FinishServerHandshake? || s.Done? || (!d.resumed && s.SendServerFinished?)
  }

  /** The write key has changed and our Finished was sent. */
  predicate WriteChanged(s: State, d: Deal) {
    || s.FinishServerHandshake? || s.Done?
    || (d.resumed && (s.AwaitChangeCipherSpec? || s.ProcessChangeCipherSpec? || s.ReadNextProto? || s.ReadChannelId?
                      || s.ReadClientFinished?))
  }

  predicate ResumedState(s: State) {
    || s.SendServerHello? || s.SendServerFinished? || s.AwaitChangeCipherSpec? || s.ProcessChangeCipherSpec?
    || s.ReadNextProto? || s.ReadChannelId? || s.ReadClientFinished? || s.FinishServerHandshake? || s.Done?
  }

  /** The client's certificate has not been read yet. */
  predicate BeforeCertificate(s: State) {
    || PreHello(s) || s.Tls13? || s.SendServerHello? || s.SendServerCertificate? || s.SendServerKeyExchange?
    || s.SendServerHelloDone? || s.ReadClientCertificate?
  }

  predicate BeforeVerify(s: State) {
    BeforeCertificate(s) || s.VerifyClientCertificate?
  }

  predicate BeforeProof(s: State) {
    BeforeVerify(s) || s.ReadClientKeyExchange? || s.ReadClientCertificateVerify?
  }

  predicate Keys(s: State, d: Deal, f: Facts) {
    && f.readKeys == (if ReadChanged(s, d) then 1 else 0)
    && f.writeKeys == (if WriteChanged(s, d) then 1 else 0)
    && f.peerFinished == (if PeerFinished(s, d) then 1 else 0)
    && f.ownFinished == (if WriteChanged(s, d) then 1 else 0)
    && f.earlyKeys == 0
  }

  predicate Trusted(g: Config, s: State, d: Deal, peer: Option<Message>, f: Facts) {
    && (d.resumed ==> ResumedState(s) && !d.requested)
    && (!PreHello(s) && !s.Tls13? ==> f.hello.Some? && g.chooseCipher(f.hello.value) == Some(d.cipher))
    && (peer.Some? ==> !d.resumed && !BeforeCertificate(s) && f.certificate == peer && !g.chainEmpty(peer.value))
    && (peer.None? && f.certificates > 0 ==> f.certificate.Some? && g.chainEmpty(f.certificate.value))
    && f.certificates <= (if BeforeCertificate(s) then 0 else 1)
    && (peer.Some? && !BeforeVerify(s) ==> f.verified == peer)
    && f.proofs == (if peer.Some? && !BeforeProof(s) then 1 else 0)
    && (d.requested && g.requireCertificate && !BeforeCertificate(s) ==> peer.Some?)
  }

  predicate Buffers(g: Config, c: Server) {
    && (PreHello(c.state) ==> c.io.buffer.Some?)
    && (c.deal.requested && BeforeCertificate(c.state) ==> c.io.buffer.Some?)
    && (c.peer.Some? && BeforeProof(c.state) ==> c.io.buffer.Some?)
    && (!PreHello(c.state) && !c.state.Tls13? ==> c.io.digest.Some?)
    // The ClientHello stays the current message while it is negotiated over.
    && (c.state.SelectCertificate? || c.state.SelectParameters? ==>
          c.io.pending != [] && c.io.pending[0].kind == ClientHello)
    && (c.state.SelectParameters? ==> g.chooseCipher(c.io.pending[0]) == Some(c.deal.cipher))
  }

  ghost predicate Inv(g: Config, c: Server, all: seq<Message>) {
    && LogInv(Rule(g), c.io, all)
    && Keys(c.state, c.deal, FactsOf(c.io.log))
    && Trusted(g, c.state, c.deal, c.peer, FactsOf(c.io.log))
    && Buffers(g, c)
  }

  // ---------------------------------------------------------------- what one event does

  /** A message other than Finished. */
  lemma EmittedPlain(g: Config, io: Io, m: Message, all: seq<Message>)
    requires LogInv(Rule(g), io, all) && m.kind != Finished
    ensures var b := Emit(io, m);
            && LogInv(Rule(g), b, all) && FactsOf(b.log) == FactsOf(io.log)
            && b.buffer.Some? == io.buffer.Some? && b.digest.Some? == io.digest.Some?
            && b.wait == io.wait && b.pending == io.pending
  {
    hide LogInv, FactsOf;
    Emitted(Rule(g), io, m, all);
  }

  lemma TakenPlain(g: Config, io: Io, all: seq<Message>)
    requires LogInv(Rule(g), io, all) && io.pending != [] && io.pending[0].kind != Finished
    requires io.pending[0].kind != CertificateVerify && io.pending[0].kind != ChannelId
    ensures var b := Take(io);
            && LogInv(Rule(g), b, all) && FactsOf(b.log) == FactsNext(FactsOf(io.log), Took(io.pending[0]))
            && b.buffer.Some? == io.buffer.Some? && b.digest.Some? == io.digest.Some? && b.wait == io.wait
  {
    hide LogInv, FactsOf, Take;
    Taken(Rule(g), io, all);
  }

  // ---------------------------------------------------------------- each state keeps the invariant

  lemma FinishedLog(g: Config, io: Io, all: seq<Message>)
    requires LogInv(Rule(g), io, all) && io.digest.Some? && FactsOf(io.log).writeKeys > 0
    ensures var b := SendFinished(g, io);
            && LogInv(Rule(g), b, all)
            && FactsOf(b.log) == FactsOf(io.log).(ownFinished := FactsOf(io.log).ownFinished + 1)
            && b.buffer.Some? == io.buffer.Some? && b.digest.Some?
  {
    hide LogInv, FactsOf;
    DigestWhole(Rule(g), io, all);
    Emitted(Rule(g), io, Message(Finished, g.mac(true, Digested(io))), all);
  }

  /** A state that waits, asks or fails changes nothing that matters. */
  lemma StallKeeps(g: Config, c: Server, io: Io, all: seq<Message>)
    requires Inv(g, c, all) && io == c.io.(wait := io.wait, answers := io.answers, keyOp := io.keyOp)
    ensures Inv(g, c.(io := io), all)
  {
    hide FactsOf, AllLegit;
  }

  lemma KeepStartAccept(g: Config, c: Server, all: seq<Message>)
    requires Inv(g, c, all) && c.io.wait.Go? && c.state.StartAccept?
    ensures Inv(g, DoStartAccept(g, c), all)
  {
    hide Emit, Take, Note, LogInv, FactsOf, Hashed, Used, AllLegit, Legit;
  }

  lemma KeepReadClientHello(g: Config, c: Server, all: seq<Message>)
    requires Inv(g, c, all) && c.io.wait.Go? && c.state.ReadClientHello?
    ensures Inv(g, DoReadClientHello(g, c), all)
  {
    hide Emit, Take, Note, LogInv, FactsOf, Hashed, Used, AllLegit, Legit, Asked;
    WaitLog(Rule(g), c.io, Failed, all);
    WaitLog(Rule(g), c.io, ReadMessage, all);
    AskedLog(Rule(g), c.io, CertificateSelection, all);
    var asked := if g.selectCallback then Asked(c.io, CertificateSelection) else c.io;
    WaitLog(Rule(g), asked, Failed, all);
  }

  lemma KeepSelectCertificate(g: Config, c: Server, all: seq<Message>)
    requires Inv(g, c, all) && c.io.wait.Go? && c.state.SelectCertificate?
    ensures Inv(g, DoSelectCertificate(g, c), all)
  {
    hide Emit, Take, Note, LogInv, FactsOf, Hashed, Used, AllLegit, Legit, Asked;
    WaitLog(Rule(g), c.io, Failed, all);
    WaitLog(Rule(g), c.io, ReadMessage, all);
    AskedLog(Rule(g), c.io, CertificateLookup, all);
    var asked := if g.certCallback then Asked(c.io, CertificateLookup) else c.io;
    WaitLog(Rule(g), asked, Failed, all);
  }

  lemma SettleKeeps(g: Config, c: Server, found: Lookup, all: seq<Message>)
    requires Inv(g, c, all) && c.state.SelectParameters? && !found.BadLookup?
    ensures Inv(g, Settle(g, c, found), all)
  {
    hide Take, LogInv, FactsOf, Hashed, Used, AllLegit, Legit;
    InitLog(Rule(g), c.io, all);
    TakenPlain(g, InitHash(c.io), all);
    FreeLog(Rule(g), Take(InitHash(c.io)), all);
  }

  lemma KeepSelectParameters(g: Config, c: Server, all: seq<Message>)
    requires Inv(g, c, all) && c.io.wait.Go? && c.state.SelectParameters?
    ensures Inv(g, DoSelectParameters(g, c), all)
  {
    hide Inv, Settle;
    var asked := if g.lookupCallback then Asked(c.io, SessionLookup) else c.io;
    StallKeeps(g, c, Await(c.io), all);
    StallKeeps(g, c, asked, all);
    StallKeeps(g, c, Fail(asked), all);
    HelloAtHand(g, c, all);
    var found := g.lookup(c.io.pending[0]);
    if !found.BadLookup? { SettleKeeps(g, c.(io := asked), found, all); }
  }

  lemma HelloAtHand(g: Config, c: Server, all: seq<Message>)
    requires Inv(g, c, all) && (c.state.SelectParameters? || c.state.SelectCertificate?)
    ensures c.io.pending != [] && c.io.pending[0].kind == ClientHello
  {
    hide FactsOf;
  }

  lemma KeepSendServerHello(g: Config, c: Server, all: seq<Message>)
    requires Inv(g, c, all) && c.io.wait.Go? && c.state.SendServerHello?
    ensures Inv(g, DoSendServerHello(g, c), all)
  {
    hide Emit, Take, Note, LogInv, FactsOf, Hashed, Used, AllLegit, Legit;
    EmittedPlain(g, c.io, Message(ServerHello, g.hello), all);
  }

  lemma KeepSendServerCertificate(g: Config, c: Server, all: seq<Message>)
    requires Inv(g, c, all) && c.io.wait.Go? && c.state.SendServerCertificate?
    ensures Inv(g, DoSendServerCertificate(g, c), all)
  {
    hide Emit, Take, Note, LogInv, FactsOf, Hashed, Used, AllLegit, Legit;
    WaitLog(Rule(g), c.io, Failed, all);
    WaitLog(Rule(g), c.io, ReadMessage, all);
    EmittedPlain(g, c.io, Message(Certificate, g.certificate), all);
    EmittedPlain(g, Emit(c.io, Message(Certificate, g.certificate)), Message(CertificateStatus, g.status), all);
  }

  lemma KeepSendServerKeyExchange(g: Config, c: Server, all: seq<Message>)
    requires Inv(g, c, all) && c.io.wait.Go? && c.state.SendServerKeyExchange?
    ensures Inv(g, DoSendServerKeyExchange(g, c), all)
  {
    hide Emit, Take, Note, LogInv, FactsOf, Hashed, Used, AllLegit, Legit, Asked;
    WaitLog(Rule(g), c.io, Failed, all);
    WaitLog(Rule(g), c.io, ReadMessage, all);
    AskedLog(Rule(g), c.io, PrivateKey, all);
    var asked := if c.deal.cipher.certAuth && g.keyMethod then Asked(c.io, PrivateKey) else c.io;
    WaitLog(Rule(g), asked, Failed, all);
    if g.exchange.Some? { EmittedPlain(g, asked, Message(ServerKeyExchange, g.exchange.value), all); }
  }

  lemma KeepSendServerHelloDone(g: Config, c: Server, all: seq<Message>)
    requires Inv(g, c, all) && c.io.wait.Go? && c.state.SendServerHelloDone?
    ensures Inv(g, DoSendServerHelloDone(g, c), all)
  {
    hide Emit, Take, Note, LogInv, FactsOf, Hashed, Used, AllLegit, Legit;
    EmittedPlain(g, c.io, Message(CertificateRequest, g.request), all);
    var io := if c.deal.requested then Emit(c.io, Message(CertificateRequest, g.request)) else c.io;
    EmittedPlain(g, io, Message(ServerHelloDone, []), all);
    WaitLog(Rule(g), Emit(io, Message(ServerHelloDone, [])), Flush, all);
  }

  lemma KeepReadClientCertificate(g: Config, c: Server, all: seq<Message>)
    requires Inv(g, c, all) && c.io.wait.Go? && c.state.ReadClientCertificate?
    ensures Inv(g, DoReadClientCertificate(g, c), all)
  {
    hide Emit, Take, Note, LogInv, FactsOf, Hashed, Used, AllLegit, Legit;
    WaitLog(Rule(g), c.io, Failed, all);
    WaitLog(Rule(g), c.io, ReadMessage, all);
    if c.io.pending != [] && c.io.pending[0].kind == Certificate {
      TakenPlain(g, c.io, all);
      FreeLog(Rule(g), Take(c.io), all);
    }
  }

  lemma KeepVerifyClientCertificate(g: Config, c: Server, all: seq<Message>)
    requires Inv(g, c, all) && c.io.wait.Go? && c.state.VerifyClientCertificate?
    ensures Inv(g, DoVerifyClientCertificate(g, c), all)
  {
    hide Emit, Take, Note, LogInv, FactsOf, Hashed, Used, AllLegit, Asked;
    AskedLog(Rule(g), c.io, VerifyPeer, all);
    WaitLog(Rule(g), Asked(c.io, VerifyPeer), Failed, all);
    WaitLog(Rule(g), c.io, Failed, all);
    var answer := if g.customVerify then Some(NextAnswer(c.io)) else None;
    if c.peer.Some? && Accepts(g, c.peer.value, answer) {
      var asked := if g.customVerify then Asked(c.io, VerifyPeer) else c.io;
      Noted(Rule(g), asked, PeerVerified(c.peer.value, answer), all);
      WaitLog(Rule(g), Note(asked, PeerVerified(c.peer.value, answer)), Go, all);
    }
  }

  lemma ExchangeKeeps(g: Config, c: Server, all: seq<Message>)
    requires Inv(g, c, all) && c.state.ReadClientKeyExchange?
    requires c.io.pending != [] && c.io.pending[0].kind == ClientKeyExchange
    ensures Inv(g, c.(state := ReadClientCertificateVerify, io := Take(c.io)), all)
  {
    hide Take, LogInv, FactsOf, Hashed, Used, AllLegit, Legit;
    TakenPlain(g, c.io, all);
  }

  lemma KeepReadClientKeyExchange(g: Config, c: Server, all: seq<Message>)
    requires Inv(g, c, all) && c.io.wait.Go? && c.state.ReadClientKeyExchange?
    ensures Inv(g, DoReadClientKeyExchange(g, c), all)
  {
    hide Inv, Take;
    var asked := if c.deal.cipher.kx.Rsa? && g.keyMethod then Asked(c.io, PrivateKey) else c.io;
    StallKeeps(g, c, Await(c.io), all);
    StallKeeps(g, c, Fail(c.io), all);
    StallKeeps(g, c, asked, all);
    StallKeeps(g, c, Fail(asked), all);
    if c.io.pending != [] && c.io.pending[0].kind == ClientKeyExchange { ExchangeKeeps(g, c.(io := asked), all); }
  }

  lemma KeepReadClientCertificateVerify(g: Config, c: Server, all: seq<Message>)
    requires Inv(g, c, all) && c.io.wait.Go? && c.state.ReadClientCertificateVerify?
    ensures Inv(g, DoReadClientCertificateVerify(g, c), all)
  {
    hide Emit, Take, Note, LogInv, FactsOf, Hashed, Used, AllLegit;
    WaitLog(Rule(g), c.io, Failed, all);
    WaitLog(Rule(g), c.io, ReadMessage, all);
    FreeLog(Rule(g), c.io, all);
    if c.peer.Some? && c.io.pending != [] && c.io.pending[0].kind == CertificateVerify
       && g.provesKey(c.peer.value, c.io.buffer.value, c.io.pending[0]) {
      BufferWhole(Rule(g), c.io, all);
      Taken(Rule(g), FreeBuffer(c.io), all);
    }
  }

  lemma KeepAwaitChangeCipherSpec(g: Config, c: Server, all: seq<Message>)
    requires Inv(g, c, all) && c.io.wait.Go? && c.state.AwaitChangeCipherSpec?
    ensures Inv(g, DoAwaitChangeCipherSpec(g, c), all)
  {
    hide Emit, Take, Note, LogInv, FactsOf, Hashed, Used, AllLegit, Legit;
    WaitLog(Rule(g), c.io, ReadChangeCipherSpec, all);
  }

  lemma KeepProcessChangeCipherSpec(g: Config, c: Server, all: seq<Message>)
    requires Inv(g, c, all) && c.io.wait.Go? && c.state.ProcessChangeCipherSpec?
    ensures Inv(g, DoProcessChangeCipherSpec(g, c), all)
  {
    hide Emit, Take, Note, LogInv, FactsOf, Hashed, Used, AllLegit;
    WaitLog(Rule(g), c.io, Failed, all);
    WaitLog(Rule(g), c.io, ReadMessage, all);
    if !Leftover(c.io) { ReadKeyLog(Rule(g), c.io, all); }
  }

  lemma KeepReadNextProto(g: Config, c: Server, all: seq<Message>)
    requires Inv(g, c, all) && c.io.wait.Go? && c.state.ReadNextProto?
    ensures Inv(g, DoReadNextProto(g, c), all)
  {
    hide Emit, Take, Note, LogInv, FactsOf, Hashed, Used, AllLegit, Legit;
    WaitLog(Rule(g), c.io, Failed, all);
    WaitLog(Rule(g), c.io, ReadMessage, all);
    if c.io.pending != [] && c.io.pending[0].kind == NextProto {
      TakenPlain(g, c.io, all);
    }
  }

  lemma KeepReadChannelId(g: Config, c: Server, all: seq<Message>)
    requires Inv(g, c, all) && c.io.wait.Go? && c.state.ReadChannelId?
    ensures Inv(g, DoReadChannelId(g, c), all)
  {
    hide Emit, Take, Note, LogInv, FactsOf, Hashed, Used, AllLegit;
    WaitLog(Rule(g), c.io, Failed, all);
    WaitLog(Rule(g), c.io, ReadMessage, all);
    if c.io.pending != [] && c.io.pending[0].kind == ChannelId && g.channelIdOk(Digested(c.io), c.io.pending[0]) {
      DigestWhole(Rule(g), c.io, all);
      Taken(Rule(g), c.io, all);
    }
  }

  lemma KeepReadClientFinished(g: Config, c: Server, all: seq<Message>)
    requires Inv(g, c, all) && c.io.wait.Go? && c.state.ReadClientFinished?
    ensures Inv(g, DoReadClientFinished(g, c), all)
  {
    hide Emit, Take, Note, LogInv, FactsOf, Hashed, Used, AllLegit;
    WaitLog(Rule(g), c.io, Failed, all);
    WaitLog(Rule(g), c.io, ReadMessage, all);
    if c.io.pending != [] && c.io.pending[0].body == g.mac(false, Digested(c.io)) {
      DigestWhole(Rule(g), c.io, all);
      if c.io.pending[0].kind == Finished { Taken(Rule(g), c.io, all); }
    }
  }

  /** NewSessionTicket, if one is due. */
  lemma TicketKeeps(g: Config, c: Server, all: seq<Message>) returns (io: Io)
    requires Inv(g, c, all) && c.state.SendServerFinished? && (c.ticket.TicketExpected? ==> g.ticket.Some?)
    ensures io == if c.ticket.TicketExpected? then Emit(c.io, Message(NewSessionTicket, g.ticket.value)) else c.io
    ensures LogInv(Rule(g), io, all) && FactsOf(io.log) == FactsOf(c.io.log)
    ensures io.buffer.Some? == c.io.buffer.Some? && io.digest.Some? == c.io.digest.Some? && io.pending == c.io.pending
  {
    hide Emit, LogInv, FactsOf, Legit;
    io := c.io;
    if c.ticket.TicketExpected? {
      io := Emit(c.io, Message(NewSessionTicket, g.ticket.value));
      EmittedPlain(g, c.io, Message(NewSessionTicket, g.ticket.value), all);
    }
  }

  /** ChangeCipherSpec and Finished under the new key. */
  lemma SealedKeeps(g: Config, io: Io, all: seq<Message>)
    requires LogInv(Rule(g), io, all) && io.digest.Some?
    ensures var b, f := SendFinished(g, ChangeWriteKey(io)), FactsOf(io.log);
            && LogInv(Rule(g), b.(wait := Flush), all)
            && FactsOf(b.log) == f.(writeKeys := f.writeKeys + 1, ownFinished := f.ownFinished + 1)
            && b.buffer.Some? == io.buffer.Some? && b.digest.Some?
  {
    hide Note, LogInv, FactsOf, SendFinished;
    KeyedLog(Rule(g), io, all);
    FinishedLog(g, ChangeWriteKey(io), all);
    WaitLog(Rule(g), SendFinished(g, ChangeWriteKey(io)), Flush, all);
  }

  lemma KeepSendServerFinished(g: Config, c: Server, all: seq<Message>)
    requires Inv(g, c, all) && c.io.wait.Go? && c.state.SendServerFinished?
    ensures Inv(g, DoSendServerFinished(g, c), all)
  {
    hide Emit, LogInv, FactsOf, Legit, ChangeWriteKey, SendFinished;
    if c.ticket.TicketExpected? && g.ticket.None? {
      StallKeeps(g, c, Fail(c.io), all);
    } else {
      var io := TicketKeeps(g, c, all);
      SealedKeeps(g, io, all);
    }
  }

  lemma KeepFinishServerHandshake(g: Config, c: Server, all: seq<Message>)
    requires Inv(g, c, all) && c.io.wait.Go? && c.state.FinishServerHandshake?
    ensures Inv(g, DoFinishServerHandshake(g, c), all)
  {
    hide Emit, Take, Note, LogInv, FactsOf, Hashed, Used, AllLegit, Legit;
  }

  lemma KeepTls13(g: Config, c: Server, all: seq<Message>)
    requires Inv(g, c, all) && c.state.Tls13?
    ensures Inv(g, c.(io := c.io.(wait := LeftForTls13)), all)
  {
  }

  lemma KeepResolve(g: Config, c: Server, all: seq<Message>)
    requires Inv(g, c, all)
    ensures Inv(g, c.(io := Resolve(c.io)), all)
  {
    hide Resolve, OneTranscript, Conserved, AllLegit, FactsOf;
    ResolveKeeps(c.io, all);
    ResolveSame(c.io);
  }

  lemma KeepStep(g: Config, c: Server, all: seq<Message>)
    requires Inv(g, c, all)
    ensures Inv(g, Step(g, c), all)
  {
    hide Inv;
    if !c.io.wait.Go? {
      KeepResolve(g, c, all);
    } else {
      match c.state
      case StartAccept => KeepStartAccept(g, c, all);
      case ReadClientHello => KeepReadClientHello(g, c, all);
      case SelectCertificate => KeepSelectCertificate(g, c, all);
      case Tls13 => KeepTls13(g, c, all);
      case SelectParameters => KeepSelectParameters(g, c, all);
      case SendServerHello => KeepSendServerHello(g, c, all);
      case SendServerCertificate => KeepSendServerCertificate(g, c, all);
      case SendServerKeyExchange => KeepSendServerKeyExchange(g, c, all);
      case SendServerHelloDone => KeepSendServerHelloDone(g, c, all);
      case ReadClientCertificate => KeepReadClientCertificate(g, c, all);
      case VerifyClientCertificate => KeepVerifyClientCertificate(g, c, all);
      case ReadClientKeyExchange => KeepReadClientKeyExchange(g, c, all);
      case ReadClientCertificateVerify => KeepReadClientCertificateVerify(g, c, all);
      case AwaitChangeCipherSpec => KeepAwaitChangeCipherSpec(g, c, all);
      case ProcessChangeCipherSpec => KeepProcessChangeCipherSpec(g, c, all);
      case ReadNextProto => KeepReadNextProto(g, c, all);
      case ReadChannelId => KeepReadChannelId(g, c, all);
      case ReadClientFinished => KeepReadClientFinished(g, c, all);
      case SendServerFinished => KeepSendServerFinished(g, c, all);
      case FinishServerHandshake => KeepFinishServerHandshake(g, c, all);
      case Done =>
    }
  }

  /** Every run, over any client messages and any answers of the application, keeps the invariant. */
  lemma {:induction false} KeepRun(g: Config, inbox: seq<Record>, answers: seq<Answer>, flushes: seq<bool>, turns: nat)
    ensures Inv(g, Run(g, New(g, inbox, answers, flushes), turns), Arriving(inbox))
  {
    hide Step;
    if turns == 0 {
      assert [] + [] + Arriving(inbox) == Arriving(inbox);
    } else {
      KeepRun(g, inbox, answers, flushes, turns - 1);
      KeepStep(g, Run(g, New(g, inbox, answers, flushes), turns - 1), Arriving(inbox));
    }
  }

  // ---------------------------------------------------------------- completion

  /** The client's Finished was matched at position `i` of the log: after the read key changed, over everything. */
  ghost predicate PeerFinishedAt(g: Config, log: seq<Event>, i: nat) {
    && i < |log| && log[i].Took? && log[i].m.kind == Finished
    && ReadKey in log[..i] && log[i].m.body == g.mac(false, Hashed(log[..i]))
  }

  ghost predicate OwnFinishedAt(g: Config, log: seq<Event>, i: nat) {
    && i < |log| && log[i].Sent? && log[i].m.kind == Finished
    && WriteKey in log[..i] && log[i].m.body == g.mac(true, Hashed(log[..i]))
  }

  /** The chain was received and passed, by the callback's answer or the built-in check. */
  ghost predicate ChainAccepted(g: Config, log: seq<Event>, cert: Message) {
    Took(cert) in log && exists a :: PeerVerified(cert, a) in log && Vouched(g, cert, a)
  }

  /** At position `i` the client proved the key of `cert`, over everything, after the chain was accepted. */
  ghost predicate KeyProvedAt(g: Config, log: seq<Event>, cert: Message, i: nat) {
    && i < |log| && log[i].Took? && log[i].m.kind == CertificateVerify
    && ChainAccepted(g, log[..i], cert) && g.provesKey(cert, Hashed(log[..i]), log[i].m)
  }

  /** A client chain that is not empty was accepted, and then its key was proved. */
  ghost predicate ClientAuthenticated(g: Config, log: seq<Event>) {
    forall cert: Message :: cert.kind == Certificate && Took(cert) in log && !g.chainEmpty(cert) ==>
      exists i :: KeyProvedAt(g, log, cert, i)
  }

  /** The cipher is the one that was chosen for a ClientHello of the transcript. */
  ghost predicate HelloChose(g: Config, log: seq<Event>, m: Message, cipher: Cipher) {
    Took(m) in log && m.kind == ClientHello && g.chooseCipher(m) == Some(cipher)
  }

  /** What a server that is done can rely on. */
  ghost predicate Completed(g: Config, c: Server, inbox: seq<Record>) {
    var log := c.io.log;
    && Count(log, ReadKey) == 1 && Count(log, WriteKey) == 1
    && (exists i :: PeerFinishedAt(g, log, i))
    && (exists i :: OwnFinishedAt(g, log, i))
    && ClientAuthenticated(g, log)
    && (exists m :: HelloChose(g, log, m, c.deal.cipher))
    && (c.deal.requested && g.requireCertificate ==>
          c.peer.Some? && Took(c.peer.value) in log && !g.chainEmpty(c.peer.value))
    && Digested(c.io) == Hashed(log)
    && Used(log) <= Arriving(inbox)
  }

  lemma AcceptedIn(g: Config, log: seq<Event>)
    requires AllLegit(Rule(g), log) && FactsOf(log).verified.Some? && FactsOf(log).certificate == FactsOf(log).verified
    ensures ChainAccepted(g, log, FactsOf(log).verified.value)
  {
    hide AllLegit, FactsOf, Vouched;
    ChangedIn(log);
    var cert := FactsOf(log).verified.value;
    var a :| PeerVerified(cert, a) in log;
    var k :| 0 <= k < |log| && log[k] == PeerVerified(cert, a);
    LegitAt(Rule(g), log, k);
  }

  lemma ProofAt(g: Config, log: seq<Event>, cert: Message) returns (i: nat)
    requires AllLegit(Rule(g), log) && FactsOf(log).proofs > 0 && FactsOf(log).certificates == 1
    requires FactsOf(log).certificate == Some(cert) && cert.kind == Certificate
    ensures KeyProvedAt(g, log, cert, i)
  {
    hide AllLegit, Hashed;
    i := TookProof(log);
    LegitAt(Rule(g), log, i);
    var f := FactsOf(log[..i]);
    ChangedIn(log[..i]);
    CertificateKind(log[..i]);
    var early := f.certificate.value;
    assert Took(early) in log;
    OneCertificate(log, early);
    LegitBefore(Rule(g), log, i);
    AcceptedIn(g, log[..i]);
  }

  lemma BothFinished(g: Config, log: seq<Event>)
    requires AllLegit(Rule(g), log) && FactsOf(log).peerFinished > 0 && FactsOf(log).ownFinished > 0
    ensures (exists i :: PeerFinishedAt(g, log, i)) && exists j :: OwnFinishedAt(g, log, j)
  {
    hide FactsOf, Hashed, AllLegit;
    var i := TookFinished(log);
    LegitAt(Rule(g), log, i);
    ChangedIn(log[..i]);
    assert PeerFinishedAt(g, log, i);
    var j := SentFinished(log);
    LegitAt(Rule(g), log, j);
    ChangedIn(log[..j]);
    assert OwnFinishedAt(g, log, j);
  }

  /** Completion safety: every run of the server that reaches its last state. */
  lemma CompletionSafety(g: Config, inbox: seq<Record>, answers: seq<Answer>, flushes: seq<bool>, turns: nat)
    requires Run(g, New(g, inbox, answers, flushes), turns).state.Done?
    ensures Completed(g, Run(g, New(g, inbox, answers, flushes), turns), inbox)
  {
    hide Run, FactsOf, Count, Hashed, Used, AllLegit, PeerFinishedAt, OwnFinishedAt, KeyProvedAt;
    KeepRun(g, inbox, answers, flushes, turns);
    var c := Run(g, New(g, inbox, answers, flushes), turns);
    var log := c.io.log;
    FactsCount(log);
    ChangedIn(log);
    BothFinished(g, log);
    assert HelloChose(g, log, FactsOf(log).hello.value, c.deal.cipher);
    forall cert: Message | cert.kind == Certificate && Took(cert) in log && !g.chainEmpty(cert)
      ensures exists k :: KeyProvedAt(g, log, cert, k)
    {
      OneCertificate(log, cert);
      var k := ProofAt(g, log, cert);
    }
  }
}
