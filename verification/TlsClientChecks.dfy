/**
What a client has checked, at every moment of every run: each message that it took passed the checks that its kind
is subject to, what was settled is what the ServerHello says, and each message that it sent is its own.
*/
module TlsClientChecks {
  import opened Wire
  import opened TlsHandshake
  import opened TlsClient

  predicate Negotiated(s: State) {
    !PreHello(s) && !s.Tls13?
  }

  /** What a ServerHello settles. */
  ghost predicate Settles(g: Config, d: Deal, m: Message) {
    g.parseHello(m).Some? &&
    var h := g.parseHello(m).value;
    && !h.version13 && !g.earlyData && h.acceptable && (h.certificateStatus ==> h.cipher.certAuth)
    && d.cipher == h.cipher && d.certificateStatus == h.certificateStatus
    && d.nextProto == h.nextProto && d.channelId == h.channelId
    && (d.resumed <==> g.session && g.established.None? && h.sameSession)
  }

  /** A message that was taken. */
  ghost predicate Heard(g: Config, c: Client, m: Message) {
    match m.kind
    case ServerHello => Settles(g, c.deal, m)
    case Certificate => c.deal.cipher.certAuth && g.chainOk(m) && c.peer == Some(m)
    case CertificateStatus => c.deal.certificateStatus && g.statusOk(m)
    case ServerKeyExchange =>
      && !c.deal.cipher.kx.Rsa? && g.exchangeOk(c.deal.cipher, m)
      && (c.deal.cipher.certAuth ==> c.peer.Some? && g.exchangeSigned(c.peer.value, m))
    case CertificateRequest => c.deal.cipher.certAuth && g.requestOk(m) && c.request == Some(m)
    case ServerHelloDone => m.body == []
    case NewSessionTicket =>
      !g.parseTicket(m).BadTicket? && (c.ticket.TicketExpected? <==> g.parseTicket(m).NewTicket?)
    case Finished => true
    case _ => false
  }

  /** A message that was sent; for what is signed or authenticated see `Legit`. */
  ghost predicate Uttered(g: Config, c: Client, m: Message) {
    match m.kind
    case ClientHello => m.body == g.hello || exists v :: Dropped(v) in c.io.log && m.body == g.secondHello(v)
    case Certificate => c.request.Some? && g.certificateFits && m.body == g.certificate
    case ClientKeyExchange => g.keyExchange == Some(m.body)
    case CertificateVerify => c.request.Some? && g.hasCertificate
    case NextProto => c.deal.nextProto && m.body == g.nextProtocol
    case ChannelId => c.deal.channelId
    case Finished => true
    case _ => false
  }

  predicate BeforeTicket(s: State, d: Deal) {
    && Negotiated(s)
    && if d.resumed then s.ReadSessionTicket?
       else !s.ProcessChangeCipherSpec? && !s.ReadServerFinished? && !s.FinishClientHandshake? && !s.Done?
  }

  ghost predicate TookTicket(log: seq<Event>) {
    exists t :: Took(t) in log && t.kind == NewSessionTicket
  }

  /** A ticket is taken exactly if the ServerHello promised one. */
  ghost predicate TicketKept(g: Config, c: Client, m: Message) {
    && g.parseHello(m).Some?
    && if BeforeTicket(c.state, c.deal)
       then (c.ticket.TicketExpected? <==> g.parseHello(m).value.ticket) && !TookTicket(c.io.log)
       else TookTicket(c.io.log) <==> g.parseHello(m).value.ticket
  }

  ghost predicate Screened(g: Config, c: Client) {
    && (forall m :: Took(m) in c.io.log ==> Heard(g, c, m))
    && (forall m :: Took(m) in c.io.log && m.kind == ServerHello ==> TicketKept(g, c, m))
    && (forall m :: Sent(m) in c.io.log ==> Uttered(g, c, m))
    && (forall m :: Dropped(m) in c.io.log ==> g.dtls && m.kind == HelloVerifyRequest && g.cookieOk(m))
    && (if Negotiated(c.state) then exists m :: Took(m) in c.io.log && m.kind == ServerHello
        else forall m :: Took(m) !in c.io.log)
    && (!Negotiated(c.state) ==> forall m :: Sent(m) in c.io.log ==> m.kind == ClientHello)
    && (c.state.ReadHelloVerifyRequest? ==> g.dtls)
    && (c.peer.Some? ==> Negotiated(c.state) && !c.state.ReadServerCertificate?)
    && (c.request.Some? ==> Negotiated(c.state) && !BeforeRequest(c.state))
  }

  /** The state of a client with a longer log, as far as the checks are concerned. */
  ghost predicate SameChecks(c: Client, d: Client) {
    && d.deal == c.deal && d.ticket == c.ticket && d.peer == c.peer && d.request == c.request
    && Negotiated(d.state) == Negotiated(c.state) && BeforeTicket(d.state, c.deal) == BeforeTicket(c.state, c.deal)
    && (c.peer.Some? ==> !d.state.ReadServerCertificate?) && (c.request.Some? ==> !BeforeRequest(d.state))
  }

  /** What the checks of older messages rest on stays. */
  ghost predicate Settled(c: Client, d: Client) {
    && d.deal == c.deal && (d.peer == c.peer || c.peer.None?) && (d.request == c.request || c.request.None?)
    && (d.ticket == c.ticket || !TookTicket(c.io.log))
    && forall v :: Dropped(v) in c.io.log ==> Dropped(v) in d.io.log
  }

  lemma StillHeard(g: Config, c: Client, d: Client, m: Message)
    requires Settled(c, d) && Heard(g, c, m) && Took(m) in c.io.log
    ensures Heard(g, d, m)
  {
    hide Settles;
  }

  lemma StillUttered(g: Config, c: Client, d: Client, m: Message)
    requires Settled(c, d) && Uttered(g, c, m)
    ensures Uttered(g, d, m)
  {
  }

  /** Nothing is added to the log, or one event. */
  ghost predicate Adds(c: Client, d: Client, e: Event) {
    forall m :: && (Took(m) in d.io.log <==> Took(m) in c.io.log || e == Took(m))
                && (Sent(m) in d.io.log <==> Sent(m) in c.io.log || e == Sent(m))
                && (Dropped(m) in d.io.log <==> Dropped(m) in c.io.log)
  }

  lemma Goes(g: Config, c: Client, d: Client, e: Event)
    requires Screened(g, c) && Settled(c, d) && Adds(c, d, e)
    requires Negotiated(d.state) == Negotiated(c.state)
    requires BeforeTicket(d.state, c.deal) == BeforeTicket(c.state, c.deal)
    requires d.ticket == c.ticket && (d.state.ReadHelloVerifyRequest? ==> g.dtls)
    requires e.Sent? ==> Uttered(g, d, e.m) && (Negotiated(c.state) || e.m.kind == ClientHello)
    requires e.Took? ==> Heard(g, d, e.m) && Negotiated(c.state)
    requires e.Took? ==> e.m.kind != ServerHello && e.m.kind != NewSessionTicket
    requires d.peer.Some? ==> Negotiated(d.state) && !d.state.ReadServerCertificate?
    requires d.request.Some? ==> Negotiated(d.state) && !BeforeRequest(d.state)
    ensures Screened(g, d)
  {
    hide Heard, Uttered, BeforeRequest, PreHello, BeforeTicket, Negotiated, TicketKept;
    forall m | Took(m) in d.io.log && m.kind == ServerHello ensures TicketKept(g, d, m) { StillKept(g, c, d, e, m); }
    forall m | Took(m) in d.io.log ensures Heard(g, d, m) {
      if e != Took(m) { StillHeard(g, c, d, m); }
    }
    forall m | Sent(m) in d.io.log ensures Uttered(g, d, m) {
      if e != Sent(m) { StillUttered(g, c, d, m); }
    }
    if m :| Took(m) in c.io.log && m.kind == ServerHello { assert Took(m) in d.io.log; }
  }

  lemma StillKept(g: Config, c: Client, d: Client, e: Event, m: Message)
    requires TicketKept(g, c, m) && Adds(c, d, e) && (e.Took? ==> e.m.kind != NewSessionTicket)
    requires d.deal == c.deal && BeforeTicket(d.state, c.deal) == BeforeTicket(c.state, c.deal) && d.ticket == c.ticket
    ensures TicketKept(g, d, m)
  {
    hide BeforeTicket;
    TicketSame(c, d, e);
  }

  lemma TicketSame(c: Client, d: Client, e: Event)
    requires Adds(c, d, e) && (e.Took? ==> e.m.kind != NewSessionTicket)
    ensures TookTicket(d.io.log) <==> TookTicket(c.io.log)
  {
    if k :| Took(k) in c.io.log && k.kind == NewSessionTicket { assert Took(k) in d.io.log; }
    if k :| Took(k) in d.io.log && k.kind == NewSessionTicket { assert Took(k) in c.io.log; }
  }

  /** Nothing is added to the log but events that are no messages. */
  lemma Quiet(g: Config, c: Client, d: Client)
    requires Screened(g, c) && SameChecks(c, d) && (d.state.ReadHelloVerifyRequest? ==> g.dtls)
    requires forall m :: && (Took(m) in d.io.log <==> Took(m) in c.io.log)
                         && (Sent(m) in d.io.log <==> Sent(m) in c.io.log)
    requires forall m :: Dropped(m) in d.io.log <==> Dropped(m) in c.io.log
    ensures Screened(g, d)
  {
    PeerLate(g, c);
    hide Screened, PreHello;
    Goes(g, c, d, SentChangeCipherSpec);
  }

  /** One message is sent. */
  lemma Speaks(g: Config, c: Client, d: Client, m: Message)
    requires Screened(g, c) && SameChecks(c, d) && d.io.log == c.io.log + [Sent(m)] && Uttered(g, d, m)
    requires !d.state.ReadHelloVerifyRequest? && (Negotiated(c.state) || m.kind == ClientHello)
    ensures Screened(g, d)
  {
    PeerLate(g, c);
    hide Screened, Uttered, PreHello;
    Goes(g, c, d, Sent(m));
  }

  /** One message is taken, which is no ServerHello and no ticket. */
  lemma Listens(g: Config, c: Client, d: Client, m: Message)
    requires Screened(g, c) && Negotiated(c.state) && Negotiated(d.state)
    requires d.deal == c.deal && d.ticket == c.ticket && BeforeTicket(d.state, c.deal) == BeforeTicket(c.state, c.deal)
    requires d.io.log == c.io.log + [Took(m)] && Heard(g, d, m)
    requires m.kind != ServerHello && m.kind != NewSessionTicket
    requires d.peer == c.peer || (c.peer.None? && d.peer == Some(m))
    requires d.request == c.request || (c.request.None? && d.request == Some(m))
    requires d.peer.Some? ==> !d.state.ReadServerCertificate?
    requires d.request.Some? ==> !BeforeRequest(d.state)
    ensures Screened(g, d)
  {
    hide Screened, Heard, BeforeTicket, BeforeRequest;
    Goes(g, c, d, Took(m));
  }

  // ---------------------------------------------------------------- each state keeps to its checks

  lemma ScreenStartConnect(g: Config, c: Client)
    requires Screened(g, c) && c.state.StartConnect?
    ensures Screened(g, DoStartConnect(g, c))
  {
    hide Screened, Emit;
    EmitLog(c.io, Message(ClientHello, g.hello));
    Speaks(g, c, DoStartConnect(g, c), Message(ClientHello, g.hello));
  }

  lemma ScreenEnterEarlyData(g: Config, c: Client)
    requires Screened(g, c) && c.state.EnterEarlyData?
    ensures Screened(g, DoEnterEarlyData(g, c))
  {
    hide Screened;
    Quiet(g, c, DoEnterEarlyData(g, c));
  }

  /** The cookie of a HelloVerifyRequest is sent back. */
  lemma Returns(g: Config, c: Client, d: Client, v: Message, m: Message)
    requires Screened(g, c) && SameChecks(c, d) && !Negotiated(c.state) && !d.state.ReadHelloVerifyRequest?
    requires d.io.log == c.io.log + [Dropped(v)] + [Restart] + [Sent(m)]
    requires g.dtls && v.kind == HelloVerifyRequest && g.cookieOk(v) && m == Message(ClientHello, g.secondHello(v))
    ensures Screened(g, d)
  {
    hide Settles;
    assert Dropped(v) in d.io.log;
    forall s | Sent(s) in d.io.log ensures Uttered(g, d, s) {
      if s != m { assert Sent(s) in c.io.log && Uttered(g, c, s); }
    }
  }

  lemma ScreenReadHelloVerifyRequest(g: Config, c: Client)
    requires Screened(g, c) && c.state.ReadHelloVerifyRequest?
    ensures Screened(g, DoReadHelloVerifyRequest(g, c))
  {
    PeerLate(g, c);
    OnlyDtls(g, c);
    hide Screened, Emit;
    var d := DoReadHelloVerifyRequest(g, c);
    if d.io.log == c.io.log {
      Quiet(g, c, d);
    } else {
      var v := c.io.pending[0];
      EmitLog(Restarting(c.io), Message(ClientHello, g.secondHello(v)));
      Returns(g, c, d, v, Message(ClientHello, g.secondHello(v)));
    }
  }

  lemma OnlyDtls(g: Config, c: Client)
    requires Screened(g, c)
    ensures c.state.ReadHelloVerifyRequest? ==> g.dtls
  {
  }

  /** The first message that is taken is the ServerHello. */
  lemma Begins(g: Config, c: Client, d: Client, m: Message)
    requires Screened(g, c) && !Negotiated(c.state) && Negotiated(d.state)
    requires d.peer == c.peer && d.request == c.request && d.io.log == c.io.log + [Took(m)]
    requires m.kind == ServerHello && Settles(g, d.deal, m) && BeforeTicket(d.state, d.deal)
    requires d.ticket.TicketExpected? <==> g.parseHello(m).value.ticket
    ensures Screened(g, d)
  {
    assert Took(m) in d.io.log;
    forall s | Sent(s) in d.io.log ensures Uttered(g, d, s) {
      assert Sent(s) in c.io.log && Uttered(g, c, s);
    }
  }

  /** Before that the client has sent nothing but a ClientHello. */
  lemma ScreenReadServerHello(g: Config, c: Client)
    requires Screened(g, c) && c.state.ReadServerHello?
    ensures Screened(g, DoReadServerHello(g, c))
  {
    PeerLate(g, c);
    hide Screened, Take;
    var d := DoReadServerHello(g, c);
    if c.io.pending != [] { TakeLog(InitHash(c.io)); }
    if Negotiated(d.state) { Begins(g, c, d, c.io.pending[0]); } else { Quiet(g, c, d); }
  }

  lemma ScreenReadServerCertificate(g: Config, c: Client)
    requires Screened(g, c) && c.state.ReadServerCertificate?
    ensures Screened(g, DoReadServerCertificate(g, c))
  {
    PeerLate(g, c);
    hide Screened, Take;
    var d := DoReadServerCertificate(g, c);
    if d.peer == c.peer {
      Quiet(g, c, d);
    } else {
      TakeLog(c.io);
      Listens(g, c, d, c.io.pending[0]);
    }
  }

  lemma PeerLate(g: Config, c: Client)
    requires Screened(g, c)
    ensures !Negotiated(c.state) || c.state.ReadServerCertificate? ==> c.peer.None?
    ensures !Negotiated(c.state) || BeforeRequest(c.state) ==> c.request.None?
  {
  }

  lemma ScreenReadCertificateStatus(g: Config, c: Client)
    requires Screened(g, c) && c.state.ReadCertificateStatus?
    ensures Screened(g, DoReadCertificateStatus(g, c))
  {
    PeerLate(g, c);
    hide Screened, Take;
    var d := DoReadCertificateStatus(g, c);
    if d.io.log == c.io.log {
      Quiet(g, c, d);
    } else {
      TakeLog(c.io);
      Listens(g, c, d, c.io.pending[0]);
    }
  }

  lemma ScreenVerifyServerCertificate(g: Config, c: Client)
    requires Screened(g, c) && c.state.VerifyServerCertificate?
    ensures Screened(g, DoVerifyServerCertificate(g, c))
  {
    PeerLate(g, c);
    hide Screened, Asked, NextAnswer, Accepts;
    AskedSame(c.io, VerifyPeer);
    Quiet(g, c, DoVerifyServerCertificate(g, c));
  }

  lemma AskedSame(io: Io, op: Operation)
    ensures Asked(io, op).log == io.log
  {
  }

  lemma ScreenReadServerKeyExchange(g: Config, c: Client)
    requires Screened(g, c) && c.state.ReadServerKeyExchange?
    ensures Screened(g, DoReadServerKeyExchange(g, c))
  {
    PeerLate(g, c);
    hide Screened, Take;
    var d := DoReadServerKeyExchange(g, c);
    if d.io.log == c.io.log {
      Quiet(g, c, d);
    } else {
      TakeLog(c.io);
      Listens(g, c, d, c.io.pending[0]);
    }
  }

  lemma SoonTicket(c: Client, d: Client)
    requires c.state.ReadCertificateRequest? && (d.state.ReadCertificateRequest? || d.state.ReadServerHelloDone?)
    ensures BeforeTicket(c.state, c.deal) == BeforeTicket(d.state, c.deal)
  {
  }

  lemma ScreenReadCertificateRequest(g: Config, c: Client)
    requires Screened(g, c) && c.state.ReadCertificateRequest?
    ensures Screened(g, DoReadCertificateRequest(g, c))
  {
    PeerLate(g, c);
    hide Screened, Take, BeforeTicket;
    SoonTicket(c, DoReadCertificateRequest(g, c));
    var d := DoReadCertificateRequest(g, c);
    if d.request == c.request {
      Quiet(g, c, d);
    } else {
      TakeLog(c.io);
      Listens(g, c, d, c.io.pending[0]);
    }
  }

  lemma ScreenReadServerHelloDone(g: Config, c: Client)
    requires Screened(g, c) && c.state.ReadServerHelloDone?
    ensures Screened(g, DoReadServerHelloDone(g, c))
  {
    PeerLate(g, c);
    hide Screened, Take;
    var d := DoReadServerHelloDone(g, c);
    if d.state == c.state {
      Quiet(g, c, d);
    } else {
      TakeLog(c.io);
      Listens(g, c, d, c.io.pending[0]);
    }
  }

  lemma ScreenSendClientCertificate(g: Config, c: Client)
    requires Screened(g, c) && c.state.SendClientCertificate?
    ensures Screened(g, DoSendClientCertificate(g, c))
  {
    PeerLate(g, c);
    hide Screened, Emit, Asked, NextAnswer;
    AskedSame(c.io, CertificateLookup);
    var d := DoSendClientCertificate(g, c);
    if d.io.log == c.io.log {
      Quiet(g, c, d);
    } else {
      var m := Message(Certificate, g.certificate);
      EmitLog(if g.certCallback then Asked(c.io, CertificateLookup) else c.io, m);
      EmitLog(FreeBuffer(if g.certCallback then Asked(c.io, CertificateLookup) else c.io), m);
      Speaks(g, c, d, m);
    }
  }

  lemma ScreenSendClientKeyExchange(g: Config, c: Client)
    requires Screened(g, c) && c.state.SendClientKeyExchange?
    ensures Screened(g, DoSendClientKeyExchange(g, c))
  {
    PeerLate(g, c);
    hide Screened, Emit;
    var d := DoSendClientKeyExchange(g, c);
    if g.keyExchange.None? {
      Quiet(g, c, d);
    } else {
      var m := Message(ClientKeyExchange, g.keyExchange.value);
      EmitLog(c.io, m);
      Speaks(g, c, d, m);
    }
  }

  lemma ScreenSendClientCertificateVerify(g: Config, c: Client)
    requires Screened(g, c) && c.state.SendClientCertificateVerify?
    ensures Screened(g, DoSendClientCertificateVerify(g, c))
  {
    PeerLate(g, c);
    hide Screened, Emit, Asked, NextAnswer;
    AskedSame(c.io, PrivateKey);
    var d := DoSendClientCertificateVerify(g, c);
    if d.io.log == c.io.log {
      Quiet(g, c, d);
    } else {
      var signed := g.sign(if c.io.buffer.Some? then c.io.buffer.value else []);
      var m := Message(CertificateVerify, signed.value);
      EmitLog(if g.keyMethod then Asked(c.io, PrivateKey) else c.io, m);
      Speaks(g, c, d, m);
    }
  }

  lemma ScreenSendClientFinished(g: Config, c: Client)
    requires Screened(g, c) && c.state.SendClientFinished?
    ensures Screened(g, DoSendClientFinished(g, c))
  {
    PeerLate(g, c);
    hide Screened, FinishedFlight, SameChecks;
    var asks := c.deal.channelId && c.idKey.Missing?;
    var asked := if asks then Asked(c.io, ChannelIdLookup) else c.io;
    var d := DoSendClientFinished(g, c);
    FlightSame(g, c);
    if asks && !NextAnswer(c.io).Accept? { Quiet(g, c, d); } else { ScreenFlight(g, c, asked, d); }
  }

  lemma FlightSame(g: Config, c: Client)
    requires c.state.SendClientFinished? && (c.peer.Some? || c.peer.None?)
    ensures SameChecks(c, DoSendClientFinished(g, c))
    ensures Asked(c.io, ChannelIdLookup).log == c.io.log
  {
    hide FinishedFlight;
  }

  /** The flight, message by message. */
  lemma ScreenFlight(g: Config, c: Client, io: Io, d: Client)
    requires Screened(g, c) && c.state.SendClientFinished? && io.log == c.io.log && SameChecks(c, d)
    requires Negotiated(d.state) && d.io.log == FinishedFlight(g, c.deal, io).log
    ensures Screened(g, d)
  {
    hide Screened, Emit, SameChecks;
    var keyed := ChangeWriteKey(io);
    var c1 := c.(io := keyed);
    Same(c, c1);
    Quiet(g, c, c1);
    var next := Message(NextProto, g.nextProtocol);
    var proto := if c.deal.nextProto then Emit(keyed, next) else keyed;
    var c2 := c.(io := proto);
    Same(c1, c2);
    EmitLog(keyed, next);
    if c.deal.nextProto { Speaks(g, c1, c2, next); }
    var id := Message(ChannelId, g.channelIdProof(Digested(proto)));
    var last := if c.deal.channelId then Emit(proto, id) else proto;
    var c3 := c.(io := last);
    Same(c2, c3);
    EmitLog(proto, id);
    if c.deal.channelId { Speaks(g, c2, c3, id); }
    var m := Message(Finished, g.mac(false, Digested(last)));
    EmitLog(last, m);
    SameOn(c, c3, d);
    Speaks(g, c3, d, m);
  }

  lemma Same(c: Client, d: Client)
    requires d == c.(io := d.io) && c.state.SendClientFinished?
    ensures SameChecks(c, d)
  {
  }

  lemma SameOn(c: Client, c3: Client, d: Client)
    requires SameChecks(c, d) && c3 == c.(io := c3.io)
    ensures SameChecks(c3, d)
  {
  }

  lemma ScreenFinishFlight(g: Config, c: Client)
    requires Screened(g, c) && c.state.FinishFlight?
    ensures Screened(g, DoFinishFlight(g, c))
  {
    PeerLate(g, c);
    hide Screened;
    Quiet(g, c, DoFinishFlight(g, c));
  }

  /** What stays when the ticket is dealt with. */
  ghost predicate PastTicket(c: Client, d: Client) {
    && BeforeTicket(c.state, c.deal) && Negotiated(d.state) && !BeforeTicket(d.state, c.deal) && d.deal == c.deal
    && d.peer == c.peer && d.request == c.request && !BeforeRequest(d.state)
  }

  lemma NoneDue(g: Config, c: Client, d: Client)
    requires Screened(g, c) && PastTicket(c, d) && d.io.log == c.io.log && c.ticket.NoTicket? && d.ticket == c.ticket
    ensures Screened(g, d)
  {
    hide Settles;
  }

  lemma TakesTicket(g: Config, c: Client, d: Client, m: Message)
    requires Screened(g, c) && PastTicket(c, d) && d.io.log == c.io.log + [Took(m)] && c.ticket.TicketExpected?
    requires m.kind == NewSessionTicket && !g.parseTicket(m).BadTicket?
    requires d.ticket.TicketExpected? <==> g.parseTicket(m).NewTicket?
    ensures Screened(g, d)
  {
    hide Settles;
    assert Took(m) in d.io.log;
    forall s | Sent(s) in d.io.log ensures Uttered(g, d, s) {
      assert Sent(s) in c.io.log && Uttered(g, c, s);
    }
  }

  lemma ScreenReadSessionTicket(g: Config, c: Client)
    requires Screened(g, c) && c.state.ReadSessionTicket?
    ensures Screened(g, DoReadSessionTicket(g, c))
  {
    PeerLate(g, c);
    hide Screened, Take, TookTicket;
    var d := DoReadSessionTicket(g, c);
    if d.state == c.state {
      Quiet(g, c, d);
    } else if c.ticket.NoTicket? {
      NoneDue(g, c, d);
    } else {
      TakeLog(c.io);
      TakesTicket(g, c, d, c.io.pending[0]);
    }
  }

  lemma ScreenProcessChangeCipherSpec(g: Config, c: Client)
    requires Screened(g, c) && c.state.ProcessChangeCipherSpec?
    ensures Screened(g, DoProcessChangeCipherSpec(g, c))
  {
    PeerLate(g, c);
    hide Screened;
    Quiet(g, c, DoProcessChangeCipherSpec(g, c));
  }

  lemma ScreenReadServerFinished(g: Config, c: Client)
    requires Screened(g, c) && c.state.ReadServerFinished?
    ensures Screened(g, DoReadServerFinished(g, c))
  {
    PeerLate(g, c);
    hide Screened, Take;
    var d := DoReadServerFinished(g, c);
    if d.state == c.state {
      Quiet(g, c, d);
    } else {
      TakeLog(c.io);
      Listens(g, c, d, c.io.pending[0]);
    }
  }

  lemma ScreenFinishClientHandshake(g: Config, c: Client)
    requires Screened(g, c) && c.state.FinishClientHandshake?
    ensures Screened(g, DoFinishClientHandshake(g, c))
  {
    PeerLate(g, c);
    hide Screened;
    Quiet(g, c, DoFinishClientHandshake(g, c));
  }

  lemma ScreenStep(g: Config, c: Client)
    requires Screened(g, c)
    ensures Screened(g, Step(g, c))
  {
    hide Screened;
    if !c.io.wait.Go? {
      ScreenResolve(g, c);
    } else {
      match c.state
      case StartConnect => ScreenStartConnect(g, c);
      case EnterEarlyData => ScreenEnterEarlyData(g, c);
      case ReadHelloVerifyRequest => ScreenReadHelloVerifyRequest(g, c);
      case ReadServerHello => ScreenReadServerHello(g, c);
      case Tls13 => ScreenTls13(g, c);
      case ReadServerCertificate => ScreenReadServerCertificate(g, c);
      case ReadCertificateStatus => ScreenReadCertificateStatus(g, c);
      case VerifyServerCertificate => ScreenVerifyServerCertificate(g, c);
      case ReadServerKeyExchange => ScreenReadServerKeyExchange(g, c);
      case ReadCertificateRequest => ScreenReadCertificateRequest(g, c);
      case ReadServerHelloDone => ScreenReadServerHelloDone(g, c);
      case SendClientCertificate => ScreenSendClientCertificate(g, c);
      case SendClientKeyExchange => ScreenSendClientKeyExchange(g, c);
      case SendClientCertificateVerify => ScreenSendClientCertificateVerify(g, c);
      case SendClientFinished => ScreenSendClientFinished(g, c);
      case FinishFlight => ScreenFinishFlight(g, c);
      case ReadSessionTicket => ScreenReadSessionTicket(g, c);
      case ProcessChangeCipherSpec => ScreenProcessChangeCipherSpec(g, c);
      case ReadServerFinished => ScreenReadServerFinished(g, c);
      case FinishClientHandshake => ScreenFinishClientHandshake(g, c);
      case Done =>
    }
  }

  lemma ScreenResolve(g: Config, c: Client)
    requires Screened(g, c)
    ensures Screened(g, c.(io := Resolve(c.io)))
  {
    PeerLate(g, c);
    OnlyDtls(g, c);
    hide Screened, Resolve;
    ResolveSame(c.io);
    Quiet(g, c, c.(io := Resolve(c.io)));
  }

  lemma ScreenTls13(g: Config, c: Client)
    requires Screened(g, c) && c.state.Tls13?
    ensures Screened(g, c.(io := c.io.(wait := LeftForTls13)))
  {
    PeerLate(g, c);
    hide Screened;
    Quiet(g, c, c.(io := c.io.(wait := LeftForTls13)));
  }

  /** Every message of every run of a client, whatever becomes of it, passed the checks of its kind. */
  lemma {:induction false} AllChecked(g: Config, inbox: seq<Record>, answers: seq<Answer>, flushes: seq<bool>,
                                      turns: nat)
    ensures Screened(g, Run(g, New(g, inbox, answers, flushes), turns))
  {
    hide Step;
    if turns > 0 {
      AllChecked(g, inbox, answers, flushes, turns - 1);
      ScreenStep(g, Run(g, New(g, inbox, answers, flushes), turns - 1));
    }
  }

  // ---------------------------------------------------------------- what follows

  /** The chain of the server passed: by what was established, by the callback's answer, or by being trusted. */
  ghost predicate Passed(g: Config, log: seq<Event>, cert: Message) {
    && Took(cert) in log && cert.kind == Certificate && g.chainOk(cert)
    && (g.established.Some? ==> g.established.value == cert)
    && (g.established.None? && !g.customVerify ==> g.chainTrusted(cert))
    && (g.established.None? && g.customVerify ==>
          PeerVerified(cert, Some(Accept)) in log || (g.verifyNone && PeerVerified(cert, Some(Refuse)) in log))
  }

  /** A client does not complete a full handshake under a certificate cipher with a chain that did not pass. */
  lemma ServerTrusted(g: Config, inbox: seq<Record>, answers: seq<Answer>, flushes: seq<bool>, turns: nat)
    requires var c := Run(g, New(g, inbox, answers, flushes), turns);
             c.state.Done? && !c.deal.resumed && c.deal.cipher.certAuth
    ensures exists cert :: Passed(g, Run(g, New(g, inbox, answers, flushes), turns).io.log, cert)
  {
    AllChecked(g, inbox, answers, flushes, turns);
    CompletionSafety(g, inbox, answers, flushes, turns);
    KeepRun(g, inbox, answers, flushes, turns);
    var c := Run(g, New(g, inbox, answers, flushes), turns);
    hide *;
    PeerKind(g, c, Arriving(inbox));
    DoneAuthenticated(g, c, inbox);
    AcceptedPasses(g, c);
    assert Passed(g, c.io.log, c.peer.value);
  }

  lemma DoneAuthenticated(g: Config, c: Client, inbox: seq<Record>)
    requires Completed(g, c, inbox) && !c.deal.resumed && c.deal.cipher.certAuth
    ensures ServerAuthenticated(g, c)
  {
    hide ServerAuthenticated, Count, PeerFinishedAt, OwnFinishedAt, Hashed, Used;
  }

  lemma AcceptedPasses(g: Config, c: Client)
    requires Screened(g, c) && ServerAuthenticated(g, c) && c.peer.value.kind == Certificate
    ensures Passed(g, c.io.log, c.peer.value)
  {
    hide Uttered;
    var cert := c.peer.value;
    assert Heard(g, c, cert);
    var a :| PeerVerified(cert, a) in c.io.log && Vouched(g, cert, a);
  }

  lemma PeerKind(g: Config, c: Client, all: seq<Message>)
    requires Inv(g, c, all) && c.state.Done? && !c.deal.resumed && c.deal.cipher.certAuth
    ensures c.peer.Some? && c.peer.value.kind == Certificate
  {
    hide Hashed, Used, Arriving;
    CertificateKind(c.io.log);
  }

  /** The state that verifies a chain fails exactly for what is refused, not trusted, or not the established one. */
  lemma VerifyDecides(g: Config, c: Client)
    requires c.state.VerifyServerCertificate? && c.io.wait.Go? && c.deal.cipher.certAuth && c.peer.Some?
    ensures var d := Do(g, c);
            && (d.io.wait.Failed? <==>
                  if g.established.Some? then g.established.value != c.peer.value
                  else if g.customVerify then NextAnswer(c.io).Refuse? && !g.verifyNone
                  else !g.chainTrusted(c.peer.value))
            && (d.state == ReadServerKeyExchange <==>
                  if g.established.Some? then g.established.value == c.peer.value
                  else if g.customVerify then NextAnswer(c.io).Accept? || (NextAnswer(c.io).Refuse? && g.verifyNone)
                  else g.chainTrusted(c.peer.value))
  {
  }
}
