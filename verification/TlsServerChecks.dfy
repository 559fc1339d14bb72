/**
What a server has checked, at every moment of every run: each message that it took passed the checks that its kind
is subject to, what was settled is what the ClientHello and the configuration say, and each message that it sent is
its own.
*/
module TlsServerChecks {
  import opened Wire
  import opened TlsHandshake
  import opened TlsServer

  predicate Negotiated(s: State) {
    !PreHello(s) && !s.Tls13?
  }

  /** When a client is asked for its certificate: in a full handshake, by a server that wants to see one. */
  ghost predicate Asks(g: Config, m: Message, cipher: Cipher)
    requires g.parseHello(m).Some?
  {
    && g.lookup(m).NoSession? && g.verifyPeer && cipher.certAuth
    && (g.parseHello(m).value.channelId ==> !g.unlessChannelId)
  }

  /** What a ClientHello settles. */
  ghost predicate Settles(g: Config, c: Server, m: Message) {
    && g.parseHello(m).Some? && !g.lookup(m).BadLookup? && g.certificateFits
    && g.parseHello(m).value.acceptable && !g.parseHello(m).value.version13
    && c.hello == g.parseHello(m)
    && g.chooseCipher(m) == Some(c.deal.cipher)
    && (c.deal.resumed <==> g.lookup(m).Found?)
    && (c.deal.requested <==> Asks(g, m, c.deal.cipher))
    && (c.deal.keepsChannelId <==> (g.lookup(m).Found? ==> g.lookup(m).keepsChannelId))
    && (c.ticket.TicketExpected? <==> if g.lookup(m).Found? then g.lookup(m).renew else g.lookup(m).tickets)
    && (c.channelId.WithChannelId? <==>
          && g.parseHello(m).value.channelId
          && (c.state.SendServerHello? || (c.deal.cipher.kx.Ecdhe? && c.deal.keepsChannelId)))
  }

  /** A message that was taken; for what is signed or authenticated see `Legit`. */
  ghost predicate Heard(g: Config, c: Server, m: Message) {
    match m.kind
    case ClientHello => Settles(g, c, m)
    case Certificate =>
      && c.deal.requested && g.chainOk(m)
      && if g.chainEmpty(m) then !g.requireCertificate && c.peer.None? else c.peer == Some(m)
    case ClientKeyExchange => g.exchangeOk(c.deal.cipher, m) && g.secretOk(c.deal.cipher, m)
    case CertificateVerify => c.peer.Some?
    case NextProto => c.hello.Some? && c.hello.value.nextProto && g.nextProtoOk(m)
    case ChannelId => c.channelId.WithChannelId?
    case Finished => true
    case _ => false
  }

  /** A message that was sent. */
  ghost predicate Uttered(g: Config, c: Server, m: Message) {
    match m.kind
    case ServerHello => m.body == g.hello
    case Certificate => c.deal.cipher.certAuth && g.hasCertificate && m.body == g.certificate
    case CertificateStatus => c.deal.cipher.certAuth && c.hello.Some? && c.hello.value.status && m.body == g.status
    case ServerKeyExchange =>
      && (c.deal.cipher.kx.Ecdhe? || (c.deal.cipher.psk && g.identityHint)) && g.paramsOk
      && g.exchange == Some(m.body) && (c.deal.cipher.certAuth ==> g.hasPrivateKey)
    case CertificateRequest => c.deal.requested && m.body == g.request
    case ServerHelloDone => m.body == []
    case NewSessionTicket => c.ticket.TicketExpected? && g.ticket == Some(m.body)
    case Finished => true
    case _ => false
  }

  /** The message that is being negotiated over. */
  ghost predicate AtHand(g: Config, c: Server) {
    && c.io.pending != [] && c.io.pending[0].kind == ClientHello && c.hello == g.parseHello(c.io.pending[0])
    && c.hello.Some? && c.hello.value.acceptable
    && (c.channelId.WithChannelId? <==> c.hello.value.channelId)
    && (c.state.SelectParameters? ==>
          g.certificateFits && !c.hello.value.version13 && g.chooseCipher(c.io.pending[0]) == Some(c.deal.cipher))
  }

  ghost predicate Screened(g: Config, c: Server) {
    && (forall m :: Took(m) in c.io.log ==> Heard(g, c, m))
    && (forall m :: Sent(m) in c.io.log ==> Uttered(g, c, m))
    && (if Negotiated(c.state) then exists m :: Took(m) in c.io.log && m.kind == ClientHello
        else forall m :: Took(m) !in c.io.log && Sent(m) !in c.io.log)
    && (c.state.SelectCertificate? || c.state.SelectParameters? ==> AtHand(g, c))
    && (c.peer.Some? ==> !BeforeCertificate(c.state) && !c.deal.resumed)
    && (!Negotiated(c.state) ==> !c.deal.resumed && c.params.NoParams?)
    && (c.params.ParamsReady? ==>
          (c.deal.cipher.kx.Ecdhe? || (c.deal.cipher.psk && g.identityHint)) && g.paramsOk)
    && (BeforeCertificate(c.state) ==> forall m :: Took(m) in c.io.log ==> m.kind == ClientHello)
    && (c.state.SendServerHello? ==> forall m :: Sent(m) !in c.io.log)
  }

  /** The state of a server with a longer log, as far as the checks are concerned. */
  ghost predicate SameChecks(c: Server, d: Server) {
    && d.deal == c.deal && d.ticket == c.ticket && d.peer == c.peer && d.hello == c.hello
    && Negotiated(c.state) && Negotiated(d.state)
    && d.channelId == c.channelId && (c.state.SendServerHello? <==> d.state.SendServerHello?)
    && (d.params == c.params || d.params.NoParams?)
    && (BeforeCertificate(c.state) <==> BeforeCertificate(d.state))
  }

  lemma StillHeard(g: Config, c: Server, d: Server, m: Message)
    requires SameChecks(c, d) && Heard(g, c, m)
    ensures Heard(g, d, m)
  {
    hide Asks, BeforeCertificate;
  }

  lemma StillUttered(g: Config, c: Server, d: Server, m: Message)
    requires SameChecks(c, d) && Uttered(g, c, m)
    ensures Uttered(g, d, m)
  {
    hide BeforeCertificate;
  }

  /** Nothing is added to the log, or one message. */
  ghost predicate Adds(c: Server, d: Server, e: Event) {
    forall m :: && (Took(m) in d.io.log <==> Took(m) in c.io.log || e == Took(m))
                && (Sent(m) in d.io.log <==> Sent(m) in c.io.log || e == Sent(m))
  }

  lemma Goes(g: Config, c: Server, d: Server, e: Event)
    requires Screened(g, c) && SameChecks(c, d) && Adds(c, d, e)
    requires e.Sent? ==> Uttered(g, d, e.m)
    requires e.Took? ==> Heard(g, d, e.m) && e.m.kind != ClientHello && e.m.kind != Certificate
    requires e.Sent? || e.Took? ==> !d.state.SendServerHello?
    requires e.Took? ==> !BeforeCertificate(d.state)
    ensures Screened(g, d)
  {
    hide Heard, Uttered, BeforeCertificate, PreHello, AtHand;
    Hidden(d);
    var hello :| Took(hello) in c.io.log && hello.kind == ClientHello;
    assert Took(hello) in d.io.log;
    forall m | Took(m) in d.io.log ensures Heard(g, d, m) {
      if e != Took(m) { StillHeard(g, c, d, m); }
    }
    forall m | Sent(m) in d.io.log ensures Uttered(g, d, m) {
      if e != Sent(m) { StillUttered(g, c, d, m); }
    }
  }

  lemma Hidden(d: Server)
    ensures Negotiated(d.state) ==> !d.state.SelectCertificate? && !d.state.SelectParameters?
  {
  }

  lemma Quiet(g: Config, c: Server, d: Server)
    requires Screened(g, c) && SameChecks(c, d)
    requires forall m :: && (Took(m) in d.io.log <==> Took(m) in c.io.log)
                         && (Sent(m) in d.io.log <==> Sent(m) in c.io.log)
    ensures Screened(g, d)
  {
    hide Screened, SameChecks;
    Goes(g, c, d, SentChangeCipherSpec);
  }

  lemma Speaks(g: Config, c: Server, d: Server, m: Message)
    requires Screened(g, c) && SameChecks(c, d) && d.io.log == c.io.log + [Sent(m)] && Uttered(g, d, m)
    requires !d.state.SendServerHello?
    ensures Screened(g, d)
  {
    hide Screened, SameChecks;
    Goes(g, c, d, Sent(m));
  }

  /** One message is taken, which is neither ClientHello nor Certificate. */
  lemma Listens(g: Config, c: Server, d: Server, m: Message)
    requires Screened(g, c) && SameChecks(c, d) && d.io.log == c.io.log + [Took(m)] && Heard(g, d, m)
    requires m.kind != ClientHello && m.kind != Certificate && !BeforeCertificate(d.state)
    ensures Screened(g, d)
  {
    hide Screened, SameChecks;
    Goes(g, c, d, Took(m));
  }

  // ---------------------------------------------------------------- each state keeps to its checks

  /** Before a ClientHello is taken there is nothing in the log. */
  lemma Early(g: Config, c: Server, d: Server)
    requires Screened(g, c) && !Negotiated(c.state) && !Negotiated(d.state)
    requires forall m :: && (Took(m) in d.io.log <==> Took(m) in c.io.log)
                         && (Sent(m) in d.io.log <==> Sent(m) in c.io.log)
    requires d.peer == c.peer && !d.deal.resumed && d.params == c.params && d.params.NoParams?
    requires d.state.SelectCertificate? || d.state.SelectParameters? ==> AtHand(g, d)
    ensures Screened(g, d)
  {
  }

  lemma EarlyFacts(g: Config, c: Server)
    requires Screened(g, c) && !Negotiated(c.state)
    ensures c.peer.None? && !c.deal.resumed && c.params.NoParams?
    ensures (c.state.SelectCertificate? || c.state.SelectParameters? ==> AtHand(g, c))
  {
  }

  lemma ScreenStartAccept(g: Config, c: Server)
    requires Screened(g, c) && c.state.StartAccept?
    ensures Screened(g, DoStartAccept(g, c))
  {
    EarlyFacts(g, c);
    hide Screened;
    Early(g, c, DoStartAccept(g, c));
  }

  lemma AskedSame(io: Io, op: Operation)
    ensures Asked(io, op).log == io.log && Asked(io, op).pending == io.pending
  {
  }

  lemma ScreenReadClientHello(g: Config, c: Server)
    requires Screened(g, c) && c.state.ReadClientHello?
    ensures Screened(g, DoReadClientHello(g, c))
  {
    EarlyFacts(g, c);
    hide Screened, Asked, NextAnswer;
    AskedSame(c.io, CertificateSelection);
    Early(g, c, DoReadClientHello(g, c));
  }

  lemma ScreenSelectCertificate(g: Config, c: Server)
    requires Screened(g, c) && c.state.SelectCertificate?
    ensures Screened(g, DoSelectCertificate(g, c))
  {
    EarlyFacts(g, c);
    hide Screened, Asked, NextAnswer;
    AskedSame(c.io, CertificateLookup);
    Early(g, c, DoSelectCertificate(g, c));
  }

  /** The ClientHello is taken. */
  lemma Begins(g: Config, c: Server, d: Server, m: Message)
    requires Screened(g, c) && !Negotiated(c.state) && d.state.SendServerHello?
    requires d.peer == c.peer && d.params == c.params && d.io.log == c.io.log + [Took(m)]
    requires m.kind == ClientHello && Settles(g, d, m)
    ensures Screened(g, d)
  {
    hide Settles;
    assert Took(m) in d.io.log;
  }

  lemma SettlesNow(g: Config, c: Server, found: Lookup)
    requires AtHand(g, c) && c.state.SelectParameters? && found == g.lookup(c.io.pending[0]) && !found.BadLookup?
    ensures Settles(g, Settle(g, c, found), c.io.pending[0])
  {
    hide Take;
  }

  lemma ScreenSelectParameters(g: Config, c: Server)
    requires Screened(g, c) && c.state.SelectParameters?
    ensures Screened(g, DoSelectParameters(g, c))
  {
    EarlyFacts(g, c);
    hide Screened, Asked, NextAnswer, Take, Settles;
    AskedSame(c.io, SessionLookup);
    var asked := if g.lookupCallback then Asked(c.io, SessionLookup) else c.io;
    var d := DoSelectParameters(g, c);
    if d.state == c.state {
      Early(g, c, d);
    } else {
      TakeLog(InitHash(asked));
      SettlesNow(g, c.(io := asked), g.lookup(c.io.pending[0]));
      Begins(g, c, d, c.io.pending[0]);
    }
  }

  lemma ScreenTls13(g: Config, c: Server)
    requires Screened(g, c) && c.state.Tls13?
    ensures Screened(g, c.(io := c.io.(wait := LeftForTls13)))
  {
    EarlyFacts(g, c);
    hide Screened;
    Early(g, c, c.(io := c.io.(wait := LeftForTls13)));
  }

  /** The use of a ChannelID is settled when the ServerHello is sent. */
  lemma ScreenSendServerHello(g: Config, c: Server)
    requires Screened(g, c) && c.state.SendServerHello?
    ensures Screened(g, DoSendServerHello(g, c))
  {
    hide Emit, Asks;
    var d, m := DoSendServerHello(g, c), Message(ServerHello, g.hello);
    EmitLog(c.io, m);
    assert d.io.log == c.io.log + [Sent(m)];
    var hello :| Took(hello) in c.io.log && hello.kind == ClientHello;
    assert Took(hello) in d.io.log;
    forall s | Sent(s) in d.io.log ensures s == m {}
  }

  // A full handshake from the server's certificate on.

  lemma ScreenSendServerCertificate(g: Config, c: Server)
    requires Screened(g, c) && c.state.SendServerCertificate?
    ensures Screened(g, DoSendServerCertificate(g, c))
  {
    ParamsFit(g, c);
    hide Screened, Emit;
    var d := DoSendServerCertificate(g, c);
    if d.state == c.state {
      Quiet(g, c, d);
    } else if !c.deal.cipher.certAuth {
      Prepares(g, c, d);
    } else {
      var m := Message(Certificate, g.certificate);
      var c1 := c.(io := Emit(c.io, m));
      EmitLog(c.io, m);
      Speaks(g, c, c1, m);
      var c2 := c.(io := d.io);
      if c.hello.Some? && c.hello.value.status {
        EmitLog(c1.io, Message(CertificateStatus, g.status));
        Speaks(g, c1, c2, Message(CertificateStatus, g.status));
      }
      Prepares(g, c2, d);
    }
  }

  lemma ParamsFit(g: Config, c: Server)
    requires Screened(g, c)
    ensures c.params.ParamsReady? ==>
              (c.deal.cipher.kx.Ecdhe? || (c.deal.cipher.psk && g.identityHint)) && g.paramsOk
  {
  }

  /** The parameters of the key exchange are prepared. */
  lemma Prepares(g: Config, c: Server, d: Server)
    requires Screened(g, c) && c.state.SendServerCertificate? && d.state.SendServerKeyExchange?
    requires d == c.(state := d.state, params := d.params)
    requires d.params.ParamsReady? ==>
               (c.deal.cipher.kx.Ecdhe? || (c.deal.cipher.psk && g.identityHint)) && g.paramsOk
    ensures Screened(g, d)
  {
    hide Heard, Uttered, AtHand;
    forall m | Took(m) in d.io.log ensures Heard(g, d, m) { PreparedHeard(g, c, d, m); }
    forall m | Sent(m) in d.io.log ensures Uttered(g, d, m) { PreparedUttered(g, c, d, m); }
  }

  lemma PreparedHeard(g: Config, c: Server, d: Server, m: Message)
    requires c.state.SendServerCertificate? && d.state.SendServerKeyExchange?
    requires d == c.(state := d.state, params := d.params) && Heard(g, c, m)
    ensures Heard(g, d, m)
  {
    hide Asks;
  }

  lemma PreparedUttered(g: Config, c: Server, d: Server, m: Message)
    requires d == c.(state := d.state, params := d.params) && Uttered(g, c, m)
    ensures Uttered(g, d, m)
  {
  }

  lemma ScreenSendServerKeyExchange(g: Config, c: Server)
    requires Screened(g, c) && c.state.SendServerKeyExchange?
    ensures Screened(g, DoSendServerKeyExchange(g, c))
  {
    ParamsFit(g, c);
    hide Screened, Emit, Asked, NextAnswer;
    AskedSame(c.io, PrivateKey);
    var d := DoSendServerKeyExchange(g, c);
    if d.io.log == c.io.log {
      Quiet(g, c, d);
    } else {
      var m := Message(ServerKeyExchange, g.exchange.value);
      EmitLog(if c.deal.cipher.certAuth && g.keyMethod then Asked(c.io, PrivateKey) else c.io, m);
      Speaks(g, c, d, m);
    }
  }

  lemma ScreenSendServerHelloDone(g: Config, c: Server)
    requires Screened(g, c) && c.state.SendServerHelloDone?
    ensures Screened(g, DoSendServerHelloDone(g, c))
  {
    hide Screened, Emit;
    var m, done := Message(CertificateRequest, g.request), Message(ServerHelloDone, []);
    var c1 := c.(io := if c.deal.requested then Emit(c.io, m) else c.io);
    EmitLog(c.io, m);
    if c.deal.requested { Speaks(g, c, c1, m); }
    EmitLog(c1.io, done);
    Speaks(g, c1, DoSendServerHelloDone(g, c), done);
  }

  /** What holds of a full handshake that waits for the client's certificate. */
  lemma NoneYet(g: Config, c: Server)
    requires Screened(g, c) && BeforeCertificate(c.state)
    ensures c.peer.None? && forall m :: Took(m) in c.io.log ==> m.kind == ClientHello
  {
  }

  /** The client's certificate, or none if none was asked for. */
  lemma Presented(g: Config, c: Server, d: Server, e: Event)
    requires Screened(g, c) && c.state.ReadClientCertificate? && d.state.VerifyClientCertificate?
    requires d == c.(state := d.state, peer := d.peer, io := d.io) && Adds(c, d, e) && !e.Sent?
    requires e.Took? ==> e.m.kind == Certificate && Heard(g, d, e.m)
    requires d.peer.Some? ==> !c.deal.resumed
    ensures Screened(g, d)
  {
    NoneYet(g, c);
    hide Heard, Uttered, AtHand;
    var hello :| Took(hello) in c.io.log && hello.kind == ClientHello;
    assert Took(hello) in d.io.log;
    forall m | Took(m) in d.io.log ensures Heard(g, d, m) {
      if e != Took(m) { PresentedHeard(g, c, d, m); }
    }
    forall m | Sent(m) in d.io.log ensures Uttered(g, d, m) { PresentedUttered(g, c, d, m); }
  }

  lemma PresentedHeard(g: Config, c: Server, d: Server, m: Message)
    requires c.state.ReadClientCertificate? && d.state.VerifyClientCertificate?
    requires d == c.(state := d.state, peer := d.peer, io := d.io) && Heard(g, c, m) && m.kind == ClientHello
    ensures Heard(g, d, m)
  {
    hide Asks;
  }

  lemma PresentedUttered(g: Config, c: Server, d: Server, m: Message)
    requires d == c.(state := d.state, peer := d.peer, io := d.io) && Uttered(g, c, m)
    ensures Uttered(g, d, m)
  {
  }

  lemma RequestFull(g: Config, c: Server)
    requires Screened(g, c) && Negotiated(c.state) && c.deal.requested
    ensures !c.deal.resumed
  {
    var hello :| Took(hello) in c.io.log && hello.kind == ClientHello;
    assert Heard(g, c, hello);
  }

  lemma ScreenReadClientCertificate(g: Config, c: Server)
    requires Screened(g, c) && c.state.ReadClientCertificate?
    ensures Screened(g, DoReadClientCertificate(g, c))
  {
    NoneYet(g, c);
    if c.deal.requested { RequestFull(g, c); }
    hide Screened, Take;
    var d := DoReadClientCertificate(g, c);
    if d.state == c.state {
      Quiet(g, c, d);
    } else if d.io.log == c.io.log {
      Presented(g, c, d, SentChangeCipherSpec);
    } else {
      TakeLog(c.io);
      Presented(g, c, d, Took(c.io.pending[0]));
    }
  }

  lemma ScreenVerifyClientCertificate(g: Config, c: Server)
    requires Screened(g, c) && c.state.VerifyClientCertificate?
    ensures Screened(g, DoVerifyClientCertificate(g, c))
  {
    hide Screened, Asked, NextAnswer, Accepts;
    AskedSame(c.io, VerifyPeer);
    Quiet(g, c, DoVerifyClientCertificate(g, c));
  }

  lemma ScreenReadClientKeyExchange(g: Config, c: Server)
    requires Screened(g, c) && c.state.ReadClientKeyExchange?
    ensures Screened(g, DoReadClientKeyExchange(g, c))
  {
    hide Screened, Asked, NextAnswer, Take;
    AskedSame(c.io, PrivateKey);
    var asked := if c.deal.cipher.kx.Rsa? && g.keyMethod then Asked(c.io, PrivateKey) else c.io;
    var d := DoReadClientKeyExchange(g, c);
    if d.state == c.state {
      Quiet(g, c, d);
    } else {
      TakeLog(asked);
      Listens(g, c, d, c.io.pending[0]);
    }
  }

  lemma ScreenReadClientCertificateVerify(g: Config, c: Server)
    requires Screened(g, c) && c.state.ReadClientCertificateVerify?
    ensures Screened(g, DoReadClientCertificateVerify(g, c))
  {
    hide Screened, Take;
    var d := DoReadClientCertificateVerify(g, c);
    if d.io.log == c.io.log {
      Quiet(g, c, d);
    } else {
      TakeLog(FreeBuffer(c.io));
      Listens(g, c, d, c.io.pending[0]);
    }
  }

  // Both kinds of handshake.

  lemma ScreenKeys(g: Config, c: Server)
    requires Screened(g, c) && (c.state.AwaitChangeCipherSpec? || c.state.ProcessChangeCipherSpec?)
    ensures Screened(g, Do(g, c))
  {
    hide Screened;
    Quiet(g, c, Do(g, c));
  }

  lemma ScreenReadNextProto(g: Config, c: Server)
    requires Screened(g, c) && c.state.ReadNextProto?
    ensures Screened(g, DoReadNextProto(g, c))
  {
    hide Screened, Take;
    var d := DoReadNextProto(g, c);
    if d.io.log == c.io.log {
      Quiet(g, c, d);
    } else {
      TakeLog(c.io);
      Listens(g, c, d, c.io.pending[0]);
    }
  }

  lemma ScreenReadChannelId(g: Config, c: Server)
    requires Screened(g, c) && c.state.ReadChannelId?
    ensures Screened(g, DoReadChannelId(g, c))
  {
    hide Screened, Take;
    var d := DoReadChannelId(g, c);
    if d.io.log == c.io.log {
      Quiet(g, c, d);
    } else {
      TakeLog(c.io);
      Listens(g, c, d, c.io.pending[0]);
    }
  }

  lemma ScreenReadClientFinished(g: Config, c: Server)
    requires Screened(g, c) && c.state.ReadClientFinished?
    ensures Screened(g, DoReadClientFinished(g, c))
  {
    hide Screened, Take;
    var d := DoReadClientFinished(g, c);
    if d.io.log == c.io.log {
      Quiet(g, c, d);
    } else {
      TakeLog(c.io);
      Listens(g, c, d, c.io.pending[0]);
    }
  }

  lemma ScreenSendServerFinished(g: Config, c: Server)
    requires Screened(g, c) && c.state.SendServerFinished?
    ensures Screened(g, DoSendServerFinished(g, c))
  {
    hide Screened, Emit;
    var d := DoSendServerFinished(g, c);
    if c.ticket.TicketExpected? && g.ticket.None? {
      Quiet(g, c, d);
    } else {
      var c1 := c;
      if c.ticket.TicketExpected? {
        var m := Message(NewSessionTicket, g.ticket.value);
        c1 := c.(io := Emit(c.io, m));
        EmitLog(c.io, m);
        Speaks(g, c, c1, m);
      }
      var c2 := c.(io := ChangeWriteKey(c1.io));
      Quiet(g, c1, c2);
      var m := Message(Finished, g.mac(true, Digested(c2.io)));
      EmitLog(c2.io, m);
      Speaks(g, c2, d, m);
    }
  }

  lemma ScreenFinishServerHandshake(g: Config, c: Server)
    requires Screened(g, c) && c.state.FinishServerHandshake?
    ensures Screened(g, DoFinishServerHandshake(g, c))
  {
    hide Screened;
    Quiet(g, c, DoFinishServerHandshake(g, c));
  }

  lemma ScreenResolve(g: Config, c: Server)
    requires Screened(g, c)
    ensures Screened(g, c.(io := Resolve(c.io)))
  {
    if !Negotiated(c.state) { EarlyFacts(g, c); }
    hide Screened, Resolve;
    ResolveSame(c.io);
    var d := c.(io := Resolve(c.io));
    if Negotiated(c.state) { Quiet(g, c, d); } else { Early(g, c, d); }
  }

  lemma ScreenStep(g: Config, c: Server)
    requires Screened(g, c)
    ensures Screened(g, Step(g, c))
  {
    hide Screened;
    if !c.io.wait.Go? {
      ScreenResolve(g, c);
    } else {
      match c.state
      case StartAccept => ScreenStartAccept(g, c);
      case ReadClientHello => ScreenReadClientHello(g, c);
      case SelectCertificate => ScreenSelectCertificate(g, c);
      case Tls13 => ScreenTls13(g, c);
      case SelectParameters => ScreenSelectParameters(g, c);
      case SendServerHello => ScreenSendServerHello(g, c);
      case SendServerCertificate => ScreenSendServerCertificate(g, c);
      case SendServerKeyExchange => ScreenSendServerKeyExchange(g, c);
      case SendServerHelloDone => ScreenSendServerHelloDone(g, c);
      case ReadClientCertificate => ScreenReadClientCertificate(g, c);
      case VerifyClientCertificate => ScreenVerifyClientCertificate(g, c);
      case ReadClientKeyExchange => ScreenReadClientKeyExchange(g, c);
      case ReadClientCertificateVerify => ScreenReadClientCertificateVerify(g, c);
      case AwaitChangeCipherSpec => ScreenKeys(g, c);
      case ProcessChangeCipherSpec => ScreenKeys(g, c);
      case ReadNextProto => ScreenReadNextProto(g, c);
      case ReadChannelId => ScreenReadChannelId(g, c);
      case ReadClientFinished => ScreenReadClientFinished(g, c);
      case SendServerFinished => ScreenSendServerFinished(g, c);
      case FinishServerHandshake => ScreenFinishServerHandshake(g, c);
      case Done =>
    }
  }

  /** Every message of every run of a server, whatever becomes of it, passed the checks of its kind. */
  lemma {:induction false} AllChecked(g: Config, inbox: seq<Record>, answers: seq<Answer>, flushes: seq<bool>,
                                      turns: nat)
    ensures Screened(g, Run(g, New(g, inbox, answers, flushes), turns))
  {
    hide Step;
    if turns > 0 {
      AllChecked(g, inbox, answers, flushes, turns - 1);
      ScreenStep(g, Run(g, New(g, inbox, answers, flushes), turns - 1));
    }
  }

  // ---------------------------------------------------------------- what follows

  /** The client proved the key of a chain that is not empty and that was accepted. */
  ghost predicate Proved(g: Config, log: seq<Event>, cert: Message, i: nat) {
    && Took(cert) in log && cert.kind == Certificate && g.chainOk(cert) && !g.chainEmpty(cert)
    && i < |log| && log[i].Took? && log[i].m.kind == CertificateVerify && g.provesKey(cert, Hashed(log[..i]), log[i].m)
    && (!g.customVerify ==> g.chainTrusted(cert))
    && (g.customVerify ==> PeerVerified(cert, Some(Accept)) in log
                           || (g.verifyNone && PeerVerified(cert, Some(Refuse)) in log))
  }

  /** Who is done after a request for a certificate, and requires one, has a chain that is not empty. */
  lemma Shown(g: Config, c: Server, m: Message, inbox: seq<Record>)
    requires Screened(g, c) && Completed(g, c, inbox) && Took(m) in c.io.log && m.kind == ClientHello
    requires c.deal.cipher.certAuth && g.verifyPeer && g.requireCertificate && g.lookup(m).NoSession?
    requires !g.unlessChannelId || (g.parseHello(m).Some? && !g.parseHello(m).value.channelId)
    ensures c.peer.Some? && Took(c.peer.value) in c.io.log && !g.chainEmpty(c.peer.value)
  {
    hide Hashed, Count, PeerFinishedAt, OwnFinishedAt, HelloChose, Used, AtHand, Uttered, ClientAuthenticated;
    assert Heard(g, c, m);
  }

  lemma HeardThat(g: Config, c: Server, cert: Message)
    requires Screened(g, c) && Took(cert) in c.io.log
    ensures Heard(g, c, cert)
  {
  }

  /** A key that was proved belongs to a chain that was accepted before. */
  lemma KeyProved(g: Config, log: seq<Event>, cert: Message, i: nat)
    requires KeyProvedAt(g, log, cert, i) && Took(cert) in log && cert.kind == Certificate
    requires g.chainOk(cert) && !g.chainEmpty(cert)
    ensures Proved(g, log, cert, i)
  {
    hide Hashed;
    var a :| PeerVerified(cert, a) in log[..i] && Vouched(g, cert, a);
    assert PeerVerified(cert, a) in log;
  }

  lemma CertificateHeard(g: Config, c: Server, cert: Message)
    requires Heard(g, c, cert) && cert.kind == Certificate
    ensures g.chainOk(cert)
  {
  }

  lemma Authenticated(g: Config, c: Server, cert: Message, inbox: seq<Record>)
    requires Completed(g, c, inbox) && cert.kind == Certificate && Took(cert) in c.io.log && !g.chainEmpty(cert)
    ensures exists i :: KeyProvedAt(g, c.io.log, cert, i)
  {
    hide Hashed, Count, PeerFinishedAt, OwnFinishedAt, HelloChose, Used, KeyProvedAt;
  }

  lemma PeerKind(g: Config, c: Server, all: seq<Message>)
    requires Inv(g, c, all) && c.state.Done? && c.peer.Some?
    ensures c.peer.value.kind == Certificate
  {
    hide Hashed, Used, Arriving;
    CertificateKind(c.io.log);
  }

  /**
  A server that verifies its peers and requires a certificate does not complete a full handshake under a certificate
  cipher with a client that has not proved one, but for the exemption of clients that offer a ChannelID.
  */
  lemma ClientVerified(g: Config, inbox: seq<Record>, answers: seq<Answer>, flushes: seq<bool>, turns: nat, m: Message)
    requires var c := Run(g, New(g, inbox, answers, flushes), turns);
             c.state.Done? && Took(m) in c.io.log && m.kind == ClientHello && c.deal.cipher.certAuth
    requires g.verifyPeer && g.requireCertificate && g.lookup(m).NoSession?
    requires !g.unlessChannelId || (g.parseHello(m).Some? && !g.parseHello(m).value.channelId)
    ensures exists cert, i :: Proved(g, Run(g, New(g, inbox, answers, flushes), turns).io.log, cert, i)
  {
    AllChecked(g, inbox, answers, flushes, turns);
    CompletionSafety(g, inbox, answers, flushes, turns);
    KeepRun(g, inbox, answers, flushes, turns);
    var c := Run(g, New(g, inbox, answers, flushes), turns);
    hide *;
    Shown(g, c, m, inbox);
    var cert := c.peer.value;
    PeerKind(g, c, Arriving(inbox));
    HeardThat(g, c, cert);
    CertificateHeard(g, c, cert);
    Authenticated(g, c, cert, inbox);
    var i :| KeyProvedAt(g, c.io.log, cert, i);
    KeyProved(g, c.io.log, cert, i);
  }

  /** The state that verifies a chain fails exactly for what is refused or not trusted. */
  lemma VerifyDecides(g: Config, c: Server)
    requires c.state.VerifyClientCertificate? && c.io.wait.Go? && c.peer.Some?
    ensures var d := Do(g, c);
            && (d.io.wait.Failed? <==>
                  if g.customVerify then NextAnswer(c.io).Refuse? && !g.verifyNone else !g.chainTrusted(c.peer.value))
            && (d.state == ReadClientKeyExchange <==>
                  if g.customVerify then NextAnswer(c.io).Accept? || (NextAnswer(c.io).Refuse? && g.verifyNone)
                  else g.chainTrusted(c.peer.value))
  {
  }
}
