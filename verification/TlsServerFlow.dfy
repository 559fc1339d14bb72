/** The server keeps to the flow: at every moment of every run its log fills the places up to the state it is in. */
module TlsServerFlow {
  import opened Wire
  import opened TlsHandshake
  import opened TlsFlow
  import opened TlsServer

  function ShapeOf(c: Server): Shape {
    Shape(c.deal.resumed, c.deal.cipher, c.hello.Some? && c.hello.value.status, c.deal.requested, c.peer.Some?,
          c.hello.Some? && c.hello.value.nextProto, c.channelId.WithChannelId?)
  }

  /** The handshake has not come to anything that `p` excludes. */
  predicate Fits(p: Shape, c: Server) {
    || PreHello(c.state) || c.state.Tls13?
    || (&& ShapeOf(c).(proof := p.proof, channelId := p.channelId) == p
        && (c.state.SendServerHello? || c.channelId.WithChannelId? == p.channelId)
        && (BeforeCertificate(c.state) || c.peer.Some? == p.proof))
  }

  /** How many places of the flow lie behind a state. */
  function At(s: State, d: Deal): nat {
    match s
    case StartAccept => 0
    case ReadClientHello => 0
    case SelectCertificate => 0
    case Tls13 => 0
    case SelectParameters => 0
    case SendServerHello => 1
    case SendServerCertificate => 2
    case SendServerKeyExchange => 4
    case SendServerHelloDone => 5
    case ReadClientCertificate => 7
    case VerifyClientCertificate => 8
    case ReadClientKeyExchange => 8
    case ReadClientCertificateVerify => 9
    case AwaitChangeCipherSpec => if d.resumed then 5 else 10
    case ProcessChangeCipherSpec => if d.resumed then 5 else 10
    case ReadNextProto => if d.resumed then 6 else 11
    case ReadChannelId => if d.resumed then 7 else 12
    case ReadClientFinished => if d.resumed then 8 else 13
    case SendServerFinished => if d.resumed then 2 else 14
    case FinishServerHandshake => if d.resumed then 9 else 17
    case Done => if d.resumed then 9 else 17
  }

  /** A certificate is asked for and taken only where it may be, and the key exchange that is prepared may be sent. */
  predicate Prepared(c: Server) {
    && (c.deal.requested ==> c.deal.cipher.certAuth)
    && (c.peer.Some? ==> c.deal.requested)
    && (c.state.SendServerKeyExchange? ==>
          && (c.deal.cipher.kx.Ecdhe? ==> c.params.ParamsReady?)
          && (c.params.ParamsReady? ==> c.deal.cipher.kx.Ecdhe? || c.deal.cipher.psk))
  }

  ghost predicate OnCourse(p: Shape, c: Server) {
    Follows(p, Trace(TheServer, c.io.log), At(c.state, c.deal))
  }

  /** What holds of the choice between the two flows, and of the client's certificate, in every run. */
  predicate Consistent(c: Server) {
    && (c.deal.resumed ==> ResumedState(c.state) && !c.deal.requested)
    && (c.peer.Some? ==> !c.deal.resumed && !BeforeCertificate(c.state))
    && (c.state.SelectCertificate? || c.state.SelectParameters? ==>
          c.io.pending != [] && c.io.pending[0].kind == ClientHello)
  }

  ghost predicate Ready(p: Shape, c: Server, s: State) {
    c.state == s && c.io.wait.Go? && Consistent(c) && Prepared(c) && Fits(p, c) && OnCourse(p, c)
  }

  function Log(c: Server): seq<Event> {
    c.io.log
  }

  /** What a state that reads one message from the client is there to read. */
  function Awaited(s: State): Step {
    Says(TheClient, match s
                    case ReadClientCertificate => Certificate
                    case ReadClientKeyExchange => ClientKeyExchange
                    case ReadClientCertificateVerify => CertificateVerify
                    case ReadNextProto => NextProto
                    case ReadChannelId => ChannelId
                    case _ => Finished)
  }

  lemma AwaitedAt(p: Shape, c: Server)
    requires Fits(p, c) && Consistent(c)
    requires
      || c.state.ReadClientCertificate? || c.state.ReadClientKeyExchange? || c.state.ReadClientCertificateVerify?
      || c.state.ReadNextProto? || c.state.ReadChannelId? || c.state.ReadClientFinished?
    ensures Place(p, At(c.state, c.deal)) == Awaited(c.state)
  {
  }

  lemma SelectParametersFlow(g: Config, p: Shape, c: Server)
    requires Ready(p, c, SelectParameters)
    ensures OnCourse(p, DoSelectParameters(g, c))
  {
    hide Follows, Trace;
    Turn(p, TheServer, Log(c), Took(c.io.pending[0]), 0);
  }

  lemma SendServerHelloFlow(g: Config, p: Shape, c: Server)
    requires Ready(p, c, SendServerHello)
    ensures OnCourse(p, DoSendServerHello(g, c))
  {
    hide Follows, Trace;
    Turn(p, TheServer, Log(c), Sent(Message(ServerHello, g.hello)), 1);
  }

  lemma CertificatesFlow(g: Config, p: Shape, c: Server)
    requires Ready(p, c, SendServerCertificate) && c.deal.cipher.certAuth
    ensures Follows(p, Trace(TheServer, CertificateFlight(g, c).log), 4)
  {
    hide Follows, Trace;
    var cert := Message(Certificate, g.certificate);
    Turn(p, TheServer, Log(c), Sent(cert), 2);
    Leave(p, Trace(TheServer, Log(c) + [Sent(cert)]), 3);
    Turn(p, TheServer, Log(c) + [Sent(cert)], Sent(Message(CertificateStatus, g.status)), 3);
  }

  lemma SendServerCertificateFlow(g: Config, p: Shape, c: Server)
    requires Ready(p, c, SendServerCertificate)
    ensures OnCourse(p, DoSendServerCertificate(g, c))
  {
    hide Follows, Trace, CertificateFlight;
    if c.deal.cipher.certAuth { CertificatesFlow(g, p, c); }
    else {
      Leave(p, Trace(TheServer, Log(c)), 2);
      Leave(p, Trace(TheServer, Log(c)), 3);
    }
  }

  lemma SendServerKeyExchangeFlow(g: Config, p: Shape, c: Server)
    requires Ready(p, c, SendServerKeyExchange)
    ensures OnCourse(p, DoSendServerKeyExchange(g, c))
  {
    hide Follows, Trace;
    if c.params.NoParams? { Leave(p, Trace(TheServer, Log(c)), 4); }
    else if g.exchange.Some? { Turn(p, TheServer, Log(c), Sent(Message(ServerKeyExchange, g.exchange.value)), 4); }
  }

  lemma SendServerHelloDoneFlow(g: Config, p: Shape, c: Server)
    requires Ready(p, c, SendServerHelloDone)
    ensures OnCourse(p, DoSendServerHelloDone(g, c))
  {
    hide Follows, Trace;
    var request := Message(CertificateRequest, g.request);
    if !c.deal.requested { Leave(p, Trace(TheServer, Log(c)), 5); }
    Turn(p, TheServer, Log(c), Sent(request), 5);
    var log := if c.deal.requested then Log(c) + [Sent(request)] else Log(c);
    Turn(p, TheServer, log, Sent(Message(ServerHelloDone, [])), 6);
  }

  lemma ReadClientCertificateFlow(g: Config, p: Shape, c: Server)
    requires Ready(p, c, ReadClientCertificate)
    ensures OnCourse(p, DoReadClientCertificate(g, c))
  {
    hide Follows, Trace, Place, Asked;
    AwaitedAt(p, c);
    if !c.deal.requested { Leave(p, Trace(TheServer, Log(c)), 7); }
    else if c.io.pending != [] { Turn(p, TheServer, Log(c), Took(c.io.pending[0]), 7); }
  }

  lemma VerifyClientCertificateFlow(g: Config, p: Shape, c: Server)
    requires Ready(p, c, VerifyClientCertificate)
    ensures OnCourse(p, DoVerifyClientCertificate(g, c))
  {
    hide Follows, Trace, NeedOf, Place;
    if c.peer.Some? {
      var answer := if g.customVerify then Some(NextAnswer(c.io)) else None;
      Turn(p, TheServer, Log(c), PeerVerified(c.peer.value, answer), 8);
    }
  }

  lemma ReadClientKeyExchangeFlow(g: Config, p: Shape, c: Server)
    requires Ready(p, c, ReadClientKeyExchange)
    ensures OnCourse(p, DoReadClientKeyExchange(g, c))
  {
    hide Follows, Trace, Take, Place;
    if c.io.pending != [] {
      AwaitedAt(p, c);
      TakeLog(if c.deal.cipher.kx.Rsa? && g.keyMethod then Asked(c.io, PrivateKey) else c.io);
      Turn(p, TheServer, Log(c), Took(c.io.pending[0]), 8);
    }
  }

  lemma ReadClientCertificateVerifyFlow(g: Config, p: Shape, c: Server)
    requires Ready(p, c, ReadClientCertificateVerify)
    ensures OnCourse(p, DoReadClientCertificateVerify(g, c))
  {
    hide Follows, Trace, Place, Asked;
    AwaitedAt(p, c);
    if c.peer.None? { Leave(p, Trace(TheServer, Log(c)), 9); }
    else if c.io.pending != [] { Turn(p, TheServer, Log(c), Took(c.io.pending[0]), 9); }
  }

  lemma ProcessChangeCipherSpecFlow(g: Config, p: Shape, c: Server)
    requires Ready(p, c, ProcessChangeCipherSpec)
    ensures OnCourse(p, DoProcessChangeCipherSpec(g, c))
  {
    hide Follows, Trace;
    Turn(p, TheServer, Log(c), ReadKey, At(ProcessChangeCipherSpec, c.deal));
  }

  lemma ReadNextProtoFlow(g: Config, p: Shape, c: Server)
    requires Ready(p, c, ReadNextProto)
    ensures OnCourse(p, DoReadNextProto(g, c))
  {
    hide Follows, Trace, Take, Place, Asked;
    AwaitedAt(p, c);
    if c.io.pending != [] { TakeLog(c.io); }
    var n := At(ReadNextProto, c.deal);
    if !p.nextProto { Leave(p, Trace(TheServer, Log(c)), n); }
    else if c.io.pending != [] { Turn(p, TheServer, Log(c), Took(c.io.pending[0]), n); }
  }

  lemma ReadChannelIdFlow(g: Config, p: Shape, c: Server)
    requires Ready(p, c, ReadChannelId)
    ensures OnCourse(p, DoReadChannelId(g, c))
  {
    hide Follows, Trace, Take, Place, Asked;
    AwaitedAt(p, c);
    if c.io.pending != [] { TakeLog(c.io); }
    var n := At(ReadChannelId, c.deal);
    if !p.channelId { Leave(p, Trace(TheServer, Log(c)), n); }
    else if c.io.pending != [] { Turn(p, TheServer, Log(c), Took(c.io.pending[0]), n); }
  }

  lemma ReadClientFinishedFlow(g: Config, p: Shape, c: Server)
    requires Ready(p, c, ReadClientFinished)
    ensures OnCourse(p, DoReadClientFinished(g, c))
  {
    hide Follows, Trace, Take, Place, Asked;
    if c.io.pending != [] {
      AwaitedAt(p, c);
      TakeLog(c.io);
      Turn(p, TheServer, Log(c), Took(c.io.pending[0]), At(ReadClientFinished, c.deal));
    }
  }

  /** NewSessionTicket if there is one, the new key, and Finished. */
  lemma TicketFlow(p: Shape, log: seq<Event>, ticket: Option<Message>, last: Message, n: nat)
    requires Follows(p, Trace(TheServer, log), n) && n == if p.resumed then 2 else 14
    requires (ticket.Some? ==> ticket.value.kind == NewSessionTicket) && last.kind == Finished
    ensures var ticketed := if ticket.Some? then log + [Sent(ticket.value)] else log;
            Follows(p, Trace(TheServer, ticketed + [SentChangeCipherSpec] + [WriteKey] + [Sent(last)]), n + 3)
  {
    hide Follows, Trace;
    if ticket.Some? { Turn(p, TheServer, log, Sent(ticket.value), n); } else { Leave(p, Trace(TheServer, log), n); }
    var ticketed := if ticket.Some? then log + [Sent(ticket.value)] else log;
    Turn(p, TheServer, ticketed, SentChangeCipherSpec, n + 1);
    Turn(p, TheServer, ticketed + [SentChangeCipherSpec], WriteKey, n + 1);
    Turn(p, TheServer, ticketed + [SentChangeCipherSpec] + [WriteKey], Sent(last), n + 2);
  }

  lemma SealedLog(g: Config, io: Io) returns (last: Message)
    ensures last.kind == Finished
    ensures SendFinished(g, ChangeWriteKey(io)).log == io.log + [SentChangeCipherSpec] + [WriteKey] + [Sent(last)]
  {
    last := Message(Finished, g.mac(true, Digested(ChangeWriteKey(io))));
  }

  lemma FitsResumed(p: Shape, c: Server)
    requires Fits(p, c) && !PreHello(c.state) && !c.state.Tls13?
    ensures p.resumed == c.deal.resumed
  {
  }

  lemma SendServerFinishedFlow(g: Config, p: Shape, c: Server)
    requires Ready(p, c, SendServerFinished)
    ensures OnCourse(p, DoSendServerFinished(g, c))
  {
    hide Follows, Trace, NeedOf, Place, Emit, ChangeWriteKey, SendFinished, Fits, Prepared, Consistent;
    FitsResumed(p, c);
    if !(c.ticket.TicketExpected? && g.ticket.None?) {
      var ticket := if c.ticket.TicketExpected? then Some(Message(NewSessionTicket, g.ticket.value)) else None;
      if ticket.Some? { EmitLog(c.io, ticket.value); }
      var io := if ticket.Some? then Emit(c.io, ticket.value) else c.io;
      var last := SealedLog(g, io);
      TicketFlow(p, Log(c), ticket, last, At(SendServerFinished, c.deal));
    }
  }

  predicate Negotiated(s: State) {
    !PreHello(s) && !s.Tls13?
  }

  /** What is settled stays settled. */
  predicate Onward(c: Server, d: Server) {
    && (Negotiated(c.state) ==> Negotiated(d.state) && d.deal == c.deal && d.hello == c.hello)
    && (Negotiated(c.state) && !c.state.SendServerHello? ==> !d.state.SendServerHello? && d.channelId == c.channelId)
    && (!BeforeCertificate(c.state) ==> !BeforeCertificate(d.state) && d.peer == c.peer)
  }

  lemma FirstOnward(g: Config, c: Server)
    requires Negotiated(c.state) && BeforeCertificate(c.state)
    ensures Onward(c, Do(g, c))
  {
    hide Emit, Take, Asked, Note, InitHash, FreeBuffer, CertificateFlight, SendFinished, ChangeWriteKey,
         ChangeReadKey, Resolve;
    hide DoVerifyClientCertificate, DoReadClientKeyExchange, DoReadClientCertificateVerify;
    hide DoAwaitChangeCipherSpec, DoProcessChangeCipherSpec, DoReadNextProto, DoReadChannelId, DoReadClientFinished,
         DoSendServerFinished, DoFinishServerHandshake;
    hide DoStartAccept, DoReadClientHello, DoSelectCertificate, DoSelectParameters;
  }

  lemma MiddleOnward(g: Config, c: Server)
    requires !BeforeCertificate(c.state) && !ResumedState(c.state)
    ensures Onward(c, Do(g, c))
  {
    hide Emit, Take, Asked, Note, InitHash, FreeBuffer, CertificateFlight, SendFinished, ChangeWriteKey,
         ChangeReadKey, Resolve;
    hide Accepts,
         DoSendServerHello, DoSendServerCertificate, DoSendServerKeyExchange, DoSendServerHelloDone,
         DoReadClientCertificate;
    hide DoStartAccept, DoReadClientHello, DoSelectCertificate, DoSelectParameters;
    hide DoAwaitChangeCipherSpec, DoProcessChangeCipherSpec, DoReadNextProto, DoReadChannelId, DoReadClientFinished,
         DoSendServerFinished, DoFinishServerHandshake;
  }

  lemma LaterOnward(g: Config, c: Server)
    requires !BeforeCertificate(c.state) && ResumedState(c.state)
    ensures Onward(c, Do(g, c))
  {
    hide Emit, Take, Asked, Note, InitHash, FreeBuffer, CertificateFlight, SendFinished, ChangeWriteKey,
         ChangeReadKey, Resolve;
    hide DoSendServerHello, DoSendServerCertificate, DoSendServerKeyExchange, DoSendServerHelloDone,
         DoReadClientCertificate;
    hide DoStartAccept, DoReadClientHello, DoSelectCertificate, DoSelectParameters;
    hide DoVerifyClientCertificate, DoReadClientKeyExchange, DoReadClientCertificateVerify;
  }

  lemma StepOnward(g: Config, c: Server)
    ensures Onward(c, TlsServer.Step(g, c))
  {
    hide Do, Resolve;
    if c.io.wait.Go? {
      if BeforeCertificate(c.state) {
        if Negotiated(c.state) { FirstOnward(g, c); }
      } else if ResumedState(c.state) {
        LaterOnward(g, c);
      } else {
        MiddleOnward(g, c);
      }
    }
  }

  /** So a shape that fits later fitted before. */
  lemma FitsBack(p: Shape, c: Server, d: Server)
    requires Onward(c, d) && Fits(p, d)
    ensures Fits(p, c)
  {
  }

  lemma SettlePrepared(g: Config, c: Server, found: Lookup)
    requires Consistent(c) && PreHello(c.state) && c.io.pending != [] && !found.BadLookup?
    ensures Prepared(Settle(g, c, found))
  {
    hide Take, InitHash, FreeBuffer;
  }

  lemma HelloPrepared(g: Config, c: Server)
    requires Consistent(c) && Prepared(c) && PreHello(c.state)
    ensures Prepared(Do(g, c))
  {
    hide Emit, Take, Asked, Note, InitHash, FreeBuffer, CertificateFlight, SendFinished, ChangeWriteKey,
         ChangeReadKey, Resolve, Settle;
    hide DoSendServerHello, DoSendServerCertificate, DoSendServerKeyExchange, DoSendServerHelloDone,
         DoReadClientCertificate;
    hide DoVerifyClientCertificate, DoReadClientKeyExchange, DoReadClientCertificateVerify;
    hide DoAwaitChangeCipherSpec, DoProcessChangeCipherSpec, DoReadNextProto, DoReadChannelId, DoReadClientFinished,
         DoSendServerFinished, DoFinishServerHandshake;
    if c.state.SelectParameters? && !g.lookup(c.io.pending[0]).BadLookup? {
      var asked := if g.lookupCallback then Asked(c.io, SessionLookup) else c.io;
      AskedPending(c.io, SessionLookup);
      SettlePrepared(g, c.(io := asked), g.lookup(c.io.pending[0]));
    }
  }

  lemma AskedPending(io: Io, op: Operation)
    ensures Asked(io, op).pending == io.pending
  {
  }

  lemma FirstPrepared(g: Config, c: Server)
    requires Prepared(c) && Negotiated(c.state) && BeforeCertificate(c.state)
    ensures Prepared(Do(g, c))
  {
    hide Emit, Take, Asked, Note, InitHash, FreeBuffer, CertificateFlight, SendFinished, ChangeWriteKey,
         ChangeReadKey, Resolve;
    hide DoVerifyClientCertificate, DoReadClientKeyExchange, DoReadClientCertificateVerify;
    hide DoAwaitChangeCipherSpec, DoProcessChangeCipherSpec, DoReadNextProto, DoReadChannelId, DoReadClientFinished,
         DoSendServerFinished, DoFinishServerHandshake;
    hide DoStartAccept, DoReadClientHello, DoSelectCertificate, DoSelectParameters;
  }

  lemma LaterPrepared(g: Config, c: Server)
    requires Prepared(c) && !BeforeCertificate(c.state)
    ensures Prepared(Do(g, c))
  {
    hide Emit, Take, Asked, Note, InitHash, FreeBuffer, CertificateFlight, SendFinished, ChangeWriteKey,
         ChangeReadKey, Resolve;
    hide DoSendServerHello, DoSendServerCertificate, DoSendServerKeyExchange, DoSendServerHelloDone,
         DoReadClientCertificate;
    hide DoStartAccept, DoReadClientHello, DoSelectCertificate, DoSelectParameters;
  }

  lemma StepPrepared(g: Config, c: Server)
    requires Consistent(c) && Prepared(c)
    ensures Prepared(TlsServer.Step(g, c))
  {
    hide Do, Resolve;
    if c.io.wait.Go? {
      if PreHello(c.state) { HelloPrepared(g, c); }
      else if !BeforeCertificate(c.state) { LaterPrepared(g, c); }
      else if Negotiated(c.state) { FirstPrepared(g, c); }
      else { Leaves(g, c); }
    }
  }

  lemma Leaves(g: Config, c: Server)
    requires c.state.Tls13?
    ensures Do(g, c) == c.(io := c.io.(wait := LeftForTls13))
  {
  }

  lemma StepFlow(g: Config, p: Shape, c: Server)
    requires Consistent(c) && Prepared(c) && Fits(p, c) && OnCourse(p, c)
    ensures OnCourse(p, TlsServer.Step(g, c))
  {
    hide Follows, Trace, Resolve, Take, Emit, CertificateFlight, SendFinished, Fits, Prepared, Consistent;
    ResolveSame(c.io);
    if c.io.wait.Go? {
      match c.state
      case SelectParameters => SelectParametersFlow(g, p, c);
      case SendServerHello => SendServerHelloFlow(g, p, c);
      case SendServerCertificate => SendServerCertificateFlow(g, p, c);
      case SendServerKeyExchange => SendServerKeyExchangeFlow(g, p, c);
      case SendServerHelloDone => SendServerHelloDoneFlow(g, p, c);
      case ReadClientCertificate => ReadClientCertificateFlow(g, p, c);
      case VerifyClientCertificate => VerifyClientCertificateFlow(g, p, c);
      case ReadClientKeyExchange => ReadClientKeyExchangeFlow(g, p, c);
      case ReadClientCertificateVerify => ReadClientCertificateVerifyFlow(g, p, c);
      case ProcessChangeCipherSpec => ProcessChangeCipherSpecFlow(g, p, c);
      case ReadNextProto => ReadNextProtoFlow(g, p, c);
      case ReadChannelId => ReadChannelIdFlow(g, p, c);
      case ReadClientFinished => ReadClientFinishedFlow(g, p, c);
      case SendServerFinished => SendServerFinishedFlow(g, p, c);
      case _ =>
    }
  }

  lemma {:induction false} RunPrepared(g: Config, inbox: seq<Record>, answers: seq<Answer>, flushes: seq<bool>,
                                       turns: nat)
    ensures Prepared(Run(g, New(g, inbox, answers, flushes), turns))
  {
    hide TlsServer.Step, Keys, FactsOf, LogInv;
    if turns > 0 {
      RunPrepared(g, inbox, answers, flushes, turns - 1);
      KeepRun(g, inbox, answers, flushes, turns - 1);
      StepPrepared(g, Run(g, New(g, inbox, answers, flushes), turns - 1));
    }
  }

  lemma {:induction false} RunFlow(g: Config, p: Shape, inbox: seq<Record>, answers: seq<Answer>, flushes: seq<bool>,
                                   turns: nat)
    requires Fits(p, Run(g, New(g, inbox, answers, flushes), turns))
    ensures OnCourse(p, Run(g, New(g, inbox, answers, flushes), turns))
  {
    hide TlsServer.Step, Prepared, Onward, Fits, Keys, FactsOf, LogInv;
    if turns > 0 {
      var c := Run(g, New(g, inbox, answers, flushes), turns - 1);
      KeepRun(g, inbox, answers, flushes, turns - 1);
      StepOnward(g, c);
      FitsBack(p, c, TlsServer.Step(g, c));
      RunFlow(g, p, inbox, answers, flushes, turns - 1);
      RunPrepared(g, inbox, answers, flushes, turns - 1);
      StepFlow(g, p, c);
    }
  }

  /** At every moment of every run the server has taken the steps of the flow up to its state, and no other. */
  lemma KeepsToFlow(g: Config, inbox: seq<Record>, answers: seq<Answer>, flushes: seq<bool>, turns: nat)
    ensures var c := Run(g, New(g, inbox, answers, flushes), turns);
            Follows(ShapeOf(c), Trace(TheServer, c.io.log), At(c.state, c.deal))
  {
    hide Run, Follows, Trace;
    var c := Run(g, New(g, inbox, answers, flushes), turns);
    RunFlow(g, ShapeOf(c), inbox, answers, flushes, turns);
  }

  /** A server that is done took part in the whole flow of Figure 1 or 2, every message in its place. */
  lemma WholeFlow(g: Config, inbox: seq<Record>, answers: seq<Answer>, flushes: seq<bool>, turns: nat)
    requires Run(g, New(g, inbox, answers, flushes), turns).state.Done?
    ensures var c := Run(g, New(g, inbox, answers, flushes), turns); Complete(ShapeOf(c), Trace(TheServer, c.io.log))
  {
    hide Run, Follows, Trace;
    KeepsToFlow(g, inbox, answers, flushes, turns);
  }
}
