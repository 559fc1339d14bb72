/** The client keeps to the flow: at every moment of every run its log fills the places up to the state it is in. */
module TlsClientFlow {
  import opened Wire
  import opened TlsHandshake
  import opened TlsFlow
  import opened TlsClient

  function ShapeOf(g: Config, c: Client): Shape {
    Shape(c.deal.resumed, c.deal.cipher, c.deal.certificateStatus, c.request.Some?, g.hasCertificate,
          c.deal.nextProto, c.deal.channelId)
  }

  /** The handshake has not come to anything that `p` excludes. */
  predicate Fits(g: Config, p: Shape, c: Client) {
    && p.proof == g.hasCertificate
    && (Negotiated(c.state) ==>
          ShapeOf(g, c).(requested := p.requested) == p && (BeforeRequest(c.state) || c.request.Some? == p.requested))
  }

  /** How many places of the flow lie behind a state. */
  function At(s: State, d: Deal): nat {
    match s
    case StartConnect => 0
    case EnterEarlyData => 1
    case ReadHelloVerifyRequest => 1
    case ReadServerHello => 1
    case Tls13 => 1
    case ReadServerCertificate => 2
    case ReadCertificateStatus => 3
    case VerifyServerCertificate => 4
    case ReadServerKeyExchange => 4
    case ReadCertificateRequest => 5
    case ReadServerHelloDone => 6
    case SendClientCertificate => 7
    case SendClientKeyExchange => 8
    case SendClientCertificateVerify => 9
    case SendClientFinished => if d.resumed then 5 else 10
    case FinishFlight => if d.resumed then 9 else 14
    case ReadSessionTicket => if d.resumed then 2 else 14
    case ProcessChangeCipherSpec => if d.resumed then 3 else 15
    case ReadServerFinished => if d.resumed then 4 else 16
    case FinishClientHandshake => if d.resumed then 9 else 17
    case Done => if d.resumed then 9 else 17
  }

  ghost predicate OnCourse(p: Shape, c: Client) {
    Follows(p, Trace(TheClient, c.io.log), At(c.state, c.deal))
  }

  predicate Negotiated(s: State) {
    !PreHello(s) && !s.Tls13?
  }

  /** A certificate status is promised under a certificate cipher only. */
  predicate Promised(c: Client) {
    Negotiated(c.state) && c.deal.certificateStatus ==> c.deal.cipher.certAuth
  }

  /** What holds of the choice between the two flows, and of the server's request, in every run. */
  predicate Consistent(c: Client) {
    && (c.deal.resumed ==> ResumedState(c.state))
    && (c.request.Some? ==> c.deal.cipher.certAuth && !c.deal.resumed && !PreHello(c.state) && !BeforeRequest(c.state))
  }

  ghost predicate Ready(g: Config, p: Shape, c: Client, s: State) {
    c.state == s && c.io.wait.Go? && Consistent(c) && Promised(c) && Fits(g, p, c) && OnCourse(p, c)
  }

  function Log(c: Client): seq<Event> {
    c.io.log
  }

  lemma StartConnectFlow(g: Config, p: Shape, c: Client)
    requires Ready(g, p, c, StartConnect)
    ensures OnCourse(p, DoStartConnect(g, c))
  {
    hide Follows, Trace;
    Turn(p, TheClient, Log(c), Sent(Message(ClientHello, g.hello)), 0);
  }

  lemma EnterEarlyDataFlow(g: Config, p: Shape, c: Client)
    requires Ready(g, p, c, EnterEarlyData)
    ensures OnCourse(p, DoEnterEarlyData(g, c))
  {
    hide Follows, Trace, NeedOf, Place;
    Turn(p, TheClient, Log(c), SentChangeCipherSpec, 1);
    Turn(p, TheClient, Log(c) + [SentChangeCipherSpec], EarlyKey, 1);
  }

  lemma ReadHelloVerifyRequestFlow(g: Config, p: Shape, c: Client)
    requires Ready(g, p, c, ReadHelloVerifyRequest)
    ensures OnCourse(p, DoReadHelloVerifyRequest(g, c))
  {
    hide Follows, Trace;
    if c.io.pending != [] {
      var m := c.io.pending[0];
      Restarted(TheClient, Log(c), m, p);
      Turn(p, TheClient, Log(c) + [Dropped(m)] + [Restart], Sent(Message(ClientHello, g.secondHello(m))), 0);
    }
  }

  lemma Restarted(me: Party, log: seq<Event>, m: Message, p: Shape)
    ensures Follows(p, Trace(me, log + [Dropped(m)] + [Restart]), 0)
  {
  }

  lemma ReadServerHelloFlow(g: Config, p: Shape, c: Client)
    requires Ready(g, p, c, ReadServerHello)
    ensures OnCourse(p, DoReadServerHello(g, c))
  {
    hide Follows, Trace;
    if c.io.pending != [] { Turn(p, TheClient, Log(c), Took(c.io.pending[0]), 1); }
  }

  lemma ReadServerCertificateFlow(g: Config, p: Shape, c: Client)
    requires Ready(g, p, c, ReadServerCertificate)
    ensures OnCourse(p, DoReadServerCertificate(g, c))
  {
    hide Follows, Trace;
    if !c.deal.cipher.certAuth { Leave(p, Trace(TheClient, Log(c)), 2); }
    else if c.io.pending != [] { Turn(p, TheClient, Log(c), Took(c.io.pending[0]), 2); }
  }

  lemma ReadCertificateStatusFlow(g: Config, p: Shape, c: Client)
    requires Ready(g, p, c, ReadCertificateStatus)
    ensures OnCourse(p, DoReadCertificateStatus(g, c))
  {
    hide Follows, Trace;
    Leave(p, Trace(TheClient, Log(c)), 3);
    if c.io.pending != [] { Turn(p, TheClient, Log(c), Took(c.io.pending[0]), 3); }
  }

  lemma VerifyServerCertificateFlow(g: Config, p: Shape, c: Client)
    requires Ready(g, p, c, VerifyServerCertificate)
    ensures OnCourse(p, DoVerifyServerCertificate(g, c))
  {
    hide Follows, Trace, NeedOf, Place;
    if c.peer.Some? {
      var answer := if g.established.None? && g.customVerify then Some(NextAnswer(c.io)) else None;
      Turn(p, TheClient, Log(c), PeerVerified(c.peer.value, answer), 4);
    }
  }

  lemma ReadServerKeyExchangeFlow(g: Config, p: Shape, c: Client)
    requires Ready(g, p, c, ReadServerKeyExchange)
    ensures OnCourse(p, DoReadServerKeyExchange(g, c))
  {
    hide Follows, Trace;
    if !c.deal.cipher.kx.Ecdhe? { Leave(p, Trace(TheClient, Log(c)), 4); }
    if c.io.pending != [] { Turn(p, TheClient, Log(c), Took(c.io.pending[0]), 4); }
  }

  lemma ReadCertificateRequestFlow(g: Config, p: Shape, c: Client)
    requires Ready(g, p, c, ReadCertificateRequest) && Fits(g, p, DoReadCertificateRequest(g, c))
    ensures OnCourse(p, DoReadCertificateRequest(g, c))
  {
    hide Follows, Trace;
    if !(c.deal.cipher.certAuth && p.requested) { Leave(p, Trace(TheClient, Log(c)), 5); }
    if c.io.pending != [] { Turn(p, TheClient, Log(c), Took(c.io.pending[0]), 5); }
  }

  lemma ReadServerHelloDoneFlow(g: Config, p: Shape, c: Client)
    requires Ready(g, p, c, ReadServerHelloDone)
    ensures OnCourse(p, DoReadServerHelloDone(g, c))
  {
    hide Follows, Trace;
    if c.io.pending != [] { Turn(p, TheClient, Log(c), Took(c.io.pending[0]), 6); }
  }

  lemma SendClientCertificateFlow(g: Config, p: Shape, c: Client)
    requires Ready(g, p, c, SendClientCertificate)
    ensures OnCourse(p, DoSendClientCertificate(g, c))
  {
    hide Follows, Trace;
    if c.request.None? { Leave(p, Trace(TheClient, Log(c)), 7); }
    Turn(p, TheClient, Log(c), Sent(Message(Certificate, g.certificate)), 7);
  }

  lemma SendClientKeyExchangeFlow(g: Config, p: Shape, c: Client)
    requires Ready(g, p, c, SendClientKeyExchange)
    ensures OnCourse(p, DoSendClientKeyExchange(g, c))
  {
    hide Follows, Trace;
    if g.keyExchange.Some? {
      Turn(p, TheClient, Log(c), Sent(Message(ClientKeyExchange, g.keyExchange.value)), 8);
    }
  }

  lemma SendClientCertificateVerifyFlow(g: Config, p: Shape, c: Client)
    requires Ready(g, p, c, SendClientCertificateVerify)
    ensures OnCourse(p, DoSendClientCertificateVerify(g, c))
  {
    hide Follows, Trace, Emit;
    if c.request.None? || !g.hasCertificate { Leave(p, Trace(TheClient, Log(c)), 9); }
    var signed := g.sign(if c.io.buffer.Some? then c.io.buffer.value else []);
    if signed.Some? {
      var m := Message(CertificateVerify, signed.value);
      EmitLog(if g.keyMethod then Asked(c.io, PrivateKey) else c.io, m);
      Turn(p, TheClient, Log(c), Sent(m), 9);
    }
  }

  lemma SendClientFinishedFlow(g: Config, p: Shape, c: Client)
    requires Ready(g, p, c, SendClientFinished)
    ensures OnCourse(p, DoSendClientFinished(g, c))
  {
    hide Follows, Trace, FinishedFlight;
    FlightFlow(g, p, c.deal, c.io, At(SendClientFinished, c.deal));
    FlightFlow(g, p, c.deal, Asked(c.io, ChannelIdLookup), At(SendClientFinished, c.deal));
  }

  lemma FlightFlow(g: Config, p: Shape, d: Deal, io: Io, n: nat)
    requires Follows(p, Trace(TheClient, io.log), n) && n == if p.resumed then 5 else 10
    requires d.nextProto == p.nextProto && d.channelId == p.channelId
    ensures Follows(p, Trace(TheClient, FinishedFlight(g, d, io).log), n + 4)
  {
    hide Follows, Trace, Emit;
    Turn(p, TheClient, io.log, SentChangeCipherSpec, n);
    Turn(p, TheClient, io.log + [SentChangeCipherSpec], WriteKey, n);
    var keyed := ChangeWriteKey(io);
    if !d.nextProto { Leave(p, Trace(TheClient, keyed.log), n + 1); }
    var next := Message(NextProto, g.nextProtocol);
    Turn(p, TheClient, keyed.log, Sent(next), n + 1);
    EmitLog(keyed, next);
    var proto := if d.nextProto then Emit(keyed, next) else keyed;
    if !d.channelId { Leave(p, Trace(TheClient, proto.log), n + 2); }
    var id := Message(ChannelId, g.channelIdProof(Digested(proto)));
    Turn(p, TheClient, proto.log, Sent(id), n + 2);
    EmitLog(proto, id);
    var last := if d.channelId then Emit(proto, id) else proto;
    var m := Message(Finished, g.mac(false, Digested(last)));
    EmitLog(last, m);
    Turn(p, TheClient, last.log, Sent(m), n + 3);
  }

  lemma TicketPlace(g: Config, p: Shape, c: Client)
    requires Fits(g, p, c) && c.state.ReadSessionTicket?
    ensures var n := At(ReadSessionTicket, c.deal);
            Place(p, n) == Says(TheServer, NewSessionTicket) && NeedOf(p, Place(p, n)).Optional?
  {
  }

  lemma ReadSessionTicketFlow(g: Config, p: Shape, c: Client)
    requires Ready(g, p, c, ReadSessionTicket)
    ensures OnCourse(p, DoReadSessionTicket(g, c))
  {
    hide Follows, Trace, NeedOf, Place, Fits;
    var n := At(ReadSessionTicket, c.deal);
    TicketPlace(g, p, c);
    Leave(p, Trace(TheClient, Log(c)), n);
    if c.io.pending != [] { Turn(p, TheClient, Log(c), Took(c.io.pending[0]), n); }
  }

  lemma ProcessChangeCipherSpecFlow(g: Config, p: Shape, c: Client)
    requires Ready(g, p, c, ProcessChangeCipherSpec)
    ensures OnCourse(p, DoProcessChangeCipherSpec(g, c))
  {
    hide Follows, Trace;
    Turn(p, TheClient, Log(c), ReadKey, At(ProcessChangeCipherSpec, c.deal));
  }

  lemma FinishedPlace(g: Config, p: Shape, c: Client)
    requires Fits(g, p, c) && c.state.ReadServerFinished?
    ensures Place(p, At(ReadServerFinished, c.deal)) == Says(TheServer, Finished)
  {
  }

  lemma ReadServerFinishedFlow(g: Config, p: Shape, c: Client)
    requires Ready(g, p, c, ReadServerFinished)
    ensures OnCourse(p, DoReadServerFinished(g, c))
  {
    hide Follows, Trace, Take, Place;
    if c.io.pending != [] {
      FinishedPlace(g, p, c);
      TakeLog(c.io);
      Turn(p, TheClient, Log(c), Took(c.io.pending[0]), At(ReadServerFinished, c.deal));
    }
  }

  /** What is settled stays settled. */
  predicate Onward(c: Client, d: Client) {
    && (Negotiated(c.state) ==> Negotiated(d.state) && d.deal == c.deal)
    && (Negotiated(c.state) && !BeforeRequest(c.state) ==> !BeforeRequest(d.state) && d.request == c.request)
  }

  lemma FirstOnward(g: Config, c: Client)
    requires BeforeRequest(c.state)
    ensures Onward(c, Do(g, c))
  {
    hide Emit, Take, Asked, Note, InitHash, FreeBuffer, FinishedFlight, SendFinished, ChangeWriteKey, ChangeReadKey,
         Resolve;
    hide DoReadServerHelloDone, DoSendClientCertificate, DoSendClientKeyExchange, DoSendClientCertificateVerify;
    hide DoSendClientFinished, DoFinishFlight, DoReadSessionTicket, DoProcessChangeCipherSpec, DoReadServerFinished,
         DoFinishClientHandshake;
    hide DoStartConnect, DoEnterEarlyData, DoReadHelloVerifyRequest, DoReadServerHello;
  }

  lemma MiddleOnward(g: Config, c: Client)
    requires Negotiated(c.state) && !BeforeRequest(c.state) && !ResumedState(c.state)
    ensures Onward(c, Do(g, c))
  {
    hide Emit, Take, Asked, Note, InitHash, FreeBuffer, FinishedFlight, SendFinished, ChangeWriteKey, ChangeReadKey,
         Resolve;
    hide DoReadServerCertificate, DoReadCertificateStatus, DoVerifyServerCertificate, DoReadServerKeyExchange,
         DoReadCertificateRequest;
    hide DoStartConnect, DoEnterEarlyData, DoReadHelloVerifyRequest, DoReadServerHello;
    hide DoSendClientFinished, DoFinishFlight, DoReadSessionTicket, DoProcessChangeCipherSpec, DoReadServerFinished,
         DoFinishClientHandshake;
  }

  lemma LaterOnward(g: Config, c: Client)
    requires ResumedState(c.state)
    ensures Onward(c, Do(g, c))
  {
    hide Emit, Take, Asked, Note, InitHash, FreeBuffer, FinishedFlight, SendFinished, ChangeWriteKey, ChangeReadKey,
         Resolve;
    hide DoReadServerCertificate, DoReadCertificateStatus, DoVerifyServerCertificate, DoReadServerKeyExchange,
         DoReadCertificateRequest;
    hide DoStartConnect, DoEnterEarlyData, DoReadHelloVerifyRequest, DoReadServerHello;
    hide DoReadServerHelloDone, DoSendClientCertificate, DoSendClientKeyExchange, DoSendClientCertificateVerify;
  }

  lemma StepOnward(g: Config, c: Client)
    ensures Onward(c, TlsClient.Step(g, c))
  {
    hide Do, Resolve;
    if c.io.wait.Go? && Negotiated(c.state) {
      if BeforeRequest(c.state) { FirstOnward(g, c); }
      else if ResumedState(c.state) { LaterOnward(g, c); }
      else { MiddleOnward(g, c); }
    }
  }

  /** So a shape that fits later fitted before. */
  lemma FitsBack(g: Config, p: Shape, c: Client, d: Client)
    requires Onward(c, d) && Fits(g, p, d)
    ensures Fits(g, p, c)
  {
  }

  lemma HelloPromised(g: Config, c: Client)
    requires PreHello(c.state)
    ensures Promised(Do(g, c))
  {
    hide Emit, Take, Asked, Note, InitHash, FreeBuffer, FinishedFlight, SendFinished, ChangeWriteKey, ChangeReadKey,
         Resolve;
    hide DoReadServerCertificate, DoReadCertificateStatus, DoVerifyServerCertificate, DoReadServerKeyExchange,
         DoReadCertificateRequest;
    hide DoReadServerHelloDone, DoSendClientCertificate, DoSendClientKeyExchange, DoSendClientCertificateVerify;
    hide DoSendClientFinished, DoFinishFlight, DoReadSessionTicket, DoProcessChangeCipherSpec, DoReadServerFinished,
         DoFinishClientHandshake;
  }

  lemma StepPromised(g: Config, c: Client)
    requires Promised(c)
    ensures Promised(TlsClient.Step(g, c))
  {
    hide Do, Resolve;
    StepOnward(g, c);
    if c.io.wait.Go? {
      if PreHello(c.state) { HelloPromised(g, c); } else if c.state.Tls13? { Leaves(g, c); }
    }
  }

  lemma Leaves(g: Config, c: Client)
    requires c.state.Tls13?
    ensures Do(g, c) == c.(io := c.io.(wait := LeftForTls13))
  {
  }

  lemma StepFlow(g: Config, p: Shape, c: Client)
    requires Consistent(c) && Promised(c) && Fits(g, p, c) && OnCourse(p, c) && Fits(g, p, TlsClient.Step(g, c))
    ensures OnCourse(p, TlsClient.Step(g, c))
  {
    hide Follows, Trace, Resolve;
    ResolveSame(c.io);
    if c.io.wait.Go? {
      match c.state
      case StartConnect => StartConnectFlow(g, p, c);
      case EnterEarlyData => EnterEarlyDataFlow(g, p, c);
      case ReadHelloVerifyRequest => ReadHelloVerifyRequestFlow(g, p, c);
      case ReadServerHello => ReadServerHelloFlow(g, p, c);
      case ReadServerCertificate => ReadServerCertificateFlow(g, p, c);
      case ReadCertificateStatus => ReadCertificateStatusFlow(g, p, c);
      case VerifyServerCertificate => VerifyServerCertificateFlow(g, p, c);
      case ReadServerKeyExchange => ReadServerKeyExchangeFlow(g, p, c);
      case ReadCertificateRequest => ReadCertificateRequestFlow(g, p, c);
      case ReadServerHelloDone => ReadServerHelloDoneFlow(g, p, c);
      case SendClientCertificate => SendClientCertificateFlow(g, p, c);
      case SendClientKeyExchange => SendClientKeyExchangeFlow(g, p, c);
      case SendClientCertificateVerify => SendClientCertificateVerifyFlow(g, p, c);
      case SendClientFinished => SendClientFinishedFlow(g, p, c);
      case ReadSessionTicket => ReadSessionTicketFlow(g, p, c);
      case ProcessChangeCipherSpec => ProcessChangeCipherSpecFlow(g, p, c);
      case ReadServerFinished => ReadServerFinishedFlow(g, p, c);
      case _ =>
    }
  }

  lemma {:induction false} RunPromised(g: Config, inbox: seq<Record>, answers: seq<Answer>, flushes: seq<bool>,
                                       turns: nat)
    ensures Promised(Run(g, New(g, inbox, answers, flushes), turns))
  {
    hide TlsClient.Step;
    if turns > 0 {
      RunPromised(g, inbox, answers, flushes, turns - 1);
      StepPromised(g, Run(g, New(g, inbox, answers, flushes), turns - 1));
    }
  }

  lemma {:induction false} RunFlow(g: Config, p: Shape, inbox: seq<Record>, answers: seq<Answer>, flushes: seq<bool>,
                                   turns: nat)
    requires Fits(g, p, Run(g, New(g, inbox, answers, flushes), turns))
    ensures OnCourse(p, Run(g, New(g, inbox, answers, flushes), turns))
  {
    hide TlsClient.Step, Promised, Onward, Fits, Keys, FactsOf, LogInv;
    if turns > 0 {
      var c := Run(g, New(g, inbox, answers, flushes), turns - 1);
      KeepRun(g, inbox, answers, flushes, turns - 1);
      StepOnward(g, c);
      FitsBack(g, p, c, TlsClient.Step(g, c));
      RunFlow(g, p, inbox, answers, flushes, turns - 1);
      RunPromised(g, inbox, answers, flushes, turns - 1);
      StepFlow(g, p, c);
    }
  }

  /** At every moment of every run the client has taken the steps of the flow up to its state, and no other. */
  lemma KeepsToFlow(g: Config, inbox: seq<Record>, answers: seq<Answer>, flushes: seq<bool>, turns: nat)
    ensures var c := Run(g, New(g, inbox, answers, flushes), turns);
            Follows(ShapeOf(g, c), Trace(TheClient, c.io.log), At(c.state, c.deal))
  {
    hide Run, Follows, Trace;
    var c := Run(g, New(g, inbox, answers, flushes), turns);
    RunFlow(g, ShapeOf(g, c), inbox, answers, flushes, turns);
  }

  /** A client that is done took part in the whole flow of Figure 1 or 2, every message in its place. */
  lemma WholeFlow(g: Config, inbox: seq<Record>, answers: seq<Answer>, flushes: seq<bool>, turns: nat)
    requires Run(g, New(g, inbox, answers, flushes), turns).state.Done?
    ensures var c := Run(g, New(g, inbox, answers, flushes), turns); Complete(ShapeOf(g, c), Trace(TheClient, c.io.log))
  {
    hide Run, Follows, Trace;
    KeepsToFlow(g, inbox, answers, flushes, turns);
  }
}
