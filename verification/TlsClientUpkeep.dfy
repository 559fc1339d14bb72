/** What a client keeps besides its log: buffers, operations under way, and the way out into TLS 1.3. */
module TlsClientUpkeep {
  import opened Wire
  import opened TlsHandshake
  import opened TlsClient

  /** The handshake buffer is there exactly as long as a signature may need it. */
  predicate BufferNeeded(g: Config, c: Client) {
    c.io.buffer.Some? <==> c.state.Tls13? || NeedsBuffer(g, c.state, c.deal, c.request)
  }

  /** A private key operation is under way exactly while it blocks the CertificateVerify. */
  predicate KeyBusy(g: Config, c: Client) {
    && (c.io.wait == Blocked(PrivateKey) ==> c.io.keyOp.Started?)
    && (c.io.keyOp.Started? ==>
          && c.state.SendClientCertificateVerify? && c.request.Some? && g.hasCertificate && g.keyMethod
          && (c.io.wait.Go? || c.io.wait == Blocked(PrivateKey)))
  }

  /** A Channel ID key that was looked up is kept. */
  predicate IdKept(c: Client) {
    WriteChanged(c.state, c.deal) && c.deal.channelId ==> c.idKey.Present?
  }

  predicate Hello13(g: Config, m: Message) {
    m.kind == ServerHello && g.parseHello(m).Some? && g.parseHello(m).value.version13
  }

  /** What leads to TLS 1.3 is a ServerHello of that version, which is left for it to read. */
  predicate Leaving(g: Config, c: Client) {
    && (c.state.Tls13? ==> c.io.pending != [] && Hello13(g, c.io.pending[0]))
    && (c.io.wait.LeftForTls13? ==> c.state.Tls13?)
  }

  lemma FinishedFields(g: Config, d: Deal, io: Io)
    ensures var f := FinishedFlight(g, d, io);
            && f.buffer.Some? == io.buffer.Some? && f.keyOp == io.keyOp && f.pending == io.pending
  {
  }

  lemma AllAsked(io: Io)
    requires io.wait.Go?
    ensures forall op :: var a := Asked(io, op);
            && a.buffer == io.buffer && a.pending == io.pending && (a.wait.Go? <==> NextAnswer(io).Accept?)
            && (a.wait == Blocked(PrivateKey) <==> NextAnswer(io).Retry? && op.PrivateKey?)
            && !a.wait.LeftForTls13?
            && a.keyOp == if !op.PrivateKey? then io.keyOp else if NextAnswer(io).Retry? then Started else Idle
  {
  }

  lemma TakeFields(io: Io)
    requires io.pending != []
    ensures var t := Take(io);
            && t.buffer.Some? == io.buffer.Some? && t.keyOp == io.keyOp && t.wait == io.wait
            && t.pending == io.pending[1..]
  {
  }

  predicate Upkeep(g: Config, c: Client) {
    && BufferNeeded(g, c) && KeyBusy(g, c) && IdKept(c) && Leaving(g, c)
    && (c.request.Some? ==> !PreHello(c.state) && !BeforeRequest(c.state))
    && (c.deal.resumed ==> ResumedState(c.state))
  }

  lemma UpStartConnect(g: Config, c: Client)
    requires Upkeep(g, c) && c.io.wait.Go? && c.state.StartConnect?
    ensures Upkeep(g, DoStartConnect(g, c))
  {
    hide Asked, NextAnswer, FinishedFlight, Acceptable, Accepts;
    AllAsked(c.io);
  }

  lemma UpEnterEarlyData(g: Config, c: Client)
    requires Upkeep(g, c) && c.io.wait.Go? && c.state.EnterEarlyData?
    ensures Upkeep(g, DoEnterEarlyData(g, c))
  {
    hide Asked, NextAnswer, FinishedFlight, Acceptable, Accepts;
    AllAsked(c.io);
  }

  lemma UpReadHelloVerifyRequest(g: Config, c: Client)
    requires Upkeep(g, c) && c.io.wait.Go? && c.state.ReadHelloVerifyRequest?
    ensures Upkeep(g, DoReadHelloVerifyRequest(g, c))
  {
    hide Asked, NextAnswer, FinishedFlight, Acceptable, Accepts;
    AllAsked(c.io);
  }

  lemma UpReadServerHello(g: Config, c: Client)
    requires Upkeep(g, c) && c.io.wait.Go? && c.state.ReadServerHello?
    ensures Upkeep(g, DoReadServerHello(g, c))
  {
    hide Asked, NextAnswer, FinishedFlight, Acceptable, Accepts, Take;
    AllAsked(c.io);
    if c.io.pending != [] { TakeFields(InitHash(c.io)); }
  }

  lemma UpTls13(g: Config, c: Client)
    requires Upkeep(g, c) && c.io.wait.Go? && c.state.Tls13?
    ensures Upkeep(g, Do(g, c))
  {
    hide Asked, NextAnswer, FinishedFlight, Acceptable, Accepts;
    AllAsked(c.io);
  }

  lemma UpReadServerCertificate(g: Config, c: Client)
    requires Upkeep(g, c) && c.io.wait.Go? && c.state.ReadServerCertificate?
    ensures Upkeep(g, DoReadServerCertificate(g, c))
  {
    hide Asked, NextAnswer, FinishedFlight, Acceptable, Accepts;
    AllAsked(c.io);
  }

  lemma UpReadCertificateStatus(g: Config, c: Client)
    requires Upkeep(g, c) && c.io.wait.Go? && c.state.ReadCertificateStatus?
    ensures Upkeep(g, DoReadCertificateStatus(g, c))
  {
    hide Asked, NextAnswer, FinishedFlight, Acceptable, Accepts;
    AllAsked(c.io);
  }

  lemma UpVerifyServerCertificate(g: Config, c: Client)
    requires Upkeep(g, c) && c.io.wait.Go? && c.state.VerifyServerCertificate?
    ensures Upkeep(g, DoVerifyServerCertificate(g, c))
  {
    hide Asked, NextAnswer, FinishedFlight, Acceptable, Accepts;
    AllAsked(c.io);
  }

  lemma UpReadServerKeyExchange(g: Config, c: Client)
    requires Upkeep(g, c) && c.io.wait.Go? && c.state.ReadServerKeyExchange?
    ensures Upkeep(g, DoReadServerKeyExchange(g, c))
  {
    hide Asked, NextAnswer, FinishedFlight, Acceptable, Accepts;
    AllAsked(c.io);
  }

  lemma UpReadCertificateRequest(g: Config, c: Client)
    requires Upkeep(g, c) && c.io.wait.Go? && c.state.ReadCertificateRequest?
    ensures Upkeep(g, DoReadCertificateRequest(g, c))
  {
    hide Asked, NextAnswer, FinishedFlight, Acceptable, Accepts;
    AllAsked(c.io);
  }

  lemma UpReadServerHelloDone(g: Config, c: Client)
    requires Upkeep(g, c) && c.io.wait.Go? && c.state.ReadServerHelloDone?
    ensures Upkeep(g, DoReadServerHelloDone(g, c))
  {
    hide Asked, NextAnswer, FinishedFlight, Acceptable, Accepts;
    AllAsked(c.io);
  }

  lemma UpSendClientCertificate(g: Config, c: Client)
    requires Upkeep(g, c) && c.io.wait.Go? && c.state.SendClientCertificate?
    ensures Upkeep(g, DoSendClientCertificate(g, c))
  {
    hide Asked, NextAnswer, FinishedFlight, Acceptable, Accepts;
    AllAsked(c.io);
  }

  lemma UpSendClientKeyExchange(g: Config, c: Client)
    requires Upkeep(g, c) && c.io.wait.Go? && c.state.SendClientKeyExchange?
    ensures Upkeep(g, DoSendClientKeyExchange(g, c))
  {
    hide Asked, NextAnswer, FinishedFlight, Acceptable, Accepts;
    AllAsked(c.io);
  }

  lemma UpSendClientCertificateVerify(g: Config, c: Client)
    requires Upkeep(g, c) && c.io.wait.Go? && c.state.SendClientCertificateVerify?
    ensures Upkeep(g, DoSendClientCertificateVerify(g, c))
  {
    hide Asked, NextAnswer, FinishedFlight, Acceptable, Accepts;
    AllAsked(c.io);
  }

  lemma UpSendClientFinished(g: Config, c: Client)
    requires Upkeep(g, c) && c.io.wait.Go? && c.state.SendClientFinished?
    ensures Upkeep(g, DoSendClientFinished(g, c))
  {
    hide Asked, NextAnswer, FinishedFlight, Acceptable, Accepts;
    AllAsked(c.io);
    FinishedFields(g, c.deal, c.io);
    FinishedFields(g, c.deal, Asked(c.io, ChannelIdLookup));
  }

  lemma UpFinishFlight(g: Config, c: Client)
    requires Upkeep(g, c) && c.io.wait.Go? && c.state.FinishFlight?
    ensures Upkeep(g, DoFinishFlight(g, c))
  {
    hide Asked, NextAnswer, FinishedFlight, Acceptable, Accepts;
    AllAsked(c.io);
  }

  lemma UpReadSessionTicket(g: Config, c: Client)
    requires Upkeep(g, c) && c.io.wait.Go? && c.state.ReadSessionTicket?
    ensures Upkeep(g, DoReadSessionTicket(g, c))
  {
    hide Asked, NextAnswer, FinishedFlight, Acceptable, Accepts;
    AllAsked(c.io);
  }

  lemma UpProcessChangeCipherSpec(g: Config, c: Client)
    requires Upkeep(g, c) && c.io.wait.Go? && c.state.ProcessChangeCipherSpec?
    ensures Upkeep(g, DoProcessChangeCipherSpec(g, c))
  {
    hide Asked, NextAnswer, FinishedFlight, Acceptable, Accepts;
    AllAsked(c.io);
  }

  lemma UpReadServerFinished(g: Config, c: Client)
    requires Upkeep(g, c) && c.io.wait.Go? && c.state.ReadServerFinished?
    ensures Upkeep(g, DoReadServerFinished(g, c))
  {
    hide Asked, NextAnswer, FinishedFlight, Acceptable, Accepts, Take;
    AllAsked(c.io);
    if c.io.pending != [] { TakeFields(c.io); }
  }

  lemma UpFinishClientHandshake(g: Config, c: Client)
    requires Upkeep(g, c) && c.io.wait.Go? && c.state.FinishClientHandshake?
    ensures Upkeep(g, DoFinishClientHandshake(g, c))
  {
    hide Asked, NextAnswer, FinishedFlight, Acceptable, Accepts;
    AllAsked(c.io);
  }

  lemma UpResolve(g: Config, c: Client)
    requires Upkeep(g, c) && !c.io.wait.Go?
    ensures Upkeep(g, c.(io := Resolve(c.io)))
  {
    hide NeedsBuffer, WriteChanged, ResumedState, BeforeRequest, PreHello;
  }

  lemma UpStep(g: Config, c: Client)
    requires Upkeep(g, c)
    ensures Upkeep(g, Step(g, c))
  {
    hide Upkeep;
    if !c.io.wait.Go? {
      UpResolve(g, c);
    } else {
      match c.state
      case StartConnect => UpStartConnect(g, c);
      case EnterEarlyData => UpEnterEarlyData(g, c);
      case ReadHelloVerifyRequest => UpReadHelloVerifyRequest(g, c);
      case ReadServerHello => UpReadServerHello(g, c);
      case Tls13 => UpTls13(g, c);
      case ReadServerCertificate => UpReadServerCertificate(g, c);
      case ReadCertificateStatus => UpReadCertificateStatus(g, c);
      case VerifyServerCertificate => UpVerifyServerCertificate(g, c);
      case ReadServerKeyExchange => UpReadServerKeyExchange(g, c);
      case ReadCertificateRequest => UpReadCertificateRequest(g, c);
      case ReadServerHelloDone => UpReadServerHelloDone(g, c);
      case SendClientCertificate => UpSendClientCertificate(g, c);
      case SendClientKeyExchange => UpSendClientKeyExchange(g, c);
      case SendClientCertificateVerify => UpSendClientCertificateVerify(g, c);
      case SendClientFinished => UpSendClientFinished(g, c);
      case FinishFlight => UpFinishFlight(g, c);
      case ReadSessionTicket => UpReadSessionTicket(g, c);
      case ProcessChangeCipherSpec => UpProcessChangeCipherSpec(g, c);
      case ReadServerFinished => UpReadServerFinished(g, c);
      case FinishClientHandshake => UpFinishClientHandshake(g, c);
      case Done =>
    }
  }

  /** In every run. */
  lemma {:induction false} RunUpkeep(g: Config, inbox: seq<Record>, answers: seq<Answer>, flushes: seq<bool>,
                                     turns: nat)
    ensures Upkeep(g, Run(g, New(g, inbox, answers, flushes), turns))
  {
    hide Step;
    if turns > 0 {
      RunUpkeep(g, inbox, answers, flushes, turns - 1);
      UpStep(g, Run(g, New(g, inbox, answers, flushes), turns - 1));
    }
  }

  /** A ServerHello for TLS 1.3 leads out, with nothing changed; the message is left to be read there. */
  lemma LeavesFor13(g: Config, c: Client)
    requires c.state.ReadServerHello? && c.io.wait.Go? && c.io.pending != [] && Hello13(g, c.io.pending[0])
    ensures Step(g, Step(g, c)) == c.(state := Tls13, io := c.io.(wait := LeftForTls13))
  {
  }
}
