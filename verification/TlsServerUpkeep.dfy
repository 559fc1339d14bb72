/** What a server keeps besides its log: buffers, operations under way, and the way out into TLS 1.3. */
module TlsServerUpkeep {
  import opened Wire
  import opened TlsHandshake
  import opened TlsServer

  /** The handshake buffer is there exactly as long as the client's CertificateVerify may need it. */
  predicate BufferNeeded(c: Server) {
    c.io.buffer.Some? <==>
      || PreHello(c.state) || c.state.Tls13?
      || (c.deal.requested && BeforeCertificate(c.state))
      || (c.peer.Some? && BeforeProof(c.state))
  }

  /** A private key operation is under way exactly while it blocks a signature or a decryption. */
  predicate KeyBusy(g: Config, c: Server) {
    && (c.io.wait == Blocked(PrivateKey) ==> c.io.keyOp.Started?)
    && (c.io.keyOp.Started? ==>
          && g.keyMethod && (c.io.wait.Go? || c.io.wait.Failed? || c.io.wait == Blocked(PrivateKey))
          && ((c.state.SendServerKeyExchange? && c.params.ParamsReady? && c.deal.cipher.certAuth)
              || (c.state.ReadClientKeyExchange? && c.deal.cipher.kx.Rsa? && c.io.pending != [])))
  }

  predicate Hello13(g: Config, m: Message) {
    m.kind == ClientHello && g.parseHello(m).Some? && g.parseHello(m).value.version13
  }

  /** What leads to TLS 1.3 is a ClientHello of that version, which is left for it to read. */
  predicate Leaving(g: Config, c: Server) {
    && (c.state.SelectCertificate? ==> c.io.pending != [] && c.io.pending[0].kind == ClientHello
                                       && c.hello == g.parseHello(c.io.pending[0]) && c.hello.Some?)
    && (c.state.Tls13? ==> c.io.pending != [] && Hello13(g, c.io.pending[0]))
    && (c.io.wait.LeftForTls13? ==> c.state.Tls13?)
  }

  lemma AllAsked(io: Io)
    requires io.wait.Go?
    ensures forall op :: var a := Asked(io, op);
            && a.buffer == io.buffer && a.pending == io.pending && (a.wait.Go? <==> NextAnswer(io).Accept?)
            && (a.wait == Blocked(PrivateKey) <==> NextAnswer(io).Retry? && op.PrivateKey?)
            && !a.wait.LeftForTls13?
            && a.keyOp == if !op.PrivateKey? then io.keyOp else if NextAnswer(io).Retry? then Started else Idle
  {
  }

  lemma TakeFields(io: Io)
    requires io.pending != []
    ensures var t := Take(io);
            && t.buffer.Some? == io.buffer.Some? && t.keyOp == io.keyOp && t.wait == io.wait
            && t.pending == io.pending[1..]
  {
  }

  predicate Upkeep(g: Config, c: Server) {
    && BufferNeeded(c) && KeyBusy(g, c) && Leaving(g, c)
    && (c.peer.Some? ==> !PreHello(c.state) && !BeforeCertificate(c.state))
    && (c.deal.resumed ==> ResumedState(c.state) && !c.deal.requested)
    && (PreHello(c.state) ==> !c.deal.requested)
  }

  lemma UpStartAccept(g: Config, c: Server)
    requires Upkeep(g, c) && c.io.wait.Go? && c.state.StartAccept?
    ensures Upkeep(g, DoStartAccept(g, c))
  {
    hide Asked, NextAnswer, Accepts;
    AllAsked(c.io);
  }

  lemma UpReadClientHello(g: Config, c: Server)
    requires Upkeep(g, c) && c.io.wait.Go? && c.state.ReadClientHello?
    ensures Upkeep(g, DoReadClientHello(g, c))
  {
    hide Asked, NextAnswer, Accepts;
    AllAsked(c.io);
  }

  lemma UpSelectCertificate(g: Config, c: Server)
    requires Upkeep(g, c) && c.io.wait.Go? && c.state.SelectCertificate?
    ensures Upkeep(g, DoSelectCertificate(g, c))
  {
    hide Asked, NextAnswer, Accepts;
    AllAsked(c.io);
  }

  lemma UpTls13(g: Config, c: Server)
    requires Upkeep(g, c) && c.io.wait.Go? && c.state.Tls13?
    ensures Upkeep(g, Do(g, c))
  {
    hide Asked, NextAnswer, Accepts;
    AllAsked(c.io);
  }

  lemma UpSelectParameters(g: Config, c: Server)
    requires Upkeep(g, c) && c.io.wait.Go? && c.state.SelectParameters?
    ensures Upkeep(g, DoSelectParameters(g, c))
  {
    hide Asked, NextAnswer, Accepts;
    AllAsked(c.io);
  }

  lemma UpSendServerHello(g: Config, c: Server)
    requires Upkeep(g, c) && c.io.wait.Go? && c.state.SendServerHello?
    ensures Upkeep(g, DoSendServerHello(g, c))
  {
    hide Asked, NextAnswer, Accepts;
    AllAsked(c.io);
  }

  lemma UpSendServerCertificate(g: Config, c: Server)
    requires Upkeep(g, c) && c.io.wait.Go? && c.state.SendServerCertificate?
    ensures Upkeep(g, DoSendServerCertificate(g, c))
  {
    hide Asked, NextAnswer, Accepts;
    AllAsked(c.io);
  }

  lemma UpSendServerKeyExchange(g: Config, c: Server)
    requires Upkeep(g, c) && c.io.wait.Go? && c.state.SendServerKeyExchange?
    ensures Upkeep(g, DoSendServerKeyExchange(g, c))
  {
    hide Asked, NextAnswer, Accepts;
    AllAsked(c.io);
  }

  lemma UpSendServerHelloDone(g: Config, c: Server)
    requires Upkeep(g, c) && c.io.wait.Go? && c.state.SendServerHelloDone?
    ensures Upkeep(g, DoSendServerHelloDone(g, c))
  {
    hide Asked, NextAnswer, Accepts;
    AllAsked(c.io);
  }

  lemma UpReadClientCertificate(g: Config, c: Server)
    requires Upkeep(g, c) && c.io.wait.Go? && c.state.ReadClientCertificate?
    ensures Upkeep(g, DoReadClientCertificate(g, c))
  {
    hide Asked, NextAnswer, Accepts;
    AllAsked(c.io);
  }

  lemma UpVerifyClientCertificate(g: Config, c: Server)
    requires Upkeep(g, c) && c.io.wait.Go? && c.state.VerifyClientCertificate?
    ensures Upkeep(g, DoVerifyClientCertificate(g, c))
  {
    hide Asked, NextAnswer, Accepts;
    AllAsked(c.io);
  }

  lemma UpReadClientKeyExchange(g: Config, c: Server)
    requires Upkeep(g, c) && c.io.wait.Go? && c.state.ReadClientKeyExchange?
    ensures Upkeep(g, DoReadClientKeyExchange(g, c))
  {
    hide Asked, NextAnswer, Accepts, Take;
    AllAsked(c.io);
    if c.io.pending != [] {
      TakeFields(c.io);
      if c.deal.cipher.kx.Rsa? && g.keyMethod { TakeFields(Asked(c.io, PrivateKey)); }
    }
  }

  lemma UpReadClientCertificateVerify(g: Config, c: Server)
    requires Upkeep(g, c) && c.io.wait.Go? && c.state.ReadClientCertificateVerify?
    ensures Upkeep(g, DoReadClientCertificateVerify(g, c))
  {
    hide Asked, NextAnswer, Accepts;
    AllAsked(c.io);
  }

  lemma UpAwaitChangeCipherSpec(g: Config, c: Server)
    requires Upkeep(g, c) && c.io.wait.Go? && c.state.AwaitChangeCipherSpec?
    ensures Upkeep(g, DoAwaitChangeCipherSpec(g, c))
  {
    hide Asked, NextAnswer, Accepts;
    AllAsked(c.io);
  }

  lemma UpProcessChangeCipherSpec(g: Config, c: Server)
    requires Upkeep(g, c) && c.io.wait.Go? && c.state.ProcessChangeCipherSpec?
    ensures Upkeep(g, DoProcessChangeCipherSpec(g, c))
  {
    hide Asked, NextAnswer, Accepts;
    AllAsked(c.io);
  }

  lemma UpReadNextProto(g: Config, c: Server)
    requires Upkeep(g, c) && c.io.wait.Go? && c.state.ReadNextProto?
    ensures Upkeep(g, DoReadNextProto(g, c))
  {
    hide Asked, NextAnswer, Accepts;
    AllAsked(c.io);
  }

  lemma UpReadChannelId(g: Config, c: Server)
    requires Upkeep(g, c) && c.io.wait.Go? && c.state.ReadChannelId?
    ensures Upkeep(g, DoReadChannelId(g, c))
  {
    hide Asked, NextAnswer, Accepts;
    AllAsked(c.io);
  }

  lemma UpReadClientFinished(g: Config, c: Server)
    requires Upkeep(g, c) && c.io.wait.Go? && c.state.ReadClientFinished?
    ensures Upkeep(g, DoReadClientFinished(g, c))
  {
    hide Asked, NextAnswer, Accepts, Take;
    AllAsked(c.io);
    if c.io.pending != [] { TakeFields(c.io); }
  }

  lemma UpSendServerFinished(g: Config, c: Server)
    requires Upkeep(g, c) && c.io.wait.Go? && c.state.SendServerFinished?
    ensures Upkeep(g, DoSendServerFinished(g, c))
  {
    hide Asked, NextAnswer, Accepts;
    AllAsked(c.io);
  }

  lemma UpFinishServerHandshake(g: Config, c: Server)
    requires Upkeep(g, c) && c.io.wait.Go? && c.state.FinishServerHandshake?
    ensures Upkeep(g, DoFinishServerHandshake(g, c))
  {
    hide Asked, NextAnswer, Accepts;
    AllAsked(c.io);
  }

  lemma UpResolve(g: Config, c: Server)
    requires Upkeep(g, c) && !c.io.wait.Go?
    ensures Upkeep(g, c.(io := Resolve(c.io)))
  {
    hide ResumedState, BeforeCertificate, BeforeProof, PreHello;
  }

  lemma UpStep(g: Config, c: Server)
    requires Upkeep(g, c)
    ensures Upkeep(g, Step(g, c))
  {
    hide Upkeep;
    if !c.io.wait.Go? {
      UpResolve(g, c);
    } else {
      match c.state
      case StartAccept => UpStartAccept(g, c);
      case ReadClientHello => UpReadClientHello(g, c);
      case SelectCertificate => UpSelectCertificate(g, c);
      case Tls13 => UpTls13(g, c);
      case SelectParameters => UpSelectParameters(g, c);
      case SendServerHello => UpSendServerHello(g, c);
      case SendServerCertificate => UpSendServerCertificate(g, c);
      case SendServerKeyExchange => UpSendServerKeyExchange(g, c);
      case SendServerHelloDone => UpSendServerHelloDone(g, c);
      case ReadClientCertificate => UpReadClientCertificate(g, c);
      case VerifyClientCertificate => UpVerifyClientCertificate(g, c);
      case ReadClientKeyExchange => UpReadClientKeyExchange(g, c);
      case ReadClientCertificateVerify => UpReadClientCertificateVerify(g, c);
      case AwaitChangeCipherSpec => UpAwaitChangeCipherSpec(g, c);
      case ProcessChangeCipherSpec => UpProcessChangeCipherSpec(g, c);
      case ReadNextProto => UpReadNextProto(g, c);
      case ReadChannelId => UpReadChannelId(g, c);
      case ReadClientFinished => UpReadClientFinished(g, c);
      case SendServerFinished => UpSendServerFinished(g, c);
      case FinishServerHandshake => UpFinishServerHandshake(g, c);
      case Done =>
    }
  }

  /** In every run. */
  lemma {:induction false} RunUpkeep(g: Config, inbox: seq<Record>, answers: seq<Answer>, flushes: seq<bool>,
                                     turns: nat)
    ensures Upkeep(g, Run(g, New(g, inbox, answers, flushes), turns))
  {
    hide Step;
    if turns > 0 {
      RunUpkeep(g, inbox, answers, flushes, turns - 1);
      UpStep(g, Run(g, New(g, inbox, answers, flushes), turns - 1));
    }
  }

  /** A ClientHello for TLS 1.3 leads out, with nothing of the handshake changed; it is left to be read there. */
  lemma LeavesFor13(g: Config, c: Server)
    requires c.state.ReadClientHello? && c.io.wait.Go? && c.io.pending != [] && Hello13(g, c.io.pending[0])
    requires g.parseHello(c.io.pending[0]).value.acceptable && g.certificateFits && !g.selectCallback && !g.certCallback
    ensures var d := Step(g, Step(g, Step(g, c)));
            d.state == Tls13 && d.io == c.io.(wait := LeftForTls13) && d.hello == g.parseHello(c.io.pending[0])
  {
  }
}
