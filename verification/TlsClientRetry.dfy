/**
Retries of the TLS client: a turn that ends in a retry or a failing flush changes nothing else, and any other turn is
the one that would be taken without retries.
*/
module TlsClientRetry {
  import opened TlsHandshake
  import opened TlsClient

  /** A client with every trace of retries removed. */
  function Calmed(c: Client): Client {
    c.(io := Calm(c.io))
  }

  /** The handshake has an outcome: completed, failed, or left to TLS 1.3. */
  predicate Over(c: Client) {
    (c.state.Done? && (c.io.wait.Go? || c.io.wait.Blocked?)) || c.io.wait.Failed? || c.io.wait.LeftForTls13?
  }

  /** How much retrying is left before the next turn that counts. */
  function Retries(c: Client): nat {
    2 * |c.io.answers| + |c.io.flushes| + if c.io.wait.Blocked? then 1 else 0
  }

  /** `next` is what the calm client does, or a retry: then nothing changed but that there is one less. */
  predicate Alike(g: Config, c: Client, next: Client, calm: Client) {
    Calmed(next) == Calmed(calm) || (Calmed(next) == Calmed(c) && Retries(next) < Retries(c))
  }

  lemma FlightCalm(g: Config, d: Deal, io: Io)
    ensures Calm(FinishedFlight(g, d, io)) == FinishedFlight(g, d, Calm(io))
  {
    hide Settled;
  }

  // States that may call the application: the step is undone by a retry, and otherwise the calm one.

  lemma CalmVerifyServerCertificate(g: Config, c: Client)
    requires c.io.wait.Go? && c.state.VerifyServerCertificate?
    ensures Alike(g, c, Do(g, c), Do(g, Calmed(c)))
  {
    hide Settled, NextAnswer, Accepts, Asked;
    CalmTwice(c.io);
    if g.established.None? && g.customVerify {
      AskedCalm(c.io, VerifyPeer);
      AskedCalm(Calm(c.io), VerifyPeer);
    }
  }

  lemma CalmSendClientCertificate(g: Config, c: Client)
    requires c.io.wait.Go? && c.state.SendClientCertificate?
    ensures Alike(g, c, Do(g, c), Do(g, Calmed(c)))
  {
    hide Settled, NextAnswer, Asked;
    AskedCalm(c.io, CertificateLookup);
    AskedCalm(Calm(c.io), CertificateLookup);
    CalmTwice(c.io);
  }

  lemma CalmSendClientCertificateVerify(g: Config, c: Client)
    requires c.io.wait.Go? && c.state.SendClientCertificateVerify?
    ensures Alike(g, c, Do(g, c), Do(g, Calmed(c)))
  {
    hide Settled, NextAnswer, Asked;
    AskedCalm(c.io, PrivateKey);
    AskedCalm(Calm(c.io), PrivateKey);
    CalmTwice(c.io);
  }

  lemma CalmSendClientFinished(g: Config, c: Client)
    requires c.io.wait.Go? && c.state.SendClientFinished?
    ensures Alike(g, c, Do(g, c), Do(g, Calmed(c)))
  {
    hide Settled, NextAnswer, Asked, FinishedFlight;
    AskedCalm(c.io, ChannelIdLookup);
    AskedCalm(Calm(c.io), ChannelIdLookup);
    FlightCalm(g, c.deal, c.io);
    FlightCalm(g, c.deal, Calm(c.io));
    FlightCalm(g, c.deal, Asked(c.io, ChannelIdLookup));
    FlightCalm(g, c.deal, Asked(Calm(c.io), ChannelIdLookup));
    CalmTwice(c.io);
  }

  // All other states do not look at answers.

  predicate Asks(s: State) {
    || s.VerifyServerCertificate? || s.SendClientCertificate? || s.SendClientCertificateVerify?
    || s.SendClientFinished?
  }

  function Other(c: Client, answers: seq<Answer>): Client {
    c.(io := Aside(c.io, answers))
  }

  /** From `c` to `x`, and with other answers to come to `y`: nothing of it depends on the answers. */
  predicate Blind(c: Client, answers: seq<Answer>, x: Client, y: Client) {
    y == Other(x, answers) && x.io.answers == c.io.answers
  }

  lemma BlindHello(g: Config, c: Client, answers: seq<Answer>)
    ensures Blind(c, answers, DoStartConnect(g, c), DoStartConnect(g, Other(c, answers)))
    ensures Blind(c, answers, DoEnterEarlyData(g, c), DoEnterEarlyData(g, Other(c, answers)))
    ensures Blind(c, answers, DoReadHelloVerifyRequest(g, c), DoReadHelloVerifyRequest(g, Other(c, answers)))
  {
  }

  lemma BlindServerHello(g: Config, c: Client, answers: seq<Answer>)
    ensures Blind(c, answers, DoReadServerHello(g, c), DoReadServerHello(g, Other(c, answers)))
  {
    hide Take;
    if c.io.pending != [] { TakeAside(InitHash(c.io), answers); }
  }

  lemma BlindCertificate(g: Config, c: Client, answers: seq<Answer>)
    ensures Blind(c, answers, DoReadServerCertificate(g, c), DoReadServerCertificate(g, Other(c, answers)))
    ensures Blind(c, answers, DoReadCertificateStatus(g, c), DoReadCertificateStatus(g, Other(c, answers)))
    ensures Blind(c, answers, DoReadServerKeyExchange(g, c), DoReadServerKeyExchange(g, Other(c, answers)))
  {
  }

  lemma BlindDone(g: Config, c: Client, answers: seq<Answer>)
    ensures Blind(c, answers, DoReadCertificateRequest(g, c), DoReadCertificateRequest(g, Other(c, answers)))
    ensures Blind(c, answers, DoReadServerHelloDone(g, c), DoReadServerHelloDone(g, Other(c, answers)))
    ensures Blind(c, answers, DoSendClientKeyExchange(g, c), DoSendClientKeyExchange(g, Other(c, answers)))
  {
  }

  lemma BlindLast(g: Config, c: Client, answers: seq<Answer>)
    ensures Blind(c, answers, DoFinishFlight(g, c), DoFinishFlight(g, Other(c, answers)))
    ensures Blind(c, answers, DoReadSessionTicket(g, c), DoReadSessionTicket(g, Other(c, answers)))
    ensures Blind(c, answers, DoProcessChangeCipherSpec(g, c), DoProcessChangeCipherSpec(g, Other(c, answers)))
    ensures Blind(c, answers, DoReadServerFinished(g, c), DoReadServerFinished(g, Other(c, answers)))
    ensures Blind(c, answers, DoFinishClientHandshake(g, c), DoFinishClientHandshake(g, Other(c, answers)))
  {
  }

  lemma BlindDo(g: Config, c: Client, answers: seq<Answer>)
    requires !Asks(c.state)
    ensures Blind(c, answers, Do(g, c), Do(g, Other(c, answers)))
  {
    hide DoStartConnect, DoEnterEarlyData, DoReadHelloVerifyRequest, DoReadServerHello,
         DoReadServerCertificate, DoReadCertificateStatus, DoReadServerKeyExchange,
         DoReadCertificateRequest, DoReadServerHelloDone, DoSendClientKeyExchange, DoFinishFlight,
         DoReadSessionTicket, DoProcessChangeCipherSpec, DoReadServerFinished, DoFinishClientHandshake,
         DoVerifyServerCertificate, DoSendClientCertificate, DoSendClientCertificateVerify,
         DoSendClientFinished;
    BlindHello(g, c, answers);
    BlindServerHello(g, c, answers);
    BlindCertificate(g, c, answers);
    BlindDone(g, c, answers);
    BlindLast(g, c, answers);
  }

  lemma CalmQuiet(g: Config, c: Client)
    requires c.io.wait.Go? && !Asks(c.state)
    ensures Calmed(Do(g, c)) == Calmed(Do(g, Calmed(c)))
  {
    hide Settled, Do;
    SettledTwice(c.io.answers);
    BlindDo(g, c, Settled(c.io.answers));
  }

  /** One turn is either invisible once retries are removed, or it is the turn of the calm client. */
  lemma CalmStep(g: Config, c: Client)
    ensures Alike(g, c, Step(g, c), Step(g, Calmed(c)))
  {
    hide Do, Calm, Resolve;
    if !c.io.wait.Go? {
      CalmWait(g, c);
    } else {
      CalmGo(c);
      match c.state {
        case VerifyServerCertificate => CalmVerifyServerCertificate(g, c);
        case SendClientCertificate => CalmSendClientCertificate(g, c);
        case SendClientCertificateVerify => CalmSendClientCertificateVerify(g, c);
        case SendClientFinished => CalmSendClientFinished(g, c);
        case _ => CalmQuiet(g, c);
      }
    }
  }

  lemma CalmGo(c: Client)
    requires c.io.wait.Go?
    ensures Calmed(c).io.wait.Go?
  {
  }

  lemma CalmWait(g: Config, c: Client)
    requires !c.io.wait.Go?
    ensures Alike(g, c, Step(g, c), Step(g, Calmed(c)))
  {
    hide Do, Settled;
    ResolveCalm(c.io);
  }

  lemma OverStays(g: Config, c: Client)
    requires Over(c) && Calmed(c) == c
    ensures Calmed(Step(g, c)) == c
  {
  }

  lemma OverCalm(c: Client)
    ensures Over(Calmed(c)) == Over(c)
    ensures Calmed(Calmed(c)) == Calmed(c)
  {
    hide Settled;
    CalmTwice(c.io);
  }
}
