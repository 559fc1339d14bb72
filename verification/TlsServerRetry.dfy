/**
Retries of the TLS server: a turn that ends in a retry or a failing flush changes nothing else, and any other turn is
the one that would be taken without retries.
*/
module TlsServerRetry {
  import opened TlsHandshake
  import opened TlsServer

  /** A server with every trace of retries removed. */
  function Calmed(c: Server): Server {
    c.(io := Calm(c.io))
  }

  /** The handshake has an outcome: completed, failed, or left to TLS 1.3. */
  predicate Over(c: Server) {
    (c.state.Done? && (c.io.wait.Go? || c.io.wait.Blocked?)) || c.io.wait.Failed? || c.io.wait.LeftForTls13?
  }

  /** How much retrying is left before the next turn that counts. */
  function Retries(c: Server): nat {
    2 * |c.io.answers| + |c.io.flushes| + if c.io.wait.Blocked? then 1 else 0
  }

  /** `next` is what the calm server does, or a retry: then nothing changed but that there is one less. */
  predicate Alike(g: Config, c: Server, next: Server, calm: Server) {
    Calmed(next) == Calmed(calm) || (Calmed(next) == Calmed(c) && Retries(next) < Retries(c))
  }

  // States that may call the application: the step is undone by a retry, and otherwise the calm one.

  lemma CalmReadClientHello(g: Config, c: Server)
    requires c.io.wait.Go? && c.state.ReadClientHello?
    ensures Alike(g, c, Do(g, c), Do(g, Calmed(c)))
  {
    hide Settled, NextAnswer, Asked;
    AskedCalm(c.io, CertificateSelection);
    AskedCalm(Calm(c.io), CertificateSelection);
    CalmTwice(c.io);
  }

  lemma CalmSelectCertificate(g: Config, c: Server)
    requires c.io.wait.Go? && c.state.SelectCertificate?
    ensures Alike(g, c, Do(g, c), Do(g, Calmed(c)))
  {
    hide Settled, NextAnswer, Asked;
    AskedCalm(c.io, CertificateLookup);
    AskedCalm(Calm(c.io), CertificateLookup);
    CalmTwice(c.io);
  }

  lemma CalmSettle(g: Config, x: Server, y: Server, found: Lookup)
    requires x.io.pending != [] && !found.BadLookup?
    ensures Calmed(x) == Calmed(y) ==> y.io.pending != [] && Calmed(Settle(g, x, found)) == Calmed(Settle(g, y, found))
  {
    hide Settled, Take, DealFor;
    assert Calm(x.io).pending == x.io.pending && Calm(y.io).pending == y.io.pending;
    CalmTake(InitHash(x.io), InitHash(y.io));
  }

  lemma CalmSelectParameters(g: Config, c: Server)
    requires c.io.wait.Go? && c.state.SelectParameters?
    ensures Alike(g, c, Do(g, c), Do(g, Calmed(c)))
  {
    hide Settled, NextAnswer, Asked, Settle;
    AskedCalm(c.io, SessionLookup);
    AskedCalm(Calm(c.io), SessionLookup);
    CalmTwice(c.io);
    if c.io.pending != [] && !g.lookup(c.io.pending[0]).BadLookup? {
      var found := g.lookup(c.io.pending[0]);
      CalmSettle(g, c.(io := Asked(c.io, SessionLookup)), Calmed(c).(io := Asked(Calm(c.io), SessionLookup)), found);
      CalmSettle(g, c, Calmed(c), found);
    }
  }

  lemma CalmSendServerKeyExchange(g: Config, c: Server)
    requires c.io.wait.Go? && c.state.SendServerKeyExchange?
    ensures Alike(g, c, Do(g, c), Do(g, Calmed(c)))
  {
    hide Settled, NextAnswer, Emit, Asked;
    CalmTwice(c.io);
    var m := if g.exchange.Some? then Message(ServerKeyExchange, g.exchange.value) else Message(Unknown, []);
    if c.deal.cipher.certAuth && g.keyMethod {
      AskedCalm(c.io, PrivateKey);
      AskedCalm(Calm(c.io), PrivateKey);
      CalmEmit(Asked(c.io, PrivateKey), Asked(Calm(c.io), PrivateKey), m);
    } else {
      CalmEmit(c.io, Calm(c.io), m);
    }
  }

  lemma CalmVerifyClientCertificate(g: Config, c: Server)
    requires c.io.wait.Go? && c.state.VerifyClientCertificate?
    ensures Alike(g, c, Do(g, c), Do(g, Calmed(c)))
  {
    hide Settled, NextAnswer, Asked;
    AskedCalm(c.io, VerifyPeer);
    AskedCalm(Calm(c.io), VerifyPeer);
    CalmTwice(c.io);
  }

  lemma CalmReadClientKeyExchange(g: Config, c: Server)
    requires c.io.wait.Go? && c.state.ReadClientKeyExchange?
    ensures Alike(g, c, Do(g, c), Do(g, Calmed(c)))
  {
    hide Settled, NextAnswer, Take, Asked;
    CalmTwice(c.io);
    if c.deal.cipher.kx.Rsa? && g.keyMethod {
      AskedCalm(c.io, PrivateKey);
      AskedCalm(Calm(c.io), PrivateKey);
      if c.io.pending != [] { CalmTake(Asked(c.io, PrivateKey), Asked(Calm(c.io), PrivateKey)); }
    } else if c.io.pending != [] {
      CalmTake(c.io, Calm(c.io));
    }
  }

  // All other states do not look at answers.

  predicate Asks(s: State) {
    || s.ReadClientHello? || s.SelectCertificate? || s.SelectParameters? || s.SendServerKeyExchange?
    || s.VerifyClientCertificate? || s.ReadClientKeyExchange?
  }

  function Other(c: Server, answers: seq<Answer>): Server {
    c.(io := Aside(c.io, answers))
  }

  /** From `c` to `x`, and with other answers to come to `y`: nothing of it depends on the answers. */
  predicate Blind(c: Server, answers: seq<Answer>, x: Server, y: Server) {
    y == Other(x, answers) && x.io.answers == c.io.answers
  }

  lemma BlindSend(g: Config, c: Server, answers: seq<Answer>)
    ensures Blind(c, answers, DoStartAccept(g, c), DoStartAccept(g, Other(c, answers)))
    ensures Blind(c, answers, DoSendServerHello(g, c), DoSendServerHello(g, Other(c, answers)))
    ensures Blind(c, answers, DoSendServerCertificate(g, c), DoSendServerCertificate(g, Other(c, answers)))
    ensures Blind(c, answers, DoSendServerHelloDone(g, c), DoSendServerHelloDone(g, Other(c, answers)))
  {
  }

  lemma BlindCertificate(g: Config, c: Server, answers: seq<Answer>)
    ensures Blind(c, answers, DoReadClientCertificate(g, c), DoReadClientCertificate(g, Other(c, answers)))
    ensures Blind(c, answers, DoReadClientCertificateVerify(g, c), DoReadClientCertificateVerify(g, Other(c, answers)))
  {
    hide Take;
    if c.io.pending != [] {
      TakeAside(c.io, answers);
      TakeAside(FreeBuffer(c.io), answers);
    }
  }

  lemma BlindRead(g: Config, c: Server, answers: seq<Answer>)
    ensures Blind(c, answers, DoReadNextProto(g, c), DoReadNextProto(g, Other(c, answers)))
    ensures Blind(c, answers, DoReadChannelId(g, c), DoReadChannelId(g, Other(c, answers)))
  {
    hide Take;
    if c.io.pending != [] { TakeAside(c.io, answers); }
  }

  lemma BlindLast(g: Config, c: Server, answers: seq<Answer>)
    ensures Blind(c, answers, DoAwaitChangeCipherSpec(g, c), DoAwaitChangeCipherSpec(g, Other(c, answers)))
    ensures Blind(c, answers, DoProcessChangeCipherSpec(g, c), DoProcessChangeCipherSpec(g, Other(c, answers)))
    ensures Blind(c, answers, DoReadClientFinished(g, c), DoReadClientFinished(g, Other(c, answers)))
    ensures Blind(c, answers, DoSendServerFinished(g, c), DoSendServerFinished(g, Other(c, answers)))
    ensures Blind(c, answers, DoFinishServerHandshake(g, c), DoFinishServerHandshake(g, Other(c, answers)))
  {
  }

  lemma BlindDo(g: Config, c: Server, answers: seq<Answer>)
    requires !Asks(c.state)
    ensures Blind(c, answers, Do(g, c), Do(g, Other(c, answers)))
  {
    hide DoStartAccept, DoSendServerHello, DoSendServerCertificate, DoSendServerHelloDone,
         DoReadClientCertificate, DoReadClientCertificateVerify, DoReadNextProto, DoReadChannelId,
         DoAwaitChangeCipherSpec, DoProcessChangeCipherSpec, DoReadClientFinished, DoSendServerFinished,
         DoFinishServerHandshake, DoReadClientHello, DoSelectCertificate, DoSelectParameters,
         DoSendServerKeyExchange, DoVerifyClientCertificate, DoReadClientKeyExchange;
    BlindSend(g, c, answers);
    BlindCertificate(g, c, answers);
    BlindRead(g, c, answers);
    BlindLast(g, c, answers);
  }

  lemma CalmQuiet(g: Config, c: Server)
    requires c.io.wait.Go? && !Asks(c.state)
    ensures Calmed(Do(g, c)) == Calmed(Do(g, Calmed(c)))
  {
    hide Settled, Do;
    SettledTwice(c.io.answers);
    BlindDo(g, c, Settled(c.io.answers));
  }

  /** One turn is either invisible once retries are removed, or it is the turn of the calm server. */
  lemma CalmStep(g: Config, c: Server)
    ensures Alike(g, c, Step(g, c), Step(g, Calmed(c)))
  {
    hide Do, Calm, Resolve;
    if !c.io.wait.Go? {
      CalmWait(g, c);
    } else {
      CalmGo(c);
      match c.state {
        case ReadClientHello => CalmReadClientHello(g, c);
        case SelectCertificate => CalmSelectCertificate(g, c);
        case SelectParameters => CalmSelectParameters(g, c);
        case SendServerKeyExchange => CalmSendServerKeyExchange(g, c);
        case VerifyClientCertificate => CalmVerifyClientCertificate(g, c);
        case ReadClientKeyExchange => CalmReadClientKeyExchange(g, c);
        case _ => CalmQuiet(g, c);
      }
    }
  }

  lemma CalmGo(c: Server)
    requires c.io.wait.Go?
    ensures Calmed(c).io.wait.Go?
  {
  }

  lemma CalmWait(g: Config, c: Server)
    requires !c.io.wait.Go?
    ensures Alike(g, c, Step(g, c), Step(g, Calmed(c)))
  {
    hide Do, Settled;
    ResolveCalm(c.io);
  }

  lemma OverStays(g: Config, c: Server)
    requires Over(c) && Calmed(c) == c
    ensures Calmed(Step(g, c)) == c
  {
  }

  lemma OverCalm(c: Server)
    ensures Over(Calmed(c)) == Over(c)
    ensures Calmed(Calmed(c)) == Calmed(c)
  {
    hide Settled;
    CalmTwice(c.io);
  }
}
