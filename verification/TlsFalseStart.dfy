/** When a client may send application data early: what has happened by then, in every run. */
module TlsFalseStart {
  import opened Wire
  import opened TlsHandshake
  import opened TlsFlow
  import opened TlsClient
  import opened TlsClientFlow
  import opened TlsClientChecks

  /** The two places where the handshake hands out control before it is done. */
  predicate Early(g: Config, c: Client) {
    c.io.wait.EarlyReturn? ==>
      || (c.state.ReadServerHello? && g.earlyData && !g.dtls)
      || (c.state.ReadSessionTicket? && !c.deal.resumed && c.deal.cipher.kx.Ecdhe?
          && g.falseStart && !g.dtls && g.established.None?)
  }

  lemma AskedWait(io: Io, op: Operation)
    ensures !io.wait.EarlyReturn? ==> !Asked(io, op).wait.EarlyReturn?
  {
  }

  /** No other state hands out control early. */
  lemma NotEarly(g: Config, c: Client)
    requires c.io.wait.Go? && !c.state.EnterEarlyData? && !c.state.FinishFlight?
    ensures !Do(g, c).io.wait.EarlyReturn?
  {
    hide Accepts, Acceptable, Asked, NextAnswer, FinishedFlight;
    AskedWait(c.io, VerifyPeer);
    AskedWait(c.io, CertificateLookup);
    AskedWait(c.io, PrivateKey);
    AskedWait(c.io, ChannelIdLookup);
  }

  lemma EarlyTurn(g: Config, c: Client)
    ensures Early(g, TlsClient.Step(g, c))
  {
    if c.io.wait.Go? && !c.state.EnterEarlyData? && !c.state.FinishFlight? {
      NotEarly(g, c);
      hide Do;
    }
  }

  lemma EarlyRun(g: Config, inbox: seq<Record>, answers: seq<Answer>, flushes: seq<bool>, turns: nat)
    ensures Early(g, TlsClient.Run(g, New(g, inbox, answers, flushes), turns))
  {
    hide TlsClient.Step;
    if turns > 0 { EarlyTurn(g, TlsClient.Run(g, New(g, inbox, answers, flushes), turns - 1)); }
  }

  /** A step of the trace comes from an event. */
  lemma {:induction false} TraceEvent(me: Party, log: seq<Event>, s: TlsFlow.Step)
    requires s in Trace(me, log)
    ensures exists e :: e in log && StepOf(me, e) == Some(s)
  {
    var n := |log| - 1;
    if StepOf(me, log[n]) != Some(s) { TraceEvent(me, log[..n], s); }
  }

  /** An ECDHE handshake that has come to the ticket has the server's key exchange. */
  lemma ExchangeTaken(p: Shape, log: seq<Event>)
    requires !p.resumed && p.cipher.kx.Ecdhe? && Follows(p, Trace(TheClient, log), 14)
    ensures exists m :: Took(m) in log && m.kind == ServerKeyExchange
  {
    hide Follows, Trace;
    FollowsInOrder(p, Trace(TheClient, log), 14);
    assert NeedAt(p, 4).Always? && Place(p, 4) == Says(TheServer, ServerKeyExchange);
    TraceEvent(TheClient, log, Says(TheServer, ServerKeyExchange));
  }

  /** What a client knows that has sent its Finished in a full handshake: as much of `Completed` as does not wait. */
  lemma OwnPart(g: Config, c: Client, all: seq<Message>)
    requires Inv(g, c, all) && c.state.ReadSessionTicket? && !c.deal.resumed
    ensures exists i :: OwnFinishedAt(g, c.io.log, i)
    ensures Count(c.io.log, WriteKey) == 1
    ensures c.deal.cipher.certAuth ==> ServerAuthenticated(g, c) && c.peer.value.kind == Certificate
  {
    hide FactsOf, Count, Hashed, Used, AllLegit, OwnFinishedAt, ChainAccepted;
    var log := c.io.log;
    FactsCount(log);
    OwnFinish(g, log);
    CertificateKind(log);
    if c.deal.cipher.certAuth { AcceptedIn(g, log); }
    forall m: Message | m.kind == ServerKeyExchange && Took(m) in log
      ensures FactsOf(log).exchanges > 0 && FactsOf(log).exchange == Some(m)
    {
      OneExchange(log, m);
    }
  }

  lemma OwnFinish(g: Config, log: seq<Event>)
    requires AllLegit(Rule(g), log) && FactsOf(log).ownFinished > 0
    ensures exists j :: OwnFinishedAt(g, log, j)
  {
    hide FactsOf, Hashed, AllLegit;
    var j := SentFinished(log);
    LegitAt(Rule(g), log, j);
    ChangedIn(log[..j]);
    assert OwnFinishedAt(g, log, j);
  }

  /** The key of the chain signed the key exchange that was taken. */
  ghost predicate ExchangeSigned(g: Config, log: seq<Event>, cert: Message, m: Message) {
    Took(m) in log && m.kind == ServerKeyExchange && g.exchangeSigned(cert, m)
  }

  /**
  False Start: whoever may send application data before the handshake is done has offered early data, or is in a
  full TLS handshake under an ECDHE cipher, has sent Finished under its new key, and, under a certificate cipher,
  has the key exchange that was signed by a chain that passed.
  */
  lemma EarlyIsSafe(g: Config, inbox: seq<Record>, answers: seq<Answer>, flushes: seq<bool>, turns: nat)
    requires TlsClient.Run(g, New(g, inbox, answers, flushes), turns).io.wait.EarlyReturn?
    ensures var c := TlsClient.Run(g, New(g, inbox, answers, flushes), turns);
            || (c.state.ReadServerHello? && g.earlyData && !g.dtls)
            || (&& g.falseStart && !g.dtls && g.established.None? && !c.deal.resumed && c.deal.cipher.kx.Ecdhe?
                && (exists i :: OwnFinishedAt(g, c.io.log, i))
                && (c.deal.cipher.certAuth ==>
                      exists cert, m :: Passed(g, c.io.log, cert) && ExchangeSigned(g, c.io.log, cert, m)))
  {
    var c := TlsClient.Run(g, New(g, inbox, answers, flushes), turns);
    EarlyRun(g, inbox, answers, flushes, turns);
    KeepRun(g, inbox, answers, flushes, turns);
    KeepsToFlow(g, inbox, answers, flushes, turns);
    AllChecked(g, inbox, answers, flushes, turns);
    hide TlsClient.Run, New, Inv, Screened, Follows, Trace, OwnFinishedAt, Hashed;
    if c.state.ReadSessionTicket? {
      OwnPart(g, c, Arriving(inbox));
      ExchangeTaken(ShapeOf(g, c), c.io.log);
      if c.deal.cipher.certAuth { PassedAndSigned(g, c); }
    }
  }

  lemma PassedAndSigned(g: Config, c: Client)
    requires Screened(g, c) && ServerAuthenticated(g, c) && c.peer.value.kind == Certificate
    requires exists m :: Took(m) in c.io.log && m.kind == ServerKeyExchange
    ensures exists cert, m :: Passed(g, c.io.log, cert) && ExchangeSigned(g, c.io.log, cert, m)
  {
    AcceptedPasses(g, c);
    hide Screened, Passed;
    var cert := c.peer.value;
    assert Passed(g, c.io.log, cert);
    var m :| Took(m) in c.io.log && m.kind == ServerKeyExchange;
    assert ExchangeSigned(g, c.io.log, cert, m);
  }

  // ---------------------------------------------------------------- and that it happens

  /** Behind the client's flight of a full handshake. */
  predicate PastFlight(s: State) {
    || s.ReadSessionTicket? || s.ProcessChangeCipherSpec? || s.ReadServerFinished? || s.FinishClientHandshake?
    || s.Done?
  }

  lemma NotYet(g: Config, c: Client)
    requires PreHello(c.state) || c.state.Tls13? || BeforeRequest(c.state)
    ensures PastFlight(Do(g, c).state) ==> Do(g, c).deal.resumed
  {
    hide Asked, NextAnswer, Acceptable, Accepts, Take, Emit, Note, InitHash, FreeBuffer;
  }

  lemma NotYetEither(g: Config, c: Client)
    requires c.state.ReadServerHelloDone? || c.state.SendClientCertificate? || c.state.SendClientKeyExchange?
             || c.state.SendClientCertificateVerify? || c.state.SendClientFinished?
    ensures !PastFlight(Do(g, c).state)
  {
    hide Asked, NextAnswer, FinishedFlight, Take, Emit, Note, FreeBuffer;
  }

  lemma SameDeal(g: Config, c: Client)
    requires PastFlight(c.state) || c.state.FinishFlight?
    ensures Do(g, c).deal == c.deal
  {
    hide Take, ChangeReadKey, Digested;
  }

  lemma PastTurn(g: Config, c: Client)
    requires var d := TlsClient.Step(g, c); PastFlight(d.state) && !d.deal.resumed
    ensures TlsClient.Step(g, c).deal == c.deal
    ensures PastFlight(c.state) || (c.state.FinishFlight? && c.io.wait.Go?)
  {
    hide Do, Resolve;
    if c.io.wait.Go? {
      if PreHello(c.state) || c.state.Tls13? || BeforeRequest(c.state) { NotYet(g, c); }
      else if PastFlight(c.state) || c.state.FinishFlight? { SameDeal(g, c); }
      else { NotYetEither(g, c); }
    }
  }

  /** The moment of False Start in a run. */
  predicate Handed(c: Client) {
    c.io.wait.EarlyReturn? && c.state.ReadSessionTicket?
  }

  /** With False Start allowed, a full handshake that comes past the client's flight handed out control there. */
  lemma {:induction false} EarlyHappens(g: Config, inbox: seq<Record>, answers: seq<Answer>, flushes: seq<bool>,
                                        turns: nat)
    requires var c := TlsClient.Run(g, New(g, inbox, answers, flushes), turns);
             PastFlight(c.state) && !c.deal.resumed && c.deal.cipher.kx.Ecdhe?
    requires g.falseStart && !g.dtls && g.established.None?
    ensures exists k: nat :: k <= turns && Handed(TlsClient.Run(g, New(g, inbox, answers, flushes), k))
  {
    hide TlsClient.Step;
    var start := New(g, inbox, answers, flushes);
    if turns > 0 {
      var c := TlsClient.Run(g, start, turns - 1);
      PastTurn(g, c);
      if PastFlight(c.state) {
        EarlyHappens(g, inbox, answers, flushes, turns - 1);
      } else {
        EarlyNow(g, c);
        assert Handed(TlsClient.Run(g, start, turns));
      }
    }
  }

  lemma EarlyNow(g: Config, c: Client)
    requires c.state.FinishFlight? && c.io.wait.Go? && !c.deal.resumed && c.deal.cipher.kx.Ecdhe?
    requires g.falseStart && !g.dtls && g.established.None?
    ensures Handed(TlsClient.Step(g, c))
  {
  }
}
