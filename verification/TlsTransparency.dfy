/**
Retry transparency of both sides of a TLS handshake: two connections with the same peer messages and the same final
answers of the application end alike, however often the application asked to be called again and a flush failed.
*/
module TlsTransparency {
  import opened TlsHandshake
  import opened TlsFlow
  import TlsRetry
  import TlsClient
  import TlsServer
  import TlsClientRetry
  import TlsServerRetry

  datatype World = World(client: TlsClient.Config, server: TlsServer.Config)

  datatype Endpoint = AClient(c: TlsClient.Client) | AServer(s: TlsServer.Server) {
    function Io(): Io {
      if AClient? then c.io else s.io
    }
  }

  function New(w: World, party: Party, inbox: seq<Record>, answers: seq<Answer>, flushes: seq<bool>): Endpoint {
    if party.TheClient? then AClient(TlsClient.New(w.client, inbox, answers, flushes))
    else AServer(TlsServer.New(w.server, inbox, answers, flushes))
  }

  function Run(w: World, x: Endpoint, turns: nat): Endpoint {
    match x
    case AClient(c) => AClient(TlsClient.Run(w.client, c, turns))
    case AServer(s) => AServer(TlsServer.Run(w.server, s, turns))
  }

  /** An endpoint with every trace of retries removed. */
  function Calmed(x: Endpoint): Endpoint {
    match x
    case AClient(c) => AClient(TlsClientRetry.Calmed(c))
    case AServer(s) => AServer(TlsServerRetry.Calmed(s))
  }

  /** The handshake has an outcome. */
  predicate Over(x: Endpoint) {
    match x
    case AClient(c) => TlsClientRetry.Over(c)
    case AServer(s) => TlsServerRetry.Over(s)
  }

  function Step(w: World, x: Endpoint): Endpoint {
    match x
    case AClient(c) => AClient(TlsClient.Step(w.client, c))
    case AServer(s) => AServer(TlsServer.Step(w.server, s))
  }

  /** How much retrying is left before the next turn that counts. */
  function Retries(x: Endpoint): nat {
    match x
    case AClient(c) => TlsClientRetry.Retries(c)
    case AServer(s) => TlsServerRetry.Retries(s)
  }

  function Stepper(w: World): Endpoint -> Endpoint {
    x => Step(w, x)
  }

  function Calmer(): Endpoint -> Endpoint {
    x => Calmed(x)
  }

  function Counter(): Endpoint -> nat {
    x => Retries(x)
  }

  function Ender(): Endpoint -> bool {
    x => Over(x)
  }

  lemma TurnAlike(w: World, x: Endpoint)
    ensures TlsRetry.Alike(Stepper(w), Calmer(), Counter(), x)
    ensures Calmed(Calmed(x)) == Calmed(x) && Over(Calmed(x)) == Over(x)
    ensures Over(x) && Calmed(x) == x ==> Calmed(Step(w, x)) == x
  {
    hide TlsClient.Step, TlsClientRetry.Calmed, TlsClientRetry.Over, TlsClientRetry.Retries;
    hide TlsServer.Step, TlsServerRetry.Calmed, TlsServerRetry.Over, TlsServerRetry.Retries;
    match x
    case AClient(c) =>
      TlsClientRetry.CalmStep(w.client, c);
      TlsClientRetry.OverCalm(c);
      if Over(x) && Calmed(x) == x { TlsClientRetry.OverStays(w.client, c); }
    case AServer(s) =>
      TlsServerRetry.CalmStep(w.server, s);
      TlsServerRetry.OverCalm(s);
      if Over(x) && Calmed(x) == x { TlsServerRetry.OverStays(w.server, s); }
  }

  lemma IsMachine(w: World)
    ensures TlsRetry.Machine(Stepper(w), Calmer(), Counter(), Ender())
  {
    hide Calmed, Over, Step, Retries, TlsRetry.Alike;
    forall x: Endpoint
      ensures TlsRetry.Alike(Stepper(w), Calmer(), Counter(), x)
      ensures Calmed(Calmed(x)) == Calmed(x) && Over(Calmed(x)) == Over(x)
      ensures Over(x) && Calmed(x) == x ==> Calmed(Step(w, x)) == x
    {
      TurnAlike(w, x);
    }
  }

  lemma {:induction false} RunIterates(w: World, x: Endpoint, turns: nat)
    ensures Run(w, x, turns) == TlsRetry.Iterate(Stepper(w), x, turns)
  {
    hide TlsClient.Step, TlsServer.Step;
    if turns > 0 { RunIterates(w, x, turns - 1); }
  }

  /**
  Of two clients, or two servers, that differ only in how often the application answers "retry" and a flush fails,
  each turn of the one is matched by a turn of the other with the same state, log, transcript and messages at hand.
  This holds at every moment, also of a run that waits for its peer or for ever.
  */
  lemma RetryTransparent(w: World, x: Endpoint, y: Endpoint, turns: nat)
    requires Calmed(x) == Calmed(y)
    ensures exists n :: Calmed(Run(w, y, n)) == Calmed(Run(w, x, turns))
  {
    hide Run, Calmed, TlsRetry.Iterate, TlsRetry.Machine;
    IsMachine(w);
    RunIterates(w, x, turns);
    TlsRetry.Transparent(Stepper(w), Calmer(), Counter(), Ender(), x, y, turns);
    var n: nat :| Calmer()(TlsRetry.Iterate(Stepper(w), y, n)) == Calmer()(TlsRetry.Iterate(Stepper(w), x, turns));
    RunIterates(w, y, n);
    assert Calmed(Run(w, y, n)) == Calmed(Run(w, x, turns));
  }

  /** If one of them comes to an end then so does the other, and with the same outcome. */
  lemma SameOutcome(w: World, x: Endpoint, y: Endpoint, m: nat)
    requires Calmed(x) == Calmed(y) && Over(Run(w, x, m))
    ensures exists n :: Over(Run(w, y, n))
    ensures forall n :: Over(Run(w, y, n)) ==> Calmed(Run(w, y, n)) == Calmed(Run(w, x, m))
  {
    hide Run, Calmed, Over, TlsRetry.Iterate, TlsRetry.Machine;
    IsMachine(w);
    RunIterates(w, x, m);
    TlsRetry.SameOutcome(Stepper(w), Calmer(), Counter(), Ender(), x, y, m);
    var n: nat :| Ender()(TlsRetry.Iterate(Stepper(w), y, n));
    RunIterates(w, y, n);
    assert Over(Run(w, y, n));
    forall n | Over(Run(w, y, n)) ensures Calmed(Run(w, y, n)) == Calmed(Run(w, x, m)) {
      RunIterates(w, y, n);
      assert Ender()(TlsRetry.Iterate(Stepper(w), y, n));
    }
  }

  /** Two moments that are alike but for retries: everything that was decided, sent, taken and hashed is the same. */
  ghost predicate SameSoFar(x: Endpoint, y: Endpoint) {
    && (match x
        case AClient(c) => y.AClient? && c.state == y.c.state && c.deal == y.c.deal && c.peer == y.c.peer
        case AServer(s) => y.AServer? && s.state == y.s.state && s.deal == y.s.deal && s.peer == y.s.peer)
    && x.Io().log == y.Io().log && x.Io().pending == y.Io().pending && x.Io().inbox == y.Io().inbox
    && x.Io().buffer == y.Io().buffer && x.Io().digest == y.Io().digest
  }

  lemma CalmedSame(x: Endpoint, y: Endpoint)
    requires Calmed(x) == Calmed(y)
    ensures SameSoFar(x, y)
  {
    hide Settled;
    assert Calmed(x).Io() == Calm(x.Io()) && Calmed(y).Io() == Calm(y.Io());
  }

  lemma FreshAlike(w: World, party: Party, inbox: seq<Record>, a: seq<Answer>, b: seq<Answer>, p: seq<bool>,
                   q: seq<bool>)
    requires Settled(a) == Settled(b)
    ensures Calmed(New(w, party, inbox, a, p)) == Calmed(New(w, party, inbox, b, q))
  {
    hide Settled;
  }

  /** For two fresh connections: what one has done at any moment, the other has done at some moment. */
  lemma SameProgress(w: World, party: Party, inbox: seq<Record>, a: seq<Answer>, b: seq<Answer>, p: seq<bool>,
                     q: seq<bool>, turns: nat)
    requires Settled(a) == Settled(b)
    ensures exists n ::
              SameSoFar(Run(w, New(w, party, inbox, a, p), turns), Run(w, New(w, party, inbox, b, q), n))
  {
    hide Run, Settled, SameSoFar, New, Calmed;
    var x, y := New(w, party, inbox, a, p), New(w, party, inbox, b, q);
    FreshAlike(w, party, inbox, a, b, p, q);
    RetryTransparent(w, x, y, turns);
    var n :| Calmed(Run(w, y, n)) == Calmed(Run(w, x, turns));
    CalmedSame(Run(w, x, turns), Run(w, y, n));
  }

  /** In particular for two fresh connections that have both come to an end: the same log and transcript. */
  lemma SameLog(w: World, party: Party, inbox: seq<Record>, a: seq<Answer>, b: seq<Answer>, p: seq<bool>, q: seq<bool>,
                m: nat, n: nat)
    requires Settled(a) == Settled(b)
    requires Over(Run(w, New(w, party, inbox, a, p), m)) && Over(Run(w, New(w, party, inbox, b, q), n))
    ensures SameSoFar(Run(w, New(w, party, inbox, a, p), m), Run(w, New(w, party, inbox, b, q), n))
  {
    hide Run, Settled, Over, SameSoFar, New, Calmed;
    var x, y := New(w, party, inbox, a, p), New(w, party, inbox, b, q);
    FreshAlike(w, party, inbox, a, b, p, q);
    SameOutcome(w, x, y, m);
    CalmedSame(Run(w, x, m), Run(w, y, n));
  }
}
