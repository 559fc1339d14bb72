/** What a client and a server that are both done agree on, when their Finished messages are each other's. */
module TlsAgreement {
  import opened Wire
  import opened TlsHandshake
  import opened TlsFlow
  import TlsClient
  import TlsServer
  import TlsClientFlow
  import TlsServerFlow

  /** The MAC of Finished tells its sender and its transcript: no two of those share a value. */
  ghost predicate Binding(g: TlsClient.Config, h: TlsServer.Config) {
    forall a: bool, b: bool, x: seq<Message>, y: seq<Message> :: g.mac(a, x) == h.mac(b, y) ==> a == b && x == y
  }

  /**
  The last message of a client's transcript is the Finished over all the messages before it: the server's in
  a full handshake, its own in a resumed one.
  */
  lemma ClientLast(g: TlsClient.Config, inbox: seq<Record>, answers: seq<Answer>, flushes: seq<bool>, turns: nat)
    requires TlsClient.Run(g, TlsClient.New(g, inbox, answers, flushes), turns).state.Done?
    ensures var c := TlsClient.Run(g, TlsClient.New(g, inbox, answers, flushes), turns);
            Seals(Hashed(c.io.log), g.mac(!c.deal.resumed, Before(Hashed(c.io.log))))
  {
    hide TlsClient.Run, Follows, Trace, Hashed, AllLegit, FactsOf;
    var c := TlsClient.Run(g, TlsClient.New(g, inbox, answers, flushes), turns);
    TlsClient.KeepRun(g, inbox, answers, flushes, turns);
    TlsClientFlow.WholeFlow(g, inbox, answers, flushes, turns);
    LastStep(TlsClientFlow.ShapeOf(g, c), Trace(TheClient, c.io.log));
    var k := LastEvent(TheClient, c.io.log);
    LegitAt(TlsClient.Rule(g), c.io.log, k);
    HashedUpTo(c.io.log, k);
  }

  lemma ServerLast(g: TlsServer.Config, inbox: seq<Record>, answers: seq<Answer>, flushes: seq<bool>, turns: nat)
    requires TlsServer.Run(g, TlsServer.New(g, inbox, answers, flushes), turns).state.Done?
    ensures var c := TlsServer.Run(g, TlsServer.New(g, inbox, answers, flushes), turns);
            Seals(Hashed(c.io.log), g.mac(!c.deal.resumed, Before(Hashed(c.io.log))))
  {
    hide TlsServer.Run, Follows, Trace, Hashed, AllLegit, FactsOf;
    var c := TlsServer.Run(g, TlsServer.New(g, inbox, answers, flushes), turns);
    TlsServer.KeepRun(g, inbox, answers, flushes, turns);
    TlsServerFlow.WholeFlow(g, inbox, answers, flushes, turns);
    LastStep(TlsServerFlow.ShapeOf(c), Trace(TheServer, c.io.log));
    var k := LastEvent(TheServer, c.io.log);
    LegitAt(TlsServer.Rule(g), c.io.log, k);
    HashedUpTo(c.io.log, k);
  }

  function Before(t: seq<Message>): seq<Message> {
    if t == [] then [] else t[..|t| - 1]
  }

  /** A transcript ends with a Finished of this body. */
  predicate Seals(t: seq<Message>, body: seq<byte>) {
    t != [] && t[|t| - 1] == Message(Finished, body)
  }

  lemma HashedUpTo(log: seq<Event>, k: nat)
    requires k < |log| && (log[k].Sent? || log[k].Took?)
    ensures Hashed(log[..k + 1]) == Hashed(log[..k]) + [log[k].m]
  {
    assert log[..k + 1] == log[..k] + [log[k]];
    Snoc(log[..k], log[k]);
  }

  /**
  If a client and a server that are both done end on the same Finished message, they saw the same handshake:
  every message of it, and whether it was a full or a resumed one.
  */
  lemma Agreement(
    g: TlsClient.Config, inbox: seq<Record>, answers: seq<Answer>, flushes: seq<bool>, turns: nat,
    h: TlsServer.Config, inbox': seq<Record>, answers': seq<Answer>, flushes': seq<bool>, turns': nat)
    requires Binding(g, h)
    requires TlsClient.Run(g, TlsClient.New(g, inbox, answers, flushes), turns).state.Done?
    requires TlsServer.Run(h, TlsServer.New(h, inbox', answers', flushes'), turns').state.Done?
    requires var x := Hashed(TlsClient.Run(g, TlsClient.New(g, inbox, answers, flushes), turns).io.log);
             var y := Hashed(TlsServer.Run(h, TlsServer.New(h, inbox', answers', flushes'), turns').io.log);
             x != [] && y != [] && x[|x| - 1] == y[|y| - 1]
    ensures var c := TlsClient.Run(g, TlsClient.New(g, inbox, answers, flushes), turns);
            var s := TlsServer.Run(h, TlsServer.New(h, inbox', answers', flushes'), turns');
            Hashed(c.io.log) == Hashed(s.io.log) && c.deal.resumed == s.deal.resumed
  {
    hide TlsClient.Run, TlsServer.Run, Hashed;
    ClientLast(g, inbox, answers, flushes, turns);
    ServerLast(h, inbox', answers', flushes', turns');
    var x := Hashed(TlsClient.Run(g, TlsClient.New(g, inbox, answers, flushes), turns).io.log);
    var y := Hashed(TlsServer.Run(h, TlsServer.New(h, inbox', answers', flushes'), turns').io.log);
    assert x == Before(x) + [x[|x| - 1]];
    assert y == Before(y) + [y[|y| - 1]];
  }
}
