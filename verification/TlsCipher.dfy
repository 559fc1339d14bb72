/** The cipher of a handshake is the one that the choice of suites finds for the ClientHello that was hashed. */
module TlsCipher {
  import opened Wire
  import opened TlsHandshake
  import opened TlsServer
  import opened CipherChoice

  /** What a server chooses from: its list, what it can do at the version of a ClientHello, and what that offers. */
  datatype Offer = Offer(
    server: Preferences, byServer: bool,
    support: Message -> Support,
    list: Message -> Option<seq<Suite>>,          // ssl_parse_client_cipher_list
    kind: Suite -> Cipher)                        // how the suite is authenticated and exchanges keys

  /** The suite chosen for a ClientHello. */
  ghost predicate Picks(o: Offer, m: Message, r: Option<Suite>)
    requires o.server.Valid()
  {
    if o.list(m).None? then r.None? else Choice(o.support(m), o.server, o.list(m).value, o.byServer, r)
  }

  /** The server's configuration chooses by ssl3_choose_cipher. */
  ghost predicate ChoosesBy(g: Config, o: Offer)
    requires o.server.Valid()
  {
    forall m: Message :: exists r ::
      Picks(o, m, r) && g.chooseCipher(m) == if r.Some? then Some(o.kind(r.value)) else None
  }

  /** The suite was picked for a ClientHello that this handshake took. */
  ghost predicate PickedFor(o: Offer, c: Server, m: Message, s: Suite)
    requires o.server.Valid()
  {
    Took(m) in c.io.log && m.kind == ClientHello && Picks(o, m, Some(s)) && c.deal.cipher == o.kind(s)
  }

  lemma PickOf(g: Config, o: Offer, m: Message) returns (r: Option<Suite>)
    requires o.server.Valid() && ChoosesBy(g, o)
    ensures Picks(o, m, r) && g.chooseCipher(m) == if r.Some? then Some(o.kind(r.value)) else None
  {
    hide Picks;
    var cipher := g.chooseCipher(m);
    r :| Picks(o, m, r) && cipher == if r.Some? then Some(o.kind(r.value)) else None;
  }

  /**
  At every moment of every run, once a handshake is negotiated its cipher is that of the suite that comes first,
  by server group and client order or by the client's order, among the usable suites of the ClientHello taken.
  */
  lemma BestNegotiated(g: Config, o: Offer, inbox: seq<Record>, answers: seq<Answer>, flushes: seq<bool>, turns: nat)
    requires o.server.Valid() && ChoosesBy(g, o)
    requires var s := Run(g, New(g, inbox, answers, flushes), turns).state; !PreHello(s) && !s.Tls13?
    ensures exists m, s :: PickedFor(o, Run(g, New(g, inbox, answers, flushes), turns), m, s)
  {
    hide Run, FactsOf, LogInv, Picks;
    KeepRun(g, inbox, answers, flushes, turns);
    var c := Run(g, New(g, inbox, answers, flushes), turns);
    ChangedIn(c.io.log);
    var m := FactsOf(c.io.log).hello.value;
    var r := PickOf(g, o, m);
    assert PickedFor(o, c, m, r.value);
  }

  /** With a list that ends its last group, a handshake that shares no usable suite fails at the choice. */
  lemma NothingShared(g: Config, o: Offer, c: Server)
    requires o.server.Valid() && o.byServer && ChoosesBy(g, o)
    requires o.server.ciphers != [] ==> o.server.inGroup[|o.server.inGroup| - 1] == 0
    requires c.io.wait.Go? && c.state.SelectCertificate? && c.io.pending != [] && c.hello.Some?
    requires g.certificateFits && !c.hello.value.version13 && !g.certCallback && o.list(c.io.pending[0]).Some?
    ensures var m := c.io.pending[0];
            Do(g, c).io.wait.Failed? <==>
              forall j: nat :: !Candidate(o.support(m), o.server.ciphers, o.list(m).value, j)
  {
    hide Usable, Best, Closed;
    var m := c.io.pending[0];
    var _ := PickOf(g, o, m);
    LastFlagCloses(o.support(m), o.server, o.list(m).value);
  }
}
