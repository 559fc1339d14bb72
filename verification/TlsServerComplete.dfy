/**
A server completes every handshake that is in order: with the messages of a proper client on their way, in whatever
records, it gets to the end, and its transcript is the whole script.
*/
module TlsServerComplete {
  import opened Wire
  import opened TlsHandshake
  import opened TlsFlow
  import opened TlsScript
  import opened TlsServer
  import opened TlsServerFlow

  // ---------------------------------------------------------------- a script that is in order for a server

  /** The ClientHello is one that the server can do something with. */
  predicate Offers(g: Config, s: Script) {
    && s.Valid() && IsOne(s.parts[0], ClientHello)
    && g.parseHello(s.parts[0][0]).Some? && g.chooseCipher(s.parts[0][0]).Some? && g.certificateFits
    && !g.parseHello(s.parts[0][0]).value.version13 && g.parseHello(s.parts[0][0]).value.acceptable
    && !g.lookup(s.parts[0][0]).BadLookup?
    && (s.resumed <==> g.lookup(s.parts[0][0]).Found?)
    && s.parts[1] == [Message(ServerHello, g.hello)]
  }

  function Info(g: Config, s: Script): HelloInfo
    requires Offers(g, s)
  {
    g.parseHello(s.parts[0][0]).value
  }

  function CipherOf(g: Config, s: Script): Cipher
    requires Offers(g, s)
  {
    g.chooseCipher(s.parts[0][0]).value
  }

  /** A client certificate is wanted. */
  predicate Wanted(g: Config, s: Script)
    requires Offers(g, s)
  {
    && !s.resumed && g.verifyPeer && CipherOf(g, s).certAuth
    && (Info(g, s).channelId ==> !g.unlessChannelId)
  }

  predicate TicketDue(g: Config, s: Script)
    requires Offers(g, s)
  {
    if s.resumed then g.lookup(s.parts[0][0]).renew else g.lookup(s.parts[0][0]).tickets
  }

  predicate UsesId(g: Config, s: Script)
    requires Offers(g, s)
  {
    && Info(g, s).channelId && CipherOf(g, s).kx.Ecdhe?
    && (s.resumed ==> g.lookup(s.parts[0][0]).keepsChannelId)
  }

  /** The cipher, or a hint for its pre-shared key, calls for a ServerKeyExchange. */
  predicate Exchanges(g: Config, s: Script)
    requires Offers(g, s)
  {
    CipherOf(g, s).kx.Ecdhe? || (CipherOf(g, s).psk && g.identityHint)
  }

  /** What the server says in a full handshake. */
  predicate Presents(g: Config, s: Script)
    requires Offers(g, s) && !s.resumed
  {
    var c := CipherOf(g, s);
    && (c.certAuth ==> g.hasCertificate)
    && (Exchanges(g, s) ==> g.paramsOk && g.exchange.Some? && (c.certAuth ==> g.hasPrivateKey))
    && s.parts[2] == (if c.certAuth then [Message(Certificate, g.certificate)] else [])
    && s.parts[3] == (if c.certAuth && Info(g, s).status then [Message(CertificateStatus, g.status)] else [])
    && s.parts[4] == (if Exchanges(g, s) then [Message(ServerKeyExchange, g.exchange.value)] else [])
    && s.parts[5] == (if Wanted(g, s) then [Message(CertificateRequest, g.request)] else [])
    && s.parts[6] == [Message(ServerHelloDone, [])]
  }

  /** The client's chain, if it has one. */
  function ChainOf(g: Config, s: Script): Option<Message>
    requires s.Valid() && !s.resumed
  {
    if s.parts[7] != [] && !g.chainEmpty(s.parts[7][0]) then Some(s.parts[7][0]) else None
  }

  /** What the client must answer. */
  predicate Answers(g: Config, s: Script)
    requires Offers(g, s) && !s.resumed
  {
    && (if Wanted(g, s)
        then
          && IsOne(s.parts[7], Certificate) && g.chainOk(s.parts[7][0])
          && (if g.chainEmpty(s.parts[7][0]) then !g.requireCertificate
              else !g.customVerify ==> g.chainTrusted(s.parts[7][0]))
        else s.parts[7] == [])
    && IsOne(s.parts[8], ClientKeyExchange)
    && g.exchangeOk(CipherOf(g, s), s.parts[8][0]) && g.secretOk(CipherOf(g, s), s.parts[8][0])
    && (if ChainOf(g, s).Some?
        then IsOne(s.parts[9], CertificateVerify) && g.provesKey(ChainOf(g, s).value, s.Upto(9), s.parts[9][0])
        else s.parts[9] == [])
  }

  /** The client's new key and what follows it, from place `k` on. */
  predicate Seals(g: Config, s: Script, k: nat)
    requires Offers(g, s) && k + 4 <= |s.parts|
  {
    && s.parts[k] == []
    && (if Info(g, s).nextProto then IsOne(s.parts[k + 1], NextProto) && g.nextProtoOk(s.parts[k + 1][0])
        else s.parts[k + 1] == [])
    && (if UsesId(g, s) then IsOne(s.parts[k + 2], ChannelId) && g.channelIdOk(s.Upto(k + 2), s.parts[k + 2][0])
        else s.parts[k + 2] == [])
    && s.parts[k + 3] == [Message(Finished, g.mac(false, s.Upto(k + 3)))]
  }

  /** The server's ticket, its new key and Finished, from place `k` on. */
  predicate Confirms(g: Config, s: Script, k: nat)
    requires Offers(g, s) && k + 3 <= |s.parts|
  {
    && (TicketDue(g, s) ==> g.ticket.Some?)
    && s.parts[k] == (if TicketDue(g, s) then [Message(NewSessionTicket, g.ticket.value)] else [])
    && s.parts[k + 1] == []
    && s.parts[k + 2] == [Message(Finished, g.mac(true, s.Upto(k + 2)))]
  }

  /** A handshake that is in order. */
  predicate InOrder(g: Config, s: Script) {
    && Offers(g, s)
    && if s.resumed then Confirms(g, s, 2) && Seals(g, s, 5)
       else Presents(g, s) && Answers(g, s) && Seals(g, s, 10) && Confirms(g, s, 14)
  }

  // ---------------------------------------------------------------- where a server is in its script

  /** Where the client's new key comes. */
  function KeyPlace(s: Script): nat {
    if s.resumed then 5 else 10
  }

  /** What is still to come from the client before its new key. */
  function Due(s: Script, k: nat): seq<Message>
    requires s.Valid()
  {
    s.Spoken(TheClient, k, KeyPlace(s))
  }

  /** And what is to come behind it. */
  function Behind(s: Script, k: nat): seq<Message>
    requires s.Valid()
  {
    s.Spoken(TheClient, k, |s.parts|)
  }

  /** The states behind the client's new key. */
  predicate Keyed(s: State, resumed: bool) {
    || s.ReadNextProto? || s.ReadChannelId? || s.ReadClientFinished? || s.FinishServerHandshake? || s.Done?
    || (!resumed && s.SendServerFinished?)
  }

  ghost predicate Streams(s: Script, behind: seq<Record>, c: Server)
    requires s.Valid()
  {
    if Keyed(c.state, s.resumed) then Ending(c.io, Behind(s, At(c.state, c.deal)))
    else if c.state.ProcessChangeCipherSpec? then
      if c.io.wait.ReadChangeCipherSpec? then Coming(c.io, [], behind)
      else Ending(c.io, Arriving(behind)) && c.io.pending == []
    else Coming(c.io, Due(s, At(c.state, c.deal)), behind)
  }

  /** How often the application may still be asked. */
  function Calls(s: State): nat {
    if s.StartAccept? || s.ReadClientHello? then 6
    else if s.SelectCertificate? then 5
    else if s.SelectParameters? then 4
    else if s.SendServerHello? || s.SendServerCertificate? || s.SendServerKeyExchange? then 3
    else if s.SendServerHelloDone? || s.ReadClientCertificate? || s.VerifyClientCertificate? then 2
    else if s.ReadClientKeyExchange? then 1
    else 0
  }

  /** A state that needs a message. */
  predicate Reads(c: Server) {
    || c.state.ReadClientHello?
    || (c.state.ReadClientCertificate? && c.deal.requested)
    || c.state.ReadClientKeyExchange? || (c.state.ReadClientCertificateVerify? && c.peer.Some?)
    || (c.state.ReadNextProto? && c.hello.Some? && c.hello.value.nextProto)
    || (c.state.ReadChannelId? && c.channelId.WithChannelId?)
    || c.state.ReadClientFinished?
  }

  predicate Waits(c: Server) {
    || c.io.wait.Go? || c.io.wait.Flush?
    || (c.io.wait.ReadMessage? && c.io.pending == [] && Reads(c))
    || (c.io.wait.ReadChangeCipherSpec? && c.state.ProcessChangeCipherSpec?)
  }

  /** Before the ClientHello is taken; it stays at hand while it is negotiated over. */
  ghost predicate Early(g: Config, s: Script, behind: seq<Record>, c: Server)
    requires Offers(g, s)
  {
    && !c.deal.resumed && c.peer.None? && c.params.NoParams? && Hashed(c.io.log) == []
    && Coming(c.io, Due(s, 0), behind) && Willing(c.io.answers, Calls(c.state))
    && (c.state.SelectCertificate? || c.state.SelectParameters? ==>
          c.io.pending != [] && c.hello == Some(Info(g, s)) && (c.channelId.WithChannelId? <==> Info(g, s).channelId))
    && (c.state.SelectParameters? ==> c.deal.cipher == CipherOf(g, s))
  }

  function DealOf(g: Config, s: Script): Deal
    requires Offers(g, s)
  {
    Deal(s.resumed, CipherOf(g, s), Wanted(g, s), s.resumed ==> g.lookup(s.parts[0][0]).keepsChannelId)
  }

  function PeerAt(g: Config, s: Script, st: State): Option<Message>
    requires s.Valid()
  {
    if s.resumed || BeforeCertificate(st) then None else ChainOf(g, s)
  }

  /** What was settled, and what was said: `k` places are done. */
  ghost predicate Account(g: Config, s: Script, c: Server, k: nat, calls: nat)
    requires Offers(g, s) && k <= |s.parts|
  {
    && c.deal == DealOf(g, s) && c.hello == Some(Info(g, s)) && (c.ticket.TicketExpected? <==> TicketDue(g, s))
    && (c.channelId.WithChannelId? <==> if c.state.SendServerHello? then Info(g, s).channelId else UsesId(g, s))
    && c.peer == PeerAt(g, s, c.state)
    && (c.params.ParamsReady? <==> c.state.SendServerKeyExchange? && Exchanges(g, s))
    && Hashed(c.io.log) == s.Upto(k) && Willing(c.io.answers, calls)
  }

  /** The server is where the script has it. */
  ghost predicate On(g: Config, s: Script, behind: seq<Record>, c: Server)
    requires Offers(g, s)
  {
    && !c.state.Tls13? && Waits(c) && c.deal.resumed == (s.resumed && !PreHello(c.state))
    && if PreHello(c.state) then Early(g, s, behind, c)
       else
         && At(c.state, c.deal) <= |s.parts| && Account(g, s, c, At(c.state, c.deal), Calls(c.state))
         && Streams(s, behind, c) && (s.resumed ==> ResumedState(c.state))
  }

  function Order(s: State, resumed: bool): nat {
    match s
    case StartAccept => 0
    case ReadClientHello => 1
    case SelectCertificate => 2
    case Tls13 => 3
    case SelectParameters => 3
    case SendServerHello => 4
    case SendServerCertificate => 5
    case SendServerKeyExchange => 6
    case SendServerHelloDone => 7
    case ReadClientCertificate => 8
    case VerifyClientCertificate => 9
    case ReadClientKeyExchange => 10
    case ReadClientCertificateVerify => 11
    case AwaitChangeCipherSpec => 12
    case ProcessChangeCipherSpec => 13
    case ReadNextProto => 14
    case ReadChannelId => 15
    case ReadClientFinished => 16
    case SendServerFinished => if resumed then 5 else 17
    case FinishServerHandshake => 18
    case Done => 19
  }

  /** A state has come further, or waits for a message that is still to come. */
  ghost predicate GoesOn(g: Config, s: Script, behind: seq<Record>, c: Server, d: Server)
    requires Offers(g, s)
  {
    && On(g, s, behind, d)
    && d.io.inbox == c.io.inbox && d.io.flushes == c.io.flushes
    && if d.state == c.state then d.io.wait.ReadMessage? && c.io.wait.Go?
       else Order(d.state, s.resumed) > Order(c.state, s.resumed)
  }

  /** A state that waits for its message. */
  lemma Stays(g: Config, s: Script, behind: seq<Record>, c: Server)
    requires Offers(g, s) && On(g, s, behind, c) && c.io.wait.Go? && c.io.pending == [] && Reads(c)
    ensures GoesOn(g, s, behind, c, c.(io := Await(c.io)))
  {
    hide Hashed, Coming, Ending, Script.Spoken, Script.Upto, Willing;
    SameComing(c.io, Await(c.io), Due(s, 0), behind);
    SameComing(c.io, Await(c.io), Due(s, At(c.state, c.deal)), behind);
    SameComing(c.io, Await(c.io), Behind(s, At(c.state, c.deal)), behind);
  }

  /** What only the state decides. */
  ghost predicate Further(s: Script, c: Server, d: Server, k: nat, n: nat) {
    && !PreHello(d.state) && !d.state.Tls13? && (s.resumed ==> ResumedState(d.state))
    && At(d.state, d.deal) == k && k <= |s.parts| && Calls(d.state) == n && Waits(d) && d.deal.resumed == s.resumed
    && Order(d.state, s.resumed) > Order(c.state, s.resumed)
    && d.io.inbox == c.io.inbox && d.io.flushes == c.io.flushes
  }

  /** From one state to the next. */
  lemma Moves(g: Config, s: Script, behind: seq<Record>, c: Server, d: Server, k: nat, n: nat)
    requires Offers(g, s) && Further(s, c, d, k, n) && Account(g, s, d, k, n) && Streams(s, behind, d)
    ensures GoesOn(g, s, behind, c, d)
  {
    hide Account, Streams, Offers, Waits;
  }

  lemma IsHere(g: Config, s: Script, behind: seq<Record>, c: Server)
    requires Offers(g, s) && On(g, s, behind, c) && !PreHello(c.state)
    ensures At(c.state, c.deal) <= |s.parts| && Account(g, s, c, At(c.state, c.deal), Calls(c.state))
    ensures Streams(s, behind, c) && c.deal.resumed == s.resumed && (s.resumed ==> ResumedState(c.state))
  {
    hide Account, Streams;
  }

  lemma AccountFacts(g: Config, s: Script, c: Server, k: nat, n: nat)
    requires Offers(g, s) && k <= |s.parts| && Account(g, s, c, k, n)
    ensures Hashed(c.io.log) == s.Upto(k) && Willing(c.io.answers, n) && c.deal == DealOf(g, s)
    ensures c.hello == Some(Info(g, s)) && (c.ticket.TicketExpected? <==> TicketDue(g, s))
    ensures c.channelId.WithChannelId? <==> if c.state.SendServerHello? then Info(g, s).channelId else UsesId(g, s)
    ensures c.peer == PeerAt(g, s, c.state)
    ensures c.params.ParamsReady? <==> c.state.SendServerKeyExchange? && Exchanges(g, s)
  {
  }

  /** The account of a later state, put together from what it rests on. */
  lemma Accounts(g: Config, s: Script, c: Server, d: Server, k: nat, m: nat, j: nat, n: nat)
    requires Offers(g, s) && k <= |s.parts| && j <= |s.parts| && Account(g, s, c, k, m)
    requires d.deal == c.deal && d.hello == c.hello && d.ticket == c.ticket && d.peer == PeerAt(g, s, d.state)
    requires !d.state.SendServerHello? && (d.channelId.WithChannelId? <==> UsesId(g, s))
    requires d.params.ParamsReady? <==> d.state.SendServerKeyExchange? && Exchanges(g, s)
    requires Hashed(d.io.log) == s.Upto(j) && Willing(d.io.answers, n)
    ensures Account(g, s, d, j, n)
  {
    hide Hashed, Willing, Script.Upto;
  }

  // ---------------------------------------------------------------- what is due

  lemma DueNext(s: Script, k: nat)
    requires s.Valid() && k < KeyPlace(s)
    ensures Due(s, k) == (if s.Who(k).TheClient? then s.parts[k] else []) + Due(s, k + 1)
    ensures Due(s, KeyPlace(s)) == []
  {
  }

  lemma BehindNext(s: Script, k: nat)
    requires s.Valid() && k < |s.parts|
    ensures Behind(s, k) == (if s.Who(k).TheClient? then s.parts[k] else []) + Behind(s, k + 1)
    ensures Behind(s, |s.parts|) == []
  {
  }

  /** Nothing is said at place `k`, or nothing by the client. */
  lemma Passes(s: Script, k: nat)
    requires s.Valid() && k < |s.parts| && (s.Who(k).TheServer? || s.parts[k] == [])
    ensures k < KeyPlace(s) ==> Due(s, k) == Due(s, k + 1)
    ensures Behind(s, k) == Behind(s, k + 1)
    ensures s.parts[k] == [] ==> s.Upto(k + 1) == s.Upto(k)
  {
    hide Script.Spoken;
    if k < KeyPlace(s) { DueNext(s, k); }
    BehindNext(s, k);
    UptoNext(s, k);
  }

  /** Place `k` is the client's, and has a message: it is the next one due. */
  lemma Hears(io: Io, s: Script, k: nat, m: Message, behind: seq<Record>)
    requires s.Valid() && k < KeyPlace(s) && s.Who(k).TheClient? && s.parts[k] == [m]
    requires Coming(io, Due(s, k), behind)
    ensures Due(s, k) != []
    ensures io.pending != [] ==>
              && io.pending[0] == m
              && forall next: Io :: next.inbox == io.inbox && next.pending == io.pending[1..] && next.early == io.early
                   ==> Coming(next, Due(s, k + 1), behind)
    ensures s.Upto(k + 1) == s.Upto(k) + [m]
    ensures Hashed(io.log + [Took(m)]) == Hashed(io.log) + [m]
  {
    hide Coming, Hashed, Script.Spoken;
    DueNext(s, k);
    UptoNext(s, k);
    assert Due(s, k)[1..] == Due(s, k + 1);
    Snoc(io.log, Took(m));
    if io.pending != [] { ComingNext(io, Due(s, k), behind); }
  }

  /** The same behind the new key. */
  lemma HearsLast(io: Io, s: Script, k: nat, m: Message)
    requires s.Valid() && k < |s.parts| && s.Who(k).TheClient? && s.parts[k] == [m]
    requires Ending(io, Behind(s, k))
    ensures Behind(s, k) != []
    ensures io.pending != [] ==>
              io.pending[0] == m && Ending(Take(io), Behind(s, k + 1)) && Hashed(Take(io).log) == Hashed(io.log) + [m]
    ensures s.Upto(k + 1) == s.Upto(k) + [m]
  {
    hide Ending, Hashed, Script.Spoken, Take;
    BehindNext(s, k);
    UptoNext(s, k);
    assert Behind(s, k)[1..] == Behind(s, k + 1);
    Snoc(io.log, Took(m));
    TakeAlso(io);
    if io.pending != [] { EndingNext(io, Behind(s, k)); }
  }

  // ---------------------------------------------------------------- the first states

  lemma OnStartAccept(g: Config, s: Script, behind: seq<Record>, c: Server)
    requires Offers(g, s) && On(g, s, behind, c) && c.io.wait.Go? && c.state.StartAccept?
    ensures GoesOn(g, s, behind, c, DoStartAccept(g, c))
  {
    hide Hashed, Coming, Willing, Offers;
  }

  lemma OnReadClientHello(g: Config, s: Script, behind: seq<Record>, c: Server)
    requires Offers(g, s) && On(g, s, behind, c) && c.io.wait.Go? && c.state.ReadClientHello?
    ensures GoesOn(g, s, behind, c, DoReadClientHello(g, c))
  {
    if c.io.pending == [] {
      Stays(g, s, behind, c);
    } else {
      HelloFirst(g, s, behind, c);
      ReadsHello(g, s, c);
      var d := DoReadClientHello(g, c);
      hide Hashed, Coming, DoReadClientHello, Willing;
      SameComing(c.io, d.io, Due(s, 0), behind);
    }
  }

  /** The message at hand is the ClientHello of the script. */
  lemma HelloFirst(g: Config, s: Script, behind: seq<Record>, c: Server)
    requires Offers(g, s) && Coming(c.io, Due(s, 0), behind) && c.io.pending != []
    ensures c.io.pending[0] == s.parts[0][0]
  {
    hide Coming, Script.Spoken;
    assert s.parts[0] == [s.parts[0][0]];
    Hears(c.io, s, 0, s.parts[0][0], behind);
  }

  /** The application, if it has to be asked, answers with yes. */
  lemma AsksOr(io: Io, asks: bool, op: Operation, n: nat)
    requires Willing(io.answers, n + 1)
    ensures var a := if asks then Asked(io, op) else io;
            && (asks ==> NextAnswer(io).Accept?) && Willing(a.answers, n)
             && a == io.(answers := a.answers, keyOp := a.keyOp)
  {
  }

  lemma ReadsHello(g: Config, s: Script, c: Server)
    requires Offers(g, s) && c.io.pending != [] && c.io.pending[0] == s.parts[0][0] && Willing(c.io.answers, 6)
    ensures var d := DoReadClientHello(g, c);
            && d == c.(state := SelectCertificate, hello := d.hello, channelId := d.channelId, io := d.io)
            && d.hello == Some(Info(g, s)) && (d.channelId.WithChannelId? <==> Info(g, s).channelId)
            && d.io == c.io.(answers := d.io.answers, keyOp := d.io.keyOp) && Willing(d.io.answers, 5)
  {
    hide Asked, NextAnswer, Willing;
    AsksOr(c.io, g.selectCallback, CertificateSelection, 5);
  }

  lemma OnSelectCertificate(g: Config, s: Script, behind: seq<Record>, c: Server)
    requires Offers(g, s) && On(g, s, behind, c) && c.io.wait.Go? && c.state.SelectCertificate?
    ensures GoesOn(g, s, behind, c, DoSelectCertificate(g, c))
  {
    HelloFirst(g, s, behind, c);
    Selects(g, s, c);
    var d := DoSelectCertificate(g, c);
    hide Hashed, Coming, DoSelectCertificate, Willing;
    SameComing(c.io, d.io, Due(s, 0), behind);
  }

  lemma Selects(g: Config, s: Script, c: Server)
    requires Offers(g, s) && c.io.pending != [] && c.io.pending[0] == s.parts[0][0] && Willing(c.io.answers, 5)
    requires c.hello == Some(Info(g, s))
    ensures var d := DoSelectCertificate(g, c);
            && d == c.(state := SelectParameters, deal := d.deal, io := d.io)
            && d.deal == Deal(false, CipherOf(g, s), false, false)
            && d.io == c.io.(answers := d.io.answers, keyOp := d.io.keyOp) && Willing(d.io.answers, 4)
  {
    hide Asked, NextAnswer, Willing;
    AsksOr(c.io, g.certCallback, CertificateLookup, 4);
  }

  /** The ClientHello is taken. */
  lemma TakesHello(g: Config, s: Script, behind: seq<Record>, c: Server)
    requires Offers(g, s) && Early(g, s, behind, c) && c.state.SelectParameters? && c.io.wait.Go?
    ensures var d := DoSelectParameters(g, c);
            && d.state.SendServerHello? && d.deal == DealOf(g, s) && d.hello == c.hello && d.params == c.params
            && (d.ticket.TicketExpected? <==> TicketDue(g, s)) && d.channelId == c.channelId && d.peer == c.peer
            && Hashed(d.io.log) == s.Upto(1) && Coming(d.io, Due(s, 1), behind) && Willing(d.io.answers, 3)
            && d.io.wait.Go? && d.io.inbox == c.io.inbox && d.io.flushes == c.io.flushes
  {
    hide Hashed, Coming, Take, Asked, NextAnswer, Script.Spoken, Willing;
    HelloFirst(g, s, behind, c);
    AsksOr(c.io, g.lookupCallback, SessionLookup, 3);
    var asked := if g.lookupCallback then Asked(c.io, SessionLookup) else c.io;
    var m := s.parts[0][0];
    assert s.parts[0] == [m];
    var io := InitHash(asked);
    SameComing(c.io, io, Due(s, 0), behind);
    Hears(io, s, 0, m, behind);
    assert s.Upto(1) == s.Upto(0) + s.parts[0];
    assert [] + s.parts[0] == s.parts[0];
    TakeAlso(io);
    TakenComing(io, Due(s, 1), behind);
    FreeWait(Take(io));
    assert Take(io) == Take(io).(wait := Take(io).wait);
  }

  lemma OnSelectParameters(g: Config, s: Script, behind: seq<Record>, c: Server)
    requires Offers(g, s) && On(g, s, behind, c) && c.io.wait.Go? && c.state.SelectParameters?
    ensures GoesOn(g, s, behind, c, DoSelectParameters(g, c))
  {
    TakesHello(g, s, behind, c);
    HelloMoves(g, s, behind, c, DoSelectParameters(g, c));
  }

  lemma HelloMoves(g: Config, s: Script, behind: seq<Record>, c: Server, d: Server)
    requires Offers(g, s) && Early(g, s, behind, c) && c.state.SelectParameters?
    requires && d.state.SendServerHello? && d.deal == DealOf(g, s) && d.hello == c.hello && d.params == c.params
             && (d.ticket.TicketExpected? <==> TicketDue(g, s)) && d.channelId == c.channelId && d.peer == c.peer
             && Hashed(d.io.log) == s.Upto(1) && Coming(d.io, Due(s, 1), behind) && Willing(d.io.answers, 3)
             && d.io.wait.Go? && d.io.inbox == c.io.inbox && d.io.flushes == c.io.flushes
    ensures GoesOn(g, s, behind, c, d)
  {
    hide Hashed, Coming, Script.Spoken, Script.Upto, Willing;
  }

  // ---------------------------------------------------------------- the other states

  ghost predicate Ready(g: Config, s: Script, behind: seq<Record>, c: Server) {
    && InOrder(g, s) && Full(behind) && Arriving(behind) == Behind(s, KeyPlace(s))
    && On(g, s, behind, c) && c.io.wait.Go?
  }

  /** A state that did its part: the next one, what was said, and what is still to come. */
  ghost predicate Did(g: Config, s: Script, behind: seq<Record>, c: Server, d: Server, next: State, k: nat, n: nat)
    requires Offers(g, s) && k <= |s.parts|
  {
    && d.state == next && d.deal == c.deal && d.hello == c.hello && d.ticket == c.ticket
    && (d.channelId.WithChannelId? <==> UsesId(g, s))
    && d.peer == PeerAt(g, s, next) && (d.params.ParamsReady? <==> next.SendServerKeyExchange? && Exchanges(g, s))
    && Hashed(d.io.log) == s.Upto(k) && Willing(d.io.answers, n)
    && d.io.inbox == c.io.inbox && d.io.flushes == c.io.flushes
    && (if Keyed(next, s.resumed) then Ending(d.io, Behind(s, k))
        else if d.io.wait.ReadChangeCipherSpec? then Coming(d.io, [], behind)
        else Coming(d.io, Due(s, k), behind))
  }

  lemma DidMoves(g: Config, s: Script, behind: seq<Record>, c: Server, d: Server, next: State, k: nat, n: nat)
    requires Offers(g, s) && On(g, s, behind, c) && !PreHello(c.state) && k <= |s.parts|
    requires Did(g, s, behind, c, d, next, k, n)
    requires !PreHello(next) && !next.Tls13? && !next.SendServerHello? && (s.resumed ==> ResumedState(next))
    requires At(next, c.deal) == k && Calls(next) == n && Order(next, s.resumed) > Order(c.state, s.resumed)
    requires d.io.wait.Go? || d.io.wait.Flush? || (d.io.wait.ReadChangeCipherSpec? && next.ProcessChangeCipherSpec?)
    requires next.ProcessChangeCipherSpec? ==> d.io.wait.ReadChangeCipherSpec?
    ensures GoesOn(g, s, behind, c, d)
  {
    IsHere(g, s, behind, c);
    DidStreams(g, s, behind, c, d, next, k, n);
    hide Account, Streams, Offers, GoesOn, Hashed, Willing, Coming, Ending, Due, Behind, On, PeerAt, DealOf;
    Accounts(g, s, c, d, At(c.state, c.deal), Calls(c.state), k, n);
    Moves(g, s, behind, c, d, k, n);
  }

  lemma DidStreams(g: Config, s: Script, behind: seq<Record>, c: Server, d: Server, next: State, k: nat, n: nat)
    requires Offers(g, s) && k <= |s.parts| && Did(g, s, behind, c, d, next, k, n) && At(next, c.deal) == k
    requires next.ProcessChangeCipherSpec? <==> d.io.wait.ReadChangeCipherSpec?
    ensures Streams(s, behind, d)
  {
    hide Offers, Hashed, Willing, Coming, Ending, Due, Behind;
  }

  /** The states that a state may lead to. */
  predicate Leads(st: State, next: State, resumed: bool) {
    match st
    case SendServerHello => next == if resumed then SendServerFinished else SendServerCertificate
    case SendServerCertificate => !resumed && next.SendServerKeyExchange?
    case SendServerKeyExchange => !resumed && next.SendServerHelloDone?
    case SendServerHelloDone => !resumed && next.ReadClientCertificate?
    case ReadClientCertificate => !resumed && next.VerifyClientCertificate?
    case VerifyClientCertificate => !resumed && next.ReadClientKeyExchange?
    case ReadClientKeyExchange => !resumed && next.ReadClientCertificateVerify?
    case ReadClientCertificateVerify => !resumed && next.AwaitChangeCipherSpec?
    case AwaitChangeCipherSpec => next.ProcessChangeCipherSpec?
    case ProcessChangeCipherSpec => next.ReadNextProto?
    case ReadNextProto => next.ReadChannelId?
    case ReadChannelId => next.ReadClientFinished?
    case ReadClientFinished => next == if resumed then FinishServerHandshake else SendServerFinished
    case SendServerFinished => next == if resumed then AwaitChangeCipherSpec else FinishServerHandshake
    case FinishServerHandshake => next.Done?
    case _ => false
  }

  lemma LeadsOn(st: State, next: State, d: Deal)
    requires Leads(st, next, d.resumed)
    ensures !PreHello(st) && !PreHello(next) && !next.Tls13? && !next.SendServerHello?
    ensures (d.resumed ==> ResumedState(next)) && Order(next, d.resumed) > Order(st, d.resumed)
    ensures At(next, d) <= (if d.resumed then 9 else 17)
  {
  }

  /** One state after the other. */
  lemma Goes(g: Config, s: Script, behind: seq<Record>, c: Server, d: Server, next: State)
    requires Offers(g, s) && On(g, s, behind, c) && c.deal.resumed == s.resumed && Leads(c.state, next, s.resumed)
    requires At(next, c.deal) <= |s.parts| && Did(g, s, behind, c, d, next, At(next, c.deal), Calls(next))
    requires d.io.wait.Go? || d.io.wait.Flush? || (d.io.wait.ReadChangeCipherSpec? && next.ProcessChangeCipherSpec?)
    requires next.ProcessChangeCipherSpec? ==> d.io.wait.ReadChangeCipherSpec?
    ensures GoesOn(g, s, behind, c, d)
  {
    LeadsOn(c.state, next, c.deal);
    hide *;
    DidMoves(g, s, behind, c, d, next, At(next, c.deal), Calls(next));
  }

  lemma LittleAsked(st: State, d: Deal)
    ensures st.SendServerHello? ==> At(st, d) == 1 && Calls(st) == 3
    ensures st.SendServerCertificate? ==> At(st, d) == 2 && Calls(st) == 3
    ensures st.SendServerKeyExchange? ==> At(st, d) == 4 && Calls(st) == 3
    ensures st.SendServerHelloDone? ==> At(st, d) == 5 && Calls(st) == 2
    ensures st.ReadClientCertificate? ==> At(st, d) == 7 && Calls(st) == 2
    ensures st.VerifyClientCertificate? ==> At(st, d) == 8 && Calls(st) == 2
    ensures st.ReadClientKeyExchange? ==> At(st, d) == 8 && Calls(st) == 1
    ensures st.ReadClientCertificateVerify? ==> At(st, d) == 9 && Calls(st) == 0
    ensures st.AwaitChangeCipherSpec? || st.ProcessChangeCipherSpec? ==>
              At(st, d) == (if d.resumed then 5 else 10) && Calls(st) == 0
    ensures st.ReadNextProto? ==> At(st, d) == (if d.resumed then 6 else 11) && Calls(st) == 0
    ensures st.ReadChannelId? ==> At(st, d) == (if d.resumed then 7 else 12) && Calls(st) == 0
    ensures st.ReadClientFinished? ==> At(st, d) == (if d.resumed then 8 else 13) && Calls(st) == 0
    ensures st.SendServerFinished? ==> At(st, d) == (if d.resumed then 2 else 14) && Calls(st) == 0
    ensures st.FinishServerHandshake? || st.Done? ==> At(st, d) == (if d.resumed then 9 else 17) && Calls(st) == 0
  {
  }

  /** Everything that holds of a state behind the hellos. */
  lemma AllFacts(g: Config, s: Script, behind: seq<Record>, c: Server)
    requires Ready(g, s, behind, c) && !PreHello(c.state)
    ensures Offers(g, s) && On(g, s, behind, c) && c.io.wait.Go? && c.deal.resumed == s.resumed
    ensures !s.resumed ==> Presents(g, s) && Answers(g, s)
    ensures |s.parts| == (if s.resumed then 9 else 17) && KeyPlace(s) == (if s.resumed then 5 else 10)
    ensures Seals(g, s, KeyPlace(s)) && Confirms(g, s, if s.resumed then 2 else 14)
    ensures At(c.state, c.deal) <= |s.parts| && Account(g, s, c, At(c.state, c.deal), Calls(c.state))
    ensures Streams(s, behind, c) && (s.resumed ==> ResumedState(c.state)) && Arriving(behind) == Behind(s, KeyPlace(s))
    ensures if Keyed(c.state, s.resumed) then Ending(c.io, Behind(s, At(c.state, c.deal)))
            else if c.state.ProcessChangeCipherSpec? then Ending(c.io, Arriving(behind)) && c.io.pending == []
            else Coming(c.io, Due(s, At(c.state, c.deal)), behind)
  {
    hide Account, Coming, Ending, Presents, Answers, Seals, Confirms, PreHello, ResumedState, Keyed;
  }

  /** Which state follows, and on which side of the new key. */
  lemma LeadsAll(st: State, resumed: bool)
    requires !st.StartAccept? && !st.ReadClientHello? && !st.SelectCertificate? && !st.SelectParameters? && !st.Tls13?
    ensures !PreHello(st)
    ensures st.SendServerHello? ==> Leads(st, if resumed then SendServerFinished else SendServerCertificate, resumed)
    ensures !ResumedState(st) && !resumed ==>
              && (st.SendServerCertificate? ==> Leads(st, SendServerKeyExchange, resumed))
              && (st.SendServerKeyExchange? ==> Leads(st, SendServerHelloDone, resumed))
              && (st.SendServerHelloDone? ==> Leads(st, ReadClientCertificate, resumed))
              && (st.ReadClientCertificate? ==> Leads(st, VerifyClientCertificate, resumed))
              && (st.VerifyClientCertificate? ==> Leads(st, ReadClientKeyExchange, resumed))
              && (st.ReadClientKeyExchange? ==> Leads(st, ReadClientCertificateVerify, resumed))
              && (st.ReadClientCertificateVerify? ==> Leads(st, AwaitChangeCipherSpec, resumed))
    ensures st.AwaitChangeCipherSpec? ==> Leads(st, ProcessChangeCipherSpec, resumed)
    ensures st.ProcessChangeCipherSpec? ==> Leads(st, ReadNextProto, resumed)
    ensures st.ReadNextProto? ==> Leads(st, ReadChannelId, resumed)
    ensures st.ReadChannelId? ==> Leads(st, ReadClientFinished, resumed)
    ensures st.ReadClientFinished? ==> Leads(st, if resumed then FinishServerHandshake else SendServerFinished, resumed)
    ensures st.SendServerFinished? ==>
              Leads(st, if resumed then AwaitChangeCipherSpec else FinishServerHandshake, resumed)
    ensures st.FinishServerHandshake? ==> Leads(st, Done, resumed)
    ensures Keyed(st, resumed) <==>
              || st.ReadNextProto? || st.ReadChannelId? || st.ReadClientFinished?
              || st.FinishServerHandshake? || st.Done?
              || (!resumed && st.SendServerFinished?)
    ensures ResumedState(st) <==>
              && !st.SendServerCertificate? && !st.SendServerKeyExchange? && !st.SendServerHelloDone?
              && !st.ReadClientCertificate? && !st.VerifyClientCertificate? && !st.ReadClientKeyExchange?
              && !st.ReadClientCertificateVerify?
  {
  }

  lemma OnSendServerHello(g: Config, s: Script, behind: seq<Record>, c: Server)
    requires Ready(g, s, behind, c) && c.state.SendServerHello?
    ensures GoesOn(g, s, behind, c, DoSendServerHello(g, c))
  {
    hide *;
    LeadsAll(c.state, s.resumed);
    AllFacts(g, s, behind, c);
    var next: State := if s.resumed then SendServerFinished else SendServerCertificate;
    LittleAsked(c.state, c.deal);
    LittleAsked(next, c.deal);
    DidSendServerHello(g, s, behind, c, next, Calls(next));
    Goes(g, s, behind, c, DoSendServerHello(g, c), next);
  }

  lemma DidSendServerHello(g: Config, s: Script, behind: seq<Record>, c: Server, next: State, n: nat)
    requires Offers(g, s) && Account(g, s, c, 1, 3) && Coming(c.io, Due(s, 1), behind) && c.state.SendServerHello?
    requires next == (if s.resumed then SendServerFinished else SendServerCertificate) && c.io.wait.Go?
    requires n == (if s.resumed then 0 else 3)
    ensures Did(g, s, behind, c, DoSendServerHello(g, c), next, 2, n) && DoSendServerHello(g, c).io.wait.Go?
  {
    hide Hashed, Coming, Emit, Script.Spoken, Script.Upto;
    WillingLess(c.io.answers, 3, n);
    hide Willing;
    var m := Message(ServerHello, g.hello);
    Passes(s, 1);
    Utters(c.io, s, 1, m);
    EmitLog(c.io, m);
    EmitAside(c.io, m, Due(s, 2), behind);
    EmitWait(c.io, m);
  }

  /** What the script says of the places behind the hellos. */
  lemma OrderFacts(g: Config, s: Script, behind: seq<Record>, c: Server)
    requires Ready(g, s, behind, c)
    ensures Offers(g, s) && (!s.resumed ==> Presents(g, s) && Answers(g, s))
    ensures Seals(g, s, if s.resumed then 5 else 10) && Confirms(g, s, if s.resumed then 2 else 14)
    ensures Full(behind) && Arriving(behind) == Behind(s, KeyPlace(s)) && c.io.wait.Go? && On(g, s, behind, c)
  {
    hide On, Presents, Answers, Seals, Confirms;
  }

  lemma OnSendServerCertificate(g: Config, s: Script, behind: seq<Record>, c: Server)
    requires Ready(g, s, behind, c) && c.state.SendServerCertificate?
    ensures GoesOn(g, s, behind, c, DoSendServerCertificate(g, c))
  {
    hide *;
    LeadsAll(c.state, s.resumed);
    AllFacts(g, s, behind, c);
    var next: State := SendServerKeyExchange;
    LittleAsked(c.state, c.deal);
    LittleAsked(next, c.deal);
    DidSendServerCertificate(g, s, behind, c);
    Goes(g, s, behind, c, DoSendServerCertificate(g, c), next);
  }

  lemma DidSendServerCertificate(g: Config, s: Script, behind: seq<Record>, c: Server)
    requires Offers(g, s) && !s.resumed && Presents(g, s) && c.state.SendServerCertificate? && c.io.wait.Go?
    requires Account(g, s, c, 2, 3) && Coming(c.io, Due(s, 2), behind)
    ensures Did(g, s, behind, c, DoSendServerCertificate(g, c), SendServerKeyExchange, 4, 3)
    ensures DoSendServerCertificate(g, c).io.wait.Go?
  {
    hide Hashed, Coming, Emit, Script.Spoken, Script.Upto, Willing;
    Passes(s, 2);
    Passes(s, 3);
    if c.deal.cipher.certAuth {
      var m, st := Message(Certificate, g.certificate), Message(CertificateStatus, g.status);
      Utters(c.io, s, 2, m);
      EmitLog(c.io, m);
      EmitAside(c.io, m, Due(s, 4), behind);
      EmitWait(c.io, m);
      var io := Emit(c.io, m);
      if Info(g, s).status {
        Utters(io, s, 3, st);
        EmitLog(io, st);
        EmitAside(io, st, Due(s, 4), behind);
        EmitWait(io, st);
      }
    }
  }

  lemma OnSendServerKeyExchange(g: Config, s: Script, behind: seq<Record>, c: Server)
    requires Ready(g, s, behind, c) && c.state.SendServerKeyExchange?
    ensures GoesOn(g, s, behind, c, DoSendServerKeyExchange(g, c))
  {
    hide *;
    LeadsAll(c.state, s.resumed);
    AllFacts(g, s, behind, c);
    var next: State := SendServerHelloDone;
    LittleAsked(c.state, c.deal);
    LittleAsked(next, c.deal);
    DidSendServerKeyExchange(g, s, behind, c);
    Goes(g, s, behind, c, DoSendServerKeyExchange(g, c), next);
  }

  lemma DidSendServerKeyExchange(g: Config, s: Script, behind: seq<Record>, c: Server)
    requires Offers(g, s) && !s.resumed && Presents(g, s) && c.state.SendServerKeyExchange? && c.io.wait.Go?
    requires Account(g, s, c, 4, 3) && Coming(c.io, Due(s, 4), behind)
    ensures Did(g, s, behind, c, DoSendServerKeyExchange(g, c), SendServerHelloDone, 5, 2)
    ensures DoSendServerKeyExchange(g, c).io.wait.Go?
  {
    hide Hashed, Coming, Emit, Script.Spoken, Script.Upto, Willing, Asked, NextAnswer;
    Passes(s, 4);
    WillingLess(c.io.answers, 3, 2);
    if c.params.ParamsReady? {
      var m := Message(ServerKeyExchange, g.exchange.value);
      var asks := c.deal.cipher.certAuth && g.keyMethod;
      AsksOr(c.io, asks, PrivateKey, 2);
      var io := if asks then Asked(c.io, PrivateKey) else c.io;
      SameComing(c.io, io, Due(s, 5), behind);
      Utters(io, s, 4, m);
      EmitLog(io, m);
      EmitAside(io, m, Due(s, 5), behind);
      EmitWait(io, m);
    }
  }

  lemma OnSendServerHelloDone(g: Config, s: Script, behind: seq<Record>, c: Server)
    requires Ready(g, s, behind, c) && c.state.SendServerHelloDone?
    ensures GoesOn(g, s, behind, c, DoSendServerHelloDone(g, c))
  {
    hide *;
    LeadsAll(c.state, s.resumed);
    AllFacts(g, s, behind, c);
    var next: State := ReadClientCertificate;
    LittleAsked(c.state, c.deal);
    LittleAsked(next, c.deal);
    DidSendServerHelloDone(g, s, behind, c);
    Goes(g, s, behind, c, DoSendServerHelloDone(g, c), next);
  }

  lemma DidSendServerHelloDone(g: Config, s: Script, behind: seq<Record>, c: Server)
    requires Offers(g, s) && !s.resumed && Presents(g, s) && c.state.SendServerHelloDone? && c.io.wait.Go?
    requires Account(g, s, c, 5, 2) && Coming(c.io, Due(s, 5), behind)
    ensures Did(g, s, behind, c, DoSendServerHelloDone(g, c), ReadClientCertificate, 7, 2)
    ensures DoSendServerHelloDone(g, c).io.wait.Flush?
  {
    hide Hashed, Coming, Emit, Script.Spoken, Script.Upto, Willing;
    Passes(s, 5);
    Passes(s, 6);
    var m, done := Message(CertificateRequest, g.request), Message(ServerHelloDone, []);
    Utters(c.io, s, 6, done);
    EmitLog(c.io, m);
    EmitAside(c.io, m, Due(s, 7), behind);
    EmitWait(c.io, m);
    if c.deal.requested { Utters(c.io, s, 5, m); }
    var io := if c.deal.requested then Emit(c.io, m) else c.io;
    Utters(io, s, 6, done);
    EmitLog(io, done);
    EmitAside(io, done, Due(s, 7), behind);
  }

  lemma OnReadClientCertificate(g: Config, s: Script, behind: seq<Record>, c: Server)
    requires Ready(g, s, behind, c) && c.state.ReadClientCertificate?
    ensures GoesOn(g, s, behind, c, DoReadClientCertificate(g, c))
  {
    hide *;
    LeadsAll(c.state, s.resumed);
    AllFacts(g, s, behind, c);
    var next: State := VerifyClientCertificate;
    LittleAsked(c.state, c.deal);
    LittleAsked(next, c.deal);
    if c.deal.requested && c.io.pending == [] {
      ReadClientCertificateWaits(g, c);
      Stays(g, s, behind, c);
    } else {
      DidReadClientCertificate(g, s, behind, c);
      Goes(g, s, behind, c, DoReadClientCertificate(g, c), next);
    }
  }

  lemma ReadClientCertificateWaits(g: Config, c: Server)
    requires c.state.ReadClientCertificate? && c.io.pending == [] && c.deal.requested
    ensures Reads(c) && DoReadClientCertificate(g, c) == c.(io := Await(c.io))
  {
  }

  /** A message of the client was taken: place `k` is done. */
  ghost predicate TookPart(c: Server, d: Server, n: nat) {
    && c.io.pending != [] && d.deal == c.deal && d.hello == c.hello && d.ticket == c.ticket
    && d.channelId == c.channelId
    && d.params == c.params && d.io.log == c.io.log + [Took(c.io.pending[0])] && d.io.pending == c.io.pending[1..]
    && d.io.inbox == c.io.inbox && d.io.flushes == c.io.flushes && d.io.early == c.io.early && d.io.wait.Go?
    && Willing(d.io.answers, n)
  }

  lemma TakenDid(g: Config, s: Script, behind: seq<Record>, c: Server, d: Server, next: State, k: nat, m: nat, n: nat)
    requires Offers(g, s) && s.Valid() && k < KeyPlace(s) && k < |s.parts| && s.Who(k).TheClient? && |s.parts[k]| == 1
    requires Account(g, s, c, k, m) && Coming(c.io, Due(s, k), behind) && TookPart(c, d, n)
    requires d.state == next && d.peer == PeerAt(g, s, next) && !Keyed(next, s.resumed)
    requires !c.state.SendServerHello? && !c.state.SendServerKeyExchange? && !next.SendServerKeyExchange?
    ensures Did(g, s, behind, c, d, next, k + 1, n)
  {
    hide Hashed, Coming, Script.Spoken, Script.Upto, Willing, Offers, Due, PeerAt;
    assert s.parts[k] == [s.parts[k][0]];
    Hears(c.io, s, k, s.parts[k][0], behind);
  }

  /** The same behind the new key. */
  lemma TakenLast(g: Config, s: Script, behind: seq<Record>, c: Server, d: Server, next: State, k: nat)
    requires Offers(g, s) && s.Valid() && k < |s.parts| && s.Who(k).TheClient? && |s.parts[k]| == 1
    requires Account(g, s, c, k, 0) && Ending(c.io, Behind(s, k)) && TookPart(c, d, 0)
    requires d.state == next && d.peer == PeerAt(g, s, next) && Keyed(next, s.resumed)
    requires !c.state.SendServerHello? && !c.state.SendServerKeyExchange? && !next.SendServerKeyExchange?
    ensures Did(g, s, behind, c, d, next, k + 1, 0)
  {
    hide Hashed, Ending, Script.Spoken, Script.Upto, Willing, Offers, Behind, PeerAt, Take;
    assert s.parts[k] == [s.parts[k][0]];
    HearsLast(c.io, s, k, s.parts[k][0]);
    TakeAlso(c.io);
    SameComing(Take(c.io), d.io, Behind(s, k + 1), behind);
  }

  /** The message at hand is the one of place `k`. */
  lemma PartAtHand(s: Script, behind: seq<Record>, c: Server, k: nat)
    requires s.Valid() && k < |s.parts| && s.Who(k).TheClient? && |s.parts[k]| == 1 && c.io.pending != []
    requires (k < KeyPlace(s) && Coming(c.io, Due(s, k), behind)) || Ending(c.io, Behind(s, k))
    ensures c.io.pending[0] == s.parts[k][0]
  {
    hide Coming, Ending, Due, Behind, Script.Spoken, Script.Upto;
    assert s.parts[k] == [s.parts[k][0]];
    if k < KeyPlace(s) && Coming(c.io, Due(s, k), behind) {
      Hears(c.io, s, k, s.parts[k][0], behind);
    } else {
      HearsLast(c.io, s, k, s.parts[k][0]);
    }
  }

  lemma CertificateRead(g: Config, c: Server)
    requires c.deal.requested && c.io.pending != [] && c.io.pending[0].kind == Certificate && g.chainOk(c.io.pending[0])
    requires g.chainEmpty(c.io.pending[0]) ==> !g.requireCertificate && c.peer.None?
    requires c.io.wait.Go? && Willing(c.io.answers, 2)
    ensures var d := DoReadClientCertificate(g, c);
            && TookPart(c, d, 2) && d.state.VerifyClientCertificate?
            && d.peer == if g.chainEmpty(c.io.pending[0]) then None else Some(c.io.pending[0])
  {
    hide Take, Willing;
    TakeAlso(c.io);
  }

  lemma CertificateSaid(g: Config, s: Script)
    requires Offers(g, s) && !s.resumed && Answers(g, s)
    ensures if Wanted(g, s)
            then
              && |s.parts[7]| == 1 && s.parts[7][0].kind == Certificate && g.chainOk(s.parts[7][0])
              && (g.chainEmpty(s.parts[7][0]) ==> !g.requireCertificate)
              && PeerAt(g, s, VerifyClientCertificate)
                 == if g.chainEmpty(s.parts[7][0]) then None else Some(s.parts[7][0])
            else s.parts[7] == [] && PeerAt(g, s, VerifyClientCertificate) == None
    ensures s.Valid() && s.Who(7).TheClient? && KeyPlace(s) == 10 && PeerAt(g, s, ReadClientCertificate) == None
    ensures DealOf(g, s).requested == Wanted(g, s) && |s.parts| > 8 && !Keyed(VerifyClientCertificate, s.resumed)
  {
    hide Script.Upto;
  }

  lemma DidReadClientCertificate(g: Config, s: Script, behind: seq<Record>, c: Server)
    requires Offers(g, s) && !s.resumed && Answers(g, s) && c.state.ReadClientCertificate? && c.io.wait.Go?
    requires Account(g, s, c, 7, 2) && Coming(c.io, Due(s, 7), behind) && (c.deal.requested ==> c.io.pending != [])
    ensures Did(g, s, behind, c, DoReadClientCertificate(g, c), VerifyClientCertificate, 8, 2)
    ensures DoReadClientCertificate(g, c).io.wait.Go?
  {
    hide *;
    CertificateSaid(g, s);
    AccountFacts(g, s, c, 7, 2);
    if c.deal.requested {
      PartAtHand(s, behind, c, 7);
      CertificateRead(g, c);
      TookGo(c, DoReadClientCertificate(g, c), 2);
      TakenDid(g, s, behind, c, DoReadClientCertificate(g, c), VerifyClientCertificate, 7, 2, 2);
    } else {
      CertificateNotAsked(g, s, behind, c);
    }
  }

  lemma CertificateNotAsked(g: Config, s: Script, behind: seq<Record>, c: Server)
    requires Offers(g, s) && !s.resumed && c.state.ReadClientCertificate? && c.io.wait.Go? && !c.deal.requested
    requires Account(g, s, c, 7, 2) && Coming(c.io, Due(s, 7), behind) && s.parts[7] == []
    ensures Did(g, s, behind, c, DoReadClientCertificate(g, c), VerifyClientCertificate, 8, 2)
    ensures DoReadClientCertificate(g, c).io.wait.Go?
  {
    hide Hashed, Coming, Take, Script.Spoken, Script.Upto, Willing, Answers;
    Passes(s, 7);
  }

  lemma TookGo(c: Server, d: Server, n: nat)
    requires TookPart(c, d, n)
    ensures d.io.wait.Go?
  {
  }

  lemma OnVerifyClientCertificate(g: Config, s: Script, behind: seq<Record>, c: Server)
    requires Ready(g, s, behind, c) && c.state.VerifyClientCertificate?
    ensures GoesOn(g, s, behind, c, DoVerifyClientCertificate(g, c))
  {
    hide *;
    LeadsAll(c.state, s.resumed);
    AllFacts(g, s, behind, c);
    var next: State := ReadClientKeyExchange;
    LittleAsked(c.state, c.deal);
    LittleAsked(next, c.deal);
    DidVerifyClientCertificate(g, s, behind, c);
    Goes(g, s, behind, c, DoVerifyClientCertificate(g, c), next);
  }

  /** With a chain that the application takes, or a trusted one, the state accepts it. */
  lemma ChainVerified(g: Config, c: Server)
    requires c.io.wait.Go? && Willing(c.io.answers, 2)
    requires c.peer.Some? && !g.customVerify ==> g.chainTrusted(c.peer.value)
    ensures var d := DoVerifyClientCertificate(g, c);
            && d == c.(state := ReadClientKeyExchange, io := d.io) && d.io.wait.Go?
             && Hashed(d.io.log) == Hashed(c.io.log)
            && d.io.inbox == c.io.inbox && d.io.flushes == c.io.flushes && d.io.pending == c.io.pending
            && d.io.early == c.io.early && Willing(d.io.answers, 1)
  {
    WillingNext(c.io, VerifyPeer, 2);
    hide Hashed;
    if c.peer.Some? { Snoc(c.io.log, PeerVerified(c.peer.value, if g.customVerify then Some(Accept) else None)); }
  }

  lemma ChainSaid(g: Config, s: Script)
    requires Offers(g, s) && !s.resumed && Answers(g, s)
    ensures var peer := PeerAt(g, s, VerifyClientCertificate);
            && (peer.Some? && !g.customVerify ==> g.chainTrusted(peer.value))
            && PeerAt(g, s, ReadClientKeyExchange) == peer
    ensures !Keyed(ReadClientKeyExchange, s.resumed)
  {
    hide Script.Upto;
  }

  lemma DidVerifyClientCertificate(g: Config, s: Script, behind: seq<Record>, c: Server)
    requires Offers(g, s) && !s.resumed && Answers(g, s) && c.state.VerifyClientCertificate? && c.io.wait.Go?
    requires Account(g, s, c, 8, 2) && Coming(c.io, Due(s, 8), behind)
    ensures Did(g, s, behind, c, DoVerifyClientCertificate(g, c), ReadClientKeyExchange, 8, 1)
    ensures DoVerifyClientCertificate(g, c).io.wait.Go?
  {
    AccountFacts(g, s, c, 8, 2);
    ChainSaid(g, s);
    ChainVerified(g, c);
    var d := DoVerifyClientCertificate(g, c);
    SameComing(c.io, d.io, Due(s, 8), behind);
    hide Hashed, Coming, Script.Spoken, Script.Upto, Willing, Answers, Account, DoVerifyClientCertificate,
         Offers, DealOf,
         PeerAt, Due, Keyed;
  }

  lemma OnReadClientKeyExchange(g: Config, s: Script, behind: seq<Record>, c: Server)
    requires Ready(g, s, behind, c) && c.state.ReadClientKeyExchange?
    ensures GoesOn(g, s, behind, c, DoReadClientKeyExchange(g, c))
  {
    hide *;
    LeadsAll(c.state, s.resumed);
    AllFacts(g, s, behind, c);
    var next: State := ReadClientCertificateVerify;
    LittleAsked(c.state, c.deal);
    LittleAsked(next, c.deal);
    if c.io.pending == [] {
      ReadClientKeyExchangeWaits(g, c);
      Stays(g, s, behind, c);
    } else {
      DidReadClientKeyExchange(g, s, behind, c);
      Goes(g, s, behind, c, DoReadClientKeyExchange(g, c), next);
    }
  }

  lemma ReadClientKeyExchangeWaits(g: Config, c: Server)
    requires c.state.ReadClientKeyExchange? && c.io.pending == []
    ensures Reads(c) && DoReadClientKeyExchange(g, c) == c.(io := Await(c.io))
  {
  }

  lemma ExchangeRead(g: Config, c: Server)
    requires c.io.pending != [] && c.io.pending[0].kind == ClientKeyExchange
    requires c.io.wait.Go? && Willing(c.io.answers, 1)
    requires g.exchangeOk(c.deal.cipher, c.io.pending[0]) && g.secretOk(c.deal.cipher, c.io.pending[0])
    ensures var d := DoReadClientKeyExchange(g, c);
            TookPart(c, d, 0) && d.state.ReadClientCertificateVerify? && d.peer == c.peer
  {
    hide Take, Willing, Asked, NextAnswer;
    var asks := c.deal.cipher.kx.Rsa? && g.keyMethod;
    WillingLess(c.io.answers, 1, 0);
    AsksOr(c.io, asks, PrivateKey, 0);
    TakeAlso(if asks then Asked(c.io, PrivateKey) else c.io);
  }

  lemma ExchangeSaid(g: Config, s: Script)
    requires Offers(g, s) && !s.resumed && Answers(g, s)
    ensures |s.parts| == 17
    ensures |s.parts[8]| == 1 && s.parts[8][0].kind == ClientKeyExchange
    ensures g.exchangeOk(DealOf(g, s).cipher, s.parts[8][0]) && g.secretOk(DealOf(g, s).cipher, s.parts[8][0])
    ensures s.Valid() && s.Who(8).TheClient? && KeyPlace(s) == 10
    ensures PeerAt(g, s, ReadClientKeyExchange) == PeerAt(g, s, ReadClientCertificateVerify)
    ensures !Keyed(ReadClientCertificateVerify, s.resumed)
  {
    hide Script.Upto;
  }

  lemma DidReadClientKeyExchange(g: Config, s: Script, behind: seq<Record>, c: Server)
    requires Offers(g, s) && !s.resumed && Answers(g, s) && c.state.ReadClientKeyExchange? && c.io.wait.Go?
    requires Account(g, s, c, 8, 1) && Coming(c.io, Due(s, 8), behind) && c.io.pending != []
    ensures Did(g, s, behind, c, DoReadClientKeyExchange(g, c), ReadClientCertificateVerify, 9, 0)
    ensures DoReadClientKeyExchange(g, c).io.wait.Go?
  {
    hide *;
    ExchangeSaid(g, s);
    AccountFacts(g, s, c, 8, 1);
    PartAtHand(s, behind, c, 8);
    ExchangeRead(g, c);
    TookGo(c, DoReadClientKeyExchange(g, c), 0);
    TakenDid(g, s, behind, c, DoReadClientKeyExchange(g, c), ReadClientCertificateVerify, 8, 1, 0);
  }

  lemma OnReadClientCertificateVerify(g: Config, s: Script, behind: seq<Record>, c: Server)
    requires Ready(g, s, behind, c) && c.state.ReadClientCertificateVerify?
    requires c.peer.Some? ==> c.io.buffer == Some(Hashed(c.io.log))
    ensures GoesOn(g, s, behind, c, DoReadClientCertificateVerify(g, c))
  {
    hide *;
    LeadsAll(c.state, s.resumed);
    AllFacts(g, s, behind, c);
    var next: State := AwaitChangeCipherSpec;
    LittleAsked(c.state, c.deal);
    LittleAsked(next, c.deal);
    if c.peer.Some? && c.io.pending == [] {
      ReadClientCertificateVerifyWaits(g, c);
      Stays(g, s, behind, c);
    } else {
      DidReadClientCertificateVerify(g, s, behind, c);
      Goes(g, s, behind, c, DoReadClientCertificateVerify(g, c), next);
    }
  }

  lemma ReadClientCertificateVerifyWaits(g: Config, c: Server)
    requires c.state.ReadClientCertificateVerify? && c.io.pending == [] && c.peer.Some?
    ensures Reads(c) && DoReadClientCertificateVerify(g, c) == c.(io := Await(c.io))
  {
  }

  lemma ProofRead(g: Config, c: Server)
    requires c.peer.Some? && c.io.pending != [] && c.io.pending[0].kind == CertificateVerify && c.io.wait.Go?
    requires c.io.buffer.Some? && g.provesKey(c.peer.value, c.io.buffer.value, c.io.pending[0])
    ensures var d := DoReadClientCertificateVerify(g, c);
            TookPart(c, d, 0) && d.state.AwaitChangeCipherSpec? && d.peer == c.peer
  {
    hide Take;
    TakeAlso(FreeBuffer(c.io));
  }

  lemma ProofSaid(g: Config, s: Script)
    requires Offers(g, s) && !s.resumed && Answers(g, s)
    ensures var peer := PeerAt(g, s, ReadClientCertificateVerify);
            && PeerAt(g, s, AwaitChangeCipherSpec) == peer
            && if peer.Some?
               then |s.parts[9]| == 1 && s.parts[9][0].kind == CertificateVerify
                    && g.provesKey(peer.value, s.Upto(9), s.parts[9][0])
               else s.parts[9] == []
    ensures s.Valid() && s.Who(9).TheClient? && KeyPlace(s) == 10 && !Keyed(AwaitChangeCipherSpec, s.resumed)
  {
    hide Script.Upto;
  }

  lemma DidReadClientCertificateVerify(g: Config, s: Script, behind: seq<Record>, c: Server)
    requires Offers(g, s) && !s.resumed && Answers(g, s) && c.state.ReadClientCertificateVerify? && c.io.wait.Go?
    requires Account(g, s, c, 9, 0) && Coming(c.io, Due(s, 9), behind) && (c.peer.Some? ==> c.io.pending != [])
    requires c.peer.Some? ==> c.io.buffer == Some(Hashed(c.io.log))
    ensures Did(g, s, behind, c, DoReadClientCertificateVerify(g, c), AwaitChangeCipherSpec, 10, 0)
    ensures DoReadClientCertificateVerify(g, c).io.wait.Go?
  {
    AccountFacts(g, s, c, 9, 0);
    ProofSaid(g, s);
    if c.peer.Some? {
      hide *;
      PartAtHand(s, behind, c, 9);
      ProofRead(g, c);
      TookGo(c, DoReadClientCertificateVerify(g, c), 0);
      TakenDid(g, s, behind, c, DoReadClientCertificateVerify(g, c), AwaitChangeCipherSpec, 9, 0, 0);
    } else {
      hide Hashed, Coming, Take, Script.Spoken, Script.Upto, Willing, Answers;
      Passes(s, 9);
      SameComing(c.io, FreeBuffer(c.io), Due(s, 10), behind);
    }
  }

  lemma OnAwaitChangeCipherSpec(g: Config, s: Script, behind: seq<Record>, c: Server)
    requires Ready(g, s, behind, c) && c.state.AwaitChangeCipherSpec?
    ensures GoesOn(g, s, behind, c, DoAwaitChangeCipherSpec(g, c))
  {
    hide *;
    LeadsAll(c.state, s.resumed);
    AllFacts(g, s, behind, c);
    var next: State := ProcessChangeCipherSpec;
    LittleAsked(c.state, c.deal);
    LittleAsked(next, c.deal);
    DidAwaitChangeCipherSpec(g, s, behind, c);
    Goes(g, s, behind, c, DoAwaitChangeCipherSpec(g, c), next);
  }

  lemma DidAwaitChangeCipherSpec(g: Config, s: Script, behind: seq<Record>, c: Server)
    requires Offers(g, s) && c.state.AwaitChangeCipherSpec? && c.io.wait.Go? && Account(g, s, c, KeyPlace(s), 0)
    requires Coming(c.io, Due(s, KeyPlace(s)), behind)
    ensures Did(g, s, behind, c, DoAwaitChangeCipherSpec(g, c), ProcessChangeCipherSpec, KeyPlace(s), 0)
    ensures DoAwaitChangeCipherSpec(g, c).io.wait.ReadChangeCipherSpec?
  {
    hide Hashed, Coming, Script.Upto, Willing;
    SameComing(c.io, c.io.(wait := ReadChangeCipherSpec), [], behind);
  }

  lemma OnProcessChangeCipherSpec(g: Config, s: Script, behind: seq<Record>, c: Server)
    requires Ready(g, s, behind, c) && c.state.ProcessChangeCipherSpec?
    ensures GoesOn(g, s, behind, c, DoProcessChangeCipherSpec(g, c))
  {
    hide *;
    LeadsAll(c.state, s.resumed);
    AllFacts(g, s, behind, c);
    var next: State := ReadNextProto;
    LittleAsked(c.state, c.deal);
    LittleAsked(next, c.deal);
    SealsEmpty(g, s, KeyPlace(s));
    DidProcessChangeCipherSpec(g, s, behind, c, KeyPlace(s));
    Goes(g, s, behind, c, DoProcessChangeCipherSpec(g, c), next);
  }

  lemma SealsEmpty(g: Config, s: Script, k: nat)
    requires Offers(g, s) && k + 4 <= |s.parts| && Seals(g, s, k)
    ensures s.parts[k] == []
  {
  }

  lemma DidProcessChangeCipherSpec(g: Config, s: Script, behind: seq<Record>, c: Server, k: nat)
    requires Offers(g, s) && c.state.ProcessChangeCipherSpec? && c.io.wait.Go? && k == KeyPlace(s)
    requires k < |s.parts| && s.parts[k] == [] && Account(g, s, c, k, 0)
    requires Ending(c.io, Behind(s, k)) && c.io.pending == []
    ensures Did(g, s, behind, c, DoProcessChangeCipherSpec(g, c), ReadNextProto, k + 1, 0)
    ensures DoProcessChangeCipherSpec(g, c).io.wait.Go?
  {
    hide Hashed, Script.Upto, Willing, Script.Spoken;
    Passes(s, k);
    Snoc(c.io.log, ReadKey);
  }

  lemma OnReadNextProto(g: Config, s: Script, behind: seq<Record>, c: Server)
    requires Ready(g, s, behind, c) && c.state.ReadNextProto?
    ensures GoesOn(g, s, behind, c, DoReadNextProto(g, c))
  {
    hide *;
    LeadsAll(c.state, s.resumed);
    AllFacts(g, s, behind, c);
    var next: State := ReadChannelId;
    LittleAsked(c.state, c.deal);
    LittleAsked(next, c.deal);
    if c.hello.Some? && c.hello.value.nextProto && c.io.pending == [] {
      ReadNextProtoWaits(g, c);
      Stays(g, s, behind, c);
    } else {
      DidReadNextProto(g, s, behind, c);
      Goes(g, s, behind, c, DoReadNextProto(g, c), next);
    }
  }

  lemma ReadNextProtoWaits(g: Config, c: Server)
    requires c.state.ReadNextProto? && c.io.pending == [] && c.hello.Some? && c.hello.value.nextProto
    ensures Reads(c) && DoReadNextProto(g, c) == c.(io := Await(c.io))
  {
  }

  lemma ProtoRead(g: Config, c: Server)
    requires c.hello.Some? && c.io.wait.Go? && Willing(c.io.answers, 0)
    requires c.hello.value.nextProto ==>
               c.io.pending != [] && c.io.pending[0].kind == NextProto && g.nextProtoOk(c.io.pending[0])
    ensures var d := DoReadNextProto(g, c);
            if c.hello.value.nextProto then TookPart(c, d, 0) && d.state.ReadChannelId? && d.peer == c.peer
            else d == c.(state := ReadChannelId)
  {
    hide Take, Willing;
    TakeAlso(c.io);
  }

  /** The places behind the client's new key. */
  lemma SealsSaid(g: Config, s: Script)
    requires Offers(g, s) && Seals(g, s, KeyPlace(s))
    ensures var k := KeyPlace(s);
            && s.Valid() && |s.parts| > k + 3
             && s.Who(k + 1).TheClient? && s.Who(k + 2).TheClient? && s.Who(k + 3).TheClient?
            && (if Info(g, s).nextProto
                then |s.parts[k + 1]| == 1 && s.parts[k + 1][0].kind == NextProto && g.nextProtoOk(s.parts[k + 1][0])
                else s.parts[k + 1] == [])
            && (if UsesId(g, s)
                then |s.parts[k + 2]| == 1 && s.parts[k + 2][0].kind == ChannelId
                     && g.channelIdOk(s.Upto(k + 2), s.parts[k + 2][0])
                else s.parts[k + 2] == [])
            && |s.parts[k + 3]| == 1 && s.parts[k + 3][0] == Message(Finished, g.mac(false, s.Upto(k + 3)))
  {
    hide Script.Upto;
  }

  lemma KeyedFacts(g: Config, s: Script, st: State)
    requires s.Valid() && (st.ReadNextProto? || st.ReadChannelId? || st.ReadClientFinished?)
    ensures var next: State := if st.ReadNextProto? then ReadChannelId else if st.ReadChannelId? then ReadClientFinished
                               else if s.resumed then FinishServerHandshake else SendServerFinished;
            Keyed(next, s.resumed) && PeerAt(g, s, next) == PeerAt(g, s, st)
  {
  }

  /** A place that is left out. */
  lemma SkippedLast(g: Config, s: Script, behind: seq<Record>, c: Server, d: Server, next: State, k: nat)
    requires Offers(g, s) && s.Valid() && k < |s.parts| && s.parts[k] == [] && Account(g, s, c, k, 0)
    requires Ending(c.io, Behind(s, k)) && d == c.(state := next) && Keyed(next, s.resumed)
    requires PeerAt(g, s, next) == PeerAt(g, s, c.state)
    requires !c.state.SendServerHello? && !c.state.SendServerKeyExchange? && !next.SendServerKeyExchange?
    ensures Did(g, s, behind, c, d, next, k + 1, 0)
  {
    hide Hashed, Ending, Script.Spoken, Script.Upto, Willing, Offers, PeerAt;
    Passes(s, k);
  }

  lemma DidReadNextProto(g: Config, s: Script, behind: seq<Record>, c: Server)
    requires Offers(g, s) && Seals(g, s, KeyPlace(s)) && c.state.ReadNextProto? && c.io.wait.Go?
    requires Account(g, s, c, KeyPlace(s) + 1, 0) && Ending(c.io, Behind(s, KeyPlace(s) + 1))
    requires c.hello.Some? && c.hello.value.nextProto ==> c.io.pending != []
    ensures Did(g, s, behind, c, DoReadNextProto(g, c), ReadChannelId, KeyPlace(s) + 2, 0)
    ensures DoReadNextProto(g, c).io.wait.Go?
  {
    hide *;
    SealsSaid(g, s);
    var k, d := KeyPlace(s) + 1, DoReadNextProto(g, c);
    AccountFacts(g, s, c, k, 0);
    KeyedFacts(g, s, c.state);
    if c.hello.value.nextProto { PartAtHand(s, behind, c, k); }
    ProtoRead(g, c);
    if c.hello.value.nextProto {
      TookGo(c, d, 0);
      TakenLast(g, s, behind, c, d, ReadChannelId, k);
    } else {
      SkippedLast(g, s, behind, c, d, ReadChannelId, k);
    }
  }

  lemma OnReadChannelId(g: Config, s: Script, behind: seq<Record>, c: Server)
    requires Ready(g, s, behind, c) && c.state.ReadChannelId? && Whole(c.io)
    ensures GoesOn(g, s, behind, c, DoReadChannelId(g, c))
  {
    hide *;
    LeadsAll(c.state, s.resumed);
    AllFacts(g, s, behind, c);
    var next: State := ReadClientFinished;
    LittleAsked(c.state, c.deal);
    LittleAsked(next, c.deal);
    if c.channelId.WithChannelId? && c.io.pending == [] {
      ReadChannelIdWaits(g, c);
      Stays(g, s, behind, c);
    } else {
      DidReadChannelId(g, s, behind, c);
      Goes(g, s, behind, c, DoReadChannelId(g, c), next);
    }
  }

  lemma ReadChannelIdWaits(g: Config, c: Server)
    requires c.state.ReadChannelId? && c.io.pending == [] && c.channelId.WithChannelId?
    ensures Reads(c) && DoReadChannelId(g, c) == c.(io := Await(c.io))
  {
  }

  lemma IdRead(g: Config, c: Server)
    requires c.io.wait.Go? && Willing(c.io.answers, 0) && Whole(c.io)
    requires c.channelId.WithChannelId? ==>
               && c.io.pending != [] && c.io.pending[0].kind == ChannelId
               && g.channelIdOk(Hashed(c.io.log), c.io.pending[0])
    ensures var d := DoReadChannelId(g, c);
            if c.channelId.WithChannelId? then TookPart(c, d, 0) && d.state.ReadClientFinished? && d.peer == c.peer
            else d == c.(state := ReadClientFinished)
  {
    hide Take, Willing, Hashed;
    TakeAlso(c.io);
  }

  lemma DidReadChannelId(g: Config, s: Script, behind: seq<Record>, c: Server)
    requires Offers(g, s) && Seals(g, s, KeyPlace(s)) && c.state.ReadChannelId? && c.io.wait.Go? && Whole(c.io)
    requires Account(g, s, c, KeyPlace(s) + 2, 0) && Ending(c.io, Behind(s, KeyPlace(s) + 2))
    requires c.channelId.WithChannelId? ==> c.io.pending != []
    ensures Did(g, s, behind, c, DoReadChannelId(g, c), ReadClientFinished, KeyPlace(s) + 3, 0)
    ensures DoReadChannelId(g, c).io.wait.Go?
  {
    hide *;
    SealsSaid(g, s);
    var k, d := KeyPlace(s) + 2, DoReadChannelId(g, c);
    AccountFacts(g, s, c, k, 0);
    KeyedFacts(g, s, c.state);
    if c.channelId.WithChannelId? { PartAtHand(s, behind, c, k); }
    IdRead(g, c);
    if c.channelId.WithChannelId? {
      TookGo(c, d, 0);
      TakenLast(g, s, behind, c, d, ReadClientFinished, k);
    } else {
      SkippedLast(g, s, behind, c, d, ReadClientFinished, k);
    }
  }

  lemma OnReadClientFinished(g: Config, s: Script, behind: seq<Record>, c: Server)
    requires Ready(g, s, behind, c) && c.state.ReadClientFinished? && Whole(c.io)
    ensures GoesOn(g, s, behind, c, DoReadClientFinished(g, c))
  {
    hide *;
    LeadsAll(c.state, s.resumed);
    AllFacts(g, s, behind, c);
    var next: State := if s.resumed then FinishServerHandshake else SendServerFinished;
    LittleAsked(c.state, c.deal);
    LittleAsked(next, c.deal);
    if c.io.pending == [] {
      ReadClientFinishedWaits(g, c);
      Stays(g, s, behind, c);
    } else {
      DidReadClientFinished(g, s, behind, c);
      Goes(g, s, behind, c, DoReadClientFinished(g, c), next);
    }
  }

  lemma ReadClientFinishedWaits(g: Config, c: Server)
    requires c.state.ReadClientFinished? && c.io.pending == []
    ensures Reads(c) && DoReadClientFinished(g, c) == c.(io := Await(c.io))
  {
  }

  lemma FinishedRead(g: Config, c: Server)
    requires c.io.wait.Go? && Willing(c.io.answers, 0) && Whole(c.io) && c.io.pending != []
    requires c.io.pending[0] == Message(Finished, g.mac(false, Hashed(c.io.log)))
    ensures var d := DoReadClientFinished(g, c);
            && TookPart(c, d, 0) && d.peer == c.peer
            && d.state == if c.deal.resumed then FinishServerHandshake else SendServerFinished
  {
    hide Take, Willing, Hashed;
    TakeAlso(c.io);
  }

  lemma DidReadClientFinished(g: Config, s: Script, behind: seq<Record>, c: Server)
    requires Offers(g, s) && Seals(g, s, KeyPlace(s)) && c.state.ReadClientFinished? && c.io.wait.Go? && Whole(c.io)
    requires Account(g, s, c, KeyPlace(s) + 3, 0) && Ending(c.io, Behind(s, KeyPlace(s) + 3)) && c.io.pending != []
    requires c.deal.resumed == s.resumed
    ensures var next: State := if s.resumed then FinishServerHandshake else SendServerFinished;
            Did(g, s, behind, c, DoReadClientFinished(g, c), next, KeyPlace(s) + 4, 0)
    ensures DoReadClientFinished(g, c).io.wait.Go?
  {
    hide *;
    SealsSaid(g, s);
    var k, d := KeyPlace(s) + 3, DoReadClientFinished(g, c);
    var next: State := if s.resumed then FinishServerHandshake else SendServerFinished;
    AccountFacts(g, s, c, k, 0);
    KeyedFacts(g, s, c.state);
    PartAtHand(s, behind, c, k);
    FinishedRead(g, c);
    TookGo(c, d, 0);
    TakenLast(g, s, behind, c, d, next, k);
  }

  lemma OnSendServerFinished(g: Config, s: Script, behind: seq<Record>, c: Server)
    requires Ready(g, s, behind, c) && c.state.SendServerFinished? && Whole(c.io)
    ensures GoesOn(g, s, behind, c, DoSendServerFinished(g, c))
  {
    hide *;
    LeadsAll(c.state, s.resumed);
    AllFacts(g, s, behind, c);
    var next: State := if s.resumed then AwaitChangeCipherSpec else FinishServerHandshake;
    LittleAsked(c.state, c.deal);
    LittleAsked(next, c.deal);
    DidSendServerFinished(g, s, behind, c);
    Goes(g, s, behind, c, DoSendServerFinished(g, c), next);
  }

  /** The ticket, if one is due, the new key and Finished are what the script says. */
  lemma FlightSays(g: Config, s: Script, io: Io, k: nat)
    requires Offers(g, s) && k + 3 <= |s.parts| && Confirms(g, s, k) && Whole(io) && Hashed(io.log) == s.Upto(k)
    ensures var b := if TicketDue(g, s) then Emit(io, Message(NewSessionTicket, g.ticket.value)) else io;
            var d := SendFinished(g, ChangeWriteKey(b));
            Hashed(d.log) == s.Upto(k + 3) && Beside(io, d)
  {
    hide Hashed, Emit, Whole, Script.Upto;
    UptoNext(s, k);
    UptoNext(s, k + 1);
    UptoNext(s, k + 2);
    assert s.Upto(k) + [] == s.Upto(k);
    assert s.Upto(k + 1) + [] == s.Upto(k + 1);
    var b := io;
    if TicketDue(g, s) {
      var m := Message(NewSessionTicket, g.ticket.value);
      EmitWhole(io, m);
      EmitBeside(io, m);
      b := Emit(io, m);
    }
    NoteWhole(b, SentChangeCipherSpec);
    NoteWhole(Note(b, SentChangeCipherSpec), WriteKey);
    var keyed := ChangeWriteKey(b);
    WholeDigest(keyed);
    EmitWhole(keyed, Message(Finished, g.mac(true, Digested(keyed))));
    EmitBeside(keyed, Message(Finished, g.mac(true, Digested(keyed))));
  }

  lemma FlightStreams(s: Script, behind: seq<Record>, c: Server, io: Io)
    requires s.Valid() && c.state.SendServerFinished? && c.deal.resumed == s.resumed && Streams(s, behind, c)
    requires io.inbox == c.io.inbox && io.pending == c.io.pending && io.early == c.io.early
    ensures if s.resumed then Coming(io, Due(s, 5), behind) else Ending(io, Behind(s, 17))
  {
    hide Coming, Ending, Script.Spoken;
    if s.resumed {
      DueNext(s, 2);
      DueNext(s, 3);
      DueNext(s, 4);
    } else {
      BehindNext(s, 14);
      BehindNext(s, 15);
      BehindNext(s, 16);
    }
    SameComing(c.io, io, Due(s, 2), behind);
    SameComing(c.io, io, Behind(s, 14), behind);
  }

  lemma SendsFinished(g: Config, c: Server)
    requires c.ticket.TicketExpected? ==> g.ticket.Some?
    ensures var b := if c.ticket.TicketExpected? then Emit(c.io, Message(NewSessionTicket, g.ticket.value)) else c.io;
            DoSendServerFinished(g, c)
            == c.(state := if c.deal.resumed then AwaitChangeCipherSpec else FinishServerHandshake,
                  io := SendFinished(g, ChangeWriteKey(b)).(wait := Flush))
  {
    hide Emit, SendFinished, ChangeWriteKey;
  }

  lemma DidFlight(g: Config, s: Script, behind: seq<Record>, c: Server, d: Server, k: nat)
    requires Offers(g, s) && c.state.SendServerFinished? && c.deal.resumed == s.resumed
    requires k == (if s.resumed then 2 else 14) && Account(g, s, c, k, 0)
    requires d == c.(state := if s.resumed then AwaitChangeCipherSpec else FinishServerHandshake, io := d.io)
    requires Beside(c.io, d.io.(wait := c.io.wait)) && Hashed(d.io.log) == s.Upto(k + 3) && d.io.wait.Flush?
    requires if s.resumed then Coming(d.io, Due(s, 5), behind) else Ending(d.io, Behind(s, 17))
    ensures Did(g, s, behind, c, d, d.state, k + 3, 0)
  {
    hide Hashed, Coming, Ending, Script.Spoken, Script.Upto, Willing;
  }

  lemma DidSendServerFinished(g: Config, s: Script, behind: seq<Record>, c: Server)
    requires Offers(g, s) && c.state.SendServerFinished? && c.io.wait.Go? && Whole(c.io) && c.deal.resumed == s.resumed
    requires var k := if s.resumed then 2 else 14; Confirms(g, s, k) && Account(g, s, c, k, 0)
    requires Streams(s, behind, c)
    ensures var next: State := if s.resumed then AwaitChangeCipherSpec else FinishServerHandshake;
            Did(g, s, behind, c, DoSendServerFinished(g, c), next, if s.resumed then 5 else 17, 0)
    ensures DoSendServerFinished(g, c).io.wait.Flush?
  {
    var k := if s.resumed then 2 else 14;
    AccountFacts(g, s, c, k, 0);
    assert TicketDue(g, s) ==> g.ticket.Some?;
    hide *;
    FlightSays(g, s, c.io, k);
    SendsFinished(g, c);
    var d := DoSendServerFinished(g, c);
    BesideStream(c.io, d.io);
    FlightStreams(s, behind, c, d.io);
    DidFlight(g, s, behind, c, d, k);
  }

  lemma BesideStream(io: Io, next: Io)
    ensures Beside(io, next.(wait := io.wait)) ==>
              next.inbox == io.inbox && next.pending == io.pending && next.early == io.early
    ensures forall b: Io :: Beside(io, b) && next == b.(wait := Flush) ==> Beside(io, next.(wait := io.wait))
  {
  }

  lemma OnFinishServerHandshake(g: Config, s: Script, behind: seq<Record>, c: Server)
    requires Ready(g, s, behind, c) && c.state.FinishServerHandshake?
    ensures GoesOn(g, s, behind, c, DoFinishServerHandshake(g, c))
  {
    hide *;
    LeadsAll(c.state, s.resumed);
    AllFacts(g, s, behind, c);
    var next: State := Done;
    LittleAsked(c.state, c.deal);
    LittleAsked(next, c.deal);
    DidFinishServerHandshake(g, s, behind, c);
    Goes(g, s, behind, c, DoFinishServerHandshake(g, c), next);
  }

  lemma DidFinishServerHandshake(g: Config, s: Script, behind: seq<Record>, c: Server)
    requires Offers(g, s) && c.state.FinishServerHandshake? && c.io.wait.Go? && Account(g, s, c, |s.parts|, 0)
    requires Ending(c.io, Behind(s, |s.parts|))
    ensures Did(g, s, behind, c, DoFinishServerHandshake(g, c), Done, |s.parts|, 0)
    ensures DoFinishServerHandshake(g, c).io.wait.Go?
  {
    hide Hashed, Ending, Script.Upto, Willing, Script.Spoken;
  }

  // ---------------------------------------------------------------- every turn

  /** What the invariant of every run adds. */
  ghost predicate Hashes(c: Server) {
    && (!PreHello(c.state) && !c.state.Tls13? ==> Whole(c.io))
    && (c.state.ReadClientCertificateVerify? && c.peer.Some? ==> c.io.buffer == Some(Hashed(c.io.log)))
  }

  lemma InvHashes(g: Config, c: Server, all: seq<Message>)
    requires Inv(g, c, all)
    ensures Hashes(c)
  {
    hide FactsOf, Hashed, AllLegit, Conserved;
  }

  /** Every state goes on. */
  lemma TurnGoesOn(g: Config, s: Script, behind: seq<Record>, c: Server)
    requires Ready(g, s, behind, c) && Hashes(c) && !c.state.Done?
    ensures GoesOn(g, s, behind, c, Do(g, c))
  {
    OrderFacts(g, s, behind, c);
    assert !c.state.Tls13?;
    hide On, GoesOn, Ready, Offers, Presents, Answers, Confirms, Seals, Whole;
    hide DoStartAccept, DoReadClientHello, DoSelectCertificate, DoSelectParameters, DoSendServerHello,
         DoSendServerCertificate, DoSendServerKeyExchange, DoSendServerHelloDone, DoReadClientCertificate,
         DoVerifyClientCertificate, DoReadClientKeyExchange, DoReadClientCertificateVerify, DoAwaitChangeCipherSpec,
         DoProcessChangeCipherSpec, DoReadNextProto, DoReadChannelId, DoReadClientFinished, DoSendServerFinished,
         DoFinishServerHandshake;
    match c.state
    case StartAccept => OnStartAccept(g, s, behind, c);
    case ReadClientHello => OnReadClientHello(g, s, behind, c);
    case SelectCertificate => OnSelectCertificate(g, s, behind, c);
    case SelectParameters => OnSelectParameters(g, s, behind, c);
    case SendServerHello => OnSendServerHello(g, s, behind, c);
    case SendServerCertificate => OnSendServerCertificate(g, s, behind, c);
    case SendServerKeyExchange => OnSendServerKeyExchange(g, s, behind, c);
    case SendServerHelloDone => OnSendServerHelloDone(g, s, behind, c);
    case ReadClientCertificate => OnReadClientCertificate(g, s, behind, c);
    case VerifyClientCertificate => OnVerifyClientCertificate(g, s, behind, c);
    case ReadClientKeyExchange => OnReadClientKeyExchange(g, s, behind, c);
    case ReadClientCertificateVerify => OnReadClientCertificateVerify(g, s, behind, c);
    case AwaitChangeCipherSpec => OnAwaitChangeCipherSpec(g, s, behind, c);
    case ProcessChangeCipherSpec => OnProcessChangeCipherSpec(g, s, behind, c);
    case ReadNextProto => OnReadNextProto(g, s, behind, c);
    case ReadChannelId => OnReadChannelId(g, s, behind, c);
    case ReadClientFinished => OnReadClientFinished(g, s, behind, c);
    case SendServerFinished => OnSendServerFinished(g, s, behind, c);
    case FinishServerHandshake => OnFinishServerHandshake(g, s, behind, c);
    case Tls13 =>
    case Done =>
  }

  /** A state that waits for a message is due one. */
  lemma MessageDue(g: Config, s: Script, behind: seq<Record>, c: Server)
    requires InOrder(g, s) && On(g, s, behind, c) && Reads(c)
    ensures c.state.ReadClientHello? ==> Due(s, 0) != []
    ensures !c.state.ReadClientHello? ==> At(c.state, c.deal) < |s.parts|
    ensures !c.state.ReadClientHello? && !Keyed(c.state, s.resumed) ==> Due(s, At(c.state, c.deal)) != []
    ensures Keyed(c.state, s.resumed) ==> Behind(s, At(c.state, c.deal)) != []
    ensures !c.state.ProcessChangeCipherSpec?
  {
    if c.state.ReadClientHello? {
      DueNext(s, 0);
    } else {
      IsHere(g, s, behind, c);
      AccountFacts(g, s, c, At(c.state, c.deal), Calls(c.state));
      PartSaid(g, s, c);
      var k := At(c.state, c.deal);
      hide *;
      if k < KeyPlace(s) { DueNext(s, k); }
      BehindNext(s, k);
    }
  }

  /** The place of a state that needs a message has one. */
  lemma PartSaid(g: Config, s: Script, c: Server)
    requires InOrder(g, s) && !PreHello(c.state) && Reads(c) && c.deal == DealOf(g, s) && c.hello == Some(Info(g, s))
    requires c.channelId.WithChannelId? <==> if c.state.SendServerHello? then Info(g, s).channelId else UsesId(g, s)
    requires c.peer == PeerAt(g, s, c.state) && (s.resumed ==> ResumedState(c.state))
    ensures var k := At(c.state, c.deal);
            && k < |s.parts| && s.Who(k).TheClient? && s.parts[k] != []
            && (Keyed(c.state, s.resumed) <==> k >= KeyPlace(s))
    ensures !c.state.ProcessChangeCipherSpec?
  {
    LittleAsked(c.state, c.deal);
    assert s.Valid() && c.deal.resumed == s.resumed;
    if c.state.ReadNextProto? || c.state.ReadChannelId? || c.state.ReadClientFinished? {
      hide Presents, Answers, Confirms, Seals, At, Calls, DealOf, UsesId, PeerAt;
      SealsSaid(g, s);
    } else {
      hide Presents, Answers, Confirms, Seals, At, Calls, UsesId, PeerAt;
      CertificateSaid(g, s);
      ExchangeSaid(g, s);
      ProofSaid(g, s);
    }
  }

  lemma SameAccount(g: Config, s: Script, behind: seq<Record>, c: Server, d: Server)
    requires Offers(g, s) && On(g, s, behind, c) && !PreHello(c.state)
    requires d == c.(io := d.io) && d.io.log == c.io.log && d.io.answers == c.io.answers && Waits(d)
    requires Streams(s, behind, d)
    ensures On(g, s, behind, d)
  {
    hide Streams, Hashed, Willing, Script.Upto, Offers;
  }

  lemma SameEarly(g: Config, s: Script, behind: seq<Record>, c: Server, d: Server)
    requires Offers(g, s) && On(g, s, behind, c) && PreHello(c.state)
    requires d == c.(io := d.io) && d.io.log == c.io.log && d.io.answers == c.io.answers && Waits(d)
    requires Coming(d.io, Due(s, 0), behind) && (c.io.pending != [] ==> d.io.pending != [])
    ensures On(g, s, behind, d)
  {
    hide Coming, Hashed, Willing, Script.Upto, Offers;
  }

  function Weight(c: Server): nat {
    if c.io.wait.Flush? then 2 else if c.io.wait.Go? then 1 else 0
  }

  /** One turn nearer to the end. */
  predicate Nearer(s: Script, c: Server, d: Server) {
    || |d.io.inbox| < |c.io.inbox|
    || (|d.io.inbox| == |c.io.inbox|
        && (Order(d.state, s.resumed) > Order(c.state, s.resumed)
            || (Order(d.state, s.resumed) == Order(c.state, s.resumed)
                && (|d.io.flushes| < |c.io.flushes|
                    || (|d.io.flushes| == |c.io.flushes| && Weight(d) < Weight(c))))))
  }

  lemma MessageArrives(g: Config, s: Script, behind: seq<Record>, c: Server)
    requires InOrder(g, s) && On(g, s, behind, c) && c.io.wait.ReadMessage?
    ensures var d := c.(io := Resolve(c.io));
            && On(g, s, behind, d) && |d.io.inbox| < |c.io.inbox|
  {
    MessageDue(g, s, behind, c);
    var d := c.(io := Resolve(c.io));
    if PreHello(c.state) {
      ComingFetch(c.io, Due(s, 0), behind);
      SameEarly(g, s, behind, c, d);
    } else {
      IsHere(g, s, behind, c);
      hide Coming, Ending, On, Offers;
      if Keyed(c.state, s.resumed) {
        EndingFetch(c.io, Behind(s, At(c.state, c.deal)));
      } else {
        ComingFetch(c.io, Due(s, At(c.state, c.deal)), behind);
      }
      SameAccount(g, s, behind, c, d);
    }
  }

  lemma KeyArrives(g: Config, s: Script, behind: seq<Record>, c: Server)
    requires Offers(g, s) && On(g, s, behind, c) && c.io.wait.ReadChangeCipherSpec? && Full(behind)
    ensures var d := c.(io := Resolve(c.io));
            && On(g, s, behind, d) && |d.io.inbox| < |c.io.inbox|
  {
    IsHere(g, s, behind, c);
    var d := c.(io := Resolve(c.io));
    ComingKey(c.io, behind);
    hide Coming, Ending, On, Offers, Arriving;
    SameAccount(g, s, behind, c, d);
  }

  lemma FlushGoesOn(g: Config, s: Script, behind: seq<Record>, c: Server)
    requires Offers(g, s) && On(g, s, behind, c) && c.io.wait.Flush?
    ensures var d := c.(io := Resolve(c.io));
            On(g, s, behind, d) && Nearer(s, c, d)
  {
    var d := c.(io := Resolve(c.io));
    SameComing(c.io, d.io, Due(s, 0), behind);
    if PreHello(c.state) {
      SameEarly(g, s, behind, c, d);
    } else {
      IsHere(g, s, behind, c);
      SameStreams(s, behind, c, d);
      SameAccount(g, s, behind, c, d);
    }
  }

  lemma SameStreams(s: Script, behind: seq<Record>, c: Server, d: Server)
    requires s.Valid() && Streams(s, behind, c) && d == c.(io := d.io)
    requires c.io.wait.Flush? && !d.io.wait.ReadChangeCipherSpec?
    requires d.io.inbox == c.io.inbox && d.io.pending == c.io.pending && d.io.early == c.io.early
    ensures Streams(s, behind, d)
  {
    hide Coming, Ending, Script.Spoken;
    SameComing(c.io, d.io, Due(s, At(c.state, c.deal)), behind);
    SameComing(c.io, d.io, Behind(s, At(c.state, c.deal)), behind);
    SameComing(c.io, d.io, Arriving(behind), behind);
  }

  lemma OneTurn(g: Config, s: Script, behind: seq<Record>, c: Server, all: seq<Message>)
    requires InOrder(g, s) && Full(behind) && Arriving(behind) == Behind(s, KeyPlace(s)) && On(g, s, behind, c)
    requires Inv(g, c, all) && !c.state.Done?
    ensures var d := TlsServer.Step(g, c); On(g, s, behind, d) && Inv(g, d, all) && Nearer(s, c, d)
  {
    InvHashes(g, c, all);
    KeepStep(g, c, all);
    WaitsAre(g, s, behind, c);
    hide InOrder, On, Inv, Hashes, Do, Resolve, Order, Offers;
    if c.io.wait.Go? {
      assert Ready(g, s, behind, c);
      TurnGoesOn(g, s, behind, c);
      GoesNearer(g, s, behind, c, Do(g, c));
    } else if c.io.wait.Flush? {
      FlushGoesOn(g, s, behind, c);
    } else if c.io.wait.ReadMessage? {
      MessageArrives(g, s, behind, c);
    } else {
      KeyArrives(g, s, behind, c);
    }
  }

  lemma WaitsAre(g: Config, s: Script, behind: seq<Record>, c: Server)
    requires InOrder(g, s) && On(g, s, behind, c)
    ensures Offers(g, s)
    ensures c.io.wait.Go? || c.io.wait.Flush? || c.io.wait.ReadMessage? || c.io.wait.ReadChangeCipherSpec?
  {
  }

  lemma GoesNearer(g: Config, s: Script, behind: seq<Record>, c: Server, d: Server)
    requires Offers(g, s) && GoesOn(g, s, behind, c, d)
    ensures On(g, s, behind, d) && Nearer(s, c, d)
  {
    hide Offers, On, Order;
  }

  /** From anywhere in the script to its end. */
  lemma {:induction false} GetsDone(g: Config, s: Script, behind: seq<Record>, c: Server, all: seq<Message>)
    returns (n: nat)
    requires InOrder(g, s) && Full(behind) && Arriving(behind) == Behind(s, KeyPlace(s)) && On(g, s, behind, c)
    requires Inv(g, c, all)
    ensures Run(g, c, n).state.Done? && On(g, s, behind, Run(g, c, n))
    decreases |c.io.inbox|, 30 - Order(c.state, s.resumed), |c.io.flushes|, Weight(c)
  {
    hide InOrder, On, Inv, TlsServer.Step, Order, Weight, Full, Arriving, Behind;
    n := 0;
    if !c.state.Done? {
      var d := TlsServer.Step(g, c);
      OneTurn(g, s, behind, c, all);
      OrderBound(d.state, s.resumed);
      var k := GetsDone(g, s, behind, d, all);
      RunLater(g, c, k);
      n := k + 1;
    }
  }

  lemma OrderBound(st: State, resumed: bool)
    ensures Order(st, resumed) <= 19
  {
  }

  lemma {:induction false} RunLater(g: Config, c: Server, n: nat)
    ensures Run(g, c, n + 1) == Run(g, TlsServer.Step(g, c), n)
  {
    hide TlsServer.Step;
    if n > 0 { RunLater(g, c, n - 1); }
  }

  /**
  A server completes every handshake that is in order: with what the client says on its way in any records, in order
  and with the ChangeCipherSpec in its place, an application that agrees, and any flushes failing, it is done after
  some turns, and its transcript is the whole script.
  */
  lemma Completes(g: Config, s: Script, front: seq<Record>, behind: seq<Record>, answers: seq<Answer>,
                  flushes: seq<bool>)
    requires InOrder(g, s) && Full(front) && Full(behind) && Willing(answers, 6)
    requires Arriving(front) == Due(s, 0) && Arriving(behind) == Behind(s, KeyPlace(s))
    ensures exists n :: var c := Run(g, New(g, front + [ChangeCipherSpec] + behind, answers, flushes), n);
              c.state.Done? && Hashed(c.io.log) == s.Whole()
  {
    var c := New(g, front + [ChangeCipherSpec] + behind, answers, flushes);
    BeginsOn(g, s, front, behind, answers, flushes);
    KeepRun(g, front + [ChangeCipherSpec] + behind, answers, flushes, 0);
    hide InOrder, Inv, On, New, TlsServer.Step, Due, Behind;
    var n := GetsDone(g, s, behind, c, Arriving(front + [ChangeCipherSpec] + behind));
    DoneWhole(g, s, behind, Run(g, c, n));
  }

  lemma BeginsOn(g: Config, s: Script, front: seq<Record>, behind: seq<Record>, answers: seq<Answer>,
                 flushes: seq<bool>)
    requires Offers(g, s) && Full(front) && Willing(answers, 6) && Arriving(front) == Due(s, 0)
    ensures On(g, s, behind, New(g, front + [ChangeCipherSpec] + behind, answers, flushes))
  {
    hide Arriving, Script.Spoken, Willing;
    var inbox := front + [ChangeCipherSpec] + behind;
    assert inbox[..|front|] == front && inbox[|front| + 1..] == behind;
    assert [] + Arriving(front) == Arriving(front);
  }

  lemma DoneWhole(g: Config, s: Script, behind: seq<Record>, c: Server)
    requires InOrder(g, s) && On(g, s, behind, c) && c.state.Done?
    ensures Hashed(c.io.log) == s.Whole()
  {
    IsHere(g, s, behind, c);
    LittleAsked(c.state, c.deal);
    AccountFacts(g, s, c, At(c.state, c.deal), 0);
  }
}
