/**
A client completes every handshake that is in order: with the messages of a proper server on their way, in whatever
records, it gets to the end, and its transcript is the whole script.
*/
module TlsClientComplete {
  import opened Wire
  import opened TlsHandshake
  import opened TlsFlow
  import opened TlsScript
  import opened TlsClient
  import opened TlsClientFlow

  // ---------------------------------------------------------------- a script that is in order for a client

  /** The hellos: what the client says first, and what the ServerHello says. */
  ghost predicate Greets(g: Config, verify: Option<Message>, s: Script) {
    && s.Valid() && !g.earlyData
    && (verify.Some? ==> g.dtls && verify.value.kind == HelloVerifyRequest && g.cookieOk(verify.value))
    && s.parts[0] == [Message(ClientHello, if verify.Some? then g.secondHello(verify.value) else g.hello)]
    && IsOne(s.parts[1], ServerHello) && g.parseHello(s.parts[1][0]).Some?
    && Agrees(g, s, g.parseHello(s.parts[1][0]).value)
  }

  predicate Agrees(g: Config, s: Script, h: HelloInfo) {
    && !h.version13 && h.acceptable && (h.certificateStatus ==> h.cipher.certAuth)
    && (s.resumed <==> g.session && g.established.None? && h.sameSession)
  }

  function Info(g: Config, s: Script): HelloInfo
    requires |s.parts| > 1 && s.parts[1] != [] && g.parseHello(s.parts[1][0]).Some?
  {
    g.parseHello(s.parts[1][0]).value
  }

  /** The chain is the established one, or the callback will take it, or it is trusted. */
  predicate Trustworthy(g: Config, cert: Message) {
    && (g.established.Some? ==> g.established.value == cert)
    && (g.established.None? && !g.customVerify ==> g.chainTrusted(cert))
  }

  /** The server's part of a full handshake behind its hello. */
  predicate Presents(g: Config, s: Script, h: HelloInfo)
    requires s.Valid() && !s.resumed
  {
    && (if h.cipher.certAuth
        then IsOne(s.parts[2], Certificate) && g.chainOk(s.parts[2][0]) && Trustworthy(g, s.parts[2][0])
        else s.parts[2] == [])
    && (s.parts[3] != [] ==>
          h.certificateStatus && IsOne(s.parts[3], CertificateStatus) && g.statusOk(s.parts[3][0]))
    && (if s.parts[4] == [] then !h.cipher.kx.Ecdhe?
        else
          && IsOne(s.parts[4], ServerKeyExchange) && !h.cipher.kx.Rsa? && g.exchangeOk(h.cipher, s.parts[4][0])
          && (h.cipher.certAuth ==> g.exchangeSigned(s.parts[2][0], s.parts[4][0])))
    && (s.parts[5] != [] ==>
          h.cipher.certAuth && IsOne(s.parts[5], CertificateRequest) && g.requestOk(s.parts[5][0]) && g.certificateFits)
    && s.parts[6] == [Message(ServerHelloDone, [])]
  }

  /** What the client answers to that. */
  predicate Answers(g: Config, s: Script)
    requires s.Valid() && !s.resumed
  {
    && s.parts[7] == (if s.parts[5] != [] then [Message(Certificate, g.certificate)] else [])
    && g.keyExchange.Some? && s.parts[8] == [Message(ClientKeyExchange, g.keyExchange.value)]
    && (if s.parts[5] != [] && g.hasCertificate
        then g.sign(s.Upto(9)).Some? && s.parts[9] == [Message(CertificateVerify, g.sign(s.Upto(9)).value)]
        else s.parts[9] == [])
  }

  /** The client's new key and what follows it, from place `k` on. */
  predicate Seals(g: Config, s: Script, h: HelloInfo, k: nat)
    requires k + 4 <= |s.parts|
  {
    && s.parts[k] == []
    && s.parts[k + 1] == (if h.nextProto then [Message(NextProto, g.nextProtocol)] else [])
    && s.parts[k + 2] == (if h.channelId then [Message(ChannelId, g.channelIdProof(s.Upto(k + 2)))] else [])
    && s.parts[k + 3] == [Message(Finished, g.mac(false, s.Upto(k + 3)))]
  }

  /** The server's ticket, its new key and Finished, from place `k` on. */
  predicate Confirms(g: Config, s: Script, h: HelloInfo, k: nat)
    requires k + 3 <= |s.parts|
  {
    && (if h.ticket then IsOne(s.parts[k], NewSessionTicket) && !g.parseTicket(s.parts[k][0]).BadTicket?
        else s.parts[k] == [])
    && s.parts[k + 1] == []
    && s.parts[k + 2] == [Message(Finished, g.mac(true, s.Upto(k + 2)))]
  }

  /** A handshake that is in order. */
  ghost predicate InOrder(g: Config, verify: Option<Message>, s: Script) {
    && Greets(g, verify, s)
    && var h := Info(g, s);
       if s.resumed then Confirms(g, s, h, 2) && Seals(g, s, h, 5)
       else Presents(g, s, h) && Answers(g, s) && Seals(g, s, h, 10) && Confirms(g, s, h, 14)
  }

  // ---------------------------------------------------------------- where a client is in its script

  /** Where the server's new key comes. */
  function KeyPlace(s: Script): nat {
    if s.resumed then 3 else 15
  }

  /** What is still to come from the server before its new key. */
  function Due(s: Script, k: nat): seq<Message>
    requires s.Valid()
  {
    s.Spoken(TheServer, k, KeyPlace(s))
  }

  function Cookie(verify: Option<Message>): seq<Message> {
    if verify.Some? then [verify.value] else []
  }

  predicate Starting(s: State) {
    s.StartConnect? || s.EnterEarlyData? || s.ReadHelloVerifyRequest?
  }

  function Said(g: Config, s: Script, c: Client): seq<Message>
    requires s.Valid() && At(c.state, c.deal) <= |s.parts|
  {
    if c.state.StartConnect? then []
    else if Starting(c.state) then [Message(ClientHello, g.hello)]
    else s.Upto(At(c.state, c.deal))
  }

  /** The server's Finished has been taken. */
  predicate Finishing(s: State, resumed: bool) {
    s.FinishClientHandshake? || s.Done? || (resumed && (s.SendClientFinished? || s.FinishFlight?))
  }

  ghost predicate Streams(verify: Option<Message>, s: Script, behind: seq<Record>, c: Client)
    requires s.Valid()
  {
    if Starting(c.state) then Coming(c.io, Cookie(verify) + Due(s, 1), behind)
    else if c.state.ProcessChangeCipherSpec? then
      if c.io.wait.ReadChangeCipherSpec? then Coming(c.io, [], behind)
      else Ending(c.io, Arriving(behind)) && c.io.pending == []
    else if c.state.ReadServerFinished? then Ending(c.io, Arriving(behind))
    else if Finishing(c.state, s.resumed) then Ending(c.io, [])
    else Coming(c.io, Due(s, At(c.state, c.deal)), behind)
  }

  /** How often the application may still be asked. */
  function Calls(s: State, resumed: bool): nat {
    if s.FinishFlight? || s.FinishClientHandshake? || s.Done? then 0
    else if resumed || s.SendClientFinished? then 1
    else if s.ReadSessionTicket? || s.ProcessChangeCipherSpec? || s.ReadServerFinished? then 0
    else if s.SendClientCertificateVerify? || s.SendClientKeyExchange? then 2
    else if PreHello(s) || s.ReadServerCertificate? || s.ReadCertificateStatus? || s.VerifyServerCertificate? then 4
    else 3
  }

  /** A state that needs a message. */
  predicate Reads(c: Client) {
    || c.state.ReadHelloVerifyRequest? || c.state.ReadServerHello?
    || (c.state.ReadServerCertificate? && c.deal.cipher.certAuth)
    || (c.state.ReadCertificateStatus? && c.deal.certificateStatus)
    || c.state.ReadServerKeyExchange? || (c.state.ReadCertificateRequest? && c.deal.cipher.certAuth)
    || c.state.ReadServerHelloDone? || (c.state.ReadSessionTicket? && c.ticket.TicketExpected?)
    || c.state.ReadServerFinished?
  }

  predicate Waits(c: Client) {
    || c.io.wait.Go? || c.io.wait.Flush? || c.io.wait.EarlyReturn?
    || (c.io.wait.ReadMessage? && c.io.pending == [] && Reads(c))
    || (c.io.wait.ReadChangeCipherSpec? && c.state.ProcessChangeCipherSpec?)
  }

  predicate BeforeTicket(s: State, resumed: bool) {
    if resumed then s.ReadSessionTicket?
    else !s.ProcessChangeCipherSpec? && !s.ReadServerFinished? && !s.FinishClientHandshake? && !s.Done?
  }

  ghost predicate Settled(g: Config, s: Script, c: Client)
    requires s.Valid() && s.parts[1] != [] && g.parseHello(s.parts[1][0]).Some?
  {
    var h := Info(g, s);
    && (if Negotiated(c.state)
        then c.deal == Deal(s.resumed, h.cipher, h.certificateStatus, h.nextProto, h.channelId)
        else !c.deal.resumed && c.peer.None? && c.request.None?)
    && (Negotiated(c.state) && BeforeTicket(c.state, s.resumed) ==> (c.ticket.TicketExpected? <==> h.ticket))
    && (PastCertificate(c.state, c.deal) && h.cipher.certAuth ==> s.parts[2] != [] && c.peer == Some(s.parts[2][0]))
    && (if PastCertificate(c.state, c.deal) && !BeforeRequest(c.state)
        then c.request == if s.parts[5] != [] then Some(s.parts[5][0]) else None
        else c.request.None?)
    && (s.resumed && Negotiated(c.state) ==> ResumedState(c.state))
  }

  /** The client is where the script has it. */
  ghost predicate On(g: Config, verify: Option<Message>, s: Script, behind: seq<Record>, c: Client)
    requires Greets(g, verify, s)
  {
    && !c.state.Tls13? && Waits(c) && Settled(g, s, c)
    && At(c.state, c.deal) <= |s.parts| && Hashed(c.io.log) == Said(g, s, c)
    && Streams(verify, s, behind, c)
    && Willing(c.io.answers, Calls(c.state, s.resumed && Negotiated(c.state)))
  }

  // ---------------------------------------------------------------- what is due

  lemma DueNext(s: Script, k: nat)
    requires s.Valid() && k < KeyPlace(s)
    ensures Due(s, k) == (if s.Who(k).TheServer? then s.parts[k] else []) + Due(s, k + 1)
    ensures Due(s, KeyPlace(s)) == []
  {
  }

  /** Place `k` is the server's, and has a message: it is the next one due. */
  lemma Hears(io: Io, s: Script, k: nat, m: Message, behind: seq<Record>)
    requires s.Valid() && k < KeyPlace(s) && s.Who(k).TheServer? && s.parts[k] == [m]
    requires Coming(io, Due(s, k), behind)
    ensures Due(s, k) != []
    ensures io.pending != [] ==>
              && io.pending[0] == m
              && forall next: Io :: next.inbox == io.inbox && next.pending == io.pending[1..] && next.early == io.early
                   ==> Coming(next, Due(s, k + 1), behind)
    ensures s.Upto(k + 1) == s.Upto(k) + [m]
    ensures Hashed(io.log + [Took(m)]) == Hashed(io.log) + [m]
  {
    hide Coming, Hashed;
    DueNext(s, k);
    UptoNext(s, k);
    assert Due(s, k)[1..] == Due(s, k + 1);
    Snoc(io.log, Took(m));
    if io.pending != [] { ComingNext(io, Due(s, k), behind); }
  }

  /** Nothing is said at place `k`, or nothing by the server. */
  lemma Passes(s: Script, k: nat)
    requires s.Valid() && k < KeyPlace(s) && (s.Who(k).TheClient? || s.parts[k] == [])
    ensures Due(s, k) == Due(s, k + 1)
    ensures s.parts[k] == [] ==> s.Upto(k + 1) == s.Upto(k)
  {
    DueNext(s, k);
    UptoNext(s, k);
  }

  // ---------------------------------------------------------------- each state goes on

  /** A state has come further, or waits for a message that is still to come. */
  ghost predicate GoesOn(g: Config, verify: Option<Message>, s: Script, behind: seq<Record>, c: Client, d: Client)
    requires Greets(g, verify, s)
  {
    && On(g, verify, s, behind, d)
    && d.io.inbox == c.io.inbox && d.io.flushes == c.io.flushes
    && if d.state == c.state then d.io.wait.ReadMessage? && c.io.wait.Go?
       else Order(d.state, s.resumed) > Order(c.state, s.resumed)
  }

  function Order(s: State, resumed: bool): nat {
    match s
    case StartConnect => 0
    case EnterEarlyData => 1
    case ReadHelloVerifyRequest => 2
    case ReadServerHello => 3
    case Tls13 => 4
    case ReadServerCertificate => 4
    case ReadCertificateStatus => 5
    case VerifyServerCertificate => 6
    case ReadServerKeyExchange => 7
    case ReadCertificateRequest => 8
    case ReadServerHelloDone => 9
    case SendClientCertificate => 10
    case SendClientKeyExchange => 11
    case SendClientCertificateVerify => 12
    case SendClientFinished => if resumed then 18 else 13
    case FinishFlight => if resumed then 19 else 14
    case ReadSessionTicket => 15
    case ProcessChangeCipherSpec => 16
    case ReadServerFinished => 17
    case FinishClientHandshake => 20
    case Done => 21
  }

  /** Before the ServerHello, `said` is the transcript and `due` is to come. */
  ghost predicate Begun(behind: seq<Record>, c: Client, said: seq<Message>, due: seq<Message>) {
    && !c.deal.resumed && c.peer.None? && c.request.None?
    && Hashed(c.io.log) == said && Coming(c.io, due, behind) && Willing(c.io.answers, 4)
  }

  function EarlySaid(g: Config, s: Script, st: State): seq<Message>
    requires s.Valid()
  {
    if st.StartConnect? then [] else if st.ReadServerHello? then s.parts[0] else [Message(ClientHello, g.hello)]
  }

  function EarlyDue(verify: Option<Message>, s: Script, st: State): seq<Message>
    requires s.Valid()
  {
    if st.ReadServerHello? then Due(s, 1) else Cookie(verify) + Due(s, 1)
  }

  lemma IsBegun(g: Config, verify: Option<Message>, s: Script, behind: seq<Record>, c: Client)
    requires Greets(g, verify, s) && On(g, verify, s, behind, c) && PreHello(c.state)
    ensures Begun(behind, c, EarlySaid(g, s, c.state), EarlyDue(verify, s, c.state))
  {
    hide Hashed, Coming, Script.Spoken, Willing;
    assert s.Upto(1) == s.Upto(0) + s.parts[0];
    assert [] + s.parts[0] == s.parts[0];
  }

  lemma BegunOn(g: Config, verify: Option<Message>, s: Script, behind: seq<Record>, c: Client)
    requires Greets(g, verify, s) && PreHello(c.state) && Waits(c)
    requires Begun(behind, c, EarlySaid(g, s, c.state), EarlyDue(verify, s, c.state))
    ensures On(g, verify, s, behind, c)
  {
    hide Hashed, Coming, Script.Spoken, Willing;
    assert s.Upto(1) == s.Upto(0) + s.parts[0];
    assert [] + s.parts[0] == s.parts[0];
  }

  lemma BeginsStartConnect(g: Config, behind: seq<Record>, c: Client, due: seq<Message>)
    requires Begun(behind, c, [], due)
    ensures Begun(behind, DoStartConnect(g, c), [Message(ClientHello, g.hello)], due)
  {
    hide Hashed, Emit, Coming, Willing;
    var m := Message(ClientHello, g.hello);
    EmitLog(c.io, m);
    EmitAside(c.io, m, due, behind);
    Snoc(c.io.log, Sent(m));
    assert [] + [m] == [m];
  }

  lemma BeginsReadHelloVerifyRequest(g: Config, verify: Option<Message>, s: Script, behind: seq<Record>, c: Client)
    requires Greets(g, verify, s) && c.io.pending != []
    requires Begun(behind, c, [Message(ClientHello, g.hello)], Cookie(verify) + Due(s, 1))
    ensures DoReadHelloVerifyRequest(g, c).state.ReadServerHello?
    ensures Begun(behind, DoReadHelloVerifyRequest(g, c), s.parts[0], Due(s, 1))
  {
    hide Hashed, Coming, Emit, Script.Spoken, Willing;
    ComingNext(c.io, Cookie(verify) + Due(s, 1), behind);
    if verify.Some? {
      var m := Message(ClientHello, g.secondHello(verify.value));
      assert ([verify.value] + Due(s, 1))[1..] == Due(s, 1);
      var r := Restarting(c.io);
      assert Coming(r, Due(s, 1), behind);
      EmitLog(r, m);
      EmitAside(r, m, Due(s, 1), behind);
      RestartHash(c.io.log, verify.value, m);
    } else {
      assert [] + Due(s, 1) == Due(s, 1);
      DueNext(s, 1);
    }
  }

  lemma RestartHash(log: seq<Event>, v: Message, m: Message)
    ensures Hashed(log + [Dropped(v)] + [Restart] + [Sent(m)]) == [m]
  {
    hide Hashed;
    Snoc(log + [Dropped(v)], Restart);
    Snoc(log + [Dropped(v)] + [Restart], Sent(m));
  }

  /** The client after the ServerHello. */
  lemma TakesHello(g: Config, verify: Option<Message>, s: Script, behind: seq<Record>, c: Client)
    requires Greets(g, verify, s) && c.io.pending != [] && Begun(behind, c, s.parts[0], Due(s, 1))
    ensures var d, h := DoReadServerHello(g, c), Info(g, s);
            && d.state == (if s.resumed then ReadSessionTicket else ReadServerCertificate)
            && d.deal == Deal(s.resumed, h.cipher, h.certificateStatus, h.nextProto, h.channelId)
            && (d.ticket.TicketExpected? <==> h.ticket) && d.peer == c.peer && d.request == c.request
            && Hashed(d.io.log) == s.Upto(2) && Coming(d.io, Due(s, 2), behind) && d.io.answers == c.io.answers
            && d.io.wait == c.io.wait && d.io.inbox == c.io.inbox && d.io.flushes == c.io.flushes
  {
    hide Hashed, Coming, Take, Script.Spoken;
    var m := s.parts[1][0];
    assert s.parts[1] == [m];
    Hears(c.io, s, 1, m, behind);
    assert s.Upto(1) == s.Upto(0) + s.parts[0];
    assert [] + s.parts[0] == s.parts[0];
    hide Script.Upto;
    TakeAlso(InitHash(c.io));
    TakenComing(InitHash(c.io), Due(s, 2), behind);
    FreeWait(Take(InitHash(c.io)));
  }

  // ---------------------------------------------------------------- the full handshake

  /** The next message due from the server's hello on is of a later kind. */
  lemma LaterKinds(g: Config, s: Script, h: HelloInfo)
    requires s.Valid() && !s.resumed && Presents(g, s, h)
    ensures Due(s, 6) != [] && Due(s, 6)[0].kind == ServerHelloDone
    ensures Due(s, 5) != [] && (Due(s, 5)[0].kind == ServerHelloDone || Due(s, 5)[0].kind == CertificateRequest)
    ensures Due(s, 4) != [] && Due(s, 4)[0].kind != CertificateStatus
    ensures s.parts[4] == [] ==> Due(s, 4)[0].kind != ServerKeyExchange
    ensures s.parts[5] == [] ==> Due(s, 5)[0].kind == ServerHelloDone
  {
    hide Script.Spoken;
    DueNext(s, 6);
    DueNext(s, 5);
    DueNext(s, 4);
  }

  /** States of a full handshake between the server's hello and the client's new key. */
  predicate Middle(s: State) {
    BeforeRequest(s) || s.ReadServerHelloDone? || s.SendClientCertificate? || s.SendClientKeyExchange?
    || s.SendClientCertificateVerify? || s.SendClientFinished?
  }

  /** A client in the middle of a full handshake, where the script has it: `k` places are done. */
  ghost predicate Mid(g: Config, s: Script, behind: seq<Record>, c: Client, k: nat, calls: nat)
    requires s.Valid() && !s.resumed && s.parts[1] != [] && g.parseHello(s.parts[1][0]).Some? && k <= 10
  {
    var h := Info(g, s);
    && c.deal == Deal(false, h.cipher, h.certificateStatus, h.nextProto, h.channelId)
    && (c.ticket.TicketExpected? <==> h.ticket)
    && (k > 2 && h.cipher.certAuth ==> s.parts[2] != [] && c.peer == Some(s.parts[2][0]))
    && c.request == (if k > 5 && s.parts[5] != [] then Some(s.parts[5][0]) else None)
    && Hashed(c.io.log) == s.Upto(k) && Coming(c.io, Due(s, k), behind) && Willing(c.io.answers, calls)
  }

  lemma IsMid(g: Config, verify: Option<Message>, s: Script, behind: seq<Record>, c: Client)
    requires Greets(g, verify, s) && !s.resumed && On(g, verify, s, behind, c) && Middle(c.state)
    ensures At(c.state, c.deal) <= 10 && Mid(g, s, behind, c, At(c.state, c.deal), Calls(c.state, false))
  {
    hide Hashed, Coming, Script.Spoken, Script.Upto, Willing;
  }

  lemma MidOn(g: Config, verify: Option<Message>, s: Script, behind: seq<Record>, c: Client, k: nat)
    requires Greets(g, verify, s) && !s.resumed && Middle(c.state) && !c.deal.resumed && k == At(c.state, c.deal) <= 10
    requires Waits(c) && Mid(g, s, behind, c, k, Calls(c.state, false))
    ensures On(g, verify, s, behind, c)
  {
    hide Hashed, Coming, Script.Spoken, Script.Upto, Willing;
  }

  /** From one middle state to the next. */
  lemma Moves(g: Config, verify: Option<Message>, s: Script, behind: seq<Record>, c: Client, d: Client, k: nat)
    requires Greets(g, verify, s) && !s.resumed && Middle(d.state) && !d.deal.resumed && k == At(d.state, d.deal) <= 10
    requires d.io.wait.Go? && Order(d.state, false) > Order(c.state, false)
    requires d.io.inbox == c.io.inbox && d.io.flushes == c.io.flushes
    requires Mid(g, s, behind, d, k, Calls(d.state, false))
    ensures GoesOn(g, verify, s, behind, c, d)
  {
    hide Mid, On;
    MidOn(g, verify, s, behind, d, k);
  }

  /** A state that waits for its message. */
  lemma Stays(g: Config, verify: Option<Message>, s: Script, behind: seq<Record>, c: Client)
    requires Greets(g, verify, s) && On(g, verify, s, behind, c) && c.io.wait.Go? && c.io.pending == []
    requires Reads(c)
    ensures GoesOn(g, verify, s, behind, c, c.(io := Await(c.io)))
  {
    hide Hashed, Coming, Ending, Script.Spoken, Script.Upto, Willing, Settled;
    SameComing(c.io, Await(c.io), Cookie(verify) + Due(s, 1), behind);
    SameComing(c.io, Await(c.io), Due(s, At(c.state, c.deal)), behind);
    SameComing(c.io, Await(c.io), Arriving(behind), behind);
    SameComing(c.io, Await(c.io), [], behind);
    SettledAside(g, s, c);
  }

  lemma SettledAside(g: Config, s: Script, c: Client)
    requires s.Valid() && s.parts[1] != [] && g.parseHello(s.parts[1][0]).Some? && Settled(g, s, c)
    ensures Settled(g, s, c.(io := Await(c.io)))
  {
  }

  /** The turn of a middle state: it waits for a message that is still to come, or does place `k`. */
  ghost predicate Does(g: Config, s: Script, behind: seq<Record>, c: Client, d: Client, next: State, k: nat, calls: nat)
    requires s.Valid() && !s.resumed && s.parts[1] != [] && g.parseHello(s.parts[1][0]).Some? && k <= 10
  {
    || (c.io.pending == [] && Reads(c) && d == c.(io := Await(c.io)))
    || (d.state == next && d.io.wait.Go? && d.io.inbox == c.io.inbox && d.io.flushes == c.io.flushes
        && Mid(g, s, behind, d, k, calls))
  }

  ghost predicate Turn(g: Config, s: Script, behind: seq<Record>, c: Client, st: State, k: nat, calls: nat)
    requires s.Valid() && !s.resumed && s.parts[1] != [] && g.parseHello(s.parts[1][0]).Some? && k <= 10
  {
    Presents(g, s, Info(g, s)) && Answers(g, s) && c.state == st && c.io.wait.Go? && Mid(g, s, behind, c, k, calls)
  }

  lemma DoesReadServerCertificate(g: Config, s: Script, behind: seq<Record>, c: Client)
    requires s.Valid() && !s.resumed && s.parts[1] != [] && g.parseHello(s.parts[1][0]).Some?
    requires Turn(g, s, behind, c, ReadServerCertificate, 2, 4)
    ensures Does(g, s, behind, c, DoReadServerCertificate(g, c), ReadCertificateStatus, 3, 4)
  {
    hide Hashed, Coming, Take, Script.Spoken, Script.Upto, Willing;
    TakeAlso(c.io);
    if s.parts[2] == [] {
      Passes(s, 2);
    } else {
      assert s.parts[2] == [s.parts[2][0]];
      Hears(c.io, s, 2, s.parts[2][0], behind);
      if c.io.pending != [] { TakenComing(c.io, Due(s, 3), behind); }
    }
  }

  lemma DoesReadCertificateStatus(g: Config, s: Script, behind: seq<Record>, c: Client)
    requires s.Valid() && !s.resumed && s.parts[1] != [] && g.parseHello(s.parts[1][0]).Some?
    requires Turn(g, s, behind, c, ReadCertificateStatus, 3, 4)
    ensures Does(g, s, behind, c, DoReadCertificateStatus(g, c), VerifyServerCertificate, 4, 4)
  {
    hide Hashed, Coming, Take, Script.Spoken, Script.Upto, Willing;
    TakeAlso(c.io);
    LaterKinds(g, s, Info(g, s));
    if s.parts[3] == [] {
      Passes(s, 3);
      if c.io.pending != [] { ComingNext(c.io, Due(s, 3), behind); }
    } else {
      assert s.parts[3] == [s.parts[3][0]];
      Hears(c.io, s, 3, s.parts[3][0], behind);
      if c.io.pending != [] { TakenComing(c.io, Due(s, 4), behind); }
    }
  }

  lemma ChainPart(g: Config, s: Script, h: HelloInfo)
    requires s.Valid() && !s.resumed && Presents(g, s, h)
    ensures h.cipher.certAuth ==> s.parts[2] != [] && Trustworthy(g, s.parts[2][0])
    ensures s.parts[5] != [] ==> h.cipher.certAuth && s.parts[5] == [s.parts[5][0]]
    ensures s.parts[5] != [] ==> s.parts[5][0].kind == CertificateRequest && g.requestOk(s.parts[5][0])
  {
  }

  /** A turn that only leaves a note, or frees the buffer. */
  lemma StillMid(g: Config, s: Script, behind: seq<Record>, c: Client, d: Client, k: nat, m: nat, n: nat)
    requires s.Valid() && !s.resumed && s.parts[1] != [] && g.parseHello(s.parts[1][0]).Some? && k <= 10
    requires Mid(g, s, behind, c, k, m) && d.deal == c.deal && d.ticket == c.ticket && d.peer == c.peer
    requires d.request == c.request && Hashed(d.io.log) == Hashed(c.io.log) && Willing(d.io.answers, n)
    requires d.io.inbox == c.io.inbox && d.io.pending == c.io.pending && d.io.early == c.io.early
    ensures Mid(g, s, behind, d, k, n)
  {
    hide Hashed, Coming, Willing, Script.Spoken, Script.Upto;
    SameComing(c.io, d.io, Due(s, k), behind);
  }

  lemma MidPeer(g: Config, s: Script, behind: seq<Record>, c: Client, k: nat, m: nat)
    requires s.Valid() && !s.resumed && s.parts[1] != [] && g.parseHello(s.parts[1][0]).Some? && k <= 10
    requires Mid(g, s, behind, c, k, m)
    ensures c.deal.cipher == Info(g, s).cipher
    ensures k > 2 && c.deal.cipher.certAuth ==> s.parts[2] != [] && c.peer == Some(s.parts[2][0])
    ensures Willing(c.io.answers, m)
  {
  }

  /** With a trustworthy chain the state accepts it. */
  lemma VerifyAccepts(g: Config, c: Client)
    requires c.io.wait.Go? && c.deal.cipher.certAuth && c.peer.Some? && Trustworthy(g, c.peer.value)
    requires Willing(c.io.answers, 4)
    ensures var d := DoVerifyServerCertificate(g, c);
            && d == c.(state := ReadServerKeyExchange, io := d.io) && d.io.wait.Go?
             && Hashed(d.io.log) == Hashed(c.io.log)
            && d.io.inbox == c.io.inbox && d.io.flushes == c.io.flushes && d.io.pending == c.io.pending
            && d.io.early == c.io.early && Willing(d.io.answers, 3)
  {
    WillingNext(c.io, VerifyPeer, 4);
    hide Hashed;
    var asks := g.established.None? && g.customVerify;
    Snoc(c.io.log, PeerVerified(c.peer.value, if asks then Some(Accept) else None));
  }

  lemma DoesVerifyServerCertificate(g: Config, s: Script, behind: seq<Record>, c: Client)
    requires s.Valid() && !s.resumed && s.parts[1] != [] && g.parseHello(s.parts[1][0]).Some?
    requires Turn(g, s, behind, c, VerifyServerCertificate, 4, 4)
    ensures Does(g, s, behind, c, DoVerifyServerCertificate(g, c), ReadServerKeyExchange, 4, 3)
  {
    ChainPart(g, s, Info(g, s));
    MidPeer(g, s, behind, c, 4, 4);
    hide Hashed, Asked, NextAnswer, Script.Upto, Presents, Answers, Willing, Mid;
    WillingLess(c.io.answers, 4, 3);
    var d := DoVerifyServerCertificate(g, c);
    if c.deal.cipher.certAuth { VerifyAccepts(g, c); }
    StillMid(g, s, behind, c, d, 4, 4, 3);
  }

  lemma DoesReadServerKeyExchange(g: Config, s: Script, behind: seq<Record>, c: Client)
    requires s.Valid() && !s.resumed && s.parts[1] != [] && g.parseHello(s.parts[1][0]).Some?
    requires Turn(g, s, behind, c, ReadServerKeyExchange, 4, 3)
    ensures Does(g, s, behind, c, DoReadServerKeyExchange(g, c), ReadCertificateRequest, 5, 3)
  {
    hide Hashed, Coming, Take, Script.Spoken, Script.Upto, Willing;
    TakeAlso(c.io);
    LaterKinds(g, s, Info(g, s));
    if s.parts[4] == [] {
      Passes(s, 4);
      if c.io.pending != [] { ComingNext(c.io, Due(s, 4), behind); }
    } else {
      assert s.parts[4] == [s.parts[4][0]];
      Hears(c.io, s, 4, s.parts[4][0], behind);
      if c.io.pending != [] { TakenComing(c.io, Due(s, 5), behind); }
    }
  }

  /** Without a request place 5 is left out. */
  lemma PassMid(g: Config, s: Script, behind: seq<Record>, c: Client, k: nat, m: nat)
    requires s.Valid() && !s.resumed && s.parts[1] != [] && g.parseHello(s.parts[1][0]).Some?
    requires k == 5 && s.parts[k] == [] && Mid(g, s, behind, c, k, m)
    ensures Mid(g, s, behind, c, k + 1, m)
    ensures Due(s, k) == Due(s, k + 1) && Coming(c.io, Due(s, k), behind)
  {
    hide Hashed, Coming, Willing, Script.Spoken, Script.Upto;
    Passes(s, k);
  }

  /** The branches of the state. */
  lemma RequestBranches(g: Config, c: Client)
    ensures var d := DoReadCertificateRequest(g, c);
            if !c.deal.cipher.certAuth then d == c.(state := ReadServerHelloDone)
            else if c.io.pending == [] then d == c.(io := Await(c.io))
            else
              var m := c.io.pending[0];
              && (m.kind == ServerHelloDone ==> d == c.(state := ReadServerHelloDone, io := FreeBuffer(c.io)))
              && (m.kind == CertificateRequest && g.requestOk(m) ==>
                    d == c.(state := ReadServerHelloDone, request := Some(m), io := Take(c.io)))
  {
    hide Take;
  }

  lemma DoesReadCertificateRequest(g: Config, s: Script, behind: seq<Record>, c: Client)
    requires s.Valid() && !s.resumed && s.parts[1] != [] && g.parseHello(s.parts[1][0]).Some?
    requires Turn(g, s, behind, c, ReadCertificateRequest, 5, 3)
    ensures Does(g, s, behind, c, DoReadCertificateRequest(g, c), ReadServerHelloDone, 6, 3)
  {
    RequestBranches(g, c);
    LaterKinds(g, s, Info(g, s));
    ChainPart(g, s, Info(g, s));
    MidPeer(g, s, behind, c, 5, 3);
    hide Hashed, Coming, Take, Script.Spoken, Script.Upto, Willing, Presents, Answers, DoReadCertificateRequest, Mid;
    if s.parts[5] == [] {
      RequestAbsent(g, s, behind, c);
      if c.io.pending != [] { ComingNext(c.io, Due(s, 5), behind); }
    } else if c.io.pending != [] {
      RequestTaken(g, s, behind, c);
    }
  }

  lemma RequestAbsent(g: Config, s: Script, behind: seq<Record>, c: Client)
    requires s.Valid() && !s.resumed && s.parts[1] != [] && g.parseHello(s.parts[1][0]).Some?
    requires Mid(g, s, behind, c, 5, 3) && s.parts[5] == []
    ensures Due(s, 5) == Due(s, 6)
    ensures Mid(g, s, behind, c.(state := ReadServerHelloDone), 6, 3)
    ensures Mid(g, s, behind, c.(state := ReadServerHelloDone, io := FreeBuffer(c.io)), 6, 3)
  {
    PassMid(g, s, behind, c, 5, 3);
    MidPeer(g, s, behind, c, 5, 3);
    Passes(s, 5);
    hide Hashed, Coming, Script.Spoken, Script.Upto, Willing, Presents, Answers, Mid;
    StillMid(g, s, behind, c, c.(state := ReadServerHelloDone), 6, 3, 3);
    StillMid(g, s, behind, c, c.(state := ReadServerHelloDone, io := FreeBuffer(c.io)), 6, 3, 3);
  }

  lemma RequestTaken(g: Config, s: Script, behind: seq<Record>, c: Client)
    requires s.Valid() && !s.resumed && s.parts[1] != [] && g.parseHello(s.parts[1][0]).Some?
    requires Mid(g, s, behind, c, 5, 3) && s.parts[5] != [] && s.parts[5] == [s.parts[5][0]] && c.io.pending != []
    ensures c.io.pending[0] == s.parts[5][0] && Take(c.io).wait == c.io.wait
    ensures Take(c.io).inbox == c.io.inbox && Take(c.io).flushes == c.io.flushes
    ensures Mid(g, s, behind, c.(state := ReadServerHelloDone, request := Some(s.parts[5][0]), io := Take(c.io)), 6, 3)
  {
    hide Hashed, Coming, Take, Script.Spoken, Script.Upto, Willing;
    TakeAlso(c.io);
    Hears(c.io, s, 5, s.parts[5][0], behind);
    TakenComing(c.io, Due(s, 6), behind);
    SameComing(Take(c.io).(wait := c.io.wait), Take(c.io), Due(s, 6), behind);
  }

  lemma DoesReadServerHelloDone(g: Config, s: Script, behind: seq<Record>, c: Client)
    requires s.Valid() && !s.resumed && s.parts[1] != [] && g.parseHello(s.parts[1][0]).Some?
    requires Turn(g, s, behind, c, ReadServerHelloDone, 6, 3)
    ensures Does(g, s, behind, c, DoReadServerHelloDone(g, c), SendClientCertificate, 7, 3)
  {
    hide Hashed, Coming, Take, Script.Spoken, Script.Upto, Willing;
    TakeAlso(c.io);
    Hears(c.io, s, 6, s.parts[6][0], behind);
    if c.io.pending != [] { TakenComing(c.io, Due(s, 7), behind); }
  }

  lemma DoesSendClientCertificate(g: Config, s: Script, behind: seq<Record>, c: Client)
    requires s.Valid() && !s.resumed && s.parts[1] != [] && g.parseHello(s.parts[1][0]).Some?
    requires Turn(g, s, behind, c, SendClientCertificate, 7, 3)
    ensures Does(g, s, behind, c, DoSendClientCertificate(g, c), SendClientKeyExchange, 8, 2)
  {
    hide Hashed, Coming, Emit, Asked, NextAnswer, Script.Spoken, Script.Upto;
    Passes(s, 7);
    AskedYes(c.io, CertificateLookup, 2, Due(s, 8), behind);
    WillingLess(c.io.answers, 3, 2);
    hide Willing;
    if s.parts[5] != [] {
      var m := Message(Certificate, g.certificate);
      var asked := if g.certCallback then Asked(c.io, CertificateLookup) else c.io;
      var io := if g.hasCertificate then asked else FreeBuffer(asked);
      SameComing(c.io, io, Due(s, 8), behind);
      Utters(io, s, 7, m);
      EmitLog(io, m);
      EmitAside(io, m, Due(s, 8), behind);
      EmitWait(io, m);
    }
  }

  lemma DoesSendClientKeyExchange(g: Config, s: Script, behind: seq<Record>, c: Client)
    requires s.Valid() && !s.resumed && s.parts[1] != [] && g.parseHello(s.parts[1][0]).Some?
    requires Turn(g, s, behind, c, SendClientKeyExchange, 8, 2)
    ensures Does(g, s, behind, c, DoSendClientKeyExchange(g, c), SendClientCertificateVerify, 9, 2)
  {
    hide Hashed, Coming, Emit, Script.Spoken, Script.Upto, Willing;
    Passes(s, 8);
    var m := Message(ClientKeyExchange, g.keyExchange.value);
    Utters(c.io, s, 8, m);
    EmitLog(c.io, m);
    EmitAside(c.io, m, Due(s, 9), behind);
    EmitWait(c.io, m);
  }

  lemma DoesSendClientCertificateVerify(g: Config, s: Script, behind: seq<Record>, c: Client)
    requires s.Valid() && !s.resumed && s.parts[1] != [] && g.parseHello(s.parts[1][0]).Some?
    requires Turn(g, s, behind, c, SendClientCertificateVerify, 9, 2)
    requires c.request.Some? && g.hasCertificate ==> c.io.buffer == Some(Hashed(c.io.log))
    ensures Does(g, s, behind, c, DoSendClientCertificateVerify(g, c), SendClientFinished, 10, 1)
  {
    hide Hashed, Coming, Emit, Asked, NextAnswer, Script.Spoken, Script.Upto, Presents, Willing;
    Passes(s, 9);
    AskedYes(c.io, PrivateKey, 1, Due(s, 10), behind);
    WillingLess(c.io.answers, 2, 1);
    if c.request.Some? && g.hasCertificate {
      var m := Message(CertificateVerify, g.sign(s.Upto(9)).value);
      var asked := if g.keyMethod then Asked(c.io, PrivateKey) else c.io;
      SameComing(c.io, asked, Due(s, 10), behind);
      Utters(asked, s, 9, m);
      EmitLog(asked, m);
      EmitAside(asked, m, Due(s, 10), behind);
      FreeWait(Emit(asked, m));
      EmitWait(asked, m);
    }
  }

  // ---------------------------------------------------------------- the client's new key

  /** One message of the flight, or none. */
  lemma PartSaid(s: Script, k: nat, io: Io, said: bool, m: Message)
    requires s.Valid() && k < |s.parts| && s.parts[k] == if said then [m] else []
    requires Whole(io) && Hashed(io.log) == s.Upto(k)
    ensures var b := if said then Emit(io, m) else io;
            Whole(b) && Hashed(b.log) == s.Upto(k + 1) && Beside(io, b) && Digested(b) == s.Upto(k + 1)
  {
    UptoNext(s, k);
    EmitWhole(io, m);
    EmitBeside(io, m);
    WholeDigest(if said then Emit(io, m) else io);
    hide Hashed, Emit, Whole, Script.Upto, Script.Valid;
    assert s.Upto(k) + [] == s.Upto(k);
  }

  lemma BesideTwice(a: Io, b: Io, c: Io)
    requires Beside(a, b) && Beside(b, c)
    ensures Beside(a, c)
  {
  }

  lemma KeyWhole(io: Io)
    requires Whole(io)
    ensures var b := ChangeWriteKey(io); Whole(b) && Hashed(b.log) == Hashed(io.log) && Beside(io, b)
    ensures Digested(ChangeWriteKey(io)) == Hashed(io.log)
  {
    hide Hashed, Whole;
    NoteWhole(io, SentChangeCipherSpec);
    NoteWhole(Note(io, SentChangeCipherSpec), WriteKey);
    WholeDigest(ChangeWriteKey(io));
  }

  /** The flight is what the script says at the places from `k` on. */
  lemma FlightSays(g: Config, s: Script, h: HelloInfo, d: Deal, io: Io, k: nat)
    requires s.Valid() && k + 4 <= |s.parts| && Seals(g, s, h, k)
    requires d.nextProto == h.nextProto && d.channelId == h.channelId
    requires Whole(io) && Hashed(io.log) == s.Upto(k)
    ensures var b := FinishedFlight(g, d, io);
            Whole(b) && Hashed(b.log) == s.Upto(k + 4) && Beside(io, b)
  {
    hide Hashed, Emit, Whole, Script.Upto, Script.Valid, ChangeWriteKey, Beside, Digested;
    UptoNext(s, k);
    assert s.Upto(k) + [] == s.Upto(k);
    KeyWhole(io);
    var keyed := ChangeWriteKey(io);
    var next := Message(NextProto, g.nextProtocol);
    PartSaid(s, k + 1, keyed, d.nextProto, next);
    var proto := if d.nextProto then Emit(keyed, next) else keyed;
    var id := Message(ChannelId, g.channelIdProof(s.Upto(k + 2)));
    PartSaid(s, k + 2, proto, d.channelId, id);
    var last := if d.channelId then Emit(proto, id) else proto;
    var m := Message(Finished, g.mac(false, s.Upto(k + 3)));
    PartSaid(s, k + 3, last, true, m);
    BesideTwice(io, keyed, proto);
    BesideTwice(io, proto, last);
    BesideTwice(io, last, Emit(last, m));
  }

  // ---------------------------------------------------------------- both kinds of handshake

  /** A client that closes its handshake, where the script has it: `k` places are done. */
  ghost predicate Closing(g: Config, s: Script, c: Client, k: nat, calls: nat)
    requires s.Valid() && s.parts[1] != [] && g.parseHello(s.parts[1][0]).Some? && k <= |s.parts|
  {
    var h := Info(g, s);
    && c.deal == Deal(s.resumed, h.cipher, h.certificateStatus, h.nextProto, h.channelId)
    && (!s.resumed && h.cipher.certAuth ==> s.parts[2] != [] && c.peer == Some(s.parts[2][0]))
    && c.request == (if !s.resumed && s.parts[5] != [] then Some(s.parts[5][0]) else None)
    && Hashed(c.io.log) == s.Upto(k) && Willing(c.io.answers, calls)
  }

  lemma IsClosing(g: Config, verify: Option<Message>, s: Script, behind: seq<Record>, c: Client)
    requires Greets(g, verify, s) && On(g, verify, s, behind, c) && ResumedState(c.state)
    ensures At(c.state, c.deal) <= |s.parts|
    ensures Closing(g, s, c, At(c.state, c.deal), Calls(c.state, s.resumed)) && Streams(verify, s, behind, c)
    ensures c.state.ReadSessionTicket? ==> (c.ticket.TicketExpected? <==> Info(g, s).ticket)
    ensures c.deal.resumed == s.resumed
  {
    hide Hashed, Coming, Ending, Script.Spoken, Script.Upto, Willing;
  }

  lemma ClosingOn(g: Config, verify: Option<Message>, s: Script, behind: seq<Record>, c: Client, k: nat)
    requires Greets(g, verify, s) && ResumedState(c.state) && c.deal.resumed == s.resumed
    requires k == At(c.state, c.deal) <= |s.parts| && Waits(c) && Closing(g, s, c, k, Calls(c.state, s.resumed))
    requires BeforeTicket(c.state, s.resumed) ==> (c.ticket.TicketExpected? <==> Info(g, s).ticket)
    requires Streams(verify, s, behind, c)
    ensures On(g, verify, s, behind, c)
  {
    hide Hashed, Coming, Ending, Script.Spoken, Script.Upto, Willing;
  }

  /** The last places are in order. */
  ghost predicate Tail(g: Config, s: Script, behind: seq<Record>)
    requires s.Valid() && s.parts[1] != [] && g.parseHello(s.parts[1][0]).Some?
  {
    && (if s.resumed then Confirms(g, s, Info(g, s), 2) && Seals(g, s, Info(g, s), 5)
        else Seals(g, s, Info(g, s), 10) && Confirms(g, s, Info(g, s), 14))
    && Full(behind) && Arriving(behind) == s.parts[if s.resumed then 4 else 16]
  }

  ghost predicate Ready(g: Config, verify: Option<Message>, s: Script, behind: seq<Record>, c: Client) {
    Greets(g, verify, s) && Tail(g, s, behind) && On(g, verify, s, behind, c) && c.io.wait.Go?
  }

  /** The client's places from 10 on leave what is due from the server. */
  lemma DueBehind(s: Script)
    requires s.Valid() && !s.resumed
    ensures Due(s, 10) == Due(s, 14)
  {
    hide Script.Spoken;
    DueNext(s, 10);
    DueNext(s, 11);
    DueNext(s, 12);
    DueNext(s, 13);
  }

  /** What the state does once the application, if it has to be asked, has answered. */
  lemma SendsFinished(g: Config, c: Client) returns (io: Io)
    requires Willing(c.io.answers, 1) && c.io.wait.Go?
    ensures io == c.io.(answers := io.answers, keyOp := io.keyOp)
    ensures var d := DoSendClientFinished(g, c);
            && d == c.(state := FinishFlight, idKey := d.idKey, io := d.io)
            && d.io == FinishedFlight(g, c.deal, io).(wait := Flush)
  {
    hide FinishedFlight;
    WillingNext(c.io, ChannelIdLookup, 1);
    io := if c.deal.channelId && c.idKey.Missing? then Asked(c.io, ChannelIdLookup) else c.io;
  }

  /** The account of the client after its flight. */
  lemma FlightCloses(g: Config, s: Script, c: Client, d: Client, io: Io, k: nat, calls: nat)
    requires s.Valid() && s.parts[1] != [] && g.parseHello(s.parts[1][0]).Some? && k + 4 <= |s.parts|
    requires Closing(g, s, c, k, calls) && Seals(g, s, Info(g, s), k) && Whole(c.io)
    requires d.deal == c.deal && d.peer == c.peer && d.request == c.request
    requires io == c.io.(answers := io.answers, keyOp := io.keyOp)
    requires d.io == FinishedFlight(g, c.deal, io).(wait := Flush)
    ensures Hashed(d.io.log) == s.Upto(k + 4)
    ensures d.io.inbox == c.io.inbox && d.io.flushes == c.io.flushes && d.io.pending == c.io.pending
    ensures d.io.early == c.io.early && d.io.wait.Flush?
  {
    hide Hashed, Script.Upto, FinishedFlight, Whole, Seals;
    WholeAside(c.io, io);
    FlightSays(g, s, Info(g, s), c.deal, io, k);
  }

  lemma FlightStreams(verify: Option<Message>, s: Script, behind: seq<Record>, c: Client, d: Client)
    requires s.Valid() && c.state.SendClientFinished? && d.state.FinishFlight? && d.deal == c.deal
    requires c.deal.resumed == s.resumed && Streams(verify, s, behind, c)
    requires d.io.inbox == c.io.inbox && d.io.pending == c.io.pending && d.io.early == c.io.early
    ensures Streams(verify, s, behind, d)
  {
    hide Coming, Ending, Script.Spoken;
    if !s.resumed { DueBehind(s); }
    SameComing(c.io, d.io, Due(s, 10), behind);
    SameComing(c.io, d.io, [], behind);
  }

  lemma TicketSettled(g: Config, verify: Option<Message>, s: Script, behind: seq<Record>, c: Client)
    requires Greets(g, verify, s) && On(g, verify, s, behind, c) && ResumedState(c.state)
    ensures BeforeTicket(c.state, s.resumed) ==> (c.ticket.TicketExpected? <==> Info(g, s).ticket)
  {
    hide Streams;
  }

  /** The branches of the state. */
  lemma TicketBranches(g: Config, c: Client)
    ensures var d := DoReadSessionTicket(g, c);
            if c.ticket.NoTicket?
             then d == c.(state := ProcessChangeCipherSpec, io := c.io.(wait := ReadChangeCipherSpec))
            else if c.io.pending == [] then d == c.(io := Await(c.io))
            else
              var m := c.io.pending[0];
              m.kind == NewSessionTicket && !g.parseTicket(m).BadTicket? ==>
                d == c.(state := ProcessChangeCipherSpec, ticket := d.ticket,
                        io := Take(c.io).(wait := ReadChangeCipherSpec))
  {
    hide Take;
  }

  /** With the ticket taken, or none due, the server's new key is next. */
  lemma TicketDone(g: Config, s: Script, behind: seq<Record>, c: Client, k: nat)
    requires s.Valid() && s.parts[1] != [] && g.parseHello(s.parts[1][0]).Some?
    requires k == (if s.resumed then 2 else 14) && Confirms(g, s, Info(g, s), k)
    requires Coming(c.io, Due(s, k), behind) && Hashed(c.io.log) == s.Upto(k)
    ensures !Info(g, s).ticket ==> Coming(c.io, [], behind) && Hashed(c.io.log) == s.Upto(k + 1)
    ensures Info(g, s).ticket && c.io.pending != [] ==>
              && c.io.pending[0].kind == NewSessionTicket && !g.parseTicket(c.io.pending[0]).BadTicket?
              && Coming(Take(c.io).(wait := ReadChangeCipherSpec), [], behind)
              && Hashed(Take(c.io).log) == s.Upto(k + 1)
  {
    hide Hashed, Coming, Script.Spoken, Script.Upto, Take;
    DueNext(s, k);
    UptoNext(s, k);
    if Info(g, s).ticket {
      var m := s.parts[k][0];
      assert s.parts[k] == [m];
      Hears(c.io, s, k, m, behind);
      TakeAlso(c.io);
      if c.io.pending != [] { TakenComing(c.io, Due(s, k + 1), behind); }
    } else {
      assert s.Upto(k) + [] == s.Upto(k);
      Passes(s, k);
    }
  }

  lemma KeyChanges(g: Config, s: Script, c: Client, due: seq<Message>, k: nat)
    requires s.Valid() && k < |s.parts| && s.parts[k] == []
    requires Ending(c.io, due) && c.io.pending == [] && Hashed(c.io.log) == s.Upto(k) && c.io.wait.Go?
    ensures var d := DoProcessChangeCipherSpec(g, c);
            && d == c.(state := ReadServerFinished, io := ChangeReadKey(c.io)) && Ending(d.io, due)
            && Hashed(d.io.log) == s.Upto(k + 1) && d.io.answers == c.io.answers && d.io.wait.Go?
            && d.io.inbox == c.io.inbox && d.io.flushes == c.io.flushes
  {
    hide Hashed, Script.Upto;
    UptoNext(s, k);
    assert s.Upto(k) + [] == s.Upto(k);
    Snoc(c.io.log, ReadKey);
  }

  /** The server's Finished is the one that is due. */
  lemma FinishedTaken(g: Config, s: Script, c: Client, k: nat)
    requires s.Valid() && k < |s.parts| && s.parts[k] == [Message(Finished, g.mac(true, s.Upto(k)))]
    requires Ending(c.io, s.parts[k]) && c.io.pending != [] && Hashed(c.io.log) == s.Upto(k) && Whole(c.io)
    ensures var d := DoReadServerFinished(g, c);
            && d == c.(state := if c.deal.resumed then SendClientFinished else FinishClientHandshake, io := Take(c.io))
            && Ending(d.io, []) && Hashed(d.io.log) == s.Upto(k + 1) && d.io.answers == c.io.answers
            && d.io.wait == c.io.wait && d.io.inbox == c.io.inbox && d.io.flushes == c.io.flushes
  {
    hide Hashed, Script.Upto, Take, Ending;
    UptoNext(s, k);
    EndingNext(c.io, s.parts[k]);
    TakeAlso(c.io);
    Snoc(c.io.log, Took(c.io.pending[0]));
    assert s.parts[k][1..] == [];
  }

  /** The account does not depend on anything else. */
  lemma StillClosing(g: Config, s: Script, c: Client, d: Client, k: nat, m: nat, j: nat, n: nat)
    requires s.Valid() && s.parts[1] != [] && g.parseHello(s.parts[1][0]).Some? && k <= |s.parts| && j <= |s.parts|
    requires Closing(g, s, c, k, m) && d.deal == c.deal && d.peer == c.peer && d.request == c.request
    requires Hashed(d.io.log) == s.Upto(j) && Willing(d.io.answers, n)
    ensures Closing(g, s, d, j, n)
  {
    hide Hashed, Willing, Script.Upto;
  }

  lemma ClosingFacts(g: Config, s: Script, c: Client, k: nat, m: nat)
    requires s.Valid() && s.parts[1] != [] && g.parseHello(s.parts[1][0]).Some? && k <= |s.parts|
    requires Closing(g, s, c, k, m)
    ensures Hashed(c.io.log) == s.Upto(k) && Willing(c.io.answers, m)
    ensures c.deal.resumed == s.resumed && c.deal.nextProto == Info(g, s).nextProto
    ensures c.deal.channelId == Info(g, s).channelId
  {
  }

  /** From one closing state to the next. */
  lemma Ends(g: Config, verify: Option<Message>, s: Script, behind: seq<Record>, c: Client, d: Client, k: nat)
    requires Greets(g, verify, s) && ResumedState(d.state) && d.deal.resumed == s.resumed
    requires k == At(d.state, d.deal) <= |s.parts| && Waits(d) && Closing(g, s, d, k, Calls(d.state, s.resumed))
    requires BeforeTicket(d.state, s.resumed) ==> (d.ticket.TicketExpected? <==> Info(g, s).ticket)
    requires Streams(verify, s, behind, d) && Order(d.state, s.resumed) > Order(c.state, s.resumed)
    requires d.io.inbox == c.io.inbox && d.io.flushes == c.io.flushes
    ensures GoesOn(g, verify, s, behind, c, d)
  {
    hide Greets, Closing, Streams, On, BeforeTicket, Waits;
    ClosingOn(g, verify, s, behind, d, k);
  }

  lemma OnFinishClientHandshake(g: Config, verify: Option<Message>, s: Script, behind: seq<Record>, c: Client)
    requires Ready(g, verify, s, behind, c) && c.state.FinishClientHandshake?
    ensures GoesOn(g, verify, s, behind, c, DoFinishClientHandshake(g, c))
  {
    GreetsFacts(g, verify, s);
    IsClosing(g, verify, s, behind, c);
    var k, d := At(c.state, c.deal), DoFinishClientHandshake(g, c);
    ClosingFacts(g, s, c, k, 0);
    StillClosing(g, s, c, d, k, 0, k, 0);
    StreamsOn(verify, s, behind, c, d);
    DoneNext(s, c);
    hide *;
    Ends(g, verify, s, behind, c, d, k);
  }

  lemma DoneNext(s: Script, c: Client)
    requires c.state.FinishClientHandshake? && c.deal.resumed == s.resumed && c.io.wait.Go?
    ensures var d := c.(state := Done);
            && ResumedState(d.state) && At(d.state, d.deal) == At(c.state, c.deal) && Waits(d)
            && !BeforeTicket(d.state, s.resumed) && Order(d.state, s.resumed) > Order(c.state, s.resumed)
            && Calls(d.state, s.resumed) == 0
  {
  }

  lemma StreamsOn(verify: Option<Message>, s: Script, behind: seq<Record>, c: Client, d: Client)
    requires s.Valid() && Streams(verify, s, behind, c)
    requires Finishing(c.state, s.resumed) && Finishing(d.state, s.resumed)
    requires d.io.inbox == c.io.inbox && d.io.pending == c.io.pending && d.io.early == c.io.early
    ensures Streams(verify, s, behind, d)
  {
    hide Ending, Coming;
    SameComing(c.io, d.io, [], behind);
  }

  lemma GreetsFacts(g: Config, verify: Option<Message>, s: Script)
    requires Greets(g, verify, s)
    ensures s.Valid() && s.parts[1] != [] && g.parseHello(s.parts[1][0]).Some?
  {
  }

  /** What only the state decides. */
  ghost predicate Further(s: Script, c: Client, d: Client, k: nat, calls: nat) {
    && ResumedState(d.state) && d.deal == c.deal && d.peer == c.peer && d.request == c.request
    && At(d.state, d.deal) == k && Calls(d.state, s.resumed) == calls && Waits(d)
    && Order(d.state, s.resumed) > Order(c.state, s.resumed)
    && d.io.inbox == c.io.inbox && d.io.flushes == c.io.flushes
  }

  /** The parts of the account put together again. */
  lemma Closes(g: Config, verify: Option<Message>, s: Script, behind: seq<Record>, c: Client, d: Client, k: nat, m: nat,
               j: nat, n: nat)
    requires Greets(g, verify, s) && k <= |s.parts| && j <= |s.parts|
    requires Closing(g, s, c, k, m) && Further(s, c, d, j, n)
    requires Hashed(d.io.log) == s.Upto(j) && Willing(d.io.answers, n) && Streams(verify, s, behind, d)
    requires BeforeTicket(d.state, s.resumed) ==> (d.ticket.TicketExpected? <==> Info(g, s).ticket)
    ensures GoesOn(g, verify, s, behind, c, d)
  {
    GreetsFacts(g, verify, s);
    ClosingFacts(g, s, c, k, m);
    StillClosing(g, s, c, d, k, m, j, n);
    assert d.deal.resumed == s.resumed;
    hide Greets, Closing, Streams, GoesOn, BeforeTicket, Waits, Hashed, Willing, Script.Upto, Info;
    Ends(g, verify, s, behind, c, d, j);
  }

  lemma OnSendClientFinished(g: Config, verify: Option<Message>, s: Script, behind: seq<Record>, c: Client)
    requires Ready(g, verify, s, behind, c) && c.state.SendClientFinished? && Whole(c.io)
    ensures GoesOn(g, verify, s, behind, c, DoSendClientFinished(g, c))
  {
    GreetsFacts(g, verify, s);
    IsClosing(g, verify, s, behind, c);
    TailSeals(g, s, behind);
    TicketSettled(g, verify, s, behind, c);
    FlightPlace(s, c);
    hide *;
    var k, d := if s.resumed then 5 else 10, DoSendClientFinished(g, c);
    ClosingFacts(g, s, c, k, 1);
    var io := SendsFinished(g, c);
    FlightCloses(g, s, c, d, io, k, 1);
    FlightStreams(verify, s, behind, c, d);
    FlightNext(s, c, d);
    NoneAsked(d.io.answers);
    Closes(g, verify, s, behind, c, d, k, 1, k + 4, 0);
  }

  lemma FlightPlace(s: Script, c: Client)
    requires c.state.SendClientFinished?
    ensures At(c.state, c.deal) == (if c.deal.resumed then 5 else 10) && Calls(c.state, s.resumed) == 1
    ensures Negotiated(c.state)
  {
  }

  lemma TailSeals(g: Config, s: Script, behind: seq<Record>)
    requires s.Valid() && s.parts[1] != [] && g.parseHello(s.parts[1][0]).Some? && Tail(g, s, behind)
    ensures Seals(g, s, Info(g, s), if s.resumed then 5 else 10)
    ensures Confirms(g, s, Info(g, s), if s.resumed then 2 else 14)
    ensures Full(behind) && Arriving(behind) == s.parts[if s.resumed then 4 else 16]
  {
  }

  lemma FlightNext(s: Script, c: Client, d: Client)
    requires c.state.SendClientFinished? && c.deal.resumed == s.resumed
    requires d == c.(state := FinishFlight, idKey := d.idKey, io := d.io) && d.io.wait.Flush?
    requires d.io.inbox == c.io.inbox && d.io.flushes == c.io.flushes
    ensures Further(s, c, d, if s.resumed then 9 else 14, 0)
    ensures BeforeTicket(d.state, s.resumed) == BeforeTicket(c.state, s.resumed)
  {
  }

  lemma OnFinishFlight(g: Config, verify: Option<Message>, s: Script, behind: seq<Record>, c: Client)
    requires Ready(g, verify, s, behind, c) && c.state.FinishFlight?
    ensures GoesOn(g, verify, s, behind, c, DoFinishFlight(g, c))
  {
    GreetsFacts(g, verify, s);
    IsClosing(g, verify, s, behind, c);
    TicketSettled(g, verify, s, behind, c);
    FinishNext(g, verify, s, behind, c);
    hide *;
    var k, d := if s.resumed then 9 else 14, DoFinishFlight(g, c);
    ClosingFacts(g, s, c, k, 0);
    NoneAsked(d.io.answers);
    Closes(g, verify, s, behind, c, d, k, 0, k, 0);
  }

  lemma FinishNext(g: Config, verify: Option<Message>, s: Script, behind: seq<Record>, c: Client)
    requires s.Valid() && c.state.FinishFlight? && c.deal.resumed == s.resumed && c.io.wait.Go?
    requires Streams(verify, s, behind, c)
    ensures var d, k := DoFinishFlight(g, c), if s.resumed then 9 else 14;
            && At(c.state, c.deal) == k && Calls(c.state, s.resumed) == 0
            && Further(s, c, d, k, 0) && Streams(verify, s, behind, d)
            && d.ticket == c.ticket && (BeforeTicket(d.state, s.resumed) ==> BeforeTicket(c.state, s.resumed))
            && d.io.log == c.io.log
  {
    hide Coming, Ending, Script.Spoken;
    SameComing(c.io, DoFinishFlight(g, c).io, Due(s, 14), behind);
    SameComing(c.io, DoFinishFlight(g, c).io, [], behind);
  }

  lemma TicketFacts(g: Config, verify: Option<Message>, s: Script, behind: seq<Record>, c: Client)
    requires Ready(g, verify, s, behind, c) && c.state.ReadSessionTicket?
    ensures Greets(g, verify, s) && Tail(g, s, behind) && On(g, verify, s, behind, c) && c.io.wait.Go?
    ensures c.deal.resumed == s.resumed && Streams(verify, s, behind, c)
    ensures At(c.state, c.deal) <= |s.parts| && Closing(g, s, c, At(c.state, c.deal), Calls(c.state, s.resumed))
    ensures c.ticket.TicketExpected? <==> Info(g, s).ticket
    ensures c.ticket.TicketExpected? ==> Reads(c)
  {
    assert Ready(g, verify, s, behind, c);
    IsClosing(g, verify, s, behind, c);
    hide Streams, Closing, On, Greets, Tail;
  }

  lemma OnReadSessionTicket(g: Config, verify: Option<Message>, s: Script, behind: seq<Record>, c: Client)
    requires Ready(g, verify, s, behind, c) && c.state.ReadSessionTicket?
    ensures GoesOn(g, verify, s, behind, c, DoReadSessionTicket(g, c))
  {
    hide *;
    TicketFacts(g, verify, s, behind, c);
    GreetsFacts(g, verify, s);
    TailSeals(g, s, behind);
    TicketPlace(verify, s, behind, c);
    TicketBranches(g, c);
    TakeAlso(c.io);
    var k, d, n := if s.resumed then 2 else 14, DoReadSessionTicket(g, c), Calls(c.state, s.resumed);
    ClosingFacts(g, s, c, k, n);
    TicketDone(g, s, behind, c, k);
    if c.ticket.TicketExpected? && c.io.pending == [] {
      Stays(g, verify, s, behind, c);
    } else {
      SameComing(c.io, c.io.(wait := ReadChangeCipherSpec), [], behind);
      TicketNext(verify, s, behind, c, d);
      WillingSame(c.io.answers, d.io.answers, n);
      Closes(g, verify, s, behind, c, d, k, n, k + 1, n);
    }
  }

  lemma TicketPlace(verify: Option<Message>, s: Script, behind: seq<Record>, c: Client)
    requires s.Valid() && c.state.ReadSessionTicket? && c.deal.resumed == s.resumed && Streams(verify, s, behind, c)
    ensures At(c.state, c.deal) == (if s.resumed then 2 else 14)
    ensures Coming(c.io, Due(s, if s.resumed then 2 else 14), behind)
  {
  }

  lemma TicketNext(verify: Option<Message>, s: Script, behind: seq<Record>, c: Client, d: Client)
    requires s.Valid() && c.state.ReadSessionTicket? && c.deal.resumed == s.resumed
    requires d == c.(state := ProcessChangeCipherSpec, ticket := d.ticket, io := d.io)
    requires d.io.wait.ReadChangeCipherSpec?
    requires d.io.inbox == c.io.inbox && d.io.flushes == c.io.flushes && Coming(d.io, [], behind)
    ensures Further(s, c, d, if s.resumed then 3 else 15, Calls(c.state, s.resumed))
    ensures Streams(verify, s, behind, d) && !BeforeTicket(d.state, s.resumed)
  {
    hide Coming;
  }

  lemma OnProcessChangeCipherSpec(g: Config, verify: Option<Message>, s: Script, behind: seq<Record>, c: Client)
    requires Ready(g, verify, s, behind, c) && c.state.ProcessChangeCipherSpec?
    ensures GoesOn(g, verify, s, behind, c, DoProcessChangeCipherSpec(g, c))
  {
    GreetsFacts(g, verify, s);
    IsClosing(g, verify, s, behind, c);
    KeyPlaceEmpty(g, s, behind);
    KeyStream(verify, s, behind, c);
    hide *;
    var k, d := if s.resumed then 3 else 15, DoProcessChangeCipherSpec(g, c);
    var n := Calls(c.state, s.resumed);
    ClosingFacts(g, s, c, k, n);
    KeyChanges(g, s, c, Arriving(behind), k);
    KeyNext(verify, s, behind, c, d);
    WillingSame(c.io.answers, d.io.answers, n);
    Closes(g, verify, s, behind, c, d, k, n, k + 1, n);
  }

  lemma KeyPlaceEmpty(g: Config, s: Script, behind: seq<Record>)
    requires s.Valid() && s.parts[1] != [] && g.parseHello(s.parts[1][0]).Some? && Tail(g, s, behind)
    ensures s.parts[if s.resumed then 3 else 15] == []
    ensures var k := if s.resumed then 4 else 16;
            s.parts[k] == [Message(Finished, g.mac(true, s.Upto(k)))] && Arriving(behind) == s.parts[k] && Full(behind)
  {
    hide Script.Upto;
  }

  lemma KeyStream(verify: Option<Message>, s: Script, behind: seq<Record>, c: Client)
    requires s.Valid() && c.state.ProcessChangeCipherSpec? && c.deal.resumed == s.resumed && c.io.wait.Go?
    requires Streams(verify, s, behind, c)
    ensures At(c.state, c.deal) == (if s.resumed then 3 else 15)
    ensures Ending(c.io, Arriving(behind)) && c.io.pending == []
  {
  }

  lemma KeyNext(verify: Option<Message>, s: Script, behind: seq<Record>, c: Client, d: Client)
    requires s.Valid() && c.state.ProcessChangeCipherSpec? && c.deal.resumed == s.resumed
    requires d == c.(state := ReadServerFinished, io := d.io) && d.io.wait.Go?
    requires d.io.inbox == c.io.inbox && d.io.flushes == c.io.flushes && Ending(d.io, Arriving(behind))
    ensures Further(s, c, d, if s.resumed then 4 else 16, Calls(c.state, s.resumed))
    ensures Streams(verify, s, behind, d) && !BeforeTicket(d.state, s.resumed)
  {
    hide Ending;
  }

  lemma OnReadServerFinished(g: Config, verify: Option<Message>, s: Script, behind: seq<Record>, c: Client)
    requires Ready(g, verify, s, behind, c) && c.state.ReadServerFinished? && Whole(c.io)
    ensures GoesOn(g, verify, s, behind, c, DoReadServerFinished(g, c))
  {
    GreetsFacts(g, verify, s);
    IsClosing(g, verify, s, behind, c);
    KeyPlaceEmpty(g, s, behind);
    FinishedStream(verify, s, behind, c);
    hide *;
    var k, d := if s.resumed then 4 else 16, DoReadServerFinished(g, c);
    var n := Calls(c.state, s.resumed);
    ClosingFacts(g, s, c, k, n);
    if c.io.pending == [] {
      FinishedWaits(g, c);
      Stays(g, verify, s, behind, c);
    } else {
      FinishedTaken(g, s, c, k);
      FinishedNext(verify, s, behind, c, d);
      WillingSame(c.io.answers, d.io.answers, n);
      Closes(g, verify, s, behind, c, d, k, n, k + 1, n);
    }
  }

  lemma FinishedWaits(g: Config, c: Client)
    requires c.state.ReadServerFinished? && c.io.pending == []
    ensures Reads(c) && DoReadServerFinished(g, c) == c.(io := Await(c.io))
  {
  }

  lemma FinishedStream(verify: Option<Message>, s: Script, behind: seq<Record>, c: Client)
    requires s.Valid() && c.state.ReadServerFinished? && c.deal.resumed == s.resumed && Streams(verify, s, behind, c)
    ensures At(c.state, c.deal) == (if s.resumed then 4 else 16) && Ending(c.io, Arriving(behind))
  {
  }

  lemma FinishedNext(verify: Option<Message>, s: Script, behind: seq<Record>, c: Client, d: Client)
    requires s.Valid() && c.state.ReadServerFinished? && c.deal.resumed == s.resumed
    requires d == c.(state := if s.resumed then SendClientFinished else FinishClientHandshake, io := d.io)
    requires d.io.wait.Go? && d.io.inbox == c.io.inbox && d.io.flushes == c.io.flushes && Ending(d.io, [])
    ensures Further(s, c, d, if s.resumed then 5 else 17, Calls(c.state, s.resumed))
    ensures Streams(verify, s, behind, d) && !BeforeTicket(d.state, s.resumed)
  {
    hide Ending;
  }

  // ---------------------------------------------------------------- the first states

  lemma OnStartConnect(g: Config, verify: Option<Message>, s: Script, behind: seq<Record>, c: Client)
    requires Ready(g, verify, s, behind, c) && c.state.StartConnect?
    ensures GoesOn(g, verify, s, behind, c, DoStartConnect(g, c))
  {
    GreetsFacts(g, verify, s);
    IsBegun(g, verify, s, behind, c);
    EmitAside(c.io, Message(ClientHello, g.hello), [], behind);
    assert EarlySaid(g, s, c.state) == [] && EarlyDue(verify, s, c.state) == EarlyDue(verify, s, EnterEarlyData);
    assert EarlySaid(g, s, EnterEarlyData) == [Message(ClientHello, g.hello)];
    StartNext(g, c);
    hide *;
    var d := DoStartConnect(g, c);
    BeginsStartConnect(g, behind, c, EarlyDue(verify, s, c.state));
    EarlyMoves(g, verify, s, behind, c, d);
  }

  lemma StartNext(g: Config, c: Client)
    requires c.state.StartConnect?
    ensures var d := DoStartConnect(g, c);
            && d.state.EnterEarlyData? && d.io.wait.Flush? && Order(d.state, false) > Order(c.state, false)
            && d.io.inbox == c.io.inbox && d.io.flushes == c.io.flushes
  {
    hide Emit;
    EmitAside(c.io, Message(ClientHello, g.hello), [], []);
  }

  lemma EarlyMoves(g: Config, verify: Option<Message>, s: Script, behind: seq<Record>, c: Client, d: Client)
    requires Greets(g, verify, s) && d.io.inbox == c.io.inbox && d.io.flushes == c.io.flushes
    requires d.state.EnterEarlyData? || d.state.ReadHelloVerifyRequest? || d.state.ReadServerHello?
    requires d.io.wait.Go? || d.io.wait.Flush?
    requires Begun(behind, d, EarlySaid(g, s, d.state), EarlyDue(verify, s, d.state))
    requires Order(d.state, false) > Order(c.state, false) && PreHello(c.state)
    ensures GoesOn(g, verify, s, behind, c, d)
  {
    hide Greets, Begun, On;
    BegunOn(g, verify, s, behind, d);
  }

  lemma OnEnterEarlyData(g: Config, verify: Option<Message>, s: Script, behind: seq<Record>, c: Client)
    requires Ready(g, verify, s, behind, c) && c.state.EnterEarlyData?
    ensures GoesOn(g, verify, s, behind, c, DoEnterEarlyData(g, c))
  {
    GreetsFacts(g, verify, s);
    IsBegun(g, verify, s, behind, c);
    EarlyNext(g, verify, s, behind, c);
    hide *;
    EarlyMoves(g, verify, s, behind, c, DoEnterEarlyData(g, c));
  }

  lemma EarlyNext(g: Config, verify: Option<Message>, s: Script, behind: seq<Record>, c: Client)
    requires Greets(g, verify, s) && c.state.EnterEarlyData? && c.io.wait.Go?
    requires Begun(behind, c, EarlySaid(g, s, c.state), EarlyDue(verify, s, c.state))
    ensures var d := DoEnterEarlyData(g, c);
            && (d.state.ReadHelloVerifyRequest? || d.state.ReadServerHello?) && d.io.wait.Go?
            && Order(d.state, false) > Order(c.state, false) && PreHello(c.state)
            && d.io.inbox == c.io.inbox && d.io.flushes == c.io.flushes
            && Begun(behind, d, EarlySaid(g, s, d.state), EarlyDue(verify, s, d.state))
  {
    hide Hashed, Coming, Willing, Script.Spoken;
    assert [] + Due(s, 1) == Due(s, 1);
  }

  lemma OnReadHelloVerifyRequest(g: Config, verify: Option<Message>, s: Script, behind: seq<Record>, c: Client)
    requires Ready(g, verify, s, behind, c) && c.state.ReadHelloVerifyRequest?
    ensures GoesOn(g, verify, s, behind, c, DoReadHelloVerifyRequest(g, c))
  {
    GreetsFacts(g, verify, s);
    IsBegun(g, verify, s, behind, c);
    CookieNext(g, c);
    assert EarlySaid(g, s, c.state) == [Message(ClientHello, g.hello)];
    assert EarlyDue(verify, s, c.state) == Cookie(verify) + Due(s, 1);
    assert EarlySaid(g, s, ReadServerHello) == s.parts[0] && EarlyDue(verify, s, ReadServerHello) == Due(s, 1);
    hide *;
    if c.io.pending == [] {
      Stays(g, verify, s, behind, c);
    } else {
      BeginsReadHelloVerifyRequest(g, verify, s, behind, c);
      EarlyMoves(g, verify, s, behind, c, DoReadHelloVerifyRequest(g, c));
    }
  }

  lemma CookieNext(g: Config, c: Client)
    requires c.state.ReadHelloVerifyRequest? && c.io.wait.Go?
    ensures Reads(c) && PreHello(c.state) && Order(ReadServerHello, false) > Order(c.state, false)
    ensures var d := DoReadHelloVerifyRequest(g, c);
            && (c.io.pending == [] ==> d == c.(io := Await(c.io)))
            && (d.state.ReadServerHello? ==> d.io.wait.Go? || d.io.wait.Flush?)
            && d.io.inbox == c.io.inbox && d.io.flushes == c.io.flushes
  {
    hide Emit;
    if c.io.pending != [] {
      EmitAside(Restarting(c.io), Message(ClientHello, g.secondHello(c.io.pending[0])), [], []);
    }
  }

  lemma OnReadServerHello(g: Config, verify: Option<Message>, s: Script, behind: seq<Record>, c: Client)
    requires Ready(g, verify, s, behind, c) && c.state.ReadServerHello?
    ensures GoesOn(g, verify, s, behind, c, DoReadServerHello(g, c))
  {
    GreetsFacts(g, verify, s);
    IsBegun(g, verify, s, behind, c);
    HelloNext(g, c);
    assert EarlySaid(g, s, ReadServerHello) == s.parts[0] && EarlyDue(verify, s, ReadServerHello) == Due(s, 1);
    hide *;
    if c.io.pending == [] {
      Stays(g, verify, s, behind, c);
    } else {
      TakesHello(g, verify, s, behind, c);
      HelloOn(g, verify, s, behind, c, DoReadServerHello(g, c));
    }
  }

  lemma HelloNext(g: Config, c: Client)
    requires c.state.ReadServerHello?
    ensures Reads(c) && (c.io.pending == [] ==> DoReadServerHello(g, c) == c.(io := Await(c.io)))
  {
  }

  lemma HelloOn(g: Config, verify: Option<Message>, s: Script, behind: seq<Record>, c: Client, d: Client)
    requires Greets(g, verify, s) && Begun(behind, c, s.parts[0], Due(s, 1))
    requires c.state.ReadServerHello? && c.io.wait.Go?
    requires d.state == (if s.resumed then ReadSessionTicket else ReadServerCertificate)
    requires var h := Info(g, s);
             && d.deal == Deal(s.resumed, h.cipher, h.certificateStatus, h.nextProto, h.channelId)
             && (d.ticket.TicketExpected? <==> h.ticket) && d.peer == c.peer && d.request == c.request
    requires Hashed(d.io.log) == s.Upto(2) && Coming(d.io, Due(s, 2), behind) && d.io.answers == c.io.answers
    requires d.io.wait == c.io.wait && d.io.inbox == c.io.inbox && d.io.flushes == c.io.flushes
    ensures GoesOn(g, verify, s, behind, c, d)
  {
    hide Hashed, Coming, Willing, Script.Spoken, Script.Upto, On;
    WillingLess(c.io.answers, 4, 1);
    if s.resumed {
      ClosingOn(g, verify, s, behind, d, 2);
    } else {
      MidOn(g, verify, s, behind, d, 2);
    }
  }

  // ---------------------------------------------------------------- the middle states

  lemma MidMoves(g: Config, verify: Option<Message>, s: Script, behind: seq<Record>, c: Client, d: Client, next: State,
                 k: nat, n: nat)
    requires Greets(g, verify, s) && !s.resumed && On(g, verify, s, behind, c) && c.io.wait.Go? && k <= 10
    requires Does(g, s, behind, c, d, next, k, n) && Middle(next) && n == Calls(next, false)
    requires At(next, d.deal) == k && Order(next, false) > Order(c.state, false)
    ensures GoesOn(g, verify, s, behind, c, d)
  {
    GreetsFacts(g, verify, s);
    hide On, Greets, GoesOn, Mid, Reads;
    if d.state == next && d.io.wait.Go? && Mid(g, s, behind, d, k, n) {
      MidFull(g, s, behind, d, k, n);
      Moves(g, verify, s, behind, c, d, k);
    } else {
      Stays(g, verify, s, behind, c);
    }
  }

  lemma MidFull(g: Config, s: Script, behind: seq<Record>, c: Client, k: nat, n: nat)
    requires s.Valid() && !s.resumed && s.parts[1] != [] && g.parseHello(s.parts[1][0]).Some? && k <= 10
    requires Mid(g, s, behind, c, k, n)
    ensures !c.deal.resumed
  {
  }

  /** Where the middle states are. */
  lemma MiddlePlaces(st: State, d: Deal)
    requires Middle(st) && !d.resumed
    ensures st.ReadServerCertificate? ==> At(st, d) == 2 && Calls(st, false) == 4
    ensures st.ReadCertificateStatus? ==> At(st, d) == 3 && Calls(st, false) == 4
    ensures st.VerifyServerCertificate? ==> At(st, d) == 4 && Calls(st, false) == 4
    ensures st.ReadServerKeyExchange? ==> At(st, d) == 4 && Calls(st, false) == 3
    ensures st.ReadCertificateRequest? ==> At(st, d) == 5 && Calls(st, false) == 3
    ensures st.ReadServerHelloDone? ==> At(st, d) == 6 && Calls(st, false) == 3
    ensures st.SendClientCertificate? ==> At(st, d) == 7 && Calls(st, false) == 3
    ensures st.SendClientKeyExchange? ==> At(st, d) == 8 && Calls(st, false) == 2
    ensures st.SendClientCertificateVerify? ==> At(st, d) == 9 && Calls(st, false) == 2
    ensures st.SendClientFinished? ==> At(st, d) == 10 && Calls(st, false) == 1
  {
  }

  /** What the states of the middle do, one for all. */
  ghost predicate BufferKept(g: Config, c: Client) {
    && c.state.SendClientCertificateVerify? && c.request.Some? && g.hasCertificate
    ==> c.io.buffer == Some(Hashed(c.io.log))
  }

  function Following(st: State): State {
    match st
    case ReadServerCertificate => ReadCertificateStatus
    case ReadCertificateStatus => VerifyServerCertificate
    case VerifyServerCertificate => ReadServerKeyExchange
    case ReadServerKeyExchange => ReadCertificateRequest
    case ReadCertificateRequest => ReadServerHelloDone
    case ReadServerHelloDone => SendClientCertificate
    case SendClientCertificate => SendClientKeyExchange
    case SendClientKeyExchange => SendClientCertificateVerify
    case _ => SendClientFinished
  }

  lemma FollowingMiddle(st: State)
    requires Middle(st) && !st.SendClientFinished?
    ensures Middle(Following(st)) && Order(Following(st), false) > Order(st, false)
  {
  }

  lemma DoesMiddle(g: Config, s: Script, behind: seq<Record>, c: Client)
    requires s.Valid() && !s.resumed && s.parts[1] != [] && g.parseHello(s.parts[1][0]).Some?
    requires Middle(c.state) && !c.state.SendClientFinished? && !c.deal.resumed && BufferKept(g, c)
    requires At(c.state, c.deal) <= 10 && Turn(g, s, behind, c, c.state, At(c.state, c.deal), Calls(c.state, false))
    ensures var next := Following(c.state);
            && At(next, c.deal) <= 10
            && Does(g, s, behind, c, Do(g, c), next, At(next, c.deal), Calls(next, false))
  {
    MiddlePlaces(c.state, c.deal);
    FollowingMiddle(c.state);
    MiddlePlaces(Following(c.state), c.deal);
    hide At, Calls, Turn, Does;
    hide DoReadServerCertificate, DoReadCertificateStatus, DoVerifyServerCertificate, DoReadServerKeyExchange,
         DoReadCertificateRequest, DoReadServerHelloDone, DoSendClientCertificate, DoSendClientKeyExchange,
         DoSendClientCertificateVerify;
    match c.state
    case ReadServerCertificate => DoesReadServerCertificate(g, s, behind, c);
    case ReadCertificateStatus => DoesReadCertificateStatus(g, s, behind, c);
    case VerifyServerCertificate => DoesVerifyServerCertificate(g, s, behind, c);
    case ReadServerKeyExchange => DoesReadServerKeyExchange(g, s, behind, c);
    case ReadCertificateRequest => DoesReadCertificateRequest(g, s, behind, c);
    case ReadServerHelloDone => DoesReadServerHelloDone(g, s, behind, c);
    case SendClientCertificate => DoesSendClientCertificate(g, s, behind, c);
    case SendClientKeyExchange => DoesSendClientKeyExchange(g, s, behind, c);
    case SendClientCertificateVerify => DoesSendClientCertificateVerify(g, s, behind, c);
  }

  lemma OnMiddle(g: Config, verify: Option<Message>, s: Script, behind: seq<Record>, c: Client)
    requires Ready(g, verify, s, behind, c) && !s.resumed && Presents(g, s, Info(g, s)) && Answers(g, s)
    requires Middle(c.state) && !c.state.SendClientFinished? && BufferKept(g, c)
    ensures GoesOn(g, verify, s, behind, c, Do(g, c))
  {
    GreetsFacts(g, verify, s);
    IsMid(g, verify, s, behind, c);
    var k, n := At(c.state, c.deal), Calls(c.state, false);
    MidFull(g, s, behind, c, k, n);
    assert Turn(g, s, behind, c, c.state, k, n);
    FollowingMiddle(c.state);
    DoesMiddle(g, s, behind, c);
    hide At, Calls, Does, Mid, Turn, Do, On, GoesOn, Greets;
    var d, next := Do(g, c), Following(c.state);
    DealKept(g, s, behind, c, d, next, At(next, c.deal), Calls(next, false));
    MidMoves(g, verify, s, behind, c, d, next, At(next, c.deal), Calls(next, false));
  }

  lemma DealKept(g: Config, s: Script, behind: seq<Record>, c: Client, d: Client, next: State, k: nat, n: nat)
    requires s.Valid() && !s.resumed && s.parts[1] != [] && g.parseHello(s.parts[1][0]).Some? && k <= 10
    requires Does(g, s, behind, c, d, next, k, n) && !c.deal.resumed
    ensures At(next, d.deal) == At(next, c.deal)
  {
  }

  // ---------------------------------------------------------------- every turn

  /** What the invariant of every run adds. */
  ghost predicate Hashes(g: Config, c: Client) {
    (Negotiated(c.state) ==> Whole(c.io)) && BufferKept(g, c)
  }

  lemma InvHashes(g: Config, c: Client, all: seq<Message>)
    requires Inv(g, c, all)
    ensures Hashes(g, c)
  {
    hide FactsOf, Hashed, AllLegit, Conserved;
  }

  /** Every state goes on. */
  lemma TurnGoesOn(g: Config, verify: Option<Message>, s: Script, behind: seq<Record>, c: Client)
    requires InOrder(g, verify, s) && Ready(g, verify, s, behind, c) && Hashes(g, c) && !c.state.Done?
    ensures GoesOn(g, verify, s, behind, c, Do(g, c))
  {
    ResumedOnly(g, verify, s, behind, c);
    PathFacts(g, s, c, verify);
    hide *;
    OtherStates(c.state);
    DoOthers(g, c);
    match c.state
    case StartConnect => OnStartConnect(g, verify, s, behind, c);
    case EnterEarlyData => OnEnterEarlyData(g, verify, s, behind, c);
    case ReadHelloVerifyRequest => OnReadHelloVerifyRequest(g, verify, s, behind, c);
    case ReadServerHello => OnReadServerHello(g, verify, s, behind, c);
    case SendClientFinished => OnSendClientFinished(g, verify, s, behind, c);
    case FinishFlight => OnFinishFlight(g, verify, s, behind, c);
    case ReadSessionTicket => OnReadSessionTicket(g, verify, s, behind, c);
    case ProcessChangeCipherSpec => OnProcessChangeCipherSpec(g, verify, s, behind, c);
    case ReadServerFinished => OnReadServerFinished(g, verify, s, behind, c);
    case FinishClientHandshake => OnFinishClientHandshake(g, verify, s, behind, c);
    case _ => OnMiddle(g, verify, s, behind, c);
  }

  /** What each state relies on besides its place. */
  lemma PathFacts(g: Config, s: Script, c: Client, verify: Option<Message>)
    requires InOrder(g, verify, s) && Hashes(g, c) && (s.resumed && Negotiated(c.state) ==> ResumedState(c.state))
    ensures c.state.SendClientFinished? || c.state.ReadServerFinished? ==> Whole(c.io)
    ensures Middle(c.state) && !c.state.SendClientFinished? ==>
              !s.resumed && Presents(g, s, Info(g, s)) && Answers(g, s) && BufferKept(g, c)
  {
    hide Greets, Presents, Answers, Confirms, Seals, Whole, BufferKept;
  }

  lemma OtherStates(st: State)
    ensures || Middle(st) || st.StartConnect? || st.EnterEarlyData? || st.ReadHelloVerifyRequest?
            || st.ReadServerHello? || st.FinishFlight? || st.ReadSessionTicket? || st.ProcessChangeCipherSpec?
            || st.ReadServerFinished? || st.FinishClientHandshake? || st.Tls13? || st.Done?
  {
  }

  lemma DoOthers(g: Config, c: Client)
    ensures c.state.StartConnect? ==> Do(g, c) == DoStartConnect(g, c)
    ensures c.state.EnterEarlyData? ==> Do(g, c) == DoEnterEarlyData(g, c)
    ensures c.state.ReadHelloVerifyRequest? ==> Do(g, c) == DoReadHelloVerifyRequest(g, c)
    ensures c.state.ReadServerHello? ==> Do(g, c) == DoReadServerHello(g, c)
    ensures c.state.SendClientFinished? ==> Do(g, c) == DoSendClientFinished(g, c)
    ensures c.state.FinishFlight? ==> Do(g, c) == DoFinishFlight(g, c)
    ensures c.state.ReadSessionTicket? ==> Do(g, c) == DoReadSessionTicket(g, c)
    ensures c.state.ProcessChangeCipherSpec? ==> Do(g, c) == DoProcessChangeCipherSpec(g, c)
    ensures c.state.ReadServerFinished? ==> Do(g, c) == DoReadServerFinished(g, c)
    ensures c.state.FinishClientHandshake? ==> Do(g, c) == DoFinishClientHandshake(g, c)
  {
    hide DoStartConnect, DoEnterEarlyData, DoReadHelloVerifyRequest, DoReadServerHello, DoSendClientFinished,
         DoFinishFlight, DoReadSessionTicket, DoProcessChangeCipherSpec, DoReadServerFinished, DoFinishClientHandshake;
  }

  lemma ResumedOnly(g: Config, verify: Option<Message>, s: Script, behind: seq<Record>, c: Client)
    requires Greets(g, verify, s) && On(g, verify, s, behind, c)
    ensures !c.state.Tls13? && (s.resumed && Negotiated(c.state) ==> ResumedState(c.state))
  {
    hide Streams;
  }

  /** How far a client is from the end: what is to come, the states, failing flushes, and what it waits for. */
  function Weight(c: Client): nat {
    if c.io.wait.Flush? || c.io.wait.EarlyReturn? then 2 else if c.io.wait.Go? then 1 else 0
  }

  /** One turn nearer to the end. */
  predicate Nearer(s: Script, c: Client, d: Client) {
    || |d.io.inbox| < |c.io.inbox|
    || (|d.io.inbox| == |c.io.inbox|
        && (Order(d.state, s.resumed) > Order(c.state, s.resumed)
            || (Order(d.state, s.resumed) == Order(c.state, s.resumed)
                && (|d.io.flushes| < |c.io.flushes|
                    || (|d.io.flushes| == |c.io.flushes| && Weight(d) < Weight(c))))))
  }

  /** What was waited for is there, or a flush has failed once more. */
  lemma WaitGoesOn(g: Config, verify: Option<Message>, s: Script, behind: seq<Record>, c: Client)
    requires InOrder(g, verify, s) && Greets(g, verify, s) && Tail(g, s, behind) && On(g, verify, s, behind, c)
    requires !c.io.wait.Go?
    ensures var d := c.(io := Resolve(c.io)); On(g, verify, s, behind, d) && Nearer(s, c, d)
  {
    hide *;
    GreetsFacts(g, verify, s);
    TailSeals(g, s, behind);
    OnStreams(g, verify, s, behind, c);
    var d := c.(io := Resolve(c.io));
    ResolveSame(c.io);
    if c.io.wait.ReadChangeCipherSpec? {
      KeyArrives(verify, s, behind, c);
      FewerNearer(s, c, d);
    } else if c.io.wait.ReadMessage? {
      MessageArrives(g, verify, s, behind, c);
      FewerNearer(s, c, d);
    } else {
      Resumes(s, c);
      StreamsAside(verify, s, behind, c, d);
    }
    SameAccount(g, verify, s, behind, c, d);
  }

  lemma OnStreams(g: Config, verify: Option<Message>, s: Script, behind: seq<Record>, c: Client)
    requires Greets(g, verify, s) && On(g, verify, s, behind, c)
    ensures Streams(verify, s, behind, c) && Waits(c)
  {
  }

  lemma FewerNearer(s: Script, c: Client, d: Client)
    requires |d.io.inbox| < |c.io.inbox|
    ensures Nearer(s, c, d)
  {
  }

  /** A flush or an early return: the same is waited for with one attempt less, or nothing. */
  lemma Resumes(s: Script, c: Client)
    requires Waits(c) && !c.io.wait.Go? && !c.io.wait.ReadMessage? && !c.io.wait.ReadChangeCipherSpec?
    ensures var d := c.(io := Resolve(c.io));
            && Waits(d) && Nearer(s, c, d) && d.io.answers == c.io.answers && d.io.log == c.io.log
            && d.io.inbox == c.io.inbox && d.io.pending == c.io.pending && d.io.early == c.io.early
            && !d.io.wait.ReadChangeCipherSpec?
  {
    hide Order;
  }

  lemma SameAccount(g: Config, verify: Option<Message>, s: Script, behind: seq<Record>, c: Client, d: Client)
    requires Greets(g, verify, s) && On(g, verify, s, behind, c)
    requires d == c.(io := d.io) && d.io.log == c.io.log && d.io.answers == c.io.answers && Waits(d)
    requires Streams(verify, s, behind, d)
    ensures On(g, verify, s, behind, d)
  {
    hide Streams, Hashed, Willing, Script.Upto;
  }

  lemma StreamsAside(verify: Option<Message>, s: Script, behind: seq<Record>, c: Client, d: Client)
    requires s.Valid() && Streams(verify, s, behind, c) && d == c.(io := d.io)
    requires d.io.inbox == c.io.inbox && d.io.pending == c.io.pending && d.io.early == c.io.early
    requires c.io.wait.ReadChangeCipherSpec? == d.io.wait.ReadChangeCipherSpec?
    ensures Streams(verify, s, behind, d)
  {
    hide Coming, Ending, Script.Spoken;
    SameComing(c.io, d.io, Cookie(verify) + Due(s, 1), behind);
    SameComing(c.io, d.io, Due(s, At(c.state, c.deal)), behind);
    SameComing(c.io, d.io, Arriving(behind), behind);
    SameComing(c.io, d.io, [], behind);
  }

  lemma KeyArrives(verify: Option<Message>, s: Script, behind: seq<Record>, c: Client)
    requires s.Valid() && Streams(verify, s, behind, c) && Waits(c) && c.io.wait.ReadChangeCipherSpec? && Full(behind)
    ensures var d := c.(io := Resolve(c.io));
            && Streams(verify, s, behind, d) && Waits(d) && |d.io.inbox| < |c.io.inbox| && d.io.answers == c.io.answers
            && d.io.log == c.io.log
  {
    hide Coming, Ending, Arriving;
    ComingKey(c.io, behind);
  }

  /** The place of a state that needs a message, or one behind it, has one. */
  lemma DueSaid(g: Config, verify: Option<Message>, s: Script, st: State, d: Deal, ticket: Ticket)
    requires InOrder(g, verify, s) && Greets(g, verify, s) && d == DealOf(g, verify, s)
    requires s.resumed ==> ResumedState(st)
    requires st.ReadSessionTicket? && ticket.TicketExpected? ==> Info(g, s).ticket
    requires || st.ReadServerCertificate? || st.ReadCertificateStatus? || st.ReadServerKeyExchange?
             || st.ReadCertificateRequest? || st.ReadServerHelloDone?
             || (st.ReadSessionTicket? && ticket.TicketExpected?)
    ensures At(st, d) <= |s.parts| && Due(s, At(st, d)) != []
  {
    hide *;
    GreetsFacts(g, verify, s);
    DuePlace(g, verify, s, st);
    if st.ReadSessionTicket? {
      TicketDue(g, verify, s);
    } else {
      FullDue(g, verify, s, At(st, d));
    }
  }

  lemma DuePlace(g: Config, verify: Option<Message>, s: Script, st: State)
    requires Greets(g, verify, s) && (s.resumed ==> ResumedState(st))
    requires || st.ReadServerCertificate? || st.ReadCertificateStatus? || st.ReadServerKeyExchange?
             || st.ReadCertificateRequest? || st.ReadServerHelloDone? || st.ReadSessionTicket?
    ensures st.ReadSessionTicket? ==> At(st, DealOf(g, verify, s)) == if s.resumed then 2 else 14
    ensures !st.ReadSessionTicket? ==> !s.resumed && 2 <= At(st, DealOf(g, verify, s)) <= 6
    ensures |s.parts| == if s.resumed then 9 else 17
  {
  }

  function DealOf(g: Config, verify: Option<Message>, s: Script): Deal
    requires Greets(g, verify, s)
  {
    var h := Info(g, s);
    Deal(s.resumed, h.cipher, h.certificateStatus, h.nextProto, h.channelId)
  }

  lemma FullDue(g: Config, verify: Option<Message>, s: Script, k: nat)
    requires InOrder(g, verify, s) && !s.resumed && 2 <= k <= 6
    ensures Due(s, k) != []
  {
    LaterKinds(g, s, Info(g, s));
    hide *;
    DueNext(s, 3);
    DueNext(s, 2);
  }

  lemma TicketDue(g: Config, verify: Option<Message>, s: Script)
    requires InOrder(g, verify, s) && Info(g, s).ticket
    ensures Due(s, if s.resumed then 2 else 14) != []
  {
    var k := if s.resumed then 2 else 14;
    assert s.parts[k] != [] && s.Who(k).TheServer? && k < KeyPlace(s);
    hide *;
    DueNext(s, k);
  }

  lemma HelloDue(g: Config, verify: Option<Message>, s: Script)
    requires Greets(g, verify, s)
    ensures Due(s, 1) != []
  {
    assert s.parts[1] != [] && s.Who(1).TheServer? && 1 < KeyPlace(s);
    hide *;
    DueNext(s, 1);
  }

  lemma OnFacts(g: Config, verify: Option<Message>, s: Script, behind: seq<Record>, c: Client)
    requires Greets(g, verify, s) && On(g, verify, s, behind, c)
    ensures Negotiated(c.state) ==> c.deal == DealOf(g, verify, s) && (s.resumed ==> ResumedState(c.state))
    ensures c.state.ReadSessionTicket? ==> (c.ticket.TicketExpected? <==> Info(g, s).ticket)
    ensures !Negotiated(c.state) ==> !c.deal.resumed
  {
    hide Streams, Hashed, Willing, Script.Upto;
  }

  /** A state that waits for a message is due one. */
  lemma MessageDue(g: Config, verify: Option<Message>, s: Script, behind: seq<Record>, c: Client)
    requires InOrder(g, verify, s) && Greets(g, verify, s) && On(g, verify, s, behind, c) && Reads(c)
    ensures At(c.state, c.deal) <= |s.parts|
    ensures !Starting(c.state) && !c.state.ReadServerFinished? ==> Due(s, At(c.state, c.deal)) != []
    ensures Due(s, 1) != []
    ensures !c.state.ProcessChangeCipherSpec? && !Finishing(c.state, s.resumed)
  {
    hide *;
    GreetsFacts(g, verify, s);
    HelloDue(g, verify, s);
    OnFacts(g, verify, s, behind, c);
    ReadsAre(s, c);
    if !Negotiated(c.state) {
      EarlyPlace(c.state, c.deal);
    } else if c.state.ReadServerFinished? {
      FinishedPlaceIs(g, verify, s, c.state, c.deal);
    } else {
      DueSaid(g, verify, s, c.state, c.deal, c.ticket);
    }
  }

  /** The states that need a message. */
  lemma ReadsAre(s: Script, c: Client)
    requires Reads(c)
    ensures !c.state.ProcessChangeCipherSpec? && !Finishing(c.state, s.resumed)
    ensures !Negotiated(c.state) ==> c.state.ReadHelloVerifyRequest? || c.state.ReadServerHello?
    ensures c.state.ReadServerHello? ==> At(c.state, c.deal) == 1
    ensures c.state.ReadHelloVerifyRequest? ==> Starting(c.state)
    ensures Negotiated(c.state) && !c.state.ReadServerFinished? ==>
              || c.state.ReadServerCertificate? || c.state.ReadCertificateStatus? || c.state.ReadServerKeyExchange?
              || c.state.ReadCertificateRequest? || c.state.ReadServerHelloDone?
              || (c.state.ReadSessionTicket? && c.ticket.TicketExpected?)
    ensures s.Valid() ==> |s.parts| >= 9
  {
  }

  lemma FinishedPlaceIs(g: Config, verify: Option<Message>, s: Script, st: State, d: Deal)
    requires Greets(g, verify, s) && st.ReadServerFinished? && d == DealOf(g, verify, s)
    ensures At(st, d) <= |s.parts|
  {
  }

  lemma EarlyPlace(st: State, d: Deal)
    requires !Negotiated(st)
    ensures At(st, d) <= 1
  {
  }

  lemma MessageArrives(g: Config, verify: Option<Message>, s: Script, behind: seq<Record>, c: Client)
    requires InOrder(g, verify, s) && Greets(g, verify, s) && Tail(g, s, behind) && On(g, verify, s, behind, c)
    requires c.io.wait.ReadMessage?
    ensures var d := c.(io := Resolve(c.io));
            && Streams(verify, s, behind, d) && Waits(d) && |d.io.inbox| < |c.io.inbox| && d.io.answers == c.io.answers
            && d.io.log == c.io.log
  {
    assert Reads(c) && c.io.pending == [] && Streams(verify, s, behind, c);
    MessageDue(g, verify, s, behind, c);
    KeyPlaceEmpty(g, s, behind);
    hide Coming, Ending, Arriving, On, Tail, InOrder, Greets, Script.Spoken, Reads;
    if Starting(c.state) {
      ComingFetch(c.io, Cookie(verify) + Due(s, 1), behind);
    } else if c.state.ReadServerFinished? {
      EndingFetch(c.io, Arriving(behind));
    } else {
      ComingFetch(c.io, Due(s, At(c.state, c.deal)), behind);
    }
  }

  lemma OneTurn(g: Config, verify: Option<Message>, s: Script, behind: seq<Record>, c: Client, all: seq<Message>)
    requires InOrder(g, verify, s) && Greets(g, verify, s) && Tail(g, s, behind) && On(g, verify, s, behind, c)
    requires Inv(g, c, all) && !c.state.Done?
    ensures var d := TlsClient.Step(g, c); On(g, verify, s, behind, d) && Inv(g, d, all) && Nearer(s, c, d)
  {
    InvHashes(g, c, all);
    hide InOrder, Greets, Tail, On, Inv, Hashes, Do, Resolve, Order;
    KeepStep(g, c, all);
    if c.io.wait.Go? {
      TurnGoesOn(g, verify, s, behind, c);
      GoesNearer(g, verify, s, behind, c, Do(g, c));
    } else {
      WaitGoesOn(g, verify, s, behind, c);
    }
  }

  lemma GoesNearer(g: Config, verify: Option<Message>, s: Script, behind: seq<Record>, c: Client, d: Client)
    requires Greets(g, verify, s) && GoesOn(g, verify, s, behind, c, d)
    ensures On(g, verify, s, behind, d) && Nearer(s, c, d)
  {
    hide Greets, On, Order;
  }

  /** From anywhere in the script to its end. */
  lemma {:induction false} GetsDone(g: Config, verify: Option<Message>, s: Script, behind: seq<Record>, c: Client,
                                    all: seq<Message>)
    returns (n: nat)
    requires InOrder(g, verify, s) && Greets(g, verify, s) && Tail(g, s, behind) && On(g, verify, s, behind, c)
    requires Inv(g, c, all)
    ensures Run(g, c, n).state.Done? && On(g, verify, s, behind, Run(g, c, n))
    decreases |c.io.inbox|, 30 - Order(c.state, s.resumed), |c.io.flushes|, Weight(c)
  {
    hide InOrder, Greets, Tail, On, Inv, TlsClient.Step, Order, Weight;
    n := 0;
    if !c.state.Done? {
      var d := TlsClient.Step(g, c);
      OneTurn(g, verify, s, behind, c, all);
      OrderBound(d.state, s.resumed);
      var k := GetsDone(g, verify, s, behind, d, all);
      RunLater(g, c, k);
      n := k + 1;
    }
  }

  lemma OrderBound(st: State, resumed: bool)
    ensures Order(st, resumed) <= 21
  {
  }

  lemma {:induction false} RunLater(g: Config, c: Client, n: nat)
    ensures Run(g, c, n + 1) == Run(g, TlsClient.Step(g, c), n)
  {
    hide TlsClient.Step;
    if n > 0 { RunLater(g, c, n - 1); }
  }

  /** The messages of a script that a server has for a client, before its new key. */
  function Inbound(verify: Option<Message>, s: Script): seq<Message>
    requires s.Valid()
  {
    Cookie(verify) + Due(s, 1)
  }

  /**
  A client completes every handshake that is in order: with what the server says on its way in any records, in order
  and with the ChangeCipherSpec in its place, an application that agrees, and any flushes failing, it is done after
  some turns, and its transcript is the whole script.
  */
  lemma Completes(g: Config, verify: Option<Message>, s: Script, front: seq<Record>, behind: seq<Record>,
                  answers: seq<Answer>, flushes: seq<bool>)
    requires InOrder(g, verify, s) && Full(front) && Full(behind) && Willing(answers, 4)
    requires Arriving(front) == Inbound(verify, s) && Arriving(behind) == s.parts[if s.resumed then 4 else 16]
    ensures exists n :: var c := Run(g, New(g, front + [ChangeCipherSpec] + behind, answers, flushes), n);
              c.state.Done? && Hashed(c.io.log) == s.Whole()
  {
    var c := New(g, front + [ChangeCipherSpec] + behind, answers, flushes);
    BeginsOn(g, verify, s, front, behind, answers, flushes);
    assert Tail(g, s, behind);
    KeepRun(g, front + [ChangeCipherSpec] + behind, answers, flushes, 0);
    hide InOrder, Tail, Inv, On, Greets, New, TlsClient.Step;
    var n := GetsDone(g, verify, s, behind, c, Arriving(front + [ChangeCipherSpec] + behind));
    DoneWhole(g, verify, s, behind, Run(g, c, n));
  }

  lemma BeginsOn(g: Config, verify: Option<Message>, s: Script, front: seq<Record>, behind: seq<Record>,
                 answers: seq<Answer>, flushes: seq<bool>)
    requires Greets(g, verify, s) && Full(front) && Willing(answers, 4) && Arriving(front) == Inbound(verify, s)
    ensures On(g, verify, s, behind, New(g, front + [ChangeCipherSpec] + behind, answers, flushes))
  {
    hide Arriving, Script.Spoken, Willing;
    var inbox := front + [ChangeCipherSpec] + behind;
    assert inbox[..|front|] == front && inbox[|front| + 1..] == behind;
    assert [] + Arriving(front) == Arriving(front);
    BegunOn(g, verify, s, behind, New(g, inbox, answers, flushes));
  }

  lemma DoneWhole(g: Config, verify: Option<Message>, s: Script, behind: seq<Record>, c: Client)
    requires Greets(g, verify, s) && On(g, verify, s, behind, c) && c.state.Done?
    ensures Hashed(c.io.log) == s.Whole()
  {
    hide Hashed, Streams, Script.Upto;
  }
}
