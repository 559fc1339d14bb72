/**
ssl_server_handshake as it runs: an object whose states are updated in place by one method a state, and the
loops that drive it.  Each method is proved to do what its specification in TlsServer says, and a call of
the driver to be a number of its turns, so that what holds of every run holds of this object.
*/
module TlsServerMachine {
  import opened Wire
  import opened TlsHandshake
  import opened TlsServer
  import opened TlsConnection

  /** How far a handshake has come. */
  function Rank(s: State, d: Deal): nat {
    match s
    case StartAccept => 0
    case ReadClientHello => 1
    case SelectCertificate => 2
    case Tls13 => 3
    case SelectParameters => 4
    case SendServerHello => 5
    case SendServerCertificate => 6
    case SendServerKeyExchange => 7
    case SendServerHelloDone => 8
    case ReadClientCertificate => 9
    case VerifyClientCertificate => 10
    case ReadClientKeyExchange => 11
    case ReadClientCertificateVerify => 12
    case SendServerFinished => if d.resumed then 13 else 19
    case AwaitChangeCipherSpec => 14
    case ProcessChangeCipherSpec => 15
    case ReadNextProto => 16
    case ReadChannelId => 17
    case ReadClientFinished => 18
    case FinishServerHandshake => 20
    case Done => 21
  }

  /** A state that does not wait for a message or for the application, and does not fail, comes further. */
  predicate Further(s: State, d: Deal, ret: Wait, t: State, e: Deal) {
    if ret.Go? || ret.Flush? then Rank(s, d) < Rank(t, e) else Rank(s, d) <= Rank(t, e)
  }

  /** From `c` to `d` the handshake came further or waits, and there is not more to receive than there was. */
  predicate Forth(c: Server, d: Server) {
    Further(c.state, c.deal, d.io.wait, d.state, d.deal) && AheadOf(d.io) <= AheadOf(c.io)
  }

  lemma ForthHello(g: Config, c: Server)
    requires c.io.wait.Go?
    ensures c.state.StartAccept? ==> Forth(c, DoStartAccept(g, c))
    ensures c.state.ReadClientHello? ==> Forth(c, DoReadClientHello(g, c))
    ensures c.state.SelectCertificate? ==> Forth(c, DoSelectCertificate(g, c))
  {
  }

  lemma ForthSelect(g: Config, c: Server)
    requires c.io.wait.Go?
    ensures c.state.SelectParameters? ==> Forth(c, DoSelectParameters(g, c))
  {
  }

  lemma ForthFlight(g: Config, c: Server)
    requires c.io.wait.Go?
    ensures c.state.SendServerHello? ==> Forth(c, DoSendServerHello(g, c))
    ensures c.state.SendServerCertificate? ==> Forth(c, DoSendServerCertificate(g, c))
  {
  }

  lemma ForthDone(g: Config, c: Server)
    requires c.io.wait.Go?
    ensures c.state.SendServerKeyExchange? ==> Forth(c, DoSendServerKeyExchange(g, c))
    ensures c.state.SendServerHelloDone? ==> Forth(c, DoSendServerHelloDone(g, c))
  {
  }

  lemma ForthCertificate(g: Config, c: Server)
    requires c.io.wait.Go?
    ensures c.state.ReadClientCertificate? ==> Forth(c, DoReadClientCertificate(g, c))
    ensures c.state.VerifyClientCertificate? ==> Forth(c, DoVerifyClientCertificate(g, c))
  {
  }

  lemma ForthExchange(g: Config, c: Server)
    requires c.io.wait.Go?
    ensures c.state.ReadClientKeyExchange? ==> Forth(c, DoReadClientKeyExchange(g, c))
  {
  }

  lemma ForthProof(g: Config, c: Server)
    requires c.io.wait.Go?
    ensures c.state.ReadClientCertificateVerify? ==> Forth(c, DoReadClientCertificateVerify(g, c))
  {
  }

  lemma ForthAwait(g: Config, c: Server)
    requires c.io.wait.Go?
    ensures c.state.AwaitChangeCipherSpec? ==> Forth(c, DoAwaitChangeCipherSpec(g, c))
    ensures c.state.ProcessChangeCipherSpec? ==> Forth(c, DoProcessChangeCipherSpec(g, c))
    ensures c.state.ReadNextProto? ==> Forth(c, DoReadNextProto(g, c))
  {
  }

  lemma ForthRead(g: Config, c: Server)
    requires c.io.wait.Go?
    ensures c.state.ReadChannelId? ==> Forth(c, DoReadChannelId(g, c))
    ensures c.state.ReadClientFinished? ==> Forth(c, DoReadClientFinished(g, c))
  {
  }

  lemma ForthLast(g: Config, c: Server)
    requires c.io.wait.Go?
    ensures c.state.SendServerFinished? ==> Forth(c, DoSendServerFinished(g, c))
    ensures c.state.FinishServerHandshake? ==> Forth(c, DoFinishServerHandshake(g, c))
  {
  }

  lemma ForthLeaves(c: Server)
    requires c.state.Tls13?
    ensures Forth(c, c.(io := c.io.(wait := LeftForTls13)))
  {
  }

  lemma ForthDo(g: Config, c: Server)
    requires c.io.wait.Go? && !c.state.Done?
    ensures Forth(c, Do(g, c))
  {
    hide Forth, DoStartAccept, DoReadClientHello, DoSelectCertificate, DoSelectParameters,
         DoSendServerHello, DoSendServerCertificate, DoSendServerKeyExchange, DoSendServerHelloDone,
         DoReadClientCertificate, DoVerifyClientCertificate, DoReadClientKeyExchange,
         DoReadClientCertificateVerify, DoAwaitChangeCipherSpec, DoProcessChangeCipherSpec, DoReadNextProto,
         DoReadChannelId, DoReadClientFinished, DoSendServerFinished, DoFinishServerHandshake;
    ForthHello(g, c);
    ForthSelect(g, c);
    ForthFlight(g, c);
    ForthDone(g, c);
    ForthCertificate(g, c);
    ForthExchange(g, c);
    ForthProof(g, c);
    ForthAwait(g, c);
    ForthRead(g, c);
    ForthLast(g, c);
    if c.state.Tls13? { ForthLeaves(c); }
  }

  lemma {:induction false} RunOn(g: Config, c: Server, a: nat, b: nat)
    ensures Run(g, c, a + b) == Run(g, Run(g, c, a), b)
    decreases b
  {
    hide Step;
    if b > 0 { RunOn(g, c, a, b - 1); }
  }

  lemma GoTurn(g: Config, c: Server, n: nat)
    requires Run(g, c, n).io.wait.Go?
    ensures Run(g, c, n + 1) == Do(g, Run(g, c, n))
  {
    hide Do;
  }

  lemma RunNothing(g: Config, c: Server)
    ensures Run(g, c, 0) == c && Rank(c.state, c.deal) <= 21
  {
  }

  lemma RankBound(s: State, d: Deal)
    ensures Rank(s, d) <= 21
  {
  }

  lemma WaitTurn(g: Config, c: Server, n: nat)
    requires !Run(g, c, n).io.wait.Go?
    ensures var x := Run(g, c, n); Run(g, c, n + 1) == x.(io := Resolve(x.io))
  {
    hide Do, Resolve;
  }

  class ServerHandshake {
    const g: Config
    const hs: Connection
    var state: State
    var deal: Deal
    var ticket: Ticket
    var params: Params
    var channelId: ChannelIdUse
    var hello: Option<HelloInfo>
    var peer: Option<Message>

    ghost function View(): Server
      reads this, hs
    {
      Server(state, deal, ticket, params, channelId, hello, peer, hs.View())
    }

    /** The object once the driver has stored what a state returned. */
    ghost function Returned(ret: Wait): Server
      reads this, hs
    {
      var c := View();
      c.(io := c.io.(wait := ret))
    }

    constructor (g: Config, inbox: seq<Record>, answers: seq<Answer>, flushes: seq<bool>)
      ensures this.g == g && fresh(hs) && View() == New(g, inbox, answers, flushes)
    {
      this.g := g;
      hs := new Connection(g.dtls, inbox, answers, flushes);
      state, ticket, params, channelId, hello, peer := StartAccept, NoTicket, NoParams, NoChannelId, None, None;
      deal := Deal(false, Cipher(false, false, Psk), false, false);
    }

    /** do_start_accept */
    method OnStartAccept() returns (ret: Wait)
      requires hs.wait.Go? && state.StartAccept?
      modifies this, hs
      ensures hs.wait.Go? && Returned(ret) == DoStartAccept(g, old(View()))
    {
      state := ReadClientHello;
      return Go;
    }

    /** do_read_client_hello */
    method OnReadClientHello() returns (ret: Wait)
      requires hs.wait.Go? && state.ReadClientHello?
      modifies this, hs
      ensures hs.wait.Go? && Returned(ret) == DoReadClientHello(g, old(View()))
    {
      if hs.pending == [] { return ReadMessage; }
      var m := hs.pending[0];
      var info := g.parseHello(m);
      if m.kind != ClientHello || info.None? { return Failed; }
      if g.selectCallback {
        var a := hs.Ask(CertificateSelection);
        match a {
          case Refuse => return Failed;
          case Retry => return Blocked(CertificateSelection);
          case Accept =>
        }
      }
      if !info.value.acceptable { return Failed; }
      hello := info;
      channelId := if info.value.channelId then WithChannelId else NoChannelId;
      state := SelectCertificate;
      return Go;
    }

    /** do_select_certificate */
    method OnSelectCertificate() returns (ret: Wait)
      requires hs.wait.Go? && state.SelectCertificate?
      modifies this, hs
      ensures hs.wait.Go? && Returned(ret) == DoSelectCertificate(g, old(View()))
    {
      if hs.pending == [] { return ReadMessage; }
      var m := hs.pending[0];
      if g.certCallback {
        var a := hs.Ask(CertificateLookup);
        match a {
          case Refuse => return Failed;
          case Retry => return Blocked(CertificateLookup);
          case Accept =>
        }
      }
      if !g.certificateFits || hello.None? { return Failed; }
      if hello.value.version13 {
        state := Tls13;
        return Go;
      }
      var cipher := g.chooseCipher(m);
      if cipher.None? { return Failed; }
      deal := Deal(false, cipher.value, false, false);
      state := SelectParameters;
      return Go;
    }

    /** What the session lookup means for this handshake. */
    method SettleSession(found: Lookup)
      requires !found.BadLookup?
      modifies this`deal, this`ticket
      ensures deal == DealFor(found, old(deal), Requests(g, old(View())))
      ensures ticket == if (if found.Found? then found.renew else found.tickets) then TicketExpected else NoTicket
    {
      match found {
        case Found(renew, keepsChannelId) =>
          deal := Deal(true, deal.cipher, false, keepsChannelId);
          ticket := if renew then TicketExpected else NoTicket;
        case NoSession(tickets) =>
          var requested := g.verifyPeer && !(g.unlessChannelId && channelId == WithChannelId) && deal.cipher.certAuth;
          deal := Deal(false, deal.cipher, requested, true);
          ticket := if tickets then TicketExpected else NoTicket;
      }
    }

    /** do_select_parameters */
    method OnSelectParameters() returns (ret: Wait)
      requires hs.wait.Go? && state.SelectParameters?
      modifies this, hs
      ensures hs.wait.Go? && Returned(ret) == DoSelectParameters(g, old(View()))
    {
      hide Take, InitHash, DealFor;
      if hs.pending == [] { return ReadMessage; }
      var m := hs.pending[0];
      if g.lookupCallback {
        var a := hs.Ask(SessionLookup);
        match a {
          case Refuse => return Failed;
          case Retry => return Blocked(SessionLookup);
          case Accept =>
        }
      }
      var found := g.lookup(m);
      if found.BadLookup? { return Failed; }
      SettleSession(found);
      HashHello();
      state := SendServerHello;
      return Go;
    }

    /** The ClientHello goes into the transcript, and the buffer stays if a CertificateVerify may follow. */
    method HashHello()
      requires hs.pending != []
      modifies hs`buffer, hs`digest, hs`pending, hs`log
      ensures var io := Take(InitHash(old(hs.View())));
              hs.View() == if deal.requested then io else FreeBuffer(io)
    {
      hs.StartDigest();
      hs.UseMessage();
      if !deal.requested { hs.ReleaseBuffer(); }
    }

    /** do_send_server_hello */
    method OnSendServerHello() returns (ret: Wait)
      requires hs.wait.Go? && state.SendServerHello?
      modifies this, hs
      ensures hs.wait.Go? && Returned(ret) == DoSendServerHello(g, old(View()))
    {
      if !deal.cipher.kx.Ecdhe? || !deal.keepsChannelId { channelId := NoChannelId; }
      hs.AddMessage(ServerHello, g.hello);
      state := if deal.resumed then SendServerFinished else SendServerCertificate;
      return Go;
    }

    /** do_send_server_certificate */
    method OnSendServerCertificate() returns (ret: Wait)
      requires hs.wait.Go? && state.SendServerCertificate?
      modifies this, hs
      ensures hs.wait.Go? && Returned(ret) == DoSendServerCertificate(g, old(View()))
    {
      var needed := deal.cipher.kx.Ecdhe? || (deal.cipher.psk && g.identityHint);
      if deal.cipher.certAuth && !g.hasCertificate { return Failed; }
      if needed && !g.paramsOk { return Failed; }
      if deal.cipher.certAuth {
        hs.AddMessage(Certificate, g.certificate);
        if hello.Some? && hello.value.status { hs.AddMessage(CertificateStatus, g.status); }
      }
      params := if needed then ParamsReady else NoParams;
      state := SendServerKeyExchange;
      return Go;
    }

    /** do_send_server_key_exchange */
    method OnSendServerKeyExchange() returns (ret: Wait)
      requires hs.wait.Go? && state.SendServerKeyExchange?
      modifies this, hs
      ensures hs.wait.Go? && Returned(ret) == DoSendServerKeyExchange(g, old(View()))
    {
      hide Emit;
      if params.NoParams? {
        state := SendServerHelloDone;
        return Go;
      }
      if deal.cipher.certAuth && !g.hasPrivateKey { return Failed; }
      if deal.cipher.certAuth && g.keyMethod {
        var a := hs.Ask(PrivateKey);
        match a {
          case Refuse => return Failed;
          case Retry => return Blocked(PrivateKey);
          case Accept =>
        }
      }
      if g.exchange.None? { return Failed; }
      hs.AddMessage(ServerKeyExchange, g.exchange.value);
      params := NoParams;
      state := SendServerHelloDone;
      return Go;
    }

    /** do_send_server_hello_done */
    method OnSendServerHelloDone() returns (ret: Wait)
      requires hs.wait.Go? && state.SendServerHelloDone?
      modifies this, hs
      ensures hs.wait.Go? && Returned(ret) == DoSendServerHelloDone(g, old(View()))
    {
      if deal.requested { hs.AddMessage(CertificateRequest, g.request); }
      hs.AddMessage(ServerHelloDone, []);
      state := ReadClientCertificate;
      return Flush;
    }

    /** do_read_client_certificate */
    method OnReadClientCertificate() returns (ret: Wait)
      requires hs.wait.Go? && state.ReadClientCertificate?
      modifies this, hs
      ensures hs.wait.Go? && Returned(ret) == DoReadClientCertificate(g, old(View()))
    {
      hide Take, FreeBuffer;
      if !deal.requested {
        state := VerifyClientCertificate;
        return Go;
      }
      if hs.pending == [] { return ReadMessage; }
      var m := hs.pending[0];
      if m.kind != Certificate || !g.chainOk(m) { return Failed; }
      if g.chainEmpty(m) {
        if g.requireCertificate { return Failed; }
        hs.UseMessage();
        hs.ReleaseBuffer();
      } else {
        peer := Some(m);
        hs.UseMessage();
      }
      state := VerifyClientCertificate;
      return Go;
    }

    /** ssl_verify_peer_cert; `None` is a retry. */
    method VerifyPeerCertificate(cert: Message) returns (ok: Option<bool>, answer: Option<Answer>)
      modifies hs
      ensures hs.View() == (if g.customVerify then Asked(old(hs.View()), VerifyPeer).(wait := old(hs.wait))
                            else old(hs.View()))
      ensures answer == if g.customVerify then Some(NextAnswer(old(hs.View()))) else None
      ensures ok == if answer == Some(Retry) then None else Some(Accepts(g, cert, answer))
    {
      if !g.customVerify { return Some(g.chainTrusted(cert)), None; }
      var a := hs.Ask(VerifyPeer);
      match a {
        case Retry => return None, Some(a);
        case Refuse => return Some(g.verifyNone), Some(a);
        case Accept => return Some(true), Some(a);
      }
    }

    /** do_verify_client_certificate */
    method OnVerifyClientCertificate() returns (ret: Wait)
      requires hs.wait.Go? && state.VerifyClientCertificate?
      modifies this, hs
      ensures hs.wait.Go? && Returned(ret) == DoVerifyClientCertificate(g, old(View()))
    {
      if peer.Some? {
        var ok, answer := VerifyPeerCertificate(peer.value);
        if ok.None? { return Blocked(VerifyPeer); }
        if !ok.value { return Failed; }
        hs.Record(PeerVerified(peer.value, answer));
      }
      state := ReadClientKeyExchange;
      return Go;
    }

    /** do_read_client_key_exchange */
    method OnReadClientKeyExchange() returns (ret: Wait)
      requires hs.wait.Go? && state.ReadClientKeyExchange?
      modifies this, hs
      ensures hs.wait.Go? && Returned(ret) == DoReadClientKeyExchange(g, old(View()))
    {
      hide Take;
      if hs.pending == [] { return ReadMessage; }
      var m := hs.pending[0];
      if m.kind != ClientKeyExchange || !g.exchangeOk(deal.cipher, m) { return Failed; }
      if deal.cipher.kx.Rsa? && g.keyMethod {
        var a := hs.Ask(PrivateKey);
        match a {
          case Refuse => return Failed;
          case Retry => return Blocked(PrivateKey);
          case Accept =>
        }
      }
      if !g.secretOk(deal.cipher, m) { return Failed; }
      hs.UseMessage();
      state := ReadClientCertificateVerify;
      return Go;
    }

    /** do_read_client_certificate_verify */
    method OnReadClientCertificateVerify() returns (ret: Wait)
      requires hs.wait.Go? && state.ReadClientCertificateVerify?
      modifies this, hs
      ensures hs.wait.Go? && Returned(ret) == DoReadClientCertificateVerify(g, old(View()))
    {
      hide Take;
      if peer.None? {
        hs.ReleaseBuffer();
        state := AwaitChangeCipherSpec;
        return Go;
      }
      if hs.pending == [] { return ReadMessage; }
      var m := hs.pending[0];
      var signed := if hs.buffer.Some? then hs.buffer.value else [];
      if m.kind != CertificateVerify || !g.provesKey(peer.value, signed, m) { return Failed; }
      hs.ReleaseBuffer();
      hs.UseMessage();
      state := AwaitChangeCipherSpec;
      return Go;
    }

    /** do_read_change_cipher_spec */
    method OnAwaitChangeCipherSpec() returns (ret: Wait)
      requires hs.wait.Go? && state.AwaitChangeCipherSpec?
      modifies this, hs
      ensures hs.wait.Go? && Returned(ret) == DoAwaitChangeCipherSpec(g, old(View()))
    {
      state := ProcessChangeCipherSpec;
      return ReadChangeCipherSpec;
    }

    /** do_process_change_cipher_spec */
    method OnProcessChangeCipherSpec() returns (ret: Wait)
      requires hs.wait.Go? && state.ProcessChangeCipherSpec?
      modifies this, hs
      ensures hs.wait.Go? && Returned(ret) == DoProcessChangeCipherSpec(g, old(View()))
    {
      var ok := hs.OpenWithNewKey();
      if !ok { return Failed; }
      state := ReadNextProto;
      return Go;
    }

    /** do_read_next_proto */
    method OnReadNextProto() returns (ret: Wait)
      requires hs.wait.Go? && state.ReadNextProto?
      modifies this, hs
      ensures hs.wait.Go? && Returned(ret) == DoReadNextProto(g, old(View()))
    {
      if hello.None? || !hello.value.nextProto {
        state := ReadChannelId;
        return Go;
      }
      if hs.pending == [] { return ReadMessage; }
      var m := hs.pending[0];
      if m.kind != NextProto || !g.nextProtoOk(m) { return Failed; }
      hs.UseMessage();
      state := ReadChannelId;
      return Go;
    }

    /** The handshake hash, for a MAC or a proof. */
    function Transcript(): seq<Message>
      reads hs
    {
      if hs.digest.Some? then hs.digest.value else []
    }

    /** do_read_channel_id */
    method OnReadChannelId() returns (ret: Wait)
      requires hs.wait.Go? && state.ReadChannelId?
      modifies this, hs
      ensures hs.wait.Go? && Returned(ret) == DoReadChannelId(g, old(View()))
    {
      hide Take;
      if channelId.NoChannelId? {
        state := ReadClientFinished;
        return Go;
      }
      if hs.pending == [] { return ReadMessage; }
      var m := hs.pending[0];
      if m.kind != ChannelId || !g.channelIdOk(Transcript(), m) { return Failed; }
      hs.UseMessage();
      state := ReadClientFinished;
      return Go;
    }

    /** do_read_client_finished */
    method OnReadClientFinished() returns (ret: Wait)
      requires hs.wait.Go? && state.ReadClientFinished?
      modifies this, hs
      ensures hs.wait.Go? && Returned(ret) == DoReadClientFinished(g, old(View()))
    {
      hide Take;
      if hs.pending == [] { return ReadMessage; }
      var m := hs.pending[0];
      if m.kind != Finished { return Failed; }
      var expected := g.mac(false, Transcript());
      if m.body != expected { return Failed; }
      hs.UseMessage();
      state := if deal.resumed then FinishServerHandshake else SendServerFinished;
      return Go;
    }

    /** do_send_server_finished */
    method OnSendServerFinished() returns (ret: Wait)
      requires hs.wait.Go? && state.SendServerFinished?
      modifies this, hs
      ensures hs.wait.Go? && Returned(ret) == DoSendServerFinished(g, old(View()))
    {
      hide Emit, ChangeWriteKey;
      if ticket.TicketExpected? {
        if g.ticket.None? { return Failed; }
        hs.AddMessage(NewSessionTicket, g.ticket.value);
      }
      hs.SealWithNewKey();
      hs.AddMessage(Finished, g.mac(true, Transcript()));
      state := if deal.resumed then AwaitChangeCipherSpec else FinishServerHandshake;
      return Flush;
    }

    /** do_finish_server_handshake */
    method OnFinishServerHandshake() returns (ret: Wait)
      requires hs.wait.Go? && state.FinishServerHandshake?
      modifies this, hs
      ensures hs.wait.Go? && Returned(ret) == DoFinishServerHandshake(g, old(View()))
    {
      state := Done;
      return Go;
    }

    /** The switch of ssl_server_handshake. */
    method Dispatch() returns (ret: Wait)
      requires hs.wait.Go? && !state.Done?
      modifies this, hs
      ensures Further(old(state), old(deal), ret, state, deal) && hs.Ahead() <= old(hs.Ahead())
      ensures hs.wait.Go? && Returned(ret) == Do(g, old(View()))
    {
      ForthDo(g, View());
      match state {
        case StartAccept => ret := OnStartAccept();
        case ReadClientHello => ret := OnReadClientHello();
        case SelectCertificate => ret := OnSelectCertificate();
        case SelectParameters => ret := OnSelectParameters();
        case SendServerHello => ret := OnSendServerHello();
        case SendServerCertificate => ret := OnSendServerCertificate();
        case SendServerKeyExchange => ret := OnSendServerKeyExchange();
        case SendServerHelloDone => ret := OnSendServerHelloDone();
        case ReadClientCertificate => ret := OnReadClientCertificate();
        case VerifyClientCertificate => ret := OnVerifyClientCertificate();
        case ReadClientKeyExchange => ret := OnReadClientKeyExchange();
        case ReadClientCertificateVerify => ret := OnReadClientCertificateVerify();
        case AwaitChangeCipherSpec => ret := OnAwaitChangeCipherSpec();
        case ProcessChangeCipherSpec => ret := OnProcessChangeCipherSpec();
        case ReadNextProto => ret := OnReadNextProto();
        case ReadChannelId => ret := OnReadChannelId();
        case ReadClientFinished => ret := OnReadClientFinished();
        case SendServerFinished => ret := OnSendServerFinished();
        case FinishServerHandshake => ret := OnFinishServerHandshake();
        case Tls13 => return LeftForTls13;
        case Done =>
      }
    }

    /** ssl_server_handshake: runs states until one of them waits, or the handshake is done. */
    method Handshake() returns (ret: Wait)
      requires hs.wait.Go?
      modifies this, hs
      ensures hs.wait.Go? && (ret.Go? ==> state.Done?)
      ensures exists n :: Returned(ret) == Run(g, old(View()), n)
      ensures Rank(old(state), old(deal)) <= Rank(state, deal) && hs.Ahead() <= old(hs.Ahead())
      ensures ret.Flush? ==> Rank(old(state), old(deal)) < Rank(state, deal)
    {
      hide Do, Run, Step, Rank;
      ghost var n := 0;
      ghost var start := View();
      RunNothing(g, start);
      while !state.Done?
        invariant hs.wait.Go? && View() == Run(g, start, n)
        invariant Rank(start.state, start.deal) <= Rank(state, deal) <= 21 && hs.Ahead() <= old(hs.Ahead())
        decreases 21 - Rank(state, deal)
      {
        GoTurn(g, start, n);
        ret := Dispatch();
        n := n + 1;
        RankBound(state, deal);
        assert Returned(ret) == Run(g, start, n);
        if !ret.Go? { return; }
      }
      return Go;
    }

    /** ssl_run_handshake: one call of the application; true when the handshake has completed. */
    method RunHandshake() returns (completed: bool)
      modifies this, hs
      ensures exists n :: View() == Run(g, old(View()), n)
      ensures completed ==> state.Done?
    {
      hide Run, Step, Do, Resolve, Rank;
      ghost var n: nat := 0;
      ghost var start := View();
      RunNothing(g, start);
      while true
        invariant View() == Run(g, start, n) && Rank(state, deal) <= 21
        decreases hs.Ahead(), 21 - Rank(state, deal), if hs.wait.Go? || hs.wait.Flush? then 1 else 0
      {
        var how := RunAgain;
        if !hs.wait.Go? {
          WaitTurn(g, start, n);
          how := hs.ResolveWait();
          n := n + 1;
        }
        if how.Return? { return false; }
        if how.WaitOn? { continue; }
        ghost var before := View();
        var ret := Handshake();
        hs.wait := ret;
        ghost var k :| View() == Run(g, before, k);
        RunOn(g, start, n, k);
        n := n + k;
        RankBound(state, deal);
        if ret.Failed? { return false; }
        if ret.Go? { return true; }
      }
    }
  }
}
