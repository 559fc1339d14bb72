/**
ssl_client_handshake as it runs: an object whose states are updated in place by one method a state, and the
loops that drive it.  Each method is proved to do what its specification in TlsClient says, and a call of
the driver to be a number of its turns, so that what holds of every run holds of this object.
*/
module TlsClientMachine {
  import opened Wire
  import opened TlsHandshake
  import opened TlsClient
  import opened TlsConnection

  /** How far a handshake has come. */
  function Rank(s: State, d: Deal): nat {
    match s
    case StartConnect => 0
    case EnterEarlyData => 1
    case ReadHelloVerifyRequest => 2
    case ReadServerHello => 3
    case Tls13 => 4
    case ReadServerCertificate => 5
    case ReadCertificateStatus => 6
    case VerifyServerCertificate => 7
    case ReadServerKeyExchange => 8
    case ReadCertificateRequest => 9
    case ReadServerHelloDone => 10
    case SendClientCertificate => 11
    case SendClientKeyExchange => 12
    case SendClientCertificateVerify => 13
    case SendClientFinished => if d.resumed then 17 else 14
    case FinishFlight => if d.resumed then 18 else 15
    case ReadSessionTicket => if d.resumed then 14 else 16
    case ProcessChangeCipherSpec => if d.resumed then 15 else 17
    case ReadServerFinished => if d.resumed then 16 else 18
    case FinishClientHandshake => 19
    case Done => 20
  }

  /** A state that does not wait for a message or for the application, and does not fail, comes further. */
  predicate Further(s: State, d: Deal, ret: Wait, t: State, e: Deal) {
    if ret.Go? || ret.Flush? then Rank(s, d) < Rank(t, e) else Rank(s, d) <= Rank(t, e)
  }

  /** From `c` to `d` the handshake came further or waits, and there is not more to receive than there was. */
  predicate Forth(c: Client, d: Client) {
    Further(c.state, c.deal, d.io.wait, d.state, d.deal) && AheadOf(d.io) <= AheadOf(c.io)
  }

  lemma ForthHello(g: Config, c: Client)
    requires c.io.wait.Go?
    ensures c.state.StartConnect? ==> Forth(c, DoStartConnect(g, c))
    ensures c.state.EnterEarlyData? ==> Forth(c, DoEnterEarlyData(g, c))
    ensures c.state.ReadHelloVerifyRequest? ==> Forth(c, DoReadHelloVerifyRequest(g, c))
  {
  }

  lemma ForthServerHello(g: Config, c: Client)
    requires c.io.wait.Go?
    ensures c.state.ReadServerHello? ==> Forth(c, DoReadServerHello(g, c))
  {
  }

  lemma ForthCertificate(g: Config, c: Client)
    requires c.io.wait.Go?
    ensures c.state.ReadServerCertificate? ==> Forth(c, DoReadServerCertificate(g, c))
    ensures c.state.ReadCertificateStatus? ==> Forth(c, DoReadCertificateStatus(g, c))
  {
  }

  lemma ForthVerify(g: Config, c: Client)
    requires c.io.wait.Go?
    ensures c.state.VerifyServerCertificate? ==> Forth(c, DoVerifyServerCertificate(g, c))
    ensures c.state.ReadServerKeyExchange? ==> Forth(c, DoReadServerKeyExchange(g, c))
  {
  }

  lemma ForthRequest(g: Config, c: Client)
    requires c.io.wait.Go?
    ensures c.state.ReadCertificateRequest? ==> Forth(c, DoReadCertificateRequest(g, c))
    ensures c.state.ReadServerHelloDone? ==> Forth(c, DoReadServerHelloDone(g, c))
  {
  }

  lemma ForthFlight(g: Config, c: Client)
    requires c.io.wait.Go?
    ensures c.state.SendClientCertificate? ==> Forth(c, DoSendClientCertificate(g, c))
    ensures c.state.SendClientKeyExchange? ==> Forth(c, DoSendClientKeyExchange(g, c))
  {
  }

  lemma ForthProof(g: Config, c: Client)
    requires c.io.wait.Go?
    ensures c.state.SendClientCertificateVerify? ==> Forth(c, DoSendClientCertificateVerify(g, c))
  {
  }

  lemma ForthFinished(g: Config, c: Client)
    requires c.io.wait.Go?
    ensures c.state.SendClientFinished? ==> Forth(c, DoSendClientFinished(g, c))
    ensures c.state.FinishFlight? ==> Forth(c, DoFinishFlight(g, c))
  {
  }

  lemma ForthTicket(g: Config, c: Client)
    requires c.io.wait.Go?
    ensures c.state.ReadSessionTicket? ==> Forth(c, DoReadSessionTicket(g, c))
    ensures c.state.ProcessChangeCipherSpec? ==> Forth(c, DoProcessChangeCipherSpec(g, c))
  {
  }

  lemma ForthLast(g: Config, c: Client)
    requires c.io.wait.Go?
    ensures c.state.ReadServerFinished? ==> Forth(c, DoReadServerFinished(g, c))
    ensures c.state.FinishClientHandshake? ==> Forth(c, DoFinishClientHandshake(g, c))
  {
  }

  lemma ForthLeaves(c: Client)
    requires c.state.Tls13?
    ensures Forth(c, c.(io := c.io.(wait := LeftForTls13)))
  {
  }

  lemma ForthDo(g: Config, c: Client)
    requires c.io.wait.Go? && !c.state.Done?
    ensures Forth(c, Do(g, c))
  {
    hide Forth, DoStartConnect, DoEnterEarlyData, DoReadHelloVerifyRequest, DoReadServerHello,
         DoReadServerCertificate, DoReadCertificateStatus, DoVerifyServerCertificate,
         DoReadServerKeyExchange, DoReadCertificateRequest, DoReadServerHelloDone, DoSendClientCertificate,
         DoSendClientKeyExchange, DoSendClientCertificateVerify, DoSendClientFinished, DoFinishFlight,
         DoReadSessionTicket, DoProcessChangeCipherSpec, DoReadServerFinished, DoFinishClientHandshake;
    ForthHello(g, c);
    ForthServerHello(g, c);
    ForthCertificate(g, c);
    ForthVerify(g, c);
    ForthRequest(g, c);
    ForthFlight(g, c);
    ForthProof(g, c);
    ForthFinished(g, c);
    ForthTicket(g, c);
    ForthLast(g, c);
    if c.state.Tls13? { ForthLeaves(c); }
  }

  lemma {:induction false} RunOn(g: Config, c: Client, a: nat, b: nat)
    ensures Run(g, c, a + b) == Run(g, Run(g, c, a), b)
    decreases b
  {
    hide Step;
    if b > 0 { RunOn(g, c, a, b - 1); }
  }

  lemma GoTurn(g: Config, c: Client, n: nat)
    requires Run(g, c, n).io.wait.Go?
    ensures Run(g, c, n + 1) == Do(g, Run(g, c, n))
  {
    hide Do;
  }

  lemma RunNothing(g: Config, c: Client)
    ensures Run(g, c, 0) == c && Rank(c.state, c.deal) <= 20
  {
  }

  lemma RankBound(s: State, d: Deal)
    ensures Rank(s, d) <= 20
  {
  }

  lemma WaitTurn(g: Config, c: Client, n: nat)
    requires !Run(g, c, n).io.wait.Go?
    ensures var x := Run(g, c, n); Run(g, c, n + 1) == x.(io := Resolve(x.io))
  {
    hide Do, Resolve;
  }

  class ClientHandshake {
    const g: Config
    const hs: Connection
    var state: State
    var deal: Deal
    var ticket: Ticket
    var idKey: IdKey
    var peer: Option<Message>
    var request: Option<Message>

    ghost function View(): Client
      reads this, hs
    {
      Client(state, deal, ticket, idKey, peer, request, hs.View())
    }

    /** The object once the driver has stored what a state returned. */
    ghost function Returned(ret: Wait): Client
      reads this, hs
    {
      var c := View();
      c.(io := c.io.(wait := ret))
    }

    constructor (g: Config, inbox: seq<Record>, answers: seq<Answer>, flushes: seq<bool>)
      ensures this.g == g && fresh(hs) && View() == New(g, inbox, answers, flushes)
    {
      this.g := g;
      hs := new Connection(g.dtls, inbox, answers, flushes);
      state, ticket, peer, request := StartConnect, NoTicket, None, None;
      deal := Deal(false, Cipher(false, false, Psk), false, false, false);
      idKey := if g.channelIdKey then Present else Missing;
    }

    /** do_start_connect */
    method OnStartConnect() returns (ret: Wait)
      requires hs.wait.Go? && state.StartConnect?
      modifies this, hs
      ensures hs.wait.Go? && Returned(ret) == DoStartConnect(g, old(View()))
    {
      hs.AddMessage(ClientHello, g.hello);
      state := EnterEarlyData;
      return Flush;
    }

    /** do_enter_early_data */
    method OnEnterEarlyData() returns (ret: Wait)
      requires hs.wait.Go? && state.EnterEarlyData?
      modifies this, hs
      ensures hs.wait.Go? && Returned(ret) == DoEnterEarlyData(g, old(View()))
    {
      if g.dtls {
        state := ReadHelloVerifyRequest;
        return Go;
      }
      state := ReadServerHello;
      if !g.earlyData { return Go; }
      hs.Record(SentChangeCipherSpec);
      hs.Record(EarlyKey);
      return EarlyReturn;
    }

    /** do_read_hello_verify_request */
    method OnReadHelloVerifyRequest() returns (ret: Wait)
      requires hs.wait.Go? && state.ReadHelloVerifyRequest?
      modifies this, hs
      ensures hs.wait.Go? && Returned(ret) == DoReadHelloVerifyRequest(g, old(View()))
    {
      hide Emit;
      if hs.pending == [] { return ReadMessage; }
      var m := hs.pending[0];
      if m.kind != HelloVerifyRequest {
        state := ReadServerHello;
        return Go;
      }
      if !g.cookieOk(m) { return Failed; }
      hs.DropMessage();
      hs.RestartTranscript();
      hs.AddMessage(ClientHello, g.secondHello(m));
      state := ReadServerHello;
      return Flush;
    }

    /** do_read_server_hello */
    method OnReadServerHello() returns (ret: Wait)
      requires hs.wait.Go? && state.ReadServerHello?
      modifies this, hs
      ensures hs.wait.Go? && Returned(ret) == DoReadServerHello(g, old(View()))
    {
      hide Acceptable, Take, InitHash;
      if hs.pending == [] { return ReadMessage; }
      var m := hs.pending[0];
      var info := g.parseHello(m);
      if m.kind != ServerHello || info.None? { return Failed; }
      var h := info.value;
      if h.version13 {
        state := Tls13;
        return Go;
      }
      if g.earlyData || !Acceptable(h) { return Failed; }
      var resumed := g.session && g.established.None? && h.sameSession;
      deal := Deal(resumed, h.cipher, h.certificateStatus, h.nextProto, h.channelId);
      ticket := if h.ticket then TicketExpected else NoTicket;
      hs.StartDigest();
      hs.UseMessage();
      if resumed || !h.cipher.certAuth { hs.ReleaseBuffer(); }
      state := if resumed then ReadSessionTicket else ReadServerCertificate;
      return Go;
    }

    /** do_read_server_certificate */
    method OnReadServerCertificate() returns (ret: Wait)
      requires hs.wait.Go? && state.ReadServerCertificate?
      modifies this, hs
      ensures hs.wait.Go? && Returned(ret) == DoReadServerCertificate(g, old(View()))
    {
      hide Take;
      if !deal.cipher.certAuth {
        state := ReadCertificateStatus;
        return Go;
      }
      if hs.pending == [] { return ReadMessage; }
      var m := hs.pending[0];
      if m.kind != Certificate || !g.chainOk(m) { return Failed; }
      peer := Some(m);
      hs.UseMessage();
      state := ReadCertificateStatus;
      return Go;
    }

    /** do_read_certificate_status */
    method OnReadCertificateStatus() returns (ret: Wait)
      requires hs.wait.Go? && state.ReadCertificateStatus?
      modifies this, hs
      ensures hs.wait.Go? && Returned(ret) == DoReadCertificateStatus(g, old(View()))
    {
      if !deal.certificateStatus {
        state := VerifyServerCertificate;
        return Go;
      }
      if hs.pending == [] { return ReadMessage; }
      var m := hs.pending[0];
      if m.kind == CertificateStatus {
        if !g.statusOk(m) { return Failed; }
        hs.UseMessage();
      }
      state := VerifyServerCertificate;
      return Go;
    }

    /** ssl_verify_peer_cert; `None` is a retry. */
    method VerifyPeerCertificate(cert: Message) returns (ok: Option<bool>, answer: Option<Answer>)
      modifies hs
      ensures var asks := g.established.None? && g.customVerify;
              && hs.View() == (if asks then Asked(old(hs.View()), VerifyPeer).(wait := old(hs.wait))
                               else old(hs.View()))
              && answer == (if asks then Some(NextAnswer(old(hs.View()))) else None)
      ensures ok == if answer == Some(Retry) then None else Some(Accepts(g, cert, answer))
    {
      if g.established.Some? { return Some(g.established.value == cert), None; }
      if !g.customVerify { return Some(g.chainTrusted(cert)), None; }
      var a := hs.Ask(VerifyPeer);
      match a {
        case Retry => return None, Some(a);
        case Refuse => return Some(g.verifyNone), Some(a);
        case Accept => return Some(true), Some(a);
      }
    }

    /** do_verify_server_certificate */
    method OnVerifyServerCertificate() returns (ret: Wait)
      requires hs.wait.Go? && state.VerifyServerCertificate?
      modifies this, hs
      ensures hs.wait.Go? && Returned(ret) == DoVerifyServerCertificate(g, old(View()))
    {
      if !deal.cipher.certAuth {
        state := ReadServerKeyExchange;
        return Go;
      }
      if peer.None? { return Failed; }
      var ok, answer := VerifyPeerCertificate(peer.value);
      if ok.None? { return Blocked(VerifyPeer); }
      if !ok.value { return Failed; }
      hs.Record(PeerVerified(peer.value, answer));
      state := ReadServerKeyExchange;
      return Go;
    }

    /** do_read_server_key_exchange */
    method OnReadServerKeyExchange() returns (ret: Wait)
      requires hs.wait.Go? && state.ReadServerKeyExchange?
      modifies this, hs
      ensures hs.wait.Go? && Returned(ret) == DoReadServerKeyExchange(g, old(View()))
    {
      hide Take;
      if hs.pending == [] { return ReadMessage; }
      var m := hs.pending[0];
      if m.kind != ServerKeyExchange {
        if deal.cipher.kx.Ecdhe? { return Failed; }
        state := ReadCertificateRequest;
        return Go;
      }
      if deal.cipher.kx.Rsa? || !g.exchangeOk(deal.cipher, m) { return Failed; }
      if deal.cipher.certAuth {
        if peer.None? || !g.exchangeSigned(peer.value, m) { return Failed; }
      }
      hs.UseMessage();
      state := ReadCertificateRequest;
      return Go;
    }

    /** do_read_certificate_request */
    method OnReadCertificateRequest() returns (ret: Wait)
      requires hs.wait.Go? && state.ReadCertificateRequest?
      modifies this, hs
      ensures hs.wait.Go? && Returned(ret) == DoReadCertificateRequest(g, old(View()))
    {
      if !deal.cipher.certAuth {
        state := ReadServerHelloDone;
        return Go;
      }
      if hs.pending == [] { return ReadMessage; }
      var m := hs.pending[0];
      if m.kind == ServerHelloDone {
        hs.ReleaseBuffer();
        state := ReadServerHelloDone;
        return Go;
      }
      if m.kind != CertificateRequest || !g.requestOk(m) { return Failed; }
      request := Some(m);
      hs.UseMessage();
      state := ReadServerHelloDone;
      return Go;
    }

    /** do_read_server_hello_done */
    method OnReadServerHelloDone() returns (ret: Wait)
      requires hs.wait.Go? && state.ReadServerHelloDone?
      modifies this, hs
      ensures hs.wait.Go? && Returned(ret) == DoReadServerHelloDone(g, old(View()))
    {
      if hs.pending == [] { return ReadMessage; }
      var m := hs.pending[0];
      if m.kind != ServerHelloDone || m.body != [] { return Failed; }
      hs.UseMessage();
      state := SendClientCertificate;
      return Go;
    }

    /** do_send_client_certificate */
    method OnSendClientCertificate() returns (ret: Wait)
      requires hs.wait.Go? && state.SendClientCertificate?
      modifies this, hs
      ensures hs.wait.Go? && Returned(ret) == DoSendClientCertificate(g, old(View()))
    {
      hide Emit;
      if request.None? {
        state := SendClientKeyExchange;
        return Go;
      }
      if g.certCallback {
        var a := hs.Ask(CertificateLookup);
        match a {
          case Refuse => return Failed;
          case Retry => return Blocked(CertificateLookup);
          case Accept =>
        }
      }
      if !g.certificateFits { return Failed; }
      if !g.hasCertificate { hs.ReleaseBuffer(); }
      hs.AddMessage(Certificate, g.certificate);
      state := SendClientKeyExchange;
      return Go;
    }

    /** do_send_client_key_exchange */
    method OnSendClientKeyExchange() returns (ret: Wait)
      requires hs.wait.Go? && state.SendClientKeyExchange?
      modifies this, hs
      ensures hs.wait.Go? && Returned(ret) == DoSendClientKeyExchange(g, old(View()))
    {
      if g.keyExchange.None? { return Failed; }
      hs.AddMessage(ClientKeyExchange, g.keyExchange.value);
      state := SendClientCertificateVerify;
      return Go;
    }

    /** do_send_client_certificate_verify */
    method OnSendClientCertificateVerify() returns (ret: Wait)
      requires hs.wait.Go? && state.SendClientCertificateVerify?
      modifies this, hs
      ensures hs.wait.Go? && Returned(ret) == DoSendClientCertificateVerify(g, old(View()))
    {
      if request.None? || !g.hasCertificate {
        state := SendClientFinished;
        return Go;
      }
      if g.keyMethod {
        var a := hs.Ask(PrivateKey);
        match a {
          case Refuse => return Failed;
          case Retry => return Blocked(PrivateKey);
          case Accept =>
        }
      }
      var signed := g.sign(if hs.buffer.Some? then hs.buffer.value else []);
      if signed.None? { return Failed; }
      hs.AddMessage(CertificateVerify, signed.value);
      hs.ReleaseBuffer();
      state := SendClientFinished;
      return Go;
    }

    /** The handshake hash, for a MAC or a proof. */
    function Transcript(): seq<Message>
      reads hs
    {
      if hs.digest.Some? then hs.digest.value else []
    }

    /** do_send_client_finished */
    method OnSendClientFinished() returns (ret: Wait)
      requires hs.wait.Go? && state.SendClientFinished?
      modifies this, hs
      ensures hs.wait.Go? && Returned(ret) == DoSendClientFinished(g, old(View()))
    {
      hide FinishedFlight;
      // Channel ID first, before anything that cannot be done twice.
      if deal.channelId && idKey.Missing? {
        var a := hs.Ask(ChannelIdLookup);
        match a {
          case Refuse => return Failed;
          case Retry => return Blocked(ChannelIdLookup);
          case Accept =>
        }
      }
      if deal.channelId { idKey := Present; }
      SendFinishedFlight();
      state := FinishFlight;
      return Flush;
    }

    method SendFinishedFlight()
      modifies hs`buffer, hs`digest, hs`log
      ensures hs.View() == FinishedFlight(g, deal, old(hs.View()))
    {
      hs.SealWithNewKey();
      if deal.nextProto { hs.AddMessage(NextProto, g.nextProtocol); }
      if deal.channelId { hs.AddMessage(ChannelId, g.channelIdProof(Transcript())); }
      hs.AddMessage(Finished, g.mac(false, Transcript()));
    }

    /** do_finish_flight */
    method OnFinishFlight() returns (ret: Wait)
      requires hs.wait.Go? && state.FinishFlight?
      modifies this, hs
      ensures hs.wait.Go? && Returned(ret) == DoFinishFlight(g, old(View()))
    {
      if deal.resumed {
        state := FinishClientHandshake;
        return Go;
      }
      state := ReadSessionTicket;
      return if g.falseStart && !g.dtls && deal.cipher.kx.Ecdhe? && g.established.None? then EarlyReturn else Go;
    }

    /** do_read_session_ticket */
    method OnReadSessionTicket() returns (ret: Wait)
      requires hs.wait.Go? && state.ReadSessionTicket?
      modifies this, hs
      ensures hs.wait.Go? && Returned(ret) == DoReadSessionTicket(g, old(View()))
    {
      hide Take;
      if ticket.NoTicket? {
        state := ProcessChangeCipherSpec;
        return ReadChangeCipherSpec;
      }
      if hs.pending == [] { return ReadMessage; }
      var m := hs.pending[0];
      if m.kind != NewSessionTicket || g.parseTicket(m).BadTicket? { return Failed; }
      if g.parseTicket(m).EmptyTicket? { ticket := NoTicket; }
      hs.UseMessage();
      state := ProcessChangeCipherSpec;
      return ReadChangeCipherSpec;
    }

    /** do_process_change_cipher_spec */
    method OnProcessChangeCipherSpec() returns (ret: Wait)
      requires hs.wait.Go? && state.ProcessChangeCipherSpec?
      modifies this, hs
      ensures hs.wait.Go? && Returned(ret) == DoProcessChangeCipherSpec(g, old(View()))
    {
      var ok := hs.OpenWithNewKey();
      if !ok { return Failed; }
      state := ReadServerFinished;
      return Go;
    }

    /** do_read_server_finished */
    method OnReadServerFinished() returns (ret: Wait)
      requires hs.wait.Go? && state.ReadServerFinished?
      modifies this, hs
      ensures hs.wait.Go? && Returned(ret) == DoReadServerFinished(g, old(View()))
    {
      if hs.pending == [] { return ReadMessage; }
      var m := hs.pending[0];
      if m.kind != Finished { return Failed; }
      var expected := g.mac(true, Transcript());
      if m.body != expected { return Failed; }
      hs.UseMessage();
      state := if deal.resumed then SendClientFinished else FinishClientHandshake;
      return Go;
    }

    /** do_finish_client_handshake */
    method OnFinishClientHandshake() returns (ret: Wait)
      requires hs.wait.Go? && state.FinishClientHandshake?
      modifies this, hs
      ensures hs.wait.Go? && Returned(ret) == DoFinishClientHandshake(g, old(View()))
    {
      state := Done;
      return Go;
    }

    /** The switch of ssl_client_handshake. */
    method Dispatch() returns (ret: Wait)
      requires hs.wait.Go? && !state.Done?
      modifies this, hs
      ensures Further(old(state), old(deal), ret, state, deal) && hs.Ahead() <= old(hs.Ahead())
      ensures hs.wait.Go? && Returned(ret) == Do(g, old(View()))
    {
      ForthDo(g, View());
      match state {
        case StartConnect => ret := OnStartConnect();
        case EnterEarlyData => ret := OnEnterEarlyData();
        case ReadHelloVerifyRequest => ret := OnReadHelloVerifyRequest();
        case ReadServerHello => ret := OnReadServerHello();
        case ReadServerCertificate => ret := OnReadServerCertificate();
        case ReadCertificateStatus => ret := OnReadCertificateStatus();
        case VerifyServerCertificate => ret := OnVerifyServerCertificate();
        case ReadServerKeyExchange => ret := OnReadServerKeyExchange();
        case ReadCertificateRequest => ret := OnReadCertificateRequest();
        case ReadServerHelloDone => ret := OnReadServerHelloDone();
        case SendClientCertificate => ret := OnSendClientCertificate();
        case SendClientKeyExchange => ret := OnSendClientKeyExchange();
        case SendClientCertificateVerify => ret := OnSendClientCertificateVerify();
        case SendClientFinished => ret := OnSendClientFinished();
        case FinishFlight => ret := OnFinishFlight();
        case ReadSessionTicket => ret := OnReadSessionTicket();
        case ProcessChangeCipherSpec => ret := OnProcessChangeCipherSpec();
        case ReadServerFinished => ret := OnReadServerFinished();
        case FinishClientHandshake => ret := OnFinishClientHandshake();
        case Tls13 => return LeftForTls13;
        case Done =>
      }
    }

    /** ssl_client_handshake: runs states until one of them waits, or the handshake is done. */
    method Handshake() returns (ret: Wait)
      requires hs.wait.Go?
      modifies this, hs
      ensures hs.wait.Go? && (ret.Go? ==> state.Done?)
      ensures exists n :: Returned(ret) == Run(g, old(View()), n)
      ensures Rank(old(state), old(deal)) <= Rank(state, deal) && hs.Ahead() <= old(hs.Ahead())
      ensures ret.Flush? ==> Rank(old(state), old(deal)) < Rank(state, deal)
    {
      hide Do, Run, Step, Rank;
      ghost var n := 0;
      ghost var start := View();
      RunNothing(g, start);
      while !state.Done?
        invariant hs.wait.Go? && View() == Run(g, start, n)
        invariant Rank(start.state, start.deal) <= Rank(state, deal) <= 20 && hs.Ahead() <= old(hs.Ahead())
        decreases 20 - Rank(state, deal)
      {
        GoTurn(g, start, n);
        ret := Dispatch();
        n := n + 1;
        RankBound(state, deal);
        assert Returned(ret) == Run(g, start, n);
        if !ret.Go? { return; }
      }
      return Go;
    }

    /** ssl_run_handshake: one call of the application; true when the handshake has completed. */
    method RunHandshake() returns (completed: bool)
      modifies this, hs
      ensures exists n :: View() == Run(g, old(View()), n)
      ensures completed ==> state.Done?
    {
      hide Run, Step, Do, Resolve, Rank;
      ghost var n: nat := 0;
      ghost var start := View();
      RunNothing(g, start);
      while true
        invariant View() == Run(g, start, n) && Rank(state, deal) <= 20
        decreases hs.Ahead(), 20 - Rank(state, deal), if hs.wait.Go? || hs.wait.Flush? then 1 else 0
      {
        var how := RunAgain;
        if !hs.wait.Go? {
          WaitTurn(g, start, n);
          how := hs.ResolveWait();
          n := n + 1;
        }
        if how.Return? { return false; }
        if how.WaitOn? { continue; }
        ghost var before := View();
        var ret := Handshake();
        hs.wait := ret;
        ghost var k :| View() == Run(g, before, k);
        RunOn(g, start, n, k);
        n := n + k;
        RankBound(state, deal);
        if ret.Failed? { return false; }
        if ret.Go? { return true; }
      }
    }
  }
}
