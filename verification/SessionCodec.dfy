/**
SSL_SESSION_to_bytes_full and SSL_SESSION_parse as they run: a builder that elements are appended to, and a
cursor that moves forward while the fields of the new session are filled in one by one.
*/
module SessionCodec {
  import opened Wire
  import opened Der
  import opened SessionAsn1

  // ---------------------------------------------------------------- writing

  lemma JoinAssoc(a: Option<bytes>, b: Option<bytes>, c: Option<bytes>)
    ensures Join(Join(a, b), c) == Join(a, Join(b, c))
  {
    if a.Some? && b.Some? && c.Some? { assert a.value + b.value + c.value == a.value + (b.value + c.value); }
  }

  lemma JoinNothing(a: Option<bytes>)
    ensures Join(a, Some([])) == a
  {
    if a.Some? { assert a.value + [] == a.value; }
  }

  /** What is to be written from tag `t` on, behind what is written already. */
  ghost function Goal(x: Session, f: bool, t: nat, written: Option<bytes>): Option<bytes>
    requires t <= 27
  {
    Join(written, Tail(x, f, t))
  }

  /** Writing the part for tag `t` brings the goal one tag further. */
  lemma PartDone(x: Session, f: bool, t: nat, before: Option<bytes>, after: Option<bytes>)
    requires t <= 26 && after == Join(before, Tagged(t, Part(x, f, t)))
    ensures Goal(x, f, t + 1, after) == Goal(x, f, t, before)
  {
    hide Part, Tagged;
    JoinAssoc(before, Tagged(t, Part(x, f, t)), Tail(x, f, t + 1));
  }

  lemma PartAbsent(x: Session, f: bool, t: nat, written: Option<bytes>)
    requires t <= 26 && Part(x, f, t) == None
    ensures Goal(x, f, t + 1, written) == Goal(x, f, t, written)
  {
    hide Part;
    JoinNothing(written);
    PartDone(x, f, t, written, written);
  }

  /** A CBB: once something does not fit, everything fails. */
  class Builder {
    var out: bytes
    var failed: bool

    ghost function View(): Option<bytes>
      reads this
    {
      if failed then None else Some(out)
    }

    constructor ()
      ensures View() == Some([])
    {
      out, failed := [], false;
    }

    /** CBB_add_bytes of something already encoded. */
    method Add(part: Option<bytes>)
      modifies this
      ensures View() == Join(old(View()), part)
    {
      if part.None? { failed := true; } else if !failed { out := out + part.value; }
    }

    /** CBB_add_asn1 with a context-specific tag, its contents, and the flush that writes the length. */
    method AddTagged(t: nat, contents: Option<bytes>)
      requires t <= 30
      modifies this
      ensures View() == Join(old(View()), Tagged(t, Some(contents)))
    {
      if contents.None? || |contents.value| > MAX_LENGTH {
        failed := true;
      } else {
        Add(Some(Tlv(Context(t), contents.value)));
      }
    }
  }

  /** The certificates behind the leaf, one after the other. */
  method ChainBytes(certs: seq<bytes>) returns (chain: bytes)
    requires certs != []
    ensures chain == Concat(certs[1..])
  {
    chain := [];
    ghost var all := certs[1..];
    for i := 1 to |certs|
      invariant chain + Concat(all[i - 1..]) == Concat(all)
    {
      assert all[i - 1..][1..] == all[i..] && all[i - 1] == certs[i];
      chain := chain + certs[i];
    }
    assert all[|certs| - 1..] == [];
  }

  /** Tags 1 to 4: times, the leaf certificate and the session ID context. */
  method WriteTimes(b: Builder, x: Session, f: bool)
    modifies b
    ensures Goal(x, f, 5, b.View()) == Goal(x, f, 1, old(b.View()))
  {
    hide Tail, Tagged, Join, UintPart, OctetPart, Tlv;
    ghost var before: Option<bytes>;
    before := b.View();
    b.AddTagged(1, UintPart(x.time));
    PartDone(x, f, 1, before, b.View());
    before := b.View();
    b.AddTagged(2, UintPart(x.timeout));
    PartDone(x, f, 2, before, b.View());
    before := b.View();
    if x.certs != [] && x.sha256.None? {
      b.AddTagged(3, Some(x.certs[0]));
      PartDone(x, f, 3, before, b.View());
    } else {
      PartAbsent(x, f, 3, before);
    }
    before := b.View();
    b.AddTagged(4, OctetPart(x.sidCtx));
    PartDone(x, f, 4, before, b.View());
  }

  /** Tags 5 to 8: verify result and PSK identity. */
  method WriteResult(b: Builder, x: Session, f: bool)
    modifies b
    ensures Goal(x, f, 9, b.View()) == Goal(x, f, 5, old(b.View()))
  {
    hide Tail, Tagged, Join, UintPart, OctetPart, Tlv;
    ghost var before: Option<bytes>;
    before := b.View();
    if x.verifyResult != 0 {
      b.AddTagged(5, UintPart(Unsigned(x.verifyResult)));
      PartDone(x, f, 5, before, b.View());
    } else {
      PartAbsent(x, f, 5, before);
    }
    PartAbsent(x, f, 6, b.View());
    PartAbsent(x, f, 7, b.View());
    before := b.View();
    if x.psk.Some? {
      b.AddTagged(8, OctetPart(x.psk.value));
      PartDone(x, f, 8, before, b.View());
    } else {
      PartAbsent(x, f, 8, before);
    }
  }

  /** Tags 9 to 12: the ticket and its lifetime. */
  method WriteTicket(b: Builder, x: Session, f: bool)
    modifies b
    ensures Goal(x, f, 13, b.View()) == Goal(x, f, 9, old(b.View()))
  {
    hide Tail, Tagged, Join, UintPart, OctetPart, Tlv;
    ghost var before: Option<bytes>;
    before := b.View();
    if x.lifetimeHint > 0 {
      b.AddTagged(9, UintPart(x.lifetimeHint));
      PartDone(x, f, 9, before, b.View());
    } else {
      PartAbsent(x, f, 9, before);
    }
    before := b.View();
    if x.ticket.Some? && !f {
      b.AddTagged(10, OctetPart(x.ticket.value));
      PartDone(x, f, 10, before, b.View());
    } else {
      PartAbsent(x, f, 10, before);
    }
    PartAbsent(x, f, 11, b.View());
    PartAbsent(x, f, 12, b.View());
  }

  /** Tags 13 to 17: hashes, timestamps and OCSP response. */
  method WritePeer(b: Builder, x: Session, f: bool)
    modifies b
    ensures Goal(x, f, 18, b.View()) == Goal(x, f, 13, old(b.View()))
  {
    hide Tail, Tagged, Join, UintPart, OctetPart, Tlv;
    ghost var before: Option<bytes>;
    before := b.View();
    if x.sha256.Some? {
      b.AddTagged(13, OctetPart(x.sha256.value));
      PartDone(x, f, 13, before, b.View());
    } else {
      PartAbsent(x, f, 13, before);
    }
    before := b.View();
    if x.handshakeHash != [] {
      b.AddTagged(14, OctetPart(x.handshakeHash));
      PartDone(x, f, 14, before, b.View());
    } else {
      PartAbsent(x, f, 14, before);
    }
    before := b.View();
    if x.scts.Some? {
      b.AddTagged(15, OctetPart(x.scts.value));
      PartDone(x, f, 15, before, b.View());
    } else {
      PartAbsent(x, f, 15, before);
    }
    before := b.View();
    if x.ocsp.Some? {
      b.AddTagged(16, OctetPart(x.ocsp.value));
      PartDone(x, f, 16, before, b.View());
    } else {
      PartAbsent(x, f, 16, before);
    }
    before := b.View();
    if x.extendedMaster.Yes? {
      b.AddTagged(17, Some(Tlv(BOOLEAN, BoolBytes(true))));
      PartDone(x, f, 17, before, b.View());
    } else {
      PartAbsent(x, f, 17, before);
    }
  }

  /** Tags 18 to 21: the group, the certificate chain and the ticket age. */
  method WriteChain(b: Builder, x: Session, f: bool)
    modifies b
    ensures Goal(x, f, 22, b.View()) == Goal(x, f, 18, old(b.View()))
  {
    hide Tail, Tagged, Join, UintPart, OctetPart, Tlv;
    ghost var before: Option<bytes>;
    before := b.View();
    if x.group > 0 {
      b.AddTagged(18, UintPart(x.group));
      PartDone(x, f, 18, before, b.View());
    } else {
      PartAbsent(x, f, 18, before);
    }
    before := b.View();
    if x.sha256.None? && |x.certs| >= 2 {
      var chain := ChainBytes(x.certs);
      b.AddTagged(19, Some(chain));
      PartDone(x, f, 19, before, b.View());
    } else {
      PartAbsent(x, f, 19, before);
    }
    PartAbsent(x, f, 20, b.View());
    before := b.View();
    if x.ageAdd.Some? {
      b.AddTagged(21, Some(Tlv(OCTETS, ToBE(x.ageAdd.value, 4))));
      PartDone(x, f, 21, before, b.View());
    } else {
      PartAbsent(x, f, 21, before);
    }
  }

  /** Tags 22 to 26: what is left. */
  method WriteRest(b: Builder, x: Session, f: bool)
    modifies b
    ensures Goal(x, f, 27, b.View()) == Goal(x, f, 22, old(b.View()))
  {
    hide Tail, Tagged, Join, UintPart, OctetPart, Tlv;
    ghost var before: Option<bytes>;
    before := b.View();
    if x.server.No? {
      b.AddTagged(22, Some(Tlv(BOOLEAN, BoolBytes(false))));
      PartDone(x, f, 22, before, b.View());
    } else {
      PartAbsent(x, f, 22, before);
    }
    before := b.View();
    if x.sigalg != 0 {
      b.AddTagged(23, UintPart(x.sigalg));
      PartDone(x, f, 23, before, b.View());
    } else {
      PartAbsent(x, f, 23, before);
    }
    before := b.View();
    if x.maxEarlyData != 0 {
      b.AddTagged(24, UintPart(x.maxEarlyData));
      PartDone(x, f, 24, before, b.View());
    } else {
      PartAbsent(x, f, 24, before);
    }
    before := b.View();
    if x.timeout != x.authTimeout {
      b.AddTagged(25, UintPart(x.authTimeout));
      PartDone(x, f, 25, before, b.View());
    } else {
      PartAbsent(x, f, 25, before);
    }
    before := b.View();
    if x.alpn.Some? {
      b.AddTagged(26, OctetPart(x.alpn.value));
      PartDone(x, f, 26, before, b.View());
    } else {
      PartAbsent(x, f, 26, before);
    }
  }

  /** SSL_SESSION_to_bytes_full */
  method ToBytesFull(x: Session, forTicket: bool) returns (r: Option<bytes>)
    ensures r == Serialize(x, forTicket)
  {
    hide Tail, Join, UintPart, OctetPart, Tlv, Goal;
    var b := new Builder();
    WriteHead(b, x, forTicket);
    ghost var head := b.View();
    WriteTimes(b, x, forTicket);
    WriteResult(b, x, forTicket);
    WriteTicket(b, x, forTicket);
    WritePeer(b, x, forTicket);
    WriteChain(b, x, forTicket);
    WriteRest(b, x, forTicket);
    GoalEnds(x, forTicket, head, b.View());
    if b.failed || |b.out| > MAX_LENGTH { return None; }
    return Some(Tlv(SEQUENCE, b.out));
  }

  lemma GoalEnds(x: Session, f: bool, head: Option<bytes>, all: Option<bytes>)
    ensures Goal(x, f, 1, head) == Join(head, Tail(x, f, 1)) && Goal(x, f, 27, all) == all
  {
    JoinNothing(all);
  }

  /** The fields without a tag of their own. */
  method WriteHead(b: Builder, x: Session, f: bool)
    requires b.View() == Some([])
    modifies b
    ensures b.View() == Head(x, f)
  {
    hide UintPart, OctetPart;
    var v, s := UintPart(VERSION), UintPart(x.version);
    var c, k := OctetPart(ToBE(x.cipher % 0x1_0000, W16)), OctetPart(x.masterKey);
    var i := OctetPart(if f then [] else x.sessionId);
    b.Add(v);
    b.Add(s);
    b.Add(c);
    b.Add(i);
    b.Add(k);
    HeadIs(v, s, c, i, k);
  }

  lemma HeadIs(v: Option<bytes>, s: Option<bytes>, c: Option<bytes>, i: Option<bytes>, k: Option<bytes>)
    ensures Join(Join(Join(Join(Join(Some([]), v), s), c), i), k) == Join(v, Join(s, Join(c, Join(i, k))))
  {
    if v.Some? { assert [] + v.value == v.value; }
    JoinAssoc(Join(Join(v, s), c), i, k);
    JoinAssoc(Join(v, s), c, Join(i, k));
    JoinAssoc(v, s, Join(c, Join(i, k)));
  }

  // ---------------------------------------------------------------- reading

  /** A step did what its specification says: it succeeded and is where that says, or it failed. */
  predicate Did(r: Option<Cursor>, ok: bool, c: Cursor) {
    (ok <==> r.Some?) && (ok ==> c == r.value)
  }

  /** A method that reads did what `p` says for the bytes that were left. */
  predicate Took<T(==)>(p: Got<T>, ok: bool, v: T, rest: bytes) {
    (ok <==> p.Good?) && (ok ==> v == p.value && rest == p.rest)
  }

  class Reader {
    var rest: bytes

    constructor (s: bytes)
      ensures rest == s
    {
      rest := s;
    }

    /** CBS_get_asn1 */
    method Asn1(tag: byte) returns (ok: bool, contents: bytes)
      modifies this
      ensures Took(Get(tag, old(rest)), ok, contents, rest)
    {
      hide AnyElement;
      var e := Get(tag, rest);
      if e.Bad? { return false, []; }
      rest := e.rest;
      return true, e.value;
    }

    /** CBS_get_optional_asn1 */
    method OptionalAsn1(tag: byte) returns (ok: bool, contents: Option<bytes>)
      modifies this
      ensures Took(GetOptional(tag, old(rest)), ok, contents, rest)
    {
      hide Get;
      if rest == [] || rest[0] != tag { return true, None; }
      var v;
      ok, v := Asn1(tag);
      contents := Some(v);
    }

    /** CBS_get_asn1_uint64 */
    method Uint64() returns (ok: bool, n: nat)
      modifies this
      ensures Took(GetUint(old(rest)), ok, n, rest)
    {
      hide Get, Uint;
      var v;
      ok, v := Asn1(INTEGER);
      if !ok || Uint(v).None? { return false, 0; }
      return true, Uint(v).value;
    }

    /** CBS_get_optional_asn1_octet_string */
    method OptionalOctetString(t: nat) returns (ok: bool, v: Option<bytes>)
      requires t <= 30
      modifies this
      ensures Took(OptionalOctets(t, old(rest)), ok, v, rest)
    {
      hide Get, GetOptional;
      ok, v := OptionalAsn1(Context(t));
      if !ok || v.None? { return; }
      var child := new Reader(v.value);
      var s;
      ok, s := child.Asn1(OCTETS);
      return ok && child.rest == [], Some(s);
    }

    /** CBS_get_optional_asn1_uint64, with the range that SSL_SESSION_parse_long, _u32 and _u16 check. */
    method OptionalUint64(t: nat, default: nat, limit: nat) returns (ok: bool, n: nat)
      requires t <= 30
      modifies this
      ensures Took(OptionalUint(t, old(rest), default, limit), ok, n, rest)
    {
      hide GetUint, GetOptional;
      var v;
      ok, v := OptionalAsn1(Context(t));
      if !ok { return false, 0; }
      n := default;
      if v.Some? {
        var child := new Reader(v.value);
        ok, n := child.Uint64();
        if !ok || child.rest != [] { return false, 0; }
      }
      return n <= limit, n;
    }

    /** CBS_get_optional_asn1_bool */
    method OptionalBoolean(t: nat, default: bool) returns (ok: bool, b: bool)
      requires t <= 30
      modifies this
      ensures Took(OptionalBool(t, old(rest), default), ok, b, rest)
    {
      hide Get, GetOptional, Bool;
      var v;
      ok, v := OptionalAsn1(Context(t));
      if !ok { return false, false; }
      if v.None? { return true, default; }
      var child := new Reader(v.value);
      var s;
      ok, s := child.Asn1(BOOLEAN);
      if !ok || child.rest != [] || Bool(s).None? { return false, false; }
      return true, Bool(s).value;
    }

    /** SSL_SESSION_parse_bounded_octet_string */
    method BoundedOctetString(t: nat, limit: nat) returns (ok: bool, v: bytes)
      requires t <= 30
      modifies this
      ensures Took(Bounded(t, old(rest), limit), ok, v, rest)
    {
      hide OptionalOctets;
      var s;
      ok, s := OptionalOctetString(t);
      v := if s.Some? then s.value else [];
      return ok && |v| <= limit, v;
    }

    /** The loop over the certificates behind the leaf, on the reader of the chain. */
    method Certificates() returns (ok: bool, certs: seq<bytes>)
      modifies this
      ensures ok <==> Split(old(rest)).Some?
      ensures ok ==> certs == Split(old(rest)).value
    {
      hide AnyElement;
      certs := [];
      while rest != []
        invariant Split(old(rest)).Some? <==> Split(rest).Some?
        invariant Split(rest).Some? ==> Split(old(rest)).value == certs + Split(rest).value
        decreases |rest|
      {
        var e := AnyElement(rest);
        if e.Bad? { return false, []; }
        if Split(e.rest).Some? {
          assert certs + ([e.value.0] + Split(e.rest).value) == certs + [e.value.0] + Split(e.rest).value;
        }
        certs := certs + [e.value.0];
        rest := e.rest;
      }
      assert certs + [] == certs;
      return true, certs;
    }
  }

  /** The session that SSL_SESSION_parse fills in. */
  class Parser {
    const g: Env
    const session: Reader
    var ret: Session
    var peer: Option<bytes>

    ghost function View(): Cursor
      reads this, session
    {
      Cursor(ret, peer, session.rest)
    }

    constructor (g: Env, body: bytes)
      ensures this.g == g && fresh(session) && View() == Cursor(Blank(), None, body)
    {
      this.g := g;
      ret, peer := Blank(), None;
      session := new Reader(body);
    }

    method ReadVersion() returns (ok: bool)
      modifies this, session
      ensures Did(StepVersion(g, old(View())), ok, View())
    {
      hide GetUint;
      var version, ssl;
      ok, version := session.Uint64();
      if !ok || version != VERSION { return false; }
      ok, ssl := session.Uint64();
      if !ok || ssl > U16 || !g.knownVersion(ssl) { return false; }
      ret := ret.(version := ssl);
    }

    method ReadCipher() returns (ok: bool)
      modifies this, session
      ensures Did(StepCipher(g, old(View())), ok, View())
    {
      hide Get, FromBE;
      var v;
      ok, v := session.Asn1(OCTETS);
      if !ok || |v| != W16 || !g.knownCipher(FromBE(v)) { return false; }
      ret := ret.(cipher := FromBE(v));
    }

    method ReadId() returns (ok: bool)
      modifies this, session
      ensures Did(StepId(old(View())), ok, View())
    {
      hide Get;
      var v;
      ok, v := session.Asn1(OCTETS);
      if !ok || |v| > MAX_SESSION_ID { return false; }
      ret := ret.(sessionId := v);
    }

    method ReadKey() returns (ok: bool)
      modifies this, session
      ensures Did(StepKey(old(View())), ok, View())
    {
      hide Get;
      var v;
      ok, v := session.Asn1(OCTETS);
      if !ok || |v| > MAX_MASTER_KEY { return false; }
      ret := ret.(masterKey := v);
    }

    method ReadTime() returns (ok: bool)
      modifies this, session
      ensures Did(StepTime(old(View())), ok, View())
    {
      hide Get, GetUint;
      var v, n;
      ok, v := session.Asn1(Context(1));
      if !ok { return; }
      var child := new Reader(v);
      ok, n := child.Uint64();
      if !ok { return false; }
      ret := ret.(time := n);
    }

    method ReadTimeout() returns (ok: bool)
      modifies this, session
      ensures Did(StepTimeout(old(View())), ok, View())
    {
      hide Get, GetUint;
      var v, n;
      ok, v := session.Asn1(Context(2));
      if !ok { return; }
      var child := new Reader(v);
      ok, n := child.Uint64();
      if !ok || n > U32 { return false; }
      ret := ret.(timeout := n);
    }

    method ReadPeer() returns (ok: bool)
      modifies this, session
      ensures Did(StepPeer(old(View())), ok, View())
    {
      hide GetOptional;
      var v;
      ok, v := session.OptionalAsn1(Context(3));
      if !ok || v == Some([]) { return false; }
      peer := v;
    }

    method ReadSidCtx() returns (ok: bool)
      modifies this, session
      ensures Did(StepSidCtx(old(View())), ok, View())
    {
      hide Bounded;
      var v;
      ok, v := session.BoundedOctetString(4, MAX_SID_CTX);
      if ok { ret := ret.(sidCtx := v); }
    }

    method ReadHash() returns (ok: bool)
      modifies this, session
      ensures Did(StepHash(old(View())), ok, View())
    {
      hide Bounded;
      var v;
      ok, v := session.BoundedOctetString(14, MAX_MD_SIZE);
      if ok { ret := ret.(handshakeHash := v); }
    }

    method ReadVerify() returns (ok: bool)
      modifies this, session
      ensures Did(StepVerify(old(View())), ok, View())
    {
      hide OptionalUint;
      var v;
      ok, v := session.OptionalUint64(5, 0, LONG_MAX);
      if ok { ret := ret.(verifyResult := v); }
    }

    method ReadHostName() returns (ok: bool)
      modifies this, session
      ensures Did(StepHostName(old(View())), ok, View())
    {
      hide GetOptional;
      var v;
      ok, v := session.OptionalAsn1(Context(6));
    }

    method ReadPsk() returns (ok: bool)
      modifies this, session
      ensures Did(StepPsk(old(View())), ok, View())
    {
      hide OptionalOctets;
      var v;
      ok, v := session.OptionalOctetString(8);
      if !ok || (v.Some? && 0 in v.value) { return false; }
      ret := ret.(psk := v);
    }

    method ReadHint() returns (ok: bool)
      modifies this, session
      ensures Did(StepHint(old(View())), ok, View())
    {
      hide OptionalUint;
      var v;
      ok, v := session.OptionalUint64(9, 0, U32);
      if ok { ret := ret.(lifetimeHint := v); }
    }

    method ReadTicket() returns (ok: bool)
      modifies this, session
      ensures Did(StepTicket(old(View())), ok, View())
    {
      hide OptionalOctets;
      var v;
      ok, v := session.OptionalOctetString(10);
      if ok { ret := ret.(ticket := Stowed(v)); }
    }

    method ReadSha256() returns (ok: bool)
      modifies this, session
      ensures Did(StepSha256(old(View())), ok, View())
    {
      hide OptionalOctets;
      var v;
      ok, v := session.OptionalOctetString(13);
      if !ok || (v.Some? && |v.value| != SHA256_SIZE) { return false; }
      ret := ret.(sha256 := v);
    }

    method ReadScts() returns (ok: bool)
      modifies this, session
      ensures Did(StepScts(old(View())), ok, View())
    {
      hide OptionalOctets;
      var v;
      ok, v := session.OptionalOctetString(15);
      if ok { ret := ret.(scts := v); }
    }

    method ReadOcsp() returns (ok: bool)
      modifies this, session
      ensures Did(StepOcsp(old(View())), ok, View())
    {
      hide OptionalOctets;
      var v;
      ok, v := session.OptionalOctetString(16);
      if ok { ret := ret.(ocsp := v); }
    }

    method ReadExtendedMaster() returns (ok: bool)
      modifies this, session
      ensures Did(StepExtendedMaster(old(View())), ok, View())
    {
      hide OptionalBool;
      var v;
      ok, v := session.OptionalBoolean(17, false);
      if ok { ret := ret.(extendedMaster := FlagOf(v)); }
    }

    method ReadServer() returns (ok: bool)
      modifies this, session
      ensures Did(StepServer(old(View())), ok, View())
    {
      hide OptionalBool;
      var v;
      ok, v := session.OptionalBoolean(22, true);
      if ok { ret := ret.(server := FlagOf(v)); }
    }

    method ReadGroup() returns (ok: bool)
      modifies this, session
      ensures Did(StepGroup(old(View())), ok, View())
    {
      hide OptionalUint;
      var v;
      ok, v := session.OptionalUint64(18, 0, U16);
      if ok { ret := ret.(group := v); }
    }

    method ReadChain() returns (ok: bool)
      modifies this, session
      ensures Did(StepChain(g, old(View())), ok, View())
    {
      hide GetOptional, Split;
      var v;
      ok, v := session.OptionalAsn1(Context(19));
      if !ok || v == Some([]) || (v.Some? && peer.None?) { return false; }
      var certs := if peer.Some? then [peer.value] else [];
      if v.Some? {
        var chain := new Reader(v.value);
        var more;
        ok, more := chain.Certificates();
        if !ok { return false; }
        certs := certs + more;
      }
      if !g.cacheable(certs) { return false; }
      ret := ret.(certs := certs);
    }

    method ReadAgeAdd() returns (ok: bool)
      modifies this, session
      ensures Did(StepAgeAdd(old(View())), ok, View())
    {
      hide OptionalOctets, FromBE;
      var v;
      ok, v := session.OptionalOctetString(21);
      if !ok || (v.Some? && |v.value| != 4) { return false; }
      ret := ret.(ageAdd := if v.Some? then Some(FromBE(v.value)) else None);
    }

    method ReadSigalg() returns (ok: bool)
      modifies this, session
      ensures Did(StepSigalg(old(View())), ok, View())
    {
      hide OptionalUint;
      var v;
      ok, v := session.OptionalUint64(23, 0, U16);
      if ok { ret := ret.(sigalg := v); }
    }

    method ReadEarlyData() returns (ok: bool)
      modifies this, session
      ensures Did(StepEarlyData(old(View())), ok, View())
    {
      hide OptionalUint;
      var v;
      ok, v := session.OptionalUint64(24, 0, U32);
      if ok { ret := ret.(maxEarlyData := v); }
    }

    method ReadAuthTimeout() returns (ok: bool)
      modifies this, session
      ensures Did(StepAuthTimeout(old(View())), ok, View())
    {
      hide OptionalUint;
      var v;
      ok, v := session.OptionalUint64(25, ret.timeout, U32);
      if ok { ret := ret.(authTimeout := v); }
    }

    method ReadAlpn() returns (ok: bool)
      modifies this, session
      ensures Did(StepAlpn(old(View())), ok, View())
    {
      hide OptionalOctets;
      var v;
      ok, v := session.OptionalOctetString(26);
      if ok { ret := ret.(alpn := Stowed(v)); }
    }

    /** Items 1 to 4 of SSL_SESSION_parse: the version, the cipher, the session ID and the master key. */
    method ParseHead(ghost start: Cursor) returns (ok: bool)
      requires Upto(g, start, 0) == Some(View())
      modifies this, session
      ensures Did(Upto(g, start, 4), ok, View())
    {
      hide Upto, Step, ItemAt, StepVersion, StepCipher, StepId, StepKey, StepTime, StepTimeout, StepPeer, StepSidCtx,
           StepVerify, StepHostName, StepPsk, StepHint, StepTicket, StepSha256, StepHash, StepScts, StepOcsp,
           StepExtendedMaster, StepGroup, StepChain, StepAgeAdd, StepServer, StepSigalg, StepEarlyData, StepAuthTimeout,
           StepAlpn;
      NextItem(g, start, 0, 4);
      HeadSteps(g, View());
      ok := ReadVersion();
      if !ok { return; }
      NextItem(g, start, 1, 4);
      HeadSteps(g, View());
      ok := ReadCipher();
      if !ok { return; }
      NextItem(g, start, 2, 4);
      HeadSteps(g, View());
      ok := ReadId();
      if !ok { return; }
      NextItem(g, start, 3, 4);
      HeadSteps(g, View());
      ok := ReadKey();
      if !ok { return; }
    }

    /** Items 5 to 8 of SSL_SESSION_parse: the times, the leaf certificate and the session ID context. */
    method ParseTimes(ghost start: Cursor) returns (ok: bool)
      requires Upto(g, start, 4) == Some(View())
      modifies this, session
      ensures Did(Upto(g, start, 8), ok, View())
    {
      hide Upto, Step, ItemAt, StepVersion, StepCipher, StepId, StepKey, StepTime, StepTimeout, StepPeer, StepSidCtx,
           StepVerify, StepHostName, StepPsk, StepHint, StepTicket, StepSha256, StepHash, StepScts, StepOcsp,
           StepExtendedMaster, StepGroup, StepChain, StepAgeAdd, StepServer, StepSigalg, StepEarlyData, StepAuthTimeout,
           StepAlpn;
      NextItem(g, start, 4, 8);
      TimesSteps(g, View());
      ok := ReadTime();
      if !ok { return; }
      NextItem(g, start, 5, 8);
      TimesSteps(g, View());
      ok := ReadTimeout();
      if !ok { return; }
      NextItem(g, start, 6, 8);
      TimesSteps(g, View());
      ok := ReadPeer();
      if !ok { return; }
      NextItem(g, start, 7, 8);
      TimesSteps(g, View());
      ok := ReadSidCtx();
      if !ok { return; }
    }

    /** Items 9 to 11 of SSL_SESSION_parse: the verify result, the old host name and the PSK identity. */
    method ParseResult(ghost start: Cursor) returns (ok: bool)
      requires Upto(g, start, 8) == Some(View())
      modifies this, session
      ensures Did(Upto(g, start, 11), ok, View())
    {
      hide Upto, Step, ItemAt, StepVersion, StepCipher, StepId, StepKey, StepTime, StepTimeout, StepPeer, StepSidCtx,
           StepVerify, StepHostName, StepPsk, StepHint, StepTicket, StepSha256, StepHash, StepScts, StepOcsp,
           StepExtendedMaster, StepGroup, StepChain, StepAgeAdd, StepServer, StepSigalg, StepEarlyData, StepAuthTimeout,
           StepAlpn;
      NextItem(g, start, 8, 11);
      ResultSteps(g, View());
      ok := ReadVerify();
      if !ok { return; }
      NextItem(g, start, 9, 11);
      ResultSteps(g, View());
      ok := ReadHostName();
      if !ok { return; }
      NextItem(g, start, 10, 11);
      ResultSteps(g, View());
      ok := ReadPsk();
      if !ok { return; }
    }

    /** Items 12 to 14 of SSL_SESSION_parse: the ticket and the SHA-256 of the peer. */
    method ParseTicket(ghost start: Cursor) returns (ok: bool)
      requires Upto(g, start, 11) == Some(View())
      modifies this, session
      ensures Did(Upto(g, start, 14), ok, View())
    {
      hide Upto, Step, ItemAt, StepVersion, StepCipher, StepId, StepKey, StepTime, StepTimeout, StepPeer, StepSidCtx,
           StepVerify, StepHostName, StepPsk, StepHint, StepTicket, StepSha256, StepHash, StepScts, StepOcsp,
           StepExtendedMaster, StepGroup, StepChain, StepAgeAdd, StepServer, StepSigalg, StepEarlyData, StepAuthTimeout,
           StepAlpn;
      NextItem(g, start, 11, 14);
      TicketSteps(g, View());
      ok := ReadHint();
      if !ok { return; }
      NextItem(g, start, 12, 14);
      TicketSteps(g, View());
      ok := ReadTicket();
      if !ok { return; }
      NextItem(g, start, 13, 14);
      TicketSteps(g, View());
      ok := ReadSha256();
      if !ok { return; }
    }

    /** Items 15 to 17 of SSL_SESSION_parse: handshake hash, timestamps and OCSP response. */
    method ParsePeerData(ghost start: Cursor) returns (ok: bool)
      requires Upto(g, start, 14) == Some(View())
      modifies this, session
      ensures Did(Upto(g, start, 17), ok, View())
    {
      hide Upto, Step, ItemAt, StepVersion, StepCipher, StepId, StepKey, StepTime, StepTimeout, StepPeer, StepSidCtx,
           StepVerify, StepHostName, StepPsk, StepHint, StepTicket, StepSha256, StepHash, StepScts, StepOcsp,
           StepExtendedMaster, StepGroup, StepChain, StepAgeAdd, StepServer, StepSigalg, StepEarlyData, StepAuthTimeout,
           StepAlpn;
      NextItem(g, start, 14, 17);
      PeerDataSteps(g, View());
      ok := ReadHash();
      if !ok { return; }
      NextItem(g, start, 15, 17);
      PeerDataSteps(g, View());
      ok := ReadScts();
      if !ok { return; }
      NextItem(g, start, 16, 17);
      PeerDataSteps(g, View());
      ok := ReadOcsp();
      if !ok { return; }
    }

    /** Items 18 to 20 of SSL_SESSION_parse: extended master secret, group and certificates. */
    method ParseNegotiated(ghost start: Cursor) returns (ok: bool)
      requires Upto(g, start, 17) == Some(View())
      modifies this, session
      ensures Did(Upto(g, start, 20), ok, View())
    {
      hide Upto, Step, ItemAt, StepVersion, StepCipher, StepId, StepKey, StepTime, StepTimeout, StepPeer, StepSidCtx,
           StepVerify, StepHostName, StepPsk, StepHint, StepTicket, StepSha256, StepHash, StepScts, StepOcsp,
           StepExtendedMaster, StepGroup, StepChain, StepAgeAdd, StepServer, StepSigalg, StepEarlyData, StepAuthTimeout,
           StepAlpn;
      NextItem(g, start, 17, 20);
      NegotiatedSteps(g, View());
      ok := ReadExtendedMaster();
      if !ok { return; }
      NextItem(g, start, 18, 20);
      NegotiatedSteps(g, View());
      ok := ReadGroup();
      if !ok { return; }
      NextItem(g, start, 19, 20);
      NegotiatedSteps(g, View());
      ok := ReadChain();
      if !ok { return; }
    }

    /** Items 21 to 23 of SSL_SESSION_parse: ticket age, side and signature algorithm. */
    method ParseSide(ghost start: Cursor) returns (ok: bool)
      requires Upto(g, start, 20) == Some(View())
      modifies this, session
      ensures Did(Upto(g, start, 23), ok, View())
    {
      hide Upto, Step, ItemAt, StepVersion, StepCipher, StepId, StepKey, StepTime, StepTimeout, StepPeer, StepSidCtx,
           StepVerify, StepHostName, StepPsk, StepHint, StepTicket, StepSha256, StepHash, StepScts, StepOcsp,
           StepExtendedMaster, StepGroup, StepChain, StepAgeAdd, StepServer, StepSigalg, StepEarlyData, StepAuthTimeout,
           StepAlpn;
      NextItem(g, start, 20, 23);
      SideSteps(g, View());
      ok := ReadAgeAdd();
      if !ok { return; }
      NextItem(g, start, 21, 23);
      SideSteps(g, View());
      ok := ReadServer();
      if !ok { return; }
      NextItem(g, start, 22, 23);
      SideSteps(g, View());
      ok := ReadSigalg();
      if !ok { return; }
    }

    /** Items 24 to 26 of SSL_SESSION_parse: what is left. */
    method ParseRest(ghost start: Cursor) returns (ok: bool)
      requires Upto(g, start, 23) == Some(View())
      modifies this, session
      ensures Did(Upto(g, start, 26), ok, View())
    {
      hide Upto, Step, ItemAt, StepVersion, StepCipher, StepId, StepKey, StepTime, StepTimeout, StepPeer, StepSidCtx,
           StepVerify, StepHostName, StepPsk, StepHint, StepTicket, StepSha256, StepHash, StepScts, StepOcsp,
           StepExtendedMaster, StepGroup, StepChain, StepAgeAdd, StepServer, StepSigalg, StepEarlyData, StepAuthTimeout,
           StepAlpn;
      NextItem(g, start, 23, 26);
      RestSteps(g, View());
      ok := ReadEarlyData();
      if !ok { return; }
      NextItem(g, start, 24, 26);
      RestSteps(g, View());
      ok := ReadAuthTimeout();
      if !ok { return; }
      NextItem(g, start, 25, 26);
      RestSteps(g, View());
      ok := ReadAlpn();
      if !ok { return; }
    }

    /** SSL_SESSION_parse behind the SEQUENCE. */
    method ReadSession() returns (ok: bool)
      requires View() == Cursor(Blank(), None, session.rest)
      modifies this, session
      ensures ok <==> var end := Upto(g, old(View()), ITEMS); end.Some? && end.value.rest == []
      ensures ok ==> ret == Upto(g, old(View()), ITEMS).value.ret
    {
      hide Upto;
      ghost var start := View();
      NoItems(g, start);
      UptoFails(g, start, 4, 26);
      UptoFails(g, start, 8, 26);
      UptoFails(g, start, 11, 26);
      UptoFails(g, start, 14, 26);
      UptoFails(g, start, 17, 26);
      UptoFails(g, start, 20, 26);
      UptoFails(g, start, 23, 26);
      ok := ParseHead(start);
      if !ok { return; }
      ok := ParseTimes(start);
      if !ok { return; }
      ok := ParseResult(start);
      if !ok { return; }
      ok := ParseTicket(start);
      if !ok { return; }
      ok := ParsePeerData(start);
      if !ok { return; }
      ok := ParseNegotiated(start);
      if !ok { return; }
      ok := ParseSide(start);
      if !ok { return; }
      ok := ParseRest(start);
      if !ok { return; }
      return session.rest == [];
    }
  }

  lemma NoItems(g: Env, c: Cursor)
    ensures Upto(g, c, 0) == Some(c)
  {
  }

  lemma {:induction false} UptoFails(g: Env, c: Cursor, m: nat, n: nat)
    requires m <= n <= 26
    ensures Upto(g, c, m).None? ==> Upto(g, c, n).None?
    decreases n
  {
    hide Step;
    if m < n { UptoFails(g, c, m, n - 1); }
  }

  lemma HeadSteps(g: Env, c: Cursor)
    ensures Step(g, ItemAt(1), c) == StepVersion(g, c)
    ensures Step(g, ItemAt(2), c) == StepCipher(g, c)
    ensures Step(g, ItemAt(3), c) == StepId(c)
    ensures Step(g, ItemAt(4), c) == StepKey(c)
  {
    hide StepVersion, StepCipher, StepId, StepKey, StepTime, StepTimeout, StepPeer, StepSidCtx, StepVerify,
         StepHostName, StepPsk, StepHint, StepTicket, StepSha256, StepHash, StepScts, StepOcsp, StepExtendedMaster,
         StepGroup, StepChain, StepAgeAdd, StepServer, StepSigalg, StepEarlyData, StepAuthTimeout, StepAlpn;
  }

  lemma TimesSteps(g: Env, c: Cursor)
    ensures Step(g, ItemAt(5), c) == StepTime(c)
    ensures Step(g, ItemAt(6), c) == StepTimeout(c)
    ensures Step(g, ItemAt(7), c) == StepPeer(c)
    ensures Step(g, ItemAt(8), c) == StepSidCtx(c)
  {
    hide StepVersion, StepCipher, StepId, StepKey, StepTime, StepTimeout, StepPeer, StepSidCtx, StepVerify,
         StepHostName, StepPsk, StepHint, StepTicket, StepSha256, StepHash, StepScts, StepOcsp, StepExtendedMaster,
         StepGroup, StepChain, StepAgeAdd, StepServer, StepSigalg, StepEarlyData, StepAuthTimeout, StepAlpn;
  }

  lemma ResultSteps(g: Env, c: Cursor)
    ensures Step(g, ItemAt(9), c) == StepVerify(c)
    ensures Step(g, ItemAt(10), c) == StepHostName(c)
    ensures Step(g, ItemAt(11), c) == StepPsk(c)
  {
    hide StepVersion, StepCipher, StepId, StepKey, StepTime, StepTimeout, StepPeer, StepSidCtx, StepVerify,
         StepHostName, StepPsk, StepHint, StepTicket, StepSha256, StepHash, StepScts, StepOcsp, StepExtendedMaster,
         StepGroup, StepChain, StepAgeAdd, StepServer, StepSigalg, StepEarlyData, StepAuthTimeout, StepAlpn;
  }

  lemma TicketSteps(g: Env, c: Cursor)
    ensures Step(g, ItemAt(12), c) == StepHint(c)
    ensures Step(g, ItemAt(13), c) == StepTicket(c)
    ensures Step(g, ItemAt(14), c) == StepSha256(c)
  {
    hide StepVersion, StepCipher, StepId, StepKey, StepTime, StepTimeout, StepPeer, StepSidCtx, StepVerify,
         StepHostName, StepPsk, StepHint, StepTicket, StepSha256, StepHash, StepScts, StepOcsp, StepExtendedMaster,
         StepGroup, StepChain, StepAgeAdd, StepServer, StepSigalg, StepEarlyData, StepAuthTimeout, StepAlpn;
  }

  lemma PeerDataSteps(g: Env, c: Cursor)
    ensures Step(g, ItemAt(15), c) == StepHash(c)
    ensures Step(g, ItemAt(16), c) == StepScts(c)
    ensures Step(g, ItemAt(17), c) == StepOcsp(c)
  {
    hide StepVersion, StepCipher, StepId, StepKey, StepTime, StepTimeout, StepPeer, StepSidCtx, StepVerify,
         StepHostName, StepPsk, StepHint, StepTicket, StepSha256, StepHash, StepScts, StepOcsp, StepExtendedMaster,
         StepGroup, StepChain, StepAgeAdd, StepServer, StepSigalg, StepEarlyData, StepAuthTimeout, StepAlpn;
  }

  lemma NegotiatedSteps(g: Env, c: Cursor)
    ensures Step(g, ItemAt(18), c) == StepExtendedMaster(c)
    ensures Step(g, ItemAt(19), c) == StepGroup(c)
    ensures Step(g, ItemAt(20), c) == StepChain(g, c)
  {
    hide StepVersion, StepCipher, StepId, StepKey, StepTime, StepTimeout, StepPeer, StepSidCtx, StepVerify,
         StepHostName, StepPsk, StepHint, StepTicket, StepSha256, StepHash, StepScts, StepOcsp, StepExtendedMaster,
         StepGroup, StepChain, StepAgeAdd, StepServer, StepSigalg, StepEarlyData, StepAuthTimeout, StepAlpn;
  }

  lemma SideSteps(g: Env, c: Cursor)
    ensures Step(g, ItemAt(21), c) == StepAgeAdd(c)
    ensures Step(g, ItemAt(22), c) == StepServer(c)
    ensures Step(g, ItemAt(23), c) == StepSigalg(c)
  {
    hide StepVersion, StepCipher, StepId, StepKey, StepTime, StepTimeout, StepPeer, StepSidCtx, StepVerify,
         StepHostName, StepPsk, StepHint, StepTicket, StepSha256, StepHash, StepScts, StepOcsp, StepExtendedMaster,
         StepGroup, StepChain, StepAgeAdd, StepServer, StepSigalg, StepEarlyData, StepAuthTimeout, StepAlpn;
  }

  lemma RestSteps(g: Env, c: Cursor)
    ensures Step(g, ItemAt(24), c) == StepEarlyData(c)
    ensures Step(g, ItemAt(25), c) == StepAuthTimeout(c)
    ensures Step(g, ItemAt(26), c) == StepAlpn(c)
  {
    hide StepVersion, StepCipher, StepId, StepKey, StepTime, StepTimeout, StepPeer, StepSidCtx, StepVerify,
         StepHostName, StepPsk, StepHint, StepTicket, StepSha256, StepHash, StepScts, StepOcsp, StepExtendedMaster,
         StepGroup, StepChain, StepAgeAdd, StepServer, StepSigalg, StepEarlyData, StepAuthTimeout, StepAlpn;
  }

  /** Item `k` is next; if it fails, so does everything up to `n`. */
  lemma NextItem(g: Env, c: Cursor, k: nat, n: nat)
    requires k < n <= 26 && Upto(g, c, k).Some?
    ensures Upto(g, c, k + 1) == Step(g, ItemAt(k + 1), Upto(g, c, k).value)
    ensures Upto(g, c, k + 1).None? ==> Upto(g, c, n).None?
  {
    hide Step;
    UptoFails(g, c, k + 1, n);
  }

  /** SSL_SESSION_from_bytes */
  method FromBytes(g: Env, s: bytes) returns (r: Option<Session>)
    ensures r == SessionAsn1.FromBytes(g, s)
  {
    hide Get, Upto;
    var cbs := new Reader(s);
    var ok, body := cbs.Asn1(SEQUENCE);
    if !ok { return None; }
    var parser := new Parser(g, body);
    ok := parser.ReadSession();
    if !ok || cbs.rest != [] { return None; }
    return Some(parser.ret);
  }
}
