/**
The serialization of an SSL_SESSION and its parser, as functions.  Every part of a session that is written
behind a context-specific tag is read back from behind that tag.
*/
module SessionAsn1 {
  import opened Wire
  import opened Der

  const VERSION: nat := 1
  const MAX_SESSION_ID := 32
  const MAX_MASTER_KEY := 48
  const MAX_SID_CTX := 32
  const MAX_MD_SIZE := 64
  const SHA256_SIZE := 32
  const LONG_MAX: nat := 0x7fff_ffff_ffff_ffff
  const U16: nat := 0xffff
  const U32: nat := 0xffff_ffff

  type bytes = seq<byte>

  datatype Flag = No | Yes

  /** The fields of an SSL_SESSION that are serialized; X509_V_OK is 0. */
  datatype Session = Session(
    version: nat, cipher: nat, sessionId: bytes, masterKey: bytes, time: nat, timeout: nat,
    certs: seq<bytes>, sidCtx: bytes, verifyResult: int, psk: Option<bytes>, lifetimeHint: nat,
    ticket: Option<bytes>, sha256: Option<bytes>, handshakeHash: bytes, scts: Option<bytes>, ocsp: Option<bytes>,
    extendedMaster: Flag, group: nat, ageAdd: Option<nat>, server: Flag, sigalg: nat, maxEarlyData: nat,
    authTimeout: nat, alpn: Option<bytes>)

  /** The tables and callbacks that the parser asks. */
  datatype Env = Env(knownVersion: nat -> bool, knownCipher: nat -> bool, cacheable: seq<bytes> -> bool)

  function Concat(certs: seq<bytes>): bytes {
    if certs == [] then [] else certs[0] + Concat(certs[1..])
  }

  // ---------------------------------------------------------------- writing

  function OctetPart(s: bytes): Option<bytes> {
    if |s| <= MAX_LENGTH then Some(Tlv(OCTETS, s)) else None
  }

  function UintPart(n: nat): Option<bytes> {
    if n < LIMIT64 then (UintLength(n); Some(Tlv(INTEGER, UintBytes(n)))) else None
  }

  function Unsigned(n: int): nat {
    if n < 0 then n % 0x1_0000_0000_0000_0000 else n
  }

  /** What is written behind context-specific tag `t`: nothing, or contents (`None` inside if they are too long). */
  function Part(in_: Session, forTicket: bool, t: nat): Option<Option<bytes>> {
    match t
    case 1 => Some(UintPart(in_.time))
    case 2 => Some(UintPart(in_.timeout))
    case 3 => if in_.certs != [] && in_.sha256.None? then Some(Some(in_.certs[0])) else None
    case 4 => Some(OctetPart(in_.sidCtx))
    case 5 => if in_.verifyResult != 0 then Some(UintPart(Unsigned(in_.verifyResult))) else None
    case 8 => if in_.psk.Some? then Some(OctetPart(in_.psk.value)) else None
    case 9 => if in_.lifetimeHint > 0 then Some(UintPart(in_.lifetimeHint)) else None
    case 10 => if in_.ticket.Some? && !forTicket then Some(OctetPart(in_.ticket.value)) else None
    case 13 => if in_.sha256.Some? then Some(OctetPart(in_.sha256.value)) else None
    case 14 => if in_.handshakeHash != [] then Some(OctetPart(in_.handshakeHash)) else None
    case 15 => if in_.scts.Some? then Some(OctetPart(in_.scts.value)) else None
    case 16 => if in_.ocsp.Some? then Some(OctetPart(in_.ocsp.value)) else None
    case 17 => if in_.extendedMaster.Yes? then Some(Some(Tlv(BOOLEAN, BoolBytes(true)))) else None
    case 18 => if in_.group > 0 then Some(UintPart(in_.group)) else None
    case 19 => if in_.sha256.None? && |in_.certs| >= 2 then Some(Some(Concat(in_.certs[1..]))) else None
    case 21 => if in_.ageAdd.Some? then Some(Some(Tlv(OCTETS, ToBE(in_.ageAdd.value, 4)))) else None
    case 22 => if in_.server.No? then Some(Some(Tlv(BOOLEAN, BoolBytes(false)))) else None
    case 23 => if in_.sigalg != 0 then Some(UintPart(in_.sigalg)) else None
    case 24 => if in_.maxEarlyData != 0 then Some(UintPart(in_.maxEarlyData)) else None
    case 25 => if in_.timeout != in_.authTimeout then Some(UintPart(in_.authTimeout)) else None
    case 26 => if in_.alpn.Some? then Some(OctetPart(in_.alpn.value)) else None
    case _ => None
  }

  function Join(a: Option<bytes>, b: Option<bytes>): Option<bytes> {
    if a.Some? && b.Some? then Some(a.value + b.value) else None
  }

  function Tagged(t: nat, part: Option<Option<bytes>>): Option<bytes>
    requires t <= 30
  {
    if part.None? then Some([])
    else if part.value.None? || |part.value.value| > MAX_LENGTH then None
    else Some(Tlv(Context(t), part.value.value))
  }

  /** The parts from tag `t` on. */
  function Tail(in_: Session, forTicket: bool, t: nat): Option<bytes>
    requires t <= 27
    decreases 27 - t
  {
    if t == 27 then Some([]) else Join(Tagged(t, Part(in_, forTicket, t)), Tail(in_, forTicket, t + 1))
  }

  function Head(in_: Session, forTicket: bool): Option<bytes> {
    Join(UintPart(VERSION), Join(UintPart(in_.version),
      Join(OctetPart(ToBE(in_.cipher % 0x1_0000, W16)),
        Join(OctetPart(if forTicket then [] else in_.sessionId), OctetPart(in_.masterKey)))))
  }

  /** SSL_SESSION_to_bytes_full */
  function Serialize(in_: Session, forTicket: bool): Option<bytes> {
    var body := Join(Head(in_, forTicket), Tail(in_, forTicket, 1));
    if body.None? || |body.value| > MAX_LENGTH then None else Some(Tlv(SEQUENCE, body.value))
  }

  // ---------------------------------------------------------------- reading

  /** A session that is being filled in, the leaf certificate that was seen, and what is left to read. */
  datatype Cursor = Cursor(ret: Session, peer: Option<bytes>, rest: bytes)

  function Blank(): Session {
    Session(0, 0, [], [], 0, 0, [], [], 0, None, 0, None, None, [], None, None, No, 0, None, Yes, 0, 0, 0, None)
  }

  /** CBS_get_optional_asn1_octet_string */
  function OptionalOctets(t: nat, s: bytes): Got<Option<bytes>>
    requires t <= 30
  {
    match GetOptional(Context(t), s)
    case Bad => Bad
    case Good(None, rest) => Good(None, rest)
    case Good(Some(child), rest) =>
      match Get(OCTETS, child)
      case Bad => Bad
      case Good(v, behind) => if behind == [] then Good(Some(v), rest) else Bad
  }

  /** CBS_get_optional_asn1_uint64, and the check of the range. */
  function OptionalUint(t: nat, s: bytes, default: nat, limit: nat): Got<nat>
    requires t <= 30
  {
    match GetOptional(Context(t), s)
    case Bad => Bad
    case Good(None, rest) => if default <= limit then Good(default, rest) else Bad
    case Good(Some(child), rest) =>
      match GetUint(child)
      case Bad => Bad
      case Good(v, behind) => if behind == [] && v <= limit then Good(v, rest) else Bad
  }

  /** CBS_get_optional_asn1_bool */
  function OptionalBool(t: nat, s: bytes, default: bool): Got<bool>
    requires t <= 30
  {
    match GetOptional(Context(t), s)
    case Bad => Bad
    case Good(None, rest) => Good(default, rest)
    case Good(Some(child), rest) =>
      match Get(BOOLEAN, child)
      case Bad => Bad
      case Good(v, behind) =>
        if behind == [] && Bool(v).Some? then Good(Bool(v).value, rest) else Bad
  }

  /** SSL_SESSION_parse_bounded_octet_string */
  function Bounded(t: nat, s: bytes, limit: nat): Got<bytes>
    requires t <= 30
  {
    match OptionalOctets(t, s)
    case Bad => Bad
    case Good(v, rest) =>
      var content := if v.Some? then v.value else [];
      if |content| > limit then Bad else Good(content, rest)
  }

  /** CBS_stow keeps no empty strings. */
  function Stowed(v: Option<bytes>): Option<bytes> {
    if v == Some([]) then None else v
  }

  function FlagOf(b: bool): Flag {
    if b then Yes else No
  }

  /** The loop over the certificates behind the leaf. */
  function Split(s: bytes): (r: Option<seq<bytes>>)
    decreases |s|
  {
    if s == [] then Some([])
    else
      match AnyElement(s)
      case Bad => None
      case Good(e, rest) =>
        var more := Split(rest);
        if more.None? then None else Some([e.0] + more.value)
  }

  function StepVersion(g: Env, c: Cursor): Option<Cursor> {
    match GetUint(c.rest)
    case Bad => None
    case Good(v, rest) =>
      if v != VERSION then None
      else
        match GetUint(rest)
        case Bad => None
        case Good(ssl, rest2) =>
          if ssl > U16 || !g.knownVersion(ssl) then None else Some(c.(ret := c.ret.(version := ssl), rest := rest2))
  }

  function StepCipher(g: Env, c: Cursor): Option<Cursor> {
    match Get(OCTETS, c.rest)
    case Bad => None
    case Good(v, rest) =>
      if |v| != W16 || !g.knownCipher(FromBE(v)) then None
      else Some(c.(ret := c.ret.(cipher := FromBE(v)), rest := rest))
  }

  function StepId(c: Cursor): Option<Cursor> {
    match Get(OCTETS, c.rest)
    case Bad => None
    case Good(v, rest) => if |v| > MAX_SESSION_ID then None else Some(c.(ret := c.ret.(sessionId := v), rest := rest))
  }

  function StepKey(c: Cursor): Option<Cursor> {
    match Get(OCTETS, c.rest)
    case Bad => None
    case Good(v, rest) => if |v| > MAX_MASTER_KEY then None else Some(c.(ret := c.ret.(masterKey := v), rest := rest))
  }

  /** What follows the INTEGER behind its tag is not looked at. */
  function StepTime(c: Cursor): Option<Cursor> {
    match Get(Context(1), c.rest)
    case Bad => None
    case Good(child, rest) =>
      match GetUint(child)
      case Bad => None
      case Good(v, _) => Some(c.(ret := c.ret.(time := v), rest := rest))
  }

  function StepTimeout(c: Cursor): Option<Cursor> {
    match Get(Context(2), c.rest)
    case Bad => None
    case Good(child, rest) =>
      match GetUint(child)
      case Bad => None
      case Good(v, _) => if v > U32 then None else Some(c.(ret := c.ret.(timeout := v), rest := rest))
  }

  function StepPeer(c: Cursor): Option<Cursor> {
    match GetOptional(Context(3), c.rest)
    case Bad => None
    case Good(v, rest) => if v == Some([]) then None else Some(c.(peer := v, rest := rest))
  }

  function StepSidCtx(c: Cursor): Option<Cursor> {
    match Bounded(4, c.rest, MAX_SID_CTX)
    case Bad => None
    case Good(v, rest) => Some(c.(ret := c.ret.(sidCtx := v), rest := rest))
  }

  function StepVerify(c: Cursor): Option<Cursor> {
    match OptionalUint(5, c.rest, 0, LONG_MAX)
    case Bad => None
    case Good(v, rest) => Some(c.(ret := c.ret.(verifyResult := v), rest := rest))
  }

  /** The historical hostName is skipped. */
  function StepHostName(c: Cursor): Option<Cursor> {
    match GetOptional(Context(6), c.rest)
    case Bad => None
    case Good(_, rest) => Some(c.(rest := rest))
  }

  function StepPsk(c: Cursor): Option<Cursor> {
    match OptionalOctets(8, c.rest)
    case Bad => None
    case Good(v, rest) =>
      if v.Some? && 0 in v.value then None else Some(c.(ret := c.ret.(psk := v), rest := rest))
  }

  function StepHint(c: Cursor): Option<Cursor> {
    match OptionalUint(9, c.rest, 0, U32)
    case Bad => None
    case Good(v, rest) => Some(c.(ret := c.ret.(lifetimeHint := v), rest := rest))
  }

  function StepTicket(c: Cursor): Option<Cursor> {
    match OptionalOctets(10, c.rest)
    case Bad => None
    case Good(v, rest) => Some(c.(ret := c.ret.(ticket := Stowed(v)), rest := rest))
  }

  function StepSha256(c: Cursor): Option<Cursor> {
    match OptionalOctets(13, c.rest)
    case Bad => None
    case Good(v, rest) =>
      if v.Some? && |v.value| != SHA256_SIZE then None else Some(c.(ret := c.ret.(sha256 := v), rest := rest))
  }

  function StepHash(c: Cursor): Option<Cursor> {
    match Bounded(14, c.rest, MAX_MD_SIZE)
    case Bad => None
    case Good(v, rest) => Some(c.(ret := c.ret.(handshakeHash := v), rest := rest))
  }

  function StepScts(c: Cursor): Option<Cursor> {
    match OptionalOctets(15, c.rest)
    case Bad => None
    case Good(v, rest) => Some(c.(ret := c.ret.(scts := v), rest := rest))
  }

  function StepOcsp(c: Cursor): Option<Cursor> {
    match OptionalOctets(16, c.rest)
    case Bad => None
    case Good(v, rest) => Some(c.(ret := c.ret.(ocsp := v), rest := rest))
  }

  function StepExtendedMaster(c: Cursor): Option<Cursor> {
    match OptionalBool(17, c.rest, false)
    case Bad => None
    case Good(v, rest) => Some(c.(ret := c.ret.(extendedMaster := FlagOf(v)), rest := rest))
  }

  function StepGroup(c: Cursor): Option<Cursor> {
    match OptionalUint(18, c.rest, 0, U16)
    case Bad => None
    case Good(v, rest) => Some(c.(ret := c.ret.(group := v), rest := rest))
  }

  /** The certificates: the leaf from behind its own tag, and then the chain; a chain needs a leaf. */
  function Certificates(peer: Option<bytes>, chain: Option<bytes>): Option<seq<bytes>> {
    if chain.None? then Some(if peer.Some? then [peer.value] else [])
    else if chain.value == [] || peer.None? || Split(chain.value).None? then None
    else Some([peer.value] + Split(chain.value).value)
  }

  function StepChain(g: Env, c: Cursor): Option<Cursor> {
    match GetOptional(Context(19), c.rest)
    case Bad => None
    case Good(v, rest) =>
      var certs := Certificates(c.peer, v);
      if certs.Some? && g.cacheable(certs.value) then Some(c.(ret := c.ret.(certs := certs.value), rest := rest))
      else None
  }

  function StepAgeAdd(c: Cursor): Option<Cursor> {
    match OptionalOctets(21, c.rest)
    case Bad => None
    case Good(v, rest) =>
      if v.Some? && |v.value| != 4 then None
      else Some(c.(ret := c.ret.(ageAdd := if v.Some? then Some(FromBE(v.value)) else None), rest := rest))
  }

  function StepServer(c: Cursor): Option<Cursor> {
    match OptionalBool(22, c.rest, true)
    case Bad => None
    case Good(v, rest) => Some(c.(ret := c.ret.(server := FlagOf(v)), rest := rest))
  }

  function StepSigalg(c: Cursor): Option<Cursor> {
    match OptionalUint(23, c.rest, 0, U16)
    case Bad => None
    case Good(v, rest) => Some(c.(ret := c.ret.(sigalg := v), rest := rest))
  }

  function StepEarlyData(c: Cursor): Option<Cursor> {
    match OptionalUint(24, c.rest, 0, U32)
    case Bad => None
    case Good(v, rest) => Some(c.(ret := c.ret.(maxEarlyData := v), rest := rest))
  }

  function StepAuthTimeout(c: Cursor): Option<Cursor> {
    match OptionalUint(25, c.rest, c.ret.timeout, U32)
    case Bad => None
    case Good(v, rest) => Some(c.(ret := c.ret.(authTimeout := v), rest := rest))
  }

  function StepAlpn(c: Cursor): Option<Cursor> {
    match OptionalOctets(26, c.rest)
    case Bad => None
    case Good(v, rest) => Some(c.(ret := c.ret.(alpn := Stowed(v)), rest := rest))
  }

  datatype Item =
    | IVersion | ICipher | IId | IKey | ITime | ITimeout | IPeer | ISidCtx | IVerify | IHostName | IPsk | IHint
    | ITicket | ISha256 | IHash | IScts | IOcsp | IExtendedMaster | IGroup | IChain | IAgeAdd | IServer | ISigalg
    | IEarlyData | IAuthTimeout | IAlpn

  function Step(g: Env, i: Item, c: Cursor): Option<Cursor> {
    match i
    case IVersion => StepVersion(g, c)
    case ICipher => StepCipher(g, c)
    case IId => StepId(c)
    case IKey => StepKey(c)
    case ITime => StepTime(c)
    case ITimeout => StepTimeout(c)
    case IPeer => StepPeer(c)
    case ISidCtx => StepSidCtx(c)
    case IVerify => StepVerify(c)
    case IHostName => StepHostName(c)
    case IPsk => StepPsk(c)
    case IHint => StepHint(c)
    case ITicket => StepTicket(c)
    case ISha256 => StepSha256(c)
    case IHash => StepHash(c)
    case IScts => StepScts(c)
    case IOcsp => StepOcsp(c)
    case IExtendedMaster => StepExtendedMaster(c)
    case IGroup => StepGroup(c)
    case IChain => StepChain(g, c)
    case IAgeAdd => StepAgeAdd(c)
    case IServer => StepServer(c)
    case ISigalg => StepSigalg(c)
    case IEarlyData => StepEarlyData(c)
    case IAuthTimeout => StepAuthTimeout(c)
    case IAlpn => StepAlpn(c)
  }

  const ITEMS: nat := 26

  /** The order in which SSL_SESSION_parse reads. */
  function ItemAt(n: nat): Item
    requires 1 <= n <= ITEMS
  {
    match n
    case 1 => IVersion
    case 2 => ICipher
    case 3 => IId
    case 4 => IKey
    case 5 => ITime
    case 6 => ITimeout
    case 7 => IPeer
    case 8 => ISidCtx
    case 9 => IVerify
    case 10 => IHostName
    case 11 => IPsk
    case 12 => IHint
    case 13 => ITicket
    case 14 => ISha256
    case 15 => IHash
    case 16 => IScts
    case 17 => IOcsp
    case 18 => IExtendedMaster
    case 19 => IGroup
    case 20 => IChain
    case 21 => IAgeAdd
    case 22 => IServer
    case 23 => ISigalg
    case 24 => IEarlyData
    case 25 => IAuthTimeout
    case _ => IAlpn
  }

  /** The first `n` items, one after the other. */
  function Upto(g: Env, c: Cursor, n: nat): Option<Cursor>
    requires n <= ITEMS
  {
    if n == 0 then Some(c)
    else
      var before := Upto(g, c, n - 1);
      if before.None? then None else Step(g, ItemAt(n), before.value)
  }

  /** SSL_SESSION_parse: the session and what follows it. */
  function Parse(g: Env, s: bytes): Got<Session> {
    match Get(SEQUENCE, s)
    case Bad => Bad
    case Good(body, rest) =>
      var end := Upto(g, Cursor(Blank(), None, body), ITEMS);
      if end.None? || end.value.rest != [] then Bad else Good(end.value.ret, rest)
  }

  /** SSL_SESSION_from_bytes */
  function FromBytes(g: Env, s: bytes): Option<Session> {
    match Parse(g, s)
    case Bad => None
    case Good(v, rest) => if rest == [] then Some(v) else None
  }
}
