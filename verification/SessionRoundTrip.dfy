/**
Parsing the serialization of a session gives the session back, up to what the code does not keep: for every
session whose fields have their C types, exactly when the parser's tables know its version and cipher, its
verify result is not negative and its certificates can be told apart.
*/
module SessionRoundTrip {
  import opened Words
  import opened Wire
  import opened Der
  import opened SessionAsn1

  // ---------------------------------------------------------------- sessions

  /** Fields within the ranges of their C types and arrays; a PSK identity is a C string. */
  predicate Typed(x: Session) {
    && x.version <= U16 && x.cipher <= U16
    && |x.sessionId| <= MAX_SESSION_ID && |x.masterKey| <= MAX_MASTER_KEY
    && x.time < LIMIT64 && x.timeout <= U32 && |x.sidCtx| <= MAX_SID_CTX
    && -0x8000_0000_0000_0000 <= x.verifyResult <= LONG_MAX
    && (x.psk.Some? ==> 0 !in x.psk.value)
    && x.lifetimeHint <= U32 && (x.sha256.Some? ==> |x.sha256.value| == SHA256_SIZE)
    && |x.handshakeHash| <= MAX_MD_SIZE && x.group <= U16 && (x.ageAdd.Some? ==> x.ageAdd.value <= U32)
    && x.sigalg <= U16 && x.maxEarlyData <= U32 && x.authTimeout <= U32
  }

  /** What comes back: no certificates beside a SHA-256, empty strings as none, and less for a ticket. */
  function Norm(x: Session, forTicket: bool): Session {
    x.(sessionId := if forTicket then [] else x.sessionId,
       certs := if x.sha256.Some? then [] else x.certs,
       ticket := if forTicket then None else Stowed(x.ticket),
       alpn := Stowed(x.alpn))
  }

  /** `e` is one DER element and nothing else. */
  predicate Single(e: bytes) {
    AnyElement(e).Good? && AnyElement(e).rest == []
  }

  /** The leaf is not empty, and every other certificate is one DER element. */
  predicate Separable(certs: seq<bytes>) {
    (certs != [] ==> certs[0] != []) && forall i :: 1 <= i < |certs| ==> Single(certs[i])
  }

  /** What the parser demands of a session beyond its types. */
  predicate Acceptable(g: Env, x: Session) {
    && g.knownVersion(x.version) && g.knownCipher(x.cipher)
    && x.verifyResult >= 0
    && Separable(Norm(x, false).certs) && g.cacheable(Norm(x, false).certs)
  }

  // ---------------------------------------------------------------- certificates

  lemma {:induction false} SplitSingles(certs: seq<bytes>)
    requires forall i :: 0 <= i < |certs| ==> Single(certs[i])
    ensures Split(Concat(certs)) == Some(certs)
    decreases certs
  {
    hide AnyElement;
    if certs != [] {
      ElementMore(certs[0], Concat(certs[1..]));
      assert AnyElement(certs[0]).value.0 + [] == AnyElement(certs[0]).value.0 == certs[0];
      assert [] + Concat(certs[1..]) == Concat(certs[1..]);
      SplitSingles(certs[1..]);
      assert certs == [certs[0]] + certs[1..];
    }
  }

  /** Only single elements come out of the loop, whatever goes in. */
  lemma {:induction false} SplitGives(s: bytes)
    requires Split(s).Some?
    ensures forall i :: 0 <= i < |Split(s).value| ==> Single(Split(s).value[i])
    decreases |s|
  {
    hide AnyElement;
    if s != [] {
      var e := AnyElement(s);
      ElementAlone(s);
      SplitGives(e.rest);
    }
  }

  lemma {:induction false} Base128More(s: bytes, t: bytes, v: nat)
    requires Base128Size(s, v) > 0
    ensures Base128Size(s + t, v) == Base128Size(s, v)
    decreases |s|
  {
    assert (s + t)[1..] == s[1..] + t;
    if s[0] >= 128 { Base128More(s[1..], t, 128 * v + s[0] % 128); }
  }

  lemma TagMore(s: bytes, t: bytes)
    requires TagSize(s) > 0
    ensures TagSize(s + t) == TagSize(s)
  {
    hide Base128Size;
    if s[0] % 32 == 31 {
      assert (s + t)[1..] == s[1..] + t;
      Base128More(s[1..], t, 0);
    }
  }

  lemma LengthMore(s: bytes, t: bytes)
    requires Length(s).Some?
    ensures Length(s + t) == Length(s)
  {
    if s[0] >= 128 {
      var k := s[0] - 128;
      assert (s + t)[1..1 + k] == s[1..1 + k];
    }
  }

  /** More input behind an element is the rest. */
  lemma ElementMore(s: bytes, t: bytes)
    requires AnyElement(s).Good?
    ensures AnyElement(s + t).Good? && AnyElement(s + t).value == AnyElement(s).value
    ensures AnyElement(s + t).rest == AnyElement(s).rest + t
  {
    hide TagSize, Length;
    TagMore(s, t);
    var k := TagSize(s);
    assert (s + t)[k..] == s[k..] + t;
    LengthMore(s[k..], t);
    var n := k + Length(s[k..]).value.1 + Length(s[k..]).value.0;
    assert (s + t)[..n] == s[..n] && (s + t)[n..] == s[n..] + t;
  }

  lemma {:induction false} Base128Less(s: bytes, n: nat, v: nat)
    requires 0 < Base128Size(s, v) <= n <= |s|
    ensures Base128Size(s[..n], v) == Base128Size(s, v)
    decreases |s|
  {
    assert s[..n][1..] == s[1..][..n - 1];
    if s[0] >= 128 { Base128Less(s[1..], n - 1, 128 * v + s[0] % 128); }
  }

  /** An element by itself is the same element. */
  lemma ElementAlone(s: bytes)
    requires AnyElement(s).Good?
    ensures Single(AnyElement(s).value.0)
  {
    hide Base128Size, FromBE, Pow2;
    var e := AnyElement(s).value.0;
    var n := |e|;
    assert e == s[..n];
    var k := TagSize(s);
    if s[0] % 32 == 31 {
      assert e[1..] == s[1..][..n - 1];
      Base128Less(s[1..], n - 1, 0);
    }
    assert TagSize(e) == k;
    assert e[k..] == s[k..][..n - k];
    if s[k] >= 128 {
      var m := s[k] - 128;
      assert e[k..][1..1 + m] == s[k..][1..1 + m];
    }
    assert Length(e[k..]) == Length(s[k..]);
  }

  // ---------------------------------------------------------------- reading behind tags

  /** What is written from tag `t` on starts with a tag of at least `t`. */
  lemma {:induction false} TailStarts(x: Session, f: bool, t: nat)
    requires 1 <= t <= 27 && Tail(x, f, t).Some?
    ensures Tail(x, f, t).value == [] || Tail(x, f, t).value[0] >= 0xa0 + t
    decreases 27 - t
  {
    hide Part;
    if t < 27 { TailStarts(x, f, t + 1); }
  }

  lemma ContextTag(t: nat)
    requires t <= 30
    ensures Context(t) % 32 != 31 && Context(t) == 0xa0 + t
  {
  }

  /** The optional element at tag `t` is exactly what was written there. */
  lemma OptTail(x: Session, f: bool, t: nat)
    requires 1 <= t <= 26 && Tail(x, f, t).Some?
    ensures Tail(x, f, t + 1).Some? && (Part(x, f, t).Some? ==> Part(x, f, t).value.Some?)
    ensures GetOptional(Context(t), Tail(x, f, t).value)
         == Good(if Part(x, f, t).Some? then Part(x, f, t).value else None, Tail(x, f, t + 1).value)
  {
    hide Part, Get, Tlv;
    TailStarts(x, f, t + 1);
    ContextTag(t);
    var next := Tail(x, f, t + 1).value;
    if Part(x, f, t).Some? {
      GetInverse(Context(t), Part(x, f, t).value.value, next);
    } else {
      assert [] + next == next;
    }
  }

  lemma OctetsAt(x: Session, f: bool, t: nat, v: Option<bytes>)
    requires 1 <= t <= 26 && Tail(x, f, t).Some?
    requires Part(x, f, t) == if v.Some? then Some(OctetPart(v.value)) else None
    ensures Tail(x, f, t + 1).Some? && OptionalOctets(t, Tail(x, f, t).value) == Good(v, Tail(x, f, t + 1).value)
  {
    hide Part, Get, Tlv, GetOptional, Tail;
    OptTail(x, f, t);
    if v.Some? {
      GetInverse(OCTETS, v.value, []);
      assert Tlv(OCTETS, v.value) + [] == Tlv(OCTETS, v.value);
    }
  }

  lemma UintAt(x: Session, f: bool, t: nat, v: nat, default: nat, limit: nat)
    requires 1 <= t <= 26 && Tail(x, f, t).Some? && v < LIMIT64
    requires Part(x, f, t) == Some(UintPart(v)) || (Part(x, f, t) == None && v == default)
    ensures Tail(x, f, t + 1).Some?
    ensures OptionalUint(t, Tail(x, f, t).value, default, limit)
         == if v <= limit then Good(v, Tail(x, f, t + 1).value) else Bad
  {
    hide Part, GetUint, Tlv, GetOptional, Tail, UintBytes;
    OptTail(x, f, t);
    GetUintInverse(v, []);
    assert Tlv(INTEGER, UintBytes(v)) + [] == Tlv(INTEGER, UintBytes(v));
  }

  lemma BoolAt(x: Session, f: bool, t: nat, v: bool, default: bool)
    requires 1 <= t <= 26 && Tail(x, f, t).Some?
    requires Part(x, f, t) == if v != default then Some(Some(Tlv(BOOLEAN, BoolBytes(v)))) else None
    ensures Tail(x, f, t + 1).Some? && OptionalBool(t, Tail(x, f, t).value, default) == Good(v, Tail(x, f, t + 1).value)
  {
    hide Part, Get, Tlv, GetOptional, Tail;
    OptTail(x, f, t);
    GetInverse(BOOLEAN, BoolBytes(v), []);
    assert Tlv(BOOLEAN, BoolBytes(v)) + [] == Tlv(BOOLEAN, BoolBytes(v));
  }

  // ---------------------------------------------------------------- where the parser is

  /** The tag of the next item once `n` items are read. */
  function NextTag(n: nat): nat {
    if n < 10 then (if n < 4 then 1 else n - 3)
    else if n < 13 then n - 2
    else if n < 20 then n
    else if n < 26 then n + 1
    else 27
  }

  /** What is left to read once `n` items are read. */
  function RestAt(x: Session, f: bool, n: nat): Option<bytes> {
    var tail := Tail(x, f, 1);
    if n >= 4 then Tail(x, f, NextTag(n))
    else
      var k := Join(OctetPart(x.masterKey), tail);
      if n == 3 then k
      else
        var i := Join(OctetPart(if f then [] else x.sessionId), k);
        if n == 2 then i
        else
          var c := Join(OctetPart(ToBE(x.cipher % 0x1_0000, W16)), i);
          if n == 1 then c else Join(UintPart(VERSION), Join(UintPart(x.version), c))
  }

  /** The session once `n` items are read. */
  function Filled(x: Session, f: bool, n: nat): Session {
    var w := Norm(x, f);
    var b := Blank();
    Session(
      if n >= 1 then w.version else b.version, if n >= 2 then w.cipher else b.cipher,
      if n >= 3 then w.sessionId else b.sessionId, if n >= 4 then w.masterKey else b.masterKey,
      if n >= 5 then w.time else b.time, if n >= 6 then w.timeout else b.timeout,
      if n >= 20 then w.certs else b.certs, if n >= 8 then w.sidCtx else b.sidCtx,
      if n >= 9 then w.verifyResult else b.verifyResult, if n >= 11 then w.psk else b.psk,
      if n >= 12 then w.lifetimeHint else b.lifetimeHint, if n >= 13 then w.ticket else b.ticket,
      if n >= 14 then w.sha256 else b.sha256, if n >= 15 then w.handshakeHash else b.handshakeHash,
      if n >= 16 then w.scts else b.scts, if n >= 17 then w.ocsp else b.ocsp,
      if n >= 18 then w.extendedMaster else b.extendedMaster, if n >= 19 then w.group else b.group,
      if n >= 21 then w.ageAdd else b.ageAdd, if n >= 22 then w.server else b.server,
      if n >= 23 then w.sigalg else b.sigalg, if n >= 24 then w.maxEarlyData else b.maxEarlyData,
      if n >= 25 then w.authTimeout else b.authTimeout, if n >= 26 then w.alpn else b.alpn)
  }

  function PeerOf(x: Session): Option<bytes> {
    if x.certs != [] && x.sha256.None? then Some(x.certs[0]) else None
  }

  function CursorAt(x: Session, f: bool, n: nat): Cursor
    requires RestAt(x, f, n).Some?
  {
    Cursor(Filled(x, f, n), if n >= 7 then PeerOf(x) else None, RestAt(x, f, n).value)
  }

  /** What the `n`-th item demands of the session. */
  predicate Demand(g: Env, x: Session, n: nat) {
    match n
    case 1 => g.knownVersion(x.version)
    case 2 => g.knownCipher(x.cipher)
    case 7 => x.sha256.None? && x.certs != [] ==> x.certs[0] != []
    case 9 => x.verifyResult >= 0
    case 20 => Separable(Norm(x, false).certs) && g.cacheable(Norm(x, false).certs)
    case _ => true
  }

  // ---------------------------------------------------------------- each item

  lemma Item1(g: Env, x: Session, f: bool)
    requires Typed(x) && RestAt(x, f, 0).Some?
    ensures RestAt(x, f, 1).Some?
    ensures StepVersion(g, CursorAt(x, f, 0)) == if Demand(g, x, 1) then Some(CursorAt(x, f, 1)) else None
  {
    hide Tail, Get, GetUint, Tlv, UintBytes;
    var after := RestAt(x, f, 1).value;
    UintLength(VERSION);
    UintLength(x.version);
    GetUintInverse(VERSION, Tlv(INTEGER, UintBytes(x.version)) + after);
    GetUintInverse(x.version, after);
    assert RestAt(x, f, 0).value
        == Tlv(INTEGER, UintBytes(VERSION)) + (Tlv(INTEGER, UintBytes(x.version)) + after);
  }

  lemma Item2(g: Env, x: Session, f: bool)
    requires Typed(x) && RestAt(x, f, 1).Some?
    ensures RestAt(x, f, 2).Some?
    ensures StepCipher(g, CursorAt(x, f, 1)) == if Demand(g, x, 2) then Some(CursorAt(x, f, 2)) else None
  {
    hide Tail, Get, Tlv, ToBE, FromBE;
    FromTo16(x.cipher);
    GetInverse(OCTETS, ToBE(x.cipher, W16), RestAt(x, f, 2).value);
  }

  lemma Item3(g: Env, x: Session, f: bool)
    requires Typed(x) && RestAt(x, f, 2).Some?
    ensures RestAt(x, f, 3).Some?
    ensures StepId(CursorAt(x, f, 2)) == Some(CursorAt(x, f, 3))
  {
    hide Tail, Get, Tlv;
    GetInverse(OCTETS, if f then [] else x.sessionId, RestAt(x, f, 3).value);
  }

  lemma Item4(g: Env, x: Session, f: bool)
    requires Typed(x) && RestAt(x, f, 3).Some?
    ensures RestAt(x, f, 4).Some?
    ensures StepKey(CursorAt(x, f, 3)) == Some(CursorAt(x, f, 4))
  {
    hide Tail, Get, Tlv;
    GetInverse(OCTETS, x.masterKey, RestAt(x, f, 4).value);
  }

  lemma Required(tag: byte, s: bytes)
    ensures var o := GetOptional(tag, s);
            o.Good? && o.value.Some? ==> Get(tag, s) == Good(o.value.value, o.rest)
  {
  }

  lemma Item5(g: Env, x: Session, f: bool)
    requires Typed(x) && RestAt(x, f, 4).Some?
    ensures RestAt(x, f, 5).Some?
    ensures StepTime(CursorAt(x, f, 4)) == Some(CursorAt(x, f, 5))
  {
    hide Tail, Get, GetUint, Tlv, UintBytes, GetOptional;
    OptTail(x, f, 1);
    GetUintInverse(x.time, []);
    assert Tlv(INTEGER, UintBytes(x.time)) + [] == Tlv(INTEGER, UintBytes(x.time));
    Required(Context(1), Tail(x, f, 1).value);
  }

  lemma Item6(g: Env, x: Session, f: bool)
    requires Typed(x) && RestAt(x, f, 5).Some?
    ensures RestAt(x, f, 6).Some?
    ensures StepTimeout(CursorAt(x, f, 5)) == Some(CursorAt(x, f, 6))
  {
    hide Tail, Get, GetUint, Tlv, UintBytes, GetOptional;
    OptTail(x, f, 2);
    GetUintInverse(x.timeout, []);
    assert Tlv(INTEGER, UintBytes(x.timeout)) + [] == Tlv(INTEGER, UintBytes(x.timeout));
    Required(Context(2), Tail(x, f, 2).value);
  }

  lemma Item7(g: Env, x: Session, f: bool)
    requires Typed(x) && RestAt(x, f, 6).Some?
    ensures RestAt(x, f, 7).Some?
    ensures StepPeer(CursorAt(x, f, 6)) == if Demand(g, x, 7) then Some(CursorAt(x, f, 7)) else None
  {
    hide Tail, GetOptional, Get, GetUint, Tlv, UintBytes, OptionalOctets, OptionalUint, OptionalBool;
    OptTail(x, f, 3);
  }

  lemma Item8(g: Env, x: Session, f: bool)
    requires Typed(x) && RestAt(x, f, 7).Some?
    ensures RestAt(x, f, 8).Some?
    ensures StepSidCtx(CursorAt(x, f, 7)) == Some(CursorAt(x, f, 8))
  {
    hide Tail, GetOptional, Get, GetUint, Tlv, UintBytes, OptionalOctets, OptionalUint, OptionalBool;
    OctetsAt(x, f, 4, Some(x.sidCtx));
  }

  lemma Item9(g: Env, x: Session, f: bool)
    requires Typed(x) && RestAt(x, f, 8).Some?
    ensures RestAt(x, f, 9).Some?
    ensures StepVerify(CursorAt(x, f, 8)) == if Demand(g, x, 9) then Some(CursorAt(x, f, 9)) else None
  {
    hide Tail, GetOptional, Get, GetUint, Tlv, UintBytes, OptionalOctets, OptionalUint, OptionalBool;
    UintAt(x, f, 5, Unsigned(x.verifyResult), 0, LONG_MAX);
  }

  lemma Item10(g: Env, x: Session, f: bool)
    requires Typed(x) && RestAt(x, f, 9).Some?
    ensures RestAt(x, f, 10).Some?
    ensures StepHostName(CursorAt(x, f, 9)) == Some(CursorAt(x, f, 10))
  {
    hide Tail, GetOptional, Get, GetUint, Tlv, UintBytes, OptionalOctets, OptionalUint, OptionalBool;
    OptTail(x, f, 6);
    Skip(x, f, 7);
  }

  lemma Item11(g: Env, x: Session, f: bool)
    requires Typed(x) && RestAt(x, f, 10).Some?
    ensures RestAt(x, f, 11).Some?
    ensures StepPsk(CursorAt(x, f, 10)) == Some(CursorAt(x, f, 11))
  {
    hide Tail, GetOptional, Get, GetUint, Tlv, UintBytes, OptionalOctets, OptionalUint, OptionalBool;
    OctetsAt(x, f, 8, x.psk);
  }

  lemma Item12(g: Env, x: Session, f: bool)
    requires Typed(x) && RestAt(x, f, 11).Some?
    ensures RestAt(x, f, 12).Some?
    ensures StepHint(CursorAt(x, f, 11)) == Some(CursorAt(x, f, 12))
  {
    hide Tail, GetOptional, Get, GetUint, Tlv, UintBytes, OptionalOctets, OptionalUint, OptionalBool;
    UintAt(x, f, 9, x.lifetimeHint, 0, U32);
  }

  lemma Item13(g: Env, x: Session, f: bool)
    requires Typed(x) && RestAt(x, f, 12).Some?
    ensures RestAt(x, f, 13).Some?
    ensures StepTicket(CursorAt(x, f, 12)) == Some(CursorAt(x, f, 13))
  {
    hide Tail, GetOptional, Get, GetUint, Tlv, UintBytes, OptionalOctets, OptionalUint, OptionalBool;
    OctetsAt(x, f, 10, if f then None else x.ticket);
    Skip(x, f, 11);
    Skip(x, f, 12);
  }

  lemma Item14(g: Env, x: Session, f: bool)
    requires Typed(x) && RestAt(x, f, 13).Some?
    ensures RestAt(x, f, 14).Some?
    ensures StepSha256(CursorAt(x, f, 13)) == Some(CursorAt(x, f, 14))
  {
    hide Tail, GetOptional, Get, GetUint, Tlv, UintBytes, OptionalOctets, OptionalUint, OptionalBool;
    OctetsAt(x, f, 13, x.sha256);
  }

  lemma Item15(g: Env, x: Session, f: bool)
    requires Typed(x) && RestAt(x, f, 14).Some?
    ensures RestAt(x, f, 15).Some?
    ensures StepHash(CursorAt(x, f, 14)) == Some(CursorAt(x, f, 15))
  {
    hide Tail, GetOptional, Get, GetUint, Tlv, UintBytes, OptionalOctets, OptionalUint, OptionalBool;
    OctetsAt(x, f, 14, if x.handshakeHash != [] then Some(x.handshakeHash) else None);
  }

  lemma Item16(g: Env, x: Session, f: bool)
    requires Typed(x) && RestAt(x, f, 15).Some?
    ensures RestAt(x, f, 16).Some?
    ensures StepScts(CursorAt(x, f, 15)) == Some(CursorAt(x, f, 16))
  {
    hide Tail, GetOptional, Get, GetUint, Tlv, UintBytes, OptionalOctets, OptionalUint, OptionalBool;
    OctetsAt(x, f, 15, x.scts);
  }

  lemma Item17(g: Env, x: Session, f: bool)
    requires Typed(x) && RestAt(x, f, 16).Some?
    ensures RestAt(x, f, 17).Some?
    ensures StepOcsp(CursorAt(x, f, 16)) == Some(CursorAt(x, f, 17))
  {
    hide Tail, GetOptional, Get, GetUint, Tlv, UintBytes, OptionalOctets, OptionalUint, OptionalBool;
    OctetsAt(x, f, 16, x.ocsp);
  }

  lemma Item18(g: Env, x: Session, f: bool)
    requires Typed(x) && RestAt(x, f, 17).Some?
    ensures RestAt(x, f, 18).Some?
    ensures StepExtendedMaster(CursorAt(x, f, 17)) == Some(CursorAt(x, f, 18))
  {
    hide Tail, GetOptional, Get, GetUint, Tlv, UintBytes, OptionalOctets, OptionalUint, OptionalBool;
    BoolAt(x, f, 17, x.extendedMaster.Yes?, false);
  }

  lemma Item19(g: Env, x: Session, f: bool)
    requires Typed(x) && RestAt(x, f, 18).Some?
    ensures RestAt(x, f, 19).Some?
    ensures StepGroup(CursorAt(x, f, 18)) == Some(CursorAt(x, f, 19))
  {
    hide Tail, GetOptional, Get, GetUint, Tlv, UintBytes, OptionalOctets, OptionalUint, OptionalBool;
    UintAt(x, f, 18, x.group, 0, U16);
  }

  /** A tag that is never written. */
  lemma Skip(x: Session, f: bool, t: nat)
    requires t == 7 || t == 11 || t == 12 || t == 20
    ensures Tail(x, f, t) == Tail(x, f, t + 1)
  {
    hide Part;
    NoPart(x, f, t);
    var next := Tail(x, f, t + 1);
    if next.Some? { assert [] + next.value == next.value; }
  }

  lemma NoPart(x: Session, f: bool, t: nat)
    requires t == 7 || t == 11 || t == 12 || t == 20
    ensures Part(x, f, t) == None
  {
  }

  /** The chain comes back exactly if the certificates can be told apart. */
  lemma ChainBack(x: Session)
    requires x.sha256.None? && x.certs != []
    ensures var more := Split(Concat(x.certs[1..]));
            if forall i :: 1 <= i < |x.certs| ==> Single(x.certs[i]) then more == Some(x.certs[1..])
            else more.None? || more.value != x.certs[1..]
  {
    hide Single, Split, Concat;
    var rest := x.certs[1..];
    var more := Split(Concat(rest));
    if forall i :: 1 <= i < |x.certs| ==> Single(x.certs[i]) { SplitSingles(rest); }
    if more.Some? && more.value == rest {
      SplitGives(Concat(rest));
      forall i | 1 <= i < |x.certs| ensures Single(x.certs[i]) {
        assert rest[i - 1] == x.certs[i];
      }
    }
  }

  /** With the leaf behind its own tag: the certificates, or something else, or failure. */
  lemma CertificatesBack(x: Session, f: bool)
    requires x.sha256.None? && x.certs != [] ==> x.certs[0] != []
    ensures Part(x, f, 19).Some? ==> Part(x, f, 19).value.Some?
    ensures var r := Certificates(PeerOf(x), if Part(x, f, 19).Some? then Part(x, f, 19).value else None);
            && (Separable(Norm(x, false).certs) ==> r == Some(Norm(x, false).certs))
            && (!Separable(Norm(x, false).certs) ==> r != Some(Norm(x, false).certs))
  {
    hide Single, Split, Concat;
    if x.sha256.None? && x.certs != [] {
      ChainBack(x);
      NothingSplit();
      var rest := x.certs[1..];
      assert x.certs == [x.certs[0]] + rest;
      assert Norm(x, false).certs == x.certs;
      if Split(Concat(rest)).Some? {
        var more := Split(Concat(rest)).value;
        assert ([x.certs[0]] + more)[1..] == more;
      }
      if |x.certs| == 1 { assert x.certs == [x.certs[0]]; } else { assert |rest| > 0; }
    }
  }

  lemma Item20(g: Env, x: Session, f: bool)
    requires Typed(x) && RestAt(x, f, 19).Some? && Demand(g, x, 7)
    ensures RestAt(x, f, 20).Some?
    ensures Demand(g, x, 20) ==> StepChain(g, CursorAt(x, f, 19)) == Some(CursorAt(x, f, 20))
    ensures !Demand(g, x, 20) ==>
              var r := StepChain(g, CursorAt(x, f, 19)); r.None? || r.value.ret.certs != Norm(x, false).certs
  {
    hide Tail, GetOptional, Part, Certificates, Separable;
    OptTail(x, f, 19);
    Skip(x, f, 20);
    CertificatesBack(x, f);
  }

  lemma NothingSplit()
    ensures Split([]) == Some([])
  {
  }

  lemma Item21(g: Env, x: Session, f: bool)
    requires Typed(x) && RestAt(x, f, 20).Some?
    ensures RestAt(x, f, 21).Some?
    ensures StepAgeAdd(CursorAt(x, f, 20)) == Some(CursorAt(x, f, 21))
  {
    hide Tail, GetOptional, Get, Tlv, OptionalOctets, ToBE, FromBE, Pow2;
    var v := if x.ageAdd.Some? then Some(ToBE(x.ageAdd.value, 4)) else None;
    OctetsAt(x, f, 21, v);
    if x.ageAdd.Some? {
      Pow32();
      FromToBE(x.ageAdd.value, 4);
    }
  }

  lemma Item22(g: Env, x: Session, f: bool)
    requires Typed(x) && RestAt(x, f, 21).Some?
    ensures RestAt(x, f, 22).Some?
    ensures StepServer(CursorAt(x, f, 21)) == Some(CursorAt(x, f, 22))
  {
    hide Tail, GetOptional, Get, GetUint, Tlv, UintBytes, OptionalOctets, OptionalUint, OptionalBool;
    BoolAt(x, f, 22, x.server.Yes?, true);
  }

  lemma Item23(g: Env, x: Session, f: bool)
    requires Typed(x) && RestAt(x, f, 22).Some?
    ensures RestAt(x, f, 23).Some?
    ensures StepSigalg(CursorAt(x, f, 22)) == Some(CursorAt(x, f, 23))
  {
    hide Tail, GetOptional, Get, GetUint, Tlv, UintBytes, OptionalOctets, OptionalUint, OptionalBool;
    UintAt(x, f, 23, x.sigalg, 0, U16);
  }

  lemma Item24(g: Env, x: Session, f: bool)
    requires Typed(x) && RestAt(x, f, 23).Some?
    ensures RestAt(x, f, 24).Some?
    ensures StepEarlyData(CursorAt(x, f, 23)) == Some(CursorAt(x, f, 24))
  {
    hide Tail, GetOptional, Get, GetUint, Tlv, UintBytes, OptionalOctets, OptionalUint, OptionalBool;
    UintAt(x, f, 24, x.maxEarlyData, 0, U32);
  }

  lemma Item25(g: Env, x: Session, f: bool)
    requires Typed(x) && RestAt(x, f, 24).Some?
    ensures RestAt(x, f, 25).Some?
    ensures StepAuthTimeout(CursorAt(x, f, 24)) == Some(CursorAt(x, f, 25))
  {
    hide Tail, GetOptional, Get, GetUint, Tlv, UintBytes, OptionalOctets, OptionalUint, OptionalBool;
    UintAt(x, f, 25, x.authTimeout, x.timeout, U32);
  }

  lemma Item26(g: Env, x: Session, f: bool)
    requires Typed(x) && RestAt(x, f, 25).Some?
    ensures RestAt(x, f, 26).Some?
    ensures StepAlpn(CursorAt(x, f, 25)) == Some(CursorAt(x, f, 26))
  {
    hide Tail, GetOptional, Get, GetUint, Tlv, UintBytes, OptionalOctets, OptionalUint, OptionalBool;
    OctetsAt(x, f, 26, x.alpn);
  }

  // ---------------------------------------------------------------- the whole

  /** Item `n` does its part, if what it demands holds; the chain may also come back wrong. */
  lemma OneItem(g: Env, x: Session, f: bool, n: nat)
    requires Typed(x) && 1 <= n <= 26 && RestAt(x, f, n - 1).Some? && Demand(g, x, 7)
    ensures RestAt(x, f, n).Some?
    ensures Demand(g, x, n) ==> Step(g, ItemAt(n), CursorAt(x, f, n - 1)) == Some(CursorAt(x, f, n))
    ensures !Demand(g, x, n) ==>
              var r := Step(g, ItemAt(n), CursorAt(x, f, n - 1));
              r.None? || (n == 20 && r.value.ret.certs != Norm(x, false).certs)
  {
    hide RestAt, CursorAt, Demand, StepVersion, StepCipher, StepId, StepKey, StepTime, StepTimeout, StepPeer,
         StepSidCtx, StepVerify, StepHostName, StepPsk, StepHint, StepTicket, StepSha256, StepHash, StepScts,
         StepOcsp, StepExtendedMaster, StepGroup, StepChain, StepAgeAdd, StepServer, StepSigalg, StepEarlyData,
         StepAuthTimeout, StepAlpn, Typed;
    if n <= 9 { OneItemA(g, x, f, n); } else if n <= 18 { OneItemB(g, x, f, n); } else { OneItemC(g, x, f, n); }
  }

  lemma OneItemA(g: Env, x: Session, f: bool, n: nat)
    requires Typed(x) && 1 <= n <= 9 && RestAt(x, f, n - 1).Some?
    ensures RestAt(x, f, n).Some?
    ensures Step(g, ItemAt(n), CursorAt(x, f, n - 1)) == if Demand(g, x, n) then Some(CursorAt(x, f, n)) else None
  {
    hide RestAt, CursorAt, StepVersion, StepCipher, StepId, StepKey, StepTime, StepTimeout, StepPeer, StepSidCtx,
         StepVerify, StepHostName, StepPsk, StepHint, StepTicket, StepSha256, StepHash, StepScts,
         StepOcsp, StepExtendedMaster, StepGroup, StepChain, StepAgeAdd, StepServer, StepSigalg, StepEarlyData,
         StepAuthTimeout, StepAlpn, Typed;
    match n
    case 1 => Item1(g, x, f);
    case 2 => Item2(g, x, f);
    case 3 => Item3(g, x, f);
    case 4 => Item4(g, x, f);
    case 5 => Item5(g, x, f);
    case 6 => Item6(g, x, f);
    case 7 => Item7(g, x, f);
    case 8 => Item8(g, x, f);
    case 9 => Item9(g, x, f);
  }

  lemma OneItemB(g: Env, x: Session, f: bool, n: nat)
    requires Typed(x) && 10 <= n <= 18 && RestAt(x, f, n - 1).Some?
    ensures RestAt(x, f, n).Some? && Demand(g, x, n)
    ensures Step(g, ItemAt(n), CursorAt(x, f, n - 1)) == Some(CursorAt(x, f, n))
  {
    hide RestAt, CursorAt, StepVersion, StepCipher, StepId, StepKey, StepTime, StepTimeout, StepPeer, StepSidCtx,
         StepVerify, StepHostName, StepPsk, StepHint, StepTicket, StepSha256, StepHash, StepScts,
         StepOcsp, StepExtendedMaster, StepGroup, StepChain, StepAgeAdd, StepServer, StepSigalg, StepEarlyData,
         StepAuthTimeout, StepAlpn, Typed;
    match n
    case 10 => Item10(g, x, f);
    case 11 => Item11(g, x, f);
    case 12 => Item12(g, x, f);
    case 13 => Item13(g, x, f);
    case 14 => Item14(g, x, f);
    case 15 => Item15(g, x, f);
    case 16 => Item16(g, x, f);
    case 17 => Item17(g, x, f);
    case 18 => Item18(g, x, f);
  }

  lemma OneItemC(g: Env, x: Session, f: bool, n: nat)
    requires Typed(x) && 19 <= n <= 26 && RestAt(x, f, n - 1).Some? && Demand(g, x, 7)
    ensures RestAt(x, f, n).Some?
    ensures Demand(g, x, n) ==> Step(g, ItemAt(n), CursorAt(x, f, n - 1)) == Some(CursorAt(x, f, n))
    ensures !Demand(g, x, n) ==>
              var r := Step(g, ItemAt(n), CursorAt(x, f, n - 1));
              r.None? || (n == 20 && r.value.ret.certs != Norm(x, false).certs)
  {
    hide RestAt, CursorAt, StepVersion, StepCipher, StepId, StepKey, StepTime, StepTimeout, StepPeer, StepSidCtx,
         StepVerify, StepHostName, StepPsk, StepHint, StepTicket, StepSha256, StepHash, StepScts,
         StepOcsp, StepExtendedMaster, StepGroup, StepChain, StepAgeAdd, StepServer, StepSigalg, StepEarlyData,
         StepAuthTimeout, StepAlpn, Typed;
    match n
    case 19 => Item19(g, x, f);
    case 20 => Item20(g, x, f);
    case 21 => Item21(g, x, f);
    case 22 => Item22(g, x, f);
    case 23 => Item23(g, x, f);
    case 24 => Item24(g, x, f);
    case 25 => Item25(g, x, f);
    case 26 => Item26(g, x, f);
  }

  /** As long as every demand is met, the parser is where it should be. */
  lemma {:induction false} AllItems(g: Env, x: Session, f: bool, n: nat)
    requires Typed(x) && n <= 26 && RestAt(x, f, 0).Some? && forall k :: 1 <= k <= 26 ==> Demand(g, x, k)
    ensures RestAt(x, f, n).Some? && Upto(g, Cursor(Blank(), None, RestAt(x, f, 0).value), n) == Some(CursorAt(x, f, n))
    decreases n
  {
    hide RestAt, Step, Demand, Typed, Filled;
    if n == 0 {
      NothingFilled(x, f);
    } else {
      AllItems(g, x, f, n - 1);
      assert Demand(g, x, 7) && Demand(g, x, n);
      OneItem(g, x, f, n);
    }
  }

  lemma NothingFilled(x: Session, f: bool)
    ensures Filled(x, f, 0) == Blank()
  {
  }

  /** The items behind the certificate chain. */
  predicate BehindChain(i: Item) {
    i.IAgeAdd? || i.IServer? || i.ISigalg? || i.IEarlyData? || i.IAuthTimeout? || i.IAlpn?
  }

  lemma ItemStays(g: Env, i: Item, c: Cursor)
    requires BehindChain(i) && Step(g, i, c).Some?
    ensures Step(g, i, c).value.ret.certs == c.ret.certs
  {
    hide OptionalOctets, OptionalUint, OptionalBool, StepVersion, StepCipher, StepId, StepKey, StepTime, StepTimeout,
         StepPeer, StepSidCtx, StepVerify, StepHostName, StepPsk, StepHint, StepTicket, StepSha256, StepHash, StepScts,
         StepOcsp, StepExtendedMaster, StepGroup, StepChain;
  }

  /** After the certificates nothing changes them. */
  lemma CertsStay(g: Env, n: nat, c: Cursor)
    requires 21 <= n <= 26 && Step(g, ItemAt(n), c).Some?
    ensures Step(g, ItemAt(n), c).value.ret.certs == c.ret.certs
  {
    hide Step;
    ItemStays(g, ItemAt(n), c);
  }

  lemma {:induction false} StaysWrong(g: Env, c: Cursor, m: nat, n: nat, certs: seq<bytes>)
    requires m <= n <= 26
    requires Upto(g, c, m).None? || (m >= 20 && Upto(g, c, m).value.ret.certs != certs)
    ensures Upto(g, c, n).None? || (n >= 20 && Upto(g, c, n).value.ret.certs != certs)
    decreases n
  {
    hide Step;
    if m < n {
      StaysWrong(g, c, m, n - 1, certs);
      var before := Upto(g, c, n - 1);
      if before.Some? && Step(g, ItemAt(n), before.value).Some? { CertsStay(g, n, before.value); }
    }
  }

  /** The first demand that is not met stops the parser, or spoils the certificates for good. */
  lemma {:induction false} SomeItem(g: Env, x: Session, f: bool, n: nat)
    requires Typed(x) && 1 <= n <= 26 && RestAt(x, f, 0).Some?
    requires !Demand(g, x, n) && forall k :: 1 <= k < n ==> Demand(g, x, k)
    ensures var r := Upto(g, Cursor(Blank(), None, RestAt(x, f, 0).value), n);
            r.None? || (n >= 20 && r.value.ret.certs != Norm(x, false).certs)
  {
    hide RestAt, Step, Typed, Filled;
    Before(g, x, f, n, n - 1);
    if n <= 9 { OneItemA(g, x, f, n); } else { OneItem(g, x, f, n); }
  }

  lemma {:induction false} Before(g: Env, x: Session, f: bool, n: nat, m: nat)
    requires Typed(x) && m < n <= 26 && RestAt(x, f, 0).Some? && forall k :: 1 <= k < n ==> Demand(g, x, k)
    ensures RestAt(x, f, m).Some? && Upto(g, Cursor(Blank(), None, RestAt(x, f, 0).value), m) == Some(CursorAt(x, f, m))
    decreases m
  {
    hide RestAt, Step, Demand, Typed, Filled;
    if m == 0 {
      NothingFilled(x, f);
    } else {
      Before(g, x, f, n, m - 1);
      assert Demand(g, x, m);
      if m <= 9 { OneItemA(g, x, f, m); } else {
        assert Demand(g, x, 7);
        OneItem(g, x, f, m);
      }
    }
  }

  lemma DemandsAre(g: Env, x: Session)
    ensures Acceptable(g, x) <==> forall k :: 1 <= k <= 26 ==> Demand(g, x, k)
  {
    hide Separable;
    if forall k :: 1 <= k <= 26 ==> Demand(g, x, k) {
      assert Demand(g, x, 1) && Demand(g, x, 2) && Demand(g, x, 9) && Demand(g, x, 20);
    }
    if Acceptable(g, x) {
      LeafNotEmpty(x);
    }
  }

  lemma LeafNotEmpty(x: Session)
    requires Separable(Norm(x, false).certs)
    ensures x.sha256.None? && x.certs != [] ==> x.certs[0] != []
  {
  }

  lemma FirstDemand(g: Env, x: Session) returns (n: nat)
    requires !Acceptable(g, x)
    ensures 1 <= n <= 26 && !Demand(g, x, n) && forall k :: 1 <= k < n ==> Demand(g, x, k)
  {
    hide Demand, Acceptable;
    DemandsAre(g, x);
    n := 1;
    while Demand(g, x, n)
      invariant 1 <= n <= 26 && forall k :: 1 <= k < n ==> Demand(g, x, k)
      decreases 26 - n
    {
      if n == 26 { assert false; }
      n := n + 1;
    }
  }

  lemma BodyIs(x: Session, f: bool)
    requires Serialize(x, f).Some?
    ensures RestAt(x, f, 0).Some? && |RestAt(x, f, 0).value| <= MAX_LENGTH
    ensures Serialize(x, f) == Some(Tlv(SEQUENCE, RestAt(x, f, 0).value))
  {
    hide UintPart, OctetPart, Tail, Tlv;
    var v, s, c, i, k, t := UintPart(VERSION).value, UintPart(x.version).value,
      OctetPart(ToBE(x.cipher % 0x1_0000, W16)).value, OctetPart(if f then [] else x.sessionId).value,
      OctetPart(x.masterKey).value, Tail(x, f, 1).value;
    assert v + (s + (c + (i + k))) + t == v + (s + (c + (i + (k + t))));
  }

  lemma AllFilled(x: Session, f: bool)
    ensures Filled(x, f, 26) == Norm(x, f) && RestAt(x, f, 26) == Some([])
  {
  }

  /**
  The session round trip: from what was written for a session, for a ticket or not, the parser gets the same
  session back, normalised, exactly if the session is acceptable.
  */
  lemma RoundTrip(g: Env, x: Session, forTicket: bool)
    requires Typed(x) && Serialize(x, forTicket).Some?
    ensures FromBytes(g, Serialize(x, forTicket).value) == Some(Norm(x, forTicket)) <==> Acceptable(g, x)
  {
    hide RestAt, Step, Upto, Filled, Tlv, Get, Typed, Acceptable, Serialize, Demand;
    BodyIs(x, forTicket);
    var body := RestAt(x, forTicket, 0).value;
    GetInverse(SEQUENCE, body, []);
    assert Tlv(SEQUENCE, body) + [] == Tlv(SEQUENCE, body);
    if Acceptable(g, x) {
      DemandsAre(g, x);
      AllItems(g, x, forTicket, 26);
      AllFilled(x, forTicket);
    } else {
      var n := FirstDemand(g, x);
      SomeItem(g, x, forTicket, n);
      StaysWrong(g, Cursor(Blank(), None, body), n, 26, Norm(x, false).certs);
    }
  }

  /** A negative verify result is written as a large number and is not read back. */
  lemma NegativeVerifyResult(g: Env, x: Session)
    requires Typed(x) && x.verifyResult < 0 && Serialize(x, false).Some?
    ensures FromBytes(g, Serialize(x, false).value) != Some(Norm(x, false))
  {
    hide Serialize, FromBytes;
    RoundTrip(g, x, false);
  }

  /** A session whose certificates were refused with an error of the application. */
  function Refused(): Session {
    Blank().(version := 0x0303, cipher := 0xc02f, verifyResult := -1)
  }

  lemma ShortTlv(tag: byte, contents: seq<byte>)
    requires |contents| < 128
    ensures |Tlv(tag, contents)| == 2 + |contents|
  {
  }

  lemma ShortUint(n: nat)
    requires n < LIMIT64
    ensures UintPart(n).Some? && |UintPart(n).value| <= 11
  {
    UintLength(n);
    ShortTlv(INTEGER, UintBytes(n));
  }

  lemma RefusedPart(t: nat)
    requires 1 <= t <= 26
    ensures Tagged(t, Part(Refused(), false, t)).Some? && |Tagged(t, Part(Refused(), false, t)).value| <= 13
  {
    hide UintPart, Tlv;
    ShortUint(0);
    ShortUint(LIMIT64 - 1);
    ShortTlv(OCTETS, []);
    var part := Part(Refused(), false, t);
    assert part.Some? ==> part.value.Some? && |part.value.value| <= 11;
    if part.Some? { ShortTlv(Context(t), part.value.value); }
  }

  lemma {:induction false} RefusedTail(t: nat)
    requires 1 <= t <= 27
    ensures Tail(Refused(), false, t).Some? && |Tail(Refused(), false, t).value| <= 13 * (27 - t)
    decreases 27 - t
  {
    hide Part, Tagged;
    if t < 27 {
      RefusedPart(t);
      RefusedTail(t + 1);
    }
  }

  /** It can be serialized, and the parser does not get it back. */
  lemma RefusedIsLost(g: Env)
    ensures Typed(Refused()) && Serialize(Refused(), false).Some?
    ensures FromBytes(g, Serialize(Refused(), false).value) != Some(Norm(Refused(), false))
  {
    hide Tail, UintPart, Tlv, FromBytes;
    RefusedTail(1);
    ShortUint(VERSION);
    ShortUint(0x0303);
    ShortTlv(OCTETS, ToBE(0xc02f, W16));
    ShortTlv(OCTETS, []);
    NegativeVerifyResult(g, Refused());
  }
}
