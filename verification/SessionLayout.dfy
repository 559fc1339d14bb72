/** Which elements are written for a session, and that there is always a serialization of a session of common size. */
module SessionLayout {
  import opened Wire
  import opened Der
  import opened SessionAsn1
  import opened SessionRoundTrip
  import opened SessionFormat

  /** Whether there is anything to say at a tag; defaults are left out, as DER demands. */
  predicate Needed(x: Session, forTicket: bool, tag: byte) {
    if tag == 0xa1 || tag == 0xa2 || tag == 0xa4 then true
    else if tag == 0xa3 then x.sha256.None? && x.certs != []
    else if tag == 0xa5 then x.verifyResult != 0
    else if tag == 0xa8 then x.psk.Some?
    else if tag == 0xa9 then x.lifetimeHint != 0
    else if tag == 0xaa then x.ticket.Some? && !forTicket
    else if tag == 0xad then x.sha256.Some?
    else if tag == 0xae then x.handshakeHash != []
    else if tag == 0xaf then x.scts.Some?
    else if tag == 0xb0 then x.ocsp.Some?
    else if tag == 0xb1 then x.extendedMaster.Yes?
    else if tag == 0xb2 then x.group != 0
    else if tag == 0xb3 then x.sha256.None? && |x.certs| >= 2
    else if tag == 0xb5 then x.ageAdd.Some?
    else if tag == 0xb6 then x.server.No?
    else if tag == 0xb7 then x.sigalg != 0
    else if tag == 0xb8 then x.maxEarlyData != 0
    else if tag == 0xb9 then x.authTimeout != x.timeout
    else if tag == 0xba then x.alpn.Some?
    else false
  }

  lemma PartNeeded(x: Session, forTicket: bool, t: nat)
    requires 1 <= t <= 26
    ensures Part(x, forTicket, t).Some? <==> Needed(x, forTicket, Context(t))
  {
    hide OctetPart, UintPart, Tlv, Concat, Unsigned;
  }

  lemma ElementsFirst(tag: byte, contents: bytes, rest: bytes)
    requires tag % 32 != 31 && |contents| <= MAX_LENGTH && Elements(rest).Some?
    ensures Elements(Tlv(tag, contents) + rest) == Some([Element(tag, contents)] + Elements(rest).value)
  {
    hide LengthBytes, AnyElement;
    ElementInverse(tag, contents, rest);
    var e := Tlv(tag, contents);
    assert e[|e| - |contents|..] == contents && (e + rest)[0] == tag;
  }

  /** An element for each tag from `t` on that is needed, in order, and none for others. */
  predicate Needs(x: Session, forTicket: bool, es: seq<Element>, t: nat)
    requires t <= 27
  {
    && (forall i :: 0 <= i < |es| ==> 0xa0 + t <= es[i].tag <= 0xba && Needed(x, forTicket, es[i].tag))
    && forall k :: t <= k <= 26 && Needed(x, forTicket, Context(k)) ==>
         exists i :: 0 <= i < |es| && es[i].tag == Context(k)
  }

  lemma NeedsMore(x: Session, forTicket: bool, es: seq<Element>, t: nat, contents: bytes)
    requires 1 <= t <= 26 && Needs(x, forTicket, es, t + 1)
    ensures Needed(x, forTicket, Context(t)) ==> Needs(x, forTicket, [Element(Context(t), contents)] + es, t)
    ensures !Needed(x, forTicket, Context(t)) ==> Needs(x, forTicket, es, t)
  {
    hide Needed;
    if Needed(x, forTicket, Context(t)) {
      var all := [Element(Context(t), contents)] + es;
      forall k | t <= k <= 26 && Needed(x, forTicket, Context(k))
        ensures exists i :: 0 <= i < |all| && all[i].tag == Context(k)
      {
        if k == t {
          assert all[0].tag == Context(k);
        } else {
          var i :| 0 <= i < |es| && es[i].tag == Context(k);
          assert all[i + 1].tag == Context(k);
        }
      }
    }
  }

  lemma {:induction false} TailNeeds(x: Session, forTicket: bool, t: nat)
    requires 1 <= t <= 27 && Tail(x, forTicket, t).Some?
    ensures var es := Elements(Tail(x, forTicket, t).value); es.Some? && Needs(x, forTicket, es.value, t)
    decreases 27 - t
  {
    hide Part, Needed, Tlv, Elements, Needs;
    if t == 27 {
      NoNeeds(x, forTicket);
    } else {
      TailNeeds(x, forTicket, t + 1);
      PartNeeded(x, forTicket, t);
      var part, rest := Part(x, forTicket, t), Tail(x, forTicket, t + 1).value;
      NeedsMore(x, forTicket, Elements(rest).value, t, if part.Some? then part.value.value else []);
      if part.Some? {
        ContextTag(t);
        ElementsFirst(Context(t), part.value.value, rest);
      } else {
        assert [] + rest == rest;
      }
    }
  }

  lemma NoNeeds(x: Session, forTicket: bool)
    ensures Elements([]) == Some([]) && Needs(x, forTicket, [], 27)
  {
  }

  /** The five elements without a tag of their own, and then one for each tag at which there is anything to say. */
  predicate LaidOut(x: Session, forTicket: bool, es: seq<Element>) {
    && |es| >= 5
    && IsUint(es[0], 1) && IsUint(es[1], x.version) && es[2] == Element(OCTETS, ToBE(x.cipher, W16))
    && es[3] == Element(OCTETS, if forTicket then [] else x.sessionId) && es[4] == Element(OCTETS, x.masterKey)
    && Needs(x, forTicket, es[5..], 1)
  }

  lemma FiveFirst(tags: seq<byte>, v: seq<bytes>, rest: bytes)
    requires |tags| == |v| == 5 && Elements(rest).Some?
    requires forall i :: 0 <= i < 5 ==> tags[i] % 32 != 31 && |v[i]| <= MAX_LENGTH
    ensures Elements(Tlv(tags[0], v[0]) + (Tlv(tags[1], v[1]) + (Tlv(tags[2], v[2]) + (Tlv(tags[3], v[3])
                     + (Tlv(tags[4], v[4]) + rest)))))
         == Some([Element(tags[0], v[0]), Element(tags[1], v[1]), Element(tags[2], v[2]), Element(tags[3], v[3]),
                  Element(tags[4], v[4])] + Elements(rest).value)
  {
    hide Tlv, Elements;
    var s4 := Tlv(tags[4], v[4]) + rest;
    ElementsFirst(tags[4], v[4], rest);
    var s3 := Tlv(tags[3], v[3]) + s4;
    ElementsFirst(tags[3], v[3], s4);
    var s2 := Tlv(tags[2], v[2]) + s3;
    ElementsFirst(tags[2], v[2], s3);
    var s1 := Tlv(tags[1], v[1]) + s2;
    ElementsFirst(tags[1], v[1], s2);
    ElementsFirst(tags[0], v[0], s1);
    var es := Elements(rest).value;
    assert [Element(tags[0], v[0])] + ([Element(tags[1], v[1])] + ([Element(tags[2], v[2])] + ([Element(tags[3], v[3])]
           + ([Element(tags[4], v[4])] + es))))
        == [Element(tags[0], v[0]), Element(tags[1], v[1]), Element(tags[2], v[2]), Element(tags[3], v[3]),
            Element(tags[4], v[4])] + es;
  }

  /** The contents of the five elements. */
  function HeadContents(x: Session, forTicket: bool): seq<bytes> {
    [UintBytes(VERSION), UintBytes(x.version), ToBE(x.cipher, W16), if forTicket then [] else x.sessionId, x.masterKey]
  }

  lemma HeadLaidOut(x: Session, forTicket: bool)
    requires Typed(x) && RestAt(x, forTicket, 0).Some?
    ensures var es, tail := Elements(RestAt(x, forTicket, 0).value), Tail(x, forTicket, 1);
            && tail.Some? && Elements(tail.value).Some? && es.Some? && |es.value| >= 5
            && es.value[5..] == Elements(tail.value).value
            && forall i :: 0 <= i < 5 ==>
                 es.value[i] == Element(if i < 2 then INTEGER else OCTETS, HeadContents(x, forTicket)[i])
  {
    hide Tlv, Elements, UintBytes, ToBE, Tail, Needs;
    UintLength(VERSION);
    UintLength(x.version);
    var rest := Tail(x, forTicket, 1).value;
    TailNeeds(x, forTicket, 1);
    var v := HeadContents(x, forTicket);
    FiveFirst([INTEGER, INTEGER, OCTETS, OCTETS, OCTETS], v, rest);
  }

  /** Every session that is written is laid out like that. */
  lemma WritesLayout(x: Session, forTicket: bool)
    requires Typed(x) && Serialize(x, forTicket).Some?
    ensures var body := Get(SEQUENCE, Serialize(x, forTicket).value);
            && body.Good? && body.rest == [] && Elements(body.value).Some?
            && LaidOut(x, forTicket, Elements(body.value).value)
  {
    hide Tlv, Elements, UintBytes, ToBE, Tail, Needs, Get, Serialize, RestAt, Uint;
    BodyIs(x, forTicket);
    var body := RestAt(x, forTicket, 0).value;
    GetInverse(SEQUENCE, body, []);
    assert Tlv(SEQUENCE, body) + [] == Tlv(SEQUENCE, body);
    HeadLaidOut(x, forTicket);
    TailNeeds(x, forTicket, 1);
    UintInverse(VERSION);
    UintInverse(x.version);
  }

  // ---------------------------------------------------------------- when a session can be written

  const MODERATE: nat := 0x100_0000

  /** No string of the session has more than 2^24 bytes. */
  predicate Moderate(x: Session) {
    && |x.sidCtx| <= MODERATE && |x.masterKey| <= MODERATE && |x.sessionId| <= MODERATE
    && (x.psk.Some? ==> |x.psk.value| <= MODERATE) && (x.ticket.Some? ==> |x.ticket.value| <= MODERATE)
    && (x.sha256.Some? ==> |x.sha256.value| <= MODERATE) && |x.handshakeHash| <= MODERATE
    && (x.scts.Some? ==> |x.scts.value| <= MODERATE) && (x.ocsp.Some? ==> |x.ocsp.value| <= MODERATE)
    && (x.alpn.Some? ==> |x.alpn.value| <= MODERATE)
    && (x.certs != [] ==> |x.certs[0]| <= MODERATE && |Concat(x.certs[1..])| <= MODERATE)
  }

  lemma TlvLength(tag: byte, contents: bytes)
    requires |contents| <= MAX_LENGTH
    ensures |Tlv(tag, contents)| <= |contents| + 6
  {
    if |contents| >= 128 { SmallSize(|contents|); }
  }

  lemma UintFits(n: nat)
    requires n < LIMIT64
    ensures UintPart(n).Some? && |UintPart(n).value| <= MODERATE + 6
  {
    UintLength(n);
    TlvLength(INTEGER, UintBytes(n));
  }

  lemma OctetsFit(v: bytes)
    requires |v| <= MODERATE
    ensures OctetPart(v).Some? && |OctetPart(v).value| <= MODERATE + 6
  {
    TlvLength(OCTETS, v);
  }

  lemma SmallFit()
    ensures |Tlv(BOOLEAN, BoolBytes(true))| <= MODERATE && |Tlv(BOOLEAN, BoolBytes(false))| <= MODERATE
    ensures forall n: nat :: |Tlv(OCTETS, ToBE(n, 4))| <= MODERATE
  {
  }

  /** A part has at most one string, or one number. */
  lemma PartFits(x: Session, forTicket: bool, t: nat)
    requires Typed(x) && Moderate(x) && 1 <= t <= 26 && Part(x, forTicket, t).Some?
    ensures var p := Part(x, forTicket, t).value; p.Some? && |p.value| <= MODERATE + 6
  {
    SmallFit();
    hide OctetPart, UintPart, Tlv, Concat, ToBE;
    forall n: nat | n < LIMIT64 ensures UintPart(n).Some? && |UintPart(n).value| <= MODERATE + 6 { UintFits(n); }
    forall v: bytes | |v| <= MODERATE ensures OctetPart(v).Some? && |OctetPart(v).value| <= MODERATE + 6 {
      OctetsFit(v);
    }
  }

  lemma {:induction false} TailFits(x: Session, forTicket: bool, t: nat)
    requires Typed(x) && Moderate(x) && 1 <= t <= 27
    ensures Tail(x, forTicket, t).Some? && |Tail(x, forTicket, t).value| <= (27 - t) * (MODERATE + 12)
    decreases 27 - t
  {
    hide Part, Tlv, Moderate, Typed;
    if t < 27 {
      TailFits(x, forTicket, t + 1);
      if Part(x, forTicket, t).Some? {
        PartFits(x, forTicket, t);
        TlvLength(Context(t), Part(x, forTicket, t).value.value);
      }
    }
  }

  /** So a session whose strings have at most 2^24 bytes each can always be written. */
  lemma ModerateSerializes(x: Session, forTicket: bool)
    requires Typed(x) && Moderate(x)
    ensures Serialize(x, forTicket).Some?
  {
    hide Tail, UintPart, OctetPart, Tlv;
    TailFits(x, forTicket, 1);
    UintFits(VERSION);
    UintFits(x.version);
    OctetsFit(ToBE(x.cipher % 0x1_0000, W16));
    OctetsFit(if forTicket then [] else x.sessionId);
    OctetsFit(x.masterKey);
  }
}
