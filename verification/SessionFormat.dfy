/**
The serialized session as its ASN.1 structure describes it (SSLSession at the head of ssl_asn1.cc), without the order
in which the parser goes about it: a list of elements, and what each field has to do with the element at its tag.
*/
module SessionFormat {
  import opened Words
  import opened Wire
  import opened Der
  import opened SessionAsn1
  import opened SessionRoundTrip

  /** An element by the first byte of its tag, and its contents. */
  datatype Element = Element(tag: byte, contents: bytes)

  function Elements(s: bytes): Option<seq<Element>>
    decreases |s|
  {
    if s == [] then Some([])
    else
      match AnyElement(s)
      case Bad => None
      case Good(e, rest) =>
        var more := Elements(rest);
        if more.None? then None else Some([Element(s[0], e.0[e.1..])] + more.value)
  }

  // ---------------------------------------------------------------- what a tag says

  /** An OCTET STRING behind a tag, or nothing. */
  predicate SaysOctets(c: Option<bytes>, v: Option<bytes>) {
    if c.None? then v.None? else v.Some? && Get(OCTETS, c.value) == Good(v.value, [])
  }

  predicate SaysUint(c: Option<bytes>, n: nat, default: nat) {
    if c.None? then n == default else GetUint(c.value) == Good(n, [])
  }

  predicate SaysBool(c: Option<bytes>, b: bool, default: bool) {
    if c.None? then b == default else Get(BOOLEAN, c.value) == Good([if b then 0xff else 0], [])
  }

  /** A string that is not told apart from none where it is empty. */
  predicate SaysKept(c: Option<bytes>, v: Option<bytes>) {
    v != Some([]) && (SaysOctets(c, v) || (v.None? && SaysOctets(c, Some([]))))
  }

  /** The certificates: the leaf from its own tag, and whole elements behind it. */
  predicate SaysCerts(leaf: Option<bytes>, chain: Option<bytes>, certs: seq<bytes>) {
    && (leaf.None? <==> certs == []) && (leaf.Some? ==> leaf.value != [] && certs[0] == leaf.value)
    && (chain.None? ==> |certs| <= 1)
    && (chain.Some? ==> |certs| >= 2 && chain.value == Concat(certs[1..]))
    && forall i :: 1 <= i < |certs| ==> Single(certs[i])
  }

  /** The tag of the `n`-th item of the structure, from the seventh on, where tagged optional elements begin. */
  function TagAt(n: nat): nat
    requires 7 <= n <= ITEMS
  {
    match n
    case 7 => 3 case 8 => 4 case 9 => 5 case 10 => 6 case 11 => 8 case 12 => 9 case 13 => 10
    case 14 => 13 case 15 => 14 case 16 => 15 case 17 => 16 case 18 => 17 case 19 => 18 case 20 => 19
    case 21 => 21 case 22 => 22 case 23 => 23 case 24 => 24 case 25 => 25 case _ => 26
  }

  /** What the element at the tag of the `n`-th item says about the session. */
  predicate Says(g: Env, n: nat, leaf: Option<bytes>, c: Option<bytes>, x: Session) {
    match n
    case 7 => c != Some([])
    case 8 => |x.sidCtx| <= 32 && (SaysOctets(c, Some(x.sidCtx)) || (c.None? && x.sidCtx == []))
    case 9 => 0 <= x.verifyResult < 0x8000_0000_0000_0000 && SaysUint(c, x.verifyResult, 0)
    case 11 => SaysOctets(c, x.psk) && (x.psk.Some? ==> 0 !in x.psk.value)
    case 12 => x.lifetimeHint < LIMIT32 && SaysUint(c, x.lifetimeHint, 0)
    case 13 => SaysKept(c, x.ticket)
    case 14 => SaysOctets(c, x.sha256) && (x.sha256.Some? ==> |x.sha256.value| == 32)
    case 15 => |x.handshakeHash| <= 64
               && (SaysOctets(c, Some(x.handshakeHash)) || (c.None? && x.handshakeHash == []))
    case 16 => SaysOctets(c, x.scts)
    case 17 => SaysOctets(c, x.ocsp)
    case 18 => SaysBool(c, x.extendedMaster.Yes?, false)
    case 19 => x.group < LIMIT16 && SaysUint(c, x.group, 0)
    case 20 => SaysCerts(leaf, c, x.certs) && g.cacheable(x.certs)
    case 21 => if c.None? then x.ageAdd.None?
               else x.ageAdd.Some? && x.ageAdd.value < LIMIT32
                    && Get(OCTETS, c.value) == Good(ToBE(x.ageAdd.value, 4), [])
    case 22 => SaysBool(c, x.server.Yes?, true)
    case 23 => x.sigalg < LIMIT16 && SaysUint(c, x.sigalg, 0)
    case 24 => x.maxEarlyData < LIMIT32 && SaysUint(c, x.maxEarlyData, 0)
    case 25 => x.authTimeout < LIMIT32 && SaysUint(c, x.authTimeout, x.timeout)
    case 26 => SaysKept(c, x.alpn)
    case _ => true
  }

  // ---------------------------------------------------------------- one item

  /** The session with what the first `n` items fill in. */
  function Cut(x: Session, n: nat): Session {
    var b := Blank();
    Session(
      if n >= 1 then x.version else b.version, if n >= 2 then x.cipher else b.cipher,
      if n >= 3 then x.sessionId else b.sessionId, if n >= 4 then x.masterKey else b.masterKey,
      if n >= 5 then x.time else b.time, if n >= 6 then x.timeout else b.timeout,
      if n >= 20 then x.certs else b.certs, if n >= 8 then x.sidCtx else b.sidCtx,
      if n >= 9 then x.verifyResult else b.verifyResult, if n >= 11 then x.psk else b.psk,
      if n >= 12 then x.lifetimeHint else b.lifetimeHint, if n >= 13 then x.ticket else b.ticket,
      if n >= 14 then x.sha256 else b.sha256, if n >= 15 then x.handshakeHash else b.handshakeHash,
      if n >= 16 then x.scts else b.scts, if n >= 17 then x.ocsp else b.ocsp,
      if n >= 18 then x.extendedMaster else b.extendedMaster, if n >= 19 then x.group else b.group,
      if n >= 21 then x.ageAdd else b.ageAdd, if n >= 22 then x.server else b.server,
      if n >= 23 then x.sigalg else b.sigalg, if n >= 24 then x.maxEarlyData else b.maxEarlyData,
      if n >= 25 then x.authTimeout else b.authTimeout, if n >= 26 then x.alpn else b.alpn)
  }

  /** The cursor where the session has the first `n` items. */
  function At(x: Session, n: nat, leaf: Option<bytes>, rest: bytes): Cursor {
    Cursor(Cut(x, n), leaf, rest)
  }

  /** The `n`-th item is read as what its element says. */
  ghost predicate Reads(g: Env, n: nat, x: Session, leaf: Option<bytes>, rest: bytes)
    requires 7 <= n <= ITEMS
  {
    var o := GetOptional(Context(TagAt(n)), rest);
    match o
    case Bad => Step(g, ItemAt(n), At(x, n - 1, leaf, rest)) == None
    case Good(c, after) =>
      var leaf' := if n == 7 then c else leaf;
      Step(g, ItemAt(n), At(x, n - 1, leaf, rest)) == Some(At(x, n, leaf', after)) <==> Says(g, n, leaf', c, x)
  }

  lemma ReadEarly(g: Env, n: nat, x: Session, leaf: Option<bytes>, rest: bytes)
    requires 7 <= n <= 11
    ensures Reads(g, n, x, leaf, rest)
  {
    hide GetOptional, Get, GetUint;
  }

  lemma ReadMiddle(g: Env, n: nat, x: Session, leaf: Option<bytes>, rest: bytes)
    requires 12 <= n <= 15
    ensures Reads(g, n, x, leaf, rest)
  {
    hide GetOptional, Get, GetUint;
  }

  lemma ReadLate(g: Env, n: nat, x: Session, leaf: Option<bytes>, rest: bytes)
    requires 16 <= n <= 19
    ensures Reads(g, n, x, leaf, rest)
  {
    hide GetOptional, Get, GetUint;
  }

  lemma ReadLast(g: Env, n: nat, x: Session, leaf: Option<bytes>, rest: bytes)
    requires 22 <= n <= 26
    ensures Reads(g, n, x, leaf, rest)
  {
    hide GetOptional, Get, GetUint;
  }

  /** The certificates come apart in one way only. */
  lemma {:induction false} SplitExact(s: bytes, certs: seq<bytes>)
    ensures Split(s) == Some(certs) <==> s == Concat(certs) && forall i :: 0 <= i < |certs| ==> Single(certs[i])
    decreases |s|
  {
    if s == Concat(certs) && forall i :: 0 <= i < |certs| ==> Single(certs[i]) { SplitSingles(certs); }
    if Split(s) == Some(certs) {
      SplitGives(s);
      SplitJoins(s);
    }
  }

  lemma {:induction false} SplitJoins(s: bytes)
    requires Split(s).Some?
    ensures Concat(Split(s).value) == s && (s != [] ==> Split(s).value != [])
    decreases |s|
  {
    hide AnyElement;
    if s != [] {
      var e := AnyElement(s);
      SplitJoins(e.rest);
      assert ([e.value.0] + Split(e.rest).value)[1..] == Split(e.rest).value;
    }
  }

  lemma SinglesBehind(certs: seq<bytes>)
    requires certs != []
    ensures (forall i :: 1 <= i < |certs| ==> Single(certs[i]))
       <==> (forall i :: 0 <= i < |certs[1..]| ==> Single(certs[1..][i]))
  {
    hide Single;
    if forall i :: 0 <= i < |certs[1..]| ==> Single(certs[1..][i]) {
      forall i | 1 <= i < |certs| ensures Single(certs[i]) { assert certs[1..][i - 1] == certs[i]; }
    }
  }

  lemma CertsExact(leaf: Option<bytes>, chain: Option<bytes>, certs: seq<bytes>)
    requires leaf != Some([])
    ensures Certificates(leaf, chain) == Some(certs) <==> SaysCerts(leaf, chain, certs)
  {
    hide Split, Concat, Single;
    if certs != [] && chain.Some? && leaf.Some? {
      var rest := certs[1..];
      SinglesBehind(certs);
      SplitExact(chain.value, rest);
      NothingSplit();
      assert certs == [certs[0]] + rest;
      if Certificates(leaf, chain) == Some(certs) {
        SplitJoins(chain.value);
        assert ([leaf.value] + Split(chain.value).value)[1..] == Split(chain.value).value;
      }
    } else if |certs| == 1 {
      assert certs == [certs[0]];
    }
  }

  lemma ReadChain(g: Env, x: Session, leaf: Option<bytes>, rest: bytes)
    requires leaf != Some([])
    ensures Reads(g, 20, x, leaf, rest)
  {
    hide GetOptional, Certificates, SaysCerts;
    var o := GetOptional(Context(19), rest);
    if o.Good? { CertsExact(leaf, o.value, x.certs); }
  }

  lemma FourBytes(v: bytes, n: nat)
    ensures |v| == 4 && FromBE(v) == n <==> n < LIMIT32 && v == ToBE(n, 4)
  {
    hide Pow2, FromBE, ToBE;
    Pow32();
    if |v| == 4 { ToFromBE(v); }
    if n < LIMIT32 { FromToBE(n, 4); }
  }

  lemma ReadAgeAdd(g: Env, x: Session, leaf: Option<bytes>, rest: bytes)
    ensures Reads(g, 21, x, leaf, rest)
  {
    hide GetOptional, Get, FromBE, ToBE;
    var o := GetOptional(Context(21), rest);
    if o.Good? && o.value.Some? && x.ageAdd.Some? && Get(OCTETS, o.value.value).Good? {
      FourBytes(Get(OCTETS, o.value.value).value, x.ageAdd.value);
    }
  }

  /** An item is read as what its element says. */
  lemma ReadItem(g: Env, n: nat, x: Session, leaf: Option<bytes>, rest: bytes)
    requires 7 <= n <= ITEMS && (n > 7 ==> leaf != Some([]))
    ensures Reads(g, n, x, leaf, rest)
  {
    hide Reads;
    if n <= 11 { ReadEarly(g, n, x, leaf, rest); }
    else if n <= 15 { ReadMiddle(g, n, x, leaf, rest); }
    else if n <= 19 { ReadLate(g, n, x, leaf, rest); }
    else if n == 20 { ReadChain(g, x, leaf, rest); }
    else if n == 21 { ReadAgeAdd(g, x, leaf, rest); }
    else { ReadLast(g, n, x, leaf, rest); }
  }

  /** An item takes the element at its tag, if it is there, and fills in its own field. */
  ghost predicate Takes(g: Env, n: nat, c: Cursor)
    requires 7 <= n <= ITEMS
  {
    var r := Step(g, ItemAt(n), c);
    r.Some? ==>
      var o := GetOptional(Context(TagAt(n)), c.rest);
      var d := r.value;
      && o.Good? && d.rest == o.rest && d.peer == (if n == 7 then o.value else c.peer) && d.peer != Some([])
      && (c.ret == Cut(c.ret, n - 1) ==> d.ret == Cut(d.ret, n) && Cut(d.ret, n - 1) == c.ret)
  }

  lemma TakeEarly(g: Env, n: nat, c: Cursor)
    requires 7 <= n <= 15 && (n > 7 ==> c.peer != Some([]))
    ensures Takes(g, n, c)
  {
    hide GetOptional, Get, GetUint;
  }

  lemma TakeLate(g: Env, n: nat, c: Cursor)
    requires 16 <= n <= 26 && c.peer != Some([])
    ensures Takes(g, n, c)
  {
    hide GetOptional, Get, GetUint, Certificates, FromBE;
  }

  // ---------------------------------------------------------------- going over the elements

  /** What is behind the first `i` elements. */
  function Behind(s: bytes, i: nat): bytes
    decreases i
  {
    if i == 0 || AnyElement(s).Bad? then s else Behind(AnyElement(s).rest, i - 1)
  }

  lemma {:induction false} BehindMore(s: bytes, i: nat)
    requires Elements(s).Some? && i < |Elements(s).value|
    ensures AnyElement(Behind(s, i)).Good? && Behind(s, i + 1) == AnyElement(Behind(s, i)).rest
    ensures Elements(Behind(s, i)) == Some(Elements(s).value[i..])
    decreases i
  {
    hide AnyElement;
    if i > 0 {
      var rest := AnyElement(s).rest;
      BehindMore(rest, i - 1);
      assert Elements(s).value[i..] == Elements(rest).value[i - 1..];
    } else {
      assert Behind(s, 1) == Behind(AnyElement(s).rest, 0);
    }
  }

  lemma {:induction false} BehindEnd(s: bytes, i: nat)
    requires Elements(s).Some? && i <= |Elements(s).value|
    ensures Behind(s, i) == [] <==> i == |Elements(s).value|
    decreases i
  {
    hide AnyElement;
    if i > 0 { BehindEnd(AnyElement(s).rest, i - 1); }
  }

  /** The element that is due, and what is behind it. */
  lemma GetsElement(tag: byte, s: bytes, i: nat)
    requires Elements(s).Some? && i <= |Elements(s).value| && tag % 32 != 31
    ensures var es := Elements(s).value;
            if i < |es| && es[i].tag == tag then
              && Get(tag, Behind(s, i)) == Good(es[i].contents, Behind(s, i + 1))
              && GetOptional(tag, Behind(s, i)) == Good(Some(es[i].contents), Behind(s, i + 1))
            else Get(tag, Behind(s, i)) == Bad && GetOptional(tag, Behind(s, i)) == Good(None, Behind(s, i))
  {
    hide AnyElement, Behind;
    var es := Elements(s).value;
    BehindEnd(s, i);
    if i < |es| {
      BehindMore(s, i);
      assert es[i..][0] == es[i];
    } else {
      NoElement();
    }
  }

  lemma NoElement()
    ensures AnyElement([]).Bad?
  {
  }

  /** What cannot be taken apart to its end is not read to its end. */
  lemma BrokenBehind(tag: byte, s: bytes)
    requires Elements(s).None?
    ensures Get(tag, s).Good? ==> Elements(Get(tag, s).rest).None?
    ensures GetOptional(tag, s).Good? ==> Elements(GetOptional(tag, s).rest).None?
  {
    hide AnyElement;
  }

  // ---------------------------------------------------------------- the fields without a tag of their own

  predicate IsUint(e: Element, n: nat) {
    e.tag == INTEGER && Uint(e.contents) == Some(n)
  }

  /** An INTEGER behind a tag; what follows it there is not looked at. */
  predicate StartsWithUint(e: Element, t: nat, n: nat)
    requires t <= 30
  {
    e.tag == Context(t) && GetUint(e.contents).Good? && GetUint(e.contents).value == n
  }

  /** The first six items: seven elements, the first being the version of the structure. */
  predicate HeadSays(g: Env, n: nat, es: seq<Element>, x: Session) {
    match n
    case 1 => |es| > 1 && IsUint(es[0], 1) && IsUint(es[1], x.version) && x.version < LIMIT16
              && g.knownVersion(x.version)
    case 2 => |es| > 2 && x.cipher < LIMIT16 && es[2] == Element(OCTETS, ToBE(x.cipher, W16)) && g.knownCipher(x.cipher)
    case 3 => |es| > 3 && es[3] == Element(OCTETS, x.sessionId) && |x.sessionId| <= 32
    case 4 => |es| > 4 && es[4] == Element(OCTETS, x.masterKey) && |x.masterKey| <= 48
    case 5 => |es| > 5 && StartsWithUint(es[5], 1, x.time)
    case _ => |es| > 6 && StartsWithUint(es[6], 2, x.timeout) && x.timeout < LIMIT32
  }

  lemma TwoBytes(v: bytes, n: nat)
    ensures |v| == W16 && FromBE(v) == n <==> n < LIMIT16 && v == ToBE(n, W16)
  {
    hide Pow2, FromBE, ToBE;
    Limit16();
    if |v| == W16 { ToFromBE(v); }
    if n < LIMIT16 { FromToBE(n, W16); }
  }

  /** One of the first items, likewise. */
  ghost predicate ReadsHead(g: Env, n: nat, x: Session, body: bytes)
    requires 1 <= n <= 6 && Elements(body).Some?
  {
    var es, i := Elements(body).value, if n == 1 then 0 else n;
    Step(g, ItemAt(n), At(x, n - 1, None, Behind(body, i))) == Some(At(x, n, None, Behind(body, n + 1)))
    <==> HeadSays(g, n, es, x)
  }

  ghost predicate TakesHead(g: Env, n: nat, c: Cursor, body: bytes)
    requires 1 <= n <= 6 && Elements(body).Some?
  {
    var r := Step(g, ItemAt(n), c);
    r.Some? && c.rest == Behind(body, if n == 1 then 0 else n) ==>
      var d := r.value;
      && n < |Elements(body).value| && d.rest == Behind(body, n + 1) && d.peer == c.peer
      && (c.ret == Cut(c.ret, n - 1) ==> d.ret == Cut(d.ret, n) && Cut(d.ret, n - 1) == c.ret)
  }

  lemma HeadVersion(g: Env, x: Session, c: Cursor, body: bytes)
    requires Elements(body).Some?
    ensures ReadsHead(g, 1, x, body) && TakesHead(g, 1, c, body)
  {
    hide Get, Behind, Elements, Uint;
    GetsElement(INTEGER, body, 0);
    if |Elements(body).value| > 0 { GetsElement(INTEGER, body, 1); }
  }

  lemma HeadCipher(g: Env, x: Session, c: Cursor, body: bytes)
    requires Elements(body).Some? && |Elements(body).value| >= 2
    ensures ReadsHead(g, 2, x, body) && TakesHead(g, 2, c, body)
  {
    hide Get, Behind, Elements, FromBE, ToBE;
    GetsElement(OCTETS, body, 2);
    if |Elements(body).value| > 2 { TwoBytes(Elements(body).value[2].contents, x.cipher); }
  }

  lemma HeadStrings(g: Env, n: nat, x: Session, c: Cursor, body: bytes)
    requires Elements(body).Some? && |Elements(body).value| >= n && 3 <= n <= 4
    ensures ReadsHead(g, n, x, body) && TakesHead(g, n, c, body)
  {
    hide Get, Behind, Elements;
    GetsElement(OCTETS, body, n);
  }

  lemma HeadTimes(g: Env, n: nat, x: Session, c: Cursor, body: bytes)
    requires Elements(body).Some? && |Elements(body).value| >= n && 5 <= n <= 6
    ensures ReadsHead(g, n, x, body) && TakesHead(g, n, c, body)
  {
    hide Get, GetUint, Behind, Elements;
    GetsElement(Context(n - 4), body, n);
  }

  lemma HeadItem(g: Env, n: nat, x: Session, c: Cursor, body: bytes)
    requires 1 <= n <= 6 && Elements(body).Some? && (n > 1 ==> |Elements(body).value| >= n)
    ensures ReadsHead(g, n, x, body) && TakesHead(g, n, c, body)
  {
    hide ReadsHead, TakesHead;
    if n == 1 { HeadVersion(g, x, c, body); }
    else if n == 2 { HeadCipher(g, x, c, body); }
    else if n <= 4 { HeadStrings(g, n, x, c, body); }
    else { HeadTimes(g, n, x, c, body); }
  }

  // ---------------------------------------------------------------- all items

  predicate Stands(es: seq<Element>, i: nat, n: nat)
    requires 7 <= n <= ITEMS
  {
    i < |es| && es[i].tag == Context(TagAt(n))
  }

  /** How many elements the first `n` items take. */
  function Taken(es: seq<Element>, n: nat): nat
    requires n <= ITEMS
  {
    if n == 0 then 0 else if n <= 6 then n + 1
    else
      var i := Taken(es, n - 1);
      if Stands(es, i, n) then i + 1 else i
  }

  function Content(es: seq<Element>, n: nat): Option<bytes>
    requires 7 <= n <= ITEMS
  {
    var i := Taken(es, n - 1);
    if Stands(es, i, n) then Some(es[i].contents) else None
  }

  function LeafAt(es: seq<Element>, n: nat): Option<bytes> {
    if n < 7 then None else Content(es, 7)
  }

  predicate SaysItem(g: Env, n: nat, es: seq<Element>, x: Session)
    requires 1 <= n <= ITEMS
  {
    if n <= 6 then HeadSays(g, n, es, x) else Says(g, n, LeafAt(es, n), Content(es, n), x)
  }

  function Reached(x: Session, n: nat, body: bytes): Cursor
    requires n <= ITEMS && Elements(body).Some?
  {
    At(x, n, LeafAt(Elements(body).value, n), Behind(body, Taken(Elements(body).value, n)))
  }

  /** The cursor is where `n` items lead, with nothing filled in beyond them. */
  ghost predicate Along(c: Cursor, n: nat, body: bytes)
    requires n <= ITEMS && Elements(body).Some?
  {
    && c == Reached(c.ret, n, body) && Taken(Elements(body).value, n) <= |Elements(body).value|
    && c.peer != Some([])
  }

  lemma CutTwice(x: Session, n: nat)
    requires n > 0
    ensures Cut(Cut(x, n), n) == Cut(x, n) && Cut(Cut(x, n), n - 1) == Cut(x, n - 1)
  {
  }

  /** One more item: the cursor stays on its way, and has what it had before. */
  ghost predicate Goes(g: Env, n: nat, c: Cursor, body: bytes)
    requires 1 <= n <= ITEMS && Elements(body).Some?
  {
    var r := Step(g, ItemAt(n), c);
    r.Some? ==> Along(r.value, n, body) && Cut(r.value.ret, n - 1) == c.ret
  }

  /** One more item is read as `x` has it exactly if its element says so. */
  ghost predicate Finds(g: Env, n: nat, x: Session, body: bytes)
    requires 1 <= n <= ITEMS && Elements(body).Some?
  {
    Step(g, ItemAt(n), Reached(x, n - 1, body)) == Some(Reached(x, n, body))
    <==> SaysItem(g, n, Elements(body).value, x)
  }

  lemma HeadGoes(g: Env, n: nat, c: Cursor, body: bytes)
    requires 1 <= n <= 6 && Elements(body).Some? && Along(c, n - 1, body)
    ensures Goes(g, n, c, body)
  {
    HeadItem(g, n, c.ret, c, body);
    hide ReadsHead, Step, HeadSays, Behind, Elements, Cut, ItemAt;
  }

  lemma HeadFinds(g: Env, n: nat, x: Session, body: bytes)
    requires 1 <= n <= 6 && Elements(body).Some? && (n > 1 ==> |Elements(body).value| >= n)
    ensures Finds(g, n, x, body)
  {
    HeadItem(g, n, x, Cursor(x, None, []), body);
    hide TakesHead, Step, HeadSays, Behind, Elements, Cut, ItemAt;
  }

  /** What an item takes from the elements. */
  lemma ItemTakes(es: seq<Element>, n: nat)
    requires 7 <= n <= ITEMS
    ensures var i := Taken(es, n - 1);
            && (if i < |es| && es[i].tag == Context(TagAt(n))
                then Content(es, n) == Some(es[i].contents) && Taken(es, n) == i + 1
                else Content(es, n) == None && Taken(es, n) == i)
            && LeafAt(es, n) == (if n == 7 then Content(es, n) else LeafAt(es, n - 1))
  {
    hide TagAt, Context;
  }

  /** The optional element is what the elements have at that place. */
  lemma ItemAtPlace(body: bytes, n: nat)
    requires 7 <= n <= ITEMS && Elements(body).Some? && Taken(Elements(body).value, n - 1) <= |Elements(body).value|
    ensures var es := Elements(body).value;
            && GetOptional(Context(TagAt(n)), Behind(body, Taken(es, n - 1)))
               == Good(Content(es, n), Behind(body, Taken(es, n)))
            && Taken(es, n) <= |es|
            && LeafAt(es, n) == (if n == 7 then Content(es, n) else LeafAt(es, n - 1))
  {
    hide *;
    TagOk(n);
    var es := Elements(body).value;
    ItemTakes(es, n);
    GetsElement(Context(TagAt(n)), body, Taken(es, n - 1));
  }

  lemma TagOk(n: nat)
    requires 7 <= n <= ITEMS
    ensures TagAt(n) <= 30 && Context(TagAt(n)) % 32 != 31
  {
  }

  lemma OptionalGoes(g: Env, n: nat, c: Cursor, body: bytes)
    requires 7 <= n <= ITEMS && Elements(body).Some? && Along(c, n - 1, body)
    ensures Goes(g, n, c, body)
  {
    hide Step, Behind, Elements, Cut, ItemAt, TagAt, GetOptional, Get, Taken, Content, LeafAt, Context, Takes;
    ItemAtPlace(body, n);
    if n <= 15 { TakeEarly(g, n, c); } else { TakeLate(g, n, c); }
    GoesOn(g, n, c, body);
  }

  lemma GoesOn(g: Env, n: nat, c: Cursor, body: bytes)
    requires 7 <= n <= ITEMS && Elements(body).Some? && Along(c, n - 1, body) && Takes(g, n, c)
    requires var es := Elements(body).value;
             && GetOptional(Context(TagAt(n)), Behind(body, Taken(es, n - 1)))
                == Good(Content(es, n), Behind(body, Taken(es, n)))
             && Taken(es, n) <= |es| && LeafAt(es, n) == (if n == 7 then Content(es, n) else LeafAt(es, n - 1))
    ensures Goes(g, n, c, body)
  {
    hide Step, Behind, Elements, Cut, ItemAt, TagAt, GetOptional, Get, Taken, Content, LeafAt, Context;
  }

  lemma OptionalFinds(g: Env, n: nat, x: Session, body: bytes)
    requires 7 <= n <= ITEMS && Elements(body).Some? && Taken(Elements(body).value, n - 1) <= |Elements(body).value|
    requires n > 7 ==> LeafAt(Elements(body).value, n - 1) != Some([])
    ensures Finds(g, n, x, body)
  {
    hide Step, Says, Behind, Elements, Cut, ItemAt, TagAt, GetOptional, Get, Taken, Content, LeafAt, Context;
    var es := Elements(body).value;
    ItemAtPlace(body, n);
    ReadItem(g, n, x, LeafAt(es, n - 1), Behind(body, Taken(es, n - 1)));
  }

  lemma ReachedBefore(x: Session, n: nat, c: Cursor, d: Cursor, body: bytes)
    requires 1 <= n <= ITEMS && Elements(body).Some? && Along(c, n - 1, body) && Cut(d.ret, n - 1) == c.ret
    requires d == Reached(x, n, body)
    ensures c == Reached(x, n - 1, body)
  {
    CutTwice(x, n);
    hide Behind, Elements, Cut;
  }

  lemma AlongIs(c: Cursor, n: nat, body: bytes)
    requires n <= ITEMS && Elements(body).Some? && Along(c, n, body)
    ensures var es := Elements(body).value; Taken(es, n) <= |es| && LeafAt(es, n) != Some([])
    ensures 1 <= n <= 6 ==> |Elements(body).value| > n
  {
  }

  lemma OneItem(g: Env, n: nat, x: Session, c: Cursor, body: bytes)
    requires 1 <= n <= ITEMS && Elements(body).Some? && Along(c, n - 1, body)
    ensures var r := Step(g, ItemAt(n), c);
            && (r.Some? ==> Along(r.value, n, body))
            && (r == Some(Reached(x, n, body))
                <==> c == Reached(x, n - 1, body) && SaysItem(g, n, Elements(body).value, x))
  {
    hide *;
    AlongIs(c, n - 1, body);
    if n <= 6 {
      HeadGoes(g, n, c, body);
      HeadFinds(g, n, x, body);
    } else {
      OptionalGoes(g, n, c, body);
      OptionalFinds(g, n, x, body);
    }
    ItemGoes(g, n, x, c, body);
  }

  lemma ItemGoes(g: Env, n: nat, x: Session, c: Cursor, body: bytes)
    requires 1 <= n <= ITEMS && Elements(body).Some? && Along(c, n - 1, body)
    requires Goes(g, n, c, body) && Finds(g, n, x, body)
    ensures var r := Step(g, ItemAt(n), c);
            && (r.Some? ==> Along(r.value, n, body))
            && (r == Some(Reached(x, n, body))
                <==> c == Reached(x, n - 1, body) && SaysItem(g, n, Elements(body).value, x))
  {
    hide Step, SaysItem, Elements, Along, ItemAt, Reached, Cut, Taken;
    var r := Step(g, ItemAt(n), c);
    if r == Some(Reached(x, n, body)) { ReachedBefore(x, n, c, r.value, body); }
  }

  /** The first `n` items are read as `x` has them exactly if the elements say so. */
  lemma {:induction false} Walk(g: Env, x: Session, body: bytes, n: nat)
    requires n <= ITEMS && Elements(body).Some?
    ensures var r := Upto(g, Cursor(Blank(), None, body), n);
            && (r.Some? ==> Along(r.value, n, body))
            && (r == Some(Reached(x, n, body))
                <==> forall k :: 1 <= k <= n ==> SaysItem(g, k, Elements(body).value, x))
    decreases n
  {
    hide Step, SaysItem, Elements, Along, ItemAt, Reached;
    if n == 0 {
      WalkStart(x, body);
    } else {
      Walk(g, x, body, n - 1);
      var before := Upto(g, Cursor(Blank(), None, body), n - 1);
      if before.Some? { OneItem(g, n, x, before.value, body); }
      assert (forall k :: 1 <= k <= n ==> SaysItem(g, k, Elements(body).value, x))
        <==> (forall k :: 1 <= k <= n - 1 ==> SaysItem(g, k, Elements(body).value, x))
             && SaysItem(g, n, Elements(body).value, x);
    }
  }

  lemma WalkStart(x: Session, body: bytes)
    requires Elements(body).Some?
    ensures Reached(x, 0, body) == Cursor(Blank(), None, body) && Along(Cursor(Blank(), None, body), 0, body)
  {
  }

  // ---------------------------------------------------------------- the structure

  /** The tags of the optional elements; [7], [11], [12] and [20] are not in use. */
  predicate Documented(tag: byte) {
    0xa3 <= tag <= 0xa6 || 0xa8 <= tag <= 0xaa || 0xad <= tag <= 0xb3 || 0xb5 <= tag <= 0xba
  }

  /** Behind the first seven elements there are only known ones, each at most once, and in the order of their tags. */
  predicate Ordered(es: seq<Element>) {
    && (forall i :: 7 <= i < |es| ==> Documented(es[i].tag))
    && forall i, j :: 7 <= i < j < |es| ==> es[i].tag < es[j].tag
  }

  /** The contents of the first element from the `i`-th on that has the tag. */
  function Lookup(es: seq<Element>, tag: byte, i: nat): Option<bytes>
    decreases |es| - i
  {
    if i >= |es| then None else if es[i].tag == tag then Some(es[i].contents) else Lookup(es, tag, i + 1)
  }

  lemma {:induction false} LookupFinds(es: seq<Element>, tag: byte, i: nat, k: nat)
    requires i <= k <= |es| && forall j :: i <= j < k ==> es[j].tag != tag
    ensures k < |es| && es[k].tag == tag ==> Lookup(es, tag, i) == Some(es[k].contents)
    ensures (forall j :: k <= j < |es| ==> es[j].tag != tag) ==> Lookup(es, tag, i) == None
    decreases |es| - i
  {
    if i < k { LookupFinds(es, tag, i + 1, k); }
    else if i < |es| && es[i].tag != tag && forall j :: k <= j < |es| ==> es[j].tag != tag {
      LookupFinds(es, tag, i + 1, k + 1);
    }
  }

  /** The tag of the item before; none before the seventh. */
  function TagBefore(n: nat): byte
    requires 7 <= n <= ITEMS + 1
  {
    if n == 7 then 0xa2 else Context(TagAt(n - 1))
  }

  /** Between the tags of two items there is none. */
  lemma TagsBetween(n: nat)
    requires 7 <= n <= ITEMS
    ensures TagBefore(n) < Context(TagAt(n)) == TagBefore(n + 1) && Documented(Context(TagAt(n)))
    ensures forall tag: byte :: Documented(tag) && tag > TagBefore(n) ==> tag >= Context(TagAt(n))
    ensures forall tag: byte :: Documented(tag) ==> 0xa2 < tag <= Context(TagAt(ITEMS))
  {
  }

  /** The elements taken so far are in order, and up to the tag of the last item. */
  predicate InOrder(es: seq<Element>, k: nat, last: byte)
    requires k <= |es|
  {
    && (forall i :: 7 <= i < k ==> Documented(es[i].tag) && es[i].tag <= last)
    && forall i, j :: 7 <= i < j < k ==> es[i].tag < es[j].tag
  }

  lemma {:induction false} TakesInOrder(es: seq<Element>, n: nat)
    requires 6 <= n <= ITEMS && |es| >= 7
    ensures 7 <= Taken(es, n) <= |es| && InOrder(es, Taken(es, n), TagBefore(n + 1))
    decreases n
  {
    hide Documented, TagAt, Content, LeafAt;
    if n > 6 {
      TakesInOrder(es, n - 1);
      TagsBetween(n);
      ItemTakes(es, n);
    }
  }

  /** In an ordered list an item takes its element wherever it is. */
  lemma {:induction false} TakesWhole(es: seq<Element>, n: nat)
    requires 6 <= n <= ITEMS && |es| >= 7 && Ordered(es)
    ensures 7 <= Taken(es, n) <= |es|
    ensures forall i :: Taken(es, n) <= i < |es| ==> es[i].tag > TagBefore(n + 1)
    decreases n
  {
    hide Documented, TagAt, Content, LeafAt;
    if n > 6 {
      TakesWhole(es, n - 1);
      TagsBetween(n);
      ItemTakes(es, n);
      var k := Taken(es, n - 1);
      forall i | Taken(es, n) <= i < |es| ensures es[i].tag > TagBefore(n + 1) {
        if k < |es| && es[k].tag != Context(TagAt(n)) { assert es[k].tag > Context(TagAt(n)); }
      }
    } else {
      TagsBetween(ITEMS);
    }
  }

  lemma OrderedIsTaken(es: seq<Element>)
    requires |es| >= 7
    ensures Taken(es, ITEMS) == |es| <==> Ordered(es)
  {
    hide Documented, TagAt, Taken;
    TakesInOrder(es, ITEMS);
    TagsBetween(ITEMS);
    if Ordered(es) {
      TakesWhole(es, ITEMS);
      assert Taken(es, ITEMS) < |es| ==> Documented(es[Taken(es, ITEMS)].tag);
    }
  }

  lemma ContentIsLookup(es: seq<Element>, n: nat)
    requires 7 <= n <= ITEMS && |es| >= 7 && Ordered(es)
    ensures Content(es, n) == Lookup(es, Context(TagAt(n)), 7)
  {
    hide Documented, TagAt, Taken, Content, Lookup;
    TakesInOrder(es, n - 1);
    TakesWhole(es, n - 1);
    TagsBetween(n);
    ItemTakes(es, n);
    var k := Taken(es, n - 1);
    LookupFinds(es, Context(TagAt(n)), 7, k);
  }

  // ---------------------------------------------------------------- the whole

  /** What the elements at tags [3] to [26] say of a session. */
  predicate Fields(g: Env, es: seq<Element>, x: Session) {
    forall n :: 7 <= n <= ITEMS ==> Says(g, n, Lookup(es, 0xa3, 7), Lookup(es, Context(TagAt(n)), 7), x)
  }

  /** The bytes are the structure for `x`. */
  predicate Describes(g: Env, s: bytes, x: Session) {
    match Get(SEQUENCE, s)
    case Bad => false
    case Good(body, behind) =>
      behind == [] && Elements(body).Some? && Structure(g, Elements(body).value, x)
  }

  predicate Structure(g: Env, es: seq<Element>, x: Session) {
    Ordered(es) && (forall n :: 1 <= n <= 6 ==> HeadSays(g, n, es, x)) && Fields(g, es, x)
  }

  ghost predicate StaysBroken(g: Env, n: nat, c: Cursor)
    requires 1 <= n <= ITEMS
  {
    var r := Step(g, ItemAt(n), c);
    r.Some? && Elements(c.rest).None? ==> Elements(r.value.rest).None? && r.value.peer != Some([])
  }

  lemma BrokenHead(g: Env, n: nat, c: Cursor)
    requires 1 <= n <= 6 && c.peer != Some([])
    ensures StaysBroken(g, n, c)
  {
    hide Get, Elements, FromBE, Uint;
    if Elements(c.rest).None? {
      BrokenBehind(INTEGER, c.rest);
      BrokenBehind(OCTETS, c.rest);
      BrokenBehind(Context(1), c.rest);
      BrokenBehind(Context(2), c.rest);
      if n == 1 && Get(INTEGER, c.rest).Good? { BrokenBehind(INTEGER, Get(INTEGER, c.rest).rest); }
    }
  }

  lemma BrokenItem(g: Env, n: nat, c: Cursor)
    requires 1 <= n <= ITEMS && c.peer != Some([])
    ensures StaysBroken(g, n, c)
  {
    if n <= 6 {
      BrokenHead(g, n, c);
    } else {
      if n <= 15 { TakeEarly(g, n, c); } else { TakeLate(g, n, c); }
      hide Step, GetOptional, Elements, Cut, ItemAt;
      if Elements(c.rest).None? { BrokenBehind(Context(TagAt(n)), c.rest); }
    }
  }

  lemma {:induction false} BrokenAll(g: Env, body: bytes, n: nat)
    requires n <= ITEMS && Elements(body).None?
    ensures var r := Upto(g, Cursor(Blank(), None, body), n);
            r.Some? ==> Elements(r.value.rest).None? && r.value.peer != Some([])
    decreases n
  {
    hide Step, Elements, ItemAt;
    if n > 0 {
      BrokenAll(g, body, n - 1);
      var before := Upto(g, Cursor(Blank(), None, body), n - 1);
      if before.Some? { BrokenItem(g, n, before.value); }
    }
  }

  /** What the items find in the order of the parser is what the elements say in any order. */
  lemma ItemsAreFields(g: Env, es: seq<Element>, x: Session)
    requires |es| >= 7 && Ordered(es)
    ensures (forall n :: 7 <= n <= ITEMS ==> SaysItem(g, n, es, x)) <==> Fields(g, es, x)
  {
    hide Says, Ordered, Content, Lookup;
    LeafTag();
    ContentIsLookup(es, 7);
    forall n | 7 <= n <= ITEMS
      ensures SaysItem(g, n, es, x) <==> Says(g, n, Lookup(es, 0xa3, 7), Lookup(es, Context(TagAt(n)), 7), x)
    {
      ContentIsLookup(es, n);
    }
  }

  lemma LeafTag()
    ensures Context(TagAt(7)) == 0xa3
  {
  }

  lemma ReachedEnd(x: Session, body: bytes)
    requires Elements(body).Some? && |Elements(body).value| >= 7
    ensures var c := Reached(x, ITEMS, body); c.ret == x && (c.rest == [] <==> Ordered(Elements(body).value))
  {
    hide Elements, Ordered, Taken, Behind;
    var es := Elements(body).value;
    OrderedIsTaken(es);
    TakesInOrder(es, ITEMS);
    BehindEnd(body, Taken(es, ITEMS));
  }

  lemma SeventhSays(g: Env, es: seq<Element>, x: Session)
    requires HeadSays(g, 6, es, x)
    ensures |es| >= 7
  {
  }

  lemma AlongEnd(c: Cursor, body: bytes)
    requires Elements(body).Some? && Along(c, ITEMS, body)
    ensures c == Reached(c.ret, ITEMS, body)
  {
  }

  /** The parser's result on the contents of the sequence. */
  lemma BodyDescribed(g: Env, body: bytes, x: Session)
    ensures (var r := Upto(g, Cursor(Blank(), None, body), ITEMS); r.Some? && r.value.ret == x && r.value.rest == [])
       <==> Elements(body).Some? && Structure(g, Elements(body).value, x)
  {
    hide Upto, Structure, SaysItem, Reached, Along;
    var r := Upto(g, Cursor(Blank(), None, body), ITEMS);
    if Elements(body).None? {
      BrokenAll(g, body, ITEMS);
      assert Elements([]).Some?;
    } else {
      hide Elements;
      var es := Elements(body).value;
      Walk(g, x, body, ITEMS);
      if r.Some? && r.value.ret == x { AlongEnd(r.value, body); }
      StructureItems(g, es, x);
      if |es| >= 7 { ReachedEnd(x, body); }
    }
  }

  lemma StructureItems(g: Env, es: seq<Element>, x: Session)
    ensures (forall n :: 1 <= n <= ITEMS ==> SaysItem(g, n, es, x)) ==> |es| >= 7
    ensures Structure(g, es, x) ==> |es| >= 7
    ensures Structure(g, es, x) <==> Ordered(es) && forall n :: 1 <= n <= ITEMS ==> SaysItem(g, n, es, x)
  {
    hide Ordered, HeadSays, Fields, Says;
    if Structure(g, es, x) { assert HeadSays(g, 6, es, x); }
    if forall n :: 1 <= n <= ITEMS ==> SaysItem(g, n, es, x) {
      forall n | 1 <= n <= 6 ensures HeadSays(g, n, es, x) { assert SaysItem(g, n, es, x); }
      assert HeadSays(g, 6, es, x);
    }
    if HeadSays(g, 6, es, x) {
      SeventhSays(g, es, x);
      if Ordered(es) { ItemsAreFields(g, es, x); }
    }
  }

  /** The parser succeeds exactly on the structure for a session, and returns that session. */
  lemma ParsesStructure(g: Env, s: bytes, x: Session)
    ensures FromBytes(g, s) == Some(x) <==> Describes(g, s, x)
  {
    hide Upto, Structure, Elements, Get;
    if Get(SEQUENCE, s).Good? { BodyDescribed(g, Get(SEQUENCE, s).value, x); }
  }

  // ---------------------------------------------------------------- what follows

  lemma HeadTyped(g: Env, es: seq<Element>, x: Session)
    requires Structure(g, es, x)
    ensures x.version <= U16 && x.cipher <= U16 && g.knownVersion(x.version) && g.knownCipher(x.cipher)
    ensures |x.sessionId| <= MAX_SESSION_ID && |x.masterKey| <= MAX_MASTER_KEY
    ensures x.time < LIMIT64 && x.timeout <= U32
  {
    hide Ordered, Fields, Get, FromBE, ToBE;
    assert HeadSays(g, 1, es, x) && HeadSays(g, 2, es, x) && HeadSays(g, 3, es, x);
    assert HeadSays(g, 4, es, x) && HeadSays(g, 5, es, x) && HeadSays(g, 6, es, x);
  }

  lemma FieldsTyped(g: Env, es: seq<Element>, x: Session)
    requires Structure(g, es, x)
    ensures |x.sidCtx| <= MAX_SID_CTX && 0 <= x.verifyResult <= LONG_MAX && (x.psk.Some? ==> 0 !in x.psk.value)
    ensures x.lifetimeHint <= U32 && (x.sha256.Some? ==> |x.sha256.value| == SHA256_SIZE)
    ensures |x.handshakeHash| <= MAX_MD_SIZE && x.group <= U16 && (x.ageAdd.Some? ==> x.ageAdd.value <= U32)
    ensures x.sigalg <= U16 && x.maxEarlyData <= U32 && x.authTimeout <= U32
    ensures x.ticket != Some([]) && x.alpn != Some([])
  {
    hide Ordered, HeadSays, Lookup, TagAt, SaysOctets, SaysUint, SaysBool, SaysCerts, ToBE, Get;
    FieldAt(g, es, x, 8);
    FieldAt(g, es, x, 9);
    FieldAt(g, es, x, 11);
    FieldAt(g, es, x, 12);
    FieldAt(g, es, x, 13);
    FieldAt(g, es, x, 14);
    FieldAt(g, es, x, 15);
    FieldAt(g, es, x, 19);
    FieldAt(g, es, x, 21);
    FieldAt(g, es, x, 23);
    FieldAt(g, es, x, 24);
    FieldAt(g, es, x, 25);
    FieldAt(g, es, x, 26);
  }

  lemma FieldAt(g: Env, es: seq<Element>, x: Session, n: nat)
    requires Structure(g, es, x) && 7 <= n <= ITEMS
    ensures Says(g, n, Lookup(es, 0xa3, 7), Lookup(es, Context(TagAt(n)), 7), x)
  {
    hide Says, Lookup, Ordered, HeadSays;
  }

  lemma CertsTyped(g: Env, es: seq<Element>, x: Session)
    requires Structure(g, es, x)
    ensures Separable(x.certs) && g.cacheable(x.certs)
  {
    FieldAt(g, es, x, 20);
    hide Structure, Lookup, Concat, Single;
  }

  /** What the parser returns has its C types and is acceptable, but for certificates that are not written. */
  lemma ParsedTyped(g: Env, s: bytes)
    requires FromBytes(g, s).Some?
    ensures var x := FromBytes(g, s).value;
            && Typed(x) && (x.sha256.None? || x.certs == [] ==> Acceptable(g, x))
            && (x.sha256.None? || x.certs == [] ==> Norm(x, false) == x)
  {
    var x := FromBytes(g, s).value;
    ParsesStructure(g, s, x);
    var es := Elements(Get(SEQUENCE, s).value).value;
    hide FromBytes, Structure, Elements, Get, Separable;
    HeadTyped(g, es, x);
    FieldsTyped(g, es, x);
    CertsTyped(g, es, x);
  }

  /** What the parser returns can be written and read again without change. */
  lemma Reparses(g: Env, s: bytes)
    requires FromBytes(g, s).Some? && Serialize(FromBytes(g, s).value, false).Some?
    requires FromBytes(g, s).value.sha256.None? || FromBytes(g, s).value.certs == []
    ensures FromBytes(g, Serialize(FromBytes(g, s).value, false).value) == FromBytes(g, s)
  {
    hide FromBytes, Serialize, Typed, Acceptable, Norm;
    ParsedTyped(g, s);
    RoundTrip(g, FromBytes(g, s).value, false);
  }

  /** What is written for an acceptable session is the structure for it. */
  lemma WritesStructure(g: Env, x: Session, forTicket: bool)
    requires Typed(x) && Acceptable(g, x) && Serialize(x, forTicket).Some?
    ensures Describes(g, Serialize(x, forTicket).value, Norm(x, forTicket))
  {
    hide FromBytes, Serialize, Typed, Acceptable, Norm, Describes;
    RoundTrip(g, x, forTicket);
    ParsesStructure(g, Serialize(x, forTicket).value, Norm(x, forTicket));
  }
}
