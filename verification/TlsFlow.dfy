/**
The message flows of section 7.3 of RFC 5246, Figures 1 and 2, as a list of places that a handshake fills in
order, and what an endpoint's log looks like from there: who said what, and when each side took its new key
into use.  The flow does not depend on which endpoint looks at it.
*/
module TlsFlow {
  import opened Wire
  import opened TlsHandshake

  datatype Party = TheClient | TheServer

  function Other(a: Party): Party {
    if a.TheClient? then TheServer else TheClient
  }

  datatype Step = Says(who: Party, kind: Kind) | NewKey(who: Party)

  /** What is settled on the way: it decides which places are filled. */
  datatype Shape = Shape(
    resumed: bool, cipher: Cipher, status: bool,
    requested: bool,                // a client certificate was asked for
    proof: bool,                    // the client has one
    nextProto: bool, channelId: bool)

  function Places(p: Shape): nat {
    if p.resumed then 9 else 17
  }

  /** Figure 1: the full handshake. */
  function FullPlace(n: nat): Step {
    match n
    case 0 => Says(TheClient, ClientHello)
    case 1 => Says(TheServer, ServerHello)
    case 2 => Says(TheServer, Certificate)
    case 3 => Says(TheServer, CertificateStatus)
    case 4 => Says(TheServer, ServerKeyExchange)
    case 5 => Says(TheServer, CertificateRequest)
    case 6 => Says(TheServer, ServerHelloDone)
    case 7 => Says(TheClient, Certificate)
    case 8 => Says(TheClient, ClientKeyExchange)
    case 9 => Says(TheClient, CertificateVerify)
    case 10 => NewKey(TheClient)
    case 11 => Says(TheClient, NextProto)
    case 12 => Says(TheClient, ChannelId)
    case 13 => Says(TheClient, Finished)
    case 14 => Says(TheServer, NewSessionTicket)
    case 15 => NewKey(TheServer)
    case _ => Says(TheServer, Finished)
  }

  /** Figure 2: the abbreviated handshake. */
  function ResumedPlace(n: nat): Step {
    match n
    case 0 => Says(TheClient, ClientHello)
    case 1 => Says(TheServer, ServerHello)
    case 2 => Says(TheServer, NewSessionTicket)
    case 3 => NewKey(TheServer)
    case 4 => Says(TheServer, Finished)
    case 5 => NewKey(TheClient)
    case 6 => Says(TheClient, NextProto)
    case 7 => Says(TheClient, ChannelId)
    case _ => Says(TheClient, Finished)
  }

  function Place(p: Shape, n: nat): Step {
    if p.resumed then ResumedPlace(n) else FullPlace(n)
  }

  /** Whether a step is taken in a handshake of this shape. */
  datatype Need = Never | Optional | Always

  function When(b: bool): Need {
    if b then Always else Never
  }

  function NeedOf(p: Shape, s: Step): Need {
    match s
    case NewKey(_) => Always
    case Says(who, kind) =>
      match kind
      case Certificate => When(p.cipher.certAuth && (who.TheServer? || p.requested))
      case CertificateStatus => if p.cipher.certAuth && p.status then Optional else Never
      case ServerKeyExchange =>
        if p.cipher.kx.Ecdhe? then Always else if p.cipher.kx.Rsa? && !p.cipher.psk then Never else Optional
      case CertificateRequest => When(p.cipher.certAuth && p.requested)
      case CertificateVerify => When(p.cipher.certAuth && p.requested && p.proof)
      case NextProto => When(p.nextProto)
      case ChannelId => When(p.channelId)
      case NewSessionTicket => Optional
      case _ => Always
  }

  function NeedAt(p: Shape, n: nat): Need {
    NeedOf(p, Place(p, n))
  }

  /** The steps `t` fill the first `n` places of the flow, leaving out none that is needed. */
  predicate Follows(p: Shape, t: seq<Step>, n: nat) {
    if n == 0 then t == []
    else
      || (!NeedAt(p, n - 1).Always? && Follows(p, t, n - 1))
      || (!NeedAt(p, n - 1).Never? && t != [] && t[|t| - 1] == Place(p, n - 1) && Follows(p, t[..|t| - 1], n - 1))
  }

  predicate Complete(p: Shape, t: seq<Step>) {
    Follows(p, t, Places(p))
  }

  // ---------------------------------------------------------------- the flow, said without walking it

  /** Where a step belongs; `Places` if nowhere. */
  function Rank(p: Shape, s: Step): nat {
    if p.resumed then
      match s
      case NewKey(who) => if who.TheServer? then 3 else 5
      case Says(who, kind) =>
        match kind
        case ClientHello => if who.TheClient? then 0 else 9
        case ServerHello => if who.TheServer? then 1 else 9
        case NewSessionTicket => if who.TheServer? then 2 else 9
        case Finished => if who.TheServer? then 4 else 8
        case NextProto => if who.TheClient? then 6 else 9
        case ChannelId => if who.TheClient? then 7 else 9
        case _ => 9
    else
      match s
      case NewKey(who) => if who.TheClient? then 10 else 15
      case Says(who, kind) =>
        match kind
        case ClientHello => if who.TheClient? then 0 else 17
        case ServerHello => if who.TheServer? then 1 else 17
        case Certificate => if who.TheServer? then 2 else 7
        case CertificateStatus => if who.TheServer? then 3 else 17
        case ServerKeyExchange => if who.TheServer? then 4 else 17
        case CertificateRequest => if who.TheServer? then 5 else 17
        case ServerHelloDone => if who.TheServer? then 6 else 17
        case ClientKeyExchange => if who.TheClient? then 8 else 17
        case CertificateVerify => if who.TheClient? then 9 else 17
        case NextProto => if who.TheClient? then 11 else 17
        case ChannelId => if who.TheClient? then 12 else 17
        case Finished => if who.TheClient? then 13 else 16
        case NewSessionTicket => if who.TheServer? then 14 else 17
        case _ => 17
  }

  lemma RankOfPlace(p: Shape, n: nat)
    requires n < Places(p)
    ensures Rank(p, Place(p, n)) == n
  {
  }

  /** Every step is one of the flow's and allowed, each comes after those of earlier places, none is missing. */
  ghost predicate InOrder(p: Shape, t: seq<Step>, n: nat)
    requires n <= Places(p)
  {
    && (forall i :: 0 <= i < |t| ==> Rank(p, t[i]) < n && Place(p, Rank(p, t[i])) == t[i] && !NeedOf(p, t[i]).Never?)
    && (forall i, j :: 0 <= i < j < |t| ==> Rank(p, t[i]) < Rank(p, t[j]))
    && (forall r: nat :: r < n && NeedAt(p, r).Always? ==> Place(p, r) in t)
  }

  lemma {:induction false} FollowsInOrder(p: Shape, t: seq<Step>, n: nat)
    requires n <= Places(p)
    ensures Follows(p, t, n) <==> InOrder(p, t, n)
  {
    hide Rank, Place, NeedOf;
    if n == 0 {
      assert t != [] ==> Rank(p, t[0]) >= 0;
    } else {
      RankOfPlace(p, n - 1);
      FollowsInOrder(p, t, n - 1);
      if t != [] { FollowsInOrder(p, t[..|t| - 1], n - 1); }
      FillInOrder(p, t, n);
    }
  }

  /** The last place was left out, or the last step filled it. */
  lemma FillInOrder(p: Shape, t: seq<Step>, n: nat)
    requires 0 < n <= Places(p)
    ensures InOrder(p, t, n) <==>
              || (!NeedAt(p, n - 1).Always? && InOrder(p, t, n - 1))
              || (!NeedAt(p, n - 1).Never? && t != [] && t[|t| - 1] == Place(p, n - 1)
                  && InOrder(p, t[..|t| - 1], n - 1))
  {
    hide Rank, Place, NeedOf;
    RankOfPlace(p, n - 1);
    if InOrder(p, t, n) { LastInOrder(p, t, n); }
    if t != [] && t[|t| - 1] == Place(p, n - 1) && !NeedAt(p, n - 1).Never? && InOrder(p, t[..|t| - 1], n - 1) {
      MoreInOrder(p, t[..|t| - 1], n);
      assert t == t[..|t| - 1] + [Place(p, n - 1)];
    }
  }

  lemma MoreInOrder(p: Shape, u: seq<Step>, n: nat)
    requires 0 < n <= Places(p) && !NeedAt(p, n - 1).Never? && InOrder(p, u, n - 1)
    ensures InOrder(p, u + [Place(p, n - 1)], n)
  {
    hide Rank, Place, NeedOf;
    RankOfPlace(p, n - 1);
    forall r: nat | r < n && NeedAt(p, r).Always? ensures Place(p, r) in u + [Place(p, n - 1)] {
      if r < n - 1 { assert Place(p, r) in u; }
    }
  }

  lemma LastInOrder(p: Shape, t: seq<Step>, n: nat)
    requires 0 < n <= Places(p) && InOrder(p, t, n)
    ensures if t != [] && t[|t| - 1] == Place(p, n - 1) then !NeedAt(p, n - 1).Never? && InOrder(p, t[..|t| - 1], n - 1)
            else !NeedAt(p, n - 1).Always? && InOrder(p, t, n - 1)
  {
    hide Rank, Place, NeedOf;
    RankOfPlace(p, n - 1);
    if t != [] && t[|t| - 1] == Place(p, n - 1) {
      var u := t[..|t| - 1];
      forall r: nat | r < n - 1 && NeedAt(p, r).Always? ensures Place(p, r) in u { RankOfPlace(p, r); }
    } else {
      forall i | 0 <= i < |t| ensures Rank(p, t[i]) < n - 1 {
        if Rank(p, t[i]) == n - 1 { assert false; }
      }
    }
  }

  // ---------------------------------------------------------------- what a log says of the flow

  function StepOf(me: Party, e: Event): Option<Step> {
    match e
    case Sent(m) => Some(Says(me, m.kind))
    case Took(m) => Some(Says(Other(me), m.kind))
    case WriteKey => Some(NewKey(me))
    case ReadKey => Some(NewKey(Other(me)))
    case _ => None
  }

  function TraceNext(me: Party, before: seq<Step>, e: Event): seq<Step> {
    if e.Restart? then []
    else if StepOf(me, e).Some? then before + [StepOf(me, e).value]
    else before
  }

  /** The steps `me` took part in, from the last restart of the transcript on. */
  function Trace(me: Party, log: seq<Event>): seq<Step> {
    if log == [] then [] else TraceNext(me, Trace(me, log[..|log| - 1]), log[|log| - 1])
  }

  /** What one more event does to a log that has filled `n` places. */
  lemma Turn(p: Shape, me: Party, log: seq<Event>, e: Event, n: nat)
    requires Follows(p, Trace(me, log), n)
    ensures StepOf(me, e) == Some(Place(p, n)) && !NeedAt(p, n).Never? ==> Follows(p, Trace(me, log + [e]), n + 1)
    ensures StepOf(me, e).None? && !e.Restart? ==> Follows(p, Trace(me, log + [e]), n)
  {
    assert (log + [e])[..|log|] == log;
    if StepOf(me, e).Some? {
      var t := Trace(me, log);
      assert (t + [StepOf(me, e).value])[..|t|] == t;
    }
  }

  lemma Leave(p: Shape, t: seq<Step>, n: nat)
    requires Follows(p, t, n) && !NeedAt(p, n).Always?
    ensures Follows(p, t, n + 1)
  {
  }

  /** A trace that fills every place ends with the step of the last one. */
  lemma LastStep(p: Shape, t: seq<Step>)
    requires Complete(p, t)
    ensures t != [] && t[|t| - 1] == Says(if p.resumed then TheClient else TheServer, Finished)
  {
    assert NeedAt(p, Places(p) - 1).Always?;
  }

  /** The event of the last step of a trace; after it the transcript did not grow. */
  lemma {:induction false} LastEvent(me: Party, log: seq<Event>) returns (k: nat)
    requires Trace(me, log) != []
    ensures k < |log| && StepOf(me, log[k]) == Some(Trace(me, log)[|Trace(me, log)| - 1])
    ensures Hashed(log) == Hashed(log[..k + 1])
  {
    var n := |log| - 1;
    Last(log);
    if StepOf(me, log[n]).Some? {
      k := n;
      assert log[..k + 1] == log;
    } else {
      k := LastEvent(me, log[..n]);
      assert log[..n][..k + 1] == log[..k + 1];
    }
  }
}
