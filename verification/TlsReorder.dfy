/** What becomes of a ChangeCipherSpec that comes too early, or of messages that come in front of one that is due. */
module TlsReorder {
  import opened TlsHandshake

  function Resolves(io: Io, n: nat): Io
    decreases n
  {
    if n == 0 then io else Resolves(Resolve(io), n - 1)
  }

  ghost predicate OnlyMessages(records: seq<Record>) {
    forall i :: 0 <= i < |records| ==> records[i].Handshake?
  }

  /** DTLS: messages that come in front of an awaited ChangeCipherSpec are kept for later. */
  lemma {:induction false} MessagesFirst(io: Io, messages: seq<Record>, rest: seq<Record>)
    requires io.wait.ReadChangeCipherSpec? && io.early.Awaitable? && OnlyMessages(messages)
    requires io.inbox == messages + [ChangeCipherSpec] + rest
    ensures Resolves(io, |messages| + 1) == io.(wait := Go, inbox := rest, pending := io.pending + Arriving(messages))
    decreases messages
  {
    if messages == [] {
      assert io.inbox[1..] == rest;
      assert Resolves(io, 1) == Resolves(Resolve(io), 0);
    } else {
      assert io.inbox[1..] == messages[1..] + [ChangeCipherSpec] + rest;
      MessagesFirst(Resolve(io), messages[1..], rest);
      assert io.pending + messages[0].msgs + Arriving(messages[1..]) == io.pending + Arriving(messages);
    }
  }

  /** DTLS: a ChangeCipherSpec that comes in front of an awaited message is used as soon as it is due, once. */
  lemma KeyFirst(io: Io, rest: seq<Record>)
    requires io.wait.ReadMessage? && io.early.Awaitable? && io.inbox == [ChangeCipherSpec] + rest
    ensures var kept := Resolve(io);
            && kept == io.(wait := Go, inbox := rest, early := Kept)
            && forall later: Io :: later.early.Kept? && later.wait.ReadChangeCipherSpec? ==>
                 Resolve(later) == later.(wait := Go, early := Awaitable)
  {
  }

  /** TLS: both are refused; and so is any change of keys while something is left over, in DTLS too. */
  lemma Refuses(io: Io)
    ensures io.early.Refused? && io.inbox != [] && io.wait.ReadMessage? && io.inbox[0].ChangeCipherSpec? ==>
              Resolve(io) == io.(wait := Failed)
    ensures io.early.Refused? && io.inbox != [] && io.wait.ReadChangeCipherSpec? && io.inbox[0].Handshake? ==>
              Resolve(io) == io.(wait := Failed)
    ensures ChangeReadKey(io)
         == if io.pending != [] || io.early.Kept? then io.(wait := Failed)
            else io.(early := Refused, log := io.log + [ReadKey])
  {
  }
}
