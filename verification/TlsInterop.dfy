/** A client and a server that can agree on a handshake both complete it, and agree on all of it. */
module TlsInterop {
  import opened Wire
  import opened TlsHandshake
  import opened TlsFlow
  import opened TlsScript
  import TlsClient
  import TlsServer
  import TlsClientComplete
  import TlsServerComplete

  /** Records that bring the messages before and behind the ChangeCipherSpec. */
  ghost predicate Brings(front: seq<Record>, behind: seq<Record>, before: seq<Message>, after: seq<Message>) {
    Full(front) && Full(behind) && Arriving(front) == before && Arriving(behind) == after
  }

  function Inbox(front: seq<Record>, behind: seq<Record>): seq<Record> {
    front + [ChangeCipherSpec] + behind
  }

  /** The client is done after `n` turns, and the script is its transcript. */
  ghost predicate ClientDone(g: TlsClient.Config, s: Script, inbox: seq<Record>, answers: seq<Answer>,
                             flushes: seq<bool>, n: nat)
  {
    var c := TlsClient.Run(g, TlsClient.New(g, inbox, answers, flushes), n);
    c.state.Done? && Hashed(c.io.log) == s.Whole()
  }

  ghost predicate ServerDone(h: TlsServer.Config, s: Script, inbox: seq<Record>, answers: seq<Answer>,
                             flushes: seq<bool>, n: nat)
  {
    var d := TlsServer.Run(h, TlsServer.New(h, inbox, answers, flushes), n);
    d.state.Done? && Hashed(d.io.log) == s.Whole()
  }

  lemma ClientSide(g: TlsClient.Config, s: Script, front: seq<Record>, behind: seq<Record>, answers: seq<Answer>,
                   flushes: seq<bool>)
    requires TlsClientComplete.InOrder(g, None, s) && Willing(answers, 4)
    requires var key := if s.resumed then 3 else 15;
             Brings(front, behind, s.Spoken(TheServer, 1, key), s.Spoken(TheServer, key, |s.parts|))
    ensures exists n :: ClientDone(g, s, Inbox(front, behind), answers, flushes, n)
  {
    LastSpoken(g, s);
    assert [] + TlsClientComplete.Due(s, 1) == TlsClientComplete.Due(s, 1);
    hide TlsClientComplete.InOrder, TlsClient.Run, Hashed, Arriving, Full, Script.Spoken, Script.Upto, TlsClient.New;
    TlsClientComplete.Completes(g, None, s, front, behind, answers, flushes);
    var n: nat :| var c := TlsClient.Run(g, TlsClient.New(g, Inbox(front, behind), answers, flushes), n);
                  c.state.Done? && Hashed(c.io.log) == s.Whole();
    assert ClientDone(g, s, Inbox(front, behind), answers, flushes, n);
  }

  lemma ServerSide(h: TlsServer.Config, s: Script, front: seq<Record>, behind: seq<Record>, answers: seq<Answer>,
                   flushes: seq<bool>)
    requires TlsServerComplete.InOrder(h, s) && Willing(answers, 6)
    requires var key := if s.resumed then 5 else 10;
             Brings(front, behind, s.Spoken(TheClient, 0, key), s.Spoken(TheClient, key, |s.parts|))
    ensures exists n :: ServerDone(h, s, Inbox(front, behind), answers, flushes, n)
  {
    hide TlsServerComplete.InOrder, TlsServer.Run, Hashed, Arriving, Full, Script.Spoken, Script.Upto, TlsServer.New;
    TlsServerComplete.Completes(h, s, front, behind, answers, flushes);
    var n: nat :| var d := TlsServer.Run(h, TlsServer.New(h, Inbox(front, behind), answers, flushes), n);
                  d.state.Done? && Hashed(d.io.log) == s.Whole();
    assert ServerDone(h, s, Inbox(front, behind), answers, flushes, n);
  }

  /**
  If a script is in order for a client and for a server, and each gets what the script lets the other one say, in any
  records, then both are done after some turns, and the transcript of both is the script.
  */
  lemma BothComplete(g: TlsClient.Config, h: TlsServer.Config, s: Script,
                     toClient: seq<Record>, lastToClient: seq<Record>, toServer: seq<Record>, lastToServer: seq<Record>,
                     answers: seq<Answer>, answers': seq<Answer>, flushes: seq<bool>, flushes': seq<bool>)
    requires TlsClientComplete.InOrder(g, None, s) && TlsServerComplete.InOrder(h, s)
    requires Willing(answers, 4) && Willing(answers', 6)
    requires var key := if s.resumed then 3 else 15;
             Brings(toClient, lastToClient, s.Spoken(TheServer, 1, key), s.Spoken(TheServer, key, |s.parts|))
    requires var key := if s.resumed then 5 else 10;
             Brings(toServer, lastToServer, s.Spoken(TheClient, 0, key), s.Spoken(TheClient, key, |s.parts|))
    ensures exists n, m ::
              && ClientDone(g, s, Inbox(toClient, lastToClient), answers, flushes, n)
              && ServerDone(h, s, Inbox(toServer, lastToServer), answers', flushes', m)
  {
    hide *;
    ClientSide(g, s, toClient, lastToClient, answers, flushes);
    ServerSide(h, s, toServer, lastToServer, answers', flushes');
  }

  /** Behind its new key the server says nothing but Finished. */
  lemma LastSpoken(g: TlsClient.Config, s: Script)
    requires TlsClientComplete.InOrder(g, None, s)
    ensures s.Valid()
    ensures s.Spoken(TheServer, if s.resumed then 3 else 15, |s.parts|) == s.parts[if s.resumed then 4 else 16]
  {
    hide Script.Upto, TlsClientComplete.Presents, TlsClientComplete.Answers, TlsClientComplete.Seals;
    if s.resumed {
      KeyEmpty(g, s, 2);
      SpokenNext(s, 3);
      SpokenNext(s, 4);
      SpokenNext(s, 5);
      SpokenNext(s, 6);
      SpokenNext(s, 7);
      SpokenNext(s, 8);
    } else {
      KeyEmpty(g, s, 14);
      SpokenNext(s, 15);
      SpokenNext(s, 16);
    }
  }

  lemma KeyEmpty(g: TlsClient.Config, s: Script, k: nat)
    requires TlsClientComplete.InOrder(g, None, s) && k == (if s.resumed then 2 else 14)
    ensures s.Valid() && s.parts[k + 1] == []
  {
    hide Script.Upto;
  }

  lemma SpokenNext(s: Script, k: nat)
    requires s.Valid() && k < |s.parts|
    ensures s.Spoken(TheServer, k, |s.parts|)
         == (if s.Who(k).TheServer? then s.parts[k] else []) + s.Spoken(TheServer, k + 1, |s.parts|)
    ensures s.Spoken(TheServer, |s.parts|, |s.parts|) == []
  {
  }
}
