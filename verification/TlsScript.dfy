/**
Handshakes written out: what is said at each place of the flow.  For either side a script tells what it will say,
and what it must hear; with the messages of the other side on their way, each side gets to the end of it.
*/
module TlsScript {
  import opened Wire
  import opened TlsHandshake
  import opened TlsFlow

  /** At most one message for each place of the full or the abbreviated flow. */
  datatype Script = Script(resumed: bool, parts: seq<seq<Message>>) {
    predicate Valid() {
      |parts| == (if resumed then 9 else 17) && forall k :: 0 <= k < |parts| ==> |parts[k]| <= 1
    }

    /** The transcript when `k` places are done. */
    function Upto(k: nat): seq<Message>
      requires k <= |parts|
    {
      if k == 0 then [] else Upto(k - 1) + parts[k - 1]
    }

    function Whole(): seq<Message> {
      Upto(|parts|)
    }

    function Who(k: nat): Party {
      (if resumed then ResumedPlace(k) else FullPlace(k)).who
    }

    /** What `who` says at the places from `k` to `end`. */
    function Spoken(who: Party, k: nat, end: nat): seq<Message>
      requires end <= |parts|
      decreases end - k
    {
      if k >= end then [] else (if Who(k) == who then parts[k] else []) + Spoken(who, k + 1, end)
    }
  }

  predicate IsOne(part: seq<Message>, kind: Kind) {
    |part| == 1 && part[0].kind == kind
  }

  // ---------------------------------------------------------------- messages on their way

  /** Records of handshake messages, none of them empty. */
  ghost predicate Full(records: seq<Record>) {
    forall i :: 0 <= i < |records| ==> records[i].Handshake? && records[i].msgs != []
  }

  /** Messages `due`, at hand or to come, then a ChangeCipherSpec, and then `behind`. */
  ghost predicate Coming(io: Io, due: seq<Message>, behind: seq<Record>) {
    var n := |io.inbox| - |behind| - 1;
    && n >= 0 && io.inbox[n].ChangeCipherSpec? && io.inbox[n + 1..] == behind && Full(io.inbox[..n])
    && io.pending + Arriving(io.inbox[..n]) == due && !io.early.Kept?
  }

  /** Messages `due`, at hand or to come, and nothing else. */
  ghost predicate Ending(io: Io, due: seq<Message>) {
    Full(io.inbox) && io.pending + Arriving(io.inbox) == due && !io.early.Kept?
  }

  /** What is coming does not depend on anything else. */
  lemma SameComing(io: Io, next: Io, due: seq<Message>, behind: seq<Record>)
    requires next.inbox == io.inbox && next.pending == io.pending && next.early == io.early
    ensures Coming(io, due, behind) ==> Coming(next, due, behind)
    ensures Ending(io, due) ==> Ending(next, due)
  {
  }

  lemma ArrivingFull(records: seq<Record>)
    requires Full(records)
    ensures Arriving(records) == [] <==> records == []
    ensures records != [] ==> Arriving(records) == records[0].msgs + Arriving(records[1..])
  {
  }

  /** The message at hand is the one that is due, and taking it leaves the others. */
  lemma ComingNext(io: Io, due: seq<Message>, behind: seq<Record>)
    requires Coming(io, due, behind) && io.pending != []
    ensures due != [] && io.pending[0] == due[0]
    ensures forall next: Io :: next.inbox == io.inbox && next.pending == io.pending[1..] && next.early == io.early ==>
              Coming(next, due[1..], behind)
  {
    var rest := Arriving(io.inbox[..|io.inbox| - |behind| - 1]);
    assert (io.pending + rest)[1..] == io.pending[1..] + rest;
  }

  lemma EndingNext(io: Io, due: seq<Message>)
    requires Ending(io, due) && io.pending != []
    ensures due != [] && io.pending[0] == due[0]
    ensures forall next: Io :: next.inbox == io.inbox && next.pending == io.pending[1..] && next.early == io.early ==>
              Ending(next, due[1..])
  {
    assert (io.pending + Arriving(io.inbox))[1..] == io.pending[1..] + Arriving(io.inbox);
  }

  /** A message that is due and not at hand is in the next record. */
  lemma ComingFetch(io: Io, due: seq<Message>, behind: seq<Record>)
    requires Coming(io, due, behind) && io.pending == [] && due != [] && io.wait.ReadMessage?
    ensures Resolve(io) == io.(wait := Go, inbox := io.inbox[1..], pending := io.inbox[0].msgs)
    ensures io.inbox != [] && Coming(Resolve(io), due, behind)
  {
    var n := |io.inbox| - |behind| - 1;
    var front := io.inbox[..n];
    ArrivingFull(front);
    assert [] + Arriving(front) == Arriving(front);
    assert front[0] == io.inbox[0];
    assert [] + io.inbox[0].msgs == io.inbox[0].msgs;
    assert io.inbox[1..][..n - 1] == front[1..];
  }

  lemma EndingFetch(io: Io, due: seq<Message>)
    requires Ending(io, due) && io.pending == [] && due != [] && io.wait.ReadMessage?
    ensures Resolve(io) == io.(wait := Go, inbox := io.inbox[1..], pending := io.inbox[0].msgs)
    ensures io.inbox != [] && Ending(Resolve(io), due)
  {
    ArrivingFull(io.inbox);
    assert [] + Arriving(io.inbox) == Arriving(io.inbox);
    assert [] + io.inbox[0].msgs == io.inbox[0].msgs;
  }

  /** With no message left the ChangeCipherSpec is next. */
  lemma ComingKey(io: Io, behind: seq<Record>)
    requires Coming(io, [], behind) && Full(behind) && io.wait.ReadChangeCipherSpec?
    ensures io.pending == [] && io.inbox == [ChangeCipherSpec] + behind
    ensures Resolve(io) == io.(wait := Go, inbox := behind)
    ensures Ending(Resolve(io), Arriving(behind))
  {
    var n := |io.inbox| - |behind| - 1;
    ArrivingFull(io.inbox[..n]);
    assert io.inbox[..n] == [] && n == 0;
    assert io.inbox == [io.inbox[0]] + io.inbox[1..];
    assert [] + Arriving(behind) == Arriving(behind);
  }

  /** `n` calls of the application will be answered with yes. */
  predicate Willing(answers: seq<Answer>, n: nat) {
    n <= |answers| && forall i :: 0 <= i < n ==> answers[i].Accept?
  }

  lemma WillingNext(io: Io, op: Operation, n: nat)
    requires Willing(io.answers, n) && n > 0
    ensures NextAnswer(io) == Accept
    ensures Willing(Asked(io, op).answers, n - 1) && Asked(io, op) == io.(answers := io.answers[1..],
                                                                          keyOp := Asked(io, op).keyOp)
  {
  }

  lemma WillingLess(answers: seq<Answer>, m: nat, n: nat)
    requires Willing(answers, m) && n <= m
    ensures Willing(answers, n)
  {
  }

  // ---------------------------------------------------------------- single events

  lemma UptoNext(s: Script, k: nat)
    requires s.Valid() && k < |s.parts|
    ensures s.Upto(k + 1) == s.Upto(k) + s.parts[k]
  {
  }

  lemma Utters(io: Io, s: Script, k: nat, m: Message)
    requires s.Valid() && k < |s.parts| && s.parts[k] == [m]
    ensures s.Upto(k + 1) == s.Upto(k) + [m]
    ensures Hashed(io.log + [Sent(m)]) == Hashed(io.log) + [m]
  {
    hide Hashed;
    UptoNext(s, k);
    Snoc(io.log, Sent(m));
  }

  /** Sending leaves what is to come, and what will be answered. */
  lemma EmitAside(io: Io, m: Message, due: seq<Message>, behind: seq<Record>)
    ensures var b := Emit(io, m);
            && b.inbox == io.inbox && b.flushes == io.flushes && b.answers == io.answers && b.pending == io.pending
            && (Coming(io, due, behind) ==>
                  forall w :: Coming(b.(wait := w), due, behind) && Coming(FreeBuffer(b).(wait := w), due, behind))
            && (Ending(io, due) ==> forall w :: Ending(b.(wait := w), due))
  {
  }

  lemma TakeAlso(io: Io)
    ensures io.pending != [] ==>
              var b := Take(io);
              && b.log == io.log + [Took(io.pending[0])] && b.pending == io.pending[1..] && b.wait == io.wait
              && b.inbox == io.inbox && b.flushes == io.flushes && b.answers == io.answers && b.early == io.early
  {
  }

  /** What comes behind the message at hand is what comes when it is taken. */
  lemma TakenComing(io: Io, due: seq<Message>, behind: seq<Record>)
    requires io.pending != []
    requires forall next: Io :: next.inbox == io.inbox && next.pending == io.pending[1..] && next.early == io.early ==>
               Coming(next, due, behind)
    ensures forall w :: && Coming(Take(io).(wait := w), due, behind)
                        && Coming(FreeBuffer(Take(io)).(wait := w), due, behind)
  {
    hide Coming, Take;
    TakeAlso(io);
  }

  lemma FreeWait(io: Io)
    ensures FreeBuffer(io) == FreeBuffer(io).(wait := io.wait) && io == io.(wait := io.wait)
  {
  }

  /** The application is asked, and answers with yes. */
  lemma AskedYes(io: Io, op: Operation, n: nat, due: seq<Message>, behind: seq<Record>)
    requires Willing(io.answers, n + 1)
    ensures var a := Asked(io, op);
            && NextAnswer(io).Accept? && Willing(a.answers, n) && a.log == io.log && a.wait == io.wait
            && a.inbox == io.inbox && a.flushes == io.flushes && a.pending == io.pending && a.early == io.early
            && a.buffer == io.buffer && a.digest == io.digest
            && (Coming(io, due, behind) ==> forall w, log :: Coming(a.(wait := w, log := log), due, behind))
            && (Ending(io, due) ==> Ending(a, due))
  {
  }

  lemma EmitWait(io: Io, m: Message)
    ensures Emit(io, m).wait == io.wait && Emit(io, m).early == io.early
    ensures Emit(io, m) == Emit(io, m).(wait := io.wait)
  {
  }

  lemma EmitWhole(io: Io, m: Message)
    requires Whole(io)
    ensures Whole(Emit(io, m)) && Hashed(Emit(io, m).log) == Hashed(io.log) + [m]
  {
    hide Hashed;
    Snoc(io.log, Sent(m));
  }

  lemma NoteWhole(io: Io, e: Event)
    requires Whole(io) && (e.SentChangeCipherSpec? || e.WriteKey? || e.ReadKey?)
    ensures Whole(Note(io, e)) && Hashed(Note(io, e).log) == Hashed(io.log)
  {
    hide Hashed;
    Snoc(io.log, e);
  }

  lemma WholeDigest(io: Io)
    requires Whole(io)
    ensures Digested(io) == Hashed(io.log)
  {
  }

  lemma EmitBeside(io: Io, m: Message)
    ensures Beside(io, Emit(io, m))
  {
  }

  lemma NoneAsked(answers: seq<Answer>)
    ensures Willing(answers, 0)
  {
  }

  lemma WholeAside(io: Io, next: Io)
    requires Whole(io) && next.log == io.log && next.digest == io.digest
    ensures Whole(next)
  {
  }

  lemma WillingSame(a: seq<Answer>, b: seq<Answer>, n: nat)
    requires Willing(a, n) && a == b
    ensures Willing(b, n)
  {
  }

  /** The hash has taken in the whole transcript. */
  ghost predicate Whole(io: Io) {
    io.digest == Some(Hashed(io.log))
  }

  /** Only log, buffer and hash differ. */
  predicate Beside(io: Io, next: Io) {
    next == io.(log := next.log, buffer := next.buffer, digest := next.digest)
  }
}
