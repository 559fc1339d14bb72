/** The connection object that the client and server state machines update: SSL_HANDSHAKE and its transcript. */
module TlsConnection {
  import opened Wire
  import opened TlsHandshake

  /** How much is still to be received, a kept ChangeCipherSpec counting for half a record. */
  function AheadOf(io: Io): nat {
    2 * |io.inbox| + if io.early.Kept? then 1 else 0
  }

  datatype Resumption = RunAgain | WaitOn | Return

  class Connection {
    var wait: Wait
    var keyOp: KeyOp
    var answers: seq<Answer>
    var flushes: seq<bool>
    var inbox: seq<Record>
    var pending: seq<Message>
    var early: EarlyCcs
    var buffer: Option<seq<Message>>
    var digest: Option<seq<Message>>
    ghost var log: seq<Event>

    ghost function View(): Io
      reads this
    {
      Io(wait, keyOp, answers, flushes, inbox, pending, early, buffer, digest, log)
    }

    constructor (dtls: bool, inbox: seq<Record>, answers: seq<Answer>, flushes: seq<bool>)
      ensures View() == Start(dtls, inbox, answers, flushes)
    {
      wait, keyOp, this.answers, this.flushes, this.inbox := Go, Idle, answers, flushes, inbox;
      pending, buffer, digest, log := [], Some([]), None, [];
      early := if dtls then Awaitable else Refused;
    }

    /** SSLTranscript::Update: whichever of the buffer and the hash are active. */
    method Update(m: Message)
      modifies this`buffer, this`digest
      ensures View() == Hash(old(View()), m)
    {
      if buffer.Some? { buffer := Some(buffer.value + [m]); }
      if digest.Some? { digest := Some(digest.value + [m]); }
    }

    /** SSLTranscript::InitHash */
    method StartDigest()
      modifies this`digest
      ensures View() == InitHash(old(View()))
    {
      digest := buffer;
    }

    /** SSLTranscript::FreeBuffer */
    method ReleaseBuffer()
      modifies this`buffer
      ensures View() == FreeBuffer(old(View()))
    {
      buffer := None;
    }

    /** ssl_add_message_cbb */
    method AddMessage(kind: Kind, body: seq<byte>)
      modifies this`buffer, this`digest, this`log
      ensures View() == Emit(old(View()), Message(kind, body))
    {
      Update(Message(kind, body));
      log := log + [Sent(Message(kind, body))];
    }

    /** ssl_hash_message and then next_message */
    method UseMessage()
      requires pending != []
      modifies this`buffer, this`digest, this`pending, this`log
      ensures View() == Take(old(View()))
    {
      Update(pending[0]);
      log := log + [Took(pending[0])];
      pending := pending[1..];
    }

    /** next_message for a message that is not hashed. */
    method DropMessage()
      requires pending != []
      modifies this`pending, this`log
      ensures View() == Note(old(View()).(pending := old(pending)[1..]), Dropped(old(pending)[0]))
    {
      log := log + [Dropped(pending[0])];
      pending := pending[1..];
    }

    /** SSLTranscript::Init */
    method RestartTranscript()
      modifies this`buffer, this`digest, this`log
      ensures View() == Note(old(View()), Restart).(buffer := Some([]), digest := None)
    {
      buffer, digest := Some([]), None;
      log := log + [Restart];
    }

    ghost method Record(e: Event)
      modifies this`log
      ensures View() == Note(old(View()), e)
    {
      log := log + [e];
    }

    /** tls1_change_cipher_state(evp_aead_open), for what is left over see `Leftover`. */
    method OpenWithNewKey() returns (ok: bool)
      modifies this`early, this`log
      ensures ok == !Leftover(old(View()))
      ensures View() == if ok then ChangeReadKey(old(View())) else old(View())
    {
      if pending != [] || early.Kept? { return false; }
      early := Refused;
      Record(ReadKey);
      return true;
    }

    /** add_change_cipher_spec and tls1_change_cipher_state(evp_aead_seal) */
    method SealWithNewKey()
      modifies this`log
      ensures View() == ChangeWriteKey(old(View()))
    {
      Record(SentChangeCipherSpec);
      Record(WriteKey);
    }

    /** A call of the application. */
    method Ask(op: Operation) returns (a: Answer)
      modifies this`answers, this`keyOp
      ensures a == NextAnswer(old(View()))
      ensures View() == Asked(old(View()), op).(wait := old(wait))
    {
      a := if answers == [] then Retry else answers[0];
      if answers != [] { answers := answers[1..]; }
      if op.PrivateKey? { keyOp := if a.Retry? then Started else Idle; }
    }

    ghost function Ahead(): nat
      reads this
    {
      AheadOf(View())
    }

    /**
    The part of ssl_run_handshake that resolves what the handshake waits for, and what follows: the state
    machine runs again, the same is waited for again, or the call returns to the application.
    */
    method ResolveWait() returns (how: Resumption)
      modifies this
      ensures View() == Resolve(old(View()))
      ensures how.RunAgain? ==> wait.Go?
      ensures Ahead() <= old(Ahead())
      ensures how.WaitOn? || (how.RunAgain? && (old(wait).ReadMessage? || old(wait).ReadChangeCipherSpec?))
              ==> Ahead() < old(Ahead())
      ensures !how.Return? ==> !old(wait).Blocked? && !old(wait).EarlyReturn?
      ensures !how.Return? ==> !old(wait).Failed? && !old(wait).LeftForTls13?
      ensures how.WaitOn? ==> !wait.Go?
    {
      match wait {
        case Go => return RunAgain;
        case Failed => return Return;
        case LeftForTls13 => return Return;
        case Flush =>
          var ok := FlushFlight();
          return if ok then RunAgain else Return;
        case EarlyReturn =>
          wait := Go;
          return Return;
        case Blocked(_) =>
          wait := Go;
          return Return;
        case ReadMessage =>
          how := OpenHandshake();
        case ReadChangeCipherSpec =>
          how := OpenChangeCipherSpec();
      }
    }

    /** The attempt to flush the flight, which is made again in the next call if it fails. */
    method FlushFlight() returns (ok: bool)
      requires wait.Flush?
      modifies this`wait, this`flushes
      ensures View() == Resolve(old(View()))
      ensures ok <==> wait.Go?
    {
      ok := flushes == [] || flushes[0];
      if flushes != [] { flushes := flushes[1..]; }
      if ok { wait := Go; }
    }

    /** ssl_open_handshake with the next record */
    method OpenHandshake() returns (how: Resumption)
      requires wait.ReadMessage?
      modifies this
      ensures View() == Resolve(old(View())) && !how.WaitOn?
      ensures how.RunAgain? <==> wait.Go?
      ensures if how.RunAgain? then Ahead() < old(Ahead()) else Ahead() <= old(Ahead())
    {
      if inbox == [] { return Return; }
      if inbox[0].Handshake? {
        pending := pending + inbox[0].msgs;
      } else if early.Refused? {
        wait := Failed;
        return Return;
      } else {
        early := Kept;
      }
      inbox := inbox[1..];
      wait := Go;
      return RunAgain;
    }

    /** ssl_open_change_cipher_spec with what was kept, or the next record */
    method OpenChangeCipherSpec() returns (how: Resumption)
      requires wait.ReadChangeCipherSpec?
      modifies this
      ensures View() == Resolve(old(View()))
      ensures how.RunAgain? <==> wait.Go?
      ensures if how.Return? then Ahead() <= old(Ahead()) else Ahead() < old(Ahead())
    {
      if early.Kept? {
        early := Awaitable;
        wait := Go;
        return RunAgain;
      }
      if inbox == [] { return Return; }
      if inbox[0].ChangeCipherSpec? {
        inbox := inbox[1..];
        wait := Go;
        return RunAgain;
      }
      if early.Refused? {
        wait := Failed;
        return Return;
      }
      pending := pending + inbox[0].msgs;
      inbox := inbox[1..];
      return WaitOn;
    }
  }
}
