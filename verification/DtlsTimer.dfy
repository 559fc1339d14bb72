/**
The retransmission timer of DTLS: exponential backoff up to a minute, a fallback MTU after the third timeout,
and giving up after the twelfth (sections 4.2.4 and 4.2.4.1 of RFC 6347).
*/
module DtlsTimer {
  import opened Words
  import opened DtlsSend

  const MTU_TIMEOUTS := 2
  const MAX_TIMEOUTS := 12
  const LONGEST_MS := 60000
  const SLACK := 15000
  const WORD: nat := 0x1_0000_0000
  const SECOND := 1000000

  /** A point in time, in microseconds, or 0 if no timer runs; the current duration and what happened so far. */
  datatype Timer = Timer(deadline: nat, duration: nat, timeouts: nat, mtu: nat)

  datatype Result = Nothing | GaveUp | Retransmit

  /** Less than 15 ms left counts as expired. */
  predicate Expired(t: Timer, now: nat) {
    t.deadline != 0 && t.deadline < now + SLACK
  }

  /** dtls1_double_timeout on an unsigned 32-bit number of milliseconds. */
  function Backoff(duration: nat): nat {
    var doubled := 2 * duration % 0x1_0000_0000;
    if doubled > LONGEST_MS then LONGEST_MS else doubled
  }

  /** DTLSv1_handle_timeout; `fallback` is what the transport says, if it is asked. */
  function Handle(t: Timer, now: nat, query: bool, fallback: int): Timer {
    if !Expired(t, now) then t
    else
      var n := t.timeouts + 1;
      var mtu := if n > MTU_TIMEOUTS && query && UsableMtu(fallback) then fallback else t.mtu;
      if n > MAX_TIMEOUTS then t.(timeouts := n, mtu := mtu)
      else Timer(now + 1000 * Backoff(t.duration), Backoff(t.duration), n, mtu)
  }

  function ResultOf(t: Timer, now: nat): Result {
    if !Expired(t, now) then Nothing else if t.timeouts >= MAX_TIMEOUTS then GaveUp else Retransmit
  }

  // ---------------------------------------------------------------- backoff

  function BackoffTimes(initial: nat, k: nat): nat {
    if k == 0 then initial else Backoff(BackoffTimes(initial, k - 1))
  }

  function Exponential(initial: nat, k: nat): nat {
    if k == 0 then initial
    else Cap(initial * Pow2(k))
  }

  /** An initial duration whose double wraps around to less than a minute. */
  predicate Wraps(initial: nat) {
    0x8000_0000 <= initial < 0x8000_0000 + LONGEST_MS / 2
  }

  lemma {:induction false} BackoffIs(initial: nat, k: nat)
    requires initial < WORD && !Wraps(initial)
    ensures BackoffTimes(initial, k) == Exponential(initial, k)
    decreases k
  {
    hide Pow2, Cap, Backoff;
    if k == 1 {
      FirstPower();
      FirstBackoff(initial);
    } else if k > 1 {
      BackoffIs(initial, k - 1);
      Twice(initial, k);
      CapTwice(initial * Pow2(k - 1));
    }
  }

  function Cap(ms: nat): nat {
    if ms > LONGEST_MS then LONGEST_MS else ms
  }

  lemma FirstBackoff(initial: nat)
    requires initial < WORD && !Wraps(initial)
    ensures Backoff(initial) == Cap(initial * 2)
  {
  }

  lemma CapTwice(ms: nat)
    ensures Backoff(Cap(ms)) == Cap(2 * ms)
  {
  }

  lemma FirstPower()
    ensures Pow2(1) == 2
  {
  }

  lemma Twice(initial: nat, k: nat)
    requires k > 0
    ensures initial * Pow2(k) == 2 * (initial * Pow2(k - 1))
  {
    var p := Pow2(k - 1);
    assert initial * (2 * p) == 2 * (initial * p);
  }

  /** The backoff is exponential and capped for exactly the initial durations whose double does not wrap. */
  lemma BackoffExponential(initial: nat)
    requires initial < WORD
    ensures (forall k :: BackoffTimes(initial, k) == Exponential(initial, k)) <==> !Wraps(initial)
  {
    if !Wraps(initial) {
      forall k: nat ensures BackoffTimes(initial, k) == Exponential(initial, k) { BackoffIs(initial, k); }
    } else {
      FirstPower();
      assert BackoffTimes(initial, 0) == initial;
      assert BackoffTimes(initial, 1) == 2 * initial - 0x1_0000_0000;
      assert Exponential(initial, 1) == LONGEST_MS;
    }
  }

  /** A duration of 2^31 ms becomes no duration at all. */
  lemma HalfWordWraps()
    ensures Wraps(0x8000_0000) && Backoff(0x8000_0000) == 0
  {
  }

  // ---------------------------------------------------------------- runs

  /** A call of DTLSv1_handle_timeout. */
  datatype Call = Call(now: nat, query: bool, fallback: int)

  function RunOf(t: Timer, calls: seq<Call>): Timer {
    if calls == [] then t
    else
      var c := calls[|calls| - 1];
      Handle(RunOf(t, calls[..|calls| - 1]), c.now, c.query, c.fallback)
  }

  function Retransmits(t: Timer, calls: seq<Call>): nat {
    if calls == [] then 0
    else
      var before := calls[..|calls| - 1];
      Retransmits(t, before) + if ResultOf(RunOf(t, before), calls[|calls| - 1].now).Retransmit? then 1 else 0
  }

  /** What `k` retransmissions must have taken, in microseconds. */
  function Waited(duration: nat, k: nat): int {
    if k == 0 then 0 else Waited(duration, k - 1) + 1000 * BackoffTimes(duration, k - 1) - SLACK
  }

  /**
  From a timer that was just started, over any calls without progress in between: there are never more than
  twelve retransmissions, the duration has been backed off once for each, and they took at least the time
  of all the durations, less the slack.
  */
  lemma {:induction false} RetransmitsBounded(t: Timer, start: nat, calls: seq<Call>)
    requires t.timeouts == 0 && t.deadline == start + 1000 * t.duration
    ensures var k, r := Retransmits(t, calls), RunOf(t, calls);
            && k <= MAX_TIMEOUTS
            && (r.timeouts <= MAX_TIMEOUTS ==> r.timeouts == k)
            && (r.timeouts > MAX_TIMEOUTS ==> k == MAX_TIMEOUTS)
            && r.duration == BackoffTimes(t.duration, k)
            && r.deadline >= start + Waited(t.duration, k) + 1000 * r.duration
    decreases calls
  {
    hide Backoff;
    if calls != [] { RetransmitsBounded(t, start, calls[..|calls| - 1]); }
  }

  /** Each call comes when the timer runs and has less than 15 ms left. */
  ghost predicate AllDue(t: Timer, calls: seq<Call>) {
    forall i :: 0 <= i < |calls| ==>
      var r := RunOf(t, calls[..i]); 0 < r.deadline < calls[i].now + 15000
  }

  /** The transport's answer to the last call, from the third on, that asked and got an MTU that will do. */
  function LastFallback(mtu: nat, calls: seq<Call>): int {
    if |calls| <= 2 then mtu
    else
      var c := calls[|calls| - 1];
      if c.query && 228 <= c.fallback <= 0x4000_0000 then c.fallback else LastFallback(mtu, calls[..|calls| - 1])
  }

  /**
  Of calls that all come when they are due, the first twelve retransmit and the others give up; the MTU falls back
  from the third on.
  */
  lemma {:induction false} DueRetransmits(t: Timer, calls: seq<Call>)
    requires t.timeouts == 0 && AllDue(t, calls)
    ensures Retransmits(t, calls) == if |calls| <= 12 then |calls| else 12
    ensures RunOf(t, calls).timeouts == |calls| && RunOf(t, calls).mtu == LastFallback(t.mtu, calls)
    ensures 0 < |calls| <= 12 ==>
              RunOf(t, calls).deadline == calls[|calls| - 1].now + 1000 * BackoffTimes(t.duration, |calls|)
    ensures |calls| <= 12 ==> RunOf(t, calls).duration == BackoffTimes(t.duration, |calls|)
    ensures forall now: nat :: 0 < RunOf(t, calls).deadline < now + 15000 ==>
              ResultOf(RunOf(t, calls), now) == if |calls| < 12 then Retransmit else GaveUp
    decreases calls
  {
    hide Backoff;
    if calls != [] {
      var before := calls[..|calls| - 1];
      assert before[..|before|] == before;
      forall i | 0 <= i < |before| ensures 0 < RunOf(t, before[..i]).deadline < before[i].now + 15000 {
        assert before[..i] == calls[..i];
      }
      DueRetransmits(t, before);
      assert 0 < RunOf(t, before).deadline < calls[|calls| - 1].now + 15000;
    }
  }

  /** A call that does not come when it is due does nothing. */
  lemma NotDue(t: Timer, now: nat, query: bool, fallback: int)
    requires t.deadline == 0 || now + 15000 <= t.deadline
    ensures Handle(t, now, query, fallback) == t && ResultOf(t, now) == Nothing
  {
  }

  // ---------------------------------------------------------------- the timer object

  class RetransmitTimer {
    const initialMs: nat
    var seconds: nat
    var micros: nat
    var durationMs: nat
    var numTimeouts: nat
    var mtu: nat

    ghost predicate Valid()
      reads this
    {
      micros < SECOND
    }

    ghost function View(): Timer
      reads this
    {
      Timer(seconds * SECOND + micros, durationMs, numTimeouts, mtu)
    }

    constructor (initialMs: nat, mtu: nat)
      ensures Valid() && this.initialMs == initialMs && View() == Timer(0, initialMs, 0, mtu)
    {
      this.initialMs, this.mtu := initialMs, mtu;
      seconds, micros, durationMs, numTimeouts := 0, 0, initialMs, 0;
    }

    /** dtls1_start_timer */
    method Start(nowSeconds: nat, nowMicros: nat)
      requires Valid() && nowMicros < SECOND
      modifies this
      ensures Valid()
      ensures durationMs == if old(View()).deadline == 0 then initialMs else old(durationMs)
      ensures View() == old(View()).(duration := durationMs,
                                     deadline := nowSeconds * SECOND + nowMicros + 1000 * durationMs)
    {
      if seconds == 0 && micros == 0 { durationMs := initialMs; }
      seconds := nowSeconds + durationMs / 1000;
      micros := nowMicros + durationMs % 1000 * 1000;
      if micros >= SECOND {
        seconds := seconds + 1;
        micros := micros - SECOND;
      }
    }

    /** dtls1_stop_timer, when the flight has had its reply. */
    method Stop()
      modifies this
      ensures Valid() && View() == Timer(0, initialMs, 0, old(mtu))
    {
      numTimeouts := 0;
      seconds, micros := 0, 0;
      durationMs := initialMs;
    }

    /** DTLSv1_get_timeout and dtls1_is_timer_expired */
    method IsExpired(nowSeconds: nat, nowMicros: nat) returns (expired: bool)
      requires Valid() && nowMicros < SECOND
      ensures expired <==> Expired(View(), nowSeconds * SECOND + nowMicros)
    {
      if seconds == 0 && micros == 0 { return false; }
      if seconds < nowSeconds || (seconds == nowSeconds && micros <= nowMicros) { return true; }
      var leftSeconds, leftMicros := seconds - nowSeconds, micros - nowMicros;
      if micros < nowMicros {
        leftMicros := SECOND + micros - nowMicros;
        leftSeconds := leftSeconds - 1;
      }
      return leftSeconds == 0 && leftMicros < SLACK;
    }

    /** dtls1_check_timeout_num */
    method CheckTimeouts(query: bool, fallback: int) returns (ok: bool)
      requires Valid()
      modifies this`numTimeouts, this`mtu
      ensures Valid() && numTimeouts == old(numTimeouts) + 1 && (ok <==> numTimeouts <= MAX_TIMEOUTS)
      ensures mtu == if numTimeouts > MTU_TIMEOUTS && query && UsableMtu(fallback) then fallback else old(mtu)
    {
      numTimeouts := numTimeouts + 1;
      if numTimeouts > MTU_TIMEOUTS && query {
        if fallback >= 0 && fallback <= MAX_MTU && fallback >= MIN_MTU { mtu := fallback; }
      }
      return numTimeouts <= MAX_TIMEOUTS;
    }

    /** DTLSv1_handle_timeout, up to the retransmission itself. */
    method HandleTimeout(nowSeconds: nat, nowMicros: nat, query: bool, fallback: int) returns (r: Result)
      requires Valid() && nowMicros < SECOND
      modifies this
      ensures Valid() && r == ResultOf(old(View()), nowSeconds * SECOND + nowMicros)
      ensures View() == Handle(old(View()), nowSeconds * SECOND + nowMicros, query, fallback)
    {
      var expired := IsExpired(nowSeconds, nowMicros);
      if !expired { return Nothing; }
      var ok := CheckTimeouts(query, fallback);
      if !ok { return GaveUp; }
      durationMs := 2 * durationMs % 0x1_0000_0000;
      if durationMs > LONGEST_MS { durationMs := LONGEST_MS; }
      Start(nowSeconds, nowMicros);
      return Retransmit;
    }
  }
}
