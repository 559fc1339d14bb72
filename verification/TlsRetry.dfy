/**
State machines whose environment may ask for retries.  `calm` removes every trace of retries from a state;
a turn is either what the calm machine does or a retry, which changes nothing but that fewer are left.
Then retries have no influence on the outcome.
*/
module TlsRetry {

  function Iterate<S>(step: S -> S, c: S, turns: nat): S {
    if turns == 0 then c else step(Iterate(step, c, turns - 1))
  }

  ghost predicate Alike<S(!new)>(step: S -> S, calm: S -> S, left: S -> nat, c: S) {
    || calm(step(c)) == calm(step(calm(c)))
    || (calm(step(c)) == calm(c) && left(step(c)) < left(c))
  }

  ghost predicate Machine<S(!new)>(step: S -> S, calm: S -> S, left: S -> nat, over: S -> bool) {
    && (forall c :: calm(calm(c)) == calm(c))
    && (forall c :: Alike(step, calm, left, c))
    && (forall c :: over(calm(c)) == over(c))
    && (forall c :: over(c) && calm(c) == c ==> calm(step(c)) == c)
  }

  /** The run of the calm machine. */
  function CalmRun<S>(step: S -> S, calm: S -> S, c: S, turns: nat): S {
    if turns == 0 then c else calm(step(CalmRun(step, calm, c, turns - 1)))
  }

  /** Every run is, without its retries, a run of the calm machine. */
  lemma {:induction false} Follows<S(!new)>(step: S -> S, calm: S -> S, left: S -> nat, over: S -> bool, c: S,
                                            turns: nat)
    returns (n: nat)
    requires Machine(step, calm, left, over)
    ensures calm(Iterate(step, c, turns)) == CalmRun(step, calm, calm(c), n)
  {
    if turns == 0 {
      n := 0;
    } else {
      n := Follows(step, calm, left, over, c, turns - 1);
      var x := Iterate(step, c, turns - 1);
      assert Alike(step, calm, left, x);
      if calm(step(x)) != calm(x) { n := n + 1; }
    }
  }

  lemma {:induction false} RunOn<S>(step: S -> S, c: S, a: nat, b: nat)
    ensures Iterate(step, c, a + b) == Iterate(step, Iterate(step, c, a), b)
    decreases b
  {
    if b > 0 { RunOn(step, c, a, b - 1); }
  }

  lemma {:induction false} OneTurn<S(!new)>(step: S -> S, calm: S -> S, left: S -> nat, over: S -> bool, c: S)
    returns (n: nat)
    requires Machine(step, calm, left, over)
    ensures calm(Iterate(step, c, n)) == calm(step(calm(c)))
    decreases left(c)
  {
    assert Alike(step, calm, left, c);
    assert Iterate(step, c, 1) == step(Iterate(step, c, 0)) == step(c);
    if calm(step(c)) == calm(step(calm(c))) {
      n := 1;
    } else {
      var k := OneTurn(step, calm, left, over, step(c));
      RunOn(step, c, 1, k);
      n := 1 + k;
    }
  }

  /** Every turn of the calm machine is taken by any machine like it, after some retries. */
  lemma {:induction false} CatchesUp<S(!new)>(step: S -> S, calm: S -> S, left: S -> nat, over: S -> bool, c: S,
                                              turns: nat)
    returns (n: nat)
    requires Machine(step, calm, left, over)
    ensures calm(Iterate(step, c, n)) == CalmRun(step, calm, calm(c), turns)
    decreases turns
  {
    if turns == 0 {
      n := 0;
    } else {
      var k := CatchesUp(step, calm, left, over, c, turns - 1);
      var more := OneTurn(step, calm, left, over, Iterate(step, c, k));
      RunOn(step, c, k, more);
      n := k + more;
    }
  }

  /**
  Of two runs that start alike but for retries, each moment of the one is, but for retries, a moment of the
  other: whether the run comes to an end, waits for ever, or goes on.
  */
  lemma Transparent<S(!new)>(step: S -> S, calm: S -> S, left: S -> nat, over: S -> bool, c: S, d: S, turns: nat)
    requires Machine(step, calm, left, over) && calm(c) == calm(d)
    ensures exists n :: calm(Iterate(step, d, n)) == calm(Iterate(step, c, turns))
  {
    var i := Follows(step, calm, left, over, c, turns);
    var n := CatchesUp(step, calm, left, over, d, i);
  }

  lemma {:induction false} OneOutcome<S(!new)>(step: S -> S, calm: S -> S, left: S -> nat, over: S -> bool, c: S,
                                               m: nat, n: nat)
    requires Machine(step, calm, left, over)
    requires m <= n && over(CalmRun(step, calm, calm(c), m))
    ensures CalmRun(step, calm, calm(c), n) == CalmRun(step, calm, calm(c), m)
    decreases n
  {
    if m < n { OneOutcome(step, calm, left, over, c, m, n - 1); }
  }

  /** So if one comes to an end then so does the other, and wherever both have they have the same outcome. */
  lemma SameOutcome<S(!new)>(step: S -> S, calm: S -> S, left: S -> nat, over: S -> bool, c: S, d: S, m: nat)
    requires Machine(step, calm, left, over)
    requires calm(c) == calm(d) && over(Iterate(step, c, m))
    ensures exists n :: over(Iterate(step, d, n))
    ensures forall n :: over(Iterate(step, d, n)) ==> calm(Iterate(step, d, n)) == calm(Iterate(step, c, m))
  {
    var i := Follows(step, calm, left, over, c, m);
    assert over(calm(Iterate(step, c, m)));
    Transparent(step, calm, left, over, c, d, m);
    var k :| calm(Iterate(step, d, k)) == calm(Iterate(step, c, m));
    assert over(calm(Iterate(step, d, k)));
    forall n | over(Iterate(step, d, n)) ensures calm(Iterate(step, d, n)) == calm(Iterate(step, c, m)) {
      var j := Follows(step, calm, left, over, d, n);
      assert over(calm(Iterate(step, d, n)));
      if i <= j {
        OneOutcome(step, calm, left, over, c, i, j);
      } else {
        OneOutcome(step, calm, left, over, d, j, i);
      }
    }
  }
}
