/** A clock read again and again by a polling loop. */
module Clocks {
  /** The clock only advances, by at least the sleep between two readings. */
  ghost predicate Clocked(now: nat -> nat, start: nat, poll: nat) {
    now(0) >= start && forall i: nat :: now(i + 1) >= now(i) + poll
  }

  lemma {:induction false} ClockAdvances(now: nat -> nat, start: nat, poll: nat, n: nat)
    requires Clocked(now, start, poll)
    ensures now(n) >= start + poll * n
  {
    if n == 0 {
    } else {
      ClockAdvances(now, start, poll, n - 1);
      assert now(n - 1 + 1) >= now(n - 1) + poll;
    }
  }
}
