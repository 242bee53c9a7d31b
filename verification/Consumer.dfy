/** The consumer of events: bounded retries, then the dead-letter topic. */
module Consumer {
  datatype Reply = Done | Transient | Permanent

  // What becomes of a message: handled, given up to the dead-letter topic, or left by a shutdown.
  datatype Fate = Handled(attempts: nat) | Dead(attempts: nat) | Interrupted(attempts: nat)

  const MAX_ATTEMPTS := 5

  // Attempts 1 to n - 1 failed for a while, and the process was still running after each.
  ghost predicate Retried(replies: nat -> Reply, stopped: nat -> bool, n: nat) {
    forall k :: 1 <= k < n ==> replies(k).Transient? && !stopped(k)
  }

  ghost predicate Ends(replies: nat -> Reply, stopped: nat -> bool, fate: Fate) {
    && 1 <= fate.attempts <= MAX_ATTEMPTS && Retried(replies, stopped, fate.attempts)
    && match fate
       case Handled(n) => replies(n).Done?
       case Dead(n) => replies(n).Permanent? || (n == MAX_ATTEMPTS && replies(n).Transient? && !stopped(n))
       case Interrupted(n) => replies(n).Transient? && stopped(n)
  }

  // A message has exactly one end.
  lemma OneEnd(replies: nat -> Reply, stopped: nat -> bool, a: Fate, b: Fate)
    requires Ends(replies, stopped, a) && Ends(replies, stopped, b)
    ensures a == b
  {
    assert a.attempts < b.attempts ==> replies(a.attempts).Transient? && !stopped(a.attempts);
    assert b.attempts < a.attempts ==> replies(b.attempts).Transient? && !stopped(b.attempts);
  }

  // A message is given up at the first permanent error, or when five attempts have failed for a while.
  lemma FiveAttempts(replies: nat -> Reply, stopped: nat -> bool, fate: Fate)
    requires Ends(replies, stopped, fate)
    ensures fate.Dead? <==>
            exists n :: 1 <= n <= 5 && (forall k :: 1 <= k < n ==> replies(k).Transient? && !stopped(k))
                        && (replies(n).Permanent? || (n == 5 && replies(n).Transient? && !stopped(n)))
    ensures fate.Handled? <==>
            exists n :: 1 <= n <= 5 && replies(n).Done? && forall k :: 1 <= k < n ==> replies(k).Transient? && !stopped(k)
  {
    forall n: nat | 1 <= n <= 5 && forall k :: 1 <= k < n ==> replies(k).Transient? && !stopped(k)
      ensures replies(n).Done? ==> fate == Handled(n)
      ensures replies(n).Permanent? || (n == 5 && replies(n).Transient? && !stopped(n)) ==> fate == Dead(n)
    {
      if replies(n).Done? {
        OneEnd(replies, stopped, fate, Handled(n));
      } else if replies(n).Permanent? || (n == 5 && !stopped(n)) {
        OneEnd(replies, stopped, fate, Dead(n));
      }
    }
  }

  class Broker {
    var committed: seq<nat>
    var deadLetters: seq<nat>

    constructor ()
      ensures committed == [] && deadLetters == []
    {
      committed, deadLetters := [], [];
    }

    method Process(msg: nat, replies: nat -> Reply, stopped: nat -> bool, dlqUp: bool) returns (fate: Fate)
      modifies this`deadLetters
      ensures Ends(replies, stopped, fate)
      ensures deadLetters == old(deadLetters) + if fate.Dead? && dlqUp then [msg] else []
    {
      var attempt := 1;
      while attempt <= MAX_ATTEMPTS
        invariant 1 <= attempt <= MAX_ATTEMPTS + 1 && deadLetters == old(deadLetters)
        invariant Retried(replies, stopped, attempt)
      {
        match replies(attempt) {
          case Done => return Handled(attempt);
          case Permanent => break;
          case Transient =>
        }
        if stopped(attempt) {
          return Interrupted(attempt);
        }
        attempt := attempt + 1;
      }
      if dlqUp {
        deadLetters := deadLetters + [msg];
      }
      fate := Dead(if attempt > MAX_ATTEMPTS then MAX_ATTEMPTS else attempt);
    }

    // The offset is committed whatever became of the message, unless the commit itself fails:
    // a dead message that the dead-letter topic did not take is gone.
    method Consume(msg: nat, replies: nat -> Reply, stopped: nat -> bool, dlqUp: bool, commitUp: bool) returns (fate: Fate)
      modifies this
      ensures Ends(replies, stopped, fate)
      ensures committed == old(committed) + if commitUp then [msg] else []
      ensures deadLetters == old(deadLetters) + if fate.Dead? && dlqUp then [msg] else []
    {
      fate := Process(msg, replies, stopped, dlqUp);
      if commitUp {
        committed := committed + [msg];
      }
    }
  }
}
