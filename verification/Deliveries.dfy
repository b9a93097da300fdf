/** What a subscriber was delivered, when its sends happen in log order. */
module Deliveries {
  import opened Sequences
  import opened Events
  import opened Ring
  import opened BrokerRuns

  /** The attempts are the log from start on. */
  ghost predicate Sends(log: seq<EventRecord>, start: nat, attempts: seq<Attempt>) {
    && start + |attempts| <= |log|
    && forall k :: 0 <= k < |attempts| ==> attempts[k].event == log[start + k]
  }

  lemma SendsLog(log: seq<EventRecord>, sub: Sub)
    requires InOrder(log, sub)
    ensures Sends(log, sub.start, sub.attempts)
  {
    forall k | 0 <= k < |sub.attempts| ensures sub.attempts[k].event == log[sub.start + k] {
      AttemptIsLogged(log, sub, k);
    }
  }

  lemma TakenIsDelivered(log: seq<EventRecord>, cap: nat, sub: Sub)
    requires Accounted(log, cap, sub)
    ensures IsPrefix(sub.taken, Delivered(sub.attempts))
  {
    assert sub.taken == (sub.taken + sub.queue)[..|sub.taken|];
  }

  /** The attempt behind an outcome for log[p] is number p - start. */
  lemma WhichAttempt(log: seq<EventRecord>, start: nat, attempts: seq<Attempt>, p: nat, delivered: bool)
    requires Publishable(log) && Sends(log, start, attempts) && p < |log| && log[p] in WithOutcome(attempts, delivered)
    ensures start <= p < start + |attempts| && attempts[p - start].delivered == delivered
  {
    OutcomeWasAttempted(attempts, delivered, log[p]);
    var i :| 0 <= i < |attempts| && attempts[i].event == log[p] && attempts[i].delivered == delivered;
    assert log[start + i] == log[p];
  }

  /** A dropped event was not delivered. */
  lemma DroppedOrDelivered(log: seq<EventRecord>, start: nat, attempts: seq<Attempt>, q: nat)
    requires Publishable(log) && Sends(log, start, attempts) && q < |log| && log[q] in Dropped(attempts)
    ensures start <= q < start + |attempts| && log[q] !in Delivered(attempts)
  {
    WhichAttempt(log, start, attempts, q, false);
    if log[q] in Delivered(attempts) {
      WhichAttempt(log, start, attempts, q, true);
    }
  }

  /** How many deliveries came before attempt j; its own, if it succeeded, is the next one. */
  lemma DeliveredAt(attempts: seq<Attempt>, j: nat) returns (n: nat)
    requires j < |attempts| && attempts[j].delivered
    ensures n == |Delivered(attempts[..j])| < |Delivered(attempts)| && Delivered(attempts)[n] == attempts[j].event
    ensures IsPrefix(Delivered(attempts[..j]), Delivered(attempts))
  {
    SplitAtDelivery(attempts, j);
    n := |Delivered(attempts[..j])|;
  }

  lemma SplitAtDelivery(attempts: seq<Attempt>, j: nat)
    requires j < |attempts| && attempts[j].delivered
    ensures Delivered(attempts) == Delivered(attempts[..j]) + [attempts[j].event] + Delivered(attempts[j + 1..])
  {
    var before, rest := attempts[..j], attempts[j + 1..];
    var one := before + [attempts[j]];
    assert attempts == one + rest;
    OutcomesAppend(one, rest, true);
    AttemptSnoc(before, attempts[j]);
  }

  /** Deliveries happen in log order. */
  lemma DeliveriesAscend(log: seq<EventRecord>, start: nat, attempts: seq<Attempt>, last: nat, p: nat, j: nat)
    requires Publishable(log) && Sends(log, start, attempts) && j < |attempts| && attempts[j].delivered
    requires last < |Delivered(attempts)| && p < |log| && Delivered(attempts)[last] == log[p]
    ensures |Delivered(attempts[..j])| <= last <==> start + j <= p
  {
    var n := DeliveredAt(attempts, j);
    if last < n {
      BeforeAttempt(log, start, attempts, j, last, p);
    } else if last == n {
      assert log[p] == log[start + j];
    } else {
      AfterAttempt(log, start, attempts, j, last, p);
    }
  }

  /** What was delivered before attempt j was published before its event. */
  lemma BeforeAttempt(log: seq<EventRecord>, start: nat, attempts: seq<Attempt>, j: nat, last: nat, p: nat)
    requires Publishable(log) && Sends(log, start, attempts) && j < |attempts|
    requires last < |Delivered(attempts[..j])| && IsPrefix(Delivered(attempts[..j]), Delivered(attempts))
    requires p < |log| && Delivered(attempts)[last] == log[p]
    ensures p < start + j
  {
    var before := attempts[..j];
    assert Delivered(before)[last] == log[p];
    WhichAttempt(log, start, before, p, true);
  }

  /** What was delivered after attempt j was published after its event. */
  lemma AfterAttempt(log: seq<EventRecord>, start: nat, attempts: seq<Attempt>, j: nat, last: nat, p: nat)
    requires Publishable(log) && Sends(log, start, attempts) && j < |attempts| && attempts[j].delivered
    requires |Delivered(attempts[..j])| < last < |Delivered(attempts)| && p < |log| && Delivered(attempts)[last] == log[p]
    ensures start + j < p
  {
    var before, rest := Delivered(attempts[..j]), attempts[j + 1..];
    SplitAtDelivery(attempts, j);
    assert (before + [attempts[j].event] + Delivered(rest))[last] == Delivered(rest)[last - |before| - 1];
    WhichAttempt(log, start + j + 1, rest, p, true);
  }

  /** Up to a delivery of log[p], everything sent was delivered or dropped. */
  lemma DeliveredUpTo(log: seq<EventRecord>, start: nat, attempts: seq<Attempt>, t: nat, q: nat, p: nat)
    requires Publishable(log) && Sends(log, start, attempts)
    requires 0 < t <= |Delivered(attempts)| && start <= q <= p < |log| && Delivered(attempts)[t - 1] == log[p]
    ensures log[q] in Delivered(attempts)[..t] || log[q] in Dropped(attempts)
  {
    assert log[p] in Delivered(attempts);
    WhichAttempt(log, start, attempts, p, true);
    var j := q - start;
    if attempts[j].delivered {
      DeliveriesAscend(log, start, attempts, t - 1, p, j);
      var n := DeliveredAt(attempts, j);
      assert Delivered(attempts)[..t][n] == log[q];
    } else {
      OutcomeWasAttempted(attempts, false, log[q]);
    }
  }

  /** And nothing newer than log[p] was delivered. */
  lemma NoneNewerDelivered(log: seq<EventRecord>, start: nat, attempts: seq<Attempt>, t: nat, q: nat, p: nat)
    requires Publishable(log) && Sends(log, start, attempts)
    requires 0 < t <= |Delivered(attempts)| && p < q < |log| && Delivered(attempts)[t - 1] == log[p]
    ensures log[q] !in Delivered(attempts)[..t]
  {
    if log[q] in Delivered(attempts)[..t] {
      var i :| 0 <= i < t && Delivered(attempts)[..t][i] == log[q];
      assert Delivered(attempts)[i] == log[q] && log[q] in Delivered(attempts) && log[p] in Delivered(attempts);
      WhichAttempt(log, start, attempts, q, true);
      WhichAttempt(log, start, attempts, p, true);
      DeliveriesAscend(log, start, attempts, t - 1, p, q - start);
      DeliveriesAscend(log, start, attempts, i, q, q - start);
    }
  }
}
