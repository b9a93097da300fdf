/**
 No loss across reconnects, for publishes that do not overlap: an event that a broken connection
 did not deliver comes with a later one, unless it was dropped on a full channel, or the client
 came back with a cursor that had left the ring, or with a cursor from its cache that was published
 later than the event.
 */
module Reconnects {
  import opened Sequences
  import opened Events
  import opened EventStore
  import opened Ring
  import opened Deliveries
  import opened Pipeline
  import opened EndToEnd

  /** Connection k would deliver log[q] if it lasted: it is replayed, or was published since. */
  ghost predicate Offered(log: seq<EventRecord>, sub: BrokerRuns.Sub, q: nat)
    requires q < |log|
  {
    sub.start <= q || log[q] in sub.replay
  }

  /**
   log[q] was published before connection k began and after the last frame handled by then, and
   that frame had left the ring, or there was none.
   */
  ghost predicate LeftRing(log: seq<EventRecord>, cap: nat, sub: BrokerRuns.Sub, q: nat) {
    && q < sub.start <= |log|
    && (forall p :: 0 <= p < sub.start && log[p].eventId == sub.after ==> p < q)
    && sub.after !in Ids(Window(log[..sub.start], cap))
  }

  /** What is known of connection k. */
  ghost predicate Known(s: State, k: nat) {
    && k < |s.connections|
    && Linked(s.cached, s.connections, s.broker, k)
    && BrokerRuns.Accounted(s.broker.log, s.broker.cap, SubOf(s, k))
    && BrokerRuns.InOrder(s.broker.log, SubOf(s, k))
  }

  /**
   No frame was handled before connection k, and the cursor it took from the cache stands in the
   log at or after log[q].
   */
  ghost predicate CacheAhead(s: State, k: nat, q: nat)
    requires Known(s, k)
  {
    && HandledOn(s.connections[..k]) == []
    && exists p :: q <= p < SubOf(s, k).start && s.broker.log[p].eventId == SubOf(s, k).after
  }

  /** Connection k resumed behind log[q] without it. */
  ghost predicate LostBefore(s: State, k: nat, q: nat)
    requires Known(s, k)
  {
    LeftRing(s.broker.log, s.broker.cap, SubOf(s, k), q) || CacheAhead(s, k, q)
  }

  /** A frame newer than log[q] was handled on connection k. */
  ghost predicate LaterHandled(s: State, k: nat, q: nat)
    requires k < |s.connections|
  {
    exists p :: q < p < |s.broker.log| && s.broker.log[p] in s.connections[k].handled
  }

  /** Connection k dropped log[q], and a newer frame was handled on it, or there is no later connection. */
  ghost predicate DroppedForGood(s: State, k: nat, q: nat)
    requires Known(s, k) && q < |s.broker.log|
  {
    s.broker.log[q] in BrokerRuns.Dropped(SubOf(s, k).attempts) && (k == |s.connections| - 1 || LaterHandled(s, k, q))
  }

  lemma AllKnown(loc: Collator, s: State)
    requires Inv(loc, s) && s.serial
    ensures forall k :: 0 <= k < |s.connections| ==> Known(s, k)
  {
    forall k | 0 <= k < |s.connections| ensures Known(s, k) {
      assert Linked(s.cached, s.connections, s.broker, k);
    }
  }

  // ----- one connection

  /** Up to the last frame handled, everything offered was handled or dropped. */
  lemma HandledUpTo(log: seq<EventRecord>, cap: nat, sub: BrokerRuns.Sub, handled: seq<EventRecord>, q: nat, p: nat)
    requires Publishable(log) && BrokerRuns.Accounted(log, cap, sub) && BrokerRuns.InOrder(log, sub)
    requires IsPrefix(handled, BrokerRuns.Frames(sub)) && handled != [] && q <= p < |log|
    requires handled[|handled| - 1] == log[p] && Offered(log, sub, q)
    ensures log[q] in handled || log[q] in BrokerRuns.Dropped(sub.attempts)
  {
    var a := BrokerRuns.ReplayIsPiece(log, cap, sub);
    BrokerRuns.PieceHolds(log, a, sub.start, q);
    var m, r := |handled|, |sub.replay|;
    assert forall i :: 0 <= i < m && i < r ==> handled[i] == log[a + i];
    if m <= r {
      assert a + m - 1 == p;
      assert handled[q - a] == log[q];
    } else if q < sub.start {
      assert handled[q - a] == log[q];
    } else {
      TakenUpTo(log, cap, sub, handled, q, p);
    }
  }

  lemma TakenUpTo(log: seq<EventRecord>, cap: nat, sub: BrokerRuns.Sub, handled: seq<EventRecord>, q: nat, p: nat)
    requires Publishable(log) && BrokerRuns.Accounted(log, cap, sub) && BrokerRuns.InOrder(log, sub)
    requires IsPrefix(handled, BrokerRuns.Frames(sub)) && |handled| > |sub.replay| && sub.start <= q <= p < |log|
    requires handled[|handled| - 1] == log[p]
    ensures log[q] in handled || log[q] in BrokerRuns.Dropped(sub.attempts)
  {
    HandledDeliveries(log, cap, sub, handled);
    SendsLog(log, sub);
    DeliveredUpTo(log, sub.start, sub.attempts, |handled| - |sub.replay|, q, p);
  }

  /** After the replay, what is handled is what was delivered, in order. */
  lemma HandledDeliveries(log: seq<EventRecord>, cap: nat, sub: BrokerRuns.Sub, handled: seq<EventRecord>)
    requires BrokerRuns.Accounted(log, cap, sub)
    requires IsPrefix(handled, BrokerRuns.Frames(sub)) && |handled| > |sub.replay|
    ensures var t := |handled| - |sub.replay|;
      t <= |BrokerRuns.Delivered(sub.attempts)| && handled == sub.replay + BrokerRuns.Delivered(sub.attempts)[..t]
  {
    var t := |handled| - |sub.replay|;
    TakenIsDelivered(log, cap, sub);
    assert handled == sub.replay + sub.taken[..t];
    assert sub.taken[..t] == BrokerRuns.Delivered(sub.attempts)[..t];
  }

  // ----- from one connection to the next

  /** If log[q] is still due after connection k, the cursor of the next connection stands before it. */
  lemma CursorIsBefore(s: State, k: nat, q: nat, p: nat)
    requires Publishable(s.broker.log) && Known(s, k) && Known(s, k + 1)
    requires q < |s.broker.log| && Offered(s.broker.log, SubOf(s, k), q)
    requires p < SubOf(s, k + 1).start && s.broker.log[p].eventId == SubOf(s, k + 1).after
    requires s.broker.log[q] !in s.connections[k].handled && !DroppedForGood(s, k, q) && !CacheAhead(s, k + 1, q)
    ensures p < q
  {
    var handled, before := s.connections[k].handled, HandledOn(s.connections[..k]);
    HandledUntil(s.connections, k);
    if handled != [] {
      CursorWasHandled(s, k, q, p);
    } else {
      assert before + [] == before;
      if before != [] {
        CursorBeforeStart(s, k, q, p);
      }
    }
  }

  lemma CursorWasHandled(s: State, k: nat, q: nat, p: nat)
    requires Publishable(s.broker.log) && Known(s, k) && Known(s, k + 1)
    requires q < |s.broker.log| && Offered(s.broker.log, SubOf(s, k), q)
    requires p < SubOf(s, k + 1).start && s.broker.log[p].eventId == SubOf(s, k + 1).after
    requires s.connections[k].handled != [] && s.broker.log[q] !in s.connections[k].handled && !DroppedForGood(s, k, q)
    ensures p < q
  {
    var handled := s.connections[k].handled;
    LastHandled(s, k, p);
    assert handled[|handled| - 1] in handled;
    if q <= p {
      HandledUpTo(s.broker.log, s.broker.cap, SubOf(s, k), handled, q, p);
      assert q < p;
      assert LaterHandled(s, k, q);
    }
  }

  /** The cursor of connection k + 1 is the last frame handled on connection k, if there is one. */
  lemma LastHandled(s: State, k: nat, p: nat)
    requires Publishable(s.broker.log) && Known(s, k) && Known(s, k + 1) && s.connections[k].handled != []
    requires p < |s.broker.log| && s.broker.log[p].eventId == SubOf(s, k + 1).after
    ensures s.connections[k].handled[|s.connections[k].handled| - 1] == s.broker.log[p]
  {
    var handled, before := s.connections[k].handled, HandledOn(s.connections[..k]);
    var e := handled[|handled| - 1];
    HandledUntil(s.connections, k);
    LastOfAppend(before, handled);
    FrameIsLogged(s, k, e);
    SameEvent(s.broker.log, e, p);
  }

  lemma HandledUntil(connections: seq<Connection>, k: nat)
    requires k < |connections|
    ensures HandledOn(connections[..k + 1]) == HandledOn(connections[..k]) + connections[k].handled
  {
    assert connections[..k + 1][..k] == connections[..k];
  }

  lemma FrameIsLogged(s: State, k: nat, e: EventRecord)
    requires Known(s, k) && Known(s, k + 1) && e in s.connections[k].handled
    ensures e in s.broker.log
  {
    HandledUntil(s.connections, k);
    assert e in HandledOn(s.connections[..k + 1]);
  }

  lemma SameEvent(log: seq<EventRecord>, e: EventRecord, p: nat)
    requires Publishable(log) && e in log && p < |log| && log[p].eventId == e.eventId
    ensures log[p] == e
  {
    var k :| 0 <= k < |log| && log[k] == e;
  }

  /** Nothing handled on connection k: it resumed after the same frame, so log[q] is not in what it skipped. */
  lemma CursorBeforeStart(s: State, k: nat, q: nat, p: nat)
    requires Publishable(s.broker.log) && Known(s, k)
    requires q < |s.broker.log| && Offered(s.broker.log, SubOf(s, k), q)
    requires HandledOn(s.connections[..k]) != [] && p < |s.broker.log| && s.broker.log[p].eventId == SubOf(s, k).after
    ensures p < q
  {
    var log, sub, before := s.broker.log, SubOf(s, k), HandledOn(s.connections[..k]);
    var e := before[|before| - 1];
    assert e in before && e in log[..sub.start];
    var i :| 0 <= i < sub.start && log[..sub.start][i] == e;
    assert log[i] == e && i == p;
    BrokerRuns.ResumedReplay(BrokerRuns.State(s.broker.cap, log, s.broker.ring, s.broker.subs), sub, p);
    BrokerRuns.PieceHolds(log, p + 1, sub.start, q);
  }

  /** An event due on connection k is handled or dropped for good there, or due on the next, or lost on that resume. */
  lemma NextConnection(s: State, k: nat, q: nat)
    requires Publishable(s.broker.log) && Known(s, k) && Known(s, k + 1)
    requires q < |s.broker.log| && Offered(s.broker.log, SubOf(s, k), q)
    requires s.broker.log[q] !in s.connections[k].handled && !DroppedForGood(s, k, q)
    ensures Offered(s.broker.log, SubOf(s, k + 1), q) || LostBefore(s, k + 1, q)
  {
    var log, sub := s.broker.log, SubOf(s, k + 1);
    if q < sub.start && !CacheAhead(s, k + 1, q) {
      forall p | 0 <= p < sub.start && log[p].eventId == sub.after ensures p < q {
        CursorIsBefore(s, k, q, p);
      }
      ResumeOffers(s, sub, q);
    }
  }

  lemma ResumeOffers(s: State, sub: BrokerRuns.Sub, q: nat)
    requires Publishable(s.broker.log) && BrokerRuns.Accounted(s.broker.log, s.broker.cap, sub) && q < sub.start
    requires forall p :: 0 <= p < sub.start && s.broker.log[p].eventId == sub.after ==> p < q
    ensures s.broker.log[q] in sub.replay || LeftRing(s.broker.log, s.broker.cap, sub, q)
  {
    var log, cap := s.broker.log, s.broker.cap;
    var ring := Window(log[..sub.start], cap);
    if sub.after in Ids(ring) {
      var p := WhereInRing(log, cap, sub.start, sub.after);
      BrokerRuns.ResumedReplay(s.broker, sub, p);
      BrokerRuns.PieceHolds(log, p + 1, sub.start, q);
    }
  }

  lemma WhereInRing(log: seq<EventRecord>, cap: nat, start: nat, id: string) returns (p: nat)
    requires start <= |log| && id in Ids(Window(log[..start], cap))
    ensures p < start && start - p <= cap && log[p].eventId == id
  {
    var ring := Window(log[..start], cap);
    var e :| e in ring && e.eventId == id;
    var k :| 0 <= k < |ring| && ring[k] == e;
    p := start - |ring| + k;
    assert ring[k] == log[..start][p] == log[p];
  }

  // ----- all connections

  ghost predicate LostOnResume(s: State, id: string) {
    exists k, q :: 0 < k < |s.connections| && 0 <= q < |s.broker.log| && s.broker.log[q].eventId == id
                && Known(s, k) && LostBefore(s, k, q)
  }

  ghost predicate LostByDrop(s: State, id: string) {
    exists k, q :: 0 <= k < |s.connections| && 0 <= q < |s.broker.log| && s.broker.log[q].eventId == id
                && Known(s, k) && DroppedForGood(s, k, q)
  }

  lemma HandledIsHandled(connections: seq<Connection>, k: nat, e: EventRecord)
    requires k < |connections| && e in connections[k].handled
    ensures e in HandledOn(connections)
    decreases |connections|
  {
    var n := |connections| - 1;
    if k < n {
      HandledIsHandled(connections[..n], k, e);
    }
  }

  /** All there is to know of the connections; the last one has delivered what it was offered. */
  ghost predicate Concluded(s: State) {
    && s.connections != [] && Known(s, |s.connections| - 1)
    && (forall k :: 0 <= k < |s.connections| ==> Known(s, k))
    && Publishable(s.broker.log)
    && DeliversAll(s, |s.connections| - 1)
  }

  ghost predicate DeliversAll(s: State, k: nat)
    requires Known(s, k)
  {
    forall q :: 0 <= q < |s.broker.log| && Offered(s.broker.log, SubOf(s, k), q) ==> ArrivedOn(s, k, q)
  }

  ghost predicate ArrivedOn(s: State, k: nat, q: nat)
    requires Known(s, k) && q < |s.broker.log|
  {
    s.broker.log[q] in s.connections[k].handled || DroppedForGood(s, k, q)
  }

  lemma {:induction false} OfferedArrives(s: State, k: nat, q: nat)
    requires Concluded(s) && Known(s, k)
    requires q < |s.broker.log| && Offered(s.broker.log, SubOf(s, k), q)
    ensures s.broker.log[q] in HandledOn(s.connections) || LostByDrop(s, s.broker.log[q].eventId)
         || LostOnResume(s, s.broker.log[q].eventId)
    decreases |s.connections| - k
  {
    if ArrivedOn(s, k, q) {
      ArrivalCounts(s, k, q);
    } else {
      DueOnNext(s, k, q);
      if Offered(s.broker.log, SubOf(s, k + 1), q) {
        OfferedArrives(s, k + 1, q);
      } else {
        LostHere(s, k + 1, q);
      }
    }
  }

  lemma DueOnNext(s: State, k: nat, q: nat)
    requires Concluded(s) && Known(s, k)
    requires q < |s.broker.log| && Offered(s.broker.log, SubOf(s, k), q)
    requires !ArrivedOn(s, k, q)
    ensures Known(s, k + 1)
    ensures Offered(s.broker.log, SubOf(s, k + 1), q) || LostBefore(s, k + 1, q)
  {
    assert k + 1 < |s.connections|;
    assert Known(s, k + 1);
    NextConnection(s, k, q);
  }

  lemma LostHere(s: State, k: nat, q: nat)
    requires 0 < k && Known(s, k) && q < |s.broker.log| && LostBefore(s, k, q)
    ensures LostOnResume(s, s.broker.log[q].eventId)
  {
  }

  lemma ArrivalCounts(s: State, k: nat, q: nat)
    requires Known(s, k) && q < |s.broker.log| && ArrivedOn(s, k, q)
    ensures s.broker.log[q] in HandledOn(s.connections) || LostByDrop(s, s.broker.log[q].eventId)
  {
    if s.broker.log[q] in s.connections[k].handled {
      HandledIsHandled(s.connections, k, s.broker.log[q]);
    }
  }

  /** The last connection is drained: what it was offered arrived, or was dropped. */
  lemma LastConnection(loc: Collator, s: State, q: nat)
    requires Inv(loc, s) && Quiet(s) && Publishable(s.broker.log)
    requires q < |s.broker.log| && Offered(s.broker.log, CurrentSub(s), q)
    ensures var n := |s.connections| - 1;
      s.broker.log[q] in s.connections[n].handled || s.broker.log[q] in BrokerRuns.Dropped(SubOf(s, n).attempts)
  {
    LastIsDrained(loc, s);
    SentIsTakenOrDropped(s.broker.log, s.broker.cap, CurrentSub(s), q);
  }

  /**
   No loss across reconnects. If no page is answered before the first stream request arrives and
   publishes do not overlap, then once the system is quiet every stored event of the thread is on
   screen, or was dropped for good, or was lost on a resume.
   */
  lemma NothingIsLostAcrossReconnects(loc: Collator, s: State, r: Row)
    requires Reachable(loc, true, true, s) && Quiet(s)
    requires r in s.rows && InSession(s.thread)(r)
    ensures r.eventId in Ids(s.view.shown) || LostByDrop(s, r.eventId) || LostOnResume(s, r.eventId)
  {
    ReachableInv(loc, true, true, s);
    ShownIsOneShot(loc, s);
    if r in s.start.value {
      PagedRowIsShown(s, r);
    } else {
      ItIsConcluded(loc, s);
      var q := LateRowIsLate(loc, s, r);
      assert Known(s, 0);
      OfferedArrives(s, 0, q);
    }
  }

  lemma ItIsConcluded(loc: Collator, s: State)
    requires Inv(loc, s) && s.serial && Quiet(s)
    ensures Concluded(s)
  {
    AllKnown(loc, s);
    LogIsPublishable(loc, s);
    var n := |s.connections| - 1;
    assert Known(s, n) && SubOf(s, n) == CurrentSub(s);
    forall q | 0 <= q < |s.broker.log| && Offered(s.broker.log, SubOf(s, n), q) ensures ArrivedOn(s, n, q) {
      LastConnection(loc, s, q);
    }
  }
}
