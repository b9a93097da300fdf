/** The losses of Reconnects are final, so that they say exactly what a client misses. */
module ReconnectLosses {
  import opened Sequences
  import opened Events
  import opened EventStore
  import opened Backfill
  import opened Ring
  import opened Deliveries
  import opened Pipeline
  import opened EndToEnd
  import opened Reconnects

  // ----- an event that a connection does not offer

  /** Every frame of a connection that does not offer log[q] was published after it. */
  lemma FramesComeAfter(log: seq<EventRecord>, cap: nat, sub: BrokerRuns.Sub, q: nat, p: nat)
    requires Publishable(log) && BrokerRuns.Accounted(log, cap, sub) && BrokerRuns.InOrder(log, sub)
    requires q < |log| && !Offered(log, sub, q) && p < |log| && log[p] in BrokerRuns.Frames(sub)
    ensures q < p
  {
    if log[p] in sub.replay {
      var a := BrokerRuns.ReplayIsPiece(log, cap, sub);
      BrokerRuns.PieceHolds(log, a, sub.start, p);
      BrokerRuns.PieceHolds(log, a, sub.start, q);
    } else {
      TakenComesAfter(log, cap, sub, p);
    }
  }

  lemma TakenComesAfter(log: seq<EventRecord>, cap: nat, sub: BrokerRuns.Sub, p: nat)
    requires Publishable(log) && BrokerRuns.Accounted(log, cap, sub) && BrokerRuns.InOrder(log, sub)
    requires p < |log| && log[p] in sub.taken
    ensures sub.start <= p
  {
    TakenIsDelivered(log, cap, sub);
    SendsLog(log, sub);
    assert log[p] in BrokerRuns.Delivered(sub.attempts);
    WhichAttempt(log, sub.start, sub.attempts, p, true);
  }

  lemma NotHandledHere(s: State, k: nat, q: nat)
    requires Publishable(s.broker.log) && Known(s, k) && q < |s.broker.log| && !Offered(s.broker.log, SubOf(s, k), q)
    ensures forall p :: 0 <= p <= q ==> s.broker.log[p] !in s.connections[k].handled
  {
    forall p: nat | p <= q ensures s.broker.log[p] !in s.connections[k].handled {
      if s.broker.log[p] in s.connections[k].handled {
        FramesComeAfter(s.broker.log, s.broker.cap, SubOf(s, k), q, p);
      }
    }
  }

  /** A resume after log[p] offers nothing up to p. */
  lemma CursorOffersLater(s: State, k: nat, q: nat, p: nat)
    requires Publishable(s.broker.log) && Known(s, k) && q <= p < SubOf(s, k).start
    requires s.broker.log[p].eventId == SubOf(s, k).after
    ensures !Offered(s.broker.log, SubOf(s, k), q)
  {
    BrokerRuns.ResumedReplay(s.broker, SubOf(s, k), p);
    BrokerRuns.PieceHolds(s.broker.log, p + 1, SubOf(s, k).start, q);
  }

  /** What a connection does not offer the next one does not offer either. */
  lemma StaysLost(s: State, k: nat, q: nat)
    requires Publishable(s.broker.log) && Known(s, k) && Known(s, k + 1)
    requires q < |s.broker.log| && !Offered(s.broker.log, SubOf(s, k), q)
    ensures !Offered(s.broker.log, SubOf(s, k + 1), q)
  {
    if s.connections[k].handled != [] {
      var p := CursorInLog(s, k);
      NotHandledHere(s, k, q);
      CursorOffersLater(s, k + 1, q, p);
    } else {
      SameCursor(s, k, q);
    }
  }

  lemma CursorIsLast(s: State, k: nat)
    requires Known(s, k) && Known(s, k + 1) && s.connections[k].handled != []
    ensures var e := s.connections[k].handled[|s.connections[k].handled| - 1];
      SubOf(s, k + 1).after == e.eventId && e in s.connections[k].handled && e in HandledOn(s.connections[..k + 1])
  {
    HandledUntil(s.connections, k);
    LastOfAppend(HandledOn(s.connections[..k]), s.connections[k].handled);
  }

  /** The last frame handled on connection k is the next one's cursor, and stands in the log. */
  lemma CursorInLog(s: State, k: nat) returns (p: nat)
    requires Publishable(s.broker.log) && Known(s, k) && Known(s, k + 1) && s.connections[k].handled != []
    ensures p < SubOf(s, k + 1).start && s.broker.log[p].eventId == SubOf(s, k + 1).after
    ensures s.broker.log[p] == s.connections[k].handled[|s.connections[k].handled| - 1]
    ensures s.broker.log[p] in s.connections[k].handled
  {
    var handled := s.connections[k].handled;
    var e := handled[|handled| - 1];
    CursorIsLast(s, k);
    var log, start := s.broker.log, SubOf(s, k + 1).start;
    assert e in log[..start];
    p :| 0 <= p < start && log[..start][p] == e;
  }

  /** With nothing handled on connection k, the next one resumes after the same id, later. */
  lemma SameCursor(s: State, k: nat, q: nat)
    requires Publishable(s.broker.log) && Known(s, k) && Known(s, k + 1) && s.connections[k].handled == []
    requires q < |s.broker.log| && !Offered(s.broker.log, SubOf(s, k), q)
    ensures !Offered(s.broker.log, SubOf(s, k + 1), q)
  {
    HandledUntil(s.connections, k);
    assert HandledOn(s.connections[..k]) + [] == HandledOn(s.connections[..k]);
    assert SubOf(s, k).after == SubOf(s, k + 1).after && SubOf(s, k).start <= SubOf(s, k + 1).start;
    LaterResume(s.broker, SubOf(s, k), SubOf(s, k + 1), q);
  }

  lemma LaterResume(broker: BrokerRuns.State, one: BrokerRuns.Sub, two: BrokerRuns.Sub, q: nat)
    requires Publishable(broker.log) && BrokerRuns.Accounted(broker.log, broker.cap, one)
    requires BrokerRuns.Accounted(broker.log, broker.cap, two)
    requires one.after == two.after && one.start <= two.start && q < one.start && broker.log[q] !in one.replay
    ensures broker.log[q] !in two.replay
  {
    var log, cap := broker.log, broker.cap;
    if two.after in Ids(Window(log[..two.start], cap)) {
      var p := WhereInRing(log, cap, two.start, two.after);
      BrokerRuns.ResumedReplay(broker, two, p);
      BrokerRuns.PieceHolds(log, p + 1, two.start, q);
      if p < one.start {
        BrokerRuns.ResumedReplay(broker, one, p);
        BrokerRuns.PieceHolds(log, p + 1, one.start, q);
      }
    } else {
      ReplayOfUnknown(Window(log[..two.start], cap), two.after);
    }
  }

  /** So no later one offers it. */
  lemma NeverOffered(s: State, k: nat, j: nat, q: nat)
    requires Publishable(s.broker.log) && k <= j < |s.connections| && AllAreKnown(s)
    requires q < |s.broker.log| && !OfferedOn(s, k, q)
    ensures !OfferedOn(s, j, q)
  {
    var offered := seq(|s.connections|, i requires 0 <= i < |s.connections| => OfferedOn(s, i, q));
    forall i | 0 <= i < |offered| - 1 && !offered[i] ensures !offered[i + 1] {
      ThisIsKnown(s, i);
      ThisIsKnown(s, i + 1);
      StaysLost(s, i, q);
    }
    StaysFalse(offered, k, j);
  }

  ghost predicate OfferedOn(s: State, k: nat, q: nat)
    requires k < |s.connections| && q < |s.broker.log|
  {
    s.connections[k].id in s.broker.subs && Offered(s.broker.log, SubOf(s, k), q)
  }

  lemma {:induction false} StaysFalse(flags: seq<bool>, k: nat, j: nat)
    requires k <= j < |flags| && !flags[k]
    requires forall i :: 0 <= i < |flags| - 1 && !flags[i] ==> !flags[i + 1]
    ensures !flags[j]
  {
    if k < j {
      StaysFalse(flags, k, j - 1);
    }
  }

  ghost predicate AllAreKnown(s: State) {
    forall i :: 0 <= i < |s.connections| ==> Known(s, i)
  }

  lemma ThisIsKnown(s: State, k: nat)
    requires AllAreKnown(s) && k < |s.connections|
    ensures Known(s, k)
  {
  }

  lemma NeverAgain(s: State, k: nat, j: nat, q: nat)
    requires Publishable(s.broker.log) && k <= j < |s.connections| && Known(s, k) && AllAreKnown(s)
    requires q < |s.broker.log| && !Offered(s.broker.log, SubOf(s, k), q)
    ensures s.broker.log[q] !in s.connections[j].handled
  {
    ThisIsKnown(s, j);
    NeverOffered(s, k, j, q);
    NotHandledHere(s, j, q);
  }

  // ----- the last frame handled is the newest

  /** frames end with log[p], and hold nothing newer. */
  ghost predicate NewestIs(log: seq<EventRecord>, frames: seq<EventRecord>, p: nat) {
    && frames != [] && p < |log| && frames[|frames| - 1] == log[p]
    && forall i :: p < i < |log| ==> log[i] !in frames
  }

  lemma NewestOnConnection(log: seq<EventRecord>, cap: nat, sub: BrokerRuns.Sub, handled: seq<EventRecord>, p: nat)
    requires Publishable(log) && BrokerRuns.Accounted(log, cap, sub) && BrokerRuns.InOrder(log, sub)
    requires IsPrefix(handled, BrokerRuns.Frames(sub)) && handled != [] && p < |log| && handled[|handled| - 1] == log[p]
    ensures NewestIs(log, handled, p)
  {
    var a := BrokerRuns.ReplayIsPiece(log, cap, sub);
    var m, r := |handled|, |sub.replay|;
    if m <= r {
      assert handled == sub.replay[..m];
      NewestInPiece(log, a, sub.start, handled, p);
    } else {
      NewestTaken(log, cap, sub, handled, p);
    }
  }

  lemma NewestInPiece(log: seq<EventRecord>, a: nat, b: nat, frames: seq<EventRecord>, p: nat)
    requires Publishable(log) && a <= b <= |log| && 0 < |frames| <= b - a && frames == log[a..b][..|frames|]
    requires p < |log| && frames[|frames| - 1] == log[p]
    ensures NewestIs(log, frames, p)
  {
    var m := |frames|;
    assert frames == log[a..a + m];
    assert log[a + m - 1] == frames[m - 1];
    forall i | p < i < |log| ensures log[i] !in frames {
      BrokerRuns.PieceHolds(log, a, a + m, i);
    }
  }

  lemma NewestTaken(log: seq<EventRecord>, cap: nat, sub: BrokerRuns.Sub, handled: seq<EventRecord>, p: nat)
    requires Publishable(log) && BrokerRuns.Accounted(log, cap, sub) && BrokerRuns.InOrder(log, sub)
    requires IsPrefix(handled, BrokerRuns.Frames(sub)) && |handled| > |sub.replay|
    requires p < |log| && handled[|handled| - 1] == log[p]
    ensures NewestIs(log, handled, p)
  {
    var t := |handled| - |sub.replay|;
    HandledDeliveries(log, cap, sub, handled);
    SendsLog(log, sub);
    assert log[p] in BrokerRuns.Delivered(sub.attempts);
    WhichAttempt(log, sub.start, sub.attempts, p, true);
    var a := BrokerRuns.ReplayIsPiece(log, cap, sub);
    forall i | p < i < |log| ensures log[i] !in handled {
      BrokerRuns.PieceHolds(log, a, sub.start, i);
      NoneNewerDelivered(log, sub.start, sub.attempts, t, i, p);
    }
  }

  ghost predicate EndsNewest(log: seq<EventRecord>, frames: seq<EventRecord>) {
    frames == [] || exists p :: NewestIs(log, frames, p)
  }

  /** Over all connections before k, too. */
  lemma NewestBefore(s: State, k: nat) returns (p: nat)
    requires Publishable(s.broker.log) && k < |s.connections| && AllAreKnown(s) && HandledOn(s.connections[..k]) != []
    ensures NewestIs(s.broker.log, HandledOn(s.connections[..k]), p)
  {
    var log, n := s.broker.log, |s.connections|;
    var outdated := seq(n, i requires 0 <= i < n => !EndsNewest(log, HandledOn(s.connections[..i])));
    assert HandledOn(s.connections[..0]) == [];
    forall i | 0 <= i < |outdated| - 1 && !outdated[i] ensures !outdated[i + 1] {
      ThisIsKnown(s, i);
      ThisIsKnown(s, i + 1);
      EndsNewestNext(s, i);
    }
    StaysFalse(outdated, 0, k);
    p :| NewestIs(log, HandledOn(s.connections[..k]), p);
  }

  lemma EndsNewestNext(s: State, n: nat)
    requires Publishable(s.broker.log) && Known(s, n) && Known(s, n + 1)
    requires EndsNewest(s.broker.log, HandledOn(s.connections[..n]))
    ensures EndsNewest(s.broker.log, HandledOn(s.connections[..n + 1]))
  {
    var log, before, handled := s.broker.log, HandledOn(s.connections[..n]), s.connections[n].handled;
    HandledUntil(s.connections, n);
    if handled == [] {
      assert before + [] == before;
    } else {
      var p := CursorInLog(s, n);
      NewestOnConnection(log, s.broker.cap, SubOf(s, n), handled, p);
      if before != [] {
        var b :| NewestIs(log, before, b);
        OlderBefore(s, n, b, p);
        NewestAppend(log, before, handled, b, p);
      } else {
        assert [] + handled == handled;
      }
    }
  }

  lemma NewestAppend(log: seq<EventRecord>, before: seq<EventRecord>, handled: seq<EventRecord>, b: nat, p: nat)
    requires NewestIs(log, before, b) && NewestIs(log, handled, p) && b < p
    ensures NewestIs(log, before + handled, p)
  {
    LastOfAppend(before, handled);
  }

  /** What connection n resumes with is newer than everything handled before. */
  lemma OlderBefore(s: State, n: nat, b: nat, p: nat)
    requires Publishable(s.broker.log) && Known(s, n) && p < |s.broker.log| && s.broker.log[p] in s.connections[n].handled
    requires NewestIs(s.broker.log, HandledOn(s.connections[..n]), b)
    ensures b < p
  {
    var log, before := s.broker.log, HandledOn(s.connections[..n]);
    assert log[b] in before && log[b] in log[..SubOf(s, n).start];
    var i :| 0 <= i < SubOf(s, n).start && log[..SubOf(s, n).start][i] == log[b];
    assert log[i] == log[b];
    CursorOffersLater(s, n, b, b);
    FramesComeAfter(log, s.broker.cap, SubOf(s, n), b, p);
  }

  // ----- the losses are final

  /** Lost on the resume of connection k: never handled before, and not offered any more. */
  lemma LostBeforeIsFinal(s: State, k: nat, q: nat)
    requires Publishable(s.broker.log) && AllAreKnown(s) && Known(s, k)
    requires q < |s.broker.log| && LostBefore(s, k, q)
    ensures !Offered(s.broker.log, SubOf(s, k), q) && s.broker.log[q] !in HandledOn(s.connections[..k])
  {
    var log, sub, before := s.broker.log, SubOf(s, k), HandledOn(s.connections[..k]);
    if CacheAhead(s, k, q) {
      var p :| q <= p < sub.start && log[p].eventId == sub.after;
      CursorOffersLater(s, k, q, p);
    } else {
      ReplayOfUnknown(Window(log[..sub.start], s.broker.cap), sub.after);
      if before != [] {
        var p := NewestBefore(s, k);
        assert log[p] in before && log[p] in log[..sub.start];
        var i :| 0 <= i < sub.start && log[..sub.start][i] == log[p];
        assert i == p && log[p].eventId == sub.after;
      }
    }
  }

  /** Dropped on connection k: never handled before or there; with a newer frame handled there, not offered any more. */
  lemma DropIsFinal(s: State, k: nat, q: nat)
    requires Publishable(s.broker.log) && Known(s, k) && q < |s.broker.log| && DroppedForGood(s, k, q)
    ensures s.broker.log[q] !in HandledOn(s.connections[..k]) && s.broker.log[q] !in s.connections[k].handled
    ensures Known(s, k + 1) ==> !Offered(s.broker.log, SubOf(s, k + 1), q)
  {
    var log, sub := s.broker.log, SubOf(s, k);
    SendsLog(log, sub);
    DroppedOrDelivered(log, sub.start, sub.attempts, q);
    DroppedNotHandled(s, k, q);
    BrokerRuns.PieceHolds(log, 0, sub.start, q);
    assert log[0..sub.start] == log[..sub.start];
    if Known(s, k + 1) {
      NewerIsCursor(s, k, q);
    }
  }

  lemma NewerIsCursor(s: State, k: nat, q: nat)
    requires Publishable(s.broker.log) && Known(s, k) && Known(s, k + 1) && LaterHandled(s, k, q) && q < |s.broker.log|
    ensures !Offered(s.broker.log, SubOf(s, k + 1), q)
  {
    var log, handled := s.broker.log, s.connections[k].handled;
    var later :| q < later < |log| && log[later] in handled;
    var p := CursorInLog(s, k);
    NewestOnConnection(log, s.broker.cap, SubOf(s, k), handled, p);
    CursorOffersLater(s, k + 1, q, p);
  }

  lemma DroppedNotHandled(s: State, k: nat, q: nat)
    requires Publishable(s.broker.log) && Known(s, k) && SubOf(s, k).start <= q < |s.broker.log|
    requires s.broker.log[q] !in BrokerRuns.Delivered(SubOf(s, k).attempts)
    ensures s.broker.log[q] !in s.connections[k].handled
  {
    var log, sub := s.broker.log, SubOf(s, k);
    var a := BrokerRuns.ReplayIsPiece(log, s.broker.cap, sub);
    BrokerRuns.PieceHolds(log, a, sub.start, q);
    TakenIsDelivered(log, s.broker.cap, sub);
  }

  /** An event handled neither before connection k nor from it on is not handled at all. */
  lemma {:induction false} NotHandledAtAll(connections: seq<Connection>, k: nat, e: EventRecord)
    requires k <= |connections| && e !in HandledOn(connections[..k])
    requires forall j :: k <= j < |connections| ==> e !in connections[j].handled
    ensures e !in HandledOn(connections)
    decreases |connections|
  {
    if k == |connections| {
      assert connections[..k] == connections;
    } else {
      var front := connections[..|connections| - 1];
      assert front[..k] == connections[..k];
      NotHandledAtAll(front, k, e);
    }
  }

  lemma LostOnResumeIsFinal(s: State, k: nat, q: nat)
    requires Publishable(s.broker.log) && AllAreKnown(s) && Known(s, k)
    requires q < |s.broker.log| && LostBefore(s, k, q)
    ensures s.broker.log[q] !in HandledOn(s.connections)
  {
    LostBeforeIsFinal(s, k, q);
    forall j | k <= j < |s.connections| ensures s.broker.log[q] !in s.connections[j].handled {
      NeverAgain(s, k, j, q);
    }
    NotHandledAtAll(s.connections, k, s.broker.log[q]);
  }

  lemma LostByDropIsFinal(s: State, k: nat, q: nat)
    requires Publishable(s.broker.log) && AllAreKnown(s) && Known(s, k)
    requires q < |s.broker.log| && DroppedForGood(s, k, q)
    ensures s.broker.log[q] !in HandledOn(s.connections)
  {
    DropIsFinal(s, k, q);
    HandledUntil(s.connections, k);
    forall j | k + 1 <= j < |s.connections| ensures s.broker.log[q] !in s.connections[j].handled {
      ThisIsKnown(s, k + 1);
      NeverAgain(s, k + 1, j, q);
    }
    NotHandledAtAll(s.connections, k + 1, s.broker.log[q]);
  }

  /** What was lost is on screen only if the cache or a page had it. At any moment after the handoff. */
  lemma LossesAreFinal(loc: Collator, s: State, id: string)
    requires Reachable(loc, true, true, s) && s.load == Merged && (LostOnResume(s, id) || LostByDrop(s, id))
    requires id !in Ids(s.cached) + Ids(Records(s.paging.persisted))
    ensures id !in Ids(s.view.shown)
  {
    MergedShows(loc, true, true, s);
    ReachableInv(loc, true, true, s);
    AllKnown(loc, s);
    LogIsPublishable(loc, s);
    NeverHandled(s, id);
    FramesAreLogged(loc, s);
  }

  lemma FramesAreLogged(loc: Collator, s: State)
    requires Inv(loc, s)
    ensures forall e :: e in HandledOn(s.connections) ==> e in s.broker.log
  {
  }

  lemma NeverHandled(s: State, id: string)
    requires Publishable(s.broker.log) && AllAreKnown(s)
    requires LostOnResume(s, id) || LostByDrop(s, id)
    requires forall e :: e in HandledOn(s.connections) ==> e in s.broker.log
    ensures id !in Ids(HandledOn(s.connections))
  {
    var q: nat;
    if LostOnResume(s, id) {
      var k, q' :| 0 < k < |s.connections| && 0 <= q' < |s.broker.log| && s.broker.log[q'].eventId == id
                && Known(s, k) && LostBefore(s, k, q');
      LostOnResumeIsFinal(s, k, q');
      q := q';
    } else {
      var k, q' :| 0 <= k < |s.connections| && 0 <= q' < |s.broker.log| && s.broker.log[q'].eventId == id
                && Known(s, k) && DroppedForGood(s, k, q');
      LostByDropIsFinal(s, k, q');
      q := q';
    }
    IdInPiece(s.broker.log, HandledOn(s.connections), q);
  }

  /**
   Exactly what a quiet client misses after any number of broken connections, if no page is
   answered before the first stream request arrives and publishes do not overlap: the events of the
   thread that neither cache nor pages had, and that were lost on a resume or dropped for good.
   */
  lemma MissingAfterReconnectsIff(loc: Collator, s: State, r: Row)
    requires Reachable(loc, true, true, s) && Quiet(s)
    requires r in s.rows && InSession(s.thread)(r)
    ensures r.eventId !in Ids(s.view.shown) <==>
      && r.eventId !in Ids(s.cached) + Ids(Records(s.paging.persisted))
      && (LostOnResume(s, r.eventId) || LostByDrop(s, r.eventId))
  {
    MergedShows(loc, true, true, s);
    NothingIsLostAcrossReconnects(loc, s, r);
    if r.eventId !in Ids(s.cached) + Ids(Records(s.paging.persisted)) && (LostOnResume(s, r.eventId) || LostByDrop(s, r.eventId)) {
      LossesAreFinal(loc, s, r.eventId);
    }
  }
}
