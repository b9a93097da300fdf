/** What the dashboard can rely on, over every interleaving of the pipeline's steps. */
module EndToEnd {
  import opened Sequences
  import opened Events
  import opened SessionMerge
  import opened LiveView
  import opened EventStore
  import opened Backfill
  import opened Ring
  import opened Pipeline

  ghost predicate Reachable(loc: Collator, subscribeFirst: bool, serial: bool, s: State) {
    exists thread, cached, ringCap, steps ::
      && ValidRun(loc, Init(subscribeFirst, serial, thread, cached, ringCap), steps)
      && s == Run(loc, Init(subscribeFirst, serial, thread, cached, ringCap), steps)
  }

  lemma InitInv(loc: Collator, subscribeFirst: bool, serial: bool, thread: string, cached: seq<EventRecord>, ringCap: int)
    ensures Inv(loc, Init(subscribeFirst, serial, thread, cached, ringCap))
  {
  }

  lemma {:induction false} EveryRunKeepsInv(loc: Collator, s0: State, steps: seq<Step>)
    requires Inv(loc, s0) && ValidRun(loc, s0, steps)
    ensures Inv(loc, Run(loc, s0, steps))
  {
    if steps != [] {
      EveryRunKeepsInv(loc, s0, steps[..|steps| - 1]);
      StepKeepsInv(loc, Run(loc, s0, steps[..|steps| - 1]), steps[|steps| - 1]);
    }
  }

  lemma {:induction false} EveryRunKeepsModes(loc: Collator, s0: State, steps: seq<Step>)
    requires ValidRun(loc, s0, steps)
    ensures SameModes(s0, Run(loc, s0, steps))
  {
    if steps != [] {
      EveryRunKeepsModes(loc, s0, steps[..|steps| - 1]);
      StepKeepsModes(loc, Run(loc, s0, steps[..|steps| - 1]), steps[|steps| - 1]);
    }
  }

  predicate SameModes(s: State, t: State) {
    s.subscribeFirst == t.subscribeFirst && s.serial == t.serial
  }

  lemma StepKeepsModes(loc: Collator, s: State, step: Step)
    requires Enabled(s, step)
    ensures SameModes(s, Next(loc, s, step))
  {
  }

  lemma ReachableInv(loc: Collator, subscribeFirst: bool, serial: bool, s: State)
    requires Reachable(loc, subscribeFirst, serial, s)
    ensures Inv(loc, s) && s.subscribeFirst == subscribeFirst && s.serial == serial
  {
    var thread, cached, ringCap, steps :|
      && ValidRun(loc, Init(subscribeFirst, serial, thread, cached, ringCap), steps)
      && s == Run(loc, Init(subscribeFirst, serial, thread, cached, ringCap), steps);
    InitInv(loc, subscribeFirst, serial, thread, cached, ringCap);
    EveryRunKeepsInv(loc, Init(subscribeFirst, serial, thread, cached, ringCap), steps);
    EveryRunKeepsModes(loc, Init(subscribeFirst, serial, thread, cached, ringCap), steps);
  }

  /** Paging has ended and been merged, no publish is pending, and nothing is left in the live stream. */
  ghost predicate Quiet(s: State) {
    && s.load == Merged
    && s.unpublished == multiset{}
    && Streaming(s)
    && var sub := CurrentSub(s);
       sub.inFlight == multiset{} && sub.queue == [] && s.replayWritten == |sub.replay| && s.wire == []
  }

  function SubOf(s: State, k: nat): BrokerRuns.Sub
    requires k < |s.connections| && s.connections[k].id in s.broker.subs
  {
    s.broker.subs[s.connections[k].id]
  }

  /** A connection of the client found its channel full for the event. */
  ghost predicate WasDropped(s: State, id: string) {
    exists k :: 0 <= k < |s.connections| && s.connections[k].id in s.broker.subs
             && id in Ids(BrokerRuns.Dropped(SubOf(s, k).attempts))
  }

  /** The frames of all connections but the last. */
  function HandledBefore(s: State): seq<EventRecord> {
    if s.connections == [] then [] else HandledOn(s.connections[..|s.connections| - 1])
  }

  // ----- what is shown

  lemma ShownIsOneShot(loc: Collator, s: State)
    requires Inv(loc, s)
    ensures s.view.shown == OneShot(loc, s.cached, s.callbacks)
    ensures s.load == Merged ==>
      Ids(s.view.shown) == Ids(s.cached) + Ids(Records(s.paging.persisted)) + Ids(HandledOn(s.connections))
  {
    LiveViewRefinesOneShotMerge(loc, s.thread, s.cached, s.callbacks);
    if s.load == Merged {
      var paged, live := PagedEvents(s.callbacks), LiveEvents(s.callbacks);
      MergeMeetsItsPromise(loc, s.cached + paged + live);
      IdsAppend(s.cached + paged, live);
      IdsAppend(s.cached, paged);
    }
  }

  lemma MergedShows(loc: Collator, subscribeFirst: bool, serial: bool, s: State)
    requires Reachable(loc, subscribeFirst, serial, s) && s.load == Merged
    ensures Ids(s.view.shown) == Ids(s.cached) + Ids(Records(s.paging.persisted)) + Ids(HandledOn(s.connections))
  {
    ReachableInv(loc, subscribeFirst, serial, s);
    ShownIsOneShot(loc, s);
  }

  lemma PagedRowIsShown(s: State, r: Row)
    requires PagingOnTrack(s) && s.paging.done && s.start.Some? && ValidTable(s.rows)
    requires r in s.start.value && InSession(s.thread)(r)
    ensures r.eventId in Ids(Records(s.paging.persisted))
  {
    assert r in s.paging.persisted && r in s.rows;
    var k :| 0 <= k < |s.paging.persisted| && s.paging.persisted[k] == r;
    assert Records(s.paging.persisted)[k] == r.record;
    assert r.record in Records(s.paging.persisted);
  }

  /** At the end of a quiet stream, the client has handled every frame of its last connection. */
  lemma LastIsDrained(loc: Collator, s: State)
    requires Inv(loc, s) && Quiet(s)
    ensures var n := |s.connections| - 1; s.connections[n].handled == BrokerRuns.Frames(SubOf(s, n))
    ensures HandledOn(s.connections) == HandledBefore(s) + BrokerRuns.Frames(CurrentSub(s))
  {
    var sub, handled := CurrentSub(s), s.connections[|s.connections| - 1].handled;
    assert handled + [] == handled && sub.replay[..|sub.replay|] == sub.replay;
  }

  // ----- which rows are missing

  /** A row's event, published under its id. */
  lemma PublishedEvent(loc: Collator, s: State, r: Row) returns (q: nat)
    requires Inv(loc, s) && s.unpublished == multiset{} && r in s.rows
    ensures q < |s.broker.log| && s.broker.log[q].eventId == r.eventId
  {
    assert r.eventId in RowIds(s.rows);
    var e :| e in s.broker.log && e.eventId == r.eventId;
    q :| 0 <= q < |s.broker.log| && s.broker.log[q] == e;
  }

  /** Published events carry distinct, non-empty ids. */
  lemma LogIsPublishable(loc: Collator, s: State)
    requires Inv(loc, s)
    ensures Publishable(s.broker.log)
  {
    forall e | e in s.broker.log ensures e.eventId != "" {
      assert e.eventId in Ids(s.broker.log);
    }
  }

  /** Among events of the log an id stands for its event. */
  lemma IdInPiece(log: seq<EventRecord>, piece: seq<EventRecord>, q: nat)
    requires Publishable(log) && q < |log| && forall e :: e in piece ==> e in log
    ensures log[q].eventId in Ids(piece) <==> log[q] in piece
  {
    if log[q].eventId in Ids(piece) {
      var e :| e in piece && e.eventId == log[q].eventId;
      var k :| 0 <= k < |log| && log[k] == e;
    }
  }

  /** What a drained, open subscription was sent is taken or dropped, each event once. */
  lemma SentIsTakenOrDropped(log: seq<EventRecord>, cap: nat, sub: BrokerRuns.Sub, q: nat)
    requires Publishable(log) && BrokerRuns.Accounted(log, cap, sub) && q < |log|
    requires sub.open && sub.inFlight == multiset{} && sub.queue == []
    ensures log[q] in sub.taken || log[q] in BrokerRuns.Dropped(sub.attempts) <==> sub.start <= q
    ensures !(log[q] in sub.taken && log[q] in BrokerRuns.Dropped(sub.attempts))
    ensures forall e :: e in sub.taken || e in BrokerRuns.Dropped(sub.attempts) ==> e in log
  {
    var late, dropped := log[sub.start..], BrokerRuns.Dropped(sub.attempts);
    BrokerRuns.OutcomesPartition(sub.attempts);
    assert sub.taken + [] == sub.taken;
    BrokerRuns.PieceHolds(log, sub.start, |log|, q);
    assert log[sub.start..|log|] == late;
    AtMostOnce(log, sub.start, log[q]);
    InOneOf(late, sub.taken, dropped, log[q]);
    forall e | e in sub.taken || e in dropped ensures e in log {
      InOneOf(late, sub.taken, dropped, e);
    }
  }

  lemma InOneOf<T>(all: seq<T>, xs: seq<T>, ys: seq<T>, e: T)
    requires multiset(all) == multiset(xs) + multiset(ys)
    ensures e in all <==> e in xs || e in ys
    ensures multiset(all)[e] <= 1 ==> !(e in xs && e in ys)
  {
    assert e in all <==> e in multiset(all);
    assert e in xs <==> e in multiset(xs);
    assert e in ys <==> e in multiset(ys);
  }

  lemma AtMostOnce(log: seq<EventRecord>, from: nat, e: EventRecord)
    requires Publishable(log) && from <= |log|
    ensures multiset(log[from..])[e] <= 1
  {
    var late := log[from..];
    if e in late {
      var k :| 0 <= k < |late| && late[k] == e;
      var id := (x: EventRecord) => x.eventId;
      assert DistinctBy(id, late) by {
        forall i, j | 0 <= i < j < |late| ensures id(late[i]) != id(late[j]) {
          assert late[i] == log[from + i] && late[j] == log[from + j];
        }
      }
      OccursOnce(id, late, k);
    }
  }

  /**
   Exactly which stored rows a quiet client does not show, for any order of subscription and
   paging, any number of connections and any overlap of publishes: those that neither the cache
   nor the pages nor an earlier connection had, and that the last connection dropped, or that were
   published before it began and are not in its replay.
   */
  lemma MissingIff(loc: Collator, subscribeFirst: bool, serial: bool, s: State, r: Row)
    requires Reachable(loc, subscribeFirst, serial, s) && Quiet(s) && r in s.rows
    ensures var sub, id := CurrentSub(s), r.eventId;
      && sub.start <= |s.broker.log|
      && (id !in Ids(s.view.shown) <==>
            && id !in Ids(s.cached) + Ids(Records(s.paging.persisted)) + Ids(HandledBefore(s))
            && (id in Ids(BrokerRuns.Dropped(sub.attempts))
                || (id in Ids(s.broker.log[..sub.start]) && id !in Ids(sub.replay))))
  {
    ReachableInv(loc, subscribeFirst, serial, s);
    ShownIsOneShot(loc, s);
    LogIsPublishable(loc, s);
    var q := PublishedEvent(loc, s, r);
    LastIsDrained(loc, s);
    IdsAppend(HandledBefore(s), BrokerRuns.Frames(CurrentSub(s)));
    FramesMissIff(s.broker.log, s.broker.cap, CurrentSub(s), q);
  }

  lemma FramesMissIff(log: seq<EventRecord>, cap: nat, sub: BrokerRuns.Sub, q: nat)
    requires Publishable(log) && BrokerRuns.Accounted(log, cap, sub) && q < |log|
    requires sub.open && sub.inFlight == multiset{} && sub.queue == []
    ensures var id := log[q].eventId;
      id !in Ids(BrokerRuns.Frames(sub)) <==>
        id in Ids(BrokerRuns.Dropped(sub.attempts)) || (id in Ids(log[..sub.start]) && id !in Ids(sub.replay))
  {
    SentIsTakenOrDropped(log, cap, sub, q);
    var a := BrokerRuns.ReplayIsPiece(log, cap, sub);
    IdsAppend(sub.replay, sub.taken);
    IdInPiece(log, sub.replay, q);
    IdInPiece(log, sub.taken, q);
    IdInPiece(log, BrokerRuns.Dropped(sub.attempts), q);
    IdInPiece(log, log[..sub.start], q);
    BrokerRuns.PieceHolds(log, 0, sub.start, q);
    BrokerRuns.PieceHolds(log, a, sub.start, q);
    assert log[0..sub.start] == log[..sub.start];
  }

  // ----- no loss on one connection

  /** With the subscription first, a row that the first page missed was published after it. */
  lemma LateRowIsLate(loc: Collator, s: State, r: Row) returns (q: nat)
    requires Inv(loc, s) && s.subscribeFirst && Quiet(s) && s.start.Some?
    requires r in s.rows && r !in s.start.value
    ensures s.connections != [] && s.connections[0].id in s.broker.subs
    ensures SubOf(s, 0).start <= q < |s.broker.log| && s.broker.log[q].eventId == r.eventId
  {
    assert Linked(s.cached, s.connections, s.broker, 0);
    assert HeldIds(s.unpublished) == {};
    q := WhereInTail(s.broker.log, SubOf(s, 0).start, r.eventId);
  }

  lemma WhereInTail(log: seq<EventRecord>, from: nat, id: string) returns (q: nat)
    requires from <= |log| && id in Ids(log[from..])
    ensures from <= q < |log| && log[q].eventId == id
  {
    var e :| e in log[from..] && e.eventId == id;
    var k :| 0 <= k < |log| - from && log[from..][k] == e;
    q := from + k;
  }

  /**
   No loss: if no page is answered before the stream request arrives, and the connection holds,
   then once the system is quiet every stored event of the thread is on screen, or was dropped
   because the client's channel was full.
   */
  lemma NothingIsLost(loc: Collator, serial: bool, s: State, r: Row)
    requires Reachable(loc, true, serial, s) && Quiet(s) && |s.connections| == 1
    requires r in s.rows && InSession(s.thread)(r)
    ensures r.eventId in Ids(s.view.shown) || WasDropped(s, r.eventId)
  {
    ReachableInv(loc, true, serial, s);
    MissingIff(loc, true, serial, s, r);
    if r in s.start.value {
      ShownIsOneShot(loc, s);
      PagedRowIsShown(s, r);
    } else {
      var q := LateRowIsLate(loc, s, r);
      LogIsPublishable(loc, s);
      NotBefore(s.broker.log, SubOf(s, 0).start, q);
      assert SubOf(s, 0) == CurrentSub(s);
    }
  }

  lemma NotBefore(log: seq<EventRecord>, start: nat, q: nat)
    requires Publishable(log) && start <= q < |log|
    ensures log[q].eventId !in Ids(log[..start])
  {
    IdInPiece(log, log[..start], q);
    BrokerRuns.PieceHolds(log, 0, start, q);
    assert log[0..start] == log[..start];
  }

  /** A drop needs a full channel: 32 events were delivered and not yet taken. At any moment of any run. */
  lemma DropsNeedFullChannel(loc: Collator, subscribeFirst: bool, serial: bool, s: State, id: string)
    requires Reachable(loc, subscribeFirst, serial, s) && WasDropped(s, id)
    ensures exists k, j ::
      && 0 <= k < |s.connections| && s.connections[k].id in s.broker.subs && 0 <= j < |SubOf(s, k).attempts|
      && SubOf(s, k).attempts[j].event.eventId == id && !SubOf(s, k).attempts[j].delivered
      && BrokerRuns.Waiting(SubOf(s, k).attempts, j) == 32
  {
    ReachableInv(loc, subscribeFirst, serial, s);
    var k :| 0 <= k < |s.connections| && s.connections[k].id in s.broker.subs
          && id in Ids(BrokerRuns.Dropped(SubOf(s, k).attempts));
    var j := FullAttempt(SubOf(s, k).attempts, id);
  }

  lemma FullAttempt(attempts: seq<BrokerRuns.Attempt>, id: string) returns (j: nat)
    requires BrokerRuns.OutcomesExplained(attempts) && id in Ids(BrokerRuns.Dropped(attempts))
    ensures j < |attempts| && attempts[j].event.eventId == id && !attempts[j].delivered
    ensures BrokerRuns.Waiting(attempts, j) == BrokerRuns.CHANNEL_CAP
  {
    var e :| e in BrokerRuns.Dropped(attempts) && e.eventId == id;
    BrokerRuns.OutcomeWasAttempted(attempts, false, e);
    j :| 0 <= j < |attempts| && attempts[j].event == e && !attempts[j].delivered;
  }

  /** Nothing invented: whatever is on screen was ingested, or already cached. At any moment of any run. */
  lemma NothingIsInvented(loc: Collator, subscribeFirst: bool, serial: bool, s: State)
    requires Reachable(loc, subscribeFirst, serial, s)
    ensures Ids(s.view.shown) <= Ids(s.cached) + RowIds(s.rows)
  {
    ReachableInv(loc, subscribeFirst, serial, s);
    ShownIsOneShot(loc, s);
    OneShotIds(loc, s.cached, s.callbacks);
    PagedIdsAreStored(s);
    forall id | id in Ids(LiveEvents(s.callbacks)) ensures id in RowIds(s.rows) {
      var e :| e in LiveEvents(s.callbacks) && e.eventId == id;
      assert e in s.broker.log && id in Ids(s.broker.log);
    }
  }

  lemma PagedIdsAreStored(s: State)
    requires LoadOnTrack(s) && PagingOnTrack(s) && ValidTable(s.rows)
    ensures Ids(PagedEvents(s.callbacks)) <= RowIds(s.rows)
  {
    if s.load == Merged {
      forall id | id in Ids(PagedEvents(s.callbacks)) ensures id in RowIds(s.rows) {
        var e :| e in Records(s.paging.persisted) && e.eventId == id;
        var k :| 0 <= k < |s.paging.persisted| && Records(s.paging.persisted)[k] == e;
        assert s.paging.persisted[k] in s.rows;
      }
    } else if s.load != Broken {
      NotSettledNothingPaged(s.callbacks);
    }
  }
}
