/**
 Five runs of the pipeline: one in which a late event takes the way through the stream, and four in
 which an event is lost although no channel was full.
 */
module Scenarios {
  import opened Sequences
  import opened Events
  import opened StableSort
  import opened SessionMerge
  import opened LiveView
  import opened EventStore
  import opened Backfill
  import opened Ring
  import opened Pipeline
  import opened EndToEnd

  lemma InitIsReachable(loc: Collator, subscribeFirst: bool, serial: bool, thread: string)
    ensures Reachable(loc, subscribeFirst, serial, Init(subscribeFirst, serial, thread, [], 512))
  {
    var s0 := Init(subscribeFirst, serial, thread, [], 512);
    assert ValidRun(loc, s0, []) && s0 == Run(loc, s0, []);
  }

  lemma NextIsReachable(loc: Collator, subscribeFirst: bool, serial: bool, s: State, step: Step)
    requires Reachable(loc, subscribeFirst, serial, s) && Enabled(s, step)
    ensures Reachable(loc, subscribeFirst, serial, Next(loc, s, step))
  {
    var thread, cached, ringCap, steps :|
      && ValidRun(loc, Init(subscribeFirst, serial, thread, cached, ringCap), steps)
      && s == Run(loc, Init(subscribeFirst, serial, thread, cached, ringCap), steps);
    var longer := steps + [step];
    assert longer[..|steps|] == steps;
    assert Next(loc, s, step) == Run(loc, Init(subscribeFirst, serial, thread, cached, ringCap), longer);
  }

  lemma EmptyTablePage(thread: string)
    ensures PageOf([], thread, PAGE_LIMIT, "") == Page([], "")
  {
  }

  ghost predicate Storable(row: Row, live: EventRecord) {
    && row.eventId != "" && Cursor.IsInt64(row.occurredAt) && row.record.eventId == row.eventId == live.eventId
    && row.sessionId.Some? && row.sessionId.value != ""
  }

  const NEW_SUB := BrokerRuns.Sub(true, "", 0, [], multiset{}, [], [], [])

  /** A thread without cache, whose only page was empty. */
  function Paged(subscribeFirst: bool, thread: string): State {
    Init(subscribeFirst, true, thread, [], 512).(start := Some([]), paging := Paging([], "", true))
  }

  function Broker(log: seq<EventRecord>, subs: map<nat, BrokerRuns.Sub>): BrokerRuns.State {
    BrokerRuns.State(512, log, log, subs)
  }

  /** The client is connected as subscriber 0 and the broker has published `log` since. */
  function Started(thread: string, rows: seq<Row>, unpublished: multiset<EventRecord>, log: seq<EventRecord>,
                   sub: BrokerRuns.Sub, handled: seq<EventRecord>): State
  {
    Paged(true, thread).(rows := rows, unpublished := unpublished, broker := Broker(log, map[0 := sub]),
                         connections := [Connection(0, handled)], connected := true)
  }

  lemma StartedIsReachable(loc: Collator, serial: bool, thread: string)
    ensures Reachable(loc, true, serial, Started(thread, [], multiset{}, [], NEW_SUB, []).(serial := serial))
  {
    var s0 := Init(true, serial, thread, [], 512);
    InitIsReachable(loc, true, serial, thread);
    NextIsReachable(loc, true, serial, s0, Connect(0));
    var s1 := s0.(broker := Broker([], map[0 := NEW_SUB]), connections := [Connection(0, [])], connected := true);
    assert s1 == Next(loc, s0, Connect(0));
    EmptyTablePage(thread);
    NextIsReachable(loc, true, serial, s1, Request);
    assert Started(thread, [], multiset{}, [], NEW_SUB, []).(serial := serial) == Next(loc, s1, Request);
  }

  // ----- a late event arrives

  /** After the first page: stored, published, sent, written, handled, settled. */
  function Stage(row: Row, live: EventRecord, stage: nat): State
    requires row.sessionId.Some? && stage <= 6
  {
    var sent := NEW_SUB.(attempts := [BrokerRuns.Attempt(live, true, 0)]);
    var started := (unpublished, log, sub, handled) => Started(row.sessionId.value, [row], unpublished, log, sub, handled);
    match stage
    case 0 => Started(row.sessionId.value, [], multiset{}, [], NEW_SUB, [])
    case 1 => started(multiset{live}, [], NEW_SUB, [])
    case 2 => started(multiset{}, [live], NEW_SUB.(inFlight := multiset{live}), [])
    case 3 => started(multiset{}, [live], sent.(queue := [live]), [])
    case 4 => started(multiset{}, [live], sent.(taken := [live]), []).(wire := [live])
    case 5 => Buffered(started(multiset{}, [live], sent.(taken := [live]), [live]), live)
    case 6 => Buffered(started(multiset{}, [live], sent.(taken := [live]), [live]), live).(load := Arrived(1))
  }

  function Buffered(s: State, live: EventRecord): State {
    s.(callbacks := [Live(live)], view := View(s.view.effect.(buffered := [live]), []))
  }

  function StageStep(row: Row, live: EventRecord, stage: nat): Step {
    match stage
    case 0 => Insert(row, live)
    case 1 => Publish(live)
    case 2 => Background(BrokerRuns.Send(0, live))
    case 3 => Write
    case 4 => Deliver
    case _ => LoadSettles
  }

  lemma StageFollows(loc: Collator, row: Row, live: EventRecord, stage: nat)
    requires Storable(row, live) && stage < 6
    ensures Enabled(Stage(row, live, stage), StageStep(row, live, stage))
    ensures Next(loc, Stage(row, live, stage), StageStep(row, live, stage)) == Stage(row, live, stage + 1)
  {
    match stage {
      case 0 =>
      case 1 => PublishedStage(loc, row, live);
      case 2 => SentStage(loc, row, live);
      case 3 => WrittenStage(loc, row, live);
      case 4 => HandledStage(loc, row, live);
      case _ =>
    }
  }

  lemma PublishedOne(subs: map<nat, BrokerRuns.Sub>, live: EventRecord, after: map<nat, BrokerRuns.Sub>)
    requires after.Keys == subs.Keys && forall id :: id in subs ==> after[id] == BrokerRuns.Snapshot(subs[id], live)
    ensures BrokerRuns.Next(Broker([], subs), BrokerRuns.Publish(live)) == Broker([live], after)
  {
    assert PushRing([], 512, live) == [live];
    assert (map id | id in subs :: BrokerRuns.Snapshot(subs[id], live)) == after;
  }

  lemma PublishedStage(loc: Collator, row: Row, live: EventRecord)
    requires Storable(row, live)
    ensures Enabled(Stage(row, live, 1), Publish(live)) && Next(loc, Stage(row, live, 1), Publish(live)) == Stage(row, live, 2)
  {
    assert multiset{live} - multiset{live} == multiset{};
    assert multiset{} + multiset{live} == multiset{live};
    PublishedOne(map[0 := NEW_SUB], live, map[0 := NEW_SUB.(inFlight := multiset{live})]);
  }

  lemma SentStage(loc: Collator, row: Row, live: EventRecord)
    requires Storable(row, live)
    ensures var send := Background(BrokerRuns.Send(0, live));
      Enabled(Stage(row, live, 2), send) && Next(loc, Stage(row, live, 2), send) == Stage(row, live, 3)
  {
    assert multiset{live} - multiset{live} == multiset{};
    assert BrokerRuns.TrySend(NEW_SUB.(inFlight := multiset{live}), live) == Stage(row, live, 3).broker.subs[0];
  }

  lemma WrittenStage(loc: Collator, row: Row, live: EventRecord)
    requires Storable(row, live)
    ensures Enabled(Stage(row, live, 3), Write) && Next(loc, Stage(row, live, 3), Write) == Stage(row, live, 4)
  {
    var s := Stage(row, live, 3);
    TakenFromQueue(s.broker, Stage(row, live, 4).broker, live);
    assert s.wire + [live] == [live];
  }

  lemma TakenFromQueue(before: BrokerRuns.State, after: BrokerRuns.State, live: EventRecord)
    requires 0 in before.subs && before.subs[0].open
    requires before.subs[0].queue == [live] && before.subs[0].taken == []
    requires after == before.(subs := before.subs[0 := before.subs[0].(queue := [], taken := [live])])
    ensures BrokerRuns.Enabled(before, BrokerRuns.Take(0)) && BrokerRuns.Next(before, BrokerRuns.Take(0)) == after
  {
    assert [live][1..] == [] && [] + [live] == [live];
  }

  lemma HandledStage(loc: Collator, row: Row, live: EventRecord)
    requires Storable(row, live)
    ensures Enabled(Stage(row, live, 4), Deliver) && Next(loc, Stage(row, live, 4), Deliver) == Stage(row, live, 5)
  {
    BufferedFrame(loc, Stage(row, live, 4), live);
  }

  lemma {:induction false} StageIsReachable(loc: Collator, row: Row, live: EventRecord, stage: nat)
    requires Storable(row, live) && stage <= 6
    ensures Reachable(loc, true, true, Stage(row, live, stage))
  {
    if stage == 0 {
      StartedIsReachable(loc, true, row.sessionId.value);
    } else {
      StageIsReachable(loc, row, live, stage - 1);
      StageFollows(loc, row, live, stage - 1);
      NextIsReachable(loc, true, true, Stage(row, live, stage - 1), StageStep(row, live, stage - 1));
    }
  }

  lemma NothingDropped(live: EventRecord)
    ensures BrokerRuns.Dropped([BrokerRuns.Attempt(live, true, 0)]) == []
  {
    var a := BrokerRuns.Attempt(live, true, 0);
    assert [] + [a] == [a];
    BrokerRuns.AttemptSnoc([], a);
    assert BrokerRuns.WithOutcome([a], false) == BrokerRuns.WithOutcome([], false) + [];
  }

  lemma NobodyDropped(s: State, id: string)
    requires forall k :: k in s.broker.subs ==> s.broker.subs[k].attempts == [] || BrokerRuns.Dropped(s.broker.subs[k].attempts) == []
    ensures !WasDropped(s, id)
  {
    assert BrokerRuns.Dropped([]) == [];
  }

  lemma HandoffKeepsRest(loc: Collator, s: State)
    requires Enabled(s, Handoff)
    ensures var t := Next(loc, s, Handoff); t == s.(load := Merged, view := t.view, callbacks := t.callbacks)
  {
  }

  lemma LastStageIsQuiet(loc: Collator, row: Row, live: EventRecord)
    requires Storable(row, live)
    ensures Enabled(Stage(row, live, 6), Handoff)
    ensures var s := Next(loc, Stage(row, live, 6), Handoff);
      Quiet(s) && row in s.rows && InSession(s.thread)(row) && |s.connections| == 1 && !WasDropped(s, row.eventId)
  {
    NothingDropped(live);
    HandoffKeepsRest(loc, Stage(row, live, 6));
  }

  /**
   Quiet states are reached: an event stored after the last page was read comes through the
   stream and is on screen, with nothing dropped.
   */
  lemma LateEventIsShown(loc: Collator, row: Row, live: EventRecord)
    requires Storable(row, live)
    ensures exists s ::
      && Reachable(loc, true, true, s) && Quiet(s) && |s.connections| == 1 && row in s.rows && InSession(s.thread)(row)
      && !WasDropped(s, row.eventId) && row.eventId in Ids(s.view.shown)
  {
    StageIsReachable(loc, row, live, 6);
    LastStageIsQuiet(loc, row, live);
    NextIsReachable(loc, true, true, Stage(row, live, 6), Handoff);
    NothingIsLost(loc, true, Next(loc, Stage(row, live, 6), Handoff), row);
  }

  // ----- two losses without a full channel

  /** Stored and published with nobody listening, after the only page; then the client is connected. */
  function Unheard(subscribeFirst: bool, row: Row, live: EventRecord, subs: map<nat, BrokerRuns.Sub>,
                   connections: seq<Connection>, connected: bool): State
    requires row.sessionId.Some?
  {
    Paged(subscribeFirst, row.sessionId.value).(rows := [row], broker := Broker([live], subs),
                                                connections := connections, connected := connected)
  }

  lemma InsertAndPublish(loc: Collator, subscribeFirst: bool, row: Row, live: EventRecord,
                         subs: map<nat, BrokerRuns.Sub>, connections: seq<Connection>)
    requires Storable(row, live)
    requires forall id :: id in subs ==> !subs[id].open && subs[id].inFlight == multiset{}
    requires Reachable(loc, subscribeFirst, true,
               Paged(subscribeFirst, row.sessionId.value).(broker := Broker([], subs), connections := connections))
    ensures Reachable(loc, subscribeFirst, true, Unheard(subscribeFirst, row, live, subs, connections, false))
  {
    var s0 := Paged(subscribeFirst, row.sessionId.value).(broker := Broker([], subs), connections := connections);
    NextIsReachable(loc, subscribeFirst, true, s0, Insert(row, live));
    var s1 := s0.(rows := [row], unpublished := multiset{live});
    assert s1 == Next(loc, s0, Insert(row, live));
    NextIsReachable(loc, subscribeFirst, true, s1, Publish(live));
    UnheardFollows(loc, subscribeFirst, row, live, subs, connections);
  }

  lemma UnheardFollows(loc: Collator, subscribeFirst: bool, row: Row, live: EventRecord,
                       subs: map<nat, BrokerRuns.Sub>, connections: seq<Connection>)
    requires row.sessionId.Some? && forall id :: id in subs ==> !subs[id].open && subs[id].inFlight == multiset{}
    ensures var s := Paged(subscribeFirst, row.sessionId.value).(rows := [row], unpublished := multiset{live},
                                                                 broker := Broker([], subs), connections := connections);
      Enabled(s, Publish(live)) && Next(loc, s, Publish(live)) == Unheard(subscribeFirst, row, live, subs, connections, false)
  {
    assert multiset{live} - multiset{live} == multiset{};
    PublishedOne(subs, live, subs);
  }

  /** The client connects, the load settles and is merged: nothing is shown. */
  lemma ConnectAndMerge(loc: Collator, subscribeFirst: bool, row: Row, live: EventRecord,
                        subs: map<nat, BrokerRuns.Sub>, connections: seq<Connection>, id: nat)
    requires Storable(row, live) && id !in subs && HandledOn(connections) == []
    requires Reachable(loc, subscribeFirst, true, Unheard(subscribeFirst, row, live, subs, connections, false))
    ensures var s := Unheard(subscribeFirst, row, live, subs[id := NEW_SUB.(start := 1)], connections + [Connection(id, [])], true)
                     .(load := Arrived(0));
      && Reachable(loc, subscribeFirst, true, s) && Enabled(s, Handoff)
      && Reachable(loc, subscribeFirst, true, Next(loc, s, Handoff)) && Next(loc, s, Handoff).view.shown == []
  {
    var s0 := Unheard(subscribeFirst, row, live, subs, connections, false);
    NextIsReachable(loc, subscribeFirst, true, s0, Connect(id));
    var s1 := Unheard(subscribeFirst, row, live, subs[id := NEW_SUB.(start := 1)], connections + [Connection(id, [])], true);
    assert s1 == Next(loc, s0, Connect(id));
    NextIsReachable(loc, subscribeFirst, true, s1, LoadSettles);
    var s2 := s1.(load := Arrived(0));
    assert s2 == Next(loc, s1, LoadSettles);
    NextIsReachable(loc, subscribeFirst, true, s2, Handoff);
    NothingMerged(loc, s2);
  }

  lemma NothingMerged(loc: Collator, s: State)
    requires s.cached == [] && s.view == Open(s.thread, []) && s.load == Arrived(0) && s.paging.persisted == []
    ensures Next(loc, s, Handoff).view.shown == []
  {
    assert Records([]) + [][..0] == [];
    assert Merge(loc, []) == [];
  }

  /** What a lost row looks like: the system is quiet, and the row neither shown nor dropped. */
  ghost predicate Loses(s: State, row: Row) {
    && Quiet(s) && row in s.rows && InSession(s.thread)(row)
    && row.eventId !in Ids(s.view.shown) && !WasDropped(s, row.eventId)
  }

  lemma UnheardLoses(loc: Collator, s: State, row: Row)
    requires Enabled(s, Handoff) && Next(loc, s, Handoff).view.shown == []
    requires s.unpublished == multiset{} && s.wire == [] && s.replayWritten == 0 && Streaming(s)
    requires CurrentSub(s) == NEW_SUB.(start := 1) && forall id :: id in s.broker.subs ==> s.broker.subs[id].attempts == []
    requires row in s.rows && InSession(s.thread)(row)
    ensures Loses(Next(loc, s, Handoff), row)
    ensures Next(loc, s, Handoff).connections == s.connections && Next(loc, s, Handoff).broker == s.broker
  {
    HandoffKeepsRest(loc, s);
    assert BrokerRuns.Dropped([]) == [];
  }

  /** However an event comes to be published with nobody listening, a client that resumes without a cursor loses it. */
  lemma {:induction false} UnheardIsLost(loc: Collator, subscribeFirst: bool, row: Row, live: EventRecord,
                      subs: map<nat, BrokerRuns.Sub>, connections: seq<Connection>, id: nat)
    requires Storable(row, live) && id !in subs && HandledOn(connections) == []
    requires forall i :: i in subs ==> !subs[i].open && subs[i].inFlight == multiset{} && subs[i].attempts == []
    requires Reachable(loc, subscribeFirst, true,
               Paged(subscribeFirst, row.sessionId.value).(broker := Broker([], subs), connections := connections))
    ensures exists s :: Reachable(loc, subscribeFirst, true, s) && Loses(s, row)
                     && |s.connections| == |connections| + 1 && |s.broker.log| == 1
  {
    InsertAndPublish(loc, subscribeFirst, row, live, subs, connections);
    ConnectAndMerge(loc, subscribeFirst, row, live, subs, connections, id);
    var s := Unheard(subscribeFirst, row, live, subs[id := NEW_SUB.(start := 1)], connections + [Connection(id, [])], true)
             .(load := Arrived(0));
    NothingSent(s, subs, connections, id);
    UnheardLoses(loc, s, row);
  }

  lemma NothingSent(s: State, subs: map<nat, BrokerRuns.Sub>, connections: seq<Connection>, id: nat)
    requires s.connected && s.connections == connections + [Connection(id, [])]
    requires s.broker.subs == subs[id := NEW_SUB.(start := 1)] && forall i :: i in subs ==> subs[i].attempts == []
    ensures Streaming(s) && CurrentSub(s) == NEW_SUB.(start := 1)
    ensures forall i :: i in s.broker.subs ==> s.broker.subs[i].attempts == []
  {
  }

  /**
   The order "subscribe, then page" is needed, and the client does not enforce it: if the first
   page is answered before the stream request arrives, an event published in between is neither
   shown nor dropped.
   */
  lemma PagingFirstCanLose(loc: Collator, row: Row, live: EventRecord)
    requires Storable(row, live)
    ensures exists s :: Reachable(loc, false, true, s) && |s.connections| == 1 && Loses(s, row)
  {
    var thread := row.sessionId.value;
    var s0 := Init(false, true, thread, [], 512);
    InitIsReachable(loc, false, true, thread);
    EmptyTablePage(thread);
    NextIsReachable(loc, false, true, s0, Request);
    assert Paged(false, thread).(broker := Broker([], map[]), connections := []) == Next(loc, s0, Request);
    UnheardIsLost(loc, false, row, live, map[], [], 0);
  }

  /**
   A client that has no frame and no cache cannot resume: if its connection breaks, an event
   published before it is back is neither shown nor dropped, however small the ring's backlog.
   */
  lemma ResumeWithoutFrameCanLose(loc: Collator, row: Row, live: EventRecord)
    requires Storable(row, live)
    ensures exists s :: Reachable(loc, true, true, s) && |s.connections| == 2 && |s.broker.log| == 1 && Loses(s, row)
  {
    var first := Connection(0, []);
    BrokenIsReachable(loc, row.sessionId.value);
    assert [first][..0] == [] && HandledOn([first]) == [];
    UnheardIsLost(loc, true, row, live, map[0 := NEW_SUB.(open := false)], [first], 1);
  }

  lemma BrokenIsReachable(loc: Collator, thread: string)
    ensures Reachable(loc, true, true, Paged(true, thread).(broker := Broker([], map[0 := NEW_SUB.(open := false)]),
                                                            connections := [Connection(0, [])]))
  {
    StartedIsReachable(loc, true, thread);
    var s0 := Started(thread, [], multiset{}, [], NEW_SUB, []);
    NextIsReachable(loc, true, true, s0, Disconnect);
    var s1 := s0.(connected := false);
    var close := Background(BrokerRuns.Unsubscribe(0));
    NextIsReachable(loc, true, true, s1, close);
    assert Next(loc, s1, close) == Paged(true, thread).(broker := Broker([], map[0 := NEW_SUB.(open := false)]),
                                                        connections := [Connection(0, [])]);
  }

  // ----- a loss by overtaking

  /** Two events of one thread. */
  ghost predicate TwoStorable(a: Row, x: EventRecord, b: Row, y: EventRecord) {
    Storable(a, x) && Storable(b, y) && a.eventId != b.eventId && a.sessionId == b.sessionId
  }

  /** Started, with publishes that may overlap. */
  function Overlapping(thread: string, rows: seq<Row>, unpublished: multiset<EventRecord>, log: seq<EventRecord>,
                       sub: BrokerRuns.Sub, handled: seq<EventRecord>): State
  {
    Started(thread, rows, unpublished, log, sub, handled).(serial := false)
  }

  /** x still in flight, y sent. */
  function SentSecond(x: EventRecord, y: EventRecord): BrokerRuns.Sub {
    NEW_SUB.(inFlight := multiset{x}, attempts := [BrokerRuns.Attempt(y, true, 0)])
  }

  /** a stored and published, b stored and published, b sent, written and handled; the connection breaks. */
  function Overtaken(a: Row, x: EventRecord, b: Row, y: EventRecord, stage: nat): State
    requires a.sessionId.Some? && stage <= 10
  {
    var thread := a.sessionId.value;
    match stage
    case 0 => Overlapping(thread, [], multiset{}, [], NEW_SUB, [])
    case 1 => Overlapping(thread, [a], multiset{x}, [], NEW_SUB, [])
    case 2 => Overlapping(thread, [a], multiset{}, [x], NEW_SUB.(inFlight := multiset{x}), [])
    case 3 => Overlapping(thread, [a, b], multiset{y}, [x], NEW_SUB.(inFlight := multiset{x}), [])
    case 4 => Overlapping(thread, [a, b], multiset{}, [x, y], NEW_SUB.(inFlight := multiset{x} + multiset{y}), [])
    case 5 => Overlapping(thread, [a, b], multiset{}, [x, y], SentSecond(x, y).(queue := [y]), [])
    case 6 => Overlapping(thread, [a, b], multiset{}, [x, y], SentSecond(x, y).(taken := [y]), []).(wire := [y])
    case 7 => SecondInHand(a, x, b, y)
    case 8 => SecondInHand(a, x, b, y).(connected := false)
    case 9 => Returned(a, x, b, y)
    case 10 => Returned(a, x, b, y).(load := Arrived(1))
  }

  function SecondInHand(a: Row, x: EventRecord, b: Row, y: EventRecord): State
    requires a.sessionId.Some?
  {
    Buffered(Overlapping(a.sessionId.value, [a, b], multiset{}, [x, y], SentSecond(x, y).(taken := [y]), [y]), y)
  }

  function Returned(a: Row, x: EventRecord, b: Row, y: EventRecord): State
    requires a.sessionId.Some?
  {
    SecondInHand(a, x, b, y).(broker := Broker([x, y], map[0 := SentSecond(x, y).(taken := [y]), 1 := Back(y)]),
                              connections := [Connection(0, [y]), Connection(1, [])])
  }

  /** The client is back, after y. */
  function Back(y: EventRecord): BrokerRuns.Sub {
    BrokerRuns.Sub(true, y.eventId, 2, [], multiset{}, [], [], [])
  }

  function OvertakenStep(a: Row, x: EventRecord, b: Row, y: EventRecord, stage: nat): Step {
    match stage
    case 0 => Insert(a, x)
    case 1 => Publish(x)
    case 2 => Insert(b, y)
    case 3 => Publish(y)
    case 4 => Background(BrokerRuns.Send(0, y))
    case 5 => Write
    case 6 => Deliver
    case 7 => Disconnect
    case 8 => Connect(1)
    case _ => LoadSettles
  }

  lemma OvertakenFollows(loc: Collator, a: Row, x: EventRecord, b: Row, y: EventRecord, stage: nat)
    requires TwoStorable(a, x, b, y) && stage < 10
    ensures Enabled(Overtaken(a, x, b, y, stage), OvertakenStep(a, x, b, y, stage))
    ensures Next(loc, Overtaken(a, x, b, y, stage), OvertakenStep(a, x, b, y, stage)) == Overtaken(a, x, b, y, stage + 1)
  {
    match stage {
      case 0 => FirstStored(loc, a, x, b, y);
      case 1 => FirstPublished(loc, a, x, b, y);
      case 2 => SecondStored(loc, a, x, b, y);
      case 3 => SecondPublished(loc, a, x, b, y);
      case 4 => SecondSent(loc, a, x, b, y);
      case 5 => SecondWritten(loc, a, x, b, y);
      case 6 => SecondHandled(loc, a, x, b, y);
      case 7 => ConnectionBreaks(loc, a, x, b, y);
      case 8 => ClientBack(loc, a, x, b, y);
      case _ =>
    }
  }

  lemma FirstStored(loc: Collator, a: Row, x: EventRecord, b: Row, y: EventRecord)
    requires TwoStorable(a, x, b, y)
    ensures Enabled(Overtaken(a, x, b, y, 0), Insert(a, x))
    ensures Next(loc, Overtaken(a, x, b, y, 0), Insert(a, x)) == Overtaken(a, x, b, y, 1)
  {
  }

  lemma ConnectionBreaks(loc: Collator, a: Row, x: EventRecord, b: Row, y: EventRecord)
    requires TwoStorable(a, x, b, y)
    ensures Enabled(Overtaken(a, x, b, y, 7), Disconnect)
    ensures Next(loc, Overtaken(a, x, b, y, 7), Disconnect) == Overtaken(a, x, b, y, 8)
  {
  }

  lemma FirstPublished(loc: Collator, a: Row, x: EventRecord, b: Row, y: EventRecord)
    requires TwoStorable(a, x, b, y)
    ensures Enabled(Overtaken(a, x, b, y, 1), Publish(x))
    ensures Next(loc, Overtaken(a, x, b, y, 1), Publish(x)) == Overtaken(a, x, b, y, 2)
  {
    assert multiset{x} - multiset{x} == multiset{} && multiset{} + multiset{x} == multiset{x};
    PublishedOne(map[0 := NEW_SUB], x, map[0 := NEW_SUB.(inFlight := multiset{x})]);
  }

  lemma SecondStored(loc: Collator, a: Row, x: EventRecord, b: Row, y: EventRecord)
    requires TwoStorable(a, x, b, y)
    ensures Enabled(Overtaken(a, x, b, y, 2), Insert(b, y))
    ensures Next(loc, Overtaken(a, x, b, y, 2), Insert(b, y)) == Overtaken(a, x, b, y, 3)
  {
    assert [a] + [b] == [a, b] && multiset{} + multiset{y} == multiset{y};
  }

  lemma SecondPublished(loc: Collator, a: Row, x: EventRecord, b: Row, y: EventRecord)
    requires TwoStorable(a, x, b, y)
    ensures Enabled(Overtaken(a, x, b, y, 3), Publish(y))
    ensures Next(loc, Overtaken(a, x, b, y, 3), Publish(y)) == Overtaken(a, x, b, y, 4)
  {
    assert multiset{y} - multiset{y} == multiset{};
    var before, after := NEW_SUB.(inFlight := multiset{x}), NEW_SUB.(inFlight := multiset{x} + multiset{y});
    assert BrokerRuns.Snapshot(before, y) == after;
    PublishedNext(x, y, before, after);
  }

  lemma PublishedNext(x: EventRecord, y: EventRecord, before: BrokerRuns.Sub, after: BrokerRuns.Sub)
    requires BrokerRuns.Snapshot(before, y) == after
    ensures BrokerRuns.Next(Broker([x], map[0 := before]), BrokerRuns.Publish(y)) == Broker([x, y], map[0 := after])
  {
    var subs := map[0 := before];
    assert [x] + [y] == [x, y] && PushRing([x], 512, y) == [x, y];
    assert (map id | id in subs :: BrokerRuns.Snapshot(subs[id], y)) == map[0 := after];
  }

  lemma SecondSent(loc: Collator, a: Row, x: EventRecord, b: Row, y: EventRecord)
    requires TwoStorable(a, x, b, y)
    ensures Enabled(Overtaken(a, x, b, y, 4), Background(BrokerRuns.Send(0, y)))
    ensures Next(loc, Overtaken(a, x, b, y, 4), Background(BrokerRuns.Send(0, y))) == Overtaken(a, x, b, y, 5)
  {
    assert multiset{x} + multiset{y} - multiset{y} == multiset{x};
    assert BrokerRuns.TrySend(Overtaken(a, x, b, y, 4).broker.subs[0], y) == Overtaken(a, x, b, y, 5).broker.subs[0];
  }

  lemma SecondWritten(loc: Collator, a: Row, x: EventRecord, b: Row, y: EventRecord)
    requires TwoStorable(a, x, b, y)
    ensures Enabled(Overtaken(a, x, b, y, 5), Write)
    ensures Next(loc, Overtaken(a, x, b, y, 5), Write) == Overtaken(a, x, b, y, 6)
  {
    var s := Overtaken(a, x, b, y, 5);
    TakenFromQueue(s.broker, Overtaken(a, x, b, y, 6).broker, y);
    assert s.wire + [y] == [y];
  }

  lemma SecondHandled(loc: Collator, a: Row, x: EventRecord, b: Row, y: EventRecord)
    requires TwoStorable(a, x, b, y)
    ensures Enabled(Overtaken(a, x, b, y, 6), Deliver)
    ensures Next(loc, Overtaken(a, x, b, y, 6), Deliver) == Overtaken(a, x, b, y, 7)
  {
    BufferedFrame(loc, Overtaken(a, x, b, y, 6), y);
  }

  /** A frame handled before the handoff goes to the buffer. */
  lemma BufferedFrame(loc: Collator, s: State, y: EventRecord)
    requires s.wire == [y] && s.connections == [Connection(0, [])] && s.callbacks == [] && s.view == Open(s.thread, [])
    ensures Enabled(s, Deliver)
    ensures Next(loc, s, Deliver) == Buffered(s.(wire := [], connections := [Connection(0, [y])]), y)
  {
    assert s.wire[1..] == [] && [] + [y] == [y] && [] + [Live(y)] == [Live(y)];
    assert Handle(s.connections, y) == [Connection(0, [y])];
    assert Follow(loc, s.view, Live(y)) == View(s.view.effect.(buffered := [y]), []);
  }

  lemma ClientBack(loc: Collator, a: Row, x: EventRecord, b: Row, y: EventRecord)
    requires TwoStorable(a, x, b, y)
    ensures Enabled(Overtaken(a, x, b, y, 8), Connect(1))
    ensures Next(loc, Overtaken(a, x, b, y, 8), Connect(1)) == Overtaken(a, x, b, y, 9)
  {
    HandledOnce(y);
    NothingAfterLast(x, y);
    assert [Connection(0, [y])] + [Connection(1, [])] == [Connection(0, [y]), Connection(1, [])];
    Reconnected(loc, Overtaken(a, x, b, y, 8), Overtaken(a, x, b, y, 9), 1);
  }

  /** What a reconnect changes, when nothing is replayed. */
  lemma Reconnected(loc: Collator, s: State, t: State, id: nat)
    requires !s.connected && id !in s.broker.subs && s.replayWritten == 0 && s.wire == []
    requires var after := ResumeAfter(s.cached, HandledOn(s.connections));
      && ReplayAfter(s.broker.ring, after) == []
      && t == s.(connections := s.connections + [Connection(id, [])], connected := true, broker := s.broker.(
                   subs := s.broker.subs[id := BrokerRuns.Sub(true, after, |s.broker.log|, [], multiset{}, [], [], [])]))
    ensures Enabled(s, Connect(id)) && Next(loc, s, Connect(id)) == t
  {
  }

  lemma NothingAfterLast(x: EventRecord, y: EventRecord)
    requires x.eventId != y.eventId
    ensures ReplayAfter([x, y], y.eventId) == []
  {
    assert [x, y][1..] == [y] && [y][1..] == [];
  }

  lemma HandledOnce(y: EventRecord)
    ensures HandledOn([Connection(0, [y])]) == [y]
    ensures HandledOn([Connection(0, [y]), Connection(1, [])]) == [y]
  {
    assert [Connection(0, [y])][..0] == [] && [] + [y] == [y];
    assert [Connection(0, [y]), Connection(1, [])][..1] == [Connection(0, [y])] && [y] + [] == [y];
  }

  lemma {:induction false} OvertakenIsReachable(loc: Collator, a: Row, x: EventRecord, b: Row, y: EventRecord, stage: nat)
    requires TwoStorable(a, x, b, y) && stage <= 10
    ensures Reachable(loc, true, false, Overtaken(a, x, b, y, stage))
  {
    if stage == 0 {
      StartedIsReachable(loc, false, a.sessionId.value);
    } else {
      OvertakenIsReachable(loc, a, x, b, y, stage - 1);
      OvertakenFollows(loc, a, x, b, y, stage - 1);
      NextIsReachable(loc, true, false, Overtaken(a, x, b, y, stage - 1), OvertakenStep(a, x, b, y, stage - 1));
    }
  }

  /**
   Publishes that overlap can lose an event: b's frame overtakes a's, the connection breaks, and
   the client comes back after b.
   */
  lemma OvertakingCanLose(loc: Collator, a: Row, x: EventRecord, b: Row, y: EventRecord)
    requires TwoStorable(a, x, b, y)
    ensures exists s :: Reachable(loc, true, false, s) && |s.connections| == 2 && |s.broker.log| == 2 && Loses(s, a)
  {
    OvertakenIsReachable(loc, a, x, b, y, 10);
    OvertakenHandsOff(loc, a, x, b, y);
    NextIsReachable(loc, true, false, Overtaken(a, x, b, y, 10), Handoff);
    OvertakenLoses(loc, a, x, b, y, Next(loc, Overtaken(a, x, b, y, 10), Handoff));
  }

  lemma OvertakenHandsOff(loc: Collator, a: Row, x: EventRecord, b: Row, y: EventRecord)
    requires TwoStorable(a, x, b, y)
    ensures Enabled(Overtaken(a, x, b, y, 10), Handoff)
    ensures var t := Next(loc, Overtaken(a, x, b, y, 10), Handoff);
      t == Overtaken(a, x, b, y, 10).(load := Merged, view := t.view, callbacks := t.callbacks)
  {
    HandoffKeepsRest(loc, Overtaken(a, x, b, y, 10));
  }

  lemma OvertakenLoses(loc: Collator, a: Row, x: EventRecord, b: Row, y: EventRecord, t: State)
    requires TwoStorable(a, x, b, y) && Reachable(loc, true, false, t)
    requires t == Overtaken(a, x, b, y, 10).(load := Merged, view := t.view, callbacks := t.callbacks)
    ensures Loses(t, a) && |t.connections| == 2 && |t.broker.log| == 2
  {
    OvertakenIsQuiet(a, x, b, y, t);
    MergedShows(loc, true, false, t);
    ShowsOnly(t, y);
  }

  lemma ShowsOnly(t: State, y: EventRecord)
    requires Ids(t.view.shown) == Ids(t.cached) + Ids(Records(t.paging.persisted)) + Ids(HandledOn(t.connections))
    requires t.cached == [] && t.paging.persisted == [] && t.connections == [Connection(0, [y]), Connection(1, [])]
    ensures Ids(t.view.shown) == {y.eventId}
  {
    HandledOnce(y);
    assert Ids([y]) == {y.eventId} && Ids(Records([])) == {};
  }

  lemma OvertakenIsQuiet(a: Row, x: EventRecord, b: Row, y: EventRecord, t: State)
    requires TwoStorable(a, x, b, y)
    requires t == Returned(a, x, b, y).(load := Merged, view := t.view, callbacks := t.callbacks)
    ensures Quiet(t) && a in t.rows && InSession(t.thread)(a) && !WasDropped(t, a.eventId)
    ensures t.cached == [] && t.paging.persisted == [] && t.connections == [Connection(0, [y]), Connection(1, [])]
    ensures |t.broker.log| == 2
  {
    NothingDropped(y);
    NobodyDropped(t, a.eventId);
  }

  // ----- a loss by a cursor from the cache

  /** early was paged by an earlier visit, so that the cache ends with it, and is not published yet; a is new. */
  ghost predicate CachedAndNew(c: EventRecord, early: Row, x: EventRecord, a: Row, y: EventRecord) {
    TwoStorable(early, x, a, y) && c.eventId == early.eventId
  }

  lemma OneRowPage(row: Row, thread: string)
    requires InSession(thread)(row)
    ensures PageOf([row], thread, PAGE_LIMIT, "") == Page([row], "")
  {
    KeyLeIsPreorder();
    FilterOne(InSession(thread), row);
    SortFixesSorted(KeyLe, [row]);
    FilterOne(IsBeyond(Cursor.Start), row);
    assert History([row], thread) == [row];
  }

  /** A subscription of a client whose cursor is c. */
  function After(c: EventRecord, start: nat): BrokerRuns.Sub {
    NEW_SUB.(after := c.eventId, start := start)
  }

  /** The client is connected and has read its page, which holds early. */
  function Visited(c: EventRecord, early: Row, rows: seq<Row>, unpublished: multiset<EventRecord>,
                   log: seq<EventRecord>, subs: map<nat, BrokerRuns.Sub>): State
    requires early.sessionId.Some?
  {
    Init(true, true, early.sessionId.value, [c], 512).(
      rows := rows, unpublished := unpublished, broker := Broker(log, subs), connections := [Connection(0, [])],
      connected := true, start := Some([early]), paging := Paging([early], "", true))
  }

  lemma VisitedIsReachable(loc: Collator, c: EventRecord, early: Row, x: EventRecord, a: Row, y: EventRecord)
    requires CachedAndNew(c, early, x, a, y)
    ensures Reachable(loc, true, true, Visited(c, early, [early], multiset{x}, [], map[0 := After(c, 0)]))
  {
    var thread := early.sessionId.value;
    var s0 := Init(true, true, thread, [c], 512);
    assert ValidRun(loc, s0, []) && s0 == Run(loc, s0, []);
    NextIsReachable(loc, true, true, s0, Insert(early, x));
    VisitConnects(loc, c, early, x);
    NextIsReachable(loc, true, true, Next(loc, s0, Insert(early, x)), Connect(0));
    var s2 := Awaiting(c, early, x);
    OneRowPage(early, thread);
    NextIsReachable(loc, true, true, s2, Request);
    VisitRequests(loc, s2, early);
  }

  /** Stored, and the client connected. */
  function Awaiting(c: EventRecord, early: Row, x: EventRecord): State
    requires early.sessionId.Some?
  {
    Init(true, true, early.sessionId.value, [c], 512).(
      rows := [early], unpublished := multiset{x}, broker := Broker([], map[0 := After(c, 0)]),
      connections := [Connection(0, [])], connected := true)
  }

  lemma VisitConnects(loc: Collator, c: EventRecord, early: Row, x: EventRecord)
    requires Storable(early, x)
    ensures var s0 := Init(true, true, early.sessionId.value, [c], 512);
      && Enabled(s0, Insert(early, x)) && Enabled(Next(loc, s0, Insert(early, x)), Connect(0))
      && Next(loc, Next(loc, s0, Insert(early, x)), Connect(0)) == Awaiting(c, early, x)
  {
    var s0 := Init(true, true, early.sessionId.value, [c], 512);
    assert Next(loc, s0, Insert(early, x)) == s0.(rows := [early], unpublished := multiset{x});
  }

  lemma VisitRequests(loc: Collator, s: State, early: Row)
    requires Enabled(s, Request) && s.rows == [early] && s.start == None && s.paging == FIRST_REQUEST
    requires PageOf([early], s.thread, PAGE_LIMIT, "") == Page([early], "")
    ensures Next(loc, s, Request) == s.(start := Some([early]), paging := Paging([early], "", true))
  {
    assert [] + [early] == [early];
  }

  /** a stored, published and sent; the connection breaks; early published; the client is back; the load settles. */
  function Behind(c: EventRecord, early: Row, x: EventRecord, a: Row, y: EventRecord, stage: nat): State
    requires early.sessionId.Some? && stage <= 7
  {
    var sent := After(c, 0).(attempts := [BrokerRuns.Attempt(y, true, 0)], queue := [y]);
    var late := sent.(inFlight := multiset{x});
    match stage
    case 0 => Visited(c, early, [early], multiset{x}, [], map[0 := After(c, 0)])
    case 1 => Visited(c, early, [early, a], multiset{x} + multiset{y}, [], map[0 := After(c, 0)])
    case 2 => Visited(c, early, [early, a], multiset{x}, [y], map[0 := After(c, 0).(inFlight := multiset{y})])
    case 3 => Visited(c, early, [early, a], multiset{x}, [y], map[0 := sent])
    case 4 => Visited(c, early, [early, a], multiset{x}, [y], map[0 := sent]).(connected := false)
    case 5 => Visited(c, early, [early, a], multiset{}, [y, x], map[0 := late]).(connected := false)
    case 6 => BackBehind(c, early, x, a, y)
    case 7 => BackBehind(c, early, x, a, y).(load := Arrived(0))
  }

  function BackBehind(c: EventRecord, early: Row, x: EventRecord, a: Row, y: EventRecord): State
    requires early.sessionId.Some?
  {
    var late := After(c, 0).(attempts := [BrokerRuns.Attempt(y, true, 0)], queue := [y], inFlight := multiset{x});
    Visited(c, early, [early, a], multiset{}, [y, x], map[0 := late, 1 := After(c, 2)])
      .(connections := [Connection(0, []), Connection(1, [])])
  }

  function BehindStep(c: EventRecord, early: Row, x: EventRecord, a: Row, y: EventRecord, stage: nat): Step {
    match stage
    case 0 => Insert(a, y)
    case 1 => Publish(y)
    case 2 => Background(BrokerRuns.Send(0, y))
    case 3 => Disconnect
    case 4 => Publish(x)
    case 5 => Connect(1)
    case _ => LoadSettles
  }

  lemma BehindFollows(loc: Collator, c: EventRecord, early: Row, x: EventRecord, a: Row, y: EventRecord, stage: nat)
    requires CachedAndNew(c, early, x, a, y) && stage < 7
    ensures Enabled(Behind(c, early, x, a, y, stage), BehindStep(c, early, x, a, y, stage))
    ensures Next(loc, Behind(c, early, x, a, y, stage), BehindStep(c, early, x, a, y, stage)) == Behind(c, early, x, a, y, stage + 1)
  {
    match stage {
      case 0 => NewStored(loc, c, early, x, a, y);
      case 1 => NewPublished(loc, c, early, x, a, y);
      case 2 => NewSent(loc, c, early, x, a, y);
      case 3 => VisitBreaks(loc, c, early, x, a, y);
      case 4 => OldPublished(loc, c, early, x, a, y);
      case 5 => BackAfterOld(loc, c, early, x, a, y);
      case _ => VisitSettles(loc, c, early, x, a, y);
    }
  }

  lemma NewStored(loc: Collator, c: EventRecord, early: Row, x: EventRecord, a: Row, y: EventRecord)
    requires CachedAndNew(c, early, x, a, y)
    ensures Enabled(Behind(c, early, x, a, y, 0), Insert(a, y))
    ensures Next(loc, Behind(c, early, x, a, y, 0), Insert(a, y)) == Behind(c, early, x, a, y, 1)
  {
    assert [early] + [a] == [early, a];
  }

  lemma NewPublished(loc: Collator, c: EventRecord, early: Row, x: EventRecord, a: Row, y: EventRecord)
    requires CachedAndNew(c, early, x, a, y)
    ensures Enabled(Behind(c, early, x, a, y, 1), Publish(y))
    ensures Next(loc, Behind(c, early, x, a, y, 1), Publish(y)) == Behind(c, early, x, a, y, 2)
  {
    assert multiset{x} + multiset{y} - multiset{y} == multiset{x};
    assert multiset{} + multiset{y} == multiset{y};
    PublishedOne(map[0 := After(c, 0)], y, map[0 := After(c, 0).(inFlight := multiset{y})]);
  }

  lemma NewSent(loc: Collator, c: EventRecord, early: Row, x: EventRecord, a: Row, y: EventRecord)
    requires CachedAndNew(c, early, x, a, y)
    ensures Enabled(Behind(c, early, x, a, y, 2), Background(BrokerRuns.Send(0, y)))
    ensures Next(loc, Behind(c, early, x, a, y, 2), Background(BrokerRuns.Send(0, y))) == Behind(c, early, x, a, y, 3)
  {
    assert multiset{y} - multiset{y} == multiset{};
    assert BrokerRuns.TrySend(After(c, 0).(inFlight := multiset{y}), y) == Behind(c, early, x, a, y, 3).broker.subs[0];
  }

  lemma VisitBreaks(loc: Collator, c: EventRecord, early: Row, x: EventRecord, a: Row, y: EventRecord)
    requires CachedAndNew(c, early, x, a, y)
    ensures Enabled(Behind(c, early, x, a, y, 3), Disconnect)
    ensures Next(loc, Behind(c, early, x, a, y, 3), Disconnect) == Behind(c, early, x, a, y, 4)
  {
  }

  lemma OldPublished(loc: Collator, c: EventRecord, early: Row, x: EventRecord, a: Row, y: EventRecord)
    requires CachedAndNew(c, early, x, a, y)
    ensures Enabled(Behind(c, early, x, a, y, 4), Publish(x))
    ensures Next(loc, Behind(c, early, x, a, y, 4), Publish(x)) == Behind(c, early, x, a, y, 5)
  {
    assert multiset{x} - multiset{x} == multiset{} && multiset{} + multiset{x} == multiset{x};
    var before, after := Behind(c, early, x, a, y, 4).broker.subs[0], Behind(c, early, x, a, y, 5).broker.subs[0];
    assert BrokerRuns.Snapshot(before, x) == after;
    PublishedNext(y, x, before, after);
  }

  lemma BackAfterOld(loc: Collator, c: EventRecord, early: Row, x: EventRecord, a: Row, y: EventRecord)
    requires CachedAndNew(c, early, x, a, y)
    ensures Enabled(Behind(c, early, x, a, y, 5), Connect(1))
    ensures Next(loc, Behind(c, early, x, a, y, 5), Connect(1)) == Behind(c, early, x, a, y, 6)
  {
    NothingHandled();
    NothingAfterLast(y, x);
    assert [Connection(0, [])] + [Connection(1, [])] == [Connection(0, []), Connection(1, [])];
    Reconnected(loc, Behind(c, early, x, a, y, 5), Behind(c, early, x, a, y, 6), 1);
  }

  lemma NothingHandled()
    ensures HandledOn([Connection(0, [])]) == []
  {
    assert [Connection(0, [])][..0] == [];
  }

  lemma VisitSettles(loc: Collator, c: EventRecord, early: Row, x: EventRecord, a: Row, y: EventRecord)
    requires CachedAndNew(c, early, x, a, y)
    ensures Enabled(Behind(c, early, x, a, y, 6), LoadSettles)
    ensures Next(loc, Behind(c, early, x, a, y, 6), LoadSettles) == Behind(c, early, x, a, y, 7)
  {
  }

  lemma {:induction false} BehindIsReachable(loc: Collator, c: EventRecord, early: Row, x: EventRecord, a: Row, y: EventRecord, stage: nat)
    requires CachedAndNew(c, early, x, a, y) && stage <= 7
    ensures Reachable(loc, true, true, Behind(c, early, x, a, y, stage))
  {
    if stage == 0 {
      VisitedIsReachable(loc, c, early, x, a, y);
    } else {
      BehindIsReachable(loc, c, early, x, a, y, stage - 1);
      BehindFollows(loc, c, early, x, a, y, stage - 1);
      NextIsReachable(loc, true, true, Behind(c, early, x, a, y, stage - 1), BehindStep(c, early, x, a, y, stage - 1));
    }
  }

  /**
   A cursor from the cache can stand behind a new event: the client read an event from the store
   before the hub published it, its connection breaks before a frame, and it resumes after that
   event, which was published later than the one it misses.
   */
  lemma CacheCursorCanLose(loc: Collator, c: EventRecord, early: Row, x: EventRecord, a: Row, y: EventRecord)
    requires CachedAndNew(c, early, x, a, y)
    ensures exists s :: Reachable(loc, true, true, s) && |s.connections| == 2 && |s.broker.log| == 2 && Loses(s, a)
  {
    BehindIsReachable(loc, c, early, x, a, y, 7);
    BehindHandsOff(loc, c, early, x, a, y);
    NextIsReachable(loc, true, true, Behind(c, early, x, a, y, 7), Handoff);
    BehindLoses(loc, c, early, x, a, y, Next(loc, Behind(c, early, x, a, y, 7), Handoff));
  }

  lemma BehindHandsOff(loc: Collator, c: EventRecord, early: Row, x: EventRecord, a: Row, y: EventRecord)
    requires CachedAndNew(c, early, x, a, y)
    ensures Enabled(Behind(c, early, x, a, y, 7), Handoff)
    ensures var t := Next(loc, Behind(c, early, x, a, y, 7), Handoff);
      t == Behind(c, early, x, a, y, 7).(load := Merged, view := t.view, callbacks := t.callbacks)
  {
    HandoffKeepsRest(loc, Behind(c, early, x, a, y, 7));
  }

  lemma BehindLoses(loc: Collator, c: EventRecord, early: Row, x: EventRecord, a: Row, y: EventRecord, t: State)
    requires CachedAndNew(c, early, x, a, y) && Reachable(loc, true, true, t)
    requires t == Behind(c, early, x, a, y, 7).(load := Merged, view := t.view, callbacks := t.callbacks)
    ensures Loses(t, a) && |t.connections| == 2 && |t.broker.log| == 2
  {
    MergedShows(loc, true, true, t);
    ShowsOld(t, c, early);
    BehindIsQuiet(c, early, x, a, y, t);
  }

  lemma ShowsOld(t: State, c: EventRecord, early: Row)
    requires Ids(t.view.shown) == Ids(t.cached) + Ids(Records(t.paging.persisted)) + Ids(HandledOn(t.connections))
    requires t.cached == [c] && t.paging.persisted == [early] && t.connections == [Connection(0, []), Connection(1, [])]
    requires c.eventId == early.eventId == early.record.eventId
    ensures Ids(t.view.shown) == {c.eventId}
  {
    var one := [Connection(0, [])];
    assert one[..0] == [] && [Connection(0, []), Connection(1, [])][..1] == one;
    assert HandledOn(one) == [] && HandledOn(t.connections) == [];
    assert Records([early]) == [early.record];
    assert Ids([c]) == {c.eventId} && Ids([early.record]) == {c.eventId};
  }

  lemma BehindIsQuiet(c: EventRecord, early: Row, x: EventRecord, a: Row, y: EventRecord, t: State)
    requires CachedAndNew(c, early, x, a, y)
    requires t == BackBehind(c, early, x, a, y).(load := Merged, view := t.view, callbacks := t.callbacks)
    ensures Quiet(t) && a in t.rows && InSession(t.thread)(a) && !WasDropped(t, a.eventId)
  {
    NothingDropped(y);
    NobodyDropped(t, a.eventId);
  }
}
