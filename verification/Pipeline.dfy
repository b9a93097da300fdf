/**
 Ingest, broker, stream and dashboard together, for one open thread: events are inserted, then
 published; the broker sends to the client's channel, the stream handler writes frames, the client
 buffers them while it pages through the stored history, and finally shows everything merged.
 The connection may break at any time, and the client comes back after its last frame. Every step
 may interleave with every other.
 */
module Pipeline {
  import opened Sequences
  import opened Events
  import opened SessionMerge
  import opened LiveView
  import opened Cursor
  import opened EventStore
  import opened Backfill
  import BrokerRuns

  datatype Load = Waiting | Arrived(buffered: nat) | Merged | Broken

  /** One connection of the client: its subscription, and the frames the client has handled on it. */
  datatype Connection = Connection(id: nat, handled: seq<EventRecord>)

  /**
   `subscribeFirst` says that no page is answered before the broker has seen the first stream
   request, `serial` that publishes do not overlap: the program guarantees neither. `connections`
   are the client's, newest last; the program knows the last handled frame only. `start` is the
   table when the first page was answered and `callbacks` what the client was called back with;
   the program keeps neither.
   */
  datatype State = State(
    subscribeFirst: bool,
    serial: bool,
    thread: string,
    cached: seq<EventRecord>,
    rows: seq<Row>,
    unpublished: multiset<EventRecord>,
    broker: BrokerRuns.State,
    connections: seq<Connection>,
    connected: bool,
    replayWritten: nat,
    wire: seq<EventRecord>,
    paging: Paging,
    load: Load,
    view: View,
    start: Option<seq<Row>>,
    callbacks: seq<Callback>)

  datatype Step =
    /** AppendEvent commits a row; `live` is the record that will be published for it. */
    | Insert(row: Row, live: EventRecord)
    /** Publish enters its critical section. */
    | Publish(live: EventRecord)
    /** A send, or anything another subscriber does, or the end of a broken connection's handler. */
    | Background(step: BrokerRuns.Step)
    /** A stream request of the client reaches the broker, with its last event id. */
    | Connect(id: nat)
    /** The connection breaks; what is on the wire may still arrive until the client comes back. */
    | Disconnect
    /** The stream handler writes a frame. */
    | Write
    /** The client handles a frame. */
    | Deliver
    /** The client receives a frame that is not an event. */
    | Noise
    /** The store answers a page request. */
    | Request
    | RequestFails
    /** The load promise settles; later its continuation runs. */
    | LoadSettles
    | Handoff

  function Init(subscribeFirst: bool, serial: bool, thread: string, cached: seq<EventRecord>, ringCap: int): State {
    State(subscribeFirst, serial, thread, cached, [], multiset{}, BrokerRuns.NewBroker(ringCap), [], false, 0, [],
          FIRST_REQUEST, Waiting, Open(thread, cached), None, [])
  }

  function LatestEventId(events: seq<EventRecord>): string {
    if events == [] then "" else events[|events| - 1].eventId
  }

  /** What a stream request resumes after: Last-Event-ID once a frame was handled, else `since`. */
  function ResumeAfter(cached: seq<EventRecord>, handled: seq<EventRecord>): string {
    if handled == [] then LatestEventId(cached) else LatestEventId(handled)
  }

  /** The newest event: the last frame handled, else the last one of the cache, which is the latest of a merged list. */
  lemma ResumesAfterNewest(loc: Collator, cached: seq<EventRecord>, handled: seq<EventRecord>)
    ensures handled != [] ==> ResumeAfter(cached, handled) == handled[|handled| - 1].eventId
    ensures handled == [] && cached == [] ==> ResumeAfter(cached, handled) == ""
    ensures handled == [] && cached != [] && InTimeOrder(loc, cached) ==>
      exists newest :: newest in cached && ResumeAfter(cached, handled) == newest.eventId
        && forall e :: e in cached ==> e == newest || loc(e.timestamp, newest.timestamp) <= 0
  {
    if handled == [] && cached != [] && InTimeOrder(loc, cached) {
      var newest := cached[|cached| - 1];
      forall e | e in cached ensures e == newest || loc(e.timestamp, newest.timestamp) <= 0 {
        var k :| 0 <= k < |cached| && cached[k] == e;
      }
      assert newest in cached;
    }
  }

  /** All frames handled on some connections, one connection after another. */
  function HandledOn(connections: seq<Connection>): seq<EventRecord> {
    if connections == [] then []
    else HandledOn(connections[..|connections| - 1]) + connections[|connections| - 1].handled
  }

  function Current(s: State): nat
    requires s.connections != []
  {
    s.connections[|s.connections| - 1].id
  }

  predicate Streaming(s: State) {
    s.connected && s.connections != [] && Current(s) in s.broker.subs
  }

  function CurrentSub(s: State): BrokerRuns.Sub
    requires Streaming(s)
  {
    s.broker.subs[Current(s)]
  }

  /** Steps of the broker that are neither a publish nor of the live connection's handler. */
  predicate IsBackground(s: State, step: BrokerRuns.Step) {
    match step
    case Publish(_) => false
    case Send(_, _) => true
    case Subscribe(id, _) => true
    case Take(id) => !(Streaming(s) && id == Current(s))
    case Unsubscribe(id) => !(Streaming(s) && id == Current(s))
  }

  predicate NothingInFlight(broker: BrokerRuns.State) {
    forall id :: id in broker.subs ==> broker.subs[id].inFlight == multiset{}
  }

  predicate Enabled(s: State, step: Step) {
    match step
    case Insert(row, live) =>
      && AppendEvent(s.rows, row).Some?
      && row.eventId != "" && IsInt64(row.occurredAt) && row.record.eventId == row.eventId == live.eventId
    case Publish(live) => live in s.unpublished && (s.serial ==> NothingInFlight(s.broker))
    case Background(b) => IsBackground(s, b) && BrokerRuns.Enabled(s.broker, b)
    case Connect(id) => !s.connected && id !in s.broker.subs
    case Disconnect => s.connected
    case Write => Streaming(s) &&
      (s.replayWritten < |CurrentSub(s).replay| || BrokerRuns.Enabled(s.broker, BrokerRuns.Take(Current(s))))
    case Deliver => s.wire != [] && s.connections != []
    case Noise => true
    case Request => s.load == Waiting && !s.paging.done && (s.subscribeFirst ==> s.connections != [])
    case RequestFails => s.load == Waiting && !s.paging.done && CanFollow(s.view, LoadFailed)
    case LoadSettles => s.load == Waiting && s.paging.done
    case Handoff => s.load.Arrived? && CanFollow(s.view, Loaded(Records(s.paging.persisted), s.load.buffered))
  }

  function Callback(loc: Collator, s: State, c: LiveView.Callback): State
    requires CanFollow(s.view, c)
  {
    s.(view := Follow(loc, s.view, c), callbacks := s.callbacks + [c])
  }

  /** The frame is handled on the newest connection. */
  function Handle(connections: seq<Connection>, frame: EventRecord): seq<Connection>
    requires connections != []
  {
    var n := |connections| - 1;
    connections[n := connections[n].(handled := connections[n].handled + [frame])]
  }

  function Next(loc: Collator, s: State, step: Step): State
    requires Enabled(s, step)
  {
    match step
    case Insert(row, live) =>
      s.(rows := AppendEvent(s.rows, row).value, unpublished := s.unpublished + multiset{live})
    case Publish(live) =>
      s.(unpublished := s.unpublished - multiset{live}, broker := BrokerRuns.Next(s.broker, BrokerRuns.Publish(live)))
    case Background(b) => s.(broker := BrokerRuns.Next(s.broker, b))
    case Connect(id) =>
      s.(broker := BrokerRuns.Next(s.broker, BrokerRuns.Subscribe(id, ResumeAfter(s.cached, HandledOn(s.connections)))),
         connections := s.connections + [Connection(id, [])], connected := true, replayWritten := 0, wire := [])
    case Disconnect => s.(connected := false)
    case Write =>
      var sub := CurrentSub(s);
      if s.replayWritten < |sub.replay| then
        s.(wire := s.wire + [sub.replay[s.replayWritten]], replayWritten := s.replayWritten + 1)
      else
        s.(wire := s.wire + [sub.queue[0]], broker := BrokerRuns.Next(s.broker, BrokerRuns.Take(Current(s))))
    case Deliver => Callback(loc, s.(wire := s.wire[1..], connections := Handle(s.connections, s.wire[0])), Live(s.wire[0]))
    case Noise => Callback(loc, s, ParseError)
    case Request =>
      var page := PageOf(s.rows, s.thread, PAGE_LIMIT, s.paging.cursor);
      s.(start := if s.start.None? then Some(s.rows) else s.start,
         paging := if page.Page? then Receive(s.paging, page) else s.paging)
    case RequestFails => Callback(loc, s.(load := Broken), LoadFailed)
    case LoadSettles => s.(load := Arrived(|s.view.effect.buffered|))
    case Handoff =>
      Callback(loc, s.(load := Merged), Loaded(Records(s.paging.persisted), s.load.buffered))
  }

  predicate ValidRun(loc: Collator, s: State, steps: seq<Step>)
    decreases |steps|, 0
  {
    steps == [] || (ValidRun(loc, s, steps[..|steps| - 1])
                    && Enabled(Run(loc, s, steps[..|steps| - 1]), steps[|steps| - 1]))
  }

  function Run(loc: Collator, s: State, steps: seq<Step>): State
    requires ValidRun(loc, s, steps)
    decreases |steps|, 1
  {
    if steps == [] then s else Next(loc, Run(loc, s, steps[..|steps| - 1]), steps[|steps| - 1])
  }

  ghost function RowIds(rows: seq<Row>): set<string> {
    set r | r in rows :: r.eventId
  }

  ghost function HeldIds(events: multiset<EventRecord>): set<string> {
    set e | e in events :: e.eventId
  }

  // ----- the invariant

  /** No event is held or published twice. */
  ghost predicate NoneTwice(unpublished: multiset<EventRecord>, log: seq<EventRecord>) {
    && DistinctIds(log)
    && (forall e :: e in unpublished ==> unpublished[e] == 1 && e.eventId !in Ids(log))
    && (forall e, f :: e in unpublished && f in unpublished && e.eventId == f.eventId ==> e == f)
  }

  /** What is held or published stands in the table, and the other way round. */
  ghost predicate AllStored(rows: seq<Row>, unpublished: multiset<EventRecord>, log: seq<EventRecord>) {
    && HeldIds(unpublished) + Ids(log) == RowIds(rows)
    && "" !in RowIds(rows)
  }

  ghost predicate PublishedOnce(rows: seq<Row>, unpublished: multiset<EventRecord>, log: seq<EventRecord>) {
    NoneTwice(unpublished, log) && AllStored(rows, unpublished, log)
  }

  /**
   Connection k handled a part of its frames, in order. It resumed after the last frame handled
   before; whatever was handled before had been published by then.
   */
  ghost predicate Linked(cached: seq<EventRecord>, connections: seq<Connection>, broker: BrokerRuns.State, k: nat)
    requires k < |connections|
  {
    && connections[k].id in broker.subs
    && var sub, before := broker.subs[connections[k].id], HandledOn(connections[..k]);
    && IsPrefix(connections[k].handled, BrokerRuns.Frames(sub))
    && sub.start <= |broker.log|
    && sub.after == ResumeAfter(cached, before)
    && (forall e :: e in before ==> e in broker.log[..sub.start])
    && (k > 0 && connections[k - 1].id in broker.subs ==> broker.subs[connections[k - 1].id].start <= sub.start)
  }

  ghost predicate Chained(cached: seq<EventRecord>, connections: seq<Connection>, broker: BrokerRuns.State) {
    forall k :: 0 <= k < |connections| ==> Linked(cached, connections, broker, k)
  }

  /** What the handler has written: frames handled or on the wire. */
  ghost predicate WrittenInOrder(sub: BrokerRuns.Sub, replayWritten: nat, written: seq<EventRecord>) {
    && sub.open
    && replayWritten <= |sub.replay|
    && (sub.taken != [] ==> replayWritten == |sub.replay|)
    && written == sub.replay[..replayWritten] + sub.taken
  }

  ghost predicate OnTheWire(s: State)
    requires s.connections != []
  {
    && Current(s) in s.broker.subs
    && var sub, written := s.broker.subs[Current(s)], s.connections[|s.connections| - 1].handled + s.wire;
    && IsPrefix(written, BrokerRuns.Frames(sub))
    && (s.connected ==> WrittenInOrder(sub, s.replayWritten, written))
  }

  ghost predicate StreamFlows(s: State) {
    && (s.connections == [] ==> !s.connected && s.wire == [])
    && (s.connections != [] ==> OnTheWire(s))
    && (forall e :: e in HandledOn(s.connections) || e in s.wire ==> e in s.broker.log)
  }

  /** If paging had to wait: what the first page missed is still held, or was published since the subscription. */
  ghost predicate LateRowsArePublished(s: State) {
    s.start.Some? && s.connections != [] && s.connections[0].id in s.broker.subs ==>
      var from := s.broker.subs[s.connections[0].id].start;
      && from <= |s.broker.log|
      && forall r :: r in s.rows ==>
           r in s.start.value || r.eventId in HeldIds(s.unpublished) || r.eventId in Ids(s.broker.log[from..])
  }

  ghost predicate PagingOnTrack(s: State) {
    && (s.start.None? ==> s.paging == FIRST_REQUEST)
    && (s.start.Some? ==>
          && Progress(s.paging, s.thread, s.start.value, s.rows)
          && (s.subscribeFirst ==> s.connections != [])
          && forall r :: r in s.start.value ==> r in s.rows)
  }

  ghost predicate LoadOnTrack(s: State) {
    match s.load
    case Waiting => !Settled(s.callbacks)
    case Arrived(n) => !Settled(s.callbacks) && s.paging.done && n <= |LiveEvents(s.callbacks)|
    case Merged => Settled(s.callbacks) && s.paging.done && PagedEvents(s.callbacks) == Records(s.paging.persisted)
    case Broken => Settled(s.callbacks) && PagedEvents(s.callbacks) == []
  }

  ghost predicate ViewOnTrack(loc: Collator, s: State) {
    && ValidCallbacks(loc, Open(s.thread, s.cached), s.callbacks)
    && s.view == FollowAll(loc, Open(s.thread, s.cached), s.callbacks)
  }

  ghost predicate ClientOnTrack(loc: Collator, s: State) {
    PagingOnTrack(s) && LoadOnTrack(s) && ViewOnTrack(loc, s) && LiveEvents(s.callbacks) == HandledOn(s.connections)
  }

  ghost predicate BrokerOnTrack(s: State) {
    BrokerRuns.Inv(s.broker) && (s.serial ==> BrokerRuns.AllInOrder(s.broker))
  }

  ghost predicate Inv(loc: Collator, s: State) {
    && ValidTable(s.rows)
    && PublishedOnce(s.rows, s.unpublished, s.broker.log)
    && BrokerOnTrack(s)
    && Chained(s.cached, s.connections, s.broker)
    && StreamFlows(s)
    && (s.subscribeFirst ==> LateRowsArePublished(s))
    && ClientOnTrack(loc, s)
  }

  // ----- tables and publication

  lemma HeldIdsAdd(held: multiset<EventRecord>, e: EventRecord)
    ensures HeldIds(held + multiset{e}) == HeldIds(held) + {e.eventId}
  {
    forall id ensures id in HeldIds(held + multiset{e}) <==> id in HeldIds(held) + {e.eventId} {
      if id in HeldIds(held) {
        var x :| x in held && x.eventId == id;
        assert x in held + multiset{e};
      }
      assert e in held + multiset{e};
    }
  }

  lemma HeldIdsRemove(held: multiset<EventRecord>, e: EventRecord)
    requires e in held
    ensures HeldIds(held) <= HeldIds(held - multiset{e}) + {e.eventId}
    ensures HeldIds(held - multiset{e}) <= HeldIds(held)
  {
    forall id | id in HeldIds(held) ensures id in HeldIds(held - multiset{e}) + {e.eventId} {
      var x :| x in held && x.eventId == id;
      assert x == e || x in held - multiset{e};
    }
  }

  lemma RowIdsAppend(rows: seq<Row>, row: Row)
    ensures RowIds(rows + [row]) == RowIds(rows) + {row.eventId}
  {
    forall id ensures id in RowIds(rows + [row]) <==> id in RowIds(rows) + {row.eventId} {
      if id in RowIds(rows) {
        var r :| r in rows && r.eventId == id;
        assert r in rows + [row];
      }
      assert row in rows + [row];
    }
  }

  lemma InsertPublishesOnce(rows: seq<Row>, unpublished: multiset<EventRecord>, log: seq<EventRecord>, row: Row, live: EventRecord)
    requires PublishedOnce(rows, unpublished, log)
    requires row.eventId != "" && row.eventId == live.eventId && row.eventId !in RowIds(rows)
    ensures PublishedOnce(rows + [row], unpublished + multiset{live}, log)
  {
    HeldIdsAdd(unpublished, live);
    RowIdsAppend(rows, row);
    assert live.eventId !in HeldIds(unpublished) && live.eventId !in Ids(log);
    HoldOneMore(unpublished, log, live);
  }

  lemma HoldOneMore(unpublished: multiset<EventRecord>, log: seq<EventRecord>, live: EventRecord)
    requires NoneTwice(unpublished, log) && live.eventId !in HeldIds(unpublished) && live.eventId !in Ids(log)
    ensures NoneTwice(unpublished + multiset{live}, log)
  {
    assert live !in unpublished;
    assert forall e :: e in unpublished + multiset{live} <==> e in unpublished || e == live;
    forall e | e in unpublished ensures e.eventId != live.eventId {
      assert e.eventId in HeldIds(unpublished);
    }
  }

  lemma PublishPublishesOnce(rows: seq<Row>, unpublished: multiset<EventRecord>, log: seq<EventRecord>, live: EventRecord)
    requires PublishedOnce(rows, unpublished, log) && live in unpublished
    ensures PublishedOnce(rows, unpublished - multiset{live}, log + [live])
  {
    HeldIdsRemove(unpublished, live);
    IdsOneMore(log, live);
    assert live.eventId in HeldIds(unpublished);
    PublishNoneTwice(unpublished, log, live);
  }

  lemma PublishNoneTwice(unpublished: multiset<EventRecord>, log: seq<EventRecord>, live: EventRecord)
    requires NoneTwice(unpublished, log) && live in unpublished
    ensures NoneTwice(unpublished - multiset{live}, log + [live])
  {
    IdsOneMore(log, live);
    assert unpublished[live] == 1;
    forall i | 0 <= i < |log| ensures log[i].eventId != live.eventId {
      assert log[i] in log && log[i].eventId in Ids(log);
    }
  }

  lemma InsertStep(loc: Collator, s: State, row: Row, live: EventRecord)
    requires Inv(loc, s) && Enabled(s, Insert(row, live))
    ensures Inv(loc, Next(loc, s, Insert(row, live)))
  {
    var t := Next(loc, s, Insert(row, live));
    AppendKeepsValid(s.rows, row);
    NewRowId(s.rows, row);
    InsertPublishesOnce(s.rows, s.unpublished, s.broker.log, row, live);
    InsertKeepsClient(loc, s, t, row, live);
  }

  lemma NewRowId(rows: seq<Row>, row: Row)
    requires AppendEvent(rows, row).Some?
    ensures row.eventId !in RowIds(rows)
  {
  }

  lemma InsertKeepsClient(loc: Collator, s: State, t: State, row: Row, live: EventRecord)
    requires ClientOnTrack(loc, s) && (s.subscribeFirst ==> LateRowsArePublished(s)) && row.eventId == live.eventId
    requires t == s.(rows := s.rows + [row], unpublished := s.unpublished + multiset{live})
    ensures ClientOnTrack(loc, t) && (s.subscribeFirst ==> LateRowsArePublished(t))
  {
    HeldIdsAdd(s.unpublished, live);
    if s.start.Some? {
      ProgressSurvivesInserts(s.paging, s.thread, s.start.value, s.rows, t.rows);
    }
  }

  // ----- the broker

  lemma ChainedGrows(cached: seq<EventRecord>, connections: seq<Connection>, before: BrokerRuns.State, after: BrokerRuns.State)
    requires Chained(cached, connections, before) && BrokerRuns.Grows(before, after)
    ensures Chained(cached, connections, after)
  {
    forall k | 0 <= k < |connections| ensures Linked(cached, connections, after, k) {
      LinkGrows(cached, connections, before, after, k);
    }
  }

  lemma LinkGrows(cached: seq<EventRecord>, connections: seq<Connection>, before: BrokerRuns.State, after: BrokerRuns.State, k: nat)
    requires Chained(cached, connections, before) && BrokerRuns.Grows(before, after) && k < |connections|
    ensures Linked(cached, connections, after, k)
  {
    assert Linked(cached, connections, before, k);
    var one, two := before.subs[connections[k].id], after.subs[connections[k].id];
    FramesGrow(one, two);
    PrefixTransitive(connections[k].handled, BrokerRuns.Frames(one), BrokerRuns.Frames(two));
    assert after.log[..two.start] == before.log[..one.start];
    if k > 0 {
      assert Linked(cached, connections, before, k - 1);
    }
  }

  lemma FramesGrow(before: BrokerRuns.Sub, after: BrokerRuns.Sub)
    requires BrokerRuns.SubGrows(before, after)
    ensures IsPrefix(BrokerRuns.Frames(before), BrokerRuns.Frames(after))
  {
  }

  lemma PrefixTransitive<T>(a: seq<T>, b: seq<T>, c: seq<T>)
    requires IsPrefix(a, b) && IsPrefix(b, c)
    ensures IsPrefix(a, c)
  {
    assert a == b[..|a|] == c[..|b|][..|a|] == c[..|a|];
  }

  /** A broker step that the client's handler does not take leaves the live connection alone. */
  ghost predicate StreamUntouched(s: State, after: BrokerRuns.State) {
    Streaming(s) ==>
      && Current(s) in after.subs
      && var one, two := CurrentSub(s), after.subs[Current(s)];
      one.open == two.open && one.replay == two.replay && one.taken == two.taken
  }

  lemma StreamGrows(s: State, after: BrokerRuns.State)
    requires StreamFlows(s) && BrokerRuns.Grows(s.broker, after) && StreamUntouched(s, after)
    ensures StreamFlows(s.(broker := after))
  {
    if s.connections != [] {
      var one, two := s.broker.subs[Current(s)], after.subs[Current(s)];
      FramesGrow(one, two);
      PrefixTransitive(s.connections[|s.connections| - 1].handled + s.wire, BrokerRuns.Frames(one), BrokerRuns.Frames(two));
    }
    assert forall e :: e in s.broker.log ==> e in after.log;
  }

  lemma BrokerStep(s: State, b: BrokerRuns.Step)
    requires BrokerOnTrack(s) && BrokerRuns.Enabled(s.broker, b)
    requires b.Publish? && s.serial ==> NothingInFlight(s.broker)
    ensures BrokerOnTrack(s.(broker := BrokerRuns.Next(s.broker, b)))
  {
    BrokerRuns.NextKeepsInv(s.broker, b);
    if s.serial {
      BrokerRuns.StepKeepsOrder(s.broker, b);
    }
  }

  lemma PublishStep(loc: Collator, s: State, live: EventRecord)
    requires Inv(loc, s) && Enabled(s, Publish(live))
    ensures Inv(loc, Next(loc, s, Publish(live)))
  {
    BrokerStep(s, BrokerRuns.Publish(live));
    PublishedBroker(s, live);
    PublishPublishesOnce(s.rows, s.unpublished, s.broker.log, live);
    PublishedLateRows(loc, s, live);
    BrokerMoved(loc, s, Next(loc, s, Publish(live)));
  }

  /** A step of the broker, a publish in particular, keeps the rest of the invariant. */
  lemma BrokerMoved(loc: Collator, s: State, t: State)
    requires Inv(loc, s) && t == s.(unpublished := t.unpublished, broker := t.broker)
    requires BrokerOnTrack(s.(broker := t.broker)) && BrokerRuns.Grows(s.broker, t.broker) && StreamUntouched(s, t.broker)
    requires PublishedOnce(t.rows, t.unpublished, t.broker.log) && (t.subscribeFirst ==> LateRowsArePublished(t))
    ensures Inv(loc, t)
  {
    ChainedGrows(s.cached, s.connections, s.broker, t.broker);
    StreamGrows(s, t.broker);
  }

  lemma PublishedBroker(s: State, live: EventRecord)
    ensures var after := BrokerRuns.Next(s.broker, BrokerRuns.Publish(live));
      BrokerRuns.Grows(s.broker, after) && StreamUntouched(s, after) && after.log == s.broker.log + [live]
  {
    BrokerRuns.NextGrows(s.broker, BrokerRuns.Publish(live));
  }

  lemma PublishedLateRows(loc: Collator, s: State, live: EventRecord)
    requires s.subscribeFirst ==> LateRowsArePublished(s)
    requires Enabled(s, Publish(live))
    ensures s.subscribeFirst ==> LateRowsArePublished(Next(loc, s, Publish(live)))
  {
    if s.subscribeFirst && s.start.Some? && s.connections != [] && s.connections[0].id in s.broker.subs {
      StillHeldOrPublished(s.rows, s.start.value, s.unpublished, s.broker.log, s.broker.subs[s.connections[0].id].start, live);
    }
  }

  lemma StillHeldOrPublished(rows: seq<Row>, start: seq<Row>, held: multiset<EventRecord>, log: seq<EventRecord>, from: nat, live: EventRecord)
    requires from <= |log| && live in held
    requires forall r :: r in rows ==> r in start || r.eventId in HeldIds(held) || r.eventId in Ids(log[from..])
    ensures forall r :: r in rows ==>
      r in start || r.eventId in HeldIds(held - multiset{live}) || r.eventId in Ids((log + [live])[from..])
  {
    HeldIdsRemove(held, live);
    IdsOneMore(log[from..], live);
    assert (log + [live])[from..] == log[from..] + [live];
  }

  lemma BackgroundStep(loc: Collator, s: State, b: BrokerRuns.Step)
    requires Inv(loc, s) && Enabled(s, Background(b))
    ensures Inv(loc, Next(loc, s, Background(b)))
  {
    var after := BrokerRuns.Next(s.broker, b);
    BrokerStep(s, b);
    BrokerRuns.NextGrows(s.broker, b);
    BackgroundKeepsStream(s, b);
    SameLateRows(s, after);
    BrokerMoved(loc, s, Next(loc, s, Background(b)));
  }

  lemma BackgroundKeepsStream(s: State, b: BrokerRuns.Step)
    requires BrokerRuns.Enabled(s.broker, b) && IsBackground(s, b)
    ensures StreamUntouched(s, BrokerRuns.Next(s.broker, b)) && BrokerRuns.Next(s.broker, b).log == s.broker.log
  {
  }

  /** Without a publish the late rows stay where they are. */
  lemma SameLateRows(s: State, after: BrokerRuns.State)
    requires Chained(s.cached, s.connections, s.broker) && (s.subscribeFirst ==> LateRowsArePublished(s))
    requires BrokerRuns.Grows(s.broker, after) && after.log == s.broker.log
    ensures s.subscribeFirst ==> LateRowsArePublished(s.(broker := after))
  {
    if s.connections != [] {
      assert Linked(s.cached, s.connections, s.broker, 0);
    }
  }

  // ----- the stream

  lemma ConnectStep(loc: Collator, s: State, id: nat)
    requires Inv(loc, s) && Enabled(s, Connect(id))
    ensures Inv(loc, Next(loc, s, Connect(id)))
  {
    var subscribe := BrokerRuns.Subscribe(id, ResumeAfter(s.cached, HandledOn(s.connections)));
    var after := BrokerRuns.Next(s.broker, subscribe);
    var t := Next(loc, s, Connect(id));
    BrokerStep(s, subscribe);
    BrokerRuns.NextGrows(s.broker, subscribe);
    ChainedGrows(s.cached, s.connections, s.broker, after);
    assert t.connections[..|s.connections|] == s.connections;
    ConnectedChain(s.cached, s.connections, s.broker, after, id);
    assert HandledOn(t.connections) == HandledOn(s.connections) + [] == HandledOn(s.connections);
    SameLateRows(s, after);
  }

  lemma ConnectedChain(cached: seq<EventRecord>, connections: seq<Connection>, before: BrokerRuns.State, after: BrokerRuns.State, id: nat)
    requires Chained(cached, connections, after) && id !in before.subs
    requires after == BrokerRuns.Next(before, BrokerRuns.Subscribe(id, ResumeAfter(cached, HandledOn(connections))))
    requires forall e :: e in HandledOn(connections) ==> e in before.log
    ensures Chained(cached, connections + [Connection(id, [])], after)
  {
    var longer, n := connections + [Connection(id, [])], |connections|;
    forall k | 0 <= k < |longer| ensures Linked(cached, longer, after, k) {
      if k < n {
        assert Linked(cached, connections, after, k);
        LinkStays(cached, connections, longer, after, k);
      } else {
        NewLink(cached, connections, after, id);
      }
    }
  }

  /** A connection's link looks only at the connections up to it. */
  lemma LinkStays(cached: seq<EventRecord>, connections: seq<Connection>, longer: seq<Connection>, broker: BrokerRuns.State, k: nat)
    requires k < |connections| <= |longer| && longer[..|connections|] == connections && Linked(cached, connections, broker, k)
    ensures Linked(cached, longer, broker, k)
  {
    assert longer[..k] == connections[..k];
    assert longer[k] == connections[k] && (k > 0 ==> longer[k - 1] == connections[k - 1]);
  }

  lemma NewLink(cached: seq<EventRecord>, connections: seq<Connection>, broker: BrokerRuns.State, id: nat)
    requires Chained(cached, connections, broker) && id in broker.subs
    requires broker.subs[id].start == |broker.log| && broker.subs[id].after == ResumeAfter(cached, HandledOn(connections))
    requires forall e :: e in HandledOn(connections) ==> e in broker.log
    ensures Linked(cached, connections + [Connection(id, [])], broker, |connections|)
  {
    var longer, n := connections + [Connection(id, [])], |connections|;
    assert longer[..n] == connections;
    assert broker.log[..|broker.log|] == broker.log;
    assert n > 0 ==> Linked(cached, connections, broker, n - 1);
  }

  lemma DisconnectStep(loc: Collator, s: State)
    requires Inv(loc, s) && Enabled(s, Disconnect)
    ensures Inv(loc, Next(loc, s, Disconnect))
  {
    var t := s.(connected := false);
    BrokenStreamFlows(s);
    assert Next(loc, s, Disconnect) == t;
    assert BrokerOnTrack(t) && ClientOnTrack(loc, t) && (t.subscribeFirst ==> LateRowsArePublished(t));
  }

  lemma BrokenStreamFlows(s: State)
    requires StreamFlows(s)
    ensures StreamFlows(s.(connected := false))
  {
  }

  lemma WriteStep(loc: Collator, s: State)
    requires Inv(loc, s) && Enabled(s, Write)
    ensures Inv(loc, Next(loc, s, Write))
  {
    WriteFlow(loc, s);
    if s.replayWritten >= |CurrentSub(s).replay| {
      WriteTakes(loc, s, BrokerRuns.Next(s.broker, BrokerRuns.Take(Current(s))));
    }
    StreamWritten(loc, s, Next(loc, s, Write));
  }

  lemma WriteTakes(loc: Collator, s: State, after: BrokerRuns.State)
    requires Inv(loc, s) && Streaming(s) && BrokerRuns.Enabled(s.broker, BrokerRuns.Take(Current(s)))
    requires after == BrokerRuns.Next(s.broker, BrokerRuns.Take(Current(s)))
    ensures BrokerOnTrack(s.(broker := after)) && BrokerRuns.Grows(s.broker, after) && after.log == s.broker.log
  {
    BrokerStep(s, BrokerRuns.Take(Current(s)));
    BrokerRuns.NextGrows(s.broker, BrokerRuns.Take(Current(s)));
  }

  lemma StreamWritten(loc: Collator, s: State, t: State)
    requires Inv(loc, s) && t == s.(wire := t.wire, replayWritten := t.replayWritten, broker := t.broker) && StreamFlows(t)
    requires t.broker == s.broker
          || (BrokerOnTrack(s.(broker := t.broker)) && BrokerRuns.Grows(s.broker, t.broker) && t.broker.log == s.broker.log)
    ensures Inv(loc, t)
  {
    if t.broker != s.broker {
      ChainedGrows(s.cached, s.connections, s.broker, t.broker);
      SameLateRows(s, t.broker);
    }
  }

  lemma WriteFlow(loc: Collator, s: State)
    requires StreamFlows(s) && Enabled(s, Write) && BrokerRuns.Inv(s.broker)
    ensures StreamFlows(Next(loc, s, Write))
  {
    if s.replayWritten < |CurrentSub(s).replay| {
      ReplayFlow(s, Next(loc, s, Write));
    } else {
      QueueFlow(s, Next(loc, s, Write));
    }
  }

  /** One frame more on the wire, and everything written in order. */
  lemma OneFrameMore(s: State, t: State, frame: EventRecord)
    requires StreamFlows(s) && s.connections != [] && t.broker.log == s.broker.log
    requires t == s.(wire := t.wire, replayWritten := t.replayWritten, broker := t.broker) && Current(t) in t.broker.subs
    requires WrittenInOrder(t.broker.subs[Current(t)], t.replayWritten, t.connections[|t.connections| - 1].handled + t.wire)
    requires t.wire == s.wire + [frame] && frame in s.broker.log
    ensures StreamFlows(t)
  {
    WrittenIsPrefix(t.broker.subs[Current(t)], t.replayWritten, t.connections[|t.connections| - 1].handled + t.wire);
    assert forall e :: e in t.wire <==> e in s.wire || e == frame;
  }

  lemma ReplayFlow(s: State, t: State)
    requires StreamFlows(s) && Streaming(s) && BrokerRuns.Inv(s.broker) && s.replayWritten < |CurrentSub(s).replay|
    requires t == s.(wire := s.wire + [CurrentSub(s).replay[s.replayWritten]], replayWritten := s.replayWritten + 1)
    ensures StreamFlows(t)
  {
    var sub, handled := CurrentSub(s), s.connections[|s.connections| - 1].handled;
    ReplayWritten(sub, s.replayWritten, handled, s.wire);
    ReplayIsLogged(s.broker.log, s.broker.cap, sub, s.replayWritten);
    OneFrameMore(s, t, sub.replay[s.replayWritten]);
  }

  lemma QueueFlow(s: State, t: State)
    requires StreamFlows(s) && Streaming(s) && BrokerRuns.Inv(s.broker) && s.replayWritten >= |CurrentSub(s).replay|
    requires CurrentSub(s).queue != []
    requires t == s.(wire := s.wire + [CurrentSub(s).queue[0]], broker := t.broker) && t.broker.log == s.broker.log
    requires var sub := CurrentSub(s);
      t.broker.subs == s.broker.subs[Current(s) := sub.(queue := sub.queue[1..], taken := sub.taken + [sub.queue[0]])]
    ensures StreamFlows(t)
  {
    var sub, handled := CurrentSub(s), s.connections[|s.connections| - 1].handled;
    QueueWritten(sub, t.broker.subs[Current(s)], s.replayWritten, handled, s.wire);
    QueueIsLogged(s.broker.log, s.broker.cap, sub, 0);
    OneFrameMore(s, t, sub.queue[0]);
  }

  lemma WrittenIsPrefix(sub: BrokerRuns.Sub, replayWritten: nat, written: seq<EventRecord>)
    requires WrittenInOrder(sub, replayWritten, written)
    ensures IsPrefix(written, BrokerRuns.Frames(sub))
  {
    if sub.taken == [] {
      assert written == sub.replay[..replayWritten];
    } else {
      assert sub.replay[..replayWritten] == sub.replay;
    }
  }

  lemma ReplayWritten(sub: BrokerRuns.Sub, n: nat, handled: seq<EventRecord>, wire: seq<EventRecord>)
    requires WrittenInOrder(sub, n, handled + wire) && n < |sub.replay|
    ensures WrittenInOrder(sub, n + 1, handled + (wire + [sub.replay[n]]))
  {
    assert sub.replay[..n + 1] == sub.replay[..n] + [sub.replay[n]];
    assert sub.taken == [];
    Assoc(handled, wire, [sub.replay[n]]);
  }

  lemma QueueWritten(sub: BrokerRuns.Sub, next: BrokerRuns.Sub, n: nat, handled: seq<EventRecord>, wire: seq<EventRecord>)
    requires WrittenInOrder(sub, n, handled + wire) && n >= |sub.replay| && sub.queue != []
    requires next == sub.(queue := sub.queue[1..], taken := sub.taken + [sub.queue[0]])
    ensures WrittenInOrder(next, n, handled + (wire + [sub.queue[0]]))
  {
    Assoc(handled, wire, [sub.queue[0]]);
    Assoc(sub.replay[..n], sub.taken, [sub.queue[0]]);
  }

  lemma ReplayIsLogged(log: seq<EventRecord>, cap: nat, sub: BrokerRuns.Sub, k: nat)
    requires BrokerRuns.Accounted(log, cap, sub) && k < |sub.replay|
    ensures sub.replay[k] in log
  {
    var a := BrokerRuns.ReplayIsPiece(log, cap, sub);
  }

  lemma QueueIsLogged(log: seq<EventRecord>, cap: nat, sub: BrokerRuns.Sub, k: nat)
    requires BrokerRuns.Accounted(log, cap, sub) && sub.open && k < |sub.queue|
    ensures sub.queue[k] in log
  {
    var e := sub.queue[k];
    BrokerRuns.OutcomesPartition(sub.attempts);
    assert e in sub.taken + sub.queue;
    assert e in multiset(BrokerRuns.Delivered(sub.attempts));
    assert e in multiset(log[sub.start..]);
  }

  // ----- the client

  /** Calling back extends the record of callbacks by one. */
  lemma CallbackOnTrack(loc: Collator, s: State, c: LiveView.Callback)
    requires ViewOnTrack(loc, s) && CanFollow(s.view, c)
    ensures var t := Callback(loc, s, c);
      && ViewOnTrack(loc, t)
      && LiveEvents(t.callbacks) == LiveEvents(s.callbacks) + (if c.Live? then [c.event] else [])
      && PagedEvents(t.callbacks) == PagedEvents(s.callbacks) + (if c.Loaded? then c.persisted else [])
      && (Settled(t.callbacks) <==> Settled(s.callbacks) || c.Loaded? || c.LoadFailed?)
  {
    var longer := s.callbacks + [c];
    assert longer[..|s.callbacks|] == s.callbacks;
    SettledSnoc(longer);
  }

  lemma DeliverStep(loc: Collator, s: State)
    requires Inv(loc, s) && Enabled(s, Deliver)
    ensures Inv(loc, Next(loc, s, Deliver))
  {
    DeliverView(loc, s);
    FrameHandled(loc, s, Next(loc, s, Deliver));
  }

  lemma DeliverView(loc: Collator, s: State)
    requires ViewOnTrack(loc, s) && Enabled(s, Deliver)
    ensures Delivered(loc, s, Next(loc, s, Deliver))
  {
    CallbackOnTrack(loc, s.(wire := s.wire[1..], connections := Handle(s.connections, s.wire[0])), Live(s.wire[0]));
  }

  /** The frame went from the wire to the connection and into the view. */
  ghost predicate Delivered(loc: Collator, s: State, t: State) {
    && s.connections != [] && s.wire != []
    && t == s.(wire := s.wire[1..], connections := Handle(s.connections, s.wire[0]), view := t.view, callbacks := t.callbacks)
    && ViewOnTrack(loc, t)
    && LiveEvents(t.callbacks) == LiveEvents(s.callbacks) + [s.wire[0]]
    && PagedEvents(t.callbacks) == PagedEvents(s.callbacks) + [] && (Settled(t.callbacks) <==> Settled(s.callbacks))
  }

  lemma FrameHandled(loc: Collator, s: State, t: State)
    requires Inv(loc, s) && Delivered(loc, s, t)
    ensures Inv(loc, t)
  {
    HandledChain(s.cached, s.connections, s.broker, s.wire);
    DeliverFlow(s, t);
    HandledClient(loc, s, t);
  }

  lemma HandledOneMore(connections: seq<Connection>, frame: EventRecord)
    requires connections != []
    ensures HandledOn(Handle(connections, frame)) == HandledOn(connections) + [frame]
  {
    var n := |connections| - 1;
    assert Handle(connections, frame)[..n] == connections[..n];
    Assoc(HandledOn(connections[..n]), connections[n].handled, [frame]);
  }

  lemma HandledChain(cached: seq<EventRecord>, connections: seq<Connection>, broker: BrokerRuns.State, wire: seq<EventRecord>)
    requires Chained(cached, connections, broker) && connections != [] && wire != []
    requires var last := connections[|connections| - 1];
      last.id in broker.subs && IsPrefix(last.handled + wire, BrokerRuns.Frames(broker.subs[last.id]))
    ensures Chained(cached, Handle(connections, wire[0]), broker)
  {
    var more, n := Handle(connections, wire[0]), |connections| - 1;
    forall k | 0 <= k < |more| ensures Linked(cached, more, broker, k) {
      assert Linked(cached, connections, broker, k);
      assert more[..k] == connections[..k];
      if k == n {
        PrefixTransitive(more[n].handled, connections[n].handled + wire, BrokerRuns.Frames(broker.subs[more[n].id]));
      }
    }
  }

  lemma DeliverFlow(s: State, t: State)
    requires StreamFlows(s) && s.wire != [] && s.connections != []
    requires t == s.(wire := s.wire[1..], connections := Handle(s.connections, s.wire[0]), view := t.view, callbacks := t.callbacks)
    ensures StreamFlows(t)
  {
    var handled := s.connections[|s.connections| - 1].handled;
    Assoc(handled, [s.wire[0]], s.wire[1..]);
    assert [s.wire[0]] + s.wire[1..] == s.wire;
    HandledOneMore(s.connections, s.wire[0]);
  }

  lemma HandledClient(loc: Collator, s: State, t: State)
    requires ClientOnTrack(loc, s) && (s.subscribeFirst ==> LateRowsArePublished(s)) && Delivered(loc, s, t)
    ensures ClientOnTrack(loc, t) && (s.subscribeFirst ==> LateRowsArePublished(t))
  {
    HandledOneMore(s.connections, s.wire[0]);
  }

  lemma NoiseStep(loc: Collator, s: State)
    requires Inv(loc, s)
    ensures Inv(loc, Next(loc, s, Noise))
  {
    CallbackOnTrack(loc, s, ParseError);
    ViewStep(loc, s, Next(loc, s, Noise));
  }

  /** A step of the load or a parse error: the stream, the broker and the table stay. */
  lemma ViewStep(loc: Collator, s: State, t: State)
    requires Inv(loc, s) && ViewOnTrack(loc, t) && LoadOnTrack(t)
    requires t == s.(load := t.load, view := t.view, callbacks := t.callbacks)
    requires LiveEvents(t.callbacks) == LiveEvents(s.callbacks) + []
    ensures Inv(loc, t)
  {
    assert LiveEvents(s.callbacks) + [] == LiveEvents(s.callbacks);
  }

  lemma RequestStep(loc: Collator, s: State)
    requires Inv(loc, s) && Enabled(s, Request)
    ensures Inv(loc, Next(loc, s, Request))
  {
    var start := if s.start.None? then s.rows else s.start.value;
    if s.start.None? {
      FirstRequestProgress(s.thread, s.rows);
    }
    RequestKeepsProgress(s.paging, s.thread, PAGE_LIMIT, start, s.rows);
    RequestKeepsRest(loc, s, Next(loc, s, Request), start);
  }

  lemma RequestKeepsRest(loc: Collator, s: State, t: State, start: seq<Row>)
    requires Inv(loc, s) && t == s.(start := Some(start), paging := t.paging)
    requires s.start == Some(start) || (s.start.None? && start == s.rows)
    requires s.load == Waiting && (s.subscribeFirst ==> s.connections != [])
    requires Progress(t.paging, s.thread, start, s.rows)
    ensures Inv(loc, t)
  {
    if s.connections != [] {
      assert Linked(s.cached, s.connections, s.broker, 0);
    }
  }

  lemma FailStep(loc: Collator, s: State)
    requires Inv(loc, s) && Enabled(s, RequestFails)
    ensures Inv(loc, Next(loc, s, RequestFails))
  {
    CallbackOnTrack(loc, s.(load := Broken), LoadFailed);
    NotSettledNothingPaged(s.callbacks);
    ViewStep(loc, s, Next(loc, s, RequestFails));
  }

  lemma SettleStep(loc: Collator, s: State)
    requires Inv(loc, s) && Enabled(s, LoadSettles)
    ensures Inv(loc, Next(loc, s, LoadSettles))
  {
    LiveViewRefinesOneShotMerge(loc, s.thread, s.cached, s.callbacks);
    assert LiveEvents(s.callbacks) + [] == LiveEvents(s.callbacks);
    ViewStep(loc, s, Next(loc, s, LoadSettles));
  }

  lemma HandoffStep(loc: Collator, s: State)
    requires Inv(loc, s) && Enabled(s, Handoff)
    ensures Inv(loc, Next(loc, s, Handoff))
  {
    var rows := Records(s.paging.persisted);
    CallbackOnTrack(loc, s.(load := Merged), Loaded(rows, s.load.buffered));
    NotSettledNothingPaged(s.callbacks);
    assert [] + rows == rows;
    ViewStep(loc, s, Next(loc, s, Handoff));
  }

  /** Every step of every actor keeps the invariant, whatever order of subscription and paging the run allows. */
  lemma StepKeepsInv(loc: Collator, s: State, step: Step)
    requires Inv(loc, s) && Enabled(s, step)
    ensures Inv(loc, Next(loc, s, step))
  {
    if step.Insert? || step.Publish? || step.Background? {
      HubStep(loc, s, step);
    } else if step.Connect? || step.Disconnect? || step.Write? || step.Deliver? {
      StreamStep(loc, s, step);
    } else {
      LoadStep(loc, s, step);
    }
  }

  lemma HubStep(loc: Collator, s: State, step: Step)
    requires Inv(loc, s) && Enabled(s, step)
    requires step.Insert? || step.Publish? || step.Background?
    ensures Inv(loc, Next(loc, s, step))
  {
    match step {
      case Insert(row, live) => InsertStep(loc, s, row, live);
      case Publish(live) => PublishStep(loc, s, live);
      case Background(b) => BackgroundStep(loc, s, b);
    }
  }

  lemma StreamStep(loc: Collator, s: State, step: Step)
    requires Inv(loc, s) && Enabled(s, step)
    requires step.Connect? || step.Disconnect? || step.Write? || step.Deliver?
    ensures Inv(loc, Next(loc, s, step))
  {
    match step {
      case Connect(id) => ConnectStep(loc, s, id);
      case Disconnect => DisconnectStep(loc, s);
      case Write => WriteStep(loc, s);
      case Deliver => DeliverStep(loc, s);
    }
  }

  lemma LoadStep(loc: Collator, s: State, step: Step)
    requires Inv(loc, s) && Enabled(s, step)
    requires step.Noise? || step.Request? || step.RequestFails? || step.LoadSettles? || step.Handoff?
    ensures Inv(loc, Next(loc, s, step))
  {
    match step {
      case Noise => NoiseStep(loc, s);
      case Request => RequestStep(loc, s);
      case RequestFails => FailStep(loc, s);
      case LoadSettles => SettleStep(loc, s);
      case Handoff => HandoffStep(loc, s);
    }
  }
}
