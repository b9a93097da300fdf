/** The pass over the events, with its maps of buckets and streams updated step by step. */
module ProjectionPass {
  import opened Sequences
  import opened Events
  import opened Routing
  import opened Projection

  const NO_BUCKETS: OrderedMap<Bucket> := OrderedMap([], map[])
  const NO_STREAMS: OrderedMap<StreamBucket> := OrderedMap([], map[])

  const NO_TOOLS: map<ToolKind, OrderedMap<Bucket>> := map[
    Exec := NO_BUCKETS, McpTool := NO_BUCKETS, WebSearch := NO_BUCKETS, ImageGeneration := NO_BUCKETS,
    Patch := NO_BUCKETS, DynamicTool := NO_BUCKETS, CollabSpawn := NO_BUCKETS, CollabInteraction := NO_BUCKETS,
    CollabWait := NO_BUCKETS, CollabClose := NO_BUCKETS, CollabResume := NO_BUCKETS]
  const NO_STREAM_MAPS: map<StreamKind, OrderedMap<StreamBucket>> := map[Messages := NO_STREAMS, Reasonings := NO_STREAMS]

  /** getBucket(...), then the assignment or push of the slot. */
  function FillSlot(m: OrderedMap<Bucket>, id: string, slot: Slot, e: EventRecord): OrderedMap<Bucket> {
    var bucket := if id in m.values then m.values[id] else EMPTY_BUCKET;
    Put(m, id, AddToBucket(bucket, slot, e))
  }

  function BucketsAfter(m: OrderedMap<Bucket>, tool: ToolKind, r: Routed): OrderedMap<Bucket> {
    if r.route.ToBucket? && r.route.tool == tool then FillSlot(m, r.route.id, r.route.slot, r.event) else m
  }

  function AppendStreamChunk(m: OrderedMap<StreamBucket>, key: string, e: EventRecord, order: nat,
                             variant: Variant, chunk: string): OrderedMap<StreamBucket>
  {
    var bucket := if key in m.values then m.values[key] else StreamBucket(e.timestamp, order, [], [], variant, false);
    Put(m, key, bucket.(
      eventIds := bucket.eventIds + [e.eventId],
      chunks := if chunk == "" then bucket.chunks else bucket.chunks + [chunk]))
  }

  function TerminateStream(m: OrderedMap<StreamBucket>, key: string): OrderedMap<StreamBucket> {
    if key in m.values then m.(values := m.values[key := m.values[key].(terminated := true)]) else m
  }

  /** m is what the events make of one tool's map. */
  ghost predicate HoldsBuckets(es: seq<Routed>, tool: ToolKind, m: OrderedMap<Bucket>) {
    && m.keys == BucketIds(es, tool)
    && (forall id :: id in m.values <==> id in m.keys)
    && (forall id :: id in m.values ==> m.values[id] == BucketOf(es, tool, id))
  }

  ghost predicate HoldsStreams(es: seq<Routed>, stream: StreamKind, m: OrderedMap<StreamBucket>) {
    && m.keys == StreamKeys(es, stream)
    && (forall key :: key in m.values <==> key in m.keys)
    && (forall key :: key in m.values ==> Deltas(es, stream, key) != [] && m.values[key] == StreamOf(es, stream, key))
  }

  lemma SlotEventsSnoc(es: seq<Routed>, r: Routed, tool: ToolKind, id: string, slot: Slot)
    ensures SlotEvents(es + [r], tool, id, slot)
         == if FillsSlot(r, tool, id, slot) then SlotEvents(es, tool, id, slot) + [r.event] else SlotEvents(es, tool, id, slot)
  {
    assert (es + [r])[..|es|] == es;
    assert SlotEvents(es, tool, id, slot) + [] == SlotEvents(es, tool, id, slot);
  }

  lemma SlotEventsLast(es: seq<Routed>, r: Routed, tool: ToolKind, id: string, slot: Slot)
    ensures LastOf(SlotEvents(es + [r], tool, id, slot))
         == if FillsSlot(r, tool, id, slot) then Some(r.event) else LastOf(SlotEvents(es, tool, id, slot))
  {
    SlotEventsSnoc(es, r, tool, id, slot);
  }

  lemma BucketOfSnoc(es: seq<Routed>, r: Routed, tool: ToolKind, id: string)
    ensures BucketOf(es + [r], tool, id)
         == if r.route.ToBucket? && r.route.tool == tool && r.route.id == id
            then AddToBucket(BucketOf(es, tool, id), r.route.slot, r.event)
            else BucketOf(es, tool, id)
  {
    SlotEventsLast(es, r, tool, id, Begin);
    SlotEventsSnoc(es, r, tool, id, Output);
    SlotEventsSnoc(es, r, tool, id, Interaction);
    SlotEventsLast(es, r, tool, id, End);
    if r.route.ToBucket? && r.route.tool == tool && r.route.id == id {
      var slot := r.route.slot;
      assert forall s :: FillsSlot(r, tool, id, s) <==> s == slot;
    } else {
      assert forall s :: !FillsSlot(r, tool, id, s);
    }
  }

  lemma BucketIdsSnoc(es: seq<Routed>, r: Routed, tool: ToolKind)
    ensures BucketIds(es + [r], tool)
         == if r.route.ToBucket? && r.route.tool == tool && r.route.id !in BucketIds(es, tool)
            then BucketIds(es, tool) + [r.route.id] else BucketIds(es, tool)
  {
    assert (es + [r])[..|es|] == es;
  }

  lemma {:induction false} UnusedBucketIsEmpty(es: seq<Routed>, tool: ToolKind, id: string)
    requires id !in BucketIds(es, tool)
    ensures BucketOf(es, tool, id) == EMPTY_BUCKET
  {
    if es != [] {
      var front, r := es[..|es| - 1], es[|es| - 1];
      assert es == front + [r];
      BucketIdsSnoc(front, r, tool);
      BucketOfSnoc(front, r, tool, id);
      UnusedBucketIsEmpty(front, tool, id);
    }
  }

  lemma BucketStep(es: seq<Routed>, r: Routed, tool: ToolKind, m: OrderedMap<Bucket>)
    requires HoldsBuckets(es, tool, m)
    ensures HoldsBuckets(es + [r], tool, BucketsAfter(m, tool, r))
  {
    var next := BucketsAfter(m, tool, r);
    BucketIdsSnoc(es, r, tool);
    forall id | id in next.values ensures next.values[id] == BucketOf(es + [r], tool, id) {
      BucketOfSnoc(es, r, tool, id);
      if id !in m.keys {
        UnusedBucketIsEmpty(es, tool, id);
      }
    }
  }

  lemma DeltasSnoc(es: seq<Routed>, r: Routed, stream: StreamKind, key: string)
    ensures Deltas(es + [r], stream, key)
         == if r.route.Chunk? && r.route.stream == stream && r.route.key == key
            then Deltas(es, stream, key) + [Delta(|es|, r.event, r.route.variant, r.route.chunk)]
            else Deltas(es, stream, key)
    ensures EndedAfterDelta(es + [r], stream, key)
        <==> EndedAfterDelta(es, stream, key) || (Ends(r.route, stream, key) && Deltas(es, stream, key) != [])
  {
    assert (es + [r])[..|es|] == es;
    assert Deltas(es, stream, key) + [] == Deltas(es, stream, key);
  }

  lemma StreamKeysSnoc(es: seq<Routed>, r: Routed, stream: StreamKind)
    ensures StreamKeys(es + [r], stream)
         == if r.route.Chunk? && r.route.stream == stream && r.route.key !in StreamKeys(es, stream)
            then StreamKeys(es, stream) + [r.route.key] else StreamKeys(es, stream)
  {
    assert (es + [r])[..|es|] == es;
  }

  lemma {:induction false} KeysHaveDeltas(es: seq<Routed>, stream: StreamKind, key: string)
    ensures key in StreamKeys(es, stream) <==> Deltas(es, stream, key) != []
    ensures Deltas(es, stream, key) == [] ==> !EndedAfterDelta(es, stream, key)
  {
    if es != [] {
      var front, r := es[..|es| - 1], es[|es| - 1];
      assert es == front + [r];
      KeysHaveDeltas(front, stream, key);
      DeltasSnoc(front, r, stream, key);
      StreamKeysSnoc(front, r, stream);
    }
  }

  lemma DeltaViewsSnoc(ds: seq<Delta>, d: Delta)
    ensures DeltaIds(ds + [d]) == DeltaIds(ds) + [d.event.eventId]
    ensures Chunks(ds + [d]) == if d.text == "" then Chunks(ds) else Chunks(ds) + [d.text]
  {
    assert (ds + [d])[..|ds|] == ds;
  }

  /** The stream map after an event: a delta extends its stream, an ending terminates one that exists. */
  function StreamsAfter(m: OrderedMap<StreamBucket>, stream: StreamKind, r: Routed, order: nat): OrderedMap<StreamBucket> {
    match r.route
    case Chunk(s, key, variant, chunk) =>
      if s == stream then AppendStreamChunk(m, key, r.event, order, variant, chunk) else m
    case Direct(_, _, _, Some((s, key))) =>
      if s == stream then TerminateStream(m, key) else m
    case _ => m
  }

  lemma StreamStep(es: seq<Routed>, r: Routed, stream: StreamKind, m: OrderedMap<StreamBucket>)
    requires HoldsStreams(es, stream, m)
    ensures HoldsStreams(es + [r], stream, StreamsAfter(m, stream, r, |es|))
  {
    var next := StreamsAfter(m, stream, r, |es|);
    StreamKeysSnoc(es, r, stream);
    KeysMove(m, stream, r, |es|);
    forall key | key in next.values
      ensures Deltas(es + [r], stream, key) != [] && next.values[key] == StreamOf(es + [r], stream, key) {
      KeysHaveDeltas(es, stream, key);
      StreamKeyStep(es, r, stream, m, key);
    }
  }

  /** A delta of a new key adds it last; nothing else adds one. */
  lemma KeysMove(m: OrderedMap<StreamBucket>, stream: StreamKind, r: Routed, order: nat)
    requires forall key :: key in m.values <==> key in m.keys
    ensures var next := StreamsAfter(m, stream, r, order);
      && next.keys == (if r.route.Chunk? && r.route.stream == stream && r.route.key !in m.keys then m.keys + [r.route.key] else m.keys)
      && forall key :: key in next.values <==> key in next.keys
  {
  }

  lemma StreamKeyStep(es: seq<Routed>, r: Routed, stream: StreamKind, m: OrderedMap<StreamBucket>, key: string)
    requires key in m.values <==> Deltas(es, stream, key) != []
    requires key in m.values ==> m.values[key] == StreamOf(es, stream, key)
    requires key in StreamsAfter(m, stream, r, |es|).values
    ensures Deltas(es + [r], stream, key) != []
    ensures StreamsAfter(m, stream, r, |es|).values[key] == StreamOf(es + [r], stream, key)
  {
    StreamsAfterAt(m, stream, r, |es|, key);
    if r.route.Chunk? && r.route.stream == stream && r.route.key == key {
      StreamOfDelta(es, r, stream, key);
    } else {
      StreamOfOther(es, r, stream, key);
    }
  }

  lemma StreamsAfterAt(m: OrderedMap<StreamBucket>, stream: StreamKind, r: Routed, order: nat, key: string)
    ensures var next := StreamsAfter(m, stream, r, order).values;
      if r.route.Chunk? && r.route.stream == stream && r.route.key == key then
        && key in next
        && var text, id := r.route.chunk, r.event.eventId;
           if key in m.values then
             next[key] == m.values[key].(eventIds := m.values[key].eventIds + [id],
                                         chunks := if text == "" then m.values[key].chunks else m.values[key].chunks + [text])
           else
             next[key] == StreamBucket(r.event.timestamp, order, [id], if text == "" then [] else [text], r.route.variant, false)
      else
        && (key in next <==> key in m.values)
        && (key in next ==>
              next[key] == m.values[key].(terminated := m.values[key].terminated || Ends(r.route, stream, key)))
  {
  }

  lemma StreamOfDelta(es: seq<Routed>, r: Routed, stream: StreamKind, key: string)
    requires r.route.Chunk? && r.route.stream == stream && r.route.key == key
    ensures Deltas(es + [r], stream, key) != []
    ensures StreamOf(es + [r], stream, key) ==
      var text := r.route.chunk;
      if Deltas(es, stream, key) == [] then
        StreamBucket(r.event.timestamp, |es|, [r.event.eventId], if text == "" then [] else [text], r.route.variant, false)
      else
        var b := StreamOf(es, stream, key);
        b.(eventIds := b.eventIds + [r.event.eventId], chunks := if text == "" then b.chunks else b.chunks + [text])
  {
    DeltasSnoc(es, r, stream, key);
    KeysHaveDeltas(es, stream, key);
    ExtendStream(Deltas(es, stream, key), Delta(|es|, r.event, r.route.variant, r.route.chunk), EndedAfterDelta(es, stream, key));
  }

  lemma StreamOfOther(es: seq<Routed>, r: Routed, stream: StreamKind, key: string)
    requires !(r.route.Chunk? && r.route.stream == stream && r.route.key == key)
    requires Deltas(es, stream, key) != []
    ensures Deltas(es + [r], stream, key) == Deltas(es, stream, key)
    ensures StreamOf(es + [r], stream, key) ==
      var b := StreamOf(es, stream, key);
      b.(terminated := b.terminated || Ends(r.route, stream, key))
  {
    DeltasSnoc(es, r, stream, key);
  }

  lemma ExtendStream(ds: seq<Delta>, d: Delta, ended: bool)
    ensures StreamFrom(ds + [d], ended) ==
      if ds == [] then
        StreamBucket(d.event.timestamp, d.index, [d.event.eventId], if d.text == "" then [] else [d.text], d.variant, ended)
      else
        var b := StreamFrom(ds, ended);
        b.(eventIds := b.eventIds + [d.event.eventId], chunks := if d.text == "" then b.chunks else b.chunks + [d.text])
  {
    DeltaViewsSnoc(ds, d);
    if ds == [] {
      assert DeltaIds([]) == [] && Chunks([]) == [];
    }
  }

  ghost predicate Holds(es: seq<Routed>, tools: map<ToolKind, OrderedMap<Bucket>>, streams: map<StreamKind, OrderedMap<StreamBucket>>) {
    && (forall t :: t in tools && HoldsBuckets(es, t, tools[t]))
    && (forall s :: s in streams && HoldsStreams(es, s, streams[s]))
  }

  /** The switch for one event. */
  method Dispatch(ghost es: seq<Routed>, r: Routed, index: nat, items: seq<Item>,
                  tools: map<ToolKind, OrderedMap<Bucket>>, streams: map<StreamKind, OrderedMap<StreamBucket>>)
    returns (items': seq<Item>, tools': map<ToolKind, OrderedMap<Bucket>>, streams': map<StreamKind, OrderedMap<StreamBucket>>)
    requires index == |es| && items == DirectItems(es) && Holds(es, tools, streams)
    ensures items' == DirectItems(es + [r]) && Holds(es + [r], tools', streams')
  {
    items', tools', streams' := items, tools, streams;
    var event := r.event;
    match r.route {
      case Ignored =>
      case User =>
        items' := items + DirectItem(r, index);
      case Direct(_, _, _, ends) =>
        if ends.Some? {
          var (stream, key) := ends.value;
          streams' := streams[stream := TerminateStream(streams[stream], key)];
        }
        items' := items + DirectItem(r, index);
      case Chunk(stream, key, variant, chunk) =>
        streams' := streams[stream := AppendStreamChunk(streams[stream], key, event, index, variant, chunk)];
      case ToBucket(tool, id, slot) =>
        tools' := tools[tool := FillSlot(tools[tool], id, slot, event)];
    }
    DirectStep(es, r);
    AllMaps(es, tools, streams);
    assert ToolsMove(tools, tools', r);
    assert StreamsMove(streams, streams', r, index);
    StepHolds(es, r, tools, streams, tools', streams');
  }

  lemma AllMaps(es: seq<Routed>, tools: map<ToolKind, OrderedMap<Bucket>>, streams: map<StreamKind, OrderedMap<StreamBucket>>)
    requires Holds(es, tools, streams)
    ensures (forall t :: t in tools) && forall s :: s in streams
  {
  }

  lemma DirectStep(es: seq<Routed>, r: Routed)
    ensures DirectItems(es + [r]) == DirectItems(es) + DirectItem(r, |es|)
  {
    var longer := es + [r];
    assert longer != [] && |longer| - 1 == |es|;
    assert longer[|es|] == r && longer[..|es|] == es;
  }

  /** Every tool's map is what the event makes of it. */
  ghost predicate ToolsMove(tools: map<ToolKind, OrderedMap<Bucket>>, tools': map<ToolKind, OrderedMap<Bucket>>, r: Routed)
    requires forall t :: t in tools
  {
    forall t :: t in tools' && tools'[t] == BucketsAfter(tools[t], t, r)
  }

  ghost predicate StreamsMove(streams: map<StreamKind, OrderedMap<StreamBucket>>,
                              streams': map<StreamKind, OrderedMap<StreamBucket>>, r: Routed, order: nat)
    requires forall s :: s in streams
  {
    forall s :: s in streams' && streams'[s] == StreamsAfter(streams[s], s, r, order)
  }

  /** The loop over the events. */
  method Distribute(events: seq<EventRecord>)
    returns (items: seq<Item>, tools: map<ToolKind, OrderedMap<Bucket>>, streams: map<StreamKind, OrderedMap<StreamBucket>>)
    ensures items == DirectItems(RouteAll(events)) && Holds(RouteAll(events), tools, streams)
  {
    ghost var es := RouteAll(events);
    items, tools, streams := [], NO_TOOLS, NO_STREAM_MAPS;
    assert es[..0] == [];
    NothingHeld();
    for index := 0 to |events|
      invariant items == DirectItems(es[..index]) && Holds(es[..index], tools, streams)
    {
      assert es[..index + 1] == es[..index] + [es[index]];
      items, tools, streams :=
        Dispatch(es[..index], Routed(events[index], RouteOf(events[index])), index, items, tools, streams);
    }
    assert es[..|events|] == es;
  }

  /** The loops over the tools' maps, one after another. */
  method EmitTools(ghost es: seq<Routed>, tools: map<ToolKind, OrderedMap<Bucket>>, streams: map<StreamKind, OrderedMap<StreamBucket>>)
    returns (items: seq<Item>)
    requires Holds(es, tools, streams)
    ensures items == FlatMap(ShownAt(es), ToolHomes(es, TOOLS))
  {
    items := [];
    ghost var shown := ShownAt(es);
    for t := 0 to |TOOLS|
      invariant items == FlatMap(shown, ToolHomes(es, TOOLS[..t]))
    {
      var added := EmitBuckets(es, TOOLS[t], tools[TOOLS[t]]);
      FlatMapAppend(shown, ToolHomes(es, TOOLS[..t]), BucketHomes(TOOLS[t], BucketIds(es, TOOLS[t])));
      assert TOOLS[..t + 1][..t] == TOOLS[..t];
      items := items + added;
    }
    assert TOOLS[..|TOOLS|] == TOOLS;
  }

  /** The loop over the events, then the loops that emit the maps in turn. */
  method ProjectItemsInOnePass(events: seq<EventRecord>) returns (items: seq<Item>)
    ensures items == ProjectItems(RouteAll(events))
  {
    ghost var es := RouteAll(events);
    var direct, tools, streams := Distribute(events);
    var buckets := EmitTools(es, tools, streams);
    var messages := EmitStreams(es, Messages, streams[Messages]);
    var reasonings := EmitStreams(es, Reasonings, streams[Reasonings]);
    items := direct + buckets + messages + reasonings;
    EmissionOrder(es);
  }

  lemma EmissionOrder(es: seq<Routed>)
    ensures ProjectItems(es)
         == DirectItems(es) + FlatMap(ShownAt(es), ToolHomes(es, TOOLS))
            + FlatMap(ShownAt(es), StreamHomes(Messages, StreamKeys(es, Messages)))
            + FlatMap(ShownAt(es), StreamHomes(Reasonings, StreamKeys(es, Reasonings)))
  {
    EmissionSplits(ShownAt(es), ToolHomes(es, TOOLS), StreamHomes(Messages, StreamKeys(es, Messages)),
                   StreamHomes(Reasonings, StreamKeys(es, Reasonings)));
  }

  lemma EmissionSplits(shown: Home -> seq<Item>, tools: seq<Home>, messages: seq<Home>, reasonings: seq<Home>)
    ensures FlatMap(shown, [Alone] + tools + messages + reasonings)
         == shown(Alone) + FlatMap(shown, tools) + FlatMap(shown, messages) + FlatMap(shown, reasonings)
  {
    FlatMapSnoc(shown, [Alone], 0);
    assert [Alone][..1] == [Alone] && [Alone][..0] == [];
    calc {
      FlatMap(shown, [Alone] + tools + messages + reasonings);
      { FlatMapAppend(shown, [Alone] + tools + messages, reasonings); }
      FlatMap(shown, [Alone] + tools + messages) + FlatMap(shown, reasonings);
      { FlatMapAppend(shown, [Alone] + tools, messages); }
      FlatMap(shown, [Alone] + tools) + FlatMap(shown, messages) + FlatMap(shown, reasonings);
      { FlatMapAppend(shown, [Alone], tools); }
      FlatMap(shown, [Alone]) + FlatMap(shown, tools) + FlatMap(shown, messages) + FlatMap(shown, reasonings);
    }
  }

  lemma NothingHeld()
    ensures Holds([], NO_TOOLS, NO_STREAM_MAPS)
  {
    forall t ensures t in NO_TOOLS && HoldsBuckets([], t, NO_TOOLS[t]) {
      EveryToolIsListed(t);
    }
    forall s ensures s in NO_STREAM_MAPS && HoldsStreams([], s, NO_STREAM_MAPS[s]) {
      assert s == Messages || s == Reasonings;
    }
  }

  lemma StepHolds(es: seq<Routed>, r: Routed,
                  tools: map<ToolKind, OrderedMap<Bucket>>, streams: map<StreamKind, OrderedMap<StreamBucket>>,
                  tools': map<ToolKind, OrderedMap<Bucket>>, streams': map<StreamKind, OrderedMap<StreamBucket>>)
    requires Holds(es, tools, streams) && ToolsMove(tools, tools', r) && StreamsMove(streams, streams', r, |es|)
    ensures Holds(es + [r], tools', streams')
  {
    forall t ensures t in tools' && HoldsBuckets(es + [r], t, tools'[t]) {
      BucketStep(es, r, t, tools[t]);
    }
    forall s ensures s in streams' && HoldsStreams(es + [r], s, streams'[s]) {
      StreamStep(es, r, s, streams[s]);
    }
  }

  method EmitBuckets(ghost es: seq<Routed>, tool: ToolKind, m: OrderedMap<Bucket>) returns (items: seq<Item>)
    requires HoldsBuckets(es, tool, m)
    ensures items == FlatMap(ShownAt(es), BucketHomes(tool, BucketIds(es, tool)))
  {
    items := [];
    ghost var homes, shown := BucketHomes(tool, m.keys), ShownAt(es);
    for k := 0 to |m.keys|
      invariant items == FlatMap(shown, homes[..k])
    {
      FlatMapSnoc(shown, homes, k);
      BucketShown(es, tool, m, k);
      items := items + BucketItem(tool, m.values[m.keys[k]]);
    }
    assert homes[..|m.keys|] == homes;
  }

  lemma BucketShown(es: seq<Routed>, tool: ToolKind, m: OrderedMap<Bucket>, k: nat)
    requires HoldsBuckets(es, tool, m) && k < |m.keys|
    ensures m.keys[k] in m.values
    ensures ShownAt(es)(BucketHomes(tool, m.keys)[k]) == BucketItem(tool, m.values[m.keys[k]])
  {
    assert m.keys[k] in m.keys;
  }

  method EmitStreams(ghost es: seq<Routed>, stream: StreamKind, m: OrderedMap<StreamBucket>) returns (items: seq<Item>)
    requires HoldsStreams(es, stream, m)
    ensures items == FlatMap(ShownAt(es), StreamHomes(stream, StreamKeys(es, stream)))
  {
    items := [];
    ghost var homes, shown := StreamHomes(stream, m.keys), ShownAt(es);
    for k := 0 to |m.keys|
      invariant items == FlatMap(shown, homes[..k])
    {
      FlatMapSnoc(shown, homes, k);
      StreamShown(es, stream, m, k);
      items := items + StreamItem(m.values[m.keys[k]]);
    }
    assert homes[..|m.keys|] == homes;
  }

  lemma StreamShown(es: seq<Routed>, stream: StreamKind, m: OrderedMap<StreamBucket>, k: nat)
    requires HoldsStreams(es, stream, m) && k < |m.keys|
    ensures m.keys[k] in m.values
    ensures ShownAt(es)(StreamHomes(stream, m.keys)[k]) == StreamItem(m.values[m.keys[k]])
  {
    assert m.keys[k] in m.keys;
  }
}
