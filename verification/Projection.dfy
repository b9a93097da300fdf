/**
 The single pass that distributes events over buckets and streams, and the items it emits. The
 functions below say what every bucket, stream and item holds as a function of the event list;
 ProjectItemsInOnePass is the pass itself, with its maps updated event by event.
 */
module Projection {
  import opened Sequences
  import opened Events
  import opened Routing

  /** An event together with where it is sent. */
  datatype Routed = Routed(event: EventRecord, route: Route)

  datatype Bucket = Bucket(
    begin: Option<EventRecord>,
    outputs: seq<EventRecord>,
    interactions: seq<EventRecord>,
    end: Option<EventRecord>)

  datatype StreamBucket = StreamBucket(
    timestamp: string,
    order: nat,
    eventIds: seq<string>,
    chunks: seq<string>,
    variant: Variant,
    terminated: bool)

  datatype Part = Part(kind: PartKind, text: string, eventIds: seq<string>)

  datatype Role = UserRole | AssistantRole

  datatype Message = Message(id: string, role: Role, createdAt: string, parts: seq<Part>)

  datatype Item =
    | AssistantItem(timestamp: string, order: nat, part: Part, closes: bool)
    | UserItem(timestamp: string, order: nat, message: Message)

  const MAX_SAFE_INTEGER: nat := 9007199254740991

  /** A JavaScript Map: entries keep the order in which their keys were first set. */
  datatype OrderedMap<V> = OrderedMap(keys: seq<string>, values: map<string, V>)

  function Put<V>(m: OrderedMap<V>, key: string, value: V): OrderedMap<V> {
    OrderedMap(if key in m.values then m.keys else m.keys + [key], m.values[key := value])
  }

  const EMPTY_BUCKET := Bucket(None, [], [], None)

  function AddToBucket(b: Bucket, slot: Slot, e: EventRecord): Bucket {
    match slot
    case Begin => b.(begin := Some(e))
    case Output => b.(outputs := b.outputs + [e])
    case Interaction => b.(interactions := b.interactions + [e])
    case End => b.(end := Some(e))
  }

  function RouteAll(events: seq<EventRecord>): seq<Routed> {
    seq(|events|, i requires 0 <= i < |events| => Routed(events[i], RouteOf(events[i])))
  }

  function LastOf<T>(xs: seq<T>): Option<T> {
    if xs == [] then None else Some(xs[|xs| - 1])
  }

  predicate FillsSlot(r: Routed, tool: ToolKind, id: string, slot: Slot) {
    r.route == ToBucket(tool, id, slot)
  }

  /** The events sent to one slot of one bucket, in order. */
  function SlotEvents(es: seq<Routed>, tool: ToolKind, id: string, slot: Slot): seq<EventRecord> {
    if es == [] then []
    else
      var r := es[|es| - 1];
      SlotEvents(es[..|es| - 1], tool, id, slot) + if FillsSlot(r, tool, id, slot) then [r.event] else []
  }

  /** A later begin or end replaces an earlier one; outputs and interactions accumulate. */
  function BucketOf(es: seq<Routed>, tool: ToolKind, id: string): Bucket {
    Bucket(LastOf(SlotEvents(es, tool, id, Begin)), SlotEvents(es, tool, id, Output),
           SlotEvents(es, tool, id, Interaction), LastOf(SlotEvents(es, tool, id, End)))
  }

  /** The ids of a tool's buckets, in order of first use. */
  function BucketIds(es: seq<Routed>, tool: ToolKind): seq<string> {
    if es == [] then []
    else
      var ids, r := BucketIds(es[..|es| - 1], tool), es[|es| - 1].route;
      if r.ToBucket? && r.tool == tool && r.id !in ids then ids + [r.id] else ids
  }

  datatype Delta = Delta(index: nat, event: EventRecord, variant: Variant, text: string)

  /** All deltas of one stream, in order, with their positions. */
  function Deltas(es: seq<Routed>, stream: StreamKind, key: string): seq<Delta> {
    if es == [] then []
    else
      var n := |es| - 1;
      var r := es[n].route;
      Deltas(es[..n], stream, key)
        + if r.Chunk? && r.stream == stream && r.key == key then [Delta(n, es[n].event, r.variant, r.chunk)] else []
  }

  predicate Ends(r: Route, stream: StreamKind, key: string) {
    r.Direct? && r.ends == Some((stream, key))
  }

  /** Some delta of the stream is followed by an event that ends it. */
  predicate EndedAfterDelta(es: seq<Routed>, stream: StreamKind, key: string) {
    es != [] && (
      var n := |es| - 1;
      EndedAfterDelta(es[..n], stream, key)
      || (Ends(es[n].route, stream, key) && Deltas(es[..n], stream, key) != []))
  }

  function StreamKeys(es: seq<Routed>, stream: StreamKind): seq<string> {
    if es == [] then []
    else
      var keys, r := StreamKeys(es[..|es| - 1], stream), es[|es| - 1].route;
      if r.Chunk? && r.stream == stream && r.key !in keys then keys + [r.key] else keys
  }

  function DeltaIds(ds: seq<Delta>): seq<string> {
    seq(|ds|, k requires 0 <= k < |ds| => ds[k].event.eventId)
  }

  /** The chunks worth keeping: appendStreamChunk skips empty ones. */
  function Chunks(ds: seq<Delta>): seq<string> {
    if ds == [] then []
    else Chunks(ds[..|ds| - 1]) + if ds[|ds| - 1].text == "" then [] else [ds[|ds| - 1].text]
  }

  /** Time, place and variant are the first delta's. */
  function StreamFrom(ds: seq<Delta>, ended: bool): StreamBucket
    requires ds != []
  {
    StreamBucket(ds[0].event.timestamp, ds[0].index, DeltaIds(ds), Chunks(ds), ds[0].variant, ended)
  }

  function StreamOf(es: seq<Routed>, stream: StreamKind, key: string): StreamBucket
    requires Deltas(es, stream, key) != []
  {
    StreamFrom(Deltas(es, stream, key), EndedAfterDelta(es, stream, key))
  }

  function Join(chunks: seq<string>): string {
    if chunks == [] then "" else Join(chunks[..|chunks| - 1]) + chunks[|chunks| - 1]
  }

  function UserParts(event: EventRecord): (parts: seq<Part>)
    ensures parts != [] && forall p :: p in parts ==> p.eventIds == [event.eventId]
  {
    var payload := MsgOf(event);
    var message := OrElse(Str(payload, "message"), "");
    var inputs := HasStrings(List(payload, "images")) || HasStrings(List(payload, "local_images"))
               || List(payload, "text_elements") != [];
    (if IsBlank(message) then [] else [Part(TextPart, message, [event.eventId])])
      + (if inputs then [Part(UnknownPart, "", [event.eventId])] else [])
      + (if IsBlank(message) && !inputs then [Part(TextPart, message, [event.eventId])] else [])
  }

  /** The item an event is shown as by itself. */
  function DirectItem(r: Routed, index: nat): seq<Item> {
    match r.route
    case User =>
      [UserItem(r.event.timestamp, index, Message("user-" + r.event.eventId, UserRole, r.event.timestamp, UserParts(r.event)))]
    case Direct(kind, text, closes, _) =>
      [AssistantItem(r.event.timestamp, index, Part(kind, text, [r.event.eventId]), closes)]
    case _ => []
  }

  function DirectItems(es: seq<Routed>): seq<Item> {
    if es == [] then [] else DirectItems(es[..|es| - 1]) + DirectItem(es[|es| - 1], |es| - 1)
  }

  function IdOf(e: Option<EventRecord>): seq<string> {
    if e.Some? then [e.value.eventId] else []
  }

  function EventIds(events: seq<EventRecord>): seq<string> {
    seq(|events|, k requires 0 <= k < |events| => events[k].eventId)
  }

  /** The event whose timestamp places the bucket. */
  function Anchor(b: Bucket): Option<EventRecord> {
    if b.begin.Some? then b.begin
    else if b.outputs != [] then Some(b.outputs[0])
    else if b.interactions != [] then Some(b.interactions[0])
    else b.end
  }

  function BucketItem(tool: ToolKind, b: Bucket): seq<Item> {
    if Anchor(b).None? then []
    else [AssistantItem(Anchor(b).value.timestamp, MAX_SAFE_INTEGER,
            Part(ToolPart(tool), "", IdOf(b.begin) + EventIds(b.outputs) + EventIds(b.interactions) + IdOf(b.end)), false)]
  }

  function StreamPartKind(v: Variant): PartKind {
    if v == PlainText then TextPart else ReasoningPart(v)
  }

  function StreamItem(b: StreamBucket): seq<Item> {
    if b.terminated || Join(b.chunks) == "" then []
    else [AssistantItem(b.timestamp, b.order, Part(StreamPartKind(b.variant), Join(b.chunks), b.eventIds), false)]
  }

  /** Where an event ends up being shown, if anywhere. */
  datatype Home = Alone | InBucket(tool: ToolKind, id: string) | InStream(stream: StreamKind, key: string)

  function ItemsAt(es: seq<Routed>, h: Home): seq<Item> {
    match h
    case Alone => DirectItems(es)
    case InBucket(tool, id) => BucketItem(tool, BucketOf(es, tool, id))
    case InStream(stream, key) => if Deltas(es, stream, key) == [] then [] else StreamItem(StreamOf(es, stream, key))
  }

  function ShownAt(es: seq<Routed>): Home -> seq<Item> {
    h => ItemsAt(es, h)
  }

  function BucketHomes(tool: ToolKind, ids: seq<string>): seq<Home> {
    seq(|ids|, k requires 0 <= k < |ids| => InBucket(tool, ids[k]))
  }

  function StreamHomes(stream: StreamKind, keys: seq<string>): seq<Home> {
    seq(|keys|, k requires 0 <= k < |keys| => InStream(stream, keys[k]))
  }

  const TOOLS := [Exec, McpTool, WebSearch, ImageGeneration, Patch, DynamicTool,
                  CollabSpawn, CollabInteraction, CollabWait, CollabClose, CollabResume]

  lemma EveryToolIsListed(tool: ToolKind)
    ensures tool in TOOLS
  {
    var k :=
      match tool
      case Exec => 0 case McpTool => 1 case WebSearch => 2 case ImageGeneration => 3 case Patch => 4
      case DynamicTool => 5 case CollabSpawn => 6 case CollabInteraction => 7 case CollabWait => 8
      case CollabClose => 9 case CollabResume => 10;
    assert TOOLS[k] == tool;
  }

  function ToolHomes(es: seq<Routed>, tools: seq<ToolKind>): seq<Home> {
    if tools == [] then []
    else ToolHomes(es, tools[..|tools| - 1]) + BucketHomes(tools[|tools| - 1], BucketIds(es, tools[|tools| - 1]))
  }

  /** The order of emission: direct items, the tools' maps one after another, the two stream maps. */
  function Homes(es: seq<Routed>): seq<Home> {
    [Alone] + ToolHomes(es, TOOLS) + StreamHomes(Messages, StreamKeys(es, Messages))
      + StreamHomes(Reasonings, StreamKeys(es, Reasonings))
  }

  function ProjectItems(es: seq<Routed>): seq<Item> {
    FlatMap(ShownAt(es), Homes(es))
  }
}
