/**
 What becomes of every event in the projection. The account is exact for every event list: the
 ids shown by all items together are the ids of the shown events, each as often as it occurs.
 */
module Conservation {
  import opened Sequences
  import opened StableSort
  import opened Events
  import opened Routing
  import opened Projection
  import opened ProjectionPass

  function HomeOf(r: Route): Option<Home> {
    match r
    case Ignored => None
    case User => Some(Alone)
    case Direct(_, _, _, _) => Some(Alone)
    case ToBucket(tool, id, _) => Some(InBucket(tool, id))
    case Chunk(stream, key, _, _) => Some(InStream(stream, key))
  }

  /** A later event of the same kind fills the same slot of the same bucket. */
  ghost predicate Overwritten(es: seq<Routed>, i: nat)
    requires i < |es|
  {
    && es[i].route.ToBucket? && (es[i].route.slot == Begin || es[i].route.slot == End)
    && exists j :: i < j < |es| && es[j].route == es[i].route
  }

  predicate IsDelta(r: Routed, stream: StreamKind, key: string) {
    r.route.Chunk? && r.route.stream == stream && r.route.key == key
  }

  /** Some delta carries text, and no ending event follows any delta. */
  ghost predicate StreamVisible(es: seq<Routed>, stream: StreamKind, key: string) {
    && (exists i :: 0 <= i < |es| && IsDelta(es[i], stream, key) && es[i].route.chunk != "")
    && !(exists i, j :: 0 <= i < j < |es| && IsDelta(es[i], stream, key) && Ends(es[j].route, stream, key))
  }

  ghost predicate Shown(es: seq<Routed>, i: nat)
    requires i < |es|
  {
    match es[i].route
    case Ignored => false
    case User => true
    case Direct(_, _, _, _) => true
    case ToBucket(_, _, _) => !Overwritten(es, i)
    case Chunk(stream, key, _, _) => StreamVisible(es, stream, key)
  }

  ghost function One(counted: bool, id: string): multiset<string> {
    if counted then multiset{id} else multiset{}
  }

  /** The ids of the picked events among the first n, each as often as it occurs. */
  ghost function IdsWhere(es: seq<Routed>, picked: seq<bool>, n: nat): multiset<string>
    requires n <= |es| == |picked|
  {
    if n == 0 then multiset{} else IdsWhere(es, picked, n - 1) + One(picked[n - 1], es[n - 1].event.eventId)
  }

  ghost function ShownFlags(es: seq<Routed>): seq<bool> {
    seq(|es|, i requires 0 <= i < |es| => Shown(es, i))
  }

  /** The ids of all shown events. */
  ghost function ShownIds(es: seq<Routed>): multiset<string> {
    IdsWhere(es, ShownFlags(es), |es|)
  }

  /** The home of every shown event. */
  ghost function Labels(es: seq<Routed>): seq<Option<Home>> {
    seq(|es|, i requires 0 <= i < |es| => if Shown(es, i) then HomeOf(es[i].route) else None)
  }

  ghost function Picks(labels: seq<Option<Home>>, h: Home): seq<bool> {
    seq(|labels|, i requires 0 <= i < |labels| => labels[i] == Some(h))
  }

  /** The ids of the shown events that belong to one home. */
  ghost function HomeIds(es: seq<Routed>, h: Home): multiset<string> {
    IdsWhere(es, Picks(Labels(es), h), |es|)
  }

  /** The ids an item stands for; a user message counts its event once. */
  function ItemIds(item: Item): seq<string> {
    match item
    case AssistantItem(_, _, part, _) => part.eventIds
    case UserItem(_, _, message) => if message.parts == [] then [] else message.parts[0].eventIds
  }

  /** Every part of a user message lists the message's one event, so that counting it once is fair. */
  ghost predicate Whole(item: Item) {
    item.UserItem? ==>
      |ItemIds(item)| == 1 && forall p :: p in item.message.parts ==> p.eventIds == ItemIds(item)
  }

  lemma {:induction false} DirectItemsAreWhole(es: seq<Routed>)
    ensures forall x :: x in DirectItems(es) ==> Whole(x)
  {
    if es != [] {
      DirectItemsAreWhole(es[..|es| - 1]);
      var event := es[|es| - 1].event;
      assert UserParts(event)[0] in UserParts(event);
    }
  }

  lemma {:induction false} ItemsAreWhole(es: seq<Routed>, homes: seq<Home>)
    ensures forall x :: x in FlatMap(ShownAt(es), homes) ==> Whole(x)
  {
    if homes != [] {
      ItemsAreWhole(es, homes[..|homes| - 1]);
      DirectItemsAreWhole(es);
    }
  }

  ghost function TotalIds(items: seq<Item>): multiset<string> {
    if items == [] then multiset{}
    else TotalIds(items[..|items| - 1]) + multiset(ItemIds(items[|items| - 1]))
  }

  lemma {:induction false} TotalAppend(xs: seq<Item>, ys: seq<Item>)
    ensures TotalIds(xs + ys) == TotalIds(xs) + TotalIds(ys)
  {
    if ys == [] {
      assert xs + ys == xs;
    } else {
      var front, last := ys[..|ys| - 1], ys[|ys| - 1];
      assert ys == front + [last];
      calc {
        TotalIds(xs + ys);
        { Assoc(xs, front, [last]); }
        TotalIds(xs + front + [last]);
        { TotalSnoc(xs + front, last); }
        TotalIds(xs + front) + multiset(ItemIds(last));
        { TotalAppend(xs, front); }
        TotalIds(xs) + TotalIds(front) + multiset(ItemIds(last));
        { TotalSnoc(front, last); }
        TotalIds(xs) + TotalIds(ys);
      }
    }
  }

  lemma TotalSnoc(items: seq<Item>, x: Item)
    ensures TotalIds(items + [x]) == TotalIds(items) + multiset(ItemIds(x))
  {
    assert (items + [x])[..|items|] == items;
  }

  lemma TotalOne(x: Item)
    ensures TotalIds([x]) == multiset(ItemIds(x))
  {
    assert [x][..0] == [];
  }

  /** Ordering items changes nothing in the account. */
  lemma {:induction false} SortKeepsTotal(le: (Item, Item) -> bool, items: seq<Item>)
    ensures TotalIds(Sort(le, items)) == TotalIds(items)
  {
    if items != [] {
      SortKeepsTotal(le, items[1..]);
      InsertTotal(le, items[0], Sort(le, items[1..]));
      TotalCons(items);
    }
  }

  lemma {:induction false} InsertTotal(le: (Item, Item) -> bool, x: Item, ys: seq<Item>)
    ensures TotalIds(Insert(le, x, ys)) == multiset(ItemIds(x)) + TotalIds(ys)
  {
    var inserted := Insert(le, x, ys);
    TotalCons(inserted);
    if ys != [] && !le(x, ys[0]) {
      InsertTotal(le, x, ys[1..]);
      TotalCons(ys);
      assert inserted[1..] == Insert(le, x, ys[1..]);
    } else {
      assert inserted[1..] == ys;
    }
  }

  lemma TotalCons(items: seq<Item>)
    requires items != []
    ensures TotalIds(items) == multiset(ItemIds(items[0])) + TotalIds(items[1..])
  {
    TotalAppend([items[0]], items[1..]);
    TotalOne(items[0]);
    assert [items[0]] + items[1..] == items;
  }

  // ----- events shown by themselves

  lemma {:induction false} AloneTotal(es: seq<Routed>, picked: seq<bool>, n: nat)
    requires n <= |es| == |picked| && forall i :: 0 <= i < |es| ==> picked[i] == (HomeOf(es[i].route) == Some(Alone))
    ensures TotalIds(DirectItems(es[..n])) == IdsWhere(es, picked, n)
  {
    if n > 0 {
      AloneTotal(es, picked, n - 1);
      AloneStep(es, picked, n - 1);
    } else {
      assert es[..0] == [];
    }
  }

  lemma AloneStep(es: seq<Routed>, picked: seq<bool>, n: nat)
    requires n < |es| == |picked| && picked[n] == (HomeOf(es[n].route) == Some(Alone))
    requires TotalIds(DirectItems(es[..n])) == IdsWhere(es, picked, n)
    ensures TotalIds(DirectItems(es[..n + 1])) == IdsWhere(es, picked, n + 1)
  {
    DirectStep(es[..n], es[n]);
    OneMore(es, n);
  }

  lemma OneMore<T>(xs: seq<T>, n: nat)
    requires n < |xs|
    ensures xs[..n + 1] == xs[..n] + [xs[n]]
  {
  }

  lemma DirectStep(es: seq<Routed>, r: Routed)
    ensures TotalIds(DirectItems(es + [r]))
         == TotalIds(DirectItems(es)) + One(HomeOf(r.route) == Some(Alone), r.event.eventId)
  {
    assert (es + [r])[..|es|] == es;
    TotalAppend(DirectItems(es), DirectItem(r, |es|));
    DirectItemTotal(r, |es|);
  }

  lemma DirectItemTotal(r: Routed, index: nat)
    ensures TotalIds(DirectItem(r, index))
         == One(HomeOf(r.route) == Some(Alone), r.event.eventId)
  {
    match r.route {
      case User => UserItemTotal(r, index);
      case Direct(_, _, _, _) => TotalOne(DirectItem(r, index)[0]);
      case _ =>
    }
  }

  lemma UserItemTotal(r: Routed, index: nat)
    requires r.route == User
    ensures TotalIds(DirectItem(r, index)) == multiset{r.event.eventId}
  {
    var item := DirectItem(r, index)[0];
    assert item.message.parts[0] in UserParts(r.event);
    TotalOne(item);
  }

  // ----- buckets

  /** Picking the union of four disjoint conditions adds up. */
  lemma {:induction false} FourPicks(es: seq<Routed>, any: seq<bool>, b: seq<bool>, o: seq<bool>, x: seq<bool>, e: seq<bool>, n: nat)
    requires n <= |es| == |any| == |b| == |o| == |x| == |e|
    requires forall i :: 0 <= i < |es| ==>
      && (any[i] <==> b[i] || o[i] || x[i] || e[i])
      && !(b[i] && (o[i] || x[i] || e[i])) && !(o[i] && (x[i] || e[i])) && !(x[i] && e[i])
    ensures IdsWhere(es, any, n) == IdsWhere(es, b, n) + IdsWhere(es, o, n) + IdsWhere(es, x, n) + IdsWhere(es, e, n)
  {
    if n > 0 {
      FourPicks(es, any, b, o, x, e, n - 1);
      var id := es[n - 1].event.eventId;
      OneOfFour(any[n - 1], b[n - 1], o[n - 1], x[n - 1], e[n - 1], id);
      Regroup(IdsWhere(es, b, n - 1), IdsWhere(es, o, n - 1), IdsWhere(es, x, n - 1), IdsWhere(es, e, n - 1),
              One(b[n - 1], id), One(o[n - 1], id), One(x[n - 1], id), One(e[n - 1], id));
    }
  }

  lemma Regroup<T>(a: multiset<T>, b: multiset<T>, c: multiset<T>, d: multiset<T>,
                   a': multiset<T>, b': multiset<T>, c': multiset<T>, d': multiset<T>)
    ensures (a + b + c + d) + (a' + b' + c' + d') == (a + a') + (b + b') + (c + c') + (d + d')
  {
  }

  lemma OneOfFour(any: bool, b: bool, o: bool, i: bool, e: bool, x: string)
    requires any <==> b || o || i || e
    requires !(b && (o || i || e)) && !(o && (i || e)) && !(i && e)
    ensures One(any, x) == One(b, x) + One(o, x) + One(i, x) + One(e, x)
  {
  }

  lemma {:induction false} AccumulatedSlot(es: seq<Routed>, tool: ToolKind, id: string, slot: Slot, picked: seq<bool>, n: nat)
    requires n <= |es| == |picked| && forall i :: 0 <= i < |es| ==> picked[i] == FillsSlot(es[i], tool, id, slot)
    ensures multiset(EventIds(SlotEvents(es[..n], tool, id, slot))) == IdsWhere(es, picked, n)
  {
    if n > 0 {
      AccumulatedSlot(es, tool, id, slot, picked, n - 1);
      assert es[..n] == es[..n - 1] + [es[n - 1]];
      SlotIdsStep(es[..n - 1], es[n - 1], tool, id, slot);
    }
  }

  lemma SlotIdsStep(es: seq<Routed>, r: Routed, tool: ToolKind, id: string, slot: Slot)
    ensures multiset(EventIds(SlotEvents(es + [r], tool, id, slot)))
         == multiset(EventIds(SlotEvents(es, tool, id, slot))) + One(FillsSlot(r, tool, id, slot), r.event.eventId)
  {
    SlotEventsSnoc(es, r, tool, id, slot);
    EventIdsStep(SlotEvents(es, tool, id, slot), r.event, FillsSlot(r, tool, id, slot));
  }

  lemma EventIdsStep(events: seq<EventRecord>, e: EventRecord, more: bool)
    ensures multiset(EventIds(events + if more then [e] else [])) == multiset(EventIds(events)) + One(more, e.eventId)
  {
    EventIdsSnoc(events, e);
    assert events + [] == events;
  }

  lemma EventIdsSnoc(events: seq<EventRecord>, e: EventRecord)
    ensures EventIds(events + [e]) == EventIds(events) + [e.eventId]
  {
  }

  /** At most one event is picked; then its id is all there is. */
  lemma {:induction false} PickOne(es: seq<Routed>, picked: seq<bool>, last: nat, n: nat)
    requires n <= |es| == |picked| && last < |es| && forall i :: 0 <= i < |es| ==> (picked[i] <==> i == last)
    ensures IdsWhere(es, picked, n) == One(n > last, es[last].event.eventId)
  {
    if n > 0 {
      PickOne(es, picked, last, n - 1);
    }
  }

  lemma {:induction false} PickNone(es: seq<Routed>, picked: seq<bool>, n: nat)
    requires n <= |es| == |picked| && forall i :: 0 <= i < |es| ==> !picked[i]
    ensures IdsWhere(es, picked, n) == multiset{}
  {
    if n > 0 {
      PickNone(es, picked, n - 1);
    }
  }

  /** The last event in a slot, by position. */
  lemma {:induction false} LastInSlot(es: seq<Routed>, tool: ToolKind, id: string, slot: Slot) returns (last: Option<nat>)
    ensures last.None? ==> forall i :: 0 <= i < |es| ==> !FillsSlot(es[i], tool, id, slot)
    ensures last.Some? ==> last.value < |es| && FillsSlot(es[last.value], tool, id, slot)
    ensures last.Some? ==> forall i :: last.value < i < |es| ==> !FillsSlot(es[i], tool, id, slot)
    ensures LastOf(SlotEvents(es, tool, id, slot)) == if last.Some? then Some(es[last.value].event) else None
  {
    if es == [] {
      last := None;
    } else {
      var n := |es| - 1;
      last := LastInSlot(es[..n], tool, id, slot);
      assert es == es[..n] + [es[n]];
      SlotEventsLast(es[..n], es[n], tool, id, slot);
      if FillsSlot(es[n], tool, id, slot) {
        last := Some(n);
      }
    }
  }

  lemma OverwritingSlot(es: seq<Routed>, tool: ToolKind, id: string, slot: Slot, picked: seq<bool>)
    requires |picked| == |es|
    requires forall i :: 0 <= i < |es| ==> (picked[i] <==>
      FillsSlot(es[i], tool, id, slot) && forall j :: i < j < |es| ==> !FillsSlot(es[j], tool, id, slot))
    ensures multiset(IdOf(LastOf(SlotEvents(es, tool, id, slot)))) == IdsWhere(es, picked, |es|)
  {
    var last := LastInSlot(es, tool, id, slot);
    if last.Some? {
      PickOne(es, picked, last.value, |es|);
    } else {
      PickNone(es, picked, |es|);
    }
  }

  /** The shown events in one slot of one bucket. */
  ghost function SlotPicks(es: seq<Routed>, tool: ToolKind, id: string, slot: Slot): seq<bool> {
    seq(|es|, i requires 0 <= i < |es| => FillsSlot(es[i], tool, id, slot) && Shown(es, i))
  }

  lemma AccumulatingPicks(es: seq<Routed>, tool: ToolKind, id: string, slot: Slot)
    requires slot == Output || slot == Interaction
    ensures forall i :: 0 <= i < |es| ==> SlotPicks(es, tool, id, slot)[i] == FillsSlot(es[i], tool, id, slot)
  {
  }

  lemma OverwritingPicks(es: seq<Routed>, tool: ToolKind, id: string, slot: Slot)
    requires slot == Begin || slot == End
    ensures forall i :: 0 <= i < |es| ==> (SlotPicks(es, tool, id, slot)[i] <==>
      FillsSlot(es[i], tool, id, slot) && forall j :: i < j < |es| ==> !FillsSlot(es[j], tool, id, slot))
  {
    forall i | 0 <= i < |es| && FillsSlot(es[i], tool, id, slot)
      ensures Overwritten(es, i) <==> exists j :: i < j < |es| && FillsSlot(es[j], tool, id, slot) {
      if j :| i < j < |es| && FillsSlot(es[j], tool, id, slot) {
        assert es[j].route == es[i].route;
      }
      if j :| i < j < |es| && es[j].route == es[i].route {
        assert FillsSlot(es[j], tool, id, slot);
      }
    }
  }

  lemma BucketPicks(es: seq<Routed>, tool: ToolKind, id: string)
    ensures HomeIds(es, InBucket(tool, id))
         == IdsWhere(es, SlotPicks(es, tool, id, Begin), |es|) + IdsWhere(es, SlotPicks(es, tool, id, Output), |es|)
            + IdsWhere(es, SlotPicks(es, tool, id, Interaction), |es|) + IdsWhere(es, SlotPicks(es, tool, id, End), |es|)
  {
    var any := Picks(Labels(es), InBucket(tool, id));
    forall i | 0 <= i < |es|
      ensures any[i] <==> (Shown(es, i) && (FillsSlot(es[i], tool, id, Begin) || FillsSlot(es[i], tool, id, Output)
                                             || FillsSlot(es[i], tool, id, Interaction) || FillsSlot(es[i], tool, id, End))) {
      SomeSlot(es[i], tool, id);
    }
    FourPicks(es, any, SlotPicks(es, tool, id, Begin), SlotPicks(es, tool, id, Output),
              SlotPicks(es, tool, id, Interaction), SlotPicks(es, tool, id, End), |es|);
  }

  lemma SomeSlot(r: Routed, tool: ToolKind, id: string)
    ensures HomeOf(r.route) == Some(InBucket(tool, id)) <==>
      || FillsSlot(r, tool, id, Begin) || FillsSlot(r, tool, id, Output)
      || FillsSlot(r, tool, id, Interaction) || FillsSlot(r, tool, id, End)
  {
    if r.route.ToBucket? {
      assert r.route.slot == Begin || r.route.slot == Output || r.route.slot == Interaction || r.route.slot == End;
    }
  }

  lemma BucketTotal(es: seq<Routed>, tool: ToolKind, id: string)
    ensures TotalIds(BucketItem(tool, BucketOf(es, tool, id))) == HomeIds(es, InBucket(tool, id))
  {
    assert es[..|es|] == es;
    OverwritingPicks(es, tool, id, Begin);
    OverwritingSlot(es, tool, id, Begin, SlotPicks(es, tool, id, Begin));
    AccumulatingPicks(es, tool, id, Output);
    AccumulatedSlot(es, tool, id, Output, SlotPicks(es, tool, id, Output), |es|);
    AccumulatingPicks(es, tool, id, Interaction);
    AccumulatedSlot(es, tool, id, Interaction, SlotPicks(es, tool, id, Interaction), |es|);
    OverwritingPicks(es, tool, id, End);
    OverwritingSlot(es, tool, id, End, SlotPicks(es, tool, id, End));
    BucketPicks(es, tool, id);
    BucketItemTotal(tool, BucketOf(es, tool, id));
  }

  lemma BucketItemTotal(tool: ToolKind, b: Bucket)
    ensures TotalIds(BucketItem(tool, b))
         == multiset(IdOf(b.begin)) + multiset(EventIds(b.outputs)) + multiset(EventIds(b.interactions)) + multiset(IdOf(b.end))
  {
    if Anchor(b).Some? {
      TotalOne(BucketItem(tool, b)[0]);
    }
  }

  // ----- streams

  lemma TextStep(es: seq<Routed>, r: Routed, stream: StreamKind, key: string)
    ensures Join(Chunks(Deltas(es + [r], stream, key)))
         == Join(Chunks(Deltas(es, stream, key))) + if IsDelta(r, stream, key) then r.route.chunk else ""
  {
    var ds := Deltas(es, stream, key);
    DeltasSnoc(es, r, stream, key);
    if IsDelta(r, stream, key) {
      DeltaViewsSnoc(ds, Delta(|es|, r.event, r.route.variant, r.route.chunk));
      JoinSnoc(Chunks(ds), r.route.chunk);
    }
  }

  lemma {:induction false} TextHasChunk(es: seq<Routed>, stream: StreamKind, key: string) returns (i: nat)
    requires Join(Chunks(Deltas(es, stream, key))) != ""
    ensures i < |es| && IsDelta(es[i], stream, key) && es[i].route.chunk != ""
  {
    i := |es| - 1;
    if !(IsDelta(es[i], stream, key) && es[i].route.chunk != "") {
      assert es == es[..i] + [es[i]];
      TextStep(es[..i], es[i], stream, key);
      i := TextHasChunk(es[..i], stream, key);
    }
  }

  lemma {:induction false} ChunkGivesText(es: seq<Routed>, stream: StreamKind, key: string, i: nat)
    requires i < |es| && IsDelta(es[i], stream, key) && es[i].route.chunk != ""
    ensures Join(Chunks(Deltas(es, stream, key))) != ""
  {
    var n := |es| - 1;
    assert es == es[..n] + [es[n]];
    TextStep(es[..n], es[n], stream, key);
    if i < n {
      ChunkGivesText(es[..n], stream, key, i);
    }
  }

  lemma TextIffSomeChunk(es: seq<Routed>, stream: StreamKind, key: string)
    ensures Join(Chunks(Deltas(es, stream, key))) != "" <==>
      exists i :: 0 <= i < |es| && IsDelta(es[i], stream, key) && es[i].route.chunk != ""
  {
    if Join(Chunks(Deltas(es, stream, key))) != "" {
      var i := TextHasChunk(es, stream, key);
    }
    if i :| 0 <= i < |es| && IsDelta(es[i], stream, key) && es[i].route.chunk != "" {
      ChunkGivesText(es, stream, key, i);
    }
  }

  lemma JoinSnoc(chunks: seq<string>, chunk: string)
    ensures Join(chunks + [chunk]) == Join(chunks) + chunk
  {
    assert (chunks + [chunk])[..|chunks|] == chunks;
  }

  lemma {:induction false} DeltasIffSome(es: seq<Routed>, stream: StreamKind, key: string)
    ensures Deltas(es, stream, key) != [] <==> exists i :: 0 <= i < |es| && IsDelta(es[i], stream, key)
  {
    if es != [] {
      var front := es[..|es| - 1];
      DeltasIffSome(front, stream, key);
      if i :| 0 <= i < |front| && IsDelta(front[i], stream, key) {
        assert IsDelta(es[i], stream, key);
      }
    }
  }

  lemma {:induction false} EndedIff(es: seq<Routed>, stream: StreamKind, key: string)
    ensures EndedAfterDelta(es, stream, key) <==>
      exists i, j :: 0 <= i < j < |es| && IsDelta(es[i], stream, key) && Ends(es[j].route, stream, key)
  {
    if es != [] {
      var n := |es| - 1;
      var front := es[..n];
      EndedIff(front, stream, key);
      DeltasIffSome(front, stream, key);
      if i, j :| 0 <= i < j < n && IsDelta(front[i], stream, key) && Ends(front[j].route, stream, key) {
        assert IsDelta(es[i], stream, key) && Ends(es[j].route, stream, key);
      }
      if Ends(es[n].route, stream, key) && Deltas(front, stream, key) != [] {
        var i :| 0 <= i < n && IsDelta(front[i], stream, key);
        assert IsDelta(es[i], stream, key);
      }
      if i, j :| 0 <= i < j < |es| && IsDelta(es[i], stream, key) && Ends(es[j].route, stream, key) {
        assert IsDelta(front[i], stream, key);
        assert j < n ==> Ends(front[j].route, stream, key);
      }
    }
  }

  /** Every delta's text in order; empty ones add nothing. */
  function AllText(ds: seq<Delta>): string {
    if ds == [] then "" else AllText(ds[..|ds| - 1]) + ds[|ds| - 1].text
  }

  lemma {:induction false} JoinIsAllText(ds: seq<Delta>)
    ensures Join(Chunks(ds)) == AllText(ds)
  {
    if ds != [] {
      JoinIsAllText(ds[..|ds| - 1]);
      var last := ds[|ds| - 1].text;
      if last == "" {
        assert Chunks(ds) == Chunks(ds[..|ds| - 1]) + [] == Chunks(ds[..|ds| - 1]);
        assert AllText(ds[..|ds| - 1]) + last == AllText(ds[..|ds| - 1]);
      } else {
        JoinSnoc(Chunks(ds[..|ds| - 1]), last);
      }
    }
  }

  /**
   The rule for streams: key k is shown exactly when some delta carries text and no ending event
   follows a delta; the item then stands for all deltas, with their whole text in order, at the
   first one's place and in its variant.
   */
  lemma StreamRule(es: seq<Routed>, stream: StreamKind, key: string)
    ensures var ds, items := Deltas(es, stream, key), ItemsAt(es, InStream(stream, key));
      if StreamVisible(es, stream, key) then
        && ds != []
        && items == [AssistantItem(ds[0].event.timestamp, ds[0].index,
                       Part(StreamPartKind(ds[0].variant), AllText(ds), DeltaIds(ds)), false)]
      else
        items == []
  {
    var ds := Deltas(es, stream, key);
    TextIffSomeChunk(es, stream, key);
    EndedIff(es, stream, key);
    DeltasIffSome(es, stream, key);
    JoinIsAllText(ds);
    if StreamVisible(es, stream, key) {
      assert ds != [] && !EndedAfterDelta(es, stream, key) && Join(Chunks(ds)) != "";
    } else if ds != [] {
      assert EndedAfterDelta(es, stream, key) || Join(Chunks(ds)) == "";
    }
  }

  lemma {:induction false} StreamIds(es: seq<Routed>, stream: StreamKind, key: string, picked: seq<bool>, n: nat)
    requires n <= |es| == |picked| && forall i :: 0 <= i < |es| ==> picked[i] == IsDelta(es[i], stream, key)
    ensures IdsWhere(es, picked, n) == multiset(DeltaIds(Deltas(es[..n], stream, key)))
  {
    if n > 0 {
      StreamIds(es, stream, key, picked, n - 1);
      DeltaIdsAt(es, stream, key, n - 1);
    }
  }

  lemma DeltaIdsAt(es: seq<Routed>, stream: StreamKind, key: string, i: nat)
    requires i < |es|
    ensures multiset(DeltaIds(Deltas(es[..i + 1], stream, key)))
         == multiset(DeltaIds(Deltas(es[..i], stream, key))) + One(IsDelta(es[i], stream, key), es[i].event.eventId)
  {
    assert es[..i + 1] == es[..i] + [es[i]];
    DeltaIdsStep(es[..i], es[i], stream, key);
  }

  lemma StreamPicks(es: seq<Routed>, stream: StreamKind, key: string)
    ensures forall i :: 0 <= i < |es| ==> (Picks(Labels(es), InStream(stream, key))[i] <==>
      StreamVisible(es, stream, key) && IsDelta(es[i], stream, key))
  {
  }

  lemma DeltaIdsStep(es: seq<Routed>, r: Routed, stream: StreamKind, key: string)
    ensures multiset(DeltaIds(Deltas(es + [r], stream, key)))
         == multiset(DeltaIds(Deltas(es, stream, key))) + One(IsDelta(r, stream, key), r.event.eventId)
  {
    DeltasSnoc(es, r, stream, key);
    var ds := Deltas(es, stream, key);
    if IsDelta(r, stream, key) {
      DeltaViewsSnoc(ds, Delta(|es|, r.event, r.route.variant, r.route.chunk));
    }
  }

  lemma StreamTotal(es: seq<Routed>, stream: StreamKind, key: string)
    ensures TotalIds(ItemsAt(es, InStream(stream, key))) == HomeIds(es, InStream(stream, key))
  {
    StreamRule(es, stream, key);
    StreamPicks(es, stream, key);
    if StreamVisible(es, stream, key) {
      StreamIds(es, stream, key, Picks(Labels(es), InStream(stream, key)), |es|);
      assert es[..|es|] == es;
      TotalOne(ItemsAt(es, InStream(stream, key))[0]);
    } else {
      PickNone(es, Picks(Labels(es), InStream(stream, key)), |es|);
    }
  }

  // ----- all homes together

  lemma HomeTotal(es: seq<Routed>, h: Home)
    ensures TotalIds(ShownAt(es)(h)) == HomeIds(es, h)
  {
    match h {
      case Alone =>
        AlonePicks(es);
        AloneTotal(es, Picks(Labels(es), Alone), |es|);
        assert es[..|es|] == es;
      case InBucket(tool, id) => BucketTotal(es, tool, id);
      case InStream(stream, key) => StreamTotal(es, stream, key);
    }
  }

  lemma AlonePicks(es: seq<Routed>)
    ensures forall i :: 0 <= i < |es| ==> Picks(Labels(es), Alone)[i] == (HomeOf(es[i].route) == Some(Alone))
  {
  }

  ghost function SumHomes(es: seq<Routed>, labels: seq<Option<Home>>, homes: seq<Home>, n: nat): multiset<string>
    requires n <= |es| == |labels|
  {
    if homes == [] then multiset{}
    else SumHomes(es, labels, homes[..|homes| - 1], n) + IdsWhere(es, Picks(labels, homes[|homes| - 1]), n)
  }

  lemma {:induction false} EmittedTotal(es: seq<Routed>, homes: seq<Home>)
    ensures TotalIds(FlatMap(ShownAt(es), homes)) == SumHomes(es, Labels(es), homes, |es|)
  {
    if homes != [] {
      var front, h := homes[..|homes| - 1], homes[|homes| - 1];
      EmittedTotal(es, front);
      TotalAppend(FlatMap(ShownAt(es), front), ShownAt(es)(h));
      HomeTotal(es, h);
    }
  }

  ghost predicate NoRepeats<T>(xs: seq<T>) {
    forall i, j :: 0 <= i < j < |xs| ==> xs[i] != xs[j]
  }

  /** One x for every occurrence of h. */
  ghost function Occurrences(homes: seq<Home>, h: Option<Home>, x: string): multiset<string> {
    if homes == [] then multiset{}
    else Occurrences(homes[..|homes| - 1], h, x) + One(h == Some(homes[|homes| - 1]), x)
  }

  lemma {:induction false} SumStep(es: seq<Routed>, labels: seq<Option<Home>>, homes: seq<Home>, n: nat)
    requires 0 < n <= |es| == |labels|
    ensures SumHomes(es, labels, homes, n)
         == SumHomes(es, labels, homes, n - 1) + Occurrences(homes, labels[n - 1], es[n - 1].event.eventId)
  {
    if homes != [] {
      var m := |homes| - 1;
      var h, x := labels[n - 1], es[n - 1].event.eventId;
      SumStep(es, labels, homes[..m], n);
      PickStep(es, labels, homes[m], n);
      var s, w := SumHomes(es, labels, homes[..m], n - 1), IdsWhere(es, Picks(labels, homes[m]), n - 1);
      var c, o := Occurrences(homes[..m], h, x), One(h == Some(homes[m]), x);
      calc {
        SumHomes(es, labels, homes, n);
        SumHomes(es, labels, homes[..m], n) + IdsWhere(es, Picks(labels, homes[m]), n);
        (s + c) + (w + o);
        { RegroupTwo(s, w, c, o); }
        (s + w) + (c + o);
        SumHomes(es, labels, homes, n - 1) + Occurrences(homes, h, x);
      }
    }
  }

  lemma PickStep(es: seq<Routed>, labels: seq<Option<Home>>, h: Home, n: nat)
    requires 0 < n <= |es| == |labels|
    ensures IdsWhere(es, Picks(labels, h), n)
         == IdsWhere(es, Picks(labels, h), n - 1) + One(labels[n - 1] == Some(h), es[n - 1].event.eventId)
  {
  }

  lemma RegroupTwo<T>(a: multiset<T>, b: multiset<T>, a': multiset<T>, b': multiset<T>)
    ensures (a + a') + (b + b') == (a + b) + (a' + b')
  {
  }

  lemma {:induction false} OccursAtMostOnce(homes: seq<Home>, h: Option<Home>, x: string)
    requires NoRepeats(homes)
    ensures Occurrences(homes, h, x) == One(h.Some? && h.value in homes, x)
  {
    if homes != [] {
      var m := |homes| - 1;
      OccursAtMostOnce(homes[..m], h, x);
      assert homes == homes[..m] + [homes[m]];
      assert homes[m] !in homes[..m];
    }
  }

  lemma {:induction false} HomesPartition(es: seq<Routed>, labels: seq<Option<Home>>, homes: seq<Home>, shown: seq<bool>, n: nat)
    requires n <= |es| == |labels| == |shown| && NoRepeats(homes)
    requires forall i :: 0 <= i < |es| ==> (shown[i] <==> labels[i].Some? && labels[i].value in homes)
    ensures SumHomes(es, labels, homes, n) == IdsWhere(es, shown, n)
  {
    if n > 0 {
      HomesPartition(es, labels, homes, shown, n - 1);
      SumStep(es, labels, homes, n);
      OccursAtMostOnce(homes, labels[n - 1], es[n - 1].event.eventId);
    } else {
      EmptySum(es, labels, homes);
    }
  }

  lemma {:induction false} EmptySum(es: seq<Routed>, labels: seq<Option<Home>>, homes: seq<Home>)
    requires |labels| == |es|
    ensures SumHomes(es, labels, homes, 0) == multiset{}
  {
    if homes != [] {
      EmptySum(es, labels, homes[..|homes| - 1]);
    }
  }

  lemma {:induction false} BucketIdsUsed(es: seq<Routed>, tool: ToolKind)
    ensures NoRepeats(BucketIds(es, tool))
    ensures forall i :: 0 <= i < |es| && es[i].route.ToBucket? && es[i].route.tool == tool ==> es[i].route.id in BucketIds(es, tool)
  {
    if es != [] {
      BucketIdsUsed(es[..|es| - 1], tool);
    }
  }

  lemma {:induction false} StreamKeysUsed(es: seq<Routed>, stream: StreamKind)
    ensures NoRepeats(StreamKeys(es, stream))
    ensures forall i :: 0 <= i < |es| && es[i].route.Chunk? && es[i].route.stream == stream ==> es[i].route.key in StreamKeys(es, stream)
  {
    if es != [] {
      StreamKeysUsed(es[..|es| - 1], stream);
    }
  }

  lemma {:induction false} ToolHomesListed(es: seq<Routed>, tools: seq<ToolKind>)
    requires NoRepeats(tools)
    ensures NoRepeats(ToolHomes(es, tools))
    ensures forall h :: h in ToolHomes(es, tools) ==> h.InBucket? && h.tool in tools
    ensures forall t, id :: t in tools && id in BucketIds(es, t) ==> InBucket(t, id) in ToolHomes(es, tools)
  {
    if tools != [] {
      var n := |tools| - 1;
      var front, t := tools[..n], tools[n];
      ToolHomesListed(es, front);
      BucketIdsUsed(es, t);
      var last := BucketHomes(t, BucketIds(es, t));
      forall id | id in BucketIds(es, t) ensures InBucket(t, id) in last {
        var k :| 0 <= k < |last| && BucketIds(es, t)[k] == id;
        assert last[k] == InBucket(t, id);
      }
      NoRepeatsAppend(ToolHomes(es, front), last);
    }
  }

  lemma NoRepeatsAppend<T>(xs: seq<T>, ys: seq<T>)
    requires NoRepeats(xs) && NoRepeats(ys) && forall x :: x in xs ==> x !in ys
    ensures NoRepeats(xs + ys)
  {
    forall i, j | 0 <= i < j < |xs + ys| ensures (xs + ys)[i] != (xs + ys)[j] {
      if i < |xs| <= j {
        assert xs[i] in xs && ys[j - |xs|] in ys;
      }
    }
  }

  lemma StreamHomesListed(es: seq<Routed>, stream: StreamKind)
    ensures var homes := StreamHomes(stream, StreamKeys(es, stream));
      && NoRepeats(homes)
      && (forall h :: h in homes ==> h.InStream? && h.stream == stream)
      && forall key :: key in StreamKeys(es, stream) ==> InStream(stream, key) in homes
  {
    StreamKeysUsed(es, stream);
    var homes := StreamHomes(stream, StreamKeys(es, stream));
    forall key | key in StreamKeys(es, stream) ensures InStream(stream, key) in homes {
      var k :| 0 <= k < |homes| && StreamKeys(es, stream)[k] == key;
      assert homes[k] == InStream(stream, key);
    }
  }

  lemma HomesAreComplete(es: seq<Routed>)
    ensures NoRepeats(Homes(es))
    ensures forall i :: 0 <= i < |es| && HomeOf(es[i].route).Some? ==> HomeOf(es[i].route).value in Homes(es)
  {
    var tools := ToolHomes(es, TOOLS);
    var messages, reasonings := StreamHomes(Messages, StreamKeys(es, Messages)), StreamHomes(Reasonings, StreamKeys(es, Reasonings));
    ToolHomesListed(es, TOOLS);
    StreamHomesListed(es, Messages);
    StreamHomesListed(es, Reasonings);
    NoRepeatsAppend([Alone], tools);
    NoRepeatsAppend([Alone] + tools, messages);
    NoRepeatsAppend([Alone] + tools + messages, reasonings);
    forall i | 0 <= i < |es| && HomeOf(es[i].route).Some? ensures HomeOf(es[i].route).value in Homes(es) {
      HomeIsListed(es, i);
    }
  }

  lemma HomeIsListed(es: seq<Routed>, i: nat)
    requires i < |es| && HomeOf(es[i].route).Some?
    ensures HomeOf(es[i].route).value in Homes(es)
  {
    assert Homes(es)[0] == Alone;
    match es[i].route {
      case ToBucket(tool, id, _) =>
        EveryToolIsListed(tool);
        BucketIdsUsed(es, tool);
        ToolHomesListed(es, TOOLS);
        assert InBucket(tool, id) in ToolHomes(es, TOOLS);
      case Chunk(stream, key, _, _) =>
        StreamKeysUsed(es, stream);
        StreamHomesListed(es, stream);
        assert InStream(stream, key) in StreamHomes(stream, StreamKeys(es, stream));
        assert stream == Messages || stream == Reasonings;
      case _ =>
    }
  }

  /**
   Conservation, for every event list: the ids of all items, counted with multiplicity, are the
   ids of the events that are shown. An event is not shown only if it is ignored, an overwritten
   begin or end, or a delta of a stream that ended or has no text. A user message counts once,
   and all of its parts list its event.
   */
  lemma ProjectionConserves(es: seq<Routed>)
    ensures TotalIds(ProjectItems(es)) == ShownIds(es)
    ensures forall x :: x in ProjectItems(es) ==> Whole(x)
  {
    ItemsAreWhole(es, Homes(es));
    EmittedTotal(es, Homes(es));
    HomesAreComplete(es);
    LabelsAreHomes(es);
    HomesPartition(es, Labels(es), Homes(es), ShownFlags(es), |es|);
  }

  lemma LabelsAreHomes(es: seq<Routed>)
    requires forall i :: 0 <= i < |es| && HomeOf(es[i].route).Some? ==> HomeOf(es[i].route).value in Homes(es)
    ensures forall i :: 0 <= i < |es| ==>
      (ShownFlags(es)[i] <==> Labels(es)[i].Some? && Labels(es)[i].value in Homes(es))
  {
    forall i | 0 <= i < |es| ensures Shown(es, i) ==> HomeOf(es[i].route).Some? {
    }
  }
}
