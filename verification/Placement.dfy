/** The order of the items, and what it and the account of ids mean for a thread's events. */
module Placement {
  import opened Sequences
  import opened StableSort
  import opened Events
  import opened Routing
  import opened Projection
  import opened Conservation
  import opened BucketRule

  function CompareItems(loc: Collator, left: Item, right: Item): int {
    var timestampOrder := loc(left.timestamp, right.timestamp);
    if timestampOrder != 0 then timestampOrder else left.order - right.order
  }

  function ItemLe(loc: Collator): (Item, Item) -> bool {
    (a, b) => CompareItems(loc, a, b) <= 0
  }

  function SortedItems(loc: Collator, events: seq<EventRecord>): seq<Item> {
    Sort(ItemLe(loc), ProjectItems(RouteAll(events)))
  }

  lemma ItemLeIsPreorder(loc: Collator)
    ensures TotalPreorder(ItemLe(loc))
  {
    var le := ItemLe(loc);
    forall a, b ensures le(a, b) || le(b, a) {
    }
    forall a, b, c | le(a, b) && le(b, c) ensures le(a, c) {
      assert loc(a.timestamp, b.timestamp) <= 0 && loc(b.timestamp, c.timestamp) <= 0;
      if loc(a.timestamp, c.timestamp) == 0 {
        assert loc(b.timestamp, a.timestamp) <= 0 && loc(c.timestamp, b.timestamp) <= 0;
      }
    }
  }

  // ----- every event at most once

  lemma {:induction false} PickedCount(es: seq<Routed>, picked: seq<bool>, n: nat, i: nat)
    requires n <= |es| == |picked| && i < |es|
    requires forall j, k :: 0 <= j < k < |es| ==> es[j].event.eventId != es[k].event.eventId
    ensures IdsWhere(es, picked, n)[es[i].event.eventId] == if i < n && picked[i] then 1 else 0
  {
    if n > 0 {
      PickedCount(es, picked, n - 1, i);
    }
  }

  lemma {:induction false} PickedIdsAreInput(es: seq<Routed>, picked: seq<bool>, n: nat, id: string) returns (i: nat)
    requires n <= |es| == |picked| && id in IdsWhere(es, picked, n)
    ensures i < n && picked[i] && es[i].event.eventId == id
  {
    NonePicked(es, picked, id);
    if picked[n - 1] && es[n - 1].event.eventId == id {
      i := n - 1;
    } else {
      NotTheLast(es, picked, n, id);
      i := PickedIdsAreInput(es, picked, n - 1, id);
    }
  }

  lemma NonePicked(es: seq<Routed>, picked: seq<bool>, id: string)
    requires |es| == |picked|
    ensures id !in IdsWhere(es, picked, 0)
  {
  }

  lemma NotTheLast(es: seq<Routed>, picked: seq<bool>, n: nat, id: string)
    requires 0 < n <= |es| == |picked| && id in IdsWhere(es, picked, n)
    requires !(picked[n - 1] && es[n - 1].event.eventId == id)
    ensures id in IdsWhere(es, picked, n - 1)
  {
    assert id !in One(picked[n - 1], es[n - 1].event.eventId);
  }

  lemma TotalThree(before: seq<Item>, x: Item, after: seq<Item>)
    ensures TotalIds(before + [x] + after) == TotalIds(before) + multiset(ItemIds(x)) + TotalIds(after)
  {
    TotalAppend(before + [x], after);
    TotalAppend(before, [x]);
    TotalOne(x);
  }

  lemma SplitAt<T>(xs: seq<T>, p: nat)
    requires p < |xs|
    ensures xs[..p] + [xs[p]] + xs[p + 1..] == xs
  {
  }

  lemma TotalSplit(items: seq<Item>, p: nat)
    requires p < |items|
    ensures TotalIds(items) == TotalIds(items[..p]) + multiset(ItemIds(items[p])) + TotalIds(items[p + 1..])
  {
    var joined := items[..p] + [items[p]] + items[p + 1..];
    SplitAt(items, p);
    assert TotalIds(items) == TotalIds(joined);
    TotalThree(items[..p], items[p], items[p + 1..]);
  }

  lemma {:induction false} TotalHolder(items: seq<Item>, id: string) returns (p: nat)
    requires id in TotalIds(items)
    ensures p < |items| && id in ItemIds(items[p])
  {
    var n := |items| - 1;
    if id in ItemIds(items[n]) {
      p := n;
    } else {
      assert id !in multiset(ItemIds(items[n]));
      p := TotalHolder(items[..n], id);
    }
  }

  /** An id counted once in total sits in one item, once. */
  lemma CountedOnce(items: seq<Item>, id: string, p: nat)
    requires p < |items| && id in ItemIds(items[p]) && TotalIds(items)[id] == 1
    ensures multiset(ItemIds(items[p]))[id] == 1
    ensures forall q :: 0 <= q < |items| && q != p ==> id !in ItemIds(items[q])
  {
    TotalSplit(items, p);
    assert id in multiset(ItemIds(items[p]));
    forall q | 0 <= q < |items| && q != p ensures id !in ItemIds(items[q]) {
      if q < p {
        HolderCounts(items[..p], q, id);
      } else {
        HolderCounts(items[p + 1..], q - p - 1, id);
      }
    }
  }

  lemma HolderCounts(items: seq<Item>, q: nat, id: string)
    requires q < |items|
    ensures id in ItemIds(items[q]) ==> TotalIds(items)[id] >= 1
  {
    TotalSplit(items, q);
    assert id in ItemIds(items[q]) ==> id in multiset(ItemIds(items[q]));
  }

  ghost predicate EventShown(events: seq<EventRecord>, i: nat)
    requires i < |events|
  {
    Shown(RouteAll(events), i)
  }

  /** The event's id is listed by exactly one item, once. */
  ghost predicate InExactlyOne(items: seq<Item>, id: string) {
    exists p ::
      && 0 <= p < |items| && multiset(ItemIds(items[p]))[id] == 1
      && forall q :: 0 <= q < |items| && q != p ==> id !in ItemIds(items[q])
  }

  /**
   With distinct ids, every shown event is in exactly one item of the sorted list, once; every
   other event is in none; and no item lists an id that was not given. All parts of a user message
   list its one event.
   */
  lemma EveryEventAtMostOnce(loc: Collator, events: seq<EventRecord>)
    requires DistinctIds(events)
    ensures var items := SortedItems(loc, events);
      && (forall i :: 0 <= i < |events| && EventShown(events, i) ==> InExactlyOne(items, events[i].eventId))
      && (forall i, q :: 0 <= i < |events| && !EventShown(events, i) && 0 <= q < |items| ==> events[i].eventId !in ItemIds(items[q]))
      && (forall q, id :: 0 <= q < |items| && id in ItemIds(items[q]) ==>
            exists i :: 0 <= i < |events| && EventShown(events, i) && events[i].eventId == id)
      && (forall q :: 0 <= q < |items| ==> Whole(items[q]))
  {
    SortedItemsAreWhole(loc, events);
    var es, items := RouteAll(events), SortedItems(loc, events);
    ItemsAccount(loc, events);
    forall i | 0 <= i < |events| && EventShown(events, i) ensures InExactlyOne(items, events[i].eventId) {
      var p := TotalHolder(items, events[i].eventId);
      CountedOnce(items, events[i].eventId, p);
    }
    forall i, q | 0 <= i < |events| && !EventShown(events, i) && 0 <= q < |items|
      ensures events[i].eventId !in ItemIds(items[q]) {
      TotalSplit(items, q);
      assert events[i].eventId !in multiset(ItemIds(items[q]));
    }
    forall q, id | 0 <= q < |items| && id in ItemIds(items[q])
      ensures exists i :: 0 <= i < |events| && EventShown(events, i) && events[i].eventId == id {
      TotalSplit(items, q);
      assert id in multiset(ItemIds(items[q]));
      var i := PickedIdsAreInput(es, ShownFlags(es), |es|, id);
      assert EventShown(events, i);
    }
  }

  lemma SortedItemsAreWhole(loc: Collator, events: seq<EventRecord>)
    ensures var items := SortedItems(loc, events); forall q :: 0 <= q < |items| ==> Whole(items[q])
  {
    SortPermutes(ItemLe(loc), ProjectItems(RouteAll(events)));
    ProjectionConserves(RouteAll(events));
    forall q | 0 <= q < |SortedItems(loc, events)| ensures Whole(SortedItems(loc, events)[q]) {
      assert SortedItems(loc, events)[q] in SortedItems(loc, events);
    }
  }

  /** With distinct ids the account counts every event once or not at all. */
  lemma ItemsAccount(loc: Collator, events: seq<EventRecord>)
    requires DistinctIds(events)
    ensures TotalIds(SortedItems(loc, events)) == ShownIds(RouteAll(events))
    ensures forall i :: 0 <= i < |events| ==>
      TotalIds(SortedItems(loc, events))[events[i].eventId] == if EventShown(events, i) then 1 else 0
  {
    var es := RouteAll(events);
    SortKeepsTotal(ItemLe(loc), ProjectItems(es));
    ProjectionConserves(es);
    RoutedIdsDistinct(events);
    forall i | 0 <= i < |events| ensures ShownIds(es)[events[i].eventId] == if EventShown(events, i) then 1 else 0 {
      PickedCount(es, ShownFlags(es), |es|, i);
    }
  }

  lemma RoutedIdsDistinct(events: seq<EventRecord>)
    requires DistinctIds(events)
    ensures forall j, k :: 0 <= j < k < |events| ==> RouteAll(events)[j].event.eventId != RouteAll(events)[k].event.eventId
  {
  }

  // ----- where items stand

  predicate IsBucketItem(item: Item) {
    item.AssistantItem? && item.part.kind.ToolPart?
  }

  function NotBucket(): Item -> bool {
    item => !IsBucketItem(item)
  }

  /** Direct routes never claim to be a tool bucket. */
  ghost predicate WellRouted(es: seq<Routed>) {
    forall i :: 0 <= i < |es| && es[i].route.Direct? ==> !es[i].route.kind.ToolPart?
  }

  lemma RoutesAreWell(events: seq<EventRecord>)
    ensures WellRouted(RouteAll(events))
  {
    forall i | 0 <= i < |events| && RouteOf(events[i]).Direct? ensures !RouteOf(events[i]).kind.ToolPart? {
      DirectIsNoBucket(events[i]);
    }
  }

  /** The item's order is the position of its event, its first one for a stream; so are its timestamp and first id. */
  ghost predicate CarriesItsEvent(es: seq<Routed>, item: Item) {
    && item.order < |es|
    && item.timestamp == es[item.order].event.timestamp
    && ItemIds(item) != [] && ItemIds(item)[0] == es[item.order].event.eventId
  }

  ghost predicate StandsAt(es: seq<Routed>, item: Item, h: Home) {
    CarriesItsEvent(es, item) && HomeOf(es[item.order].route) == Some(h)
  }

  lemma {:induction false} DirectItemsStand(es: seq<Routed>, n: nat)
    requires n <= |es| && WellRouted(es)
    ensures forall x :: x in DirectItems(es[..n]) ==> !IsBucketItem(x) && StandsAt(es, x, Alone) && x.order < n
    ensures DistinctBy((x: Item) => x.order, DirectItems(es[..n]))
  {
    if n > 0 {
      DirectItemsStand(es, n - 1);
      assert es[..n][..n - 1] == es[..n - 1];
      var front := DirectItems(es[..n - 1]);
      DirectItemStands(es, n - 1);
      assert forall k :: 0 <= k < |front| ==> front[k] in front;
    }
  }

  lemma DirectItemStands(es: seq<Routed>, i: nat)
    requires i < |es| && WellRouted(es)
    ensures |DirectItem(es[i], i)| <= 1
    ensures forall x :: x in DirectItem(es[i], i) ==> !IsBucketItem(x) && StandsAt(es, x, Alone) && x.order == i
  {
  }

  lemma {:induction false} DeltasStand(es: seq<Routed>, stream: StreamKind, key: string, n: nat)
    requires n <= |es|
    ensures forall d :: d in Deltas(es[..n], stream, key) ==>
      d.index < n && es[d.index].event == d.event && IsDelta(es[d.index], stream, key)
  {
    if n > 0 {
      DeltasStand(es, stream, key, n - 1);
      assert es[..n][..n - 1] == es[..n - 1];
    }
  }

  /** What holds of the items one home contributes. */
  ghost predicate HomeStands(es: seq<Routed>, h: Home, items: seq<Item>) {
    && (forall x :: x in items && !IsBucketItem(x) ==> StandsAt(es, x, h))
    && (forall x :: x in items && IsBucketItem(x) ==> h.InBucket? && x.order == MAX_SAFE_INTEGER)
    && DistinctBy((x: Item) => x.order, Filter(NotBucket(), items))
  }

  lemma AloneStands(es: seq<Routed>)
    requires WellRouted(es)
    ensures HomeStands(es, Alone, DirectItems(es))
  {
    assert es[..|es|] == es;
    DirectItemsStand(es, |es|);
    FilterKeepsDistinct((x: Item) => x.order, NotBucket(), DirectItems(es));
  }

  lemma BucketStands(es: seq<Routed>, tool: ToolKind, id: string, b: Bucket)
    ensures HomeStands(es, InBucket(tool, id), BucketItem(tool, b))
  {
    FilterKeepsNone(NotBucket(), BucketItem(tool, b));
  }

  lemma StreamStands(es: seq<Routed>, stream: StreamKind, key: string)
    ensures HomeStands(es, InStream(stream, key), ItemsAt(es, InStream(stream, key)))
  {
    StreamRule(es, stream, key);
    if StreamVisible(es, stream, key) {
      FirstDeltaStands(es, stream, key);
      SingleStands(es, InStream(stream, key), ItemsAt(es, InStream(stream, key))[0]);
    } else {
      assert Filter(NotBucket(), []) == [];
    }
  }

  lemma FirstDeltaStands(es: seq<Routed>, stream: StreamKind, key: string)
    requires Deltas(es, stream, key) != []
    ensures var d := Deltas(es, stream, key)[0];
      d.index < |es| && es[d.index].event == d.event && IsDelta(es[d.index], stream, key)
  {
    assert es[..|es|] == es;
    DeltasStand(es, stream, key, |es|);
    assert Deltas(es, stream, key)[0] in Deltas(es, stream, key);
  }

  lemma SingleStands(es: seq<Routed>, h: Home, x: Item)
    requires !IsBucketItem(x) && StandsAt(es, x, h)
    ensures HomeStands(es, h, [x])
  {
    FilterOne(NotBucket(), x);
  }

  lemma ItemsAtStand(es: seq<Routed>, h: Home)
    requires WellRouted(es)
    ensures HomeStands(es, h, ShownAt(es)(h))
  {
    match h {
      case Alone => AloneStands(es);
      case InBucket(tool, id) => BucketStands(es, tool, id, BucketOf(es, tool, id));
      case InStream(stream, key) => StreamStands(es, stream, key);
    }
  }

  /** Different homes give different positions. */
  lemma {:induction false} PositionsAreDistinct(es: seq<Routed>, homes: seq<Home>)
    requires WellRouted(es) && NoRepeats(homes)
    ensures forall x :: x in FlatMap(ShownAt(es), homes) && !IsBucketItem(x) ==>
      exists h :: h in homes && StandsAt(es, x, h)
    ensures DistinctBy((x: Item) => x.order, Filter(NotBucket(), FlatMap(ShownAt(es), homes)))
  {
    if homes != [] {
      var n := |homes| - 1;
      var front, h := homes[..n], homes[n];
      var before, added := FlatMap(ShownAt(es), front), ShownAt(es)(h);
      PositionsAreDistinct(es, front);
      ItemsAtStand(es, h);
      assert forall x :: x in homes <==> x in front || x == h;
      FilterAppend(NotBucket(), before, added);
      OtherHomeOtherOrder(es, before, added, front, h);
    }
  }

  /** Items that stand at different homes stand at different positions. */
  lemma OtherHomeOtherOrder(es: seq<Routed>, before: seq<Item>, added: seq<Item>, front: seq<Home>, h: Home)
    requires h !in front && HomeStands(es, h, added)
    requires forall x :: x in before && !IsBucketItem(x) ==> exists g :: g in front && StandsAt(es, x, g)
    requires DistinctBy((x: Item) => x.order, Filter(NotBucket(), before))
    ensures DistinctBy((x: Item) => x.order, Filter(NotBucket(), before) + Filter(NotBucket(), added))
  {
    var f, g := Filter(NotBucket(), before), Filter(NotBucket(), added);
    forall i, j | 0 <= i < |f| && 0 <= j < |g| ensures f[i].order != g[j].order {
      FilterMember(NotBucket(), before, f[i]);
      FilterMember(NotBucket(), added, g[j]);
    }
  }

  lemma {:induction false} BucketItemsComeFromBuckets(es: seq<Routed>, homes: seq<Home>)
    requires WellRouted(es)
    ensures forall x :: x in FlatMap(ShownAt(es), homes) && IsBucketItem(x) ==>
      x.order == MAX_SAFE_INTEGER && exists tool, id :: x in BucketItem(tool, BucketOf(es, tool, id))
  {
    if homes != [] {
      BucketItemsComeFromBuckets(es, homes[..|homes| - 1]);
      var h := homes[|homes| - 1];
      ItemsAtStand(es, h);
      forall x | x in ShownAt(es)(h) && IsBucketItem(x)
        ensures exists tool, id :: x in BucketItem(tool, BucketOf(es, tool, id)) {
        assert x in BucketItem(h.tool, BucketOf(es, h.tool, h.id));
      }
    }
  }

  ghost predicate SortedByTimestamp(loc: Collator, events: seq<EventRecord>) {
    forall i, j :: 0 <= i < j < |events| ==> loc(events[i].timestamp, events[j].timestamp) <= 0
  }

  /** Items that are no bucket stand in the order of their positions in the input. */
  ghost predicate OthersInInputOrder(items: seq<Item>, n: nat) {
    var others := Filter(NotBucket(), items);
    forall i, j :: 0 <= i < j < |others| ==> others[i].order < others[j].order < n
  }

  /** No item that is no bucket comes after a bucket unless its timestamp is later. */
  ghost predicate BucketsAfterTies(loc: Collator, items: seq<Item>) {
    forall p, q :: 0 <= p < q < |items| && IsBucketItem(items[p]) && !IsBucketItem(items[q]) ==>
      loc(items[p].timestamp, items[q].timestamp) < 0
  }

  /** By time; at one time, the items at a position in the input before the buckets, in the order of these positions. */
  ghost predicate ItemsInTimeOrder(loc: Collator, items: seq<Item>) {
    forall p, q :: 0 <= p < q < |items| ==>
      || loc(items[p].timestamp, items[q].timestamp) < 0
      || (loc(items[p].timestamp, items[q].timestamp) == 0 && items[p].order <= items[q].order)
  }

  /** Whatever the input, the items are in time order. */
  lemma SortedItemsInTimeOrder(loc: Collator, events: seq<EventRecord>)
    ensures ItemsInTimeOrder(loc, SortedItems(loc, events))
  {
    var items := SortedItems(loc, events);
    ItemLeIsPreorder(loc);
    SortIsStable(ItemLe(loc), ProjectItems(RouteAll(events)));
    forall p, q | 0 <= p < q < |items| ensures CompareItems(loc, items[p], items[q]) <= 0 {
      assert ItemLe(loc)(items[p], items[q]);
    }
  }

  /** Bucket items whose anchors' times compare equal keep the order of emission. */
  ghost predicate BucketTiesAsEmitted(loc: Collator, emitted: seq<Item>, items: seq<Item>) {
    forall x :: x in items && IsBucketItem(x) ==>
      Filter(TiedWith(ItemLe(loc), x), items) == Filter(TiedWith(ItemLe(loc), x), emitted)
  }

  ghost predicate OthersCarryTheirEvents(es: seq<Routed>, items: seq<Item>) {
    forall x :: x in items && !IsBucketItem(x) ==> CarriesItsEvent(es, x)
  }

  /** A bucket item has its anchor's timestamp and lists its events slot by slot. */
  ghost predicate StandsAtAnchor(es: seq<Routed>, item: Item, tool: ToolKind, id: string) {
    && item.AssistantItem? && item.part.kind == ToolPart(tool)
    && (exists a: nat :: IsAnchor(es, tool, id, a) && item.timestamp == es[a].event.timestamp)
    && (exists at: seq<nat> :: Ordered(es, at) && ListsShown(es, tool, id, at) && ListsAt(es, at, item))
  }

  ghost predicate BucketsStandAtAnchors(es: seq<Routed>, items: seq<Item>) {
    forall x :: x in items && IsBucketItem(x) ==> exists tool, id :: StandsAtAnchor(es, x, tool, id)
  }

  /**
   For input sorted by timestamp: items that are no bucket, streams included, keep the input
   order of their (first) events; a bucket stands at the timestamp of its anchor, after every
   other item with that timestamp, and buckets that tie in the order of emission.
   */
  lemma ItemsAreWellPlaced(loc: Collator, events: seq<EventRecord>)
    requires SortedByTimestamp(loc, events) && |events| <= 9007199254740991
    ensures ItemsInTimeOrder(loc, SortedItems(loc, events))
    ensures OthersInInputOrder(SortedItems(loc, events), |events|)
    ensures OthersCarryTheirEvents(RouteAll(events), SortedItems(loc, events))
    ensures BucketsAfterTies(loc, SortedItems(loc, events))
    ensures BucketTiesAsEmitted(loc, ProjectItems(RouteAll(events)), SortedItems(loc, events))
    ensures BucketsStandAtAnchors(RouteAll(events), SortedItems(loc, events))
  {
    SortedItemsInTimeOrder(loc, events);
    ItemLeIsPreorder(loc);
    SortIsStable(ItemLe(loc), ProjectItems(RouteAll(events)));
    OthersKeepOrder(loc, events);
    BucketsStandLast(loc, events);
    ItemsStandAtEvents(loc, events);
  }

  lemma ItemsStandAtEvents(loc: Collator, events: seq<EventRecord>)
    ensures OthersCarryTheirEvents(RouteAll(events), SortedItems(loc, events))
    ensures BucketsStandAtAnchors(RouteAll(events), SortedItems(loc, events))
  {
    var es, items := RouteAll(events), SortedItems(loc, events);
    RoutesAreWell(events);
    HomesAreComplete(es);
    PositionsAreDistinct(es, Homes(es));
    BucketItemsComeFromBuckets(es, Homes(es));
    SortedItemsAreProjected(loc, events);
    forall x | x in items && IsBucketItem(x) ensures exists tool, id :: StandsAtAnchor(es, x, tool, id) {
      var tool, id :| x in BucketItem(tool, BucketOf(es, tool, id));
      BucketItemStands(es, x, tool, id);
    }
  }

  lemma BucketItemStands(es: seq<Routed>, item: Item, tool: ToolKind, id: string)
    requires item in ItemsAt(es, InBucket(tool, id))
    ensures StandsAtAnchor(es, item, tool, id)
  {
    BucketStandsAtAnchor(es, tool, id);
    BucketListsItsEvents(es, tool, id, item);
  }

  lemma SortedItemsAreProjected(loc: Collator, events: seq<EventRecord>)
    ensures Sorted(ItemLe(loc), SortedItems(loc, events))
    ensures forall x :: x in SortedItems(loc, events) <==> x in ProjectItems(RouteAll(events))
  {
    ItemLeIsPreorder(loc);
    SortPermutes(ItemLe(loc), ProjectItems(RouteAll(events)));
    SortIsStable(ItemLe(loc), ProjectItems(RouteAll(events)));
  }

  lemma BucketsStandLast(loc: Collator, events: seq<EventRecord>)
    requires |events| <= MAX_SAFE_INTEGER
    ensures BucketsAfterTies(loc, SortedItems(loc, events))
  {
    var es, items := RouteAll(events), SortedItems(loc, events);
    RoutesAreWell(events);
    HomesAreComplete(es);
    PositionsAreDistinct(es, Homes(es));
    BucketItemsComeFromBuckets(es, Homes(es));
    SortedItemsAreProjected(loc, events);
    forall p, q | 0 <= p < q < |items| && IsBucketItem(items[p]) && !IsBucketItem(items[q])
      ensures loc(items[p].timestamp, items[q].timestamp) < 0 {
      assert items[p] in items && items[q] in items;
      BucketAfterTie(loc, items[p], items[q]);
    }
  }

  lemma BucketAfterTie(loc: Collator, bucket: Item, other: Item)
    requires ItemLe(loc)(bucket, other) && other.order < bucket.order
    ensures loc(bucket.timestamp, other.timestamp) < 0
  {
  }

  lemma OthersKeepOrder(loc: Collator, events: seq<EventRecord>)
    requires SortedByTimestamp(loc, events)
    ensures OthersInInputOrder(SortedItems(loc, events), |events|)
  {
    var le, es := ItemLe(loc), RouteAll(events);
    var projected := ProjectItems(es);
    var kept, others := Filter(NotBucket(), projected), Filter(NotBucket(), SortedItems(loc, events));
    RoutesAreWell(events);
    HomesAreComplete(es);
    PositionsAreDistinct(es, Homes(es));
    ItemLeIsPreorder(loc);
    SortFilterCommute(le, NotBucket(), projected);
    SortIsStable(le, kept);
    SortPermutes(le, kept);
    PermutationKeepsDistinct((x: Item) => x.order, kept, others);
    forall i, j | 0 <= i < j < |others| ensures others[i].order < others[j].order < |events| {
      FilterMember(NotBucket(), projected, others[i]);
      FilterMember(NotBucket(), projected, others[j]);
      assert others[i] in kept && others[j] in kept;
      assert le(others[i], others[j]);
      InputOrder(loc, events, others[i], others[j]);
    }
  }

  lemma InputOrder(loc: Collator, events: seq<EventRecord>, a: Item, b: Item)
    requires SortedByTimestamp(loc, events) && ItemLe(loc)(a, b) && a.order != b.order
    requires a.order < |events| && a.timestamp == events[a.order].timestamp
    requires b.order < |events| && b.timestamp == events[b.order].timestamp
    ensures a.order < b.order
  {
  }
}
