/** From a thread's merged events to its messages, and the ids the messages carry. */
module ThreadProjection {
  import opened Sequences
  import opened StableSort
  import opened Events
  import opened SessionMerge
  import opened Routing
  import opened Projection
  import opened ProjectionPass
  import opened Conservation
  import opened Placement
  import opened MessageFold

  function ProjectMessages(loc: Collator, events: seq<EventRecord>): seq<Message> {
    Fold(SortedItems(loc, events))
  }

  /** The pass, the sort and the fold. */
  method ProjectReadonlyAssistantThread(loc: Collator, events: seq<EventRecord>) returns (messages: seq<Message>)
    ensures messages == ProjectMessages(loc, events)
  {
    var items := ProjectItemsInOnePass(events);
    items := Sort(ItemLe(loc), items);
    messages := FoldItemsIntoMessages(items);
  }

  /** Every item stands for at least one event, and a user item's message is named after it. */
  ghost predicate ProperItem(item: Item) {
    && ItemIds(item) != []
    && (item.UserItem? ==> item.message.role == UserRole && item.message.id == "user-" + ItemIds(item)[0])
  }

  lemma {:induction false} DirectItemsAreProper(es: seq<Routed>)
    ensures forall x :: x in DirectItems(es) ==> ProperItem(x)
  {
    if es != [] {
      DirectItemsAreProper(es[..|es| - 1]);
      var item := DirectItem(es[|es| - 1], |es| - 1);
      if item != [] && item[0].UserItem? {
        assert item[0].message.parts[0] in item[0].message.parts;
      }
    }
  }

  lemma ItemsAtAreProper(es: seq<Routed>, h: Home)
    ensures forall x :: x in ShownAt(es)(h) ==> ProperItem(x)
  {
    match h {
      case Alone => DirectItemsAreProper(es);
      case InBucket(tool, id) => BucketItemIsProper(tool, BucketOf(es, tool, id));
      case InStream(stream, key) => StreamRule(es, stream, key);
    }
  }

  lemma BucketItemIsProper(tool: ToolKind, b: Bucket)
    ensures forall x :: x in BucketItem(tool, b) ==> ProperItem(x)
  {
    if Anchor(b).Some? {
      var ids := IdOf(b.begin) + EventIds(b.outputs) + EventIds(b.interactions) + IdOf(b.end);
      assert |ids| == |IdOf(b.begin)| + |b.outputs| + |b.interactions| + |IdOf(b.end)|;
    }
  }

  lemma {:induction false} ProjectedItemsAreProper(es: seq<Routed>, homes: seq<Home>)
    ensures forall x :: x in FlatMap(ShownAt(es), homes) ==> ProperItem(x)
  {
    if homes != [] {
      ProjectedItemsAreProper(es, homes[..|homes| - 1]);
      ItemsAtAreProper(es, homes[|homes| - 1]);
    }
  }

  lemma SortedItemsAreProper(loc: Collator, events: seq<EventRecord>)
    ensures forall k :: 0 <= k < |SortedItems(loc, events)| ==> ProperItem(SortedItems(loc, events)[k])
  {
    ProjectedItemsAreProper(RouteAll(events), Homes(RouteAll(events)));
    SortedItemsAreProjected(loc, events);
    assert forall k :: 0 <= k < |SortedItems(loc, events)| ==> SortedItems(loc, events)[k] in SortedItems(loc, events);
  }

  /**
   Lossless end to end: taking the messages apart gives back the sorted items in order, and no
   assistant message is empty.
   */
  lemma MessagesHoldTheItems(loc: Collator, events: seq<EventRecord>)
    ensures Entries(ProjectMessages(loc, events)) == ItemEntries(SortedItems(loc, events))
    ensures forall m :: m in ProjectMessages(loc, events) && m.role == AssistantRole ==> m.parts != []
  {
    SortedItemsAreProper(loc, events);
    FoldIsLossless(SortedItems(loc, events));
  }

  // ----- message ids

  /** The id of a message that an item starts. */
  function StartedId(item: Item): string {
    match item
    case UserItem(_, _, message) => message.id
    case AssistantItem(_, _, part, _) => "assistant-" + FirstId(part)
  }

  /** The ids of the messages started among the items. */
  function StartedIds(running: bool, items: seq<Item>): seq<string>
    decreases items
  {
    if items == [] then []
    else StartedBy(running, items[0]) + StartedIds(!items[0].UserItem? && !items[0].closes, items[1..])
  }

  /** An item starts a message unless it continues a running assistant message. */
  function StartedBy(running: bool, item: Item): seq<string> {
    if running && !item.UserItem? then [] else [StartedId(item)]
  }

  function MessageIds(messages: seq<Message>): seq<string> {
    seq(|messages|, k requires 0 <= k < |messages| => messages[k].id)
  }

  lemma MessageIdsAppend(xs: seq<Message>, ys: seq<Message>)
    ensures MessageIds(xs + ys) == MessageIds(xs) + MessageIds(ys)
  {
  }

  lemma {:induction false} FoldStartsMessages(open: Option<Message>, items: seq<Item>)
    ensures MessageIds(FoldFrom(open, items))
         == OpenIds(open) + StartedIds(open.Some?, items)
    decreases items
  {
    if items != [] {
      var item, next := items[0], NextOpen(open, items[0]);
      var rest := StartedIds(next.Some?, items[1..]);
      calc {
        MessageIds(FoldFrom(open, items));
        { MessageIdsAppend(Completed(open, item), FoldFrom(next, items[1..])); }
        MessageIds(Completed(open, item)) + MessageIds(FoldFrom(next, items[1..]));
        { FoldStartsMessages(next, items[1..]); }
        MessageIds(Completed(open, item)) + (OpenIds(next) + rest);
        { Assoc(MessageIds(Completed(open, item)), OpenIds(next), rest); }
        MessageIds(Completed(open, item)) + OpenIds(next) + rest;
        { ItemStartsMessage(open, item); }
        OpenIds(open) + StartedBy(open.Some?, item) + rest;
        { Assoc(OpenIds(open), StartedBy(open.Some?, item), rest); }
        OpenIds(open) + StartedIds(open.Some?, items);
      }
    }
  }

  function OpenIds(open: Option<Message>): seq<string> {
    if open.Some? then [open.value.id] else []
  }

  lemma ItemStartsMessage(open: Option<Message>, item: Item)
    ensures MessageIds(Completed(open, item)) + OpenIds(NextOpen(open, item)) == OpenIds(open) + StartedBy(open.Some?, item)
    ensures NextOpen(open, item).Some? == (!item.UserItem? && !item.closes)
  {
  }

  lemma {:induction false} StartedIdsComeFromItems(running: bool, items: seq<Item>)
    ensures forall x :: x in StartedIds(running, items) ==> exists k :: 0 <= k < |items| && StartedId(items[k]) == x
    decreases items
  {
    if items != [] {
      var next := !items[0].UserItem? && !items[0].closes;
      StartedIdsComeFromItems(next, items[1..]);
      forall x | x in StartedIds(running, items) ensures exists k :: 0 <= k < |items| && StartedId(items[k]) == x {
        if x == StartedId(items[0]) {
        } else {
          assert x in StartedIds(next, items[1..]);
          var k :| 0 <= k < |items[1..]| && StartedId(items[1..][k]) == x;
          assert items[k + 1] == items[1..][k];
        }
      }
    }
  }

  lemma {:induction false} StartedIdsAreDistinct(running: bool, items: seq<Item>)
    requires forall i, j :: 0 <= i < j < |items| ==> StartedId(items[i]) != StartedId(items[j])
    ensures NoRepeats(StartedIds(running, items))
    decreases items
  {
    if items != [] {
      var next := !items[0].UserItem? && !items[0].closes;
      StartedIdsAreDistinct(next, items[1..]);
      StartedIdsComeFromItems(next, items[1..]);
      forall x | x in StartedIds(next, items[1..]) ensures x != StartedId(items[0]) {
        var k :| 0 <= k < |items[1..]| && StartedId(items[1..][k]) == x;
        assert items[k + 1] == items[1..][k];
      }
      if items[0].UserItem? || !running {
        NoRepeatsAppend([StartedId(items[0])], StartedIds(next, items[1..]));
      } else {
        assert [] + StartedIds(next, items[1..]) == StartedIds(next, items[1..]);
      }
    }
  }

  lemma StartedIdsDiffer(a: Item, b: Item)
    requires ProperItem(a) && ProperItem(b) && ItemIds(a)[0] != ItemIds(b)[0]
    ensures StartedId(a) != StartedId(b)
  {
    var x, y := ItemIds(a)[0], ItemIds(b)[0];
    if a.UserItem? && b.UserItem? {
      assert StartedId(a)[5..] == x && StartedId(b)[5..] == y;
    } else if a.AssistantItem? && b.AssistantItem? {
      assert StartedId(a)[10..] == x && StartedId(b)[10..] == y;
    } else {
      assert StartedId(a)[0] != StartedId(b)[0];
    }
  }

  lemma FirstIdsDiffer(loc: Collator, events: seq<EventRecord>, i: nat, j: nat)
    requires DistinctIds(events) && i < j < |SortedItems(loc, events)|
    ensures var items := SortedItems(loc, events);
      ProperItem(items[i]) && ProperItem(items[j]) && ItemIds(items[i])[0] != ItemIds(items[j])[0]
  {
    var items := SortedItems(loc, events);
    SortedItemsAreProper(loc, events);
    EveryEventAtMostOnce(loc, events);
    var id := ItemIds(items[i])[0];
    assert id in ItemIds(items[i]);
    var n :| 0 <= n < |events| && EventShown(events, n) && events[n].eventId == id;
    assert InExactlyOne(items, id);
    assert ItemIds(items[j])[0] in ItemIds(items[j]);
  }

  /** With distinct event ids, no two messages share an id. */
  lemma MessageIdsAreDistinct(loc: Collator, events: seq<EventRecord>)
    requires DistinctIds(events)
    ensures NoRepeats(MessageIds(ProjectMessages(loc, events)))
  {
    var items := SortedItems(loc, events);
    forall i, j | 0 <= i < j < |items| ensures StartedId(items[i]) != StartedId(items[j]) {
      FirstIdsDiffer(loc, events, i, j);
      StartedIdsDiffer(items[i], items[j]);
    }
    FoldStartsMessages(None, items);
    StartedIdsAreDistinct(false, items);
  }

  /** So it is for whatever the session history shows. */
  lemma MergedHistoryHasDistinctMessages(loc: Collator, events: seq<EventRecord>)
    ensures NoRepeats(MessageIds(ProjectMessages(loc, Merge(loc, events))))
  {
    MergeMeetsItsPromise(loc, events);
    MessageIdsAreDistinct(loc, Merge(loc, events));
  }

  lemma MergedIsSortedByTimestamp(loc: Collator, events: seq<EventRecord>)
    ensures SortedByTimestamp(loc, Merge(loc, events))
  {
    MergeMeetsItsPromise(loc, events);
    var merged := Merge(loc, events);
    forall i, j | 0 <= i < j < |merged| ensures loc(merged[i].timestamp, merged[j].timestamp) <= 0 {
      assert EventLe(loc)(merged[i], merged[j]);
    }
  }

  /** And its items stand where placement says. */
  lemma MergedHistoryIsWellPlaced(loc: Collator, events: seq<EventRecord>)
    requires |Merge(loc, events)| <= MAX_SAFE_INTEGER
    ensures var items := SortedItems(loc, Merge(loc, events));
      && OthersInInputOrder(items, |Merge(loc, events)|) && OthersCarryTheirEvents(RouteAll(Merge(loc, events)), items)
      && BucketsAfterTies(loc, items) && BucketTiesAsEmitted(loc, ProjectItems(RouteAll(Merge(loc, events))), items)
      && BucketsStandAtAnchors(RouteAll(Merge(loc, events)), items)
  {
    MergedIsSortedByTimestamp(loc, events);
    ItemsAreWellPlaced(loc, Merge(loc, events));
  }
}
