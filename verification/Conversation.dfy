/** From ingest to the conversation: what becomes of a stored event in the messages on screen. */
module Conversation {
  import opened Events
  import opened SessionMerge
  import opened LiveView
  import opened EventStore
  import opened Backfill
  import opened Projection
  import opened Conservation
  import opened Placement
  import opened MessageFold
  import opened ThreadProjection
  import opened Pipeline
  import opened EndToEnd
  import opened Reconnects
  import opened ReconnectLosses

  /** Why a record on screen has no item: ignored, overwritten, or a delta of a stream that is not shown. */
  ghost predicate HasNoItem(events: seq<EventRecord>, i: nat)
    requires i < |events|
  {
    var es := RouteAll(events);
    match es[i].route
    case Ignored => true
    case ToBucket(_, _, _) => Overwritten(es, i)
    case Chunk(stream, key, _, _) => !StreamVisible(es, stream, key)
    case _ => false
  }

  /** Exactly one item lists the event, once; or its record has none, for one of these reasons. */
  ghost predicate InConversation(loc: Collator, events: seq<EventRecord>, id: string) {
    exists i :: 0 <= i < |events| && events[i].eventId == id
             && if HasNoItem(events, i) then NoneLists(SortedItems(loc, events), id) else InExactlyOne(SortedItems(loc, events), id)
  }

  ghost predicate NoneLists(items: seq<Item>, id: string) {
    forall q :: 0 <= q < |items| ==> id !in ItemIds(items[q])
  }

  lemma ShownOrNoItem(events: seq<EventRecord>, i: nat)
    requires i < |events|
    ensures EventShown(events, i) <==> !HasNoItem(events, i)
  {
  }

  lemma RecordIsPlaced(loc: Collator, events: seq<EventRecord>, id: string)
    requires DistinctIds(events) && id in Ids(events)
    ensures InConversation(loc, events, id)
  {
    EveryEventAtMostOnce(loc, events);
    var e :| e in events && e.eventId == id;
    var i :| 0 <= i < |events| && events[i] == e;
    ShownOrNoItem(events, i);
  }

  lemma MergedIsDistinct(loc: Collator, s: State)
    requires Inv(loc, s) && s.load == Merged
    ensures DistinctIds(s.view.shown)
  {
    ShownIsOneShot(loc, s);
    MergeMeetsItsPromise(loc, s.cached + PagedEvents(s.callbacks) + LiveEvents(s.callbacks));
  }

  /** What is on screen after the handoff is placed in the conversation, and the messages hold all items in order. */
  lemma ScreenBecomesConversation(loc: Collator, subscribeFirst: bool, serial: bool, s: State)
    requires Reachable(loc, subscribeFirst, serial, s) && s.load == Merged
    ensures forall id :: id in Ids(s.view.shown) ==> InConversation(loc, s.view.shown, id)
    ensures Entries(ProjectMessages(loc, s.view.shown)) == ItemEntries(SortedItems(loc, s.view.shown))
  {
    ReachableInv(loc, subscribeFirst, serial, s);
    MergedIsDistinct(loc, s);
    MessagesHoldTheItems(loc, s.view.shown);
    forall id | id in Ids(s.view.shown) ensures InConversation(loc, s.view.shown, id) {
      RecordIsPlaced(loc, s.view.shown, id);
    }
  }

  /** On one connection every stored event of the thread that was not dropped reaches the conversation. */
  lemma StoredEventIsInConversation(loc: Collator, serial: bool, s: State, r: Row)
    requires Reachable(loc, true, serial, s) && Quiet(s) && |s.connections| == 1
    requires r in s.rows && InSession(s.thread)(r) && !WasDropped(s, r.eventId)
    ensures InConversation(loc, s.view.shown, r.eventId)
  {
    NothingIsLost(loc, serial, s, r);
    ScreenBecomesConversation(loc, true, serial, s);
  }

  /** Over any number of connections, every stored event that was not lost does, exactly. */
  lemma StoredEventIsInConversationIff(loc: Collator, s: State, r: Row)
    requires Reachable(loc, true, true, s) && Quiet(s)
    requires r in s.rows && InSession(s.thread)(r)
    ensures InConversation(loc, s.view.shown, r.eventId) <==>
      || r.eventId in Ids(s.cached) + Ids(Records(s.paging.persisted))
      || !(LostOnResume(s, r.eventId) || LostByDrop(s, r.eventId))
  {
    MissingAfterReconnectsIff(loc, s, r);
    ScreenBecomesConversation(loc, true, true, s);
    assert InConversation(loc, s.view.shown, r.eventId) ==> r.eventId in Ids(s.view.shown);
  }
}
