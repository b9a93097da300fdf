/**
 What a tool bucket shows, by positions in the event list: which event places it, and which events
 it lists in which order.
 */
module BucketRule {
  import opened Sequences
  import opened Events
  import opened Routing
  import opened Projection
  import opened ProjectionPass
  import opened Conservation

  ghost predicate SlotUnused(es: seq<Routed>, tool: ToolKind, id: string, slot: Slot) {
    forall i :: 0 <= i < |es| ==> !FillsSlot(es[i], tool, id, slot)
  }

  ghost predicate IsFirst(es: seq<Routed>, tool: ToolKind, id: string, slot: Slot, a: nat) {
    a < |es| && FillsSlot(es[a], tool, id, slot) && forall i :: 0 <= i < a ==> !FillsSlot(es[i], tool, id, slot)
  }

  ghost predicate IsLast(es: seq<Routed>, tool: ToolKind, id: string, slot: Slot, a: nat) {
    a < |es| && FillsSlot(es[a], tool, id, slot) && forall i :: a < i < |es| ==> !FillsSlot(es[i], tool, id, slot)
  }

  /** The last begin; without one the first output, else the first interaction, else the last end. */
  ghost predicate IsAnchor(es: seq<Routed>, tool: ToolKind, id: string, a: nat) {
    || IsLast(es, tool, id, Begin, a)
    || (SlotUnused(es, tool, id, Begin)
        && (|| IsFirst(es, tool, id, Output, a)
            || (SlotUnused(es, tool, id, Output)
                && (|| IsFirst(es, tool, id, Interaction, a)
                    || (SlotUnused(es, tool, id, Interaction) && IsLast(es, tool, id, End, a))))))
  }

  /** Begin first, then the outputs, the interactions and the end. */
  function Rank(slot: Slot): nat {
    match slot
    case Begin => 0
    case Output => 1
    case Interaction => 2
    case End => 3
  }

  predicate Fills(r: Routed, tool: ToolKind, id: string) {
    r.route.ToBucket? && r.route.tool == tool && r.route.id == id
  }

  ghost predicate Ordered(es: seq<Routed>, at: seq<nat>) {
    forall k, l :: 0 <= k < l < |at| ==> Before(es, at[k], at[l])
  }

  /** By slot, and inside a slot by position. */
  predicate Before(es: seq<Routed>, i: nat, j: nat) {
    i < |es| && j < |es| && es[i].route.ToBucket? && es[j].route.ToBucket?
    && (Rank(es[i].route.slot) < Rank(es[j].route.slot) || (es[i].route.slot == es[j].route.slot && i < j))
  }

  /** The positions are exactly those of the bucket's events that no later one overwrites. */
  ghost predicate ListsShown(es: seq<Routed>, tool: ToolKind, id: string, at: seq<nat>) {
    forall i: nat :: i in at <==> i < |es| && Fills(es[i], tool, id) && Shown(es, i)
  }

  function IdsAt(es: seq<Routed>, at: seq<nat>): seq<string>
    requires InRange(es, at)
  {
    seq(|at|, k requires 0 <= k < |at| => es[at[k]].event.eventId)
  }

  /** The positions of the events in one slot. */
  function Positions(es: seq<Routed>, tool: ToolKind, id: string, slot: Slot): seq<nat> {
    if es == [] then []
    else
      var n := |es| - 1;
      Positions(es[..n], tool, id, slot) + if FillsSlot(es[n], tool, id, slot) then [n] else []
  }

  ghost predicate ArePositions(es: seq<Routed>, tool: ToolKind, id: string, slot: Slot, at: seq<nat>) {
    && (forall k :: 0 <= k < |at| ==> at[k] < |es| && FillsSlot(es[at[k]], tool, id, slot))
    && (forall k, l :: 0 <= k < l < |at| ==> at[k] < at[l])
    && (forall i: nat :: i < |es| && FillsSlot(es[i], tool, id, slot) ==> i in at)
  }

  ghost predicate EventsStandAt(es: seq<Routed>, events: seq<EventRecord>, at: seq<nat>) {
    |events| == |at| && forall k :: 0 <= k < |at| ==> at[k] < |es| && es[at[k]].event == events[k]
  }

  lemma PositionsSnoc(es: seq<Routed>, r: Routed, tool: ToolKind, id: string, slot: Slot, at: seq<nat>)
    requires ArePositions(es, tool, id, slot, at)
    ensures ArePositions(es + [r], tool, id, slot, if FillsSlot(r, tool, id, slot) then at + [|es|] else at)
  {
    var longer, at' := es + [r], if FillsSlot(r, tool, id, slot) then at + [|es|] else at;
    assert longer[|es|] == r;
    forall i: nat | i < |longer| && FillsSlot(longer[i], tool, id, slot) ensures i in at' {
      if i < |es| {
        assert longer[i] == es[i];
        assert i in at;
      } else {
        assert at'[|at|] == i;
      }
    }
  }

  lemma EventsStandSnoc(es: seq<Routed>, r: Routed, events: seq<EventRecord>, at: seq<nat>)
    requires EventsStandAt(es, events, at)
    ensures EventsStandAt(es + [r], events, at) && EventsStandAt(es + [r], events + [r.event], at + [|es|])
  {
  }

  lemma {:induction false} PositionsMeaning(es: seq<Routed>, tool: ToolKind, id: string, slot: Slot)
    ensures ArePositions(es, tool, id, slot, Positions(es, tool, id, slot))
    ensures EventsStandAt(es, SlotEvents(es, tool, id, slot), Positions(es, tool, id, slot))
  {
    if es != [] {
      var front, r := es[..|es| - 1], es[|es| - 1];
      assert es == front + [r];
      PositionsMeaning(front, tool, id, slot);
      PositionsStep(front, r, tool, id, slot);
      SlotEventsSnoc(front, r, tool, id, slot);
      PositionsSnoc(front, r, tool, id, slot, Positions(front, tool, id, slot));
      EventsStandSnoc(front, r, SlotEvents(front, tool, id, slot), Positions(front, tool, id, slot));
    }
  }

  lemma PositionsStep(es: seq<Routed>, r: Routed, tool: ToolKind, id: string, slot: Slot)
    ensures Positions(es + [r], tool, id, slot)
         == if FillsSlot(r, tool, id, slot) then Positions(es, tool, id, slot) + [|es|] else Positions(es, tool, id, slot)
  {
    assert (es + [r])[..|es|] == es;
  }

  /** The positions an overwriting slot keeps: its last one. */
  function LastPosition(at: seq<nat>): seq<nat> {
    if at == [] then [] else [at[|at| - 1]]
  }

  /** The positions a bucket shows. */
  function BucketPositions(es: seq<Routed>, tool: ToolKind, id: string): seq<nat> {
    LastPosition(Positions(es, tool, id, Begin)) + Positions(es, tool, id, Output)
      + Positions(es, tool, id, Interaction) + LastPosition(Positions(es, tool, id, End))
  }

  lemma LastPositionIsLast(es: seq<Routed>, tool: ToolKind, id: string, slot: Slot, at: seq<nat>)
    requires ArePositions(es, tool, id, slot, at)
    ensures if at == [] then SlotUnused(es, tool, id, slot)
            else IsFirst(es, tool, id, slot, at[0]) && IsLast(es, tool, id, slot, at[|at| - 1])
  {
    forall i: nat | i < |es| && FillsSlot(es[i], tool, id, slot)
      ensures at != [] && at[0] <= i <= at[|at| - 1] {
      assert i in at;
    }
  }

  /** The bucket item's timestamp is its anchor's; there is an item exactly if some event fills the bucket. */
  lemma BucketStandsAtAnchor(es: seq<Routed>, tool: ToolKind, id: string)
    ensures var items := ItemsAt(es, InBucket(tool, id));
      if exists i :: 0 <= i < |es| && Fills(es[i], tool, id) then
        |items| == 1 && exists a: nat :: IsAnchor(es, tool, id, a) && items[0].timestamp == es[a].event.timestamp
      else items == []
  {
    FillsSomeSlot(es, tool, id);
    var a := FindAnchor(es, tool, id);
    assert a.Some? ==> IsAnchor(es, tool, id, a.value);
  }

  lemma FindAnchor(es: seq<Routed>, tool: ToolKind, id: string) returns (a: Option<nat>)
    ensures a.Some? ==> IsAnchor(es, tool, id, a.value) && Anchor(BucketOf(es, tool, id)) == Some(es[a.value].event)
    ensures a.None? ==> Anchor(BucketOf(es, tool, id)) == None
    ensures a.None? <==>
      SlotUnused(es, tool, id, Begin) && SlotUnused(es, tool, id, Output)
      && SlotUnused(es, tool, id, Interaction) && SlotUnused(es, tool, id, End)
  {
    var begin := LastIn(es, tool, id, Begin);
    if begin.Some? { return begin; }
    var output := FirstIn(es, tool, id, Output);
    if output.Some? { return output; }
    var interaction := FirstIn(es, tool, id, Interaction);
    if interaction.Some? { return interaction; }
    a := LastIn(es, tool, id, End);
  }

  lemma LastIn(es: seq<Routed>, tool: ToolKind, id: string, slot: Slot) returns (a: Option<nat>)
    ensures a.Some? ==> IsLast(es, tool, id, slot, a.value) && LastOf(SlotEvents(es, tool, id, slot)) == Some(es[a.value].event)
    ensures a.Some? ==> !SlotUnused(es, tool, id, slot)
    ensures a.None? ==> SlotUnused(es, tool, id, slot) && SlotEvents(es, tool, id, slot) == []
  {
    SlotMeaning(es, tool, id, slot);
    var at := Positions(es, tool, id, slot);
    a := if at == [] then None else Some(at[|at| - 1]);
  }

  lemma FirstIn(es: seq<Routed>, tool: ToolKind, id: string, slot: Slot) returns (a: Option<nat>)
    ensures a.Some? ==> IsFirst(es, tool, id, slot, a.value)
    ensures a.Some? ==> SlotEvents(es, tool, id, slot) != [] && SlotEvents(es, tool, id, slot)[0] == es[a.value].event
    ensures a.Some? ==> !SlotUnused(es, tool, id, slot)
    ensures a.None? ==> SlotUnused(es, tool, id, slot) && SlotEvents(es, tool, id, slot) == []
  {
    SlotMeaning(es, tool, id, slot);
    var at := Positions(es, tool, id, slot);
    a := if at == [] then None else Some(at[0]);
  }

  lemma FillsSomeSlot(es: seq<Routed>, tool: ToolKind, id: string)
    ensures (exists i :: 0 <= i < |es| && Fills(es[i], tool, id)) <==>
      !(SlotUnused(es, tool, id, Begin) && SlotUnused(es, tool, id, Output)
        && SlotUnused(es, tool, id, Interaction) && SlotUnused(es, tool, id, End))
  {
    if i :| 0 <= i < |es| && Fills(es[i], tool, id) {
      var slot := es[i].route.slot;
      assert FillsSlot(es[i], tool, id, slot);
      assert !SlotUnused(es, tool, id, slot);
      assert slot == Begin || slot == Output || slot == Interaction || slot == End;
    }
    SlotFills(es, tool, id, Begin);
    SlotFills(es, tool, id, Output);
    SlotFills(es, tool, id, Interaction);
    SlotFills(es, tool, id, End);
  }

  lemma SlotFills(es: seq<Routed>, tool: ToolKind, id: string, slot: Slot)
    ensures SlotUnused(es, tool, id, slot) || exists i :: 0 <= i < |es| && Fills(es[i], tool, id)
  {
    if i :| 0 <= i < |es| && FillsSlot(es[i], tool, id, slot) {
      assert Fills(es[i], tool, id);
    }
  }

  /** A slot's events stand at its positions, its first and last in particular. */
  lemma SlotMeaning(es: seq<Routed>, tool: ToolKind, id: string, slot: Slot)
    ensures var at, events := Positions(es, tool, id, slot), SlotEvents(es, tool, id, slot);
      && |at| == |events|
      && (at == [] ==> SlotUnused(es, tool, id, slot))
      && (at != [] ==> IsFirst(es, tool, id, slot, at[0]) && es[at[0]].event == events[0])
      && (at != [] ==> IsLast(es, tool, id, slot, at[|at| - 1]) && es[at[|at| - 1]].event == events[|at| - 1])
  {
    PositionsMeaning(es, tool, id, slot);
    LastPositionIsLast(es, tool, id, slot, Positions(es, tool, id, slot));
  }

  /** The slots of a bucket, with the positions it shows of each. */
  ghost predicate KeepsOf(es: seq<Routed>, tool: ToolKind, id: string, slot: Slot, at: seq<nat>) {
    && (forall i: nat :: i in at <==> i < |es| && FillsSlot(es[i], tool, id, slot) && Shown(es, i))
    && (forall k, l :: 0 <= k < l < |at| ==> at[k] < at[l])
  }

  lemma AccumulatingKeeps(es: seq<Routed>, tool: ToolKind, id: string, slot: Slot)
    requires slot == Output || slot == Interaction
    ensures KeepsOf(es, tool, id, slot, Positions(es, tool, id, slot))
    ensures EventsStandAt(es, SlotEvents(es, tool, id, slot), Positions(es, tool, id, slot))
  {
    PositionsMeaning(es, tool, id, slot);
  }

  lemma OverwritingKeeps(es: seq<Routed>, tool: ToolKind, id: string, slot: Slot)
    requires slot == Begin || slot == End
    ensures KeepsOf(es, tool, id, slot, LastPosition(Positions(es, tool, id, slot)))
  {
    var at := Positions(es, tool, id, slot);
    SlotMeaning(es, tool, id, slot);
    if at != [] {
      var last := at[|at| - 1];
      forall i: nat | i < |es| && FillsSlot(es[i], tool, id, slot) ensures Shown(es, i) <==> i == last {
        if i != last {
          assert es[last].route == es[i].route;
        }
      }
    }
  }

  /**
   The bucket item lists exactly its events that are not overwritten: the begin, then outputs and
   interactions each in input order, then the end.
   */
  lemma BucketListsItsEvents(es: seq<Routed>, tool: ToolKind, id: string, item: Item)
    requires item in ItemsAt(es, InBucket(tool, id))
    ensures exists at: seq<nat> :: Ordered(es, at) && ListsShown(es, tool, id, at) && ListsAt(es, at, item)
  {
    var at := BucketPositions(es, tool, id);
    BucketPositionsKeep(es, tool, id);
    assert forall k :: 0 <= k < |at| ==> at[k] in at;
    BucketIdsAtPositions(es, tool, id);
    assert ListsAt(es, at, item);
  }

  ghost predicate ListsAt(es: seq<Routed>, at: seq<nat>, item: Item) {
    InRange(es, at) && item.AssistantItem? && item.part.eventIds == IdsAt(es, at)
  }

  lemma BucketPositionsKeep(es: seq<Routed>, tool: ToolKind, id: string)
    ensures Ordered(es, BucketPositions(es, tool, id)) && ListsShown(es, tool, id, BucketPositions(es, tool, id))
  {
    OverwritingKeeps(es, tool, id, Begin);
    AccumulatingKeeps(es, tool, id, Output);
    AccumulatingKeeps(es, tool, id, Interaction);
    OverwritingKeeps(es, tool, id, End);
    FourPieces(es, tool, id, LastPosition(Positions(es, tool, id, Begin)), Positions(es, tool, id, Output),
               Positions(es, tool, id, Interaction), LastPosition(Positions(es, tool, id, End)));
  }

  lemma FourPieces(es: seq<Routed>, tool: ToolKind, id: string, b: seq<nat>, o: seq<nat>, x: seq<nat>, e: seq<nat>)
    requires KeepsOf(es, tool, id, Begin, b) && KeepsOf(es, tool, id, Output, o)
    requires KeepsOf(es, tool, id, Interaction, x) && KeepsOf(es, tool, id, End, e)
    ensures Ordered(es, b + o + x + e) && ListsShown(es, tool, id, b + o + x + e)
  {
    OneSlotOrdered(es, tool, id, Begin, b);
    OneSlotOrdered(es, tool, id, Output, o);
    OneSlotOrdered(es, tool, id, Interaction, x);
    OneSlotOrdered(es, tool, id, End, e);
    OrderedAppend(es, b, o);
    OrderedAppend(es, b + o, x);
    OrderedAppend(es, b + o + x, e);
  }

  lemma OneSlotOrdered(es: seq<Routed>, tool: ToolKind, id: string, slot: Slot, at: seq<nat>)
    requires KeepsOf(es, tool, id, slot, at)
    ensures Ordered(es, at)
    ensures forall i :: i in at ==> i < |es| && es[i].route.ToBucket? && es[i].route.slot == slot
  {
    forall k, l | 0 <= k < l < |at| ensures Before(es, at[k], at[l]) {
      assert at[k] in at && at[l] in at;
    }
  }

  lemma OrderedAppend(es: seq<Routed>, at: seq<nat>, more: seq<nat>)
    requires Ordered(es, at) && Ordered(es, more) && forall i, j :: i in at && j in more ==> Before(es, i, j)
    ensures Ordered(es, at + more)
  {
    forall k, l | 0 <= k < l < |at + more| ensures Before(es, (at + more)[k], (at + more)[l]) {
      if k < |at| <= l {
        assert at[k] in at && more[l - |at|] in more;
      }
    }
  }

  lemma BucketIdsAtPositions(es: seq<Routed>, tool: ToolKind, id: string)
    requires InRange(es, BucketPositions(es, tool, id))
    ensures var b := BucketOf(es, tool, id);
      IdOf(b.begin) + EventIds(b.outputs) + EventIds(b.interactions) + IdOf(b.end) == IdsAt(es, BucketPositions(es, tool, id))
  {
    var begins, outputs := Positions(es, tool, id, Begin), Positions(es, tool, id, Output);
    var interactions, ends := Positions(es, tool, id, Interaction), Positions(es, tool, id, End);
    SlotIds(es, tool, id, Begin);
    SlotIds(es, tool, id, Output);
    SlotIds(es, tool, id, Interaction);
    SlotIds(es, tool, id, End);
    IdsAtAppend(es, LastPosition(begins), outputs);
    IdsAtAppend(es, LastPosition(begins) + outputs, interactions);
    IdsAtAppend(es, LastPosition(begins) + outputs + interactions, LastPosition(ends));
  }

  ghost predicate InRange(es: seq<Routed>, at: seq<nat>) {
    forall k :: 0 <= k < |at| ==> at[k] < |es|
  }

  lemma SlotIds(es: seq<Routed>, tool: ToolKind, id: string, slot: Slot)
    ensures var at, events := Positions(es, tool, id, slot), SlotEvents(es, tool, id, slot);
      && InRange(es, at) && EventIds(events) == IdsAt(es, at)
      && InRange(es, LastPosition(at)) && IdOf(LastOf(events)) == IdsAt(es, LastPosition(at))
  {
    PositionsMeaning(es, tool, id, slot);
  }

  lemma IdsAtAppend(es: seq<Routed>, at: seq<nat>, more: seq<nat>)
    requires InRange(es, at) && InRange(es, more)
    ensures InRange(es, at + more) && IdsAt(es, at + more) == IdsAt(es, at) + IdsAt(es, more)
  {
  }
}
