/**
 mergeSessionEvents: drop every record whose id was seen before, then sort. The laws below are
 what lets the client merge live events one at a time: merging already merged lists changes
 nothing, on either side, even where the comparator ties on different ids.
 */
module SessionMerge {
  import opened Sequences
  import opened StableSort
  import opened Events

  /** The first record of each id, in order of first appearance. */
  function Dedup(events: seq<EventRecord>): seq<EventRecord> {
    if events == [] then []
    else
      var kept := Dedup(events[..|events| - 1]);
      var last := events[|events| - 1];
      if HasId(kept, last.eventId) then kept else kept + [last]
  }

  predicate HasId(events: seq<EventRecord>, id: string) {
    exists k :: 0 <= k < |events| && events[k].eventId == id
  }

  function Merge(loc: Collator, events: seq<EventRecord>): seq<EventRecord> {
    Sort(EventLe(loc), Dedup(events))
  }

  function Flatten<T>(collections: seq<seq<T>>): seq<T> {
    if collections == [] then []
    else Flatten(collections[..|collections| - 1]) + collections[|collections| - 1]
  }

  /** The Map's keys are the ids of the values in insertion order. */
  ghost predicate KeysAre(deduped: map<string, EventRecord>, order: seq<EventRecord>) {
    forall id :: id in deduped <==> HasId(order, id)
  }

  lemma AddKey(deduped: map<string, EventRecord>, order: seq<EventRecord>, e: EventRecord)
    requires KeysAre(deduped, order)
    ensures KeysAre(deduped[e.eventId := e], order + [e])
    ensures e.eventId in deduped <==> HasId(order, e.eventId)
  {
    HasIdSnoc(order, e);
  }

  /** The nested loops over the insertion-ordered Map, then the sort. */
  method MergeSessionEvents(loc: Collator, collections: seq<seq<EventRecord>>)
    returns (merged: seq<EventRecord>)
    ensures merged == Merge(loc, Flatten(collections)) && InTimeOrder(loc, merged)
  {
    var deduped: map<string, EventRecord> := map[];
    var order: seq<EventRecord> := [];
    for c := 0 to |collections|
      invariant order == Dedup(Flatten(collections[..c]))
      invariant KeysAre(deduped, order)
    {
      deduped, order := AddCollection(deduped, order, collections[c], Flatten(collections[..c]));
      assert collections[..c + 1][..c] == collections[..c];
    }
    assert collections[..|collections|] == collections;
    merged := Sort(EventLe(loc), order);
    MergeMeetsItsPromise(loc, Flatten(collections));
  }

  /** The inner loop: add every event whose id is not in the Map yet. */
  method AddCollection(deduped: map<string, EventRecord>, order: seq<EventRecord>, events: seq<EventRecord>,
                       ghost before: seq<EventRecord>)
    returns (deduped': map<string, EventRecord>, order': seq<EventRecord>)
    requires order == Dedup(before) && KeysAre(deduped, order)
    ensures order' == Dedup(before + events) && KeysAre(deduped', order')
  {
    deduped', order' := deduped, order;
    assert before + events[..0] == before;
    for i := 0 to |events|
      invariant order' == Dedup(before + events[..i])
      invariant KeysAre(deduped', order')
    {
      AddNewId(deduped', order', before + events[..i], events[i]);
      OneFurther(before, events, i);
      if events[i].eventId !in deduped' {
        deduped' := deduped'[events[i].eventId := events[i]];
        order' := order' + [events[i]];
      }
    }
    assert events[..|events|] == events;
  }

  lemma AddNewId(deduped: map<string, EventRecord>, order: seq<EventRecord>, seen: seq<EventRecord>, e: EventRecord)
    requires order == Dedup(seen) && KeysAre(deduped, order)
    ensures e.eventId in deduped ==> order == Dedup(seen + [e])
    ensures e.eventId !in deduped ==> order + [e] == Dedup(seen + [e]) && KeysAre(deduped[e.eventId := e], order + [e])
  {
    DedupExtend(seen, e);
    AddKey(deduped, order, e);
  }

  lemma OneFurther<T>(before: seq<T>, xs: seq<T>, i: nat)
    requires i < |xs|
    ensures before + xs[..i + 1] == before + xs[..i] + [xs[i]]
  {
  }

  lemma DedupExtend(events: seq<EventRecord>, e: EventRecord)
    ensures Dedup(events + [e]) == if HasId(Dedup(events), e.eventId) then Dedup(events) else Dedup(events) + [e]
  {
    assert (events + [e])[..|events|] == events;
  }

  lemma FlattenTwo<T>(collections: seq<seq<T>>)
    requires |collections| == 2
    ensures Flatten(collections) == collections[0] + collections[1]
  {
    var one := collections[..1];
    assert Flatten(one) == Flatten(one[..0]) + one[0];
    assert Flatten(one[..0]) == [];
  }

  lemma FlattenThree<T>(collections: seq<seq<T>>)
    requires |collections| == 3
    ensures Flatten(collections) == collections[0] + collections[1] + collections[2]
  {
    FlattenTwo(collections[..2]);
  }

  lemma HasIdSnoc(events: seq<EventRecord>, e: EventRecord)
    ensures forall id :: HasId(events + [e], id) <==> HasId(events, id) || id == e.eventId
  {
    var longer := events + [e];
    forall id ensures HasId(longer, id) <==> HasId(events, id) || id == e.eventId {
      assert longer[|events|] == e;
      if HasId(events, id) {
        var k :| 0 <= k < |events| && events[k].eventId == id;
        assert longer[k].eventId == id;
      }
    }
  }

  lemma HasIdIsMember(events: seq<EventRecord>, id: string)
    ensures HasId(events, id) <==> id in Ids(events)
  {
    if id in Ids(events) {
      var e :| e in events && e.eventId == id;
      var k :| 0 <= k < |events| && events[k] == e;
    }
  }

  /** The condition "carries none of these ids". */
  ghost function NotIn(ids: set<string>): EventRecord -> bool {
    (e: EventRecord) => e.eventId !in ids
  }

  lemma DedupSnoc(events: seq<EventRecord>, e: EventRecord)
    requires Ids(Dedup(events)) == Ids(events)
    ensures Dedup(events + [e]) == if e.eventId in Ids(events) then Dedup(events) else Dedup(events) + [e]
  {
    DedupExtend(events, e);
    HasIdIsMember(Dedup(events), e.eventId);
  }

  lemma {:induction false} DedupKeepsIds(events: seq<EventRecord>)
    ensures Ids(Dedup(events)) == Ids(events)
  {
    if events != [] {
      var front, last := events[..|events| - 1], events[|events| - 1];
      DedupKeepsIds(front);
      DedupKeepsOneMore(front, last);
      assert events == front + [last];
    }
  }

  lemma DedupKeepsOneMore(front: seq<EventRecord>, last: EventRecord)
    requires Ids(Dedup(front)) == Ids(front)
    ensures Ids(Dedup(front + [last])) == Ids(front + [last])
  {
    DedupSnoc(front, last);
    IdsOneMore(front, last);
    IdsOneMore(Dedup(front), last);
  }

  lemma {:induction false} DedupIsDistinct(events: seq<EventRecord>)
    ensures DistinctIds(Dedup(events))
  {
    if events != [] {
      var front, last := events[..|events| - 1], events[|events| - 1];
      DedupIsDistinct(front);
      forall k | 0 <= k < |Dedup(front)| && !HasId(Dedup(front), last.eventId)
        ensures Dedup(front)[k].eventId != last.eventId {
      }
    }
  }

  lemma {:induction false} DedupKeepsFirsts(events: seq<EventRecord>, e: EventRecord)
    requires e in Dedup(events)
    ensures IsFirstOfItsId(events, e)
  {
    var front, last := events[..|events| - 1], events[|events| - 1];
    DedupKeepsIds(front);
    DedupSnoc(front, last);
    assert events == front + [last];
    if e in Dedup(front) {
      DedupKeepsFirsts(front, e);
      FirstStays(front, last, e);
    } else {
      LastIsFirst(front, last);
    }
  }

  lemma FirstStays(front: seq<EventRecord>, last: EventRecord, e: EventRecord)
    requires IsFirstOfItsId(front, e)
    ensures IsFirstOfItsId(front + [last], e)
  {
    var k :| 0 <= k < |front| && front[k] == e && forall j :: 0 <= j < k ==> front[j].eventId != e.eventId;
    assert (front + [last])[k] == e;
  }

  lemma LastIsFirst(front: seq<EventRecord>, last: EventRecord)
    requires last.eventId !in Ids(front)
    ensures IsFirstOfItsId(front + [last], last)
  {
    assert (front + [last])[|front|] == last;
    forall j | 0 <= j < |front| ensures front[j].eventId != last.eventId {
      assert front[j] in front && front[j].eventId in Ids(front);
    }
  }

  lemma {:induction false} DedupFixesDistinct(events: seq<EventRecord>)
    requires DistinctIds(events)
    ensures Dedup(events) == events
  {
    if events != [] {
      var front, last := events[..|events| - 1], events[|events| - 1];
      DedupFixesDistinct(front);
      assert front + [last] == events;
      assert !HasId(front, last.eventId);
      DedupExtend(front, last);
    }
  }

  /** Concatenating keeps the left list's records and adds the right list's new ids. */
  lemma {:induction false} DedupAppend(xs: seq<EventRecord>, ys: seq<EventRecord>)
    ensures Dedup(xs + ys) == Dedup(xs) + Filter(NotIn(Ids(xs)), Dedup(ys))
  {
    if ys == [] {
      assert xs + ys == xs;
      assert Dedup(xs) + [] == Dedup(xs);
    } else {
      var front, last := ys[..|ys| - 1], ys[|ys| - 1];
      DedupAppend(xs, front);
      DedupAppendOne(xs, front, last);
      Assoc(xs, front, [last]);
      assert front + [last] == ys;
    }
  }

  lemma DedupAppendOne(xs: seq<EventRecord>, front: seq<EventRecord>, last: EventRecord)
    requires Dedup(xs + front) == Dedup(xs) + Filter(NotIn(Ids(xs)), Dedup(front))
    ensures Dedup(xs + front + [last]) == Dedup(xs) + Filter(NotIn(Ids(xs)), Dedup(front + [last]))
  {
    var p, d := NotIn(Ids(xs)), Dedup(front);
    DedupKeepsIds(xs + front);
    DedupKeepsIds(front);
    DedupSnoc(xs + front, last);
    DedupSnoc(front, last);
    IdsAppend(xs, front);
    FilterSnoc(p, d, last);
    if last.eventId !in Ids(front) && last.eventId !in Ids(xs) {
      Assoc(Dedup(xs), Filter(p, d), [last]);
    }
  }

  /** By timestamp, then by id. */
  ghost predicate InTimeOrder(loc: Collator, events: seq<EventRecord>) {
    forall i, j :: 0 <= i < j < |events| ==>
      || loc(events[i].timestamp, events[j].timestamp) < 0
      || (loc(events[i].timestamp, events[j].timestamp) == 0 && loc(events[i].eventId, events[j].eventId) <= 0)
  }

  lemma SortedIsInTimeOrder(loc: Collator, events: seq<EventRecord>)
    requires Sorted(EventLe(loc), events)
    ensures InTimeOrder(loc, events)
  {
    forall i, j | 0 <= i < j < |events| ensures CompareEvents(loc, events[i], events[j]) <= 0 {
      assert EventLe(loc)(events[i], events[j]);
    }
  }

  /** Sorted, one record per id, exactly the ids given, and the first record of each. */
  lemma MergeMeetsItsPromise(loc: Collator, events: seq<EventRecord>)
    ensures InTimeOrder(loc, Merge(loc, events))
    ensures var m := Merge(loc, events);
      && Sorted(EventLe(loc), m)
      && DistinctIds(m)
      && Ids(m) == Ids(events)
      && (forall e :: e in m ==> IsFirstOfItsId(events, e))
  {
    var le, kept := EventLe(loc), Dedup(events);
    var m := Merge(loc, events);
    EventLeIsPreorder(loc);
    SortIsStable(le, kept);
    SortedIsInTimeOrder(loc, m);
    SortPermutes(le, kept);
    DedupKeepsIds(events);
    DedupIsDistinct(events);
    forall e | e in m ensures IsFirstOfItsId(events, e) {
      DedupKeepsFirsts(events, e);
    }
    forall id ensures id in Ids(m) <==> id in Ids(kept) {
      if id in Ids(m) {
        var e :| e in m && e.eventId == id;
        assert e in kept;
      }
      if id in Ids(kept) {
        var e :| e in kept && e.eventId == id;
        assert e in m;
      }
    }
    PermutationKeepsDistinct((e: EventRecord) => e.eventId, kept, m);
  }

  /** Merging an already merged prefix again changes nothing. */
  lemma MergeAbsorbsLeft(loc: Collator, xs: seq<EventRecord>, ys: seq<EventRecord>)
    ensures Merge(loc, Merge(loc, xs) + ys) == Merge(loc, xs + ys)
  {
    var le := EventLe(loc);
    var m, added := Merge(loc, xs), Filter(NotIn(Ids(xs)), Dedup(ys));
    EventLeIsPreorder(loc);
    MergeMeetsItsPromise(loc, xs);
    DedupFixesDistinct(m);
    DedupAppend(m, ys);
    DedupAppend(xs, ys);
    SortIsStable(le, Dedup(xs));
    forall a ensures Filter(TiedWith(le, a), m + added) == Filter(TiedWith(le, a), Dedup(xs) + added) {
      FilterAppend(TiedWith(le, a), m, added);
      FilterAppend(TiedWith(le, a), Dedup(xs), added);
    }
    SortRespectsTies(le, m + added, Dedup(xs) + added);
  }

  /** Merging an already merged suffix again changes nothing. */
  lemma MergeAbsorbsRight(loc: Collator, xs: seq<EventRecord>, ys: seq<EventRecord>)
    ensures Merge(loc, xs + Merge(loc, ys)) == Merge(loc, xs + ys)
  {
    var le, p := EventLe(loc), NotIn(Ids(xs));
    var m := Merge(loc, ys);
    EventLeIsPreorder(loc);
    MergeMeetsItsPromise(loc, ys);
    DedupFixesDistinct(m);
    DedupAppend(xs, m);
    DedupAppend(xs, ys);
    SortIsStable(le, Dedup(ys));
    var left, right := Dedup(xs) + Filter(p, m), Dedup(xs) + Filter(p, Dedup(ys));
    forall a ensures Filter(TiedWith(le, a), left) == Filter(TiedWith(le, a), right) {
      var q := TiedWith(le, a);
      FilterAppend(q, Dedup(xs), Filter(p, m));
      FilterAppend(q, Dedup(xs), Filter(p, Dedup(ys)));
      FilterCommutes(q, p, m);
      FilterCommutes(q, p, Dedup(ys));
      assert Filter(q, m) == Filter(q, Dedup(ys));
    }
    SortRespectsTies(le, left, right);
  }

  lemma MergeIsAssociative(loc: Collator, xs: seq<EventRecord>, ys: seq<EventRecord>, zs: seq<EventRecord>)
    ensures Merge(loc, Merge(loc, xs + ys) + zs) == Merge(loc, xs + Merge(loc, ys + zs))
  {
    MergeAbsorbsLeft(loc, xs + ys, zs);
    MergeAbsorbsRight(loc, xs, ys + zs);
    Assoc(xs, ys, zs);
  }

  lemma MergeIsIdempotent(loc: Collator, xs: seq<EventRecord>)
    ensures Merge(loc, Merge(loc, xs)) == Merge(loc, xs)
    ensures Merge(loc, xs + xs) == Merge(loc, xs)
  {
    var m := Merge(loc, xs);
    MergeMeetsItsPromise(loc, xs);
    DedupFixesDistinct(m);
    EventLeIsPreorder(loc);
    SortFixesSorted(EventLe(loc), m);
    MergeIgnoresKnown(loc, xs, xs);
  }

  /** Records whose ids are all present already add nothing. */
  lemma MergeIgnoresKnown(loc: Collator, xs: seq<EventRecord>, ys: seq<EventRecord>)
    requires Ids(ys) <= Ids(xs)
    ensures Merge(loc, xs + ys) == Merge(loc, xs)
  {
    DedupAppend(xs, ys);
    DedupKeepsIds(ys);
    forall e | e in Dedup(ys) ensures !NotIn(Ids(xs))(e) {
      assert e.eventId in Ids(Dedup(ys));
    }
    FilterKeepsNone(NotIn(Ids(xs)), Dedup(ys));
    assert Dedup(xs) + [] == Dedup(xs);
  }

  /** Records with one id are one record, and different ids never tie. */
  ghost predicate Unambiguous(loc: Collator, events: seq<EventRecord>) {
    forall a, b :: a in events && b in events && (a.eventId == b.eventId || CompareEvents(loc, a, b) == 0) ==> a == b
  }

  /** Where both lists name an id, they keep the same record for it. */
  ghost predicate SameRecords(xs: seq<EventRecord>, ys: seq<EventRecord>) {
    forall x, y :: x in Dedup(xs) && y in Dedup(ys) && x.eventId == y.eventId ==> x == y
  }

  /** The kept records that tie with a. */
  function Ties(loc: Collator, events: seq<EventRecord>, a: EventRecord): seq<EventRecord> {
    Filter(TiedWith(EventLe(loc), a), Dedup(events))
  }

  /** In every class of ties one list goes on where the other one ends. */
  ghost predicate TiesContinue(loc: Collator, xs: seq<EventRecord>, ys: seq<EventRecord>) {
    forall a :: IsPrefix(Ties(loc, xs, a), Ties(loc, ys, a)) || IsPrefix(Ties(loc, ys, a), Ties(loc, xs, a))
  }

  /** Merging two collections in either order gives one list exactly under these two conditions. */
  lemma MergeCommutesIff(loc: Collator, xs: seq<EventRecord>, ys: seq<EventRecord>)
    ensures Merge(loc, xs + ys) == Merge(loc, ys + xs) <==> SameRecords(xs, ys) && TiesContinue(loc, xs, ys)
  {
    if SameRecords(xs, ys) && TiesContinue(loc, xs, ys) {
      forall a ensures Ties(loc, xs + ys, a) == Ties(loc, ys + xs, a) {
        ContinuedTiesAgree(loc, xs, ys, a);
      }
      EventLeIsPreorder(loc);
      assert SameTies(EventLe(loc), Dedup(xs + ys), Dedup(ys + xs)) by {
        assert forall a :: Ties(loc, xs + ys, a) == Filter(TiedWith(EventLe(loc), a), Dedup(xs + ys));
        assert forall a :: Ties(loc, ys + xs, a) == Filter(TiedWith(EventLe(loc), a), Dedup(ys + xs));
      }
      SortRespectsTies(EventLe(loc), Dedup(xs + ys), Dedup(ys + xs));
    }
    if Merge(loc, xs + ys) == Merge(loc, ys + xs) {
      forall x, y | x in Dedup(xs) && y in Dedup(ys) && x.eventId == y.eventId ensures x == y {
        OneRecordWins(loc, xs, ys, x, y);
      }
      forall a ensures IsPrefix(Ties(loc, xs, a), Ties(loc, ys, a)) || IsPrefix(Ties(loc, ys, a), Ties(loc, xs, a)) {
        MergedTiesAgree(loc, xs, ys, a);
        TiesAppend(loc, xs, ys, a);
        TiesAppend(loc, ys, xs, a);
        PrefixOfSame(Ties(loc, xs, a), Filter(NotIn(Ids(xs)), Ties(loc, ys, a)), Ties(loc, ys, a), Filter(NotIn(Ids(ys)), Ties(loc, xs, a)));
      }
    }
  }

  lemma PrefixOfSame<T>(a: seq<T>, x: seq<T>, b: seq<T>, y: seq<T>)
    requires a + x == b + y
    ensures IsPrefix(a, b) || IsPrefix(b, a)
  {
    if |a| <= |b| {
      assert a == (a + x)[..|a|] == (b + y)[..|a|] == b[..|a|];
    } else {
      assert b == (b + y)[..|b|] == (a + x)[..|b|] == a[..|b|];
    }
  }

  /** In a class of ties the left list's records come first, then the right list's new ones. */
  lemma TiesAppend(loc: Collator, xs: seq<EventRecord>, ys: seq<EventRecord>, a: EventRecord)
    ensures Ties(loc, xs + ys, a) == Ties(loc, xs, a) + Filter(NotIn(Ids(xs)), Ties(loc, ys, a))
  {
    var q := TiedWith(EventLe(loc), a);
    DedupAppend(xs, ys);
    FilterAppend(q, Dedup(xs), Filter(NotIn(Ids(xs)), Dedup(ys)));
    FilterCommutes(q, NotIn(Ids(xs)), Dedup(ys));
  }

  lemma MergedTiesAgree(loc: Collator, xs: seq<EventRecord>, ys: seq<EventRecord>, a: EventRecord)
    requires Merge(loc, xs + ys) == Merge(loc, ys + xs)
    ensures Ties(loc, xs + ys, a) == Ties(loc, ys + xs, a)
  {
    var le := EventLe(loc);
    EventLeIsPreorder(loc);
    SortIsStable(le, Dedup(xs + ys));
    SortIsStable(le, Dedup(ys + xs));
    assert Filter(TiedWith(le, a), Merge(loc, xs + ys)) == Ties(loc, xs + ys, a);
    assert Filter(TiedWith(le, a), Merge(loc, ys + xs)) == Ties(loc, ys + xs, a);
  }

  lemma MergeKeepsLeft(loc: Collator, xs: seq<EventRecord>, ys: seq<EventRecord>, x: EventRecord)
    requires x in Dedup(xs)
    ensures x in Merge(loc, xs + ys)
  {
    DedupAppend(xs, ys);
    SortPermutes(EventLe(loc), Dedup(xs + ys));
  }

  lemma OneRecordWins(loc: Collator, xs: seq<EventRecord>, ys: seq<EventRecord>, x: EventRecord, y: EventRecord)
    requires Merge(loc, xs + ys) == Merge(loc, ys + xs)
    requires x in Dedup(xs) && y in Dedup(ys) && x.eventId == y.eventId
    ensures x == y
  {
    MergeKeepsLeft(loc, xs, ys, x);
    MergeKeepsLeft(loc, ys, xs, y);
    MergeMeetsItsPromise(loc, xs + ys);
  }

  lemma ContinuedTiesAgree(loc: Collator, xs: seq<EventRecord>, ys: seq<EventRecord>, a: EventRecord)
    requires SameRecords(xs, ys) && TiesContinue(loc, xs, ys)
    ensures Ties(loc, xs + ys, a) == Ties(loc, ys + xs, a)
  {
    TiesAppend(loc, xs, ys, a);
    TiesAppend(loc, ys, xs, a);
    if IsPrefix(Ties(loc, xs, a), Ties(loc, ys, a)) {
      LongerTiesWin(loc, xs, ys, a);
    } else {
      LongerTiesWin(loc, ys, xs, a);
    }
  }

  /** Where xs stops first, both orders give the ties of ys. */
  lemma LongerTiesWin(loc: Collator, xs: seq<EventRecord>, ys: seq<EventRecord>, a: EventRecord)
    requires SameRecords(xs, ys) && IsPrefix(Ties(loc, xs, a), Ties(loc, ys, a))
    ensures Ties(loc, xs, a) + Filter(NotIn(Ids(xs)), Ties(loc, ys, a)) == Ties(loc, ys, a)
    ensures Ties(loc, ys, a) + Filter(NotIn(Ids(ys)), Ties(loc, xs, a)) == Ties(loc, ys, a)
  {
    var f, g := Ties(loc, xs, a), Ties(loc, ys, a);
    var h := g[|f|..];
    assert g == f + h;
    TiesAreKept(loc, xs, a);
    TiesAreKept(loc, ys, a);
    FilterAppend(NotIn(Ids(xs)), f, h);
    FilterKeepsNone(NotIn(Ids(xs)), f);
    forall y | y in h ensures NotIn(Ids(xs))(y) {
      NewInTies(loc, xs, ys, a, y);
    }
    FilterKeepsAll(NotIn(Ids(xs)), h);
    assert [] + h == h;
    forall x | x in f ensures !NotIn(Ids(ys))(x) {
      assert x in g;
    }
    FilterKeepsNone(NotIn(Ids(ys)), f);
    assert g + [] == g;
  }

  lemma TiesAreKept(loc: Collator, events: seq<EventRecord>, a: EventRecord)
    ensures forall e :: e in Ties(loc, events, a) <==> e in Dedup(events) && TiedWith(EventLe(loc), a)(e)
    ensures forall e :: e in Ties(loc, events, a) ==> e.eventId in Ids(events)
    ensures DistinctIds(Ties(loc, events, a))
  {
    FilterMembers(TiedWith(EventLe(loc), a), Dedup(events));
    DedupIsDistinct(events);
    FilterKeepsDistinct((e: EventRecord) => e.eventId, TiedWith(EventLe(loc), a), Dedup(events));
    forall e | e in Dedup(events) ensures e in events {
      DedupMember(events, e);
    }
  }

  lemma NewInTies(loc: Collator, xs: seq<EventRecord>, ys: seq<EventRecord>, a: EventRecord, y: EventRecord)
    requires SameRecords(xs, ys) && IsPrefix(Ties(loc, xs, a), Ties(loc, ys, a))
    requires y in Ties(loc, ys, a)[|Ties(loc, xs, a)|..]
    ensures y.eventId !in Ids(xs)
  {
    var f, g := Ties(loc, xs, a), Ties(loc, ys, a);
    TiesAreKept(loc, xs, a);
    TiesAreKept(loc, ys, a);
    var j :| |f| <= j < |g| && g[j] == y;
    forall i | 0 <= i < |f| ensures f[i] != y {
      assert g[i].eventId != g[j].eventId;
    }
    assert y !in f && y in Dedup(ys);
    DedupKeepsIds(xs);
    forall x | x in Dedup(xs) ensures x.eventId != y.eventId {
      assert x.eventId == y.eventId ==> x == y;
    }
  }

  /** Two ids that tie are listed in the order in which they came. */
  lemma TiedIdsDoNotCommute(loc: Collator, a: EventRecord, b: EventRecord)
    requires a.eventId != b.eventId && CompareEvents(loc, a, b) == 0
    ensures Merge(loc, [a] + [b]) == [a, b] && Merge(loc, [b] + [a]) == [b, a]
  {
    TiedPair(loc, a, b);
    TiedPair(loc, b, a);
  }

  lemma TiedPair(loc: Collator, a: EventRecord, b: EventRecord)
    requires a.eventId != b.eventId && CompareEvents(loc, a, b) == 0
    ensures Merge(loc, [a] + [b]) == [a, b]
  {
    assert [a] + [b] == [a, b] && DistinctIds([a, b]);
    DedupFixesDistinct([a, b]);
    EventLeIsPreorder(loc);
    SortFixesSorted(EventLe(loc), [a, b]);
  }

  /** Such pairs exist: a collation that sees no difference between two ids is a total preorder. */
  lemma SomeMergesDoNotCommute()
    ensures exists loc: Collator, xs, ys :: DistinctIds(xs + ys) && Merge(loc, xs + ys) != Merge(loc, ys + xs)
  {
    var loc: Collator := (a: string, b: string) => 0;
    var a := EventRecord("a", "", None, None, None, "", None, None, None, Null);
    var b := a.(eventId := "b");
    TiedIdsDoNotCommute(loc, a, b);
    assert DistinctIds([a] + [b]);
  }

  /** In particular: with one record per id and no ties between ids the order does not matter. */
  lemma MergeCommutes(loc: Collator, xs: seq<EventRecord>, ys: seq<EventRecord>)
    requires Unambiguous(loc, xs + ys)
    ensures Merge(loc, xs + ys) == Merge(loc, ys + xs)
  {
    forall a ensures IsPrefix(Ties(loc, xs, a), Ties(loc, ys, a)) || IsPrefix(Ties(loc, ys, a), Ties(loc, xs, a)) {
      SingleTiesContinue(loc, xs, ys, a);
    }
    forall x, y | x in Dedup(xs) && y in Dedup(ys) && x.eventId == y.eventId ensures x == y {
      DedupMember(xs, x);
      DedupMember(ys, y);
    }
    MergeCommutesIff(loc, xs, ys);
  }

  lemma SingleTiesContinue(loc: Collator, xs: seq<EventRecord>, ys: seq<EventRecord>, a: EventRecord)
    requires Unambiguous(loc, xs + ys)
    ensures IsPrefix(Ties(loc, xs, a), Ties(loc, ys, a)) || IsPrefix(Ties(loc, ys, a), Ties(loc, xs, a))
  {
    var f, g := Ties(loc, xs, a), Ties(loc, ys, a);
    FewTies(loc, xs + ys, xs, a);
    FewTies(loc, xs + ys, ys, a);
    if f != [] && g != [] {
      assert f[0] in f && g[0] in g;
      TiedRecordsAreOne(loc, xs + ys, a, f[0], g[0]);
    }
    ShortPrefix(f, g);
  }

  lemma TiedRecordsAreOne(loc: Collator, all: seq<EventRecord>, a: EventRecord, x: EventRecord, y: EventRecord)
    requires Unambiguous(loc, all) && x in all && y in all
    requires TiedWith(EventLe(loc), a)(x) && TiedWith(EventLe(loc), a)(y)
    ensures x == y
  {
    TiedRecordsCompareEqual(loc, a, x, y);
  }

  lemma ShortPrefix<T>(xs: seq<T>, ys: seq<T>)
    requires |xs| <= 1 && |ys| <= 1 && (xs != [] && ys != [] ==> xs[0] == ys[0])
    ensures IsPrefix(xs, ys) || IsPrefix(ys, xs)
  {
  }

  lemma FewTies(loc: Collator, all: seq<EventRecord>, events: seq<EventRecord>, a: EventRecord)
    requires Unambiguous(loc, all) && forall e :: e in events ==> e in all
    ensures |Ties(loc, events, a)| <= 1
    ensures forall e :: e in Ties(loc, events, a) ==> e in all && TiedWith(EventLe(loc), a)(e)
  {
    KeptIsGiven(events);
    DedupIsDistinct(events);
    AtMostOneTies(loc, all, a, Dedup(events));
    TiesAreKept(loc, events, a);
  }

  lemma KeptIsGiven(events: seq<EventRecord>)
    ensures forall e :: e in Dedup(events) ==> e in events
  {
    forall e | e in Dedup(events) ensures e in events {
      DedupMember(events, e);
    }
  }

  /** Without ambiguity the result depends on nothing but the set of records. */
  lemma SameMembersMergeAlike(loc: Collator, xs: seq<EventRecord>, ys: seq<EventRecord>)
    requires Unambiguous(loc, xs) && forall e :: e in xs <==> e in ys
    ensures Merge(loc, xs) == Merge(loc, ys)
  {
    var le := EventLe(loc);
    EventLeIsPreorder(loc);
    DedupIsDistinct(xs);
    DedupIsDistinct(ys);
    forall e ensures e in Dedup(xs) <==> e in xs {
      UnambiguousDedup(loc, xs, e);
    }
    forall e ensures e in Dedup(ys) <==> e in ys {
      UnambiguousDedup(loc, ys, e);
    }
    forall a ensures Filter(TiedWith(le, a), Dedup(xs)) == Filter(TiedWith(le, a), Dedup(ys)) {
      AtMostOneTies(loc, xs, a, Dedup(xs));
      AtMostOneTies(loc, xs, a, Dedup(ys));
      SmallFiltersAgree(TiedWith(le, a), Dedup(xs), Dedup(ys));
    }
    SortRespectsTies(le, Dedup(xs), Dedup(ys));
  }

  lemma SmallFiltersAgree(p: EventRecord -> bool, xs: seq<EventRecord>, ys: seq<EventRecord>)
    requires forall x :: x in xs <==> x in ys
    requires |Filter(p, xs)| <= 1 && |Filter(p, ys)| <= 1
    ensures Filter(p, xs) == Filter(p, ys)
  {
    var f, g := Filter(p, xs), Filter(p, ys);
    if f != [] {
      FilterMember(p, xs, f[0]);
      FilterMember(p, ys, f[0]);
    } else if g != [] {
      FilterMember(p, xs, g[0]);
      FilterMember(p, ys, g[0]);
    }
  }

  lemma UnambiguousDedup(loc: Collator, events: seq<EventRecord>, e: EventRecord)
    requires Unambiguous(loc, events)
    ensures e in Dedup(events) <==> e in events
  {
    if e in Dedup(events) {
      DedupMember(events, e);
    }
    if e in events {
      var r := KeptRecord(events, e);
    }
  }

  lemma KeptRecord(events: seq<EventRecord>, e: EventRecord) returns (r: EventRecord)
    requires e in events
    ensures r in Dedup(events) && r in events && r.eventId == e.eventId
  {
    DedupKeepsIds(events);
    assert e.eventId in Ids(events);
    r :| r in Dedup(events) && r.eventId == e.eventId;
    DedupMember(events, r);
  }

  lemma DedupMember(events: seq<EventRecord>, e: EventRecord)
    requires e in Dedup(events)
    ensures e in events
  {
    DedupKeepsFirsts(events, e);
  }

  lemma AtMostOneTies(loc: Collator, all: seq<EventRecord>, a: EventRecord, kept: seq<EventRecord>)
    requires Unambiguous(loc, all) && DistinctIds(kept)
    requires forall x :: x in kept ==> x in all
    ensures |Filter(TiedWith(EventLe(loc), a), kept)| <= 1
  {
    var p := TiedWith(EventLe(loc), a);
    if exists k :: 0 <= k < |kept| && p(kept[k]) {
      var k :| 0 <= k < |kept| && p(kept[k]);
      OnlyOneTies(loc, all, a, kept, k);
      FilterAtMostOne(p, kept, k);
    } else {
      FilterKeepsNone(p, kept);
    }
  }

  lemma OnlyOneTies(loc: Collator, all: seq<EventRecord>, a: EventRecord,
                    kept: seq<EventRecord>, k: nat)
    requires Unambiguous(loc, all) && DistinctIds(kept)
    requires forall x :: x in kept ==> x in all
    requires k < |kept| && TiedWith(EventLe(loc), a)(kept[k])
    ensures forall l :: 0 <= l < |kept| && l != k ==> !TiedWith(EventLe(loc), a)(kept[l])
  {
    forall l | 0 <= l < |kept| && l != k ensures !TiedWith(EventLe(loc), a)(kept[l]) {
      assert kept[l].eventId != kept[k].eventId;
      assert kept[k] in all && kept[l] in all;
      if TiedWith(EventLe(loc), a)(kept[l]) {
        TiedRecordsCompareEqual(loc, a, kept[k], kept[l]);
        assert false;
      }
    }
  }

  lemma FilterAtMostOne<T>(p: T -> bool, xs: seq<T>, k: nat)
    requires k < |xs| && forall l :: 0 <= l < |xs| && l != k ==> !p(xs[l])
    ensures |Filter(p, xs)| <= 1
  {
    var front, back := xs[..k], xs[k + 1..];
    assert xs == front + [xs[k]] + back;
    FilterAppend(p, front + [xs[k]], back);
    FilterAppend(p, front, [xs[k]]);
    FilterKeepsNone(p, front);
    FilterKeepsNone(p, back);
  }

  lemma TiedRecordsCompareEqual(loc: Collator, a: EventRecord, x: EventRecord, y: EventRecord)
    requires TiedWith(EventLe(loc), a)(x) && TiedWith(EventLe(loc), a)(y)
    ensures CompareEvents(loc, x, y) == 0
  {
    EventLeIsPreorder(loc);
    assert EventLe(loc)(x, y) && EventLe(loc)(y, x);
  }
}
