/** Event records as the dashboard receives them, and the order it shows them in. */
module Events {
  import opened Sequences
  import opened StableSort

  /** A decoded JSON value. Decoding itself is not part of this model. */
  datatype Json =
    | Null
    | Bool(b: bool)
    | Number(n: real)
    | Text(s: string)
    | Array(items: seq<Json>)
    | Object(fields: map<string, Json>)

  /** The fields of an EventRecord that the modelled code reads. */
  datatype EventRecord = EventRecord(
    eventId: string,
    timestamp: string,
    threadId: Option<string>,
    turnId: Option<string>,
    requestId: Option<string>,
    category: string,
    eventType: Option<string>,
    commandCallId: Option<string>,
    toolCallId: Option<string>,
    payload: Json)

  /**
   What is known about `localeCompare`: its sign orders strings as a total preorder.
   Distinct strings may compare equal.
   */
  ghost predicate OrdersStrings(compare: (string, string) -> int) {
    && (forall a, b :: compare(a, b) < 0 <==> compare(b, a) > 0)
    && (forall a, b, c :: compare(a, b) <= 0 && compare(b, c) <= 0 ==> compare(a, c) <= 0)
  }

  type Collator = c: (string, string) -> int | OrdersStrings(c)
    witness (a: string, b: string) => 0

  function CompareEvents(loc: Collator, left: EventRecord, right: EventRecord): int {
    var timestampOrder := loc(left.timestamp, right.timestamp);
    if timestampOrder != 0 then timestampOrder else loc(left.eventId, right.eventId)
  }

  /** The order compareEvents induces, as the sort uses it. */
  function EventLe(loc: Collator): (EventRecord, EventRecord) -> bool {
    (a, b) => CompareEvents(loc, a, b) <= 0
  }

  lemma EventLeIsPreorder(loc: Collator)
    ensures TotalPreorder(EventLe(loc))
  {
    var le := EventLe(loc);
    forall a, b ensures le(a, b) || le(b, a) {
    }
    forall a, b, c | le(a, b) && le(b, c) ensures le(a, c) {
      assert loc(a.timestamp, b.timestamp) <= 0 && loc(b.timestamp, c.timestamp) <= 0;
      assert loc(a.timestamp, c.timestamp) == 0 ==> loc(c.timestamp, a.timestamp) == 0;
      if loc(a.timestamp, c.timestamp) == 0 {
        assert loc(b.timestamp, a.timestamp) <= 0 && loc(c.timestamp, b.timestamp) <= 0;
        assert loc(a.eventId, b.eventId) <= 0 && loc(b.eventId, c.eventId) <= 0;
      }
    }
  }

  ghost function Ids(events: seq<EventRecord>): set<string> {
    set e | e in events :: e.eventId
  }

  lemma IdsAppend(xs: seq<EventRecord>, ys: seq<EventRecord>)
    ensures Ids(xs + ys) == Ids(xs) + Ids(ys)
  {
    forall id ensures id in Ids(xs + ys) <==> id in Ids(xs) + Ids(ys) {
      if id in Ids(xs + ys) {
        var e :| e in xs + ys && e.eventId == id;
        assert e in xs || e in ys;
      }
      if id in Ids(xs) {
        var e :| e in xs && e.eventId == id;
        assert e in xs + ys;
      }
      if id in Ids(ys) {
        var e :| e in ys && e.eventId == id;
        assert e in xs + ys;
      }
    }
  }

  lemma IdsOneMore(events: seq<EventRecord>, e: EventRecord)
    ensures Ids(events + [e]) == Ids(events) + {e.eventId}
  {
    IdsAppend(events, [e]);
    assert Ids([e]) == {e.eventId};
  }

  ghost predicate DistinctIds(events: seq<EventRecord>) {
    forall i, j :: 0 <= i < j < |events| ==> events[i].eventId != events[j].eventId
  }

  /** record is the first one in events that carries its id. */
  ghost predicate IsFirstOfItsId(events: seq<EventRecord>, record: EventRecord) {
    exists k :: 0 <= k < |events| && events[k] == record
             && forall j :: 0 <= j < k ==> events[j].eventId != record.eventId
  }
}
