/** The broker's replay ring as a window on everything ever published. */
module Ring {
  import opened Events

  /** Append, then drop from the front down to the capacity. */
  function PushRing(ring: seq<EventRecord>, cap: nat, ev: EventRecord): seq<EventRecord> {
    var longer := ring + [ev];
    if |longer| > cap then longer[|longer| - cap..] else longer
  }

  /** Everything in the ring after the first event with the given id; "" asks for no replay. */
  function ReplayAfter(ring: seq<EventRecord>, after: string): seq<EventRecord> {
    if after == "" || ring == [] then []
    else if ring[0].eventId == after then ring[1..]
    else ReplayAfter(ring[1..], after)
  }

  /** The last `cap` events of the log, or all of them. */
  function Window(log: seq<EventRecord>, cap: nat): seq<EventRecord> {
    if |log| > cap then log[|log| - cap..] else log
  }

  /** The ring refines the unbounded log. */
  lemma PushRefinesLog(log: seq<EventRecord>, cap: nat, ev: EventRecord)
    ensures PushRing(Window(log, cap), cap, ev) == Window(log + [ev], cap)
  {
  }

  lemma {:induction false} ReplayFromPosition(ring: seq<EventRecord>, k: nat)
    requires DistinctIds(ring) && k < |ring| && ring[k].eventId != ""
    ensures ReplayAfter(ring, ring[k].eventId) == ring[k + 1..]
  {
    if k > 0 {
      ReplayFromPosition(ring[1..], k - 1);
    }
  }

  lemma {:induction false} ReplayOfUnknown(ring: seq<EventRecord>, after: string)
    requires after !in Ids(ring)
    ensures ReplayAfter(ring, after) == []
  {
    if ring != [] {
      assert ring[0] in ring;
      forall id ensures id in Ids(ring[1..]) ==> id in Ids(ring) {
      }
      ReplayOfUnknown(ring[1..], after);
    }
  }

  /** A replay is what follows some position of the ring. */
  lemma {:induction false} ReplayIsSuffix(ring: seq<EventRecord>, after: string) returns (a: nat)
    ensures a <= |ring| && ReplayAfter(ring, after) == ring[a..]
  {
    if after == "" || ring == [] {
      a := |ring|;
    } else if ring[0].eventId == after {
      a := 1;
    } else {
      var b := ReplayIsSuffix(ring[1..], after);
      a := b + 1;
      assert ring[1..][b..] == ring[a..];
    }
  }

  ghost predicate Publishable(log: seq<EventRecord>) {
    DistinctIds(log) && forall e :: e in log ==> e.eventId != ""
  }

  /** Replay from log position i is the whole rest of the log while i is in the window, else nothing. */
  lemma ReplayFromLog(log: seq<EventRecord>, cap: nat, i: nat)
    requires Publishable(log) && i < |log|
    ensures ReplayAfter(Window(log, cap), log[i].eventId) == if |log| - i <= cap then log[i + 1..] else []
  {
    var ring := Window(log, cap);
    var first := |log| - |ring|;
    assert ring == log[first..];
    if |log| - i <= cap {
      ReplayFromPosition(ring, i - first);
      assert ring[i - first + 1..] == log[i + 1..];
    } else {
      forall e | e in ring ensures e.eventId != log[i].eventId {
        var k :| 0 <= k < |ring| && ring[k] == e;
        assert log[first + k] == e;
      }
      ReplayOfUnknown(ring, log[i].eventId);
    }
  }

  /**
   A client received log[a..b] without a gap, lost its connection, and resumes after its last
   event once the log has grown to its present length: what it has then continues without gap or
   duplicate exactly when its last event is still in the ring.
   */
  lemma ResumeIsSeamless(log: seq<EventRecord>, cap: nat, a: nat, b: nat)
    requires Publishable(log) && cap >= 1 && a < b <= |log|
    ensures log[a..b] + ReplayAfter(Window(log, cap), log[b - 1].eventId) == log[a..] <==> |log| - b < cap
  {
    var replay := ReplayAfter(Window(log, cap), log[b - 1].eventId);
    ReplayFromLog(log, cap, b - 1);
    assert replay == if |log| - b < cap then log[b..] else [];
    PiecesMeet(log, a, b);
  }

  lemma PiecesMeet<T>(log: seq<T>, a: nat, b: nat)
    requires a <= b <= |log|
    ensures log[a..b] + log[b..] == log[a..]
    ensures log[a..b] + [] == log[a..] <==> b == |log|
  {
    assert |log[a..b] + []| == b - a && |log[a..]| == |log| - a;
    if b == |log| {
      assert log[a..b] + [] == log[a..];
    }
  }
}
