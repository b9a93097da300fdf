/**
 useSessionHistory as an object: refs, state and the module-level cache updated in place. Every
 method takes the model of SessionHistory through one of its actions.
 */
module HistoryHook {
  import opened Sequences
  import opened Events
  import opened SessionMerge
  import opened LiveView
  import opened SessionHistory

  class HistoryHook {
    const loc: Collator
    var historyCache: map<string, seq<EventRecord>>
    var eventsRef: seq<EventRecord>
    var refreshCounter: nat
    var state: ThreadState
    var threadProp: Option<string>
    var effects: seq<Effect>
    ghost var commits: seq<Commit>
    ghost var mounted: nat

    ghost function Model(): Hook
      reads this
    {
      Hook(historyCache, eventsRef, refreshCounter, state, threadProp, effects, commits, mounted)
    }

    constructor (loc: Collator)
      ensures Model() == INITIAL_HOOK && this.loc == loc
    {
      this.loc := loc;
      historyCache, eventsRef, refreshCounter, state := map[], [], 0, INITIAL_STATE;
      threadProp, effects, commits, mounted := None, [], [], 0;
    }

    method SameIds(left: seq<EventRecord>, right: seq<EventRecord>) returns (same: bool)
      ensures same <==> SameEventIds(left, right)
      ensures same <==> |left| == |right| && forall k :: 0 <= k < |left| ==> left[k].eventId == right[k].eventId
    {
      if |left| != |right| {
        return false;
      }
      for i := 0 to |left|
        invariant forall j :: 0 <= j < i ==> left[j].eventId == right[j].eventId
      {
        if left[i].eventId != right[i].eventId {
          return false;
        }
      }
      return true;
    }

    method CommitEvents(threadId: string, next: seq<EventRecord>, status: Status)
      modifies this
      ensures Model() == UpdateEvents(old(Model()), threadId, next, status)
    {
      var previous: seq<EventRecord> := [];
      if state.threadId == Some(threadId) {
        previous := state.events;
      } else if threadId in historyCache {
        previous := historyCache[threadId];
      }
      var same := SameIds(previous, next);
      var refreshKey := state.refreshKey;
      if !same {
        refreshCounter := refreshCounter + 1;
        refreshKey := refreshCounter;
      }
      eventsRef := next;
      if |next| > 0 {
        historyCache := historyCache[threadId := next];
      } else {
        historyCache := historyCache - {threadId};
      }
      state := ThreadState(Some(threadId), next, status, refreshKey);
      commits := commits + [Commit(threadId, next)];
    }

    method CleanUp()
      modifies this`effects
      ensures effects == Leave(old(effects))
    {
      if |effects| > 0 {
        effects := effects[|effects| - 1 := effects[|effects| - 1].(cancelled := true)];
      }
    }

    /** Cleanup of the effect being left, then the effect body for the new thread. */
    method RunEffect(threadId: Option<string>)
      modifies this
      ensures Model() == Enter(old(Model()), threadId)
    {
      CleanUp();
      threadProp := threadId;
      if threadId == None || threadId == Some("") {
        eventsRef := [];
        return;
      }
      var cachedEvents := if threadId.value in historyCache then historyCache[threadId.value] else [];
      eventsRef := cachedEvents;
      effects := effects + [Effect(threadId.value, cachedEvents, [], false, false)];
    }

    method SelectThread(threadId: Option<string>)
      requires threadId != threadProp
      modifies this
      ensures Model() == Apply(loc, old(Model()), Select(threadId))
    {
      RunEffect(threadId);
    }

    /** Unmount, then mount again: the refs and the state start over, the cache stays. */
    method Remount(threadId: Option<string>)
      modifies this
      ensures Model() == Apply(loc, old(Model()), Mount(threadId))
    {
      refreshCounter, state, mounted := 0, INITIAL_STATE, |commits|;
      RunEffect(threadId);
    }

    method OnEvent(i: nat, event: EventRecord)
      requires i < |effects|
      modifies this
      ensures Model() == Apply(loc, old(Model()), Invoke(i, Live(event)))
    {
      var e := effects[i];
      effects := effects[i := e.(buffered := e.buffered + [event])];
      if !e.handoffComplete {
        return;
      }
      var merged := MergeTwo(eventsRef, [event]);
      CommitEvents(e.threadId, merged, Ready);
    }

    method OnParseError(i: nat)
      requires i < |effects|
      modifies this
      ensures Model() == Apply(loc, old(Model()), Invoke(i, ParseError))
    {
      var e := effects[i];
      if e.cancelled {
        return;
      }
      var merged := MergeTwo(eventsRef, e.buffered);
      assert effects[i := e] == effects;
      CommitEvents(e.threadId, merged, Failed);
    }

    /** The load settled with these pages when `arrived` events had been buffered. */
    method BackfillLoaded(i: nat, persisted: seq<EventRecord>, arrived: nat)
      requires i < |effects| && CanFollow(View(effects[i], eventsRef), Loaded(persisted, arrived))
      modifies this
      ensures Model() == Apply(loc, old(Model()), Invoke(i, Loaded(persisted, arrived)))
    {
      var e := effects[i];
      if e.cancelled {
        return;
      }
      var events := MergeTwo(persisted, e.buffered[..arrived]);
      effects := effects[i := e.(handoffComplete := true)];
      var collections := [e.cached, events, e.buffered];
      FlattenThree(collections);
      var merged := MergeSessionEvents(loc, collections);
      CommitEvents(e.threadId, merged, Ready);
    }

    method BackfillFailed(i: nat)
      requires i < |effects| && !effects[i].handoffComplete
      modifies this
      ensures Model() == Apply(loc, old(Model()), Invoke(i, LoadFailed))
    {
      var e := effects[i];
      if e.cancelled {
        return;
      }
      effects := effects[i := e.(handoffComplete := true)];
      var merged := MergeTwo(e.cached, e.buffered);
      CommitEvents(e.threadId, merged, Failed);
    }

    method MergeTwo(left: seq<EventRecord>, right: seq<EventRecord>) returns (merged: seq<EventRecord>)
      ensures merged == Merge(loc, left + right)
    {
      var collections := [left, right];
      FlattenTwo(collections);
      merged := MergeSessionEvents(loc, collections);
    }
  }
}
