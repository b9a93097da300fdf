/**
 useSessionHistory as a whole: thread switches, remounts, the module-level history cache, the
 refresh counter, and the effects that were left but whose promises may still settle. Each
 updateEvents call is one atomic step, as React runs one state updater at a time.
 */
module SessionHistory {
  import opened Sequences
  import opened StableSort
  import opened Events
  import opened SessionMerge
  import opened LiveView

  datatype Status = Idle | Loading | Ready | Failed

  datatype ThreadState = ThreadState(
    threadId: Option<string>,
    events: seq<EventRecord>,
    status: Status,
    refreshKey: nat)

  /** A list handed to updateEvents for a thread. */
  datatype Commit = Commit(threadId: string, events: seq<EventRecord>)

  /**
   `commits` records every updateEvents call and `mounted` how many happened before the hook was
   last mounted; the program keeps neither.
   */
  datatype Hook = Hook(
    cache: map<string, seq<EventRecord>>,
    eventsRef: seq<EventRecord>,
    refreshCounter: nat,
    state: ThreadState,
    threadProp: Option<string>,
    effects: seq<Effect>,
    commits: seq<Commit>,
    mounted: nat)

  datatype Action =
    | Select(threadId: Option<string>)
    | Mount(threadId: Option<string>)
    | Invoke(effect: nat, callback: Callback)

  const INITIAL_STATE := ThreadState(None, [], Idle, 0)
  const INITIAL_HOOK := Hook(map[], [], 0, INITIAL_STATE, None, [], [], 0)

  function CachedEvents(cache: map<string, seq<EventRecord>>, threadId: string): seq<EventRecord> {
    if threadId in cache then cache[threadId] else []
  }

  predicate SameEventIds(left: seq<EventRecord>, right: seq<EventRecord>) {
    |left| == |right| && forall i :: 0 <= i < |left| ==> left[i].eventId == right[i].eventId
  }

  /** null and the empty string both count as no thread. */
  predicate HasThread(threadId: Option<string>) {
    threadId.Some? && threadId.value != ""
  }

  function UpdateEvents(h: Hook, threadId: string, next: seq<EventRecord>, status: Status): Hook {
    var previous := if h.state.threadId == Some(threadId) then h.state.events else CachedEvents(h.cache, threadId);
    var changed := !SameEventIds(previous, next);
    var counter := if changed then h.refreshCounter + 1 else h.refreshCounter;
    h.(
      refreshCounter := counter,
      eventsRef := next,
      cache := if next != [] then h.cache[threadId := next] else h.cache - {threadId},
      state := ThreadState(Some(threadId), next, status, if changed then counter else h.state.refreshKey),
      commits := h.commits + [Commit(threadId, next)])
  }

  function Leave(effects: seq<Effect>): seq<Effect> {
    if effects == [] then []
    else effects[|effects| - 1 := effects[|effects| - 1].(cancelled := true)]
  }

  /** Clean up the effect being left, then run the effect for the new thread. */
  function Enter(h: Hook, threadId: Option<string>): Hook {
    var left := Leave(h.effects);
    if !HasThread(threadId) then
      h.(threadProp := threadId, effects := left, eventsRef := [])
    else
      var view := Open(threadId.value, CachedEvents(h.cache, threadId.value));
      h.(threadProp := threadId, effects := left + [view.effect], eventsRef := view.shown)
  }

  /** The status a callback commits with. */
  function StatusOf(c: Callback): Status {
    if c.Live? || c.Loaded? then Ready else Failed
  }

  /** Settled promises and parse errors of a left effect return at once; onEvent has no such guard. */
  predicate Ignored(e: Effect, c: Callback) {
    e.cancelled && !c.Live?
  }

  predicate Possible(h: Hook, a: Action) {
    match a
    case Select(threadId) => threadId != h.threadProp
    case Mount(_) => true
    case Invoke(i, c) => i < |h.effects| && CanFollow(View(h.effects[i], h.eventsRef), c)
  }

  /** The stream delivers nothing to an effect after its unsubscribe function has run. */
  predicate StreamHonoursUnsubscribe(h: Hook, a: Action) {
    a.Invoke? && a.effect < |h.effects| && h.effects[a.effect].cancelled ==> !a.callback.Live?
  }

  function Apply(loc: Collator, h: Hook, a: Action): Hook
    requires Possible(h, a)
  {
    match a
    case Select(threadId) => Enter(h, threadId)
    case Mount(threadId) =>
      Enter(h.(refreshCounter := 0, state := INITIAL_STATE, mounted := |h.commits|), threadId)
    case Invoke(i, c) =>
      var e := h.effects[i];
      if Ignored(e, c) then h
      else
        var next := Update(loc, View(e, h.eventsRef), c);
        var stepped := h.(effects := h.effects[i := NextEffect(e, c)]);
        if next.Some? then UpdateEvents(stepped, e.threadId, next.value, StatusOf(c)) else stepped
  }

  predicate ValidRun(loc: Collator, h: Hook, actions: seq<Action>)
    decreases |actions|, 0
  {
    if actions == [] then true
    else
      var front, last := actions[..|actions| - 1], actions[|actions| - 1];
      && ValidRun(loc, h, front)
      && Possible(Run(loc, h, front), last)
      && StreamHonoursUnsubscribe(Run(loc, h, front), last)
  }

  function Run(loc: Collator, h: Hook, actions: seq<Action>): Hook
    requires ValidRun(loc, h, actions)
    decreases |actions|, 1
  {
    if actions == [] then h
    else Apply(loc, Run(loc, h, actions[..|actions| - 1]), actions[|actions| - 1])
  }

  /** What the component renders. */
  function Visible(h: Hook): seq<EventRecord> {
    if h.state.threadId == h.threadProp then h.state.events
    else if HasThread(h.threadProp) then CachedEvents(h.cache, h.threadProp.value)
    else []
  }

  /** The last list committed for a thread; empty if there is none. */
  function LastCommitted(commits: seq<Commit>, threadId: string): seq<EventRecord> {
    if commits == [] then []
    else
      var last := commits[|commits| - 1];
      if last.threadId == threadId then last.events else LastCommitted(commits[..|commits| - 1], threadId)
  }

  /** How many commits from position `from` on changed the id sequence of their thread. */
  function Changes(commits: seq<Commit>, from: nat): nat {
    if |commits| <= from then 0
    else
      var front, last := commits[..|commits| - 1], commits[|commits| - 1];
      Changes(front, from) + if SameEventIds(LastCommitted(front, last.threadId), last.events) then 0 else 1
  }

  /** The thread on screen, if there is one, is served by the last effect; all others were left. */
  ghost predicate EffectsInOrder(h: Hook) {
    && (forall i :: 0 <= i < |h.effects| - 1 ==> h.effects[i].cancelled)
    && (HasThread(h.threadProp) ==>
          && h.effects != []
          && !h.effects[|h.effects| - 1].cancelled
          && h.effects[|h.effects| - 1].threadId == h.threadProp.value
          && h.eventsRef == CachedEvents(h.cache, h.threadProp.value))
    && (!HasThread(h.threadProp) ==> forall i :: 0 <= i < |h.effects| ==> h.effects[i].cancelled)
  }

  ghost predicate Consistent(h: Hook) {
    && (forall t :: CachedEvents(h.cache, t) == LastCommitted(h.commits, t))
    && (h.state.threadId.Some? ==> h.state.events == CachedEvents(h.cache, h.state.threadId.value))
    && (h.state.threadId.None? ==> h.state.events == [])
    && h.mounted <= |h.commits|
    && h.state.refreshKey == h.refreshCounter == Changes(h.commits, h.mounted)
    && EffectsInOrder(h)
  }

  lemma UpdateKeepsTables(h: Hook, threadId: string, next: seq<EventRecord>, status: Status)
    requires Consistent(h.(effects := [], threadProp := None))
    ensures var h' := UpdateEvents(h, threadId, next, status);
      && Consistent(h'.(effects := [], threadProp := None))
      && h'.eventsRef == next == CachedEvents(h'.cache, threadId)
      && h'.effects == h.effects && h'.threadProp == h.threadProp
  {
    var h' := UpdateEvents(h, threadId, next, status);
    assert h'.commits[..|h.commits|] == h.commits;
    forall t ensures CachedEvents(h'.cache, t) == LastCommitted(h'.commits, t) {
      assert CachedEvents(h.cache, t) == LastCommitted(h.commits, t);
    }
    assert CachedEvents(h.cache, threadId) == LastCommitted(h.commits, threadId);
  }

  lemma EnterKeepsConsistent(h: Hook, threadId: Option<string>)
    requires Consistent(h)
    ensures Consistent(Enter(h, threadId))
  {
    var h' := Enter(h, threadId);
    assert forall i :: 0 <= i < |h.effects| ==> Leave(h.effects)[i].cancelled;
  }

  lemma ApplyKeepsConsistent(loc: Collator, h: Hook, a: Action)
    requires Consistent(h) && Possible(h, a) && StreamHonoursUnsubscribe(h, a)
    ensures Consistent(Apply(loc, h, a))
  {
    match a {
      case Select(threadId) => EnterKeepsConsistent(h, threadId);
      case Mount(threadId) =>
        EnterKeepsConsistent(h.(refreshCounter := 0, state := INITIAL_STATE, mounted := |h.commits|), threadId);
      case Invoke(i, c) =>
        if !Ignored(h.effects[i], c) {
          ServedInvokeKeepsConsistent(loc, h, i, c);
        }
    }
  }

  lemma ServedInvokeKeepsConsistent(loc: Collator, h: Hook, i: nat, c: Callback)
    requires Consistent(h) && Possible(h, Invoke(i, c)) && !h.effects[i].cancelled && !Ignored(h.effects[i], c)
    ensures Consistent(Apply(loc, h, Invoke(i, c)))
  {
    var e := h.effects[i];
    assert i == |h.effects| - 1;
    var next := Update(loc, View(e, h.eventsRef), c);
    var stepped := h.(effects := h.effects[i := NextEffect(e, c)]);
    if next.Some? {
      UpdateKeepsTables(stepped, e.threadId, next.value, StatusOf(c));
    }
  }

  /**
   Over every run of switches, remounts, live events, parse errors, backfill results and
   failures: each cache entry is the last list committed for its thread, the component shows
   exactly that list for the thread on screen, and refreshKey counts the commits since the mount
   that changed their thread's id sequence.
   */
  lemma {:induction false} EveryRunIsConsistent(loc: Collator, actions: seq<Action>)
    requires ValidRun(loc, INITIAL_HOOK, actions)
    ensures var h := Run(loc, INITIAL_HOOK, actions);
      && Consistent(h)
      && Visible(h) == (if HasThread(h.threadProp) then LastCommitted(h.commits, h.threadProp.value) else [])
      && h.state.refreshKey == Changes(h.commits, h.mounted)
  {
    if actions != [] {
      EveryRunIsConsistent(loc, actions[..|actions| - 1]);
      ApplyKeepsConsistent(loc, Run(loc, INITIAL_HOOK, actions[..|actions| - 1]), actions[|actions| - 1]);
    }
    var h := Run(loc, INITIAL_HOOK, actions);
    NoEmptyThreadCommitted(loc, actions);
  }

  ghost predicate NamesRealThreads(h: Hook) {
    && (forall i :: 0 <= i < |h.effects| ==> h.effects[i].threadId != "")
    && h.state.threadId != Some("")
  }

  lemma ApplyNamesRealThreads(loc: Collator, h: Hook, a: Action)
    requires NamesRealThreads(h) && Possible(h, a)
    ensures NamesRealThreads(Apply(loc, h, a))
  {
    if a.Invoke? {
      assert NextEffect(h.effects[a.effect], a.callback).threadId == h.effects[a.effect].threadId;
    } else {
      assert forall i :: 0 <= i < |h.effects| ==> Leave(h.effects)[i].threadId == h.effects[i].threadId;
    }
  }

  lemma {:induction false} NoEmptyThreadCommitted(loc: Collator, actions: seq<Action>)
    requires ValidRun(loc, INITIAL_HOOK, actions)
    ensures NamesRealThreads(Run(loc, INITIAL_HOOK, actions))
  {
    if actions != [] {
      var front := actions[..|actions| - 1];
      NoEmptyThreadCommitted(loc, front);
      ApplyNamesRealThreads(loc, Run(loc, INITIAL_HOOK, front), actions[|actions| - 1]);
    }
  }

  /**
   In every reachable state, whatever settles for a thread that was left changes nothing:
   neither the cache nor the list on screen nor the refresh key.
   */
  lemma LeftThreadIsInert(loc: Collator, actions: seq<Action>, i: nat, c: Callback)
    requires ValidRun(loc, INITIAL_HOOK, actions)
    requires var h := Run(loc, INITIAL_HOOK, actions);
      && Possible(h, Invoke(i, c)) && StreamHonoursUnsubscribe(h, Invoke(i, c))
      && (i < |h.effects| - 1 || !HasThread(h.threadProp))
    ensures var h := Run(loc, INITIAL_HOOK, actions); Apply(loc, h, Invoke(i, c)) == h
  {
    EveryRunIsConsistent(loc, actions);
  }

  /** The callbacks of a run that reach effect i. */
  function CallbacksOf(actions: seq<Action>, i: nat): seq<Callback> {
    if actions == [] then []
    else
      var last := actions[|actions| - 1];
      CallbacksOf(actions[..|actions| - 1], i)
        + if last.Invoke? && last.effect == i then [last.callback] else []
  }

  /** Effect i serves thread t, which is on screen, and has seen the callbacks cs. */
  ghost predicate Serves(loc: Collator, h: Hook, t: string, i: nat, cached: seq<EventRecord>, cs: seq<Callback>) {
    && Consistent(h) && h.threadProp == Some(t) && t != "" && |h.effects| == i + 1
    && ValidCallbacks(loc, Open(t, cached), cs)
    && View(h.effects[i], h.eventsRef) == FollowAll(loc, Open(t, cached), cs)
  }

  lemma SwitchServes(loc: Collator, h: Hook, t: string)
    requires Consistent(h) && t != "" && Possible(h, Select(Some(t)))
    ensures Serves(loc, Apply(loc, h, Select(Some(t))), t, |h.effects|, LastCommitted(h.commits, t), [])
  {
    ApplyKeepsConsistent(loc, h, Select(Some(t)));
  }

  lemma InvokeServes(loc: Collator, h: Hook, t: string, i: nat, cached: seq<EventRecord>, cs: seq<Callback>, a: Action)
    requires Serves(loc, h, t, i, cached, cs)
    requires a.Invoke? && Possible(h, a) && StreamHonoursUnsubscribe(h, a)
    ensures Serves(loc, Apply(loc, h, a), t, i, cached, if a.effect == i then cs + [a.callback] else cs)
  {
    ApplyKeepsConsistent(loc, h, a);
    if a.effect == i {
      var longer := cs + [a.callback];
      assert longer[..|cs|] == cs;
      var v := View(h.effects[i], h.eventsRef);
      var next := Update(loc, v, a.callback);
      var stepped := h.(effects := h.effects[i := NextEffect(v.effect, a.callback)]);
      if next.Some? {
        UpdateKeepsTables(stepped, v.effect.threadId, next.value, StatusOf(a.callback));
      }
    } else {
      assert Apply(loc, h, a) == h;
    }
  }

  /**
   From a switch to thread t until the next switch, whatever the left effects do meanwhile, the
   screen shows the one-shot merge of t's cache, t's pages and t's live events.
   */
  lemma OpenThreadShowsOneShotMerge(loc: Collator, before: seq<Action>, t: string, after: seq<Action>)
    requires ValidRun(loc, INITIAL_HOOK, before + [Select(Some(t))] + after)
    requires t != "" && forall k :: 0 <= k < |after| ==> after[k].Invoke?
    ensures ValidRun(loc, INITIAL_HOOK, before)
    ensures var h, h0 := Run(loc, INITIAL_HOOK, before + [Select(Some(t))] + after), Run(loc, INITIAL_HOOK, before);
      Visible(h) == OneShot(loc, LastCommitted(h0.commits, t), CallbacksOf(after, |h0.effects|))
  {
    OpenThreadIsServed(loc, before, t, after);
    var h0 := Run(loc, INITIAL_HOOK, before);
    var i, cached := |h0.effects|, LastCommitted(h0.commits, t);
    LiveViewRefinesOneShotMerge(loc, t, cached, CallbacksOf(after, i));
    EveryRunIsConsistent(loc, before + [Select(Some(t))] + after);
  }

  lemma {:induction false} OpenThreadIsServed(loc: Collator, before: seq<Action>, t: string, after: seq<Action>)
    requires ValidRun(loc, INITIAL_HOOK, before + [Select(Some(t))] + after)
    requires t != "" && forall k :: 0 <= k < |after| ==> after[k].Invoke?
    ensures ValidRun(loc, INITIAL_HOOK, before)
    ensures var h, h0 := Run(loc, INITIAL_HOOK, before + [Select(Some(t))] + after), Run(loc, INITIAL_HOOK, before);
      var i := |h0.effects|;
      Serves(loc, h, t, i, LastCommitted(h0.commits, t), CallbacksOf(after, i))
  {
    var entered := before + [Select(Some(t))];
    if after == [] {
      assert entered + after == entered && entered[..|entered| - 1] == before;
      EveryRunIsConsistent(loc, before);
      SwitchServes(loc, Run(loc, INITIAL_HOOK, before), t);
    } else {
      var front, last := after[..|after| - 1], after[|after| - 1];
      assert (entered + after)[..|entered + after| - 1] == entered + front;
      OpenThreadIsServed(loc, before, t, front);
      var h0 := Run(loc, INITIAL_HOOK, before);
      var i := |h0.effects|;
      InvokeServes(loc, Run(loc, INITIAL_HOOK, entered + front), t, i, LastCommitted(h0.commits, t), CallbacksOf(front, i), last);
      assert CallbacksOf(front, i) + [] == CallbacksOf(front, i);
    }
  }

  /** An effect that was not left commits with these statuses; a live event before the handoff commits nothing. */
  lemma StatusShown(loc: Collator, h: Hook, i: nat, c: Callback)
    requires Possible(h, Invoke(i, c)) && !h.effects[i].cancelled
    ensures var status := Apply(loc, h, Invoke(i, c)).state.status;
      match c
      case Live(_) => status == if h.effects[i].handoffComplete then Ready else h.state.status
      case ParseError => status == Failed
      case Loaded(_, _) => status == Ready
      case LoadFailed => status == Failed
  {
  }

  // ----- what a delivery after unsubscribe would do

  /** onEvent guards on handoffComplete alone: a live event leaves the cache alone exactly before the handoff. */
  lemma LiveEventKeepsCacheIff(loc: Collator, h: Hook, i: nat)
    requires i < |h.effects|
    ensures (forall ev :: Apply(loc, h, Invoke(i, Live(ev))).cache == h.cache) <==> !h.effects[i].handoffComplete
  {
    if h.effects[i].handoffComplete {
      var ev := NewEvent(CachedEvents(h.cache, h.effects[i].threadId));
      LiveEventIsCached(loc, h, i, ev);
      assert Apply(loc, h, Invoke(i, Live(ev))).cache != h.cache;
    }
  }

  lemma LiveEventIsCached(loc: Collator, h: Hook, i: nat, ev: EventRecord)
    requires i < |h.effects| && h.effects[i].handoffComplete
    ensures var t := h.effects[i].threadId;
      CachedEvents(Apply(loc, h, Invoke(i, Live(ev))).cache, t) == Merge(loc, h.eventsRef + [ev])
    ensures ev.eventId in Ids(Merge(loc, h.eventsRef + [ev]))
  {
    MergeMeetsItsPromise(loc, h.eventsRef + [ev]);
    assert ev in h.eventsRef + [ev];
    assert ev.eventId in Ids(Merge(loc, h.eventsRef + [ev]));
  }

  /** An event whose id is longer than all of the given ones. */
  lemma {:induction false} NewEvent(events: seq<EventRecord>) returns (ev: EventRecord)
    ensures ev.eventId != "" && forall e :: e in events ==> |e.eventId| < |ev.eventId|
    ensures ev.eventId !in Ids(events)
  {
    if events == [] {
      ev := EventRecord("e", "", None, None, None, "", None, None, None, Null);
    } else {
      var shorter := NewEvent(events[1..]);
      ev := shorter.(eventId := shorter.eventId + events[0].eventId);
    }
  }

  /** Thread "a" is opened and its empty history loaded; then thread "b", with one event. */
  function TwoThreads(other: EventRecord): seq<Action> {
    [Select(Some("a")), Invoke(0, Loaded([], 0)), Select(Some("b")), Invoke(1, Loaded([other], 0))]
  }

  /** Where these actions lead, after each of them. */
  function Reached(other: EventRecord, n: nat): Hook {
    var a := Effect("a", [], [], false, false);
    var b := Effect("b", [], [], false, false);
    var done := a.(handoffComplete := true);
    if n == 0 then INITIAL_HOOK
    else if n == 1 then INITIAL_HOOK.(threadProp := Some("a"), effects := [a])
    else
      var loaded := INITIAL_HOOK.(threadProp := Some("a"), effects := [done], commits := [Commit("a", [])],
                                  state := ThreadState(Some("a"), [], Ready, 0));
      var switched := loaded.(threadProp := Some("b"), effects := [done.(cancelled := true), b]);
      if n == 2 then loaded
      else if n == 3 then switched
      else switched.(cache := map["b" := [other]], eventsRef := [other], refreshCounter := 1,
                     state := ThreadState(Some("b"), [other], Ready, 1),
                     effects := [done.(cancelled := true), b.(handoffComplete := true)],
                     commits := [Commit("a", []), Commit("b", [other])])
  }

  lemma ReachedStep(loc: Collator, other: EventRecord, n: nat)
    requires n < 4
    ensures Possible(Reached(other, n), TwoThreads(other)[n])
    ensures StreamHonoursUnsubscribe(Reached(other, n), TwoThreads(other)[n])
    ensures Apply(loc, Reached(other, n), TwoThreads(other)[n]) == Reached(other, n + 1)
  {
    if n == 1 {
      assert Merge(loc, []) == [];
      var empty: map<string, seq<EventRecord>> := map[];
      assert empty - {"a"} == empty;
    } else if n == 3 {
      LoadedOne(loc, other);
    }
  }

  lemma LoadedOne(loc: Collator, e: EventRecord)
    ensures Merge(loc, [] + Merge(loc, [e] + []) + []) == [e]
  {
    DedupFixesDistinct([e]);
    assert [e] + [] == [e] && [] + [e] == [e];
    EventLeIsPreorder(loc);
    SortFixesSorted(EventLe(loc), [e]);
  }

  lemma {:induction false} TwoThreadsRuns(loc: Collator, other: EventRecord, n: nat)
    requires n <= 4
    ensures ValidRun(loc, INITIAL_HOOK, TwoThreads(other)[..n])
    ensures Run(loc, INITIAL_HOOK, TwoThreads(other)[..n]) == Reached(other, n)
  {
    if n > 0 {
      TwoThreadsRuns(loc, other, n - 1);
      ReachedStep(loc, other, n - 1);
      assert TwoThreads(other)[..n][..n - 1] == TwoThreads(other)[..n - 1];
    }
  }

  /**
   The unsubscribe contract is needed: after such a run, a live event that reaches the left effect
   files the new thread's list under the old thread.
   */
  lemma LateLiveEventWouldCrossThreads(loc: Collator, ev: EventRecord, other: EventRecord)
    requires ev.eventId != other.eventId
    ensures ValidRun(loc, INITIAL_HOOK, TwoThreads(other))
    ensures var h, a := Run(loc, INITIAL_HOOK, TwoThreads(other)), Invoke(0, Live(ev));
      && Possible(h, a) && !StreamHonoursUnsubscribe(h, a)
      && h.threadProp == Some("b") && CachedEvents(h.cache, "a") == [] && CachedEvents(h.cache, "b") == [other]
      && Ids(CachedEvents(Apply(loc, h, a).cache, "a")) == {ev.eventId, other.eventId}
  {
    assert TwoThreads(other)[..4] == TwoThreads(other);
    TwoThreadsRuns(loc, other, 4);
    LiveEventIsCached(loc, Reached(other, 4), 0, ev);
    MergedPair(loc, other, ev);
  }

  lemma MergedPair(loc: Collator, x: EventRecord, y: EventRecord)
    ensures Ids(Merge(loc, [x] + [y])) == {y.eventId, x.eventId}
  {
    MergeMeetsItsPromise(loc, [x] + [y]);
    IdsAppend([x], [y]);
    assert Ids([x]) == {x.eventId} && Ids([y]) == {y.eventId};
  }
}
