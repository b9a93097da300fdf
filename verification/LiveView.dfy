/**
 One effect of useSessionHistory: the closure state it keeps for the thread it was opened on,
 the list it shows, and its callbacks. The main result is LiveViewRefinesOneShotMerge: the list
 built up one callback at a time is the one-shot merge of everything received.
 */
module LiveView {
  import opened Sequences
  import opened Events
  import opened SessionMerge

  /** The closure variables of one run of the effect. */
  datatype Effect = Effect(
    threadId: string,
    cached: seq<EventRecord>,
    buffered: seq<EventRecord>,
    handoffComplete: bool,
    cancelled: bool)

  /** What calls back into an effect. */
  datatype Callback =
    | Live(event: EventRecord)
    | ParseError
    /** The last page arrived when `arrived` live events had been buffered. */
    | Loaded(persisted: seq<EventRecord>, arrived: nat)
    | LoadFailed

  datatype View = View(effect: Effect, shown: seq<EventRecord>)

  function Open(threadId: string, cached: seq<EventRecord>): View {
    View(Effect(threadId, cached, [], false, false), cached)
  }

  /** The backfill settles once; everything buffered by then was buffered before. */
  predicate CanFollow(v: View, c: Callback) {
    match c
    case Live(_) => true
    case ParseError => true
    case Loaded(_, arrived) => !v.effect.handoffComplete && arrived <= |v.effect.buffered|
    case LoadFailed => !v.effect.handoffComplete
  }

  /** The effect's variables after a callback, for an effect that was not left. */
  function NextEffect(e: Effect, c: Callback): Effect {
    match c
    case Live(event) => e.(buffered := e.buffered + [event])
    case ParseError => e
    case Loaded(_, _) => e.(handoffComplete := true)
    case LoadFailed => e.(handoffComplete := true)
  }

  /** The list a callback hands to updateEvents, if it calls it. */
  function Update(loc: Collator, v: View, c: Callback): Option<seq<EventRecord>>
    requires CanFollow(v, c)
  {
    var e := v.effect;
    match c
    case Live(event) =>
      if e.handoffComplete then Some(Merge(loc, v.shown + [event])) else None
    case ParseError =>
      Some(Merge(loc, v.shown + e.buffered))
    case Loaded(persisted, arrived) =>
      Some(Merge(loc, e.cached + Merge(loc, persisted + e.buffered[..arrived]) + e.buffered))
    case LoadFailed =>
      Some(Merge(loc, e.cached + e.buffered))
  }

  function Follow(loc: Collator, v: View, c: Callback): View
    requires CanFollow(v, c)
  {
    var next := Update(loc, v, c);
    View(NextEffect(v.effect, c), if next.Some? then next.value else v.shown)
  }

  predicate ValidCallbacks(loc: Collator, v: View, cs: seq<Callback>)
    decreases |cs|, 0
  {
    if cs == [] then true
    else
      var front := cs[..|cs| - 1];
      ValidCallbacks(loc, v, front) && CanFollow(FollowAll(loc, v, front), cs[|cs| - 1])
  }

  function FollowAll(loc: Collator, v: View, cs: seq<Callback>): View
    requires ValidCallbacks(loc, v, cs)
    decreases |cs|, 1
  {
    if cs == [] then v
    else Follow(loc, FollowAll(loc, v, cs[..|cs| - 1]), cs[|cs| - 1])
  }

  /** Every live event delivered, in order. */
  function LiveEvents(cs: seq<Callback>): seq<EventRecord> {
    if cs == [] then []
    else
      var last := cs[|cs| - 1];
      LiveEvents(cs[..|cs| - 1]) + if last.Live? then [last.event] else []
  }

  /** Everything the backfill returned; nothing if it failed or is still running. */
  function PagedEvents(cs: seq<Callback>): seq<EventRecord> {
    if cs == [] then []
    else
      var last := cs[|cs| - 1];
      PagedEvents(cs[..|cs| - 1]) + if last.Loaded? then last.persisted else []
  }

  predicate Settled(cs: seq<Callback>) {
    exists k :: 0 <= k < |cs| && (cs[k].Loaded? || cs[k].LoadFailed?)
  }

  /** The callbacks up to the last parse error. */
  function UpToLastError(cs: seq<Callback>): seq<Callback> {
    if cs == [] || cs[|cs| - 1].ParseError? then cs
    else UpToLastError(cs[..|cs| - 1])
  }

  /** What the client should show, computed at once from everything it received. */
  function OneShot(loc: Collator, cached: seq<EventRecord>, cs: seq<Callback>): seq<EventRecord> {
    if Settled(cs) then Merge(loc, cached + PagedEvents(cs) + LiveEvents(cs))
    else if UpToLastError(cs) == [] then cached
    else Merge(loc, cached + LiveEvents(UpToLastError(cs)))
  }

  lemma SettledSnoc(cs: seq<Callback>)
    requires cs != []
    ensures var n := |cs| - 1;
      Settled(cs) <==> Settled(cs[..n]) || cs[n].Loaded? || cs[n].LoadFailed?
  {
    var n := |cs| - 1;
    if Settled(cs[..n]) {
      var k :| 0 <= k < n && (cs[..n][k].Loaded? || cs[..n][k].LoadFailed?);
      assert cs[k].Loaded? || cs[k].LoadFailed?;
    }
    if cs[n].Loaded? || cs[n].LoadFailed? {
      assert Settled(cs);
    }
  }

  lemma {:induction false} NotSettledNothingPaged(cs: seq<Callback>)
    requires !Settled(cs)
    ensures PagedEvents(cs) == []
  {
    if cs != [] {
      SettledSnoc(cs);
      NotSettledNothingPaged(cs[..|cs| - 1]);
    }
  }

  lemma {:induction false} LiveBeforeLastError(cs: seq<Callback>)
    ensures exists rest :: LiveEvents(cs) == LiveEvents(UpToLastError(cs)) + rest
  {
    if cs == [] || cs[|cs| - 1].ParseError? {
      assert LiveEvents(cs) == LiveEvents(UpToLastError(cs)) + [];
    } else {
      LiveBeforeLastError(cs[..|cs| - 1]);
      var rest :| LiveEvents(cs[..|cs| - 1]) == LiveEvents(UpToLastError(cs)) + rest;
      var last := cs[|cs| - 1];
      var added := if last.Live? then [last.event] else [];
      assert LiveEvents(cs) == LiveEvents(UpToLastError(cs)) + (rest + added);
    }
  }

  /** A parse error merges what is buffered into what is shown. */
  lemma ParseErrorCatchesUp(loc: Collator, cached: seq<EventRecord>, cs: seq<Callback>)
    ensures Merge(loc, OneShot(loc, cached, cs) + LiveEvents(cs))
         == if Settled(cs) then OneShot(loc, cached, cs) else Merge(loc, cached + LiveEvents(cs))
  {
    var live := LiveEvents(cs);
    if Settled(cs) {
      var all := cached + PagedEvents(cs) + live;
      MergeAbsorbsLeft(loc, all, live);
      IdsAppend(cached + PagedEvents(cs), live);
      MergeIgnoresKnown(loc, all, live);
    } else if UpToLastError(cs) != [] {
      LiveBeforeLastError(cs);
      var seen := LiveEvents(UpToLastError(cs));
      var rest :| live == seen + rest;
      MergeAbsorbsLeft(loc, cached + seen, live);
      MergeRepeatedPrefix(loc, cached, seen, rest);
    }
  }

  lemma MergeRepeatedPrefix(loc: Collator, xs: seq<EventRecord>, ys: seq<EventRecord>, zs: seq<EventRecord>)
    ensures Merge(loc, xs + ys + (ys + zs)) == Merge(loc, xs + (ys + zs))
  {
    IdsAppend(xs, ys);
    MergeIgnoresKnown(loc, xs + ys, ys);
    MergeAbsorbsLeft(loc, xs + ys + ys, zs);
    MergeAbsorbsLeft(loc, xs + ys, zs);
    assert xs + ys + (ys + zs) == xs + ys + ys + zs;
    assert xs + (ys + zs) == xs + ys + zs;
  }

  /** The handoff merges the cache, the load's own merge, and the whole buffer. */
  lemma HandoffIsOneMerge(loc: Collator, cached: seq<EventRecord>, persisted: seq<EventRecord>,
                          buffered: seq<EventRecord>, arrived: nat)
    requires arrived <= |buffered|
    ensures Merge(loc, cached + Merge(loc, persisted + buffered[..arrived]) + buffered)
         == Merge(loc, cached + persisted + buffered)
  {
    var early, late := buffered[..arrived], buffered[arrived..];
    var loaded := Merge(loc, persisted + early);
    MergeAbsorbsRight(loc, cached, persisted + early);
    MergeAbsorbsLeft(loc, cached + loaded, buffered);
    MergeAbsorbsLeft(loc, cached + (persisted + early), buffered);
    assert buffered == early + late;
    MergeRepeatedPrefix(loc, cached + persisted, early, late);
    assert cached + (persisted + early) == cached + persisted + early;
  }

  /**
   After any callbacks, in any order, the list shown is the one-shot merge of the cache, all
   pages and all live events; before the backfill settles it is the cache, merged with the live
   events up to the last parse error.
   */
  lemma {:induction false} LiveViewRefinesOneShotMerge(loc: Collator, threadId: string,
                                                       cached: seq<EventRecord>, cs: seq<Callback>)
    requires ValidCallbacks(loc, Open(threadId, cached), cs)
    ensures var v := FollowAll(loc, Open(threadId, cached), cs);
      && v.effect == Effect(threadId, cached, LiveEvents(cs), Settled(cs), false)
      && v.shown == OneShot(loc, cached, cs)
  {
    if cs != [] {
      var front, last := cs[..|cs| - 1], cs[|cs| - 1];
      LiveViewRefinesOneShotMerge(loc, threadId, cached, front);
      SettledSnoc(cs);
      var live, paged := LiveEvents(front), PagedEvents(front);
      match last {
        case Live(event) =>
          if Settled(front) {
            MergeAbsorbsLeft(loc, cached + paged + live, [event]);
            assert cached + paged + live + [event] == cached + paged + LiveEvents(cs);
            assert paged + [] == paged;
          }
        case ParseError =>
          ParseErrorCatchesUp(loc, cached, front);
          assert live + [] == live && paged + [] == paged;
        case Loaded(persisted, arrived) =>
          NotSettledNothingPaged(front);
          HandoffIsOneMerge(loc, cached, persisted, live, arrived);
          assert live + [] == live && paged + persisted == persisted;
        case LoadFailed =>
          NotSettledNothingPaged(front);
          assert live + [] == live && paged + [] == [] && cached + [] == cached;
      }
    }
  }

  /** No callback takes an id off the list again. */
  lemma ShownIdsOnlyGrow(loc: Collator, threadId: string, cached: seq<EventRecord>,
                         cs: seq<Callback>, c: Callback)
    requires ValidCallbacks(loc, Open(threadId, cached), cs + [c])
    ensures ValidCallbacks(loc, Open(threadId, cached), cs)
    ensures Ids(FollowAll(loc, Open(threadId, cached), cs).shown)
         <= Ids(FollowAll(loc, Open(threadId, cached), cs + [c]).shown)
  {
    var v := Open(threadId, cached);
    assert (cs + [c])[..|cs|] == cs;
    LiveViewRefinesOneShotMerge(loc, threadId, cached, cs);
    var before, after := FollowAll(loc, v, cs), FollowAll(loc, v, cs + [c]);
    OneShotIds(loc, cached, cs);
    match c {
      case Live(event) =>
        MergeMeetsItsPromise(loc, before.shown + [event]);
        IdsAppend(before.shown, [event]);
      case ParseError =>
        MergeMeetsItsPromise(loc, before.shown + before.effect.buffered);
        IdsAppend(before.shown, before.effect.buffered);
      case Loaded(persisted, arrived) =>
        var loaded := Merge(loc, persisted + before.effect.buffered[..arrived]);
        MergeMeetsItsPromise(loc, cached + loaded + before.effect.buffered);
        IdsAppend(cached + loaded, before.effect.buffered);
        IdsAppend(cached, loaded);
      case LoadFailed =>
        MergeMeetsItsPromise(loc, cached + before.effect.buffered);
        IdsAppend(cached, before.effect.buffered);
    }
  }

  lemma OneShotIds(loc: Collator, cached: seq<EventRecord>, cs: seq<Callback>)
    ensures Ids(OneShot(loc, cached, cs)) <= Ids(cached) + Ids(PagedEvents(cs)) + Ids(LiveEvents(cs))
    ensures !Settled(cs) ==> Ids(OneShot(loc, cached, cs)) <= Ids(cached) + Ids(LiveEvents(cs))
  {
    var live, paged := LiveEvents(cs), PagedEvents(cs);
    if Settled(cs) {
      MergeMeetsItsPromise(loc, cached + paged + live);
      IdsAppend(cached + paged, live);
      IdsAppend(cached, paged);
    } else {
      NotSettledNothingPaged(cs);
      LiveBeforeLastError(cs);
      var seen := LiveEvents(UpToLastError(cs));
      var rest :| live == seen + rest;
      IdsAppend(seen, rest);
      MergeMeetsItsPromise(loc, cached + seen);
      IdsAppend(cached, seen);
    }
  }
}
