/**
 The broker under concurrent publishers, subscribers and slow readers. Publish appends to the
 ring and copies the subscriber set in one critical section and sends afterwards, so the sends of
 different publishes may overtake one another. A send meets a channel of 32 slots and drops the
 event when it is full.
 */
module BrokerRuns {
  import opened Sequences
  import opened Events
  import opened Ring

  const CHANNEL_CAP := 32

  /** A send, its outcome, and how many events the handler had taken from the channel by then. */
  datatype Attempt = Attempt(event: EventRecord, delivered: bool, taken: nat)

  /**
   A subscription. The program holds `queue` and, inside running Publish calls, `inFlight`; the
   rest records its past: the log length at the subscription, the replay it was given, every
   attempted send, and what its handler has taken from the channel.
   */
  datatype Sub = Sub(
    open: bool,
    after: string,
    start: nat,
    replay: seq<EventRecord>,
    inFlight: multiset<EventRecord>,
    attempts: seq<Attempt>,
    queue: seq<EventRecord>,
    taken: seq<EventRecord>)

  /** `log` is everything ever published; the program keeps only the ring. */
  datatype State = State(cap: nat, log: seq<EventRecord>, ring: seq<EventRecord>, subs: map<nat, Sub>)

  datatype Step =
    | Publish(event: EventRecord)
    | Send(id: nat, event: EventRecord)
    | Subscribe(id: nat, after: string)
    | Take(id: nat)
    | Unsubscribe(id: nat)

  function NewBroker(ringCap: int): State {
    State(if ringCap <= 0 then 256 else ringCap, [], [], map[])
  }

  function Offer(queue: seq<EventRecord>, ev: EventRecord): seq<EventRecord> {
    if |queue| < CHANNEL_CAP then queue + [ev] else queue
  }

  predicate Enabled(s: State, step: Step) {
    match step
    case Publish(_) => true
    case Send(id, ev) => id in s.subs && s.subs[id].open && ev in s.subs[id].inFlight
    case Subscribe(id, _) => id !in s.subs
    case Take(id) => id in s.subs && s.subs[id].open && s.subs[id].queue != []
    case Unsubscribe(id) => id in s.subs && s.subs[id].open
  }

  function Snapshot(sub: Sub, ev: EventRecord): Sub {
    if sub.open then sub.(inFlight := sub.inFlight + multiset{ev}) else sub
  }

  function TrySend(sub: Sub, ev: EventRecord): Sub {
    sub.(
      inFlight := sub.inFlight - multiset{ev},
      attempts := sub.attempts + [Attempt(ev, |sub.queue| < CHANNEL_CAP, |sub.taken|)],
      queue := Offer(sub.queue, ev))
  }

  function Next(s: State, step: Step): State
    requires Enabled(s, step)
  {
    match step
    case Publish(ev) =>
      s.(log := s.log + [ev], ring := PushRing(s.ring, s.cap, ev),
         subs := map id | id in s.subs :: Snapshot(s.subs[id], ev))
    case Send(id, ev) => s.(subs := s.subs[id := TrySend(s.subs[id], ev)])
    case Subscribe(id, after) =>
      s.(subs := s.subs[id := Sub(true, after, |s.log|, ReplayAfter(s.ring, after), multiset{}, [], [], [])])
    case Take(id) =>
      var sub := s.subs[id];
      s.(subs := s.subs[id := sub.(queue := sub.queue[1..], taken := sub.taken + [sub.queue[0]])])
    case Unsubscribe(id) => s.(subs := s.subs[id := s.subs[id].(open := false, inFlight := multiset{})])
  }

  predicate ValidRun(s: State, steps: seq<Step>)
    decreases |steps|, 0
  {
    steps == [] || (ValidRun(s, steps[..|steps| - 1]) && Enabled(Run(s, steps[..|steps| - 1]), steps[|steps| - 1]))
  }

  function Run(s: State, steps: seq<Step>): State
    requires ValidRun(s, steps)
    decreases |steps|, 1
  {
    if steps == [] then s else Next(Run(s, steps[..|steps| - 1]), steps[|steps| - 1])
  }

  function Attempted(attempts: seq<Attempt>): seq<EventRecord> {
    seq(|attempts|, k requires 0 <= k < |attempts| => attempts[k].event)
  }

  function WithOutcome(attempts: seq<Attempt>, delivered: bool): seq<EventRecord> {
    if attempts == [] then []
    else
      var last := attempts[|attempts| - 1];
      WithOutcome(attempts[..|attempts| - 1], delivered) + if last.delivered == delivered then [last.event] else []
  }

  function Delivered(attempts: seq<Attempt>): seq<EventRecord> { WithOutcome(attempts, true) }

  function Dropped(attempts: seq<Attempt>): seq<EventRecord> { WithOutcome(attempts, false) }

  /** How many events were delivered and not yet taken when attempt k was made. */
  function Waiting(attempts: seq<Attempt>, k: nat): int
    requires k < |attempts|
  {
    |Delivered(attempts[..k])| - attempts[k].taken
  }

  /** A send succeeds exactly if fewer than 32 events wait; never more than 32 do. */
  ghost predicate OutcomesExplained(attempts: seq<Attempt>) {
    forall k :: 0 <= k < |attempts| ==>
      0 <= Waiting(attempts, k) <= CHANNEL_CAP && (attempts[k].delivered <==> Waiting(attempts, k) < CHANNEL_CAP)
  }

  /** The account of one subscription: every event after its start is in exactly one place. */
  ghost predicate Accounted(log: seq<EventRecord>, cap: nat, sub: Sub) {
    && sub.start <= |log|
    && sub.replay == ReplayAfter(Window(log[..sub.start], cap), sub.after)
    && (sub.open ==> multiset(Attempted(sub.attempts)) + sub.inFlight == multiset(log[sub.start..]))
    && sub.taken + sub.queue == Delivered(sub.attempts)
    && |sub.queue| <= CHANNEL_CAP
    && OutcomesExplained(sub.attempts)
  }

  ghost predicate Inv(s: State) {
    && s.cap >= 1
    && s.ring == Window(s.log, s.cap)
    && forall id :: id in s.subs ==> Accounted(s.log, s.cap, s.subs[id])
  }

  lemma AttemptSnoc(attempts: seq<Attempt>, a: Attempt)
    ensures Attempted(attempts + [a]) == Attempted(attempts) + [a.event]
    ensures forall d :: WithOutcome(attempts + [a], d) == WithOutcome(attempts, d) + (if a.delivered == d then [a.event] else [])
  {
    assert (attempts + [a])[..|attempts|] == attempts;
  }

  lemma SnapshotAccounted(log: seq<EventRecord>, cap: nat, sub: Sub, ev: EventRecord)
    requires Accounted(log, cap, sub)
    ensures Accounted(log + [ev], cap, Snapshot(sub, ev))
  {
    assert (log + [ev])[..sub.start] == log[..sub.start];
    assert (log + [ev])[sub.start..] == log[sub.start..] + [ev];
  }

  lemma SendAccounted(log: seq<EventRecord>, cap: nat, sub: Sub, ev: EventRecord)
    requires Accounted(log, cap, sub) && sub.open && ev in sub.inFlight
    ensures Accounted(log, cap, TrySend(sub, ev))
  {
    var a := Attempt(ev, |sub.queue| < CHANNEL_CAP, |sub.taken|);
    AttemptSnoc(sub.attempts, a);
    assert TrySend(sub, ev).taken + TrySend(sub, ev).queue == Delivered(sub.attempts + [a]);
    OneMoreExplained(sub.attempts, a);
  }

  lemma OneMoreExplained(attempts: seq<Attempt>, a: Attempt)
    requires OutcomesExplained(attempts)
    requires var waiting := |Delivered(attempts)| - a.taken;
      0 <= waiting <= CHANNEL_CAP && (a.delivered <==> waiting < CHANNEL_CAP)
    ensures OutcomesExplained(attempts + [a])
  {
    var longer := attempts + [a];
    forall k | 0 <= k < |longer| ensures 0 <= Waiting(longer, k) <= CHANNEL_CAP && (longer[k].delivered <==> Waiting(longer, k) < CHANNEL_CAP) {
      if k < |attempts| {
        assert longer[..k] == attempts[..k];
        assert Waiting(longer, k) == Waiting(attempts, k);
      } else {
        assert longer[..k] == attempts;
      }
    }
  }

  lemma SubscribeAccounted(log: seq<EventRecord>, cap: nat, after: string)
    ensures Accounted(log, cap, Sub(true, after, |log|, ReplayAfter(Window(log, cap), after), multiset{}, [], [], []))
  {
    assert log[..|log|] == log;
  }

  lemma TakeAccounted(log: seq<EventRecord>, cap: nat, sub: Sub)
    requires Accounted(log, cap, sub) && sub.queue != []
    ensures Accounted(log, cap, sub.(queue := sub.queue[1..], taken := sub.taken + [sub.queue[0]]))
  {
    assert sub.taken + [sub.queue[0]] + sub.queue[1..] == sub.taken + sub.queue;
  }

  lemma NextKeepsInv(s: State, step: Step)
    requires Inv(s) && Enabled(s, step)
    ensures Inv(Next(s, step))
  {
    if step.Publish? {
      PushRefinesLog(s.log, s.cap, step.event);
    }
    forall id | id in Next(s, step).subs ensures Accounted(Next(s, step).log, s.cap, Next(s, step).subs[id]) {
      match step {
        case Publish(ev) => SnapshotAccounted(s.log, s.cap, s.subs[id], ev);
        case Send(target, ev) =>
          if id == target {
            SendAccounted(s.log, s.cap, s.subs[id], ev);
          }
        case Subscribe(target, after) =>
          if id == target {
            SubscribeAccounted(s.log, s.cap, after);
          }
        case Take(target) =>
          if id == target {
            TakeAccounted(s.log, s.cap, s.subs[id]);
          }
        case Unsubscribe(target) =>
      }
    }
  }

  /** A subscription's cursor, start and replay stay; what its handler took only grows. */
  ghost predicate SubGrows(before: Sub, after: Sub) {
    before.start == after.start && before.after == after.after && before.replay == after.replay
    && IsPrefix(before.taken, after.taken)
  }

  ghost predicate Grows(before: State, after: State) {
    && IsPrefix(before.log, after.log) && before.cap == after.cap
    && forall id :: id in before.subs ==> id in after.subs && SubGrows(before.subs[id], after.subs[id])
  }

  lemma NextGrows(s: State, step: Step)
    requires Enabled(s, step)
    ensures Grows(s, Next(s, step))
  {
    if step.Publish? {
      assert (s.log + [step.event])[..|s.log|] == s.log;
    }
    forall id | id in s.subs ensures id in Next(s, step).subs && SubGrows(s.subs[id], Next(s, step).subs[id]) {
      if step.Take? && step.id == id {
        assert (s.subs[id].taken + [s.subs[id].queue[0]])[..|s.subs[id].taken|] == s.subs[id].taken;
      }
    }
  }

  /** In every state of every run, each subscription's account balances. */
  lemma {:induction false} EveryRunIsAccounted(ringCap: int, steps: seq<Step>)
    requires ValidRun(NewBroker(ringCap), steps)
    ensures Inv(Run(NewBroker(ringCap), steps))
  {
    if steps != [] {
      EveryRunIsAccounted(ringCap, steps[..|steps| - 1]);
      NextKeepsInv(Run(NewBroker(ringCap), steps[..|steps| - 1]), steps[|steps| - 1]);
    }
  }

  ghost predicate Reachable(s: State) {
    exists ringCap, steps :: ValidRun(NewBroker(ringCap), steps) && s == Run(NewBroker(ringCap), steps)
  }

  lemma ReachableIsAccounted(s: State)
    requires Reachable(s)
    ensures Inv(s)
  {
    var ringCap, steps :| ValidRun(NewBroker(ringCap), steps) && s == Run(NewBroker(ringCap), steps);
    EveryRunIsAccounted(ringCap, steps);
  }

  lemma {:induction false} OutcomesPartition(attempts: seq<Attempt>)
    ensures multiset(Attempted(attempts)) == multiset(Delivered(attempts)) + multiset(Dropped(attempts))
  {
    if attempts != [] {
      var front, last := attempts[..|attempts| - 1], attempts[|attempts| - 1];
      OutcomesPartition(front);
      AttemptSnoc(front, last);
      assert attempts == front + [last];
    }
  }

  /**
   Exactly once at the boundary, with any overtaking: for an open subscription whose cursor was
   in the ring, replay, taken, queued, dropped and not yet sent together are the published log
   after the cursor, each event once.
   */
  lemma ExactlyOnceHandoff(s: State, id: nat, i: nat)
    requires Reachable(s) && Publishable(s.log) && id in s.subs && s.subs[id].open
    requires i < s.subs[id].start <= |s.log| && s.log[i].eventId == s.subs[id].after
    requires s.subs[id].start - i <= s.cap
    ensures var sub := s.subs[id];
      && sub.replay == s.log[i + 1..sub.start]
      && multiset(sub.replay) + multiset(sub.taken) + multiset(sub.queue) + multiset(Dropped(sub.attempts)) + sub.inFlight
         == multiset(s.log[i + 1..])
  {
    ReachableIsAccounted(s);
    ReplayStartsAtCursor(s.log, s.cap, s.subs[id], i);
    AccountIsWhole(s.log, s.subs[id], i);
  }

  lemma ReplayStartsAtCursor(log: seq<EventRecord>, cap: nat, sub: Sub, i: nat)
    requires Publishable(log) && i < sub.start <= |log| && log[i].eventId == sub.after && sub.start - i <= cap
    requires sub.replay == ReplayAfter(Window(log[..sub.start], cap), sub.after)
    ensures sub.replay == log[i + 1..sub.start]
  {
    var early := log[..sub.start];
    assert Publishable(early) by {
      assert forall e :: e in early ==> e in log;
    }
    ReplayFromLog(early, cap, i);
  }

  lemma AccountIsWhole(log: seq<EventRecord>, sub: Sub, i: nat)
    requires i < sub.start <= |log| && sub.replay == log[i + 1..sub.start]
    requires multiset(Attempted(sub.attempts)) + sub.inFlight == multiset(log[sub.start..])
    requires sub.taken + sub.queue == Delivered(sub.attempts)
    ensures multiset(sub.replay) + multiset(sub.taken) + multiset(sub.queue) + multiset(Dropped(sub.attempts)) + sub.inFlight
         == multiset(log[i + 1..])
  {
    OutcomesPartition(sub.attempts);
    assert multiset(sub.taken + sub.queue) == multiset(sub.taken) + multiset(sub.queue);
    assert log[i + 1..] == sub.replay + log[sub.start..];
  }

  /** Publishes that do not overlap: the next one starts when all sends of the last are over. */
  predicate Serial(s: State, steps: seq<Step>)
    requires ValidRun(s, steps)
  {
    if steps == [] then true
    else
      var front, last := steps[..|steps| - 1], steps[|steps| - 1];
      Serial(s, front) && (last.Publish? ==>
        forall id :: id in Run(s, front).subs ==> Run(s, front).subs[id].inFlight == multiset{})
  }

  /** Sends then happen in log order, at most the newest still outstanding. */
  ghost predicate InOrder(log: seq<EventRecord>, sub: Sub) {
    var n := |sub.attempts|;
    && sub.start + n <= |log|
    && Attempted(sub.attempts) == log[sub.start..sub.start + n]
    && (sub.open ==> sub.inFlight == multiset(log[sub.start + n..]) && |log| - sub.start - n <= 1)
  }

  ghost predicate AllInOrder(s: State) {
    forall id :: id in s.subs ==> InOrder(s.log, s.subs[id])
  }

  lemma {:induction false} SerialRunsKeepOrder(ringCap: int, steps: seq<Step>)
    requires ValidRun(NewBroker(ringCap), steps) && Serial(NewBroker(ringCap), steps)
    ensures AllInOrder(Run(NewBroker(ringCap), steps))
  {
    if steps != [] {
      SerialRunsKeepOrder(ringCap, steps[..|steps| - 1]);
      StepKeepsOrder(Run(NewBroker(ringCap), steps[..|steps| - 1]), steps[|steps| - 1]);
    }
  }

  lemma StepKeepsOrder(s: State, step: Step)
    requires Enabled(s, step) && AllInOrder(s)
    requires step.Publish? ==> forall id :: id in s.subs ==> s.subs[id].inFlight == multiset{}
    ensures AllInOrder(Next(s, step))
  {
    forall id | id in Next(s, step).subs ensures InOrder(Next(s, step).log, Next(s, step).subs[id]) {
      if step.Publish? {
        PublishKeepsOrder(s.log, s.subs[id], step.event);
      } else if id !in s.subs {
        assert Next(s, step).subs[id].start == |s.log|;
        FreshIsInOrder(s.log, Next(s, step).subs[id]);
      } else {
        OtherStepKeepsOrder(s, step, id);
      }
    }
  }

  lemma FreshIsInOrder(log: seq<EventRecord>, sub: Sub)
    requires sub.start == |log| && sub.attempts == [] && sub.inFlight == multiset{}
    ensures InOrder(log, sub)
  {
    assert log[|log|..] == [];
  }

  lemma OtherStepKeepsOrder(s: State, step: Step, id: nat)
    requires Enabled(s, step) && !step.Publish? && id in s.subs && InOrder(s.log, s.subs[id])
    ensures Next(s, step).log == s.log && id in Next(s, step).subs && InOrder(s.log, Next(s, step).subs[id])
  {
    if step.Send? && step.id == id {
      SendKeepsOrder(s.log, s.subs[id], step.event);
    }
  }

  lemma PublishKeepsOrder(log: seq<EventRecord>, sub: Sub, ev: EventRecord)
    requires InOrder(log, sub) && sub.inFlight == multiset{}
    ensures InOrder(log + [ev], Snapshot(sub, ev))
  {
    var n := |sub.attempts|;
    assert (log + [ev])[sub.start..sub.start + n] == log[sub.start..sub.start + n];
    if sub.open {
      var rest := log[sub.start + n..];
      assert |rest| == |multiset(rest)| == 0;
      assert (log + [ev])[sub.start + n..] == [ev];
    }
  }

  lemma SendKeepsOrder(log: seq<EventRecord>, sub: Sub, ev: EventRecord)
    requires InOrder(log, sub) && sub.open && ev in sub.inFlight
    ensures InOrder(log, TrySend(sub, ev))
  {
    var n := |sub.attempts|;
    OnlyOne(log[sub.start + n..], ev);
    AttemptSnoc(sub.attempts, Attempt(ev, |sub.queue| < CHANNEL_CAP, |sub.taken|));
    LastPiece(log, sub.start, sub.start + n);
  }

  lemma OnlyOne<T>(rest: seq<T>, e: T)
    requires |rest| <= 1 && e in multiset(rest)
    ensures rest == [e] && multiset(rest) - multiset{e} == multiset{}
  {
  }

  lemma LastPiece<T>(log: seq<T>, a: nat, b: nat)
    requires a <= b && b + 1 == |log|
    ensures log[a..b + 1] == log[a..b] + [log[b]] && log[b + 1..] == [] && log[b..] == [log[b]]
  {
  }

  /** The frames a connection has been given: the replay, then what its handler took. */
  function Frames(sub: Sub): seq<EventRecord> {
    sub.replay + sub.taken
  }

  ghost predicate NoDropBefore(attempts: seq<Attempt>, n: nat) {
    n <= |attempts| && forall k :: 0 <= k < n ==> attempts[k].delivered
  }

  lemma {:induction false} DeliveredPrefix(attempts: seq<Attempt>, n: nat)
    requires NoDropBefore(attempts, n)
    ensures n <= |Delivered(attempts)| && Delivered(attempts)[..n] == Attempted(attempts)[..n]
  {
    if |attempts| > n {
      var front := attempts[..|attempts| - 1];
      DeliveredPrefix(front, n);
      AttemptSnoc(front, attempts[|attempts| - 1]);
      assert attempts == front + [attempts[|attempts| - 1]];
    } else if n > 0 {
      var front := attempts[..n - 1];
      DeliveredPrefix(front, n - 1);
      AttemptSnoc(front, attempts[n - 1]);
      assert attempts == front + [attempts[n - 1]];
      assert |Delivered(front)| >= n - 1;
      DeliveredIsNoLonger(front);
    }
  }

  lemma {:induction false} DeliveredIsNoLonger(attempts: seq<Attempt>)
    ensures |Delivered(attempts)| <= |attempts|
  {
    if attempts != [] {
      DeliveredIsNoLonger(attempts[..|attempts| - 1]);
    }
  }

  /** The log position right after a subscription's cursor, or its start if nothing was replayed. */
  ghost predicate ReplaysFrom(s: State, sub: Sub, a: nat) {
    a <= sub.start <= |s.log| && sub.replay == s.log[a..sub.start]
  }

  ghost predicate SeriallyReachable(s: State) {
    exists ringCap, steps ::
      ValidRun(NewBroker(ringCap), steps) && Serial(NewBroker(ringCap), steps) && s == Run(NewBroker(ringCap), steps)
  }

  lemma SeriallyReachableInOrder(s: State)
    requires SeriallyReachable(s)
    ensures Inv(s) && AllInOrder(s)
  {
    var ringCap, steps :|
      ValidRun(NewBroker(ringCap), steps) && Serial(NewBroker(ringCap), steps) && s == Run(NewBroker(ringCap), steps);
    EveryRunIsAccounted(ringCap, steps);
    SerialRunsKeepOrder(ringCap, steps);
  }

  /** The log position after the last frame a handler took, if nothing was dropped before. */
  function Position(sub: Sub): nat {
    sub.start + |sub.taken|
  }

  /** The frames of a connection are the log from a up to its position. */
  ghost predicate Contiguous(log: seq<EventRecord>, sub: Sub, a: nat) {
    a <= Position(sub) <= |log| && Frames(sub) == log[a..Position(sub)]
  }

  /** The frames of a connection are a contiguous piece of the log exactly without drops before the last of them. */
  lemma FramesAreContiguousIff(s: State, id: nat, a: nat)
    requires SeriallyReachable(s) && Publishable(s.log) && id in s.subs && ReplaysFrom(s, s.subs[id], a)
    ensures Contiguous(s.log, s.subs[id], a) <==> NoDropBefore(s.subs[id].attempts, |s.subs[id].taken|)
  {
    SeriallyReachableInOrder(s);
    FramesOf(s, s.subs[id], a);
  }

  lemma FramesOf(s: State, sub: Sub, a: nat)
    requires Publishable(s.log) && Accounted(s.log, s.cap, sub) && InOrder(s.log, sub) && ReplaysFrom(s, sub, a)
    ensures Contiguous(s.log, sub, a) <==> NoDropBefore(sub.attempts, |sub.taken|)
  {
    if NoDropBefore(sub.attempts, |sub.taken|) {
      TakenIsLogPiece(s, sub);
      PiecesJoin(s.log, a, sub.start, Position(sub));
    }
    if Contiguous(s.log, sub, a) {
      PiecesJoin(s.log, a, sub.start, Position(sub));
      SamePrefixCancels(sub.replay, sub.taken, s.log[sub.start..Position(sub)]);
      NoGapNoDrop(s.log, s.cap, sub, |sub.taken|);
    }
  }

  lemma PiecesJoin<T>(log: seq<T>, a: nat, b: nat, c: nat)
    requires a <= b <= c <= |log|
    ensures log[a..b] + log[b..c] == log[a..c]
  {
  }

  lemma SamePrefixCancels<T>(prefix: seq<T>, xs: seq<T>, ys: seq<T>)
    requires prefix + xs == prefix + ys
    ensures xs == ys
  {
    assert xs == (prefix + xs)[|prefix|..] == (prefix + ys)[|prefix|..] == ys;
  }

  lemma TakenIsLogPiece(s: State, sub: Sub)
    requires Accounted(s.log, s.cap, sub) && InOrder(s.log, sub) && NoDropBefore(sub.attempts, |sub.taken|)
    ensures Position(sub) <= |s.log| && sub.taken == s.log[sub.start..Position(sub)]
  {
    var n := |sub.taken|;
    DeliveredPrefix(sub.attempts, n);
    assert sub.taken == (sub.taken + sub.queue)[..n];
  }

  lemma {:induction false} OutcomesAppend(xs: seq<Attempt>, ys: seq<Attempt>, d: bool)
    ensures WithOutcome(xs + ys, d) == WithOutcome(xs, d) + WithOutcome(ys, d)
  {
    if ys == [] {
      assert xs + ys == xs;
    } else {
      var front, last := ys[..|ys| - 1], ys[|ys| - 1];
      var added := if last.delivered == d then [last.event] else [];
      assert front + [last] == ys;
      calc {
        WithOutcome(xs + ys, d);
        { Assoc(xs, front, [last]); }
        WithOutcome(xs + front + [last], d);
        { AttemptSnoc(xs + front, last); }
        WithOutcome(xs + front, d) + added;
        { OutcomesAppend(xs, front, d); }
        WithOutcome(xs, d) + WithOutcome(front, d) + added;
        { Assoc(WithOutcome(xs, d), WithOutcome(front, d), added); }
        WithOutcome(xs, d) + (WithOutcome(front, d) + added);
        { AttemptSnoc(front, last); }
        WithOutcome(xs, d) + WithOutcome(ys, d);
      }
    }
  }

  lemma {:induction false} OutcomeWasAttempted(attempts: seq<Attempt>, d: bool, e: EventRecord)
    ensures e in WithOutcome(attempts, d) <==> exists k :: 0 <= k < |attempts| && attempts[k].event == e && attempts[k].delivered == d
  {
    if attempts != [] {
      var n := |attempts| - 1;
      OutcomeWasAttempted(attempts[..n], d, e);
      if k :| 0 <= k < |attempts| && attempts[k].event == e && attempts[k].delivered == d {
        assert k < n ==> attempts[..n][k] == attempts[k];
      }
      if k :| 0 <= k < n && attempts[..n][k].event == e && attempts[..n][k].delivered == d {
        assert attempts[k] == attempts[..n][k];
      }
    }
  }

  /** A drop shifts everything delivered later: what was taken is then no piece of the log. */
  lemma {:induction false} NoGapNoDrop(log: seq<EventRecord>, cap: nat, sub: Sub, n: nat)
    requires Publishable(log) && Accounted(log, cap, sub) && InOrder(log, sub) && n <= |sub.taken|
    requires Position(sub) <= |log| && sub.taken == log[sub.start..Position(sub)]
    ensures NoDropBefore(sub.attempts, n)
  {
    DeliveredIsNoLonger(sub.attempts);
    assert |sub.taken + sub.queue| >= n;
    if n > 0 {
      NoGapNoDrop(log, cap, sub, n - 1);
      assert sub.taken[n - 1] == (sub.taken + sub.queue)[n - 1];
      if !sub.attempts[n - 1].delivered {
        var k := LaterAttempt(sub.attempts, n);
        AttemptIsLogged(log, sub, k);
      }
    }
  }

  lemma AttemptIsLogged(log: seq<EventRecord>, sub: Sub, k: nat)
    requires InOrder(log, sub) && k < |sub.attempts|
    ensures sub.start + k < |log| && sub.attempts[k].event == log[sub.start + k]
  {
    assert Attempted(sub.attempts)[k] == sub.attempts[k].event;
  }

  lemma FirstDrop(attempts: seq<Attempt>, n: nat)
    requires 0 < n <= |attempts| && NoDropBefore(attempts, n - 1) && !attempts[n - 1].delivered
    ensures |Delivered(attempts[..n])| == n - 1
  {
    var before := attempts[..n - 1];
    DeliveredPrefix(before, n - 1);
    DeliveredIsNoLonger(before);
    AttemptSnoc(before, attempts[n - 1]);
    assert attempts[..n] == before + [attempts[n - 1]];
  }

  /** After n - 1 deliveries and a drop, the n-th delivery is a later attempt. */
  lemma LaterAttempt(attempts: seq<Attempt>, n: nat) returns (k: nat)
    requires 0 < n <= |Delivered(attempts)| && n <= |attempts|
    requires NoDropBefore(attempts, n - 1) && !attempts[n - 1].delivered
    ensures n <= k < |attempts| && attempts[k].event == Delivered(attempts)[n - 1]
  {
    var front, rest := attempts[..n], attempts[n..];
    assert attempts == front + rest;
    OutcomesAppend(front, rest, true);
    FirstDrop(attempts, n);
    OutcomeWasAttempted(rest, true, Delivered(rest)[0]);
    var j :| 0 <= j < |rest| && rest[j].event == Delivered(rest)[0];
    k := n + j;
  }

  /** two resumes after the last frame of one, which is log[last]. */
  ghost predicate Resumes(log: seq<EventRecord>, one: Sub, two: Sub, last: nat) {
    && Frames(one) != []
    && last < two.start <= |log|
    && log[last] == Frames(one)[|Frames(one)| - 1]
    && two.after == log[last].eventId
  }

  /** Together the frames are the log from a up to some position not before the second start. */
  ghost predicate Seamless(log: seq<EventRecord>, one: Sub, two: Sub, a: nat) {
    exists c :: a <= two.start <= c <= |log| && Frames(one) + Frames(two) == log[a..c]
  }

  /**
   Two connections of one client, the second resuming after the last frame of the first: together
   the client has the log from its first position on without gap or duplicate exactly when nothing
   was dropped before what either handler took and the last frame was still in the ring.
   */
  lemma ReconnectHasNoGap(s: State, first: nat, second: nat, a: nat, last: nat)
    requires SeriallyReachable(s) && Publishable(s.log) && first in s.subs && second in s.subs
    requires ReplaysFrom(s, s.subs[first], a) && Resumes(s.log, s.subs[first], s.subs[second], last)
    ensures var one, two := s.subs[first], s.subs[second];
      Seamless(s.log, one, two, a) <==>
        && NoDropBefore(one.attempts, |one.taken|)
        && NoDropBefore(two.attempts, |two.taken|)
        && two.start - last <= s.cap
  {
    SeriallyReachableInOrder(s);
    var one, two := s.subs[first], s.subs[second];
    if NoDropBefore(one.attempts, |one.taken|) && NoDropBefore(two.attempts, |two.taken|) && two.start - last <= s.cap {
      ConnectionsJoin(s, one, two, a, last);
    }
    if Seamless(s.log, one, two, a) {
      var c :| a <= two.start <= c <= |s.log| && Frames(one) + Frames(two) == s.log[a..c];
      JoinedConnections(s, one, two, a, last, c);
    }
  }

  lemma ResumedReplay(s: State, two: Sub, last: nat)
    requires Publishable(s.log) && Accounted(s.log, s.cap, two) && last < two.start && two.after == s.log[last].eventId
    ensures two.replay == if two.start - last <= s.cap then s.log[last + 1..two.start] else []
  {
    var early := s.log[..two.start];
    assert Publishable(early) by {
      assert forall e :: e in early ==> e in s.log;
    }
    ReplayFromLog(early, s.cap, last);
  }

  lemma ConnectionsJoin(s: State, one: Sub, two: Sub, a: nat, last: nat)
    requires Publishable(s.log) && Resumes(s.log, one, two, last) && two.start - last <= s.cap
    requires Accounted(s.log, s.cap, one) && InOrder(s.log, one) && ReplaysFrom(s, one, a)
    requires Accounted(s.log, s.cap, two) && InOrder(s.log, two)
    requires NoDropBefore(one.attempts, |one.taken|) && NoDropBefore(two.attempts, |two.taken|)
    ensures Seamless(s.log, one, two, a)
  {
    FramesOf(s, one, a);
    ResumedReplay(s, two, last);
    TakenIsLogPiece(s, two);
    FramesMeet(s.log, one, two, a, last);
  }

  lemma FramesMeet(log: seq<EventRecord>, one: Sub, two: Sub, a: nat, last: nat)
    requires Publishable(log) && Resumes(log, one, two, last) && Contiguous(log, one, a)
    requires two.replay == log[last + 1..two.start] && Position(two) <= |log| && two.taken == log[two.start..Position(two)]
    ensures Seamless(log, one, two, a)
  {
    LastOfPiece(log, a, Position(one), last);
    ThreePiecesJoin(log, a, last + 1, two.start, Position(two));
  }

  lemma ThreePiecesJoin<T>(log: seq<T>, a: nat, b: nat, c: nat, d: nat)
    requires a <= b <= c <= d <= |log|
    ensures log[a..b] + (log[b..c] + log[c..d]) == log[a..d]
  {
    PiecesJoin(log, b, c, d);
    PiecesJoin(log, a, b, d);
  }

  lemma JoinedConnections(s: State, one: Sub, two: Sub, a: nat, last: nat, c: nat)
    requires Publishable(s.log) && s.cap >= 1 && Resumes(s.log, one, two, last)
    requires Accounted(s.log, s.cap, one) && InOrder(s.log, one) && ReplaysFrom(s, one, a)
    requires Accounted(s.log, s.cap, two) && InOrder(s.log, two)
    requires a <= two.start <= c <= |s.log| && Frames(one) + Frames(two) == s.log[a..c]
    ensures NoDropBefore(one.attempts, |one.taken|) && NoDropBefore(two.attempts, |two.taken|)
    ensures two.start - last <= s.cap
  {
    JoinedFirst(s, one, Frames(two), a, last, c);
    JoinedSecond(s, two, last, c);
  }

  lemma JoinedFirst(s: State, one: Sub, more: seq<EventRecord>, a: nat, last: nat, c: nat)
    requires Publishable(s.log) && Accounted(s.log, s.cap, one) && InOrder(s.log, one) && ReplaysFrom(s, one, a)
    requires Frames(one) != [] && last < |s.log| && s.log[last] == Frames(one)[|Frames(one)| - 1]
    requires a <= c <= |s.log| && Frames(one) + more == s.log[a..c]
    ensures NoDropBefore(one.attempts, |one.taken|)
    ensures last < c && more == s.log[last + 1..c]
  {
    SplitPiece(s.log, a, c, Frames(one), more);
    LastOfPiece(s.log, a, a + |Frames(one)|, last);
    FirstPieceHasNoDrop(s, one, a);
  }

  lemma JoinedSecond(s: State, two: Sub, last: nat, c: nat)
    requires Publishable(s.log) && s.cap >= 1 && Accounted(s.log, s.cap, two) && InOrder(s.log, two)
    requires last < two.start <= c <= |s.log| && two.after == s.log[last].eventId && Frames(two) == s.log[last + 1..c]
    ensures NoDropBefore(two.attempts, |two.taken|) && two.start - last <= s.cap
  {
    ResumedReplay(s, two, last);
    if two.start - last > s.cap {
      LaterPieceLeavesGap(s, two, last + 1, c);
    } else {
      SecondPieceHasNoDrop(s, two, last + 1, c);
    }
  }

  lemma LastOfPiece(log: seq<EventRecord>, a: nat, b: nat, last: nat)
    requires Publishable(log) && a < b <= |log| && last < |log| && log[last] == log[a..b][b - a - 1]
    ensures b == last + 1
  {
    assert log[b - 1] == log[last];
  }

  /** Frames that all come from the channel cannot begin before the subscription. */
  lemma LaterPieceLeavesGap(s: State, two: Sub, b: nat, c: nat)
    requires Publishable(s.log) && Accounted(s.log, s.cap, two) && InOrder(s.log, two)
    requires b <= c && two.start <= c <= |s.log| && two.replay == [] && Frames(two) == s.log[b..c]
    ensures two.start <= b
  {
    assert Frames(two) == two.taken;
    if b < c {
      assert two.taken[0] == s.log[b];
      TakenComesAfterStart(s, two);
    }
  }

  lemma SplitPiece<T>(log: seq<T>, a: nat, c: nat, xs: seq<T>, ys: seq<T>)
    requires a <= c <= |log| && xs + ys == log[a..c]
    ensures a + |xs| <= c && xs == log[a..a + |xs|] && ys == log[a + |xs|..c]
  {
    assert |xs + ys| == c - a;
    assert xs == (xs + ys)[..|xs|] && ys == (xs + ys)[|xs|..];
  }

  lemma FirstPieceHasNoDrop(s: State, one: Sub, a: nat)
    requires Publishable(s.log) && Accounted(s.log, s.cap, one) && InOrder(s.log, one) && ReplaysFrom(s, one, a)
    requires a + |Frames(one)| <= |s.log| && Frames(one) == s.log[a..a + |Frames(one)|]
    ensures NoDropBefore(one.attempts, |one.taken|)
  {
    assert a + |Frames(one)| == Position(one);
    FramesOf(s, one, a);
  }

  lemma SecondPieceHasNoDrop(s: State, two: Sub, b: nat, c: nat)
    requires Publishable(s.log) && Accounted(s.log, s.cap, two) && InOrder(s.log, two)
    requires b <= two.start <= c <= |s.log| && two.replay == s.log[b..two.start] && Frames(two) == s.log[b..c]
    ensures NoDropBefore(two.attempts, |two.taken|)
  {
    assert ReplaysFrom(s, two, b);
    assert b + |Frames(two)| == c;
    FirstPieceHasNoDrop(s, two, b);
  }

  /** Every replay is a piece of the log that ends at the subscription. */
  lemma ReplayIsPiece(log: seq<EventRecord>, cap: nat, sub: Sub) returns (a: nat)
    requires Accounted(log, cap, sub)
    ensures a <= sub.start <= |log| && sub.replay == log[a..sub.start]
    ensures forall e :: e in sub.replay ==> e in log
  {
    var early := log[..sub.start];
    var b := ReplayIsSuffix(Window(early, cap), sub.after);
    a := b + |early| - |Window(early, cap)|;
    assert Window(early, cap)[b..] == early[a..] == log[a..sub.start];
  }

  /** What a handler takes from its channel was published after its start. */
  lemma TakenComesAfterStart(s: State, sub: Sub)
    requires Publishable(s.log) && Accounted(s.log, s.cap, sub) && InOrder(s.log, sub) && sub.taken != []
    ensures forall i :: 0 <= i < sub.start ==> sub.taken[0] != s.log[i]
  {
    var first := sub.taken[0];
    assert first == (sub.taken + sub.queue)[0];
    assert first in Delivered(sub.attempts);
    OutcomeWasAttempted(sub.attempts, true, first);
    var k :| 0 <= k < |sub.attempts| && sub.attempts[k].event == first;
    AttemptIsLogged(s.log, sub, k);
  }

  /**
   The remark in Publish says that a subscriber whose events were dropped catches up through
   Last-Event-ID. An event dropped on one connection is in the replay of the next exactly when it
   was published after the last frame of the first, and that frame is still in the ring.
   */
  lemma DroppedEventComesBackIff(s: State, first: nat, second: nat, last: nat, k: nat)
    requires SeriallyReachable(s) && Publishable(s.log) && first in s.subs && second in s.subs
    requires Resumes(s.log, s.subs[first], s.subs[second], last)
    requires k < |s.subs[first].attempts| && !s.subs[first].attempts[k].delivered
    ensures var one, two := s.subs[first], s.subs[second];
      && one.start + k < |s.log|
      && (one.attempts[k].event in two.replay <==> last < one.start + k < two.start && two.start - last <= s.cap)
  {
    SeriallyReachableInOrder(s);
    DropComesBackIff(s, s.subs[first], s.subs[second], last, k);
  }

  lemma DropComesBackIff(s: State, one: Sub, two: Sub, last: nat, k: nat)
    requires Publishable(s.log) && InOrder(s.log, one) && k < |one.attempts|
    requires Accounted(s.log, s.cap, two) && last < two.start <= |s.log| && two.after == s.log[last].eventId
    ensures one.start + k < |s.log|
    ensures one.attempts[k].event in two.replay <==> last < one.start + k < two.start && two.start - last <= s.cap
  {
    AttemptIsLogged(s.log, one, k);
    ResumedReplay(s, two, last);
    PieceHolds(s.log, last + 1, two.start, one.start + k);
  }

  lemma PieceHolds(log: seq<EventRecord>, a: nat, b: nat, i: nat)
    requires Publishable(log) && a <= b <= |log| && i < |log|
    ensures log[i] in log[a..b] <==> a <= i < b
  {
    if log[i] in log[a..b] {
      var k :| 0 <= k < b - a && log[a..b][k] == log[i];
      assert log[a + k] == log[i];
    }
    if a <= i < b {
      assert log[a..b][i - a] == log[i];
    }
  }

  // ----- a drop that is not recovered

  /** A serially reachable state goes on with any enabled step that publishes nothing too early. */
  lemma SerialStep(s: State, step: Step)
    requires SeriallyReachable(s) && Enabled(s, step)
    requires step.Publish? ==> forall id :: id in s.subs ==> s.subs[id].inFlight == multiset{}
    ensures SeriallyReachable(Next(s, step))
  {
    var ringCap, steps :|
      ValidRun(NewBroker(ringCap), steps) && Serial(NewBroker(ringCap), steps) && s == Run(NewBroker(ringCap), steps);
    var longer := steps + [step];
    assert longer[..|steps|] == steps;
    assert ValidRun(NewBroker(ringCap), longer) && Serial(NewBroker(ringCap), longer);
    assert Next(s, step) == Run(NewBroker(ringCap), longer);
  }

  /** One subscriber, at number 0. */
  function Single(cap: nat, log: seq<EventRecord>, sub: Sub): State {
    State(cap, log, Window(log, cap), map[0 := sub])
  }

  function AfterSend(sub: Sub, ev: EventRecord): Sub {
    sub.(attempts := sub.attempts + [Attempt(ev, |sub.queue| < CHANNEL_CAP, |sub.taken|)], queue := Offer(sub.queue, ev))
  }

  lemma PublishAndSend(cap: nat, log: seq<EventRecord>, sub: Sub, ev: EventRecord)
    requires SeriallyReachable(Single(cap, log, sub)) && sub.open && sub.inFlight == multiset{}
    ensures SeriallyReachable(Single(cap, log + [ev], AfterSend(sub, ev)))
  {
    SerialStep(Single(cap, log, sub), Publish(ev));
    PublishSingle(cap, log, sub, ev);
    SerialStep(Single(cap, log + [ev], sub.(inFlight := multiset{ev})), Send(0, ev));
    SendSingle(cap, log + [ev], sub, ev);
  }

  lemma PublishSingle(cap: nat, log: seq<EventRecord>, sub: Sub, ev: EventRecord)
    requires sub.open && sub.inFlight == multiset{}
    ensures Next(Single(cap, log, sub), Publish(ev)) == Single(cap, log + [ev], sub.(inFlight := multiset{ev}))
  {
    PushRefinesLog(log, cap, ev);
    assert multiset{} + multiset{ev} == multiset{ev};
    assert Snapshot(sub, ev) == sub.(inFlight := multiset{ev});
    var subs := map[0 := sub];
    assert (map id | id in subs :: Snapshot(subs[id], ev)) == map[0 := Snapshot(sub, ev)];
  }

  lemma SendSingle(cap: nat, log: seq<EventRecord>, sub: Sub, ev: EventRecord)
    requires sub.open && sub.inFlight == multiset{}
    ensures var s := Single(cap, log, sub.(inFlight := multiset{ev}));
      Enabled(s, Send(0, ev)) && Next(s, Send(0, ev)) == Single(cap, log, AfterSend(sub, ev))
  {
    assert multiset{ev} - multiset{ev} == multiset{};
    assert TrySend(sub.(inFlight := multiset{ev}), ev) == AfterSend(sub, ev);
  }

  /** The handler takes everything that waits. */
  lemma {:induction false} TakeAll(cap: nat, log: seq<EventRecord>, sub: Sub)
    requires SeriallyReachable(Single(cap, log, sub)) && sub.open
    ensures SeriallyReachable(Single(cap, log, sub.(queue := [], taken := sub.taken + sub.queue)))
    decreases |sub.queue|
  {
    if sub.queue == [] {
      assert sub.taken + [] == sub.taken;
    } else {
      TakeOne(cap, log, sub);
      var next := sub.(queue := sub.queue[1..], taken := sub.taken + [sub.queue[0]]);
      TakeAll(cap, log, next);
      Assoc(sub.taken, [sub.queue[0]], sub.queue[1..]);
      assert [sub.queue[0]] + sub.queue[1..] == sub.queue;
    }
  }

  lemma TakeOne(cap: nat, log: seq<EventRecord>, sub: Sub)
    requires SeriallyReachable(Single(cap, log, sub)) && sub.open && sub.queue != []
    ensures SeriallyReachable(Single(cap, log, sub.(queue := sub.queue[1..], taken := sub.taken + [sub.queue[0]])))
  {
    SerialStep(Single(cap, log, sub), Take(0));
    var next := sub.(queue := sub.queue[1..], taken := sub.taken + [sub.queue[0]]);
    assert Next(Single(cap, log, sub), Take(0)) == Single(cap, log, next);
  }

  /** The first n events, sent and not taken. */
  function Filled(evs: seq<EventRecord>): Sub {
    Sub(true, "", 0, [], multiset{}, seq(|evs|, k requires 0 <= k < |evs| => Attempt(evs[k], true, 0)), evs, [])
  }

  lemma {:induction false} FilledIsReachable(ringCap: int, evs: seq<EventRecord>)
    requires |evs| <= CHANNEL_CAP
    ensures SeriallyReachable(Single(NewBroker(ringCap).cap, evs, Filled(evs)))
  {
    var cap := NewBroker(ringCap).cap;
    if evs == [] {
      assert ValidRun(NewBroker(ringCap), []) && Serial(NewBroker(ringCap), []);
      assert SeriallyReachable(NewBroker(ringCap));
      SerialStep(NewBroker(ringCap), Subscribe(0, ""));
      assert Next(NewBroker(ringCap), Subscribe(0, "")) == Single(cap, [], Filled([]));
    } else {
      var front, last := evs[..|evs| - 1], evs[|evs| - 1];
      FilledIsReachable(ringCap, front);
      PublishAndSend(cap, front, Filled(front), last);
      assert front + [last] == evs;
      assert AfterSend(Filled(front), last) == Filled(evs);
    }
  }

  /** 32 events wait when the next one is sent; then the handler drains, and one more arrives and is taken. */
  function Overrun(evs: seq<EventRecord>): Sub
    requires |evs| == CHANNEL_CAP + 2
  {
    var full := AfterSend(Filled(evs[..CHANNEL_CAP]), evs[CHANNEL_CAP]);
    var drained := full.(queue := [], taken := evs[..CHANNEL_CAP]);
    var last := evs[CHANNEL_CAP + 1];
    AfterSend(drained, last).(queue := [], taken := evs[..CHANNEL_CAP] + [last])
  }

  lemma OverrunIsReachable(ringCap: int, evs: seq<EventRecord>)
    requires |evs| == CHANNEL_CAP + 2
    ensures SeriallyReachable(Single(NewBroker(ringCap).cap, evs, Overrun(evs)))
  {
    var cap, n := NewBroker(ringCap).cap, CHANNEL_CAP;
    var front := evs[..n];
    FilledIsReachable(ringCap, front);
    PublishAndSend(cap, front, Filled(front), evs[n]);
    var full := AfterSend(Filled(front), evs[n]);
    TakeAll(cap, front + [evs[n]], full);
    assert [] + front == front;
    var drained := full.(queue := [], taken := front);
    PublishAndSend(cap, front + [evs[n]], drained, evs[n + 1]);
    TakeAll(cap, front + [evs[n]] + [evs[n + 1]], AfterSend(drained, evs[n + 1]));
    assert front + [evs[n]] + [evs[n + 1]] == evs;
    assert [] + [evs[n + 1]] == [evs[n + 1]];
  }

  /** The client comes back after its last frame. */
  function Resumed(cap: nat, evs: seq<EventRecord>): State
    requires |evs| == CHANNEL_CAP + 2
  {
    var last := evs[CHANNEL_CAP + 1];
    Single(cap, evs, Overrun(evs)).(subs := map[0 := Overrun(evs), 1 := Sub(true, last.eventId, |evs|, [], multiset{}, [], [], [])])
  }

  /**
   A drop followed by a delivery is lost for good: the channel was full for the 33rd event, the
   34th was delivered, and after it the client resumes.
   */
  lemma DropThenDeliveryIsNotRecovered(ringCap: int, evs: seq<EventRecord>)
    requires Publishable(evs) && |evs| == CHANNEL_CAP + 2
    ensures var s := Resumed(NewBroker(ringCap).cap, evs);
      && SeriallyReachable(s)
      && Resumes(s.log, s.subs[0], s.subs[1], CHANNEL_CAP + 1)
      && Dropped(s.subs[0].attempts) == [evs[CHANNEL_CAP]]
      && evs[CHANNEL_CAP] !in Frames(s.subs[0]) && evs[CHANNEL_CAP] !in Frames(s.subs[1])
  {
    var cap, last := NewBroker(ringCap).cap, evs[CHANNEL_CAP + 1];
    var before := Single(cap, evs, Overrun(evs));
    OverrunIsReachable(ringCap, evs);
    SerialStep(before, Subscribe(1, last.eventId));
    ReplayFromLog(evs, cap, CHANNEL_CAP + 1);
    assert evs[CHANNEL_CAP + 2..] == [];
    assert Next(before, Subscribe(1, last.eventId)) == Resumed(cap, evs);
    OverrunDrops(evs);
  }

  lemma OverrunDrops(evs: seq<EventRecord>)
    requires Publishable(evs) && |evs| == CHANNEL_CAP + 2
    ensures Dropped(Overrun(evs).attempts) == [evs[CHANNEL_CAP]]
    ensures evs[CHANNEL_CAP] !in Frames(Overrun(evs))
    ensures Frames(Overrun(evs)) != [] && Frames(Overrun(evs))[|Frames(Overrun(evs))| - 1] == evs[CHANNEL_CAP + 1]
  {
    var front := evs[..CHANNEL_CAP];
    FilledDropsNothing(front);
    var dropped := Attempt(evs[CHANNEL_CAP], false, 0);
    AttemptSnoc(Filled(front).attempts, dropped);
    AttemptSnoc(Filled(front).attempts + [dropped], Attempt(evs[CHANNEL_CAP + 1], true, CHANNEL_CAP));
    forall k | 0 <= k < CHANNEL_CAP ensures front[k] != evs[CHANNEL_CAP] {
      assert front[k] == evs[k];
    }
  }

  lemma {:induction false} FilledDropsNothing(evs: seq<EventRecord>)
    ensures Dropped(Filled(evs).attempts) == []
  {
    if evs != [] {
      var front := evs[..|evs| - 1];
      FilledDropsNothing(front);
      AttemptSnoc(Filled(front).attempts, Attempt(evs[|evs| - 1], true, 0));
      assert Filled(evs).attempts == Filled(front).attempts + [Attempt(evs[|evs| - 1], true, 0)];
    }
  }
}
