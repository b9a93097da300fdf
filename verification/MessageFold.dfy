/** Folding sorted items into messages, and the projection of a whole thread. */
module MessageFold {
  import opened Sequences
  import opened Projection

  function FirstId(part: Part): string {
    if part.eventIds == [] then "undefined" else part.eventIds[0]
  }

  function NewAssistantMessage(item: Item): Message
    requires item.AssistantItem?
  {
    Message("assistant-" + FirstId(item.part), AssistantRole, item.timestamp, [])
  }

  function AddPart(open: Option<Message>, item: Item): Message
    requires item.AssistantItem?
  {
    var m := if open.Some? then open.value else NewAssistantMessage(item);
    m.(parts := m.parts + [item.part])
  }

  function Flush(open: Option<Message>): seq<Message> {
    if open.Some? then [open.value] else []
  }

  /** The assistant message still open after an item. */
  function NextOpen(open: Option<Message>, item: Item): Option<Message> {
    if item.UserItem? || item.closes then None else Some(AddPart(open, item))
  }

  /** The messages an item completes. */
  function Completed(open: Option<Message>, item: Item): seq<Message> {
    match item
    case UserItem(_, _, message) => Flush(open) + [message]
    case AssistantItem(_, _, _, closes) => if closes then [AddPart(open, item)] else []
  }

  /** The messages still to come, with an assistant message possibly open. */
  function FoldFrom(open: Option<Message>, items: seq<Item>): seq<Message>
    decreases items
  {
    if items == [] then Flush(open)
    else Completed(open, items[0]) + FoldFrom(NextOpen(open, items[0]), items[1..])
  }

  function Fold(items: seq<Item>): seq<Message> {
    FoldFrom(None, items)
  }

  lemma FoldStep(open: Option<Message>, items: seq<Item>, i: nat)
    requires i < |items|
    ensures FoldFrom(open, items[i..]) == Completed(open, items[i]) + FoldFrom(NextOpen(open, items[i]), items[i + 1..])
  {
    assert items[i..][0] == items[i] && items[i..][1..] == items[i + 1..];
  }

  method FoldItemsIntoMessages(items: seq<Item>) returns (messages: seq<Message>)
    ensures messages == Fold(items)
  {
    messages := [];
    var assistantMessage: Option<Message> := None;
    for i := 0 to |items|
      invariant messages + FoldFrom(assistantMessage, items[i..]) == Fold(items)
    {
      var item := items[i];
      ghost var before, open := messages, assistantMessage;
      FoldStep(open, items, i);
      Assoc(before, Completed(open, item), FoldFrom(NextOpen(open, item), items[i + 1..]));
      match item {
        case UserItem(_, _, message) =>
          if assistantMessage.Some? {
            messages := messages + [assistantMessage.value];
            assistantMessage := None;
          }
          messages := messages + [message];
        case AssistantItem(timestamp, _, part, closes) =>
          if assistantMessage.None? {
            assistantMessage := Some(Message("assistant-" + FirstId(part), AssistantRole, timestamp, []));
          }
          assistantMessage := Some(assistantMessage.value.(parts := assistantMessage.value.parts + [part]));
          if closes {
            messages := messages + [assistantMessage.value];
            assistantMessage := None;
          }
      }
      assert messages == before + Completed(open, item) && assistantMessage == NextOpen(open, item);
    }
    if assistantMessage.Some? {
      messages := messages + [assistantMessage.value];
    }
  }

  // ----- lossless

  datatype Entry = Whole(message: Message) | OnePart(part: Part)

  function PartEntries(parts: seq<Part>): seq<Entry> {
    seq(|parts|, k requires 0 <= k < |parts| => OnePart(parts[k]))
  }

  /** A message taken apart again: a user message is one entry, an assistant message one per part. */
  function MessageEntries(): Message -> seq<Entry> {
    (m: Message) => if m.role == UserRole then [Whole(m)] else PartEntries(m.parts)
  }

  function ItemEntry(item: Item): Entry {
    match item
    case UserItem(_, _, message) => Whole(message)
    case AssistantItem(_, _, part, _) => OnePart(part)
  }

  function ItemEntries(items: seq<Item>): seq<Entry> {
    seq(|items|, k requires 0 <= k < |items| => ItemEntry(items[k]))
  }

  function Entries(messages: seq<Message>): seq<Entry> {
    FlatMap(MessageEntries(), messages)
  }

  ghost predicate UserItemsAreUsers(items: seq<Item>) {
    forall k :: 0 <= k < |items| && items[k].UserItem? ==> items[k].message.role == UserRole
  }

  lemma EntriesAppend(xs: seq<Message>, ys: seq<Message>)
    ensures Entries(xs + ys) == Entries(xs) + Entries(ys)
  {
    FlatMapAppend(MessageEntries(), xs, ys);
  }

  lemma EntriesOne(m: Message)
    ensures Entries([m]) == MessageEntries()(m)
  {
    FlatMapSnoc(MessageEntries(), [m], 0);
    assert [m][..1] == [m] && [m][..0] == [];
  }

  function OpenEntries(open: Option<Message>): seq<Entry> {
    if open.Some? then PartEntries(open.value.parts) else []
  }

  ghost predicate OpenIsAssistant(open: Option<Message>) {
    open.Some? ==> open.value.role == AssistantRole
  }

  lemma FlushEntries(open: Option<Message>)
    requires OpenIsAssistant(open)
    ensures Entries(Flush(open)) == OpenEntries(open)
  {
    if open.Some? {
      EntriesOne(open.value);
    }
  }

  /** One item: what it completes and leaves open holds what was open before, and the item. */
  lemma StepEntries(open: Option<Message>, item: Item)
    requires OpenIsAssistant(open) && (item.UserItem? ==> item.message.role == UserRole)
    ensures OpenIsAssistant(NextOpen(open, item))
    ensures Entries(Completed(open, item)) + OpenEntries(NextOpen(open, item)) == OpenEntries(open) + [ItemEntry(item)]
  {
    match item {
      case UserItem(_, _, message) =>
        FlushEntries(open);
        EntriesAppend(Flush(open), [message]);
        EntriesOne(message);
      case AssistantItem(_, _, _, closes) =>
        assert PartEntries(AddPart(open, item).parts) == OpenEntries(open) + [ItemEntry(item)];
        if closes {
          EntriesOne(AddPart(open, item));
        }
    }
  }

  /** Taking the messages apart gives back the items, in order. */
  lemma {:induction false} FoldFromIsLossless(open: Option<Message>, items: seq<Item>)
    requires UserItemsAreUsers(items) && OpenIsAssistant(open)
    ensures Entries(FoldFrom(open, items)) == OpenEntries(open) + ItemEntries(items)
    decreases items
  {
    if items == [] {
      FlushEntries(open);
    } else {
      var item, rest := items[0], items[1..];
      var next := NextOpen(open, item);
      StepEntries(open, item);
      FoldFromIsLossless(next, rest);
      var done := Completed(open, item);
      calc {
        Entries(FoldFrom(open, items));
        { FoldStep(open, items, 0); EntriesAppend(done, FoldFrom(next, rest)); }
        Entries(done) + Entries(FoldFrom(next, rest));
        Entries(done) + (OpenEntries(next) + ItemEntries(rest));
        { Assoc(Entries(done), OpenEntries(next), ItemEntries(rest)); }
        (OpenEntries(open) + [ItemEntry(item)]) + ItemEntries(rest);
        { Assoc(OpenEntries(open), [ItemEntry(item)], ItemEntries(rest)); ItemEntriesStep(items); }
        OpenEntries(open) + ItemEntries(items);
      }
    }
  }

  lemma ItemEntriesStep(items: seq<Item>)
    requires items != []
    ensures ItemEntries(items) == [ItemEntry(items[0])] + ItemEntries(items[1..])
  {
  }

  /** The fold is lossless, and no assistant message is empty. */
  lemma FoldIsLossless(items: seq<Item>)
    requires UserItemsAreUsers(items)
    ensures Entries(Fold(items)) == ItemEntries(items)
    ensures forall m :: m in Fold(items) && m.role == AssistantRole ==> m.parts != []
  {
    FoldFromIsLossless(None, items);
    NoEmptyAssistant(None, items);
  }

  lemma {:induction false} NoEmptyAssistant(open: Option<Message>, items: seq<Item>)
    requires UserItemsAreUsers(items)
    requires open.Some? ==> open.value.role == AssistantRole && open.value.parts != []
    ensures forall m :: m in FoldFrom(open, items) && m.role == AssistantRole ==> m.parts != []
    decreases items
  {
    if items != [] {
      NoEmptyAssistant(NextOpen(open, items[0]), items[1..]);
    }
  }

  // ----- where it splits

  /** The message is named and dated after the item, which gave its first part. */
  ghost predicate StartedBy(m: Message, item: Item) {
    item.AssistantItem? && m.parts != [] && m.parts[0] == item.part && m.createdAt == item.timestamp
    && (item.part.eventIds != [] ==> m.id == "assistant-" + item.part.eventIds[0])
  }

  /** Every assistant message is named and dated after the item of its first part. */
  lemma AssistantsStartWithTheirFirst(items: seq<Item>)
    requires UserItemsAreUsers(items)
    ensures forall m :: m in Fold(items) && m.role == AssistantRole ==> exists k :: 0 <= k < |items| && StartedBy(m, items[k])
  {
    StartedFrom(None, items, items, 0);
  }

  lemma {:induction false} StartedFrom(open: Option<Message>, items: seq<Item>, all: seq<Item>, n: nat)
    requires n <= |all| && items == all[n..] && UserItemsAreUsers(all)
    requires open.Some? ==> exists k :: 0 <= k < |all| && StartedBy(open.value, all[k])
    ensures forall m :: m in FoldFrom(open, items) && m.role == AssistantRole ==> exists k :: 0 <= k < |all| && StartedBy(m, all[k])
    decreases items
  {
    if items != [] {
      assert items[0] == all[n] && items[1..] == all[n + 1..];
      if items[0].AssistantItem? {
        PartAdded(open, all, n);
      }
      StartedFrom(NextOpen(open, items[0]), items[1..], all, n + 1);
    }
  }

  lemma PartAdded(open: Option<Message>, all: seq<Item>, n: nat)
    requires n < |all| && all[n].AssistantItem?
    requires open.Some? ==> exists k :: 0 <= k < |all| && StartedBy(open.value, all[k])
    ensures exists k :: 0 <= k < |all| && StartedBy(AddPart(open, all[n]), all[k])
  {
    if open.Some? {
      var k :| 0 <= k < |all| && StartedBy(open.value, all[k]);
      assert StartedBy(AddPart(open, all[n]), all[k]);
    } else {
      assert StartedBy(AddPart(open, all[n]), all[n]);
    }
  }

  /** Whether the fold keeps the two items apart. */
  predicate Splits(left: Item, right: Item) {
    left.UserItem? || right.UserItem? || left.closes
  }

  /** No assistant message runs across the end of xs into ys. */
  predicate Closed(xs: seq<Item>, ys: seq<Item>) {
    xs == [] || ys == [] || Splits(xs[|xs| - 1], ys[0])
  }

  lemma {:induction false} FoldFromAppend(open: Option<Message>, xs: seq<Item>, ys: seq<Item>)
    requires xs != [] && Closed(xs, ys)
    ensures FoldFrom(open, xs + ys) == FoldFrom(open, xs) + Fold(ys)
    decreases xs
  {
    var rest, next, done := xs[1..], NextOpen(open, xs[0]), Completed(open, xs[0]);
    assert (xs + ys)[1..] == rest + ys;
    if rest == [] {
      assert rest + ys == ys;
      ClosedBoundary(next, ys);
    } else {
      assert rest[|rest| - 1] == xs[|xs| - 1];
      FoldFromAppend(next, rest, ys);
    }
    Assoc(done, FoldFrom(next, rest), Fold(ys));
  }

  lemma ClosedBoundary(open: Option<Message>, ys: seq<Item>)
    requires open.None? || ys == [] || ys[0].UserItem?
    ensures FoldFrom(open, ys) == Flush(open) + Fold(ys)
  {
    if ys == [] {
      assert Flush(open) + [] == Flush(open);
    } else if open.Some? {
      var m, rest := ys[0].message, FoldFrom(None, ys[1..]);
      assert Flush(None) + [m] == [m];
      Assoc(Flush(open), [m], rest);
    } else {
      assert [] + Fold(ys) == Fold(ys);
    }
  }

  /** Going on with the last message of a fold instead of starting a new one. */
  function RunOn(f: seq<Message>, ys: seq<Item>): seq<Message>
    requires f != []
  {
    f[..|f| - 1] + FoldFrom(Some(f[|f| - 1]), ys)
  }

  /** An assistant message that runs on: the two folds share it. */
  lemma {:induction false} FoldFromRunsOn(open: Option<Message>, xs: seq<Item>, ys: seq<Item>)
    requires xs != [] && ys != [] && !Closed(xs, ys)
    ensures FoldFrom(open, xs) != [] && FoldFrom(open, xs + ys) == RunOn(FoldFrom(open, xs), ys)
    decreases xs
  {
    var rest, next, done := xs[1..], NextOpen(open, xs[0]), Completed(open, xs[0]);
    assert (xs + ys)[1..] == rest + ys;
    if rest == [] {
      assert rest + ys == ys;
      OpenRunsOn(next.value, ys);
    } else {
      assert rest[|rest| - 1] == xs[|xs| - 1];
      FoldFromRunsOn(next, rest, ys);
    }
    PrefixRunsOn(done, FoldFrom(next, rest), ys);
  }

  lemma OpenRunsOn(m: Message, ys: seq<Item>)
    ensures FoldFrom(Some(m), []) == [m] && RunOn([m], ys) == FoldFrom(Some(m), ys)
  {
    assert [m][..0] + FoldFrom(Some(m), ys) == FoldFrom(Some(m), ys);
  }

  lemma PrefixRunsOn(prefix: seq<Message>, f: seq<Message>, ys: seq<Item>)
    requires f != []
    ensures prefix + RunOn(f, ys) == RunOn(prefix + f, ys)
  {
    var g := prefix + f;
    assert g[..|g| - 1] == prefix + f[..|f| - 1];
    Assoc(prefix, f[..|f| - 1], FoldFrom(Some(f[|f| - 1]), ys));
  }

  /** Continuing an open message costs no message of its own. */
  lemma OneMessageFewer(m: Message, ys: seq<Item>)
    requires ys != [] && ys[0].AssistantItem?
    ensures |FoldFrom(Some(m), ys)| == |Fold(ys)|
  {
    SameLength(NextOpen(Some(m), ys[0]), NextOpen(None, ys[0]), ys[1..]);
  }

  lemma {:induction false} SameLength(one: Option<Message>, other: Option<Message>, items: seq<Item>)
    requires one.Some? <==> other.Some?
    ensures |FoldFrom(one, items)| == |FoldFrom(other, items)|
    decreases items
  {
    if items != [] {
      SameLength(NextOpen(one, items[0]), NextOpen(other, items[0]), items[1..]);
    }
  }

  /** Folding two pieces separately gives the fold of the whole exactly when the boundary is closed. */
  lemma FoldAppendsIffClosed(xs: seq<Item>, ys: seq<Item>)
    ensures Fold(xs + ys) == Fold(xs) + Fold(ys) <==> Closed(xs, ys)
  {
    if xs == [] {
      assert xs + ys == ys && Fold(xs) + Fold(ys) == Fold(ys);
    } else if Closed(xs, ys) {
      FoldFromAppend(None, xs, ys);
    } else {
      FoldFromRunsOn(None, xs, ys);
      OneMessageFewer(Fold(xs)[|Fold(xs)| - 1], ys);
    }
  }

  /** How many entries the first k messages have: where the k-th boundary lies in the items. */
  function BoundaryAt(messages: seq<Message>, k: nat): nat
    requires k <= |messages|
  {
    |Entries(messages[..k])|
  }

  /** Two neighbouring items end up in different messages exactly when the rule says so. */
  lemma SplitsOnlyWhereItMust(items: seq<Item>, c: nat)
    requires UserItemsAreUsers(items) && 0 < c < |items|
    ensures (exists k :: 0 <= k <= |Fold(items)| && BoundaryAt(Fold(items), k) == c)
       <==> Splits(items[c - 1], items[c])
  {
    var xs, ys := items[..c], items[c..];
    assert items == xs + ys && xs[|xs| - 1] == items[c - 1] && ys[0] == items[c];
    var whole, left := Fold(items), Fold(xs);
    FoldIsLossless(xs);
    if Splits(items[c - 1], items[c]) {
      FoldAppendsIffClosed(xs, ys);
      assert whole[..|left|] == left;
      assert BoundaryAt(whole, |left|) == c;
    } else {
      FoldFromRunsOn(None, xs, ys);
      forall k | 0 <= k <= |whole| ensures BoundaryAt(whole, k) != c {
        BoundaryMisses(items, c, k);
      }
    }
  }

  lemma BoundaryMisses(items: seq<Item>, c: nat, k: nat)
    requires UserItemsAreUsers(items) && 0 < c < |items| && !Splits(items[c - 1], items[c])
    requires k <= |Fold(items)|
    ensures BoundaryAt(Fold(items), k) != c
  {
    var xs, ys := items[..c], items[c..];
    assert items == xs + ys && xs[|xs| - 1] == items[c - 1] && ys[0] == items[c];
    FoldFromRunsOn(None, xs, ys);
    var left := Fold(xs);
    LastHasParts(xs);
    var front, last := left[..|left| - 1], left[|left| - 1];
    ContinuedEntries(last, ys);
    BoundarySkips(front, last, FoldFrom(Some(last), ys), k);
  }

  lemma LastHasParts(xs: seq<Item>)
    requires UserItemsAreUsers(xs) && xs != [] && xs[|xs| - 1].AssistantItem?
    ensures var f := Fold(xs);
      && f != [] && f[..|f| - 1] + [f[|f| - 1]] == f
      && f[|f| - 1].role == AssistantRole && f[|f| - 1].parts != []
      && |Entries(f)| == |xs|
  {
    FoldIsLossless(xs);
    LastIsAssistant(None, xs);
    LastOfSeq(Fold(xs));
  }

  lemma LastOfSeq<T>(xs: seq<T>)
    requires xs != []
    ensures xs[..|xs| - 1] + [xs[|xs| - 1]] == xs && xs[|xs| - 1] in xs
  {
  }

  /** A message that grew leaves no boundary where it ended before. */
  lemma BoundarySkips(front: seq<Message>, last: Message, rest: seq<Message>, k: nat)
    requires last.role == AssistantRole && last.parts != []
    requires rest != [] && rest[0].role == AssistantRole && |rest[0].parts| > |last.parts|
    requires k <= |front + rest|
    ensures |Entries((front + rest)[..k])| != |Entries(front + [last])|
  {
    var whole := front + rest;
    EntriesAppend(front, [last]);
    EntriesOne(last);
    if k <= |front| {
      assert whole[..|front|] == front;
      EntriesGrow(whole, k, |front|);
    } else {
      assert whole[..|front| + 1] == front + [rest[0]];
      EntriesAppend(front, [rest[0]]);
      EntriesOne(rest[0]);
      EntriesGrow(whole, |front| + 1, k);
    }
  }

  lemma {:induction false} LastIsAssistant(open: Option<Message>, xs: seq<Item>)
    requires xs != [] && xs[|xs| - 1].AssistantItem?
    requires OpenIsAssistant(open)
    ensures var f := FoldFrom(open, xs); f != [] && f[|f| - 1].role == AssistantRole
    decreases xs
  {
    var rest := xs[1..];
    if rest == [] {
      assert FoldFrom(NextOpen(open, xs[0]), rest) == Flush(NextOpen(open, xs[0]));
    } else {
      assert rest[|rest| - 1] == xs[|xs| - 1];
      LastIsAssistant(NextOpen(open, xs[0]), rest);
    }
  }

  /** The first message of a continued fold has more parts than the one it continues. */
  lemma {:induction false} ContinuedEntries(m: Message, ys: seq<Item>)
    requires m.role == AssistantRole && ys != [] && ys[0].AssistantItem?
    ensures var f := FoldFrom(Some(m), ys);
      && f != [] && f[0].role == AssistantRole && |f[0].parts| > |m.parts|
    decreases ys
  {
    var next := AddPart(Some(m), ys[0]);
    if !ys[0].closes {
      if ys[1..] != [] && ys[1..][0].AssistantItem? {
        ContinuedEntries(next, ys[1..]);
      } else {
        ClosedBoundary(Some(next), ys[1..]);
      }
    }
  }

  lemma {:induction false} EntriesGrow(messages: seq<Message>, j: nat, k: nat)
    requires j <= k <= |messages|
    ensures |Entries(messages[..j])| <= |Entries(messages[..k])|
  {
    if j < k {
      EntriesGrow(messages, j, k - 1);
      assert messages[..k] == messages[..k - 1] + [messages[k - 1]];
      EntriesAppend(messages[..k - 1], [messages[k - 1]]);
    }
  }
}
