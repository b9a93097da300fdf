/**
 loadSessionHistory: pages are requested one after another while rows may be inserted between
 requests. Each request sees the table as it is when the server answers it.
 */
module Backfill {
  import opened Sequences
  import opened Events
  import opened Cursor
  import opened EventStore
  import opened SessionMerge

  const PAGE_LIMIT := 500

  /** The loop's variables: rows received so far, the cursor to send, and whether it has ended. */
  datatype Paging = Paging(persisted: seq<Row>, cursor: string, done: bool)

  const FIRST_REQUEST := Paging([], "", false)

  function Receive(p: Paging, page: Page): Paging
    requires page.Page?
  {
    Paging(p.persisted + page.items, page.nextCursor, page.nextCursor == "")
  }

  /** The cursor text of a request that is still to be sent. */
  ghost predicate CursorIsLastRow(p: Paging) {
    p.cursor == CursorTextAt(p.persisted, |p.persisted|)
  }

  /**
   What holds before every request. `start` is the table when the first request was answered,
   `now` any later one.
   */
  ghost predicate Progress(p: Paging, session: string, start: seq<Row>, now: seq<Row>) {
    && Ascending(p.persisted)
    && (forall r :: r in p.persisted ==> r in now && InSession(session)(r))
    && (forall r :: r in start && InSession(session)(r) ==> r in p.persisted || !p.done)
    && (!p.done ==> CursorIsLastRow(p))
    && (!p.done && p.persisted != [] ==>
          forall r :: r in start && InSession(session)(r) && !KeyLess(p.persisted[|p.persisted| - 1], r) ==> r in p.persisted)
  }

  lemma FirstRequestProgress(session: string, start: seq<Row>)
    ensures Progress(FIRST_REQUEST, session, start, start)
  {
  }

  lemma ProgressSurvivesInserts(p: Paging, session: string, start: seq<Row>, now: seq<Row>, later: seq<Row>)
    requires Progress(p, session, start, now) && forall r :: r in now ==> r in later
    ensures Progress(p, session, start, later)
  {
  }

  /** The key position a request starts from. */
  ghost function Position(p: Paging): Cursor {
    if p.persisted == [] then Start else CursorAt(p.persisted[|p.persisted| - 1])
  }

  lemma CursorParses(p: Paging, session: string, start: seq<Row>, now: seq<Row>)
    requires Progress(p, session, start, now) && ValidTable(now) && !p.done
    ensures Parse(p.cursor) == Parsed(Position(p))
  {
    if p.persisted != [] {
      var last := p.persisted[|p.persisted| - 1];
      assert last in now;
      CursorRoundTrip(last.occurredAt, last.eventId);
    }
  }

  /** The rows a page may take from: those of the thread that lie beyond the position. */
  lemma RestAscends(p: Paging, session: string, now: seq<Row>)
    requires ValidTable(now)
    ensures IsRest(Filter(IsBeyond(Position(p)), History(now, session)), p, session, now)
  {
    var h, beyond := History(now, session), IsBeyond(Position(p));
    HistoryAscends(now, session);
    FilterAscends(beyond, h);
    forall r ensures r in Filter(beyond, h) <==> r in now && InSession(session)(r) && Beyond(Position(p), r) {
      FilterMember(beyond, h, r);
    }
  }

  lemma {:induction false} FilterAscends(p: Row -> bool, rows: seq<Row>)
    requires Ascending(rows)
    ensures Ascending(Filter(p, rows))
  {
    if rows != [] {
      var tail := rows[1..];
      FilterAscends(p, tail);
      var kept := Filter(p, tail);
      forall j | 0 <= j < |kept| ensures KeyLess(rows[0], kept[j]) {
        FilterMember(p, tail, kept[j]);
        var k :| 0 <= k < |tail| && tail[k] == kept[j];
        assert rows[k + 1] == kept[j];
      }
    }
  }

  lemma AscendingAppend(xs: seq<Row>, ys: seq<Row>)
    requires Ascending(xs) && Ascending(ys)
    requires xs != [] ==> forall y :: y in ys ==> KeyLess(xs[|xs| - 1], y)
    ensures Ascending(xs + ys)
  {
    forall i, j | 0 <= i < |xs| && 0 <= j < |ys| ensures KeyLess(xs[i], ys[j]) {
      var last := xs[|xs| - 1];
      assert ys[j] in ys;
      if i < |xs| - 1 {
        KeyLeTransitive(xs[i], last, ys[j]);
      }
    }
  }

  /**
   One request: the cursor is accepted, the position only moves forward, no row comes twice, and
   nothing stored at the start is passed over.
   */
  lemma RequestKeepsProgress(p: Paging, session: string, limit: int, start: seq<Row>, now: seq<Row>)
    requires Progress(p, session, start, now) && ValidTable(now) && !p.done
    requires forall r :: r in start ==> r in now
    ensures var page := PageOf(now, session, limit, p.cursor);
      && page.Page?
      && Progress(Receive(p, page), session, start, now)
      && (p.persisted != [] && page.items != [] ==>
            KeyLess(p.persisted[|p.persisted| - 1], page.items[|page.items| - 1]))
      && (!Receive(p, page).done ==> page.items != [])
  {
    var page := PageOf(now, session, limit, p.cursor);
    var rest := PageShape(p, session, limit, start, now);
    PageKeepsProgress(p, session, start, now, rest, page);
  }

  /** What a page has to do with the rows beyond the position. */
  ghost predicate IsPageOf(page: Page, rest: seq<Row>) {
    && page.Page? && |page.items| <= |rest| && page.items == rest[..|page.items|]
    && (page.nextCursor == "" ==> page.items == rest)
    && (page.nextCursor != "" ==> page.items != [] && page.nextCursor == CursorTextAt(page.items, |page.items|))
  }

  /** Exactly the thread's rows that lie beyond the position, in key order. */
  ghost predicate IsRest(rest: seq<Row>, p: Paging, session: string, now: seq<Row>) {
    && Ascending(rest)
    && forall r :: r in rest <==> r in now && InSession(session)(r) && Beyond(Position(p), r)
  }

  lemma PageKeepsProgress(p: Paging, session: string, start: seq<Row>, now: seq<Row>, rest: seq<Row>, page: Page)
    requires Progress(p, session, start, now) && !p.done && forall r :: r in start ==> r in now
    requires IsRest(rest, p, session, now) && IsPageOf(page, rest)
    ensures Progress(Receive(p, page), session, start, now)
    ensures p.persisted != [] && page.items != [] ==>
      KeyLess(p.persisted[|p.persisted| - 1], page.items[|page.items| - 1])
  {
    var n := |page.items|;
    if p.persisted != [] {
      RestLiesBeyond(p, session, now, rest);
    }
    PageIsPrefix(rest, page, n);
    assert page.items != [] ==> page.items[n - 1] in page.items;
    AscendingAppend(p.persisted, page.items);
    NothingPassedOver(p, session, start, now, rest, page);
    RestBelongs(p.persisted, page.items, rest, session, now);
  }

  lemma RestBelongs(persisted: seq<Row>, items: seq<Row>, rest: seq<Row>, session: string, now: seq<Row>)
    requires forall r :: r in persisted ==> r in now && InSession(session)(r)
    requires forall r :: r in items ==> r in rest
    requires forall r :: r in rest ==> r in now && InSession(session)(r)
    ensures forall r :: r in persisted + items ==> r in now && InSession(session)(r)
  {
  }

  lemma RestLiesBeyond(p: Paging, session: string, now: seq<Row>, rest: seq<Row>)
    requires IsRest(rest, p, session, now) && p.persisted != []
    ensures forall r :: r in rest ==> KeyLess(p.persisted[|p.persisted| - 1], r)
  {
    forall r | r in rest ensures KeyLess(p.persisted[|p.persisted| - 1], r) {
      BeyondIsKeyLess(p.persisted[|p.persisted| - 1], r);
    }
  }

  /** A page is a prefix of what lies beyond the position, and all of it if there is no next page. */
  lemma PageShape(p: Paging, session: string, limit: int, start: seq<Row>, now: seq<Row>) returns (rest: seq<Row>)
    requires Progress(p, session, start, now) && ValidTable(now) && !p.done
    ensures IsRest(rest, p, session, now) && IsPageOf(PageOf(now, session, limit, p.cursor), rest)
    ensures var page := PageOf(now, session, limit, p.cursor);
      page.nextCursor != "" ==> |page.items| == PageSize(limit) < |rest|
  {
    CursorParses(p, session, start, now);
    RestAscends(p, session, now);
    rest := Filter(IsBeyond(Position(p)), History(now, session));
    var size := PageSize(limit);
    if |rest| > size {
      assert rest[size - 1] in rest;
      CursorRoundTrip(rest[size - 1].occurredAt, rest[size - 1].eventId);
    }
  }

  lemma PageIsPrefix(rest: seq<Row>, page: Page, n: nat)
    requires Ascending(rest) && n <= |rest| && page.Page? && page.items == rest[..n]
    ensures Ascending(page.items)
    ensures forall r :: r in page.items ==> r in rest
    ensures 0 < n ==> forall r :: r in rest && !KeyLess(rest[n - 1], r) ==> r in page.items
  {
    forall r | r in rest && 0 < n && !KeyLess(rest[n - 1], r) ensures r in page.items {
      var k :| 0 <= k < |rest| && rest[k] == r;
      assert k < n;
      assert page.items[k] == r;
    }
  }

  lemma NothingPassedOver(p: Paging, session: string, start: seq<Row>, now: seq<Row>, rest: seq<Row>, page: Page)
    requires Progress(p, session, start, now) && !p.done && page.Page?
    requires forall r :: r in start ==> r in now
    requires forall r :: r in rest <==> r in now && InSession(session)(r) && Beyond(Position(p), r)
    requires page.nextCursor == "" ==> page.items == rest
    requires page.nextCursor != "" ==> page.items != []
    requires page.items != [] ==>
      forall r :: r in rest && !KeyLess(page.items[|page.items| - 1], r) ==> r in page.items
    requires page.items != [] && p.persisted != [] ==> KeyLess(p.persisted[|p.persisted| - 1], page.items[|page.items| - 1])
    ensures var q := Receive(p, page);
      && (forall r :: r in start && InSession(session)(r) ==> r in q.persisted || !q.done)
      && (!q.done && q.persisted != [] ==>
            forall r :: r in start && InSession(session)(r) && !KeyLess(q.persisted[|q.persisted| - 1], r) ==> r in q.persisted)
  {
    var q := Receive(p, page);
    forall r | r in start && InSession(session)(r) && r !in q.persisted
      ensures !q.done && (q.persisted != [] ==> KeyLess(q.persisted[|q.persisted| - 1], r)) {
      if p.persisted != [] {
        BeyondIsKeyLess(p.persisted[|p.persisted| - 1], r);
      }
      assert Beyond(Position(p), r) && r in rest;
      assert r !in page.items;
    }
  }

  /** Tables seen by successive requests: rows are only ever added. */
  ghost predicate OnlyInserts(tables: seq<seq<Row>>) {
    && (forall i :: 0 <= i < |tables| ==> ValidTable(tables[i]))
    && (forall i, j :: 0 <= i <= j < |tables| ==> forall r :: r in tables[i] ==> r in tables[j])
  }

  /** The loop after one request per table, stopping where it ends. */
  function PageThrough(tables: seq<seq<Row>>, session: string, limit: int): Paging {
    if tables == [] then FIRST_REQUEST
    else
      var p := PageThrough(tables[..|tables| - 1], session, limit);
      if p.done then p
      else
        var page := PageOf(tables[|tables| - 1], session, limit, p.cursor);
        if page.BadCursor? then p else Receive(p, page)
  }

  /**
   However rows are inserted between requests: no id is returned twice, only rows of the thread
   are returned, and when the loop has ended every row of the thread that was stored before the
   first request has been returned exactly once.
   */
  lemma PagingUnderInserts(tables: seq<seq<Row>>, session: string, limit: int)
    requires OnlyInserts(tables) && tables != []
    ensures var p := PageThrough(tables, session, limit);
      && (forall i, j :: 0 <= i < j < |p.persisted| ==> p.persisted[i].eventId != p.persisted[j].eventId)
      && (forall r :: r in p.persisted ==> r in tables[|tables| - 1] && InSession(session)(r))
      && (p.done ==> forall r :: r in tables[0] && InSession(session)(r) ==> multiset(p.persisted)[r] == 1)
  {
    PagingMakesProgress(tables, session, limit);
    var p, now := PageThrough(tables, session, limit), tables[|tables| - 1];
    forall i, j | 0 <= i < j < |p.persisted| ensures p.persisted[i].eventId != p.persisted[j].eventId {
      assert KeyLess(p.persisted[i], p.persisted[j]);
      assert p.persisted[i] in now && p.persisted[j] in now;
    }
    var id := (r: Row) => r.eventId;
    forall r | p.done && r in tables[0] && InSession(session)(r) ensures multiset(p.persisted)[r] == 1 {
      var k :| 0 <= k < |p.persisted| && p.persisted[k] == r;
      OccursOnce(id, p.persisted, k);
    }
  }

  lemma {:induction false} PagingMakesProgress(tables: seq<seq<Row>>, session: string, limit: int)
    requires OnlyInserts(tables) && tables != []
    ensures Progress(PageThrough(tables, session, limit), session, tables[0], tables[|tables| - 1])
  {
    var n := |tables| - 1;
    var before, now := tables[..n], tables[n];
    var p := PageThrough(before, session, limit);
    if n == 0 {
      FirstRequestProgress(session, tables[0]);
    } else {
      PagingMakesProgress(before, session, limit);
      assert before[n - 1] == tables[n - 1] && before[0] == tables[0];
      ProgressSurvivesInserts(p, session, tables[0], tables[n - 1], now);
    }
    if !p.done {
      RequestKeepsProgress(p, session, limit, tables[0], now);
    }
  }

  /** A load that goes on has received full pages only, and a row of the thread follows what it has. */
  ghost predicate FullSoFar(p: Paging, session: string, size: nat, requests: nat, now: seq<Row>) {
    && |p.persisted| == size * requests
    && exists r :: r in now && InSession(session)(r) && p.persisted != [] && KeyLess(p.persisted[|p.persisted| - 1], r)
  }

  lemma {:induction false} GoesOnFull(tables: seq<seq<Row>>, session: string, limit: int)
    requires OnlyInserts(tables) && tables != [] && !PageThrough(tables, session, limit).done
    ensures FullSoFar(PageThrough(tables, session, limit), session, PageSize(limit), |tables|, tables[|tables| - 1])
  {
    var n := |tables| - 1;
    var before, now := tables[..n], tables[n];
    var p := PageThrough(before, session, limit);
    if n == 0 {
      FirstRequestProgress(session, now);
    } else {
      GoesOnFull(before, session, limit);
      PagingMakesProgress(before, session, limit);
      ProgressSurvivesInserts(p, session, tables[0], tables[n - 1], now);
    }
    FullPage(p, session, limit, tables[0], now, n);
  }

  lemma FullPage(p: Paging, session: string, limit: int, start: seq<Row>, now: seq<Row>, requests: nat)
    requires Progress(p, session, start, now) && ValidTable(now) && !p.done && |p.persisted| == PageSize(limit) * requests
    requires forall r :: r in start ==> r in now
    ensures var page := PageOf(now, session, limit, p.cursor);
      page.Page? && (!Receive(p, page).done ==> FullSoFar(Receive(p, page), session, PageSize(limit), requests + 1, now))
  {
    var page, size := PageOf(now, session, limit, p.cursor), PageSize(limit);
    var rest := PageShape(p, session, limit, start, now);
    if page.nextCursor != "" {
      assert rest[size] in rest;
      RowFollows(p.persisted, page.items, rest, size);
      OnePageMore(size, requests);
    }
  }

  lemma RowFollows(persisted: seq<Row>, items: seq<Row>, rest: seq<Row>, size: nat)
    requires Ascending(rest) && 0 < size < |rest| && items == rest[..size]
    ensures var all := persisted + items; all != [] && KeyLess(all[|all| - 1], rest[size])
  {
    LastOfAppend(persisted, items);
  }

  lemma OnePageMore(size: nat, requests: nat)
    ensures size * requests + size == size * (requests + 1)
  {
  }

  /** Distinct elements of a list are no more than the list has. */
  lemma {:induction false} DistinctFit<T>(xs: seq<T>, ys: seq<T>)
    requires (forall i, j :: 0 <= i < j < |xs| ==> xs[i] != xs[j]) && forall x :: x in xs ==> x in ys
    ensures |xs| <= |ys|
    decreases |xs|
  {
    if xs != [] {
      assert xs[0] in xs;
      var k :| 0 <= k < |ys| && ys[k] == xs[0];
      var others := ys[..k] + ys[k + 1..];
      forall x | x in xs[1..] ensures x in others {
        var i :| 1 <= i < |xs| && xs[i] == x;
        assert xs[i] in xs;
        var j :| 0 <= j < |ys| && ys[j] == x;
        assert j != k;
        assert others[if j < k then j else j - 1] == x;
      }
      DistinctFit(xs[1..], others);
    }
  }

  /** Under inserts, too, paging ends: as soon as there were enough requests for what the thread has by then. */
  lemma PagingEnds(tables: seq<seq<Row>>, session: string, limit: int)
    requires OnlyInserts(tables) && tables != []
    requires (if limit <= 0 then 100 else limit) * |tables| >= |History(tables[|tables| - 1], session)|
    ensures PageThrough(tables, session, limit).done
  {
    var p, now := PageThrough(tables, session, limit), tables[|tables| - 1];
    if !p.done {
      PagingMakesProgress(tables, session, limit);
      GoesOnFull(tables, session, limit);
      MoreThanPaged(p, session, tables[0], now);
    }
  }

  /** With the page size that the client asks for. */
  lemma LoadPages(rows: seq<Row>, session: string, cursor: string)
    requires ValidTable(rows)
    ensures var page := PageOf(rows, session, PAGE_LIMIT, cursor);
      page.Page? ==> HoldsUpTo(rows, session, 500, cursor, page)
  {
    PageHoldsUpTo(rows, session, PAGE_LIMIT, cursor);
  }

  /** And with that many requests. */
  lemma LoadEnds(tables: seq<seq<Row>>, session: string)
    requires OnlyInserts(tables) && tables != [] && 500 * |tables| >= |History(tables[|tables| - 1], session)|
    ensures PageThrough(tables, session, PAGE_LIMIT).done
  {
    PagingEnds(tables, session, PAGE_LIMIT);
  }

  lemma MoreThanPaged(p: Paging, session: string, start: seq<Row>, now: seq<Row>)
    requires ValidTable(now) && Progress(p, session, start, now)
    requires exists r :: r in now && InSession(session)(r) && p.persisted != [] && KeyLess(p.persisted[|p.persisted| - 1], r)
    ensures |p.persisted| < |History(now, session)|
  {
    var r :| r in now && InSession(session)(r) && p.persisted != [] && KeyLess(p.persisted[|p.persisted| - 1], r);
    var more := p.persisted + [r];
    AscendingAppend(p.persisted, [r]);
    HistoryAscends(now, session);
    forall i, j | 0 <= i < j < |more| ensures more[i] != more[j] {
      assert KeyLess(more[i], more[j]);
    }
    DistinctFit(more, History(now, session));
  }

  /** From one request to the next the cursor strictly increases. */
  lemma CursorsIncrease(tables: seq<seq<Row>>, session: string, limit: int, t: int, id: string)
    requires OnlyInserts(tables) && |tables| >= 2
    requires var p := PageThrough(tables[..|tables| - 1], session, limit);
      !p.done && Parse(p.cursor) == Parsed(After(t, id))
    ensures var q := PageThrough(tables, session, limit);
      q.done || (Parse(q.cursor).Parsed? && Parse(q.cursor).cursor.After?
                 && var c := Parse(q.cursor).cursor;
                   t < c.occurredAt || (t == c.occurredAt && id != c.eventId && TextLe(id, c.eventId)))
  {
    var n := |tables| - 1;
    var before, now := tables[..n], tables[n];
    var p, q := PageThrough(before, session, limit), PageThrough(tables, session, limit);
    PagingMakesProgress(before, session, limit);
    assert before[n - 1] == tables[n - 1] && before[0] == tables[0];
    ProgressSurvivesInserts(p, session, tables[0], tables[n - 1], now);
    RequestKeepsProgress(p, session, limit, tables[0], now);
    CursorParses(p, session, tables[0], now);
    if !q.done {
      CursorParses(q, session, tables[0], now);
    }
  }

  function Records(rows: seq<Row>): seq<EventRecord> {
    seq(|rows|, i requires 0 <= i < |rows| => rows[i].record)
  }

  /** A load that has ended stays as it is. */
  lemma {:induction false} DoneStays(tables: seq<seq<Row>>, session: string, limit: int, n: nat)
    requires n <= |tables| && PageThrough(tables[..n], session, limit).done
    ensures PageThrough(tables, session, limit) == PageThrough(tables[..n], session, limit)
    decreases |tables|
  {
    if n == |tables| {
      assert tables[..n] == tables;
    } else {
      var front := tables[..|tables| - 1];
      assert front[..n] == tables[..n];
      DoneStays(front, session, limit, n);
    }
  }

  /** Each request but the first follows a page, and is well-formed. */
  lemma RequestSucceeds(tables: seq<seq<Row>>, session: string, n: nat)
    requires OnlyInserts(tables) && n < |tables| && !PageThrough(tables[..n], session, PAGE_LIMIT).done
    ensures var p := PageThrough(tables[..n], session, PAGE_LIMIT);
      && PageOf(tables[n], session, PAGE_LIMIT, p.cursor).Page?
      && PageThrough(tables[..n + 1], session, PAGE_LIMIT) == Receive(p, PageOf(tables[n], session, PAGE_LIMIT, p.cursor))
  {
    var before, now := tables[..n], tables[n];
    var p := PageThrough(before, session, PAGE_LIMIT);
    assert tables[..n + 1][..n] == before;
    if n == 0 {
      FirstRequestProgress(session, now);
      RequestKeepsProgress(p, session, PAGE_LIMIT, now, now);
    } else {
      PagingMakesProgress(before, session, PAGE_LIMIT);
      ProgressSurvivesInserts(p, session, before[0], before[n - 1], now);
      RequestKeepsProgress(p, session, PAGE_LIMIT, before[0], now);
    }
  }

  /**
   The paging loop, then the merge with what was buffered. Request k is answered from tables[k];
   the load is still running if the tables are used up before it ends.
   */
  method LoadSessionHistory(loc: Collator, tables: seq<seq<Row>>, session: string, buffered: seq<EventRecord>)
    returns (events: Option<seq<EventRecord>>)
    requires OnlyInserts(tables)
    ensures var p := PageThrough(tables, session, PAGE_LIMIT);
      events == if p.done then Some(Merge(loc, Records(p.persisted) + buffered)) else None
  {
    var persisted: seq<Row>, cursor, more, n := [], "", true, 0;
    while more && n < |tables|
      invariant n <= |tables| && PageThrough(tables[..n], session, PAGE_LIMIT) == Paging(persisted, cursor, !more)
    {
      RequestSucceeds(tables, session, n);
      var page := ListSessionEventsPage(tables[n], session, PAGE_LIMIT, cursor);
      persisted := persisted + page.items;
      cursor := page.nextCursor;
      more := cursor != "";
      n := n + 1;
    }
    if more {
      assert tables[..n] == tables;
      return None;
    }
    DoneStays(tables, session, PAGE_LIMIT, n);
    var collections := [Records(persisted), buffered];
    FlattenTwo(collections);
    var merged := MergeSessionEvents(loc, collections);
    return Some(merged);
  }
}
