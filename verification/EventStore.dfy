/**
 The events table and its keyset pages. A table is the sequence of its rows in insertion order;
 rows are only ever added. SQLite compares TEXT byte by byte, which orders well-formed UTF-8 as
 its code points, so ids are compared here character by character.
 */
module EventStore {
  import opened Sequences
  import opened StableSort
  import opened Events
  import opened Cursor

  /** A row, together with the record the page endpoint serves for it. */
  datatype Row = Row(eventId: string, sessionId: Option<string>, occurredAt: int, record: EventRecord)

  datatype Page = Page(items: seq<Row>, nextCursor: string) | BadCursor

  predicate TextLe(a: string, b: string) {
    a == "" || (b != "" && (a[0] < b[0] || (a[0] == b[0] && TextLe(a[1..], b[1..]))))
  }

  lemma {:induction false} TextLeTotal(a: string, b: string)
    ensures TextLe(a, b) || TextLe(b, a)
    ensures TextLe(a, b) && TextLe(b, a) ==> a == b
  {
    if a != "" && b != "" {
      TextLeTotal(a[1..], b[1..]);
      assert a == [a[0]] + a[1..] && b == [b[0]] + b[1..];
    }
  }

  /** Character by character: one is a prefix of the other, or the first difference decides. */
  lemma {:induction false} TextLeIsByCharacter(a: string, b: string)
    ensures TextLe(a, b) <==> IsPrefix(a, b) || exists k :: 0 <= k < |a| && k < |b| && a[..k] == b[..k] && a[k] < b[k]
  {
    if a != "" && b != "" {
      TextLeIsByCharacter(a[1..], b[1..]);
      if a[0] == b[0] {
        TailsDecide(a, b);
      } else if a[0] < b[0] {
        assert a[..0] == b[..0] && a[0] < b[0];
      }
    }
  }

  lemma TailsDecide(a: string, b: string)
    requires a != "" && b != "" && a[0] == b[0]
    ensures IsPrefix(a, b) <==> IsPrefix(a[1..], b[1..])
    ensures (exists k :: 0 <= k < |a| && k < |b| && a[..k] == b[..k] && a[k] < b[k])
       <==> exists k :: 0 <= k < |a[1..]| && k < |b[1..]| && a[1..][..k] == b[1..][..k] && a[1..][k] < b[1..][k]
  {
    if k :| 0 <= k < |a| && k < |b| && a[..k] == b[..k] && a[k] < b[k] {
      assert a[1..][..k - 1] == a[..k][1..] && b[1..][..k - 1] == b[..k][1..];
      assert a[1..][k - 1] < b[1..][k - 1];
    }
    if k :| 0 <= k < |a[1..]| && k < |b[1..]| && a[1..][..k] == b[1..][..k] && a[1..][k] < b[1..][k] {
      assert a[..k + 1] == [a[0]] + a[1..][..k] && b[..k + 1] == [b[0]] + b[1..][..k];
      assert a[k + 1] < b[k + 1];
    }
    if IsPrefix(a[1..], b[1..]) {
      assert a == [a[0]] + a[1..] && b[..|a|] == [b[0]] + b[1..][..|a| - 1];
    }
    if IsPrefix(a, b) {
      assert b[..|a|][1..] == b[1..][..|a| - 1];
    }
  }

  lemma {:induction false} TextLeTransitive(a: string, b: string, c: string)
    requires TextLe(a, b) && TextLe(b, c)
    ensures TextLe(a, c)
  {
    if a != "" && a[0] == b[0] == c[0] {
      TextLeTransitive(a[1..], b[1..], c[1..]);
    }
  }

  /** ORDER BY occurred_at ASC, event_id ASC */
  predicate KeyLe(a: Row, b: Row) {
    a.occurredAt < b.occurredAt || (a.occurredAt == b.occurredAt && TextLe(a.eventId, b.eventId))
  }

  predicate KeyLess(a: Row, b: Row) {
    KeyLe(a, b) && !(a.occurredAt == b.occurredAt && a.eventId == b.eventId)
  }

  lemma KeyLeIsPreorder()
    ensures TotalPreorder(KeyLe)
  {
    forall a, b ensures KeyLe(a, b) || KeyLe(b, a) {
      TextLeTotal(a.eventId, b.eventId);
    }
    forall a, b, c | KeyLe(a, b) && KeyLe(b, c) ensures KeyLe(a, c) {
      KeyLeTransitive(a, b, c);
    }
  }

  lemma KeyLeTransitive(a: Row, b: Row, c: Row)
    requires KeyLe(a, b) && KeyLe(b, c)
    ensures KeyLe(a, c)
    ensures KeyLess(a, b) || KeyLess(b, c) ==> KeyLess(a, c)
  {
    if a.occurredAt == b.occurredAt == c.occurredAt {
      TextLeTransitive(a.eventId, b.eventId, c.eventId);
      TextLeTotal(a.eventId, b.eventId);
      TextLeTotal(b.eventId, c.eventId);
    }
  }

  /** The keyset predicate: every row for the first page, else the rows after the cursor. */
  predicate Beyond(c: Cursor, row: Row) {
    match c
    case Start => true
    case After(t, id) =>
      row.occurredAt > t || (row.occurredAt == t && row.eventId != id && TextLe(id, row.eventId))
  }

  function IsBeyond(c: Cursor): Row -> bool {
    row => Beyond(c, row)
  }

  /** The empty thread id is stored and queried as NULL, which equals nothing. */
  function InSession(session: string): Row -> bool {
    (row: Row) => session != "" && row.sessionId == Some(session)
  }

  /** A thread's events in key order. */
  function History(rows: seq<Row>, session: string): seq<Row> {
    Sort(KeyLe, Filter(InSession(session), rows))
  }

  function ListSessionEventsSince(rows: seq<Row>, session: string, c: Cursor, limit: nat): seq<Row> {
    var ordered := Sort(KeyLe, Filter(IsBeyond(c), Filter(InSession(session), rows)));
    if |ordered| <= limit then ordered else ordered[..limit]
  }

  ghost predicate ValidTable(rows: seq<Row>) {
    && (forall i, j :: 0 <= i < j < |rows| ==> rows[i].eventId != rows[j].eventId)
    && (forall r :: r in rows ==> r.eventId != "" && IsInt64(r.occurredAt) && r.record.eventId == r.eventId)
  }

  /** AppendEvent: the primary key refuses a second row with the same id. */
  function AppendEvent(rows: seq<Row>, row: Row): Option<seq<Row>> {
    if exists k :: 0 <= k < |rows| && rows[k].eventId == row.eventId then None else Some(rows + [row])
  }

  lemma AppendKeepsValid(rows: seq<Row>, row: Row)
    requires ValidTable(rows)
    requires row.eventId != "" && IsInt64(row.occurredAt) && row.record.eventId == row.eventId
    ensures AppendEvent(rows, row).Some? ==> ValidTable(AppendEvent(rows, row).value)
    ensures AppendEvent(rows, row).None? <==> exists r :: r in rows && r.eventId == row.eventId
  {
    if k :| 0 <= k < |rows| && rows[k].eventId == row.eventId {
      assert rows[k] in rows;
    }
    if r :| r in rows && r.eventId == row.eventId {
      var k :| 0 <= k < |rows| && rows[k] == r;
    }
  }

  function PageSize(limit: int): nat
    ensures PageSize(limit) >= 1
  {
    if limit <= 0 then 100 else limit
  }

  /** What a page request answers: the first PageSize rows beyond the cursor, and where to go on. */
  function PageOf(rows: seq<Row>, session: string, limit: int, cursor: string): Page {
    match Parse(cursor)
    case Invalid => BadCursor
    case Parsed(c) =>
      var rest := Filter(IsBeyond(c), History(rows, session));
      var size := PageSize(limit);
      if |rest| <= size then Page(rest, "")
      else Page(rest[..size], Format(rest[size - 1].occurredAt, rest[size - 1].eventId))
  }

  /** The first `most` rows beyond the cursor, or all of them; a next cursor exactly if more remain. */
  ghost predicate HoldsUpTo(rows: seq<Row>, session: string, most: nat, cursor: string, page: Page)
    requires page.Page?
  {
    Parse(cursor).Parsed? &&
    var rest := Filter(IsBeyond(Parse(cursor).cursor), History(rows, session));
    && (|rest| <= most ==> page.items == rest && page.nextCursor == "")
    && (|rest| > most ==> |page.items| == most && page.items == rest[..most] && page.nextCursor != "")
  }

  lemma PageHoldsUpTo(rows: seq<Row>, session: string, limit: int, cursor: string)
    requires ValidTable(rows)
    ensures var page := PageOf(rows, session, limit, cursor);
      page.Page? ==> HoldsUpTo(rows, session, if limit <= 0 then 100 else limit, cursor, page)
  {
    if Parse(cursor).Parsed? {
      var rest := Filter(IsBeyond(Parse(cursor).cursor), History(rows, session));
      var size := PageSize(limit);
      if |rest| > size {
        RowHasCursor(rows, session, Parse(cursor).cursor, size - 1);
      }
    }
  }

  lemma RowHasCursor(rows: seq<Row>, session: string, c: Cursor, k: nat)
    requires ValidTable(rows) && k < |Filter(IsBeyond(c), History(rows, session))|
    ensures var r := Filter(IsBeyond(c), History(rows, session))[k]; Format(r.occurredAt, r.eventId) != ""
  {
    var r := Filter(IsBeyond(c), History(rows, session))[k];
    HistoryAscends(rows, session);
    FilterMember(IsBeyond(c), History(rows, session), r);
    CursorRoundTrip(r.occurredAt, r.eventId);
  }

  lemma FetchedIsPrefix(rows: seq<Row>, session: string, c: Cursor, limit: nat)
    ensures var rest := Filter(IsBeyond(c), History(rows, session));
      ListSessionEventsSince(rows, session, c, limit) == if |rest| <= limit then rest else rest[..limit]
  {
    KeyLeIsPreorder();
    SortFilterCommute(KeyLe, IsBeyond(c), Filter(InSession(session), rows));
  }

  /** One row more than the page is fetched; meeting it means that there is a next page. */
  method ListSessionEventsPage(rows: seq<Row>, session: string, limit: int, cursor: string) returns (page: Page)
    ensures page == PageOf(rows, session, limit, cursor)
    ensures page.Page? && ValidTable(rows) ==> HoldsUpTo(rows, session, if limit <= 0 then 100 else limit, cursor, page)
  {
    var size := PageSize(limit);
    var parsed := Parse(cursor);
    if parsed.Invalid? {
      return BadCursor;
    }
    var fetched := ListSessionEventsSince(rows, session, parsed.cursor, size + 1);
    FetchedIsPrefix(rows, session, parsed.cursor, size + 1);
    var items: seq<Row> := [];
    var next := "";
    for idx := 0 to |fetched|
      invariant idx <= size && items == fetched[..idx] && next == ""
    {
      if idx == size {
        var lastItem := items[|items| - 1];
        next := Format(lastItem.occurredAt, lastItem.eventId);
        break;
      }
      items := items + [fetched[idx]];
    }
    page := Page(items, next);
    AnswerHoldsUpTo(rows, session, limit, cursor, page);
  }

  lemma AnswerHoldsUpTo(rows: seq<Row>, session: string, limit: int, cursor: string, page: Page)
    requires page == PageOf(rows, session, limit, cursor)
    ensures page.Page? && ValidTable(rows) ==> HoldsUpTo(rows, session, if limit <= 0 then 100 else limit, cursor, page)
  {
    if ValidTable(rows) {
      PageHoldsUpTo(rows, session, limit, cursor);
    }
  }

  /** Strictly ascending keys: no row twice. */
  ghost predicate Ascending(rows: seq<Row>) {
    forall i, j :: 0 <= i < j < |rows| ==> KeyLess(rows[i], rows[j])
  }

  /** By time, then by id. */
  ghost predicate InKeyOrder(rows: seq<Row>) {
    forall i, j :: 0 <= i < j < |rows| ==>
      || rows[i].occurredAt < rows[j].occurredAt
      || (rows[i].occurredAt == rows[j].occurredAt && rows[i].eventId != rows[j].eventId && TextLe(rows[i].eventId, rows[j].eventId))
  }

  lemma HistoryAscends(rows: seq<Row>, session: string)
    requires ValidTable(rows)
    ensures Ascending(History(rows, session)) && InKeyOrder(History(rows, session))
    ensures forall r :: r in History(rows, session) <==> r in rows && InSession(session)(r)
    ensures forall r :: InSession(session)(r) <==> session != "" && r.sessionId == Some(session)
  {
    var selected := Filter(InSession(session), rows);
    KeyLeIsPreorder();
    SortIsStable(KeyLe, selected);
    SortPermutes(KeyLe, selected);
    forall r ensures r in History(rows, session) <==> r in rows && InSession(session)(r) {
      FilterMember(InSession(session), rows, r);
    }
    var id := (r: Row) => r.eventId;
    FilterKeepsDistinct(id, InSession(session), rows);
    PermutationKeepsDistinct(id, selected, History(rows, session));
    forall i, j | 0 <= i < j < |History(rows, session)|
      ensures KeyLess(History(rows, session)[i], History(rows, session)[j]) {
      assert id(History(rows, session)[i]) != id(History(rows, session)[j]);
    }
  }

  function CursorAt(row: Row): Cursor {
    After(row.occurredAt, row.eventId)
  }

  lemma BeyondIsKeyLess(last: Row, row: Row)
    ensures Beyond(CursorAt(last), row) <==> KeyLess(last, row)
  {
    TextLeTotal(last.eventId, row.eventId);
  }

  /** Beyond the k-th row of an ascending list lies exactly what follows it. */
  lemma RestIsSuffix(rows: seq<Row>, k: nat)
    requires Ascending(rows) && k <= |rows|
    ensures Filter(IsBeyond(if k == 0 then Start else CursorAt(rows[k - 1])), rows) == rows[k..]
  {
    var c := if k == 0 then Start else CursorAt(rows[k - 1]);
    var p := IsBeyond(c);
    assert rows == rows[..k] + rows[k..];
    FilterAppend(p, rows[..k], rows[k..]);
    if k > 0 {
      NoneBefore(rows, k);
    }
    AllAfter(rows, k);
    FilterKeepsNone(p, rows[..k]);
    FilterKeepsAll(p, rows[k..]);
    assert [] + rows[k..] == rows[k..];
  }

  lemma NoneBefore(rows: seq<Row>, k: nat)
    requires Ascending(rows) && 0 < k <= |rows|
    ensures forall r :: r in rows[..k] ==> !Beyond(CursorAt(rows[k - 1]), r)
  {
    forall r | r in rows[..k] ensures !Beyond(CursorAt(rows[k - 1]), r) {
      var i :| 0 <= i < k && rows[i] == r;
      BeyondIsKeyLess(rows[k - 1], r);
      if i < k - 1 {
        assert KeyLess(r, rows[k - 1]);
        TextLeTotal(r.eventId, rows[k - 1].eventId);
      }
    }
  }

  lemma AllAfter(rows: seq<Row>, k: nat)
    requires Ascending(rows) && k <= |rows|
    ensures forall r :: r in rows[k..] ==> Beyond(if k == 0 then Start else CursorAt(rows[k - 1]), r)
  {
    forall r | r in rows[k..] ensures Beyond(if k == 0 then Start else CursorAt(rows[k - 1]), r) {
      var i :| k <= i < |rows| && rows[i] == r;
      if k > 0 {
        BeyondIsKeyLess(rows[k - 1], r);
      }
    }
  }

  /** The cursor text that resumes after the first k rows. */
  function CursorTextAt(rows: seq<Row>, k: nat): string
    requires k <= |rows|
  {
    if k == 0 then "" else Format(rows[k - 1].occurredAt, rows[k - 1].eventId)
  }

  /** What the request for the rows after the first k is to be answered. */
  ghost predicate ServesAt(h: seq<Row>, size: nat, k: nat, page: Page) {
    && k <= |h|
    && (k > 0 ==> CursorTextAt(h, k) != "")
    && (|h| - k <= size ==> page == Page(h[k..], ""))
    && (|h| - k > size ==> page == Page(h[k..k + size], CursorTextAt(h, k + size)) && page.nextCursor != "")
  }

  lemma PageAtPosition(rows: seq<Row>, session: string, limit: int, k: nat)
    requires ValidTable(rows) && k <= |History(rows, session)|
    ensures ServesAt(History(rows, session), PageSize(limit), k,
                     PageOf(rows, session, limit, CursorTextAt(History(rows, session), k)))
  {
    var h, size := History(rows, session), PageSize(limit);
    HistoryAscends(rows, session);
    RestIsSuffix(h, k);
    if k > 0 {
      CursorTextParses(rows, session, k);
    }
    if |h| - k > size {
      CursorTextParses(rows, session, k + size);
    }
    PageFromRest(rows, session, limit, CursorTextAt(h, k), if k == 0 then Start else CursorAt(h[k - 1]), k);
  }

  lemma PageFromRest(rows: seq<Row>, session: string, limit: int, cursor: string, c: Cursor, k: nat)
    requires k <= |History(rows, session)| && Parse(cursor) == Parsed(c)
    requires Filter(IsBeyond(c), History(rows, session)) == History(rows, session)[k..]
    ensures var h, size := History(rows, session), PageSize(limit);
      PageOf(rows, session, limit, cursor)
      == if |h| - k <= size then Page(h[k..], "") else Page(h[k..k + size], CursorTextAt(h, k + size))
  {
    var h, size := History(rows, session), PageSize(limit);
    if |h| - k > size {
      SliceOfRest(h, k, size);
    }
  }

  lemma SliceOfRest<T>(h: seq<T>, k: nat, size: nat)
    requires 0 < size && k + size < |h|
    ensures h[k..][..size] == h[k..k + size] && h[k..][size - 1] == h[k + size - 1] && |h[k..]| == |h| - k
  {
  }

  lemma CursorTextParses(rows: seq<Row>, session: string, k: nat)
    requires ValidTable(rows) && 0 < k <= |History(rows, session)|
    ensures CursorTextAt(History(rows, session), k) != ""
    ensures Parse(CursorTextAt(History(rows, session), k)) == Parsed(CursorAt(History(rows, session)[k - 1]))
  {
    var last := History(rows, session)[k - 1];
    HistoryAscends(rows, session);
    assert last in rows;
    CursorRoundTrip(last.occurredAt, last.eventId);
  }

  /** The number of requests is the least that covers n rows, and at least one. */
  ghost predicate Covers(requests: nat, n: nat, size: nat) {
    requests >= 1 && n <= requests * size && (requests > 1 ==> (requests - 1) * size < n)
  }

  /**
   The paging loop of loadSessionHistory over a table that does not change: it ends, returns
   exactly the thread's rows in key order, and asks as often as the page size requires.
   */
  method LoadAllPages(rows: seq<Row>, session: string, limit: int) returns (persisted: seq<Row>, requests: nat)
    requires ValidTable(rows)
    ensures persisted == History(rows, session)
    ensures Covers(requests, |History(rows, session)|, if limit <= 0 then 100 else limit)
  {
    var cursor, more := "", true;
    persisted, requests := [], 0;
    while more
      invariant OnCourse(History(rows, session), PageSize(limit), persisted, requests, cursor, more)
      decreases |History(rows, session)| - |persisted| + if more then 1 else 0
    {
      NextRequest(rows, session, limit, persisted, requests, cursor);
      var page := ListSessionEventsPage(rows, session, limit, cursor);
      persisted := persisted + page.items;
      cursor := page.nextCursor;
      more := cursor != "";
      requests := requests + 1;
    }
  }

  /** Full pages so far, and the cursor at the last row; or everything, in as many requests as it takes. */
  ghost predicate OnCourse(h: seq<Row>, size: nat, persisted: seq<Row>, requests: nat, cursor: string, more: bool) {
    var k := |persisted|;
    && k <= |h| && persisted == h[..k]
    && (more ==> k == requests * size && (requests == 0 || k < |h|) && cursor == CursorTextAt(h, k))
    && (!more ==> k == |h| && Covers(requests, |h|, size))
  }

  lemma NextRequest(rows: seq<Row>, session: string, limit: int, persisted: seq<Row>, requests: nat, cursor: string)
    requires ValidTable(rows)
    requires OnCourse(History(rows, session), PageSize(limit), persisted, requests, cursor, true)
    ensures Advances(History(rows, session), PageSize(limit), persisted, requests, PageOf(rows, session, limit, cursor))
  {
    PageAtPosition(rows, session, limit, |persisted|);
    PageAdvances(History(rows, session), PageSize(limit), persisted, requests, cursor, PageOf(rows, session, limit, cursor));
  }

  ghost predicate Advances(h: seq<Row>, size: nat, persisted: seq<Row>, requests: nat, page: Page) {
    && page.Page?
    && OnCourse(h, size, persisted + page.items, requests + 1, page.nextCursor, page.nextCursor != "")
    && (page.items != [] || page.nextCursor == "")
  }

  lemma PageAdvances(h: seq<Row>, size: nat, persisted: seq<Row>, requests: nat, cursor: string, page: Page)
    requires size >= 1 && OnCourse(h, size, persisted, requests, cursor, true) && ServesAt(h, size, |persisted|, page)
    ensures Advances(h, size, persisted, requests, page)
  {
    if |h| - |persisted| <= size {
      LastPage(h, size, persisted, requests, cursor);
    } else {
      FullPage(h, size, persisted, requests, cursor);
    }
  }

  lemma LastPage(h: seq<Row>, size: nat, persisted: seq<Row>, requests: nat, cursor: string)
    requires OnCourse(h, size, persisted, requests, cursor, true) && |h| - |persisted| <= size
    ensures OnCourse(h, size, persisted + h[|persisted|..], requests + 1, "", false)
  {
    OneMoreRequest(requests, |persisted|, |h|, size);
    PiecesOf(h, |persisted|, size);
  }

  lemma FullPage(h: seq<Row>, size: nat, persisted: seq<Row>, requests: nat, cursor: string)
    requires OnCourse(h, size, persisted, requests, cursor, true) && |h| - |persisted| > size
    ensures var k := |persisted|;
      OnCourse(h, size, persisted + h[k..k + size], requests + 1, CursorTextAt(h, k + size), true)
  {
    var k := |persisted|;
    OneMoreRequest(requests, k, |h|, size);
    PiecesOf(h, k, size);
    var longer := persisted + h[k..k + size];
    assert longer == h[..k + size] && |longer| == k + size;
    assert k + size == (requests + 1) * size;
  }

  lemma PiecesOf<T>(h: seq<T>, k: nat, size: nat)
    requires k <= |h|
    ensures h[..k] + h[k..] == h && h[..|h|] == h
    ensures k + size <= |h| ==> h[..k] + h[k..k + size] == h[..k + size]
  {
  }

  lemma OneMoreRequest(requests: nat, k: nat, n: nat, size: nat)
    requires k == requests * size && k <= n && (requests == 0 || k < n)
    ensures k + size == (requests + 1) * size
    ensures n <= k + size ==> Covers(requests + 1, n, size)
  {
  }
}
