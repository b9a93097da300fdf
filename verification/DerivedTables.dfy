/**
 The sessions and mcp_calls tables, which ingest updates event by event with COALESCE and
 fill-if-empty rules. The two theorems at the end say what each row holds as a function of the
 whole history of accepted events.
 */
module DerivedTables {
  import opened Sequences

  /** The payload fields ingest reads; "" stands for an absent one. */
  datatype Parsed = Parsed(name: string, model: string, cwd: string, approvalPolicy: string, threadName: string)

  /**
   An accepted event, with the clock at the time and the one-line summary of its message (empty
   if the message is blank).
   */
  datatype Accepted = Accepted(
    sessionId: string,
    sourceKey: string,
    proxyInstanceId: string,
    requestId: string,
    direction: string,
    category: string,
    eventType: string,
    occurredAt: int,
    parsed: Parsed,
    summary: string,
    now: int)

  datatype SessionRow = SessionRow(
    sourceKey: string,
    model: Option<string>,
    cwd: Option<string>,
    approvalPolicy: Option<string>,
    title: Option<string>,
    firstSeenAt: int,
    lastSeenAt: int)

  datatype CallRow = CallRow(
    proxyInstanceId: string,
    sourceKey: string,
    sessionId: Option<string>,
    toolName: string,
    startedAt: int,
    completedAt: Option<int>,
    completionStatus: Option<string>)

  datatype Tables = Tables(sessions: map<string, SessionRow>, calls: map<string, CallRow>)

  const EMPTY := Tables(map[], map[])

  function NullString(s: string): Option<string> {
    if s == "" then None else Some(s)
  }

  function NullInt64(v: int): Option<int> {
    if v == 0 then None else Some(v)
  }

  function Coalesce<T>(first: Option<T>, second: Option<T>): Option<T> {
    if first.Some? then first else second
  }

  function UpsertSession(sessions: map<string, SessionRow>, id: string, sourceKey: string,
                         model: string, cwd: string, approval: string, now: int): map<string, SessionRow>
  {
    if id !in sessions then
      sessions[id := SessionRow(sourceKey, NullString(model), NullString(cwd), NullString(approval), None, now, now)]
    else
      var row := sessions[id];
      sessions[id := row.(
        sourceKey := sourceKey,
        model := Coalesce(NullString(model), row.model),
        cwd := Coalesce(NullString(cwd), row.cwd),
        approvalPolicy := Coalesce(NullString(approval), row.approvalPolicy),
        lastSeenAt := now)]
  }

  function SetTitleAlways(sessions: map<string, SessionRow>, id: string, title: string): map<string, SessionRow> {
    if id == "" || title == "" || id !in sessions then sessions
    else sessions[id := sessions[id].(title := Some(title))]
  }

  function SetTitleIfEmpty(sessions: map<string, SessionRow>, id: string, title: string): map<string, SessionRow> {
    if id == "" || title == "" || id !in sessions then sessions
    else if sessions[id].title == None || sessions[id].title == Some("") then
      sessions[id := sessions[id].(title := Some(title))]
    else sessions
  }

  /** On conflict the tool name, the start and the owner stay; nulls never overwrite. */
  function UpsertCall(calls: map<string, CallRow>, id: string, row: CallRow): map<string, CallRow> {
    if id !in calls then calls[id := row]
    else
      var present := calls[id];
      calls[id := present.(
        sessionId := Coalesce(row.sessionId, present.sessionId),
        completedAt := Coalesce(row.completedAt, present.completedAt),
        completionStatus := Coalesce(row.completionStatus, present.completionStatus))]
  }

  function CompleteCall(calls: map<string, CallRow>, id: string, at: int, status: string): map<string, CallRow> {
    if id !in calls then calls
    else calls[id := calls[id].(completedAt := NullInt64(at), completionStatus := NullString(status))]
  }

  function WriteSessionTitle(sessions: map<string, SessionRow>, a: Accepted): map<string, SessionRow> {
    if a.eventType == "thread_name_updated" then SetTitleAlways(sessions, a.sessionId, a.parsed.threadName)
    else if a.eventType == "session_configured" then SetTitleIfEmpty(sessions, a.sessionId, a.parsed.threadName)
    else if a.eventType == "user_message" then SetTitleIfEmpty(sessions, a.sessionId, a.summary)
    else sessions
  }

  predicate NamesSession(a: Accepted) {
    a.sessionId != "" && a.sourceKey != ""
  }

  predicate StartsCall(a: Accepted) {
    && a.requestId != "" && a.direction == "upstream_to_codex" && a.eventType == "tools/call"
    && a.parsed.name != "" && a.proxyInstanceId != "" && a.sourceKey != ""
  }

  predicate EndsCall(a: Accepted) {
    a.requestId != "" && a.direction == "codex_to_upstream" && (a.category == "response" || a.category == "error")
  }

  function StatusOf(a: Accepted): string {
    if a.category == "error" then "error" else "ok"
  }

  /** The store replaces a zero time by the clock. */
  function TimeOf(a: Accepted): int {
    if a.occurredAt == 0 then a.now else a.occurredAt
  }

  function SessionsAfter(sessions: map<string, SessionRow>, a: Accepted): map<string, SessionRow> {
    if !NamesSession(a) then sessions
    else
      var configured := a.eventType == "session_configured";
      var p := a.parsed;
      var upserted := UpsertSession(sessions, a.sessionId, a.sourceKey,
        if configured then p.model else "", if configured then p.cwd else "",
        if configured then p.approvalPolicy else "", a.now);
      WriteSessionTitle(upserted, a)
  }

  function CallsAfter(calls: map<string, CallRow>, a: Accepted): map<string, CallRow> {
    var started :=
      if StartsCall(a) then
        UpsertCall(calls, a.requestId,
          CallRow(a.proxyInstanceId, a.sourceKey, NullString(a.sessionId), a.parsed.name, TimeOf(a), None, None))
      else calls;
    if EndsCall(a) then CompleteCall(started, a.requestId, TimeOf(a), StatusOf(a)) else started
  }

  function Derive(t: Tables, a: Accepted): Tables {
    Tables(SessionsAfter(t.sessions, a), CallsAfter(t.calls, a))
  }

  function DeriveAll(history: seq<Accepted>): Tables {
    if history == [] then EMPTY
    else Derive(DeriveAll(history[..|history| - 1]), history[|history| - 1])
  }

  /** What f finds in each event, in order. */
  function Collect<T>(f: Accepted -> Option<T>, history: seq<Accepted>): seq<T> {
    if history == [] then []
    else
      var found := f(history[|history| - 1]);
      Collect(f, history[..|history| - 1]) + if found.Some? then [found.value] else []
  }

  function Last<T>(xs: seq<T>): Option<T> {
    if xs == [] then None else Some(xs[|xs| - 1])
  }

  function First<T>(xs: seq<T>): Option<T> {
    if xs == [] then None else Some(xs[0])
  }

  predicate OfSession(a: Accepted, id: string) {
    NamesSession(a) && a.sessionId == id
  }

  function Mention(id: string): Accepted -> Option<Accepted> {
    a => if OfSession(a, id) then Some(a) else None
  }

  /** A non-empty rename. */
  function Rename(id: string): Accepted -> Option<string> {
    a => if OfSession(a, id) && a.eventType == "thread_name_updated" then NullString(a.parsed.threadName) else None
  }

  /** A name from the configuration, or the summary of a user message. */
  function Fallback(id: string): Accepted -> Option<string> {
    a =>
      if !OfSession(a, id) then None
      else if a.eventType == "session_configured" then NullString(a.parsed.threadName)
      else if a.eventType == "user_message" then NullString(a.summary)
      else None
  }

  function Configured(id: string, field: Parsed -> string): Accepted -> Option<string> {
    a => if OfSession(a, id) && a.eventType == "session_configured" then NullString(field(a.parsed)) else None
  }

  const MODEL: Parsed -> string := (p: Parsed) => p.model
  const CWD: Parsed -> string := (p: Parsed) => p.cwd
  const APPROVAL: Parsed -> string := (p: Parsed) => p.approvalPolicy

  /** What the session row must hold after a history, stated without running it. */
  function SessionMeaning(history: seq<Accepted>, id: string): Option<SessionRow> {
    var mentions := Collect(Mention(id), history);
    if mentions == [] then None
    else Some(SessionRow(
      mentions[|mentions| - 1].sourceKey,
      Last(Collect(Configured(id, MODEL), history)),
      Last(Collect(Configured(id, CWD), history)),
      Last(Collect(Configured(id, APPROVAL), history)),
      Coalesce(Last(Collect(Rename(id), history)), First(Collect(Fallback(id), history))),
      mentions[0].now,
      mentions[|mentions| - 1].now))
  }

  function Lookup<T>(m: map<string, T>, id: string): Option<T> {
    if id in m then Some(m[id]) else None
  }

  lemma {:induction false} NamesAreNotEmpty(history: seq<Accepted>, id: string)
    ensures forall t :: t in Collect(Rename(id), history) ==> t != ""
    ensures forall t :: t in Collect(Fallback(id), history) ==> t != ""
  {
    if history != [] {
      NamesAreNotEmpty(history[..|history| - 1], id);
    }
  }

  lemma TitleIsNotEmpty(history: seq<Accepted>, id: string)
    ensures var m := SessionMeaning(history, id); m.Some? ==> m.value.title != Some("")
  {
    NamesAreNotEmpty(history, id);
    var renames, fallbacks := Collect(Rename(id), history), Collect(Fallback(id), history);
    assert renames != [] ==> renames[|renames| - 1] in renames;
    assert fallbacks != [] ==> fallbacks[0] in fallbacks;
  }

  lemma CollectStep<T>(f: Accepted -> Option<T>, history: seq<Accepted>)
    requires history != []
    ensures var front, a := history[..|history| - 1], history[|history| - 1];
      && Last(Collect(f, history)) == Coalesce(f(a), Last(Collect(f, front)))
      && First(Collect(f, history)) == Coalesce(First(Collect(f, front)), f(a))
      && (Collect(f, history) == [] <==> Collect(f, front) == [] && f(a).None?)
  {
  }

  lemma {:induction false} NoMentionNothingKnown(history: seq<Accepted>, id: string)
    requires Collect(Mention(id), history) == []
    ensures Collect(Rename(id), history) == [] && Collect(Fallback(id), history) == []
    ensures Collect(Configured(id, MODEL), history) == [] && Collect(Configured(id, CWD), history) == []
    ensures Collect(Configured(id, APPROVAL), history) == []
  {
    if history != [] {
      CollectStep(Mention(id), history);
      NoMentionNothingKnown(history[..|history| - 1], id);
    }
  }

  /** One event moves a session row exactly as its meaning moves. */
  lemma SessionStep(row: Option<SessionRow>, sessions: map<string, SessionRow>, a: Accepted, id: string)
    requires row == Lookup(sessions, id) && (row.Some? ==> row.value.title != Some(""))
    ensures Lookup(SessionsAfter(sessions, a), id) ==
      if !OfSession(a, id) then row
      else
        var blank := SessionRow(a.sourceKey, None, None, None, None, a.now, a.now);
        var before := if row.Some? then row.value else blank;
        Some(SessionRow(
          a.sourceKey,
          Coalesce(Configured(id, MODEL)(a), before.model),
          Coalesce(Configured(id, CWD)(a), before.cwd),
          Coalesce(Configured(id, APPROVAL)(a), before.approvalPolicy),
          Coalesce(Rename(id)(a), Coalesce(before.title, Fallback(id)(a))),
          before.firstSeenAt,
          a.now))
  {
  }

  /**
   After any history of accepted events, a session row exists exactly if some event named the
   session together with a source; its title is the last non-empty rename, else the first
   non-empty fallback; model, directory and approval policy are each the last non-empty
   configured value.
   */
  lemma {:induction false} SessionRowMeaning(history: seq<Accepted>, id: string)
    ensures Lookup(DeriveAll(history).sessions, id) == SessionMeaning(history, id)
  {
    if history != [] {
      var front, a := history[..|history| - 1], history[|history| - 1];
      SessionRowMeaning(front, id);
      TitleIsNotEmpty(front, id);
      SessionStep(SessionMeaning(front, id), DeriveAll(front).sessions, a, id);
      CollectStep(Mention(id), history);
      CollectStep(Rename(id), history);
      CollectStep(Fallback(id), history);
      CollectStep(Configured(id, MODEL), history);
      CollectStep(Configured(id, CWD), history);
      CollectStep(Configured(id, APPROVAL), history);
      if Collect(Mention(id), front) == [] {
        NoMentionNothingKnown(front, id);
      }
    }
  }

  function Start(id: string): Accepted -> Option<Accepted> {
    a => if StartsCall(a) && a.requestId == id then Some(a) else None
  }

  function End(id: string): Accepted -> Option<Accepted> {
    a => if EndsCall(a) && a.requestId == id then Some(a) else None
  }

  function StartSession(id: string): Accepted -> Option<string> {
    a => if StartsCall(a) && a.requestId == id then NullString(a.sessionId) else None
  }

  /** The events after the first one that starts the call. */
  function AfterStart(history: seq<Accepted>, id: string): seq<Accepted> {
    if history == [] then []
    else
      var front, a := history[..|history| - 1], history[|history| - 1];
      if Collect(Start(id), front) == [] then [] else AfterStart(front, id) + [a]
  }

  /** What the call row must hold after a history, stated without running it. */
  function CallMeaning(history: seq<Accepted>, id: string): Option<CallRow> {
    var starts := Collect(Start(id), history);
    if starts == [] then None
    else
      var first := starts[0];
      var end := Last(Collect(End(id), AfterStart(history, id)));
      Some(CallRow(
        first.proxyInstanceId,
        first.sourceKey,
        Last(Collect(StartSession(id), history)),
        first.parsed.name,
        TimeOf(first),
        if end.Some? then NullInt64(TimeOf(end.value)) else None,
        if end.Some? then Some(StatusOf(end.value)) else None))
  }

  lemma CallStep(row: Option<CallRow>, calls: map<string, CallRow>, a: Accepted, id: string)
    requires row == Lookup(calls, id)
    ensures Lookup(CallsAfter(calls, a), id) ==
      if Start(id)(a).Some? then
        Some(if row.None? then CallRow(a.proxyInstanceId, a.sourceKey, NullString(a.sessionId), a.parsed.name, TimeOf(a), None, None)
             else row.value.(sessionId := Coalesce(NullString(a.sessionId), row.value.sessionId)))
      else if End(id)(a).Some? && row.Some? then
        Some(row.value.(completedAt := NullInt64(TimeOf(a)), completionStatus := Some(StatusOf(a))))
      else row
  {
  }

  lemma AfterStartStep(history: seq<Accepted>, id: string)
    requires history != []
    ensures var front, a := history[..|history| - 1], history[|history| - 1];
      Last(Collect(End(id), AfterStart(history, id)))
      == if Collect(Start(id), front) == [] then None else Coalesce(End(id)(a), Last(Collect(End(id), AfterStart(front, id))))
  {
    var front, a := history[..|history| - 1], history[|history| - 1];
    if Collect(Start(id), front) != [] {
      var after := AfterStart(history, id);
      assert after[..|after| - 1] == AfterStart(front, id);
      CollectStep(End(id), after);
    }
  }

  lemma {:induction false} NoStartNoSession(history: seq<Accepted>, id: string)
    requires Collect(Start(id), history) == []
    ensures Collect(StartSession(id), history) == []
  {
    if history != [] {
      CollectStep(Start(id), history);
      NoStartNoSession(history[..|history| - 1], id);
    }
  }

  /**
   After any history of accepted events, a call row exists exactly if a valid tools/call with
   that id was accepted. Owner, tool and start come from the first such call; the row is
   completed exactly if a response or error with that id came later, with the last one's time
   and status. A repeated tools/call never reopens it.
   */
  lemma {:induction false} CallRowMeaning(history: seq<Accepted>, id: string)
    ensures Lookup(DeriveAll(history).calls, id) == CallMeaning(history, id)
  {
    if history != [] {
      var front, a := history[..|history| - 1], history[|history| - 1];
      CallRowMeaning(front, id);
      CallStep(CallMeaning(front, id), DeriveAll(front).calls, a, id);
      CollectStep(Start(id), history);
      CollectStep(StartSession(id), history);
      AfterStartStep(history, id);
      if Collect(Start(id), front) == [] {
        NoStartNoSession(front, id);
      }
    }
  }

  /** Once completed, a call stays completed whatever is accepted afterwards. */
  lemma {:induction false} CompletedStaysCompleted(history: seq<Accepted>, more: seq<Accepted>, id: string)
    requires var row := Lookup(DeriveAll(history).calls, id); row.Some? && row.value.completionStatus.Some?
    ensures var row := Lookup(DeriveAll(history + more).calls, id); row.Some? && row.value.completionStatus.Some?
  {
    if more == [] {
      assert history + more == history;
    } else {
      var front, a := more[..|more| - 1], more[|more| - 1];
      var before := DeriveAll(history + front).calls;
      CompletedStaysCompleted(history, front, id);
      assert (history + more)[..|history + more| - 1] == history + front;
      CallStep(Lookup(before, id), before, a, id);
    }
  }
}
