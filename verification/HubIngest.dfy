/** The store as an object, and the ingest handler that writes to it and to the broker. */
module HubIngest {
  import opened Sequences
  import opened Events
  import opened Cursor
  import opened EventStore
  import opened DerivedTables
  import opened HubBroker

  /** A decoded request body; `accepted` holds the fields the derived tables depend on. */
  datatype Body = Body(
    eventId: string,
    turnId: string,
    commandCallId: string,
    toolCallId: string,
    payload: Json,
    accepted: Accepted)

  /** The category the read path infers for a row that was stored without one. */
  function CategoryForEvent(eventType: string): string {
    if eventType in {"", "raw_frame"} then "raw_frame"
    else if eventType in {"response", "error"} then eventType
    else if HasCodexName(eventType) then "codex_event"
    else "jsonrpc_request"
  }

  predicate HasCodexName(eventType: string) {
    eventType in {
      "codex/event", "session_configured", "task_started", "turn_started", "task_complete", "turn_complete",
      "token_count", "agent_message", "agent_message_delta", "agent_message_content_delta", "user_message",
      "agent_reasoning", "agent_reasoning_delta", "agent_reasoning_raw_content", "agent_reasoning_raw_content_delta",
      "agent_reasoning_section_break", "reasoning_content_delta", "reasoning_raw_content_delta",
      "exec_command_begin", "exec_command_output_delta", "exec_command_end", "exec_approval_request",
      "mcp_tool_call_begin", "mcp_tool_call_end", "apply_patch_approval_request", "patch_apply_begin",
      "patch_apply_end", "plan_update", "plan_delta", "turn_aborted", "turn_diff", "stream_error",
      "web_search_begin", "web_search_end", "background_event"
    }
  }

  function Record(body: Body, id: string, timestamp: string, category: string): EventRecord {
    var a := body.accepted;
    EventRecord(id, timestamp, NullString(a.sessionId), NullString(body.turnId), NullString(a.requestId), category,
                NullString(a.eventType), NullString(body.commandCallId), NullString(body.toolCallId), body.payload)
  }

  /** A body without a readable timestamp counts as of now. */
  function Stamped(body: Body): Body {
    body.(accepted := body.accepted.(occurredAt := TimeOf(body.accepted)))
  }

  /** What Publish is given. */
  function LiveRecord(iso: int -> string, body: Body, id: string): EventRecord {
    Record(body, id, iso(body.accepted.occurredAt), body.accepted.category)
  }

  /** What is stored; the page endpoint fills in a missing category. */
  function StoredRow(iso: int -> string, body: Body, id: string): Row {
    var a := body.accepted;
    var category := if a.category == "" then CategoryForEvent(a.eventType) else a.category;
    Row(id, NullString(a.sessionId), TimeOf(a), Record(body, id, iso(TimeOf(a)), category))
  }

  predicate IsText(field: Option<string>, text: string) {
    (text == "" && field == None) || (text != "" && field == Some(text))
  }

  /** The record carries the body's fields under this id and timestamp. */
  ghost predicate Carries(r: EventRecord, body: Body, id: string, timestamp: string) {
    && r.eventId == id && r.timestamp == timestamp && r.payload == body.payload
    && IsText(r.threadId, body.accepted.sessionId) && IsText(r.turnId, body.turnId)
    && IsText(r.requestId, body.accepted.requestId) && IsText(r.eventType, body.accepted.eventType)
    && IsText(r.commandCallId, body.commandCallId) && IsText(r.toolCallId, body.toolCallId)
  }

  /** The types that are inferred to be Codex events. */
  predicate IsCodexType(t: string) {
    || t == "codex/event" || t == "session_configured" || t == "task_started" || t == "turn_started"
    || t == "task_complete" || t == "turn_complete" || t == "token_count" || t == "agent_message"
    || t == "agent_message_delta" || t == "agent_message_content_delta" || t == "user_message"
    || t == "agent_reasoning" || t == "agent_reasoning_delta" || t == "agent_reasoning_raw_content"
    || t == "agent_reasoning_raw_content_delta" || t == "agent_reasoning_section_break"
    || t == "reasoning_content_delta" || t == "reasoning_raw_content_delta" || t == "exec_command_begin"
    || t == "exec_command_output_delta" || t == "exec_command_end" || t == "exec_approval_request"
    || t == "mcp_tool_call_begin" || t == "mcp_tool_call_end" || t == "apply_patch_approval_request"
    || t == "patch_apply_begin" || t == "patch_apply_end" || t == "plan_update" || t == "plan_delta"
    || t == "turn_aborted" || t == "turn_diff" || t == "stream_error" || t == "web_search_begin"
    || t == "web_search_end" || t == "background_event"
  }

  /** What the page endpoint serves: the stored category, or one inferred from the type. */
  ghost predicate IsServed(category: string, stored: string, eventType: string) {
    if stored != "" then category == stored
    else if eventType == "" || eventType == "raw_frame" then category == "raw_frame"
    else if eventType == "response" then category == "response"
    else if eventType == "error" then category == "error"
    else if IsCodexType(eventType) then category == "codex_event"
    else category == "jsonrpc_request"
  }

  lemma InferredCategory(eventType: string)
    ensures IsServed(CategoryForEvent(eventType), "", eventType)
  {
    CodexNames(eventType);
  }

  lemma CodexNames(eventType: string)
    ensures HasCodexName(eventType) <==> IsCodexType(eventType)
  {
  }

  /** The time an event counts from: its own, or the clock if it has none. */
  predicate IsEventTime(time: int, body: Body) {
    if body.accepted.occurredAt != 0 then time == body.accepted.occurredAt else time == body.accepted.now
  }

  /** The row and the published record of one body, under one id. */
  ghost predicate IsIngested(iso: int -> string, body: Body, id: string, row: Row, live: EventRecord) {
    && row.eventId == id && IsEventTime(row.occurredAt, body) && IsText(row.sessionId, body.accepted.sessionId)
    && Carries(row.record, body, id, iso(row.occurredAt)) && Carries(live, body, id, iso(row.occurredAt))
    && live.category == body.accepted.category
    && IsServed(row.record.category, body.accepted.category, body.accepted.eventType)
  }

  lemma RowAndRecord(iso: int -> string, body: Body, id: string)
    ensures IsIngested(iso, body, id, StoredRow(iso, Stamped(body), id), LiveRecord(iso, Stamped(body), id))
  {
    InferredCategory(body.accepted.eventType);
  }

  class Store {
    var rows: seq<Row>
    var sessions: map<string, SessionRow>
    var calls: map<string, CallRow>
    /** The events accepted so far. */
    ghost var history: seq<Accepted>

    ghost predicate Valid()
      reads this
    {
      ValidTable(rows) && Tables(sessions, calls) == DeriveAll(history)
    }

    constructor ()
      ensures Valid() && rows == [] && history == []
    {
      rows, sessions, calls, history := [], map[], map[], [];
    }

    /** The primary key makes a repeated id an error that changes nothing. */
    method AppendRow(row: Row) returns (ok: bool)
      modifies this`rows
      ensures ok <==> AppendEvent(old(rows), row).Some?
      ensures rows == if ok then old(rows) + [row] else old(rows)
    {
      ok := true;
      for k := 0 to |rows|
        invariant ok ==> forall j :: 0 <= j < k ==> rows[j].eventId != row.eventId
        invariant !ok ==> exists j :: 0 <= j < |rows| && rows[j].eventId == row.eventId
      {
        if rows[k].eventId == row.eventId {
          ok := false;
        }
      }
      if ok {
        rows := rows + [row];
      }
    }

    method UpsertSessionRow(id: string, sourceKey: string, model: string, cwd: string, approval: string, now: int)
      modifies this`sessions
      ensures sessions == UpsertSession(old(sessions), id, sourceKey, model, cwd, approval, now)
    {
      if id in sessions {
        var row := sessions[id];
        if model != "" {
          row := row.(model := Some(model));
        }
        if cwd != "" {
          row := row.(cwd := Some(cwd));
        }
        if approval != "" {
          row := row.(approvalPolicy := Some(approval));
        }
        sessions := sessions[id := row.(sourceKey := sourceKey, lastSeenAt := now)];
      } else {
        sessions := sessions[id := SessionRow(sourceKey, NullString(model), NullString(cwd), NullString(approval), None, now, now)];
      }
    }

    method SetSessionTitleAlways(id: string, title: string)
      modifies this`sessions
      ensures sessions == SetTitleAlways(old(sessions), id, title)
    {
      if id == "" || title == "" {
        return;
      }
      if id in sessions {
        sessions := sessions[id := sessions[id].(title := Some(title))];
      }
    }

    method SetSessionTitleIfEmpty(id: string, title: string)
      modifies this`sessions
      ensures sessions == SetTitleIfEmpty(old(sessions), id, title)
    {
      if id == "" || title == "" {
        return;
      }
      if id in sessions && (sessions[id].title == None || sessions[id].title == Some("")) {
        sessions := sessions[id := sessions[id].(title := Some(title))];
      }
    }

    method UpsertMCPCall(id: string, row: CallRow)
      modifies this`calls
      ensures calls == UpsertCall(old(calls), id, row)
    {
      if id in calls {
        var merged := calls[id];
        if row.sessionId.Some? {
          merged := merged.(sessionId := row.sessionId);
        }
        if row.completedAt.Some? {
          merged := merged.(completedAt := row.completedAt);
        }
        if row.completionStatus.Some? {
          merged := merged.(completionStatus := row.completionStatus);
        }
        calls := calls[id := merged];
      } else {
        calls := calls[id := row];
      }
    }

    method CompleteMCPCall(id: string, completedAt: int, status: string)
      modifies this`calls
      ensures calls == CompleteCall(old(calls), id, completedAt, status)
    {
      if id in calls {
        calls := calls[id := calls[id].(completedAt := NullInt64(completedAt), completionStatus := NullString(status))];
      }
    }

    /** derivePersistentRows, for store calls that succeed. */
    method DerivePersistentRows(a: Accepted)
      modifies this`sessions, this`calls
      ensures Tables(sessions, calls) == Derive(old(Tables(sessions, calls)), a)
    {
      if a.sessionId != "" && a.sourceKey != "" {
        var model, cwd, approval := "", "", "";
        if a.eventType == "session_configured" {
          model, cwd, approval := a.parsed.model, a.parsed.cwd, a.parsed.approvalPolicy;
        }
        UpsertSessionRow(a.sessionId, a.sourceKey, model, cwd, approval, a.now);
        WriteTitle(a);
      }
      if a.requestId != "" && a.direction == "upstream_to_codex" && a.eventType == "tools/call" {
        if a.parsed.name != "" && a.proxyInstanceId != "" && a.sourceKey != "" {
          UpsertMCPCall(a.requestId,
            CallRow(a.proxyInstanceId, a.sourceKey, NullString(a.sessionId), a.parsed.name, TimeOf(a), None, None));
        }
      }
      if a.requestId != "" && a.direction == "codex_to_upstream" && (a.category == "response" || a.category == "error") {
        var status := if a.category == "error" then "error" else "ok";
        CompleteMCPCall(a.requestId, TimeOf(a), status);
      }
    }

    method WriteTitle(a: Accepted)
      modifies this`sessions
      ensures sessions == WriteSessionTitle(old(sessions), a)
    {
      if a.eventType == "thread_name_updated" {
        SetSessionTitleAlways(a.sessionId, a.parsed.threadName);
      } else if a.eventType == "session_configured" {
        SetSessionTitleIfEmpty(a.sessionId, a.parsed.threadName);
      } else if a.eventType == "user_message" {
        SetSessionTitleIfEmpty(a.sessionId, a.summary);
      }
    }

    /** At any time, the rows of the derived tables mean what the accepted history says. */
    lemma DerivedRowsMean(id: string)
      requires Valid()
      ensures Lookup(sessions, id) == SessionMeaning(history, id)
      ensures Lookup(calls, id) == CallMeaning(history, id)
    {
      SessionRowMeaning(history, id);
      CallRowMeaning(history, id);
    }
  }

  /**
   eventsHandler: append, derive, publish, in this order. A repeated id is refused before
   anything else happens, so whatever the broker publishes is already in the table. The clock
   is read once; body.accepted.occurredAt is 0 for a missing or unreadable timestamp.
   */
  method EventsHandler(store: Store, broker: Broker, iso: int -> string, body: Body, generatedId: string)
    returns (eventId: Option<string>)
    requires store.Valid() && broker.Valid() && generatedId != ""
    requires IsInt64(body.accepted.occurredAt) && IsInt64(body.accepted.now)
    modifies store, broker`ring, broker`log, broker.subs
    ensures store.Valid() && broker.Valid()
    ensures var id, stamped := if body.eventId == "" then generatedId else body.eventId, Stamped(body);
      if AppendEvent(old(store.rows), StoredRow(iso, stamped, id)).None? then
        && eventId == None
        && store.rows == old(store.rows) && store.history == old(store.history)
        && broker.log == old(broker.log)
        && forall ch :: ch in broker.subs ==> ch.queue == old(ch.queue)
      else
        && eventId == Some(id)
        && store.rows == old(store.rows) + [StoredRow(iso, stamped, id)]
        && store.history == old(store.history) + [stamped.accepted]
        && broker.log == old(broker.log) + [LiveRecord(iso, stamped, id)]
        && forall ch :: ch in broker.subs ==> ch.queue == BrokerRuns.Offer(old(ch.queue), LiveRecord(iso, stamped, id))
    ensures eventId.Some? ==>
      && eventId.value == (if body.eventId == "" then generatedId else body.eventId)
      && |store.rows| == |old(store.rows)| + 1 && |broker.log| == |old(broker.log)| + 1
      && IsIngested(iso, body, eventId.value, store.rows[|store.rows| - 1], broker.log[|broker.log| - 1])
  {
    RowAndRecord(iso, body, if body.eventId == "" then generatedId else body.eventId);
    var stamped := body;
    if body.accepted.occurredAt == 0 {
      stamped := body.(accepted := body.accepted.(occurredAt := body.accepted.now));
    }
    var id := if body.eventId == "" then generatedId else body.eventId;
    var row := StoredRow(iso, stamped, id);
    AppendKeepsValid(store.rows, row);
    var ok := store.AppendRow(row);
    if !ok {
      return None;
    }
    store.DerivePersistentRows(stamped.accepted);
    store.history := store.history + [stamped.accepted];
    assert store.history[..|store.history| - 1] == old(store.history);
    broker.Publish(LiveRecord(iso, stamped, id));
    return Some(id);
  }
}
