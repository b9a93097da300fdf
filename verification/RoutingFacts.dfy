/**
 Where each event goes, stated on its own fields: what msgOf reads, which bucket, slot or stream an
 event type names, and in which order the rest is decided.
 */
module RoutingFacts {
  import opened Sequences
  import opened Events
  import opened Routing
  import opened Projection
  import opened ProjectionPass

  /** params.msg if it is a record or a list, else params if it has anything, else the payload itself. */
  ghost predicate IsMessage(payload: Json, m: Json) {
    if payload.Object? && "params" in payload.fields then
      var params := payload.fields["params"];
      if params.Object? && "msg" in params.fields && (params.fields["msg"].Object? || params.fields["msg"].Array?) then
        m == params.fields["msg"]
      else if (params.Object? && params.fields != map[]) || (params.Array? && params.items != []) then
        m == params
      else
        m == payload
    else if payload.Object? || payload.Array? then m == payload
    else m == Object(map[])
  }

  /** The record has the non-empty string s under the key. */
  predicate StringAt(m: Json, key: string, s: string) {
    m.Object? && key in m.fields && m.fields[key] == Text(s) && s != ""
  }

  predicate NoStringAt(m: Json, key: string) {
    !(m.Object? && key in m.fields && m.fields[key].Text? && m.fields[key].s != "")
  }

  /** call_id of the message, else the event's command_call_id, tool_call_id or event_id. */
  ghost predicate IsCallId(e: EventRecord, m: Json, id: string) {
    || StringAt(m, "call_id", id)
    || (NoStringAt(m, "call_id")
        && (|| e.commandCallId == Some(id)
            || (e.commandCallId == None && (e.toolCallId == Some(id) || (e.toolCallId == None && id == e.eventId)))))
  }

  /** turn_id, else request_id, else event_id. */
  ghost predicate IsTurnKey(e: EventRecord, key: string) {
    e.turnId == Some(key) || (e.turnId == None && (e.requestId == Some(key) || (e.requestId == None && key == e.eventId)))
  }

  /** The string under the key, or the empty one. */
  ghost predicate IsText(m: Json, key: string, s: string) {
    StringAt(m, key, s) || (NoStringAt(m, key) && s == "")
  }

  /** A delta's text stands under "delta", else under "text". */
  ghost predicate IsChunk(m: Json, s: string) {
    StringAt(m, "delta", s) || (NoStringAt(m, "delta") && IsText(m, "text", s))
  }

  predicate Typed(e: EventRecord, eventType: string) {
    e.category != "raw_frame" && e.category != "response" && e.eventType == Some(eventType)
  }

  lemma MessageIsMsgOf(e: EventRecord, m: Json)
    requires IsMessage(e.payload, m)
    ensures MsgOf(e) == m
  {
  }

  lemma CallIdIsBucketId(e: EventRecord, m: Json, id: string)
    requires IsMessage(e.payload, m) && IsCallId(e, m, id)
    ensures BucketId(e) == id
  {
    MessageIsMsgOf(e, m);
  }

  lemma TurnKeyIsStreamBucketId(e: EventRecord, key: string)
    requires IsTurnKey(e, key)
    ensures StreamBucketId(e) == key
  {
  }

  // ----- tools

  /** The type that opens a tool's call, and the one that closes it. */
  predicate OpensAndCloses(tool: ToolKind, begin: string, end: string) {
    match tool
    case Exec => begin == "exec_command_begin" && end == "exec_command_end"
    case McpTool => begin == "mcp_tool_call_begin" && end == "mcp_tool_call_end"
    case WebSearch => begin == "web_search_begin" && end == "web_search_end"
    case ImageGeneration => begin == "image_generation_begin" && end == "image_generation_end"
    case Patch => begin == "patch_apply_begin" && end == "patch_apply_end"
    case DynamicTool => begin == "dynamic_tool_call_request" && end == "dynamic_tool_call_response"
    case CollabSpawn => begin == "collab_agent_spawn_begin" && end == "collab_agent_spawn_end"
    case CollabInteraction => begin == "collab_agent_interaction_begin" && end == "collab_agent_interaction_end"
    case CollabWait => begin == "collab_waiting_begin" && end == "collab_waiting_end"
    case CollabClose => begin == "collab_close_begin" && end == "collab_close_end"
    case CollabResume => begin == "collab_resume_begin" && end == "collab_resume_end"
  }

  /** The switch's other cases do not name the type. */
  predicate NotNamed(e: EventRecord, eventType: string) {
    NamedRoute(e, eventType) == None && DeltaKind(eventType) == None
  }

  lemma ExecSlots()
    ensures ToolSlot("exec_command_begin") == Some((Exec, Begin))
    ensures ToolSlot("exec_command_end") == Some((Exec, End))
  {
  }

  lemma McpToolSlots()
    ensures ToolSlot("mcp_tool_call_begin") == Some((McpTool, Begin))
    ensures ToolSlot("mcp_tool_call_end") == Some((McpTool, End))
  {
  }

  lemma WebSearchSlots()
    ensures ToolSlot("web_search_begin") == Some((WebSearch, Begin))
    ensures ToolSlot("web_search_end") == Some((WebSearch, End))
  {
  }

  lemma ImageGenerationSlots()
    ensures ToolSlot("image_generation_begin") == Some((ImageGeneration, Begin))
    ensures ToolSlot("image_generation_end") == Some((ImageGeneration, End))
  {
  }

  lemma PatchSlots()
    ensures ToolSlot("patch_apply_begin") == Some((Patch, Begin))
    ensures ToolSlot("patch_apply_end") == Some((Patch, End))
  {
  }

  lemma DynamicToolSlots()
    ensures ToolSlot("dynamic_tool_call_request") == Some((DynamicTool, Begin))
    ensures ToolSlot("dynamic_tool_call_response") == Some((DynamicTool, End))
  {
  }

  lemma CollabSpawnSlots()
    ensures ToolSlot("collab_agent_spawn_begin") == Some((CollabSpawn, Begin))
    ensures ToolSlot("collab_agent_spawn_end") == Some((CollabSpawn, End))
  {
  }

  lemma CollabInteractionSlots()
    ensures ToolSlot("collab_agent_interaction_begin") == Some((CollabInteraction, Begin))
    ensures ToolSlot("collab_agent_interaction_end") == Some((CollabInteraction, End))
  {
  }

  lemma CollabWaitSlots()
    ensures ToolSlot("collab_waiting_begin") == Some((CollabWait, Begin))
    ensures ToolSlot("collab_waiting_end") == Some((CollabWait, End))
  {
  }

  lemma CollabCloseSlots()
    ensures ToolSlot("collab_close_begin") == Some((CollabClose, Begin))
    ensures ToolSlot("collab_close_end") == Some((CollabClose, End))
  {
  }

  lemma CollabResumeSlots()
    ensures ToolSlot("collab_resume_begin") == Some((CollabResume, Begin))
    ensures ToolSlot("collab_resume_end") == Some((CollabResume, End))
  {
  }

  lemma SlotsOf(tool: ToolKind, begin: string, end: string)
    requires OpensAndCloses(tool, begin, end)
    ensures ToolSlot(begin) == Some((tool, Begin)) && ToolSlot(end) == Some((tool, End))
  {
    match tool {
      case Exec => ExecSlots();
      case McpTool => McpToolSlots();
      case WebSearch => WebSearchSlots();
      case ImageGeneration => ImageGenerationSlots();
      case Patch => PatchSlots();
      case DynamicTool => DynamicToolSlots();
      case CollabSpawn => CollabSpawnSlots();
      case CollabInteraction => CollabInteractionSlots();
      case CollabWait => CollabWaitSlots();
      case CollabClose => CollabCloseSlots();
      case CollabResume => CollabResumeSlots();
    }
  }

  lemma CommandsAreNotNamed(e: EventRecord, tool: ToolKind, begin: string, end: string)
    requires OpensAndCloses(tool, begin, end) && (tool == Exec || tool == McpTool)
    ensures NotNamed(e, begin) && NotNamed(e, end)
  {
  }

  lemma SearchesAreNotNamed(e: EventRecord, tool: ToolKind, begin: string, end: string)
    requires OpensAndCloses(tool, begin, end) && (tool == WebSearch || tool == ImageGeneration)
    ensures NotNamed(e, begin) && NotNamed(e, end)
  {
  }

  lemma EditsAreNotNamed(e: EventRecord, tool: ToolKind, begin: string, end: string)
    requires OpensAndCloses(tool, begin, end) && (tool == Patch || tool == DynamicTool)
    ensures NotNamed(e, begin) && NotNamed(e, end)
  {
  }

  lemma AgentsAreNotNamed(e: EventRecord, tool: ToolKind, begin: string, end: string)
    requires OpensAndCloses(tool, begin, end) && (tool == CollabSpawn || tool == CollabInteraction)
    ensures NotNamed(e, begin) && NotNamed(e, end)
  {
  }

  lemma WaitsAreNotNamed(e: EventRecord, tool: ToolKind, begin: string, end: string)
    requires OpensAndCloses(tool, begin, end) && (tool == CollabWait || tool == CollabClose)
    ensures NotNamed(e, begin) && NotNamed(e, end)
  {
  }

  lemma ResumesAreNotNamed(e: EventRecord, tool: ToolKind, begin: string, end: string)
    requires OpensAndCloses(tool, begin, end) && tool == CollabResume
    ensures NotNamed(e, begin) && NotNamed(e, end)
  {
  }

  lemma ToolTypesAreNotNamed(e: EventRecord, tool: ToolKind, begin: string, end: string)
    requires OpensAndCloses(tool, begin, end)
    ensures NotNamed(e, begin) && NotNamed(e, end)
  {
    match tool {
      case Exec => CommandsAreNotNamed(e, tool, begin, end);
      case McpTool => CommandsAreNotNamed(e, tool, begin, end);
      case WebSearch => SearchesAreNotNamed(e, tool, begin, end);
      case ImageGeneration => SearchesAreNotNamed(e, tool, begin, end);
      case Patch => EditsAreNotNamed(e, tool, begin, end);
      case DynamicTool => EditsAreNotNamed(e, tool, begin, end);
      case CollabSpawn => AgentsAreNotNamed(e, tool, begin, end);
      case CollabInteraction => AgentsAreNotNamed(e, tool, begin, end);
      case CollabWait => WaitsAreNotNamed(e, tool, begin, end);
      case CollabClose => WaitsAreNotNamed(e, tool, begin, end);
      case CollabResume => ResumesAreNotNamed(e, tool, begin, end);
    }
  }

  lemma OutputSlots(e: EventRecord)
    ensures ToolSlot("exec_command_output_delta") == Some((Exec, Output)) && NotNamed(e, "exec_command_output_delta")
    ensures ToolSlot("terminal_interaction") == Some((Exec, Interaction)) && NotNamed(e, "terminal_interaction")
  {
  }

  lemma ToBucketRoute(e: EventRecord, m: Json, id: string, eventType: string, tool: ToolKind, slot: Slot)
    requires Typed(e, eventType) && eventType != "" && IsMessage(e.payload, m) && IsCallId(e, m, id)
    requires ToolSlot(eventType) == Some((tool, slot)) && NotNamed(e, eventType)
    ensures RouteOf(e) == ToBucket(tool, id, slot)
  {
    CallIdIsBucketId(e, m, id);
  }

  lemma NotEmpty(tool: ToolKind, begin: string, end: string)
    requires OpensAndCloses(tool, begin, end)
    ensures begin != "" && end != ""
  {
  }

  /** Every tool's opening and closing events reach its map, in these slots, under the call id. */
  lemma CallsReachTheirBuckets(e: EventRecord, m: Json, id: string, tool: ToolKind, begin: string, end: string)
    requires IsMessage(e.payload, m) && IsCallId(e, m, id) && OpensAndCloses(tool, begin, end)
    ensures Typed(e, begin) ==> RouteOf(e) == ToBucket(tool, id, Begin)
    ensures Typed(e, end) ==> RouteOf(e) == ToBucket(tool, id, End)
  {
    SlotsOf(tool, begin, end);
    ToolTypesAreNotNamed(e, tool, begin, end);
    NotEmpty(tool, begin, end);
    if Typed(e, begin) {
      ToBucketRoute(e, m, id, begin, tool, Begin);
    }
    if Typed(e, end) {
      ToBucketRoute(e, m, id, end, tool, End);
    }
  }

  /** Command output and terminal interactions accumulate in the command's bucket. */
  lemma OutputReachesItsBucket(e: EventRecord, m: Json, id: string)
    requires IsMessage(e.payload, m) && IsCallId(e, m, id)
    ensures Typed(e, "exec_command_output_delta") ==> RouteOf(e) == ToBucket(Exec, id, Output)
    ensures Typed(e, "terminal_interaction") ==> RouteOf(e) == ToBucket(Exec, id, Interaction)
  {
    OutputSlots(e);
    if Typed(e, "exec_command_output_delta") {
      ToBucketRoute(e, m, id, "exec_command_output_delta", Exec, Output);
    }
    if Typed(e, "terminal_interaction") {
      ToBucketRoute(e, m, id, "terminal_interaction", Exec, Interaction);
    }
  }

  // ----- streams

  lemma DeltaTypesAreNotNamed(e: EventRecord, eventType: string)
    requires DeltaKind(eventType).Some?
    ensures NamedRoute(e, eventType) == None
  {
  }

  /** The six delta types. */
  lemma DeltasReachTheirStreams(e: EventRecord, m: Json, key: string, chunk: string)
    requires IsMessage(e.payload, m) && IsTurnKey(e, key) && IsChunk(m, chunk)
    ensures Typed(e, "agent_message_delta") || Typed(e, "agent_message_content_delta") ==>
      RouteOf(e) == Chunk(Messages, key, PlainText, chunk)
    ensures Typed(e, "agent_reasoning_delta") || Typed(e, "reasoning_content_delta") ==>
      RouteOf(e) == Chunk(Reasonings, key, Reasoning, chunk)
    ensures Typed(e, "agent_reasoning_raw_content_delta") || Typed(e, "reasoning_raw_content_delta") ==>
      RouteOf(e) == Chunk(Reasonings, key, RawContent, chunk)
  {
    MessageIsMsgOf(e, m);
    TurnKeyIsStreamBucketId(e, key);
    ChunkIsChunkOf(e, m, chunk);
    DeltaKinds(e);
    if e.eventType.Some? && Typed(e, e.eventType.value) && e.eventType.value != "" && DeltaKind(e.eventType.value).Some? {
      DeltaRoute(e, e.eventType.value);
    }
  }

  lemma ChunkIsChunkOf(e: EventRecord, m: Json, chunk: string)
    requires IsMessage(e.payload, m) && IsChunk(m, chunk)
    ensures ChunkOf(e) == chunk
  {
    MessageIsMsgOf(e, m);
  }

  lemma DeltaKinds(e: EventRecord)
    ensures DeltaKind("agent_message_delta") == DeltaKind("agent_message_content_delta") == Some((Messages, PlainText))
    ensures DeltaKind("agent_reasoning_delta") == DeltaKind("reasoning_content_delta") == Some((Reasonings, Reasoning))
    ensures DeltaKind("agent_reasoning_raw_content_delta") == DeltaKind("reasoning_raw_content_delta")
         == Some((Reasonings, RawContent))
  {
  }

  lemma DeltaRoute(e: EventRecord, t: string)
    requires Typed(e, t) && t != "" && DeltaKind(t).Some?
    ensures RouteOf(e) == Chunk(DeltaKind(t).value.0, StreamBucketId(e), DeltaKind(t).value.1, ChunkOf(e))
  {
    DeltaTypesAreNotNamed(e, t);
  }

  /** The complete messages: their text, whether they close the assistant message, and the stream they end. */
  lemma CompleteTextsEndTheirStreams(e: EventRecord, m: Json, key: string, text: string)
    requires IsMessage(e.payload, m) && IsTurnKey(e, key)
    ensures Typed(e, "agent_message") && IsText(m, "message", text) ==>
      RouteOf(e) == Direct(TextPart, text, true, Some((Messages, key)))
    ensures Typed(e, "agent_reasoning") && IsText(m, "text", text) ==>
      RouteOf(e) == Direct(ReasoningPart(Reasoning), text, false, Some((Reasonings, key)))
    ensures Typed(e, "agent_reasoning_raw_content") && IsText(m, "text", text) ==>
      RouteOf(e) == Direct(ReasoningPart(RawContent), text, false, Some((Reasonings, key)))
  {
    MessageIsMsgOf(e, m);
    TurnKeyIsStreamBucketId(e, key);
  }

  // ----- single parts

  lemma NamedParts(e: EventRecord)
    ensures Typed(e, "user_message") ==> RouteOf(e) == User
    ensures Typed(e, "agent_reasoning_section_break") ==> RouteOf(e) == Direct(LifecyclePart, "", false, None)
    ensures Typed(e, "view_image_tool_call") ==> RouteOf(e) == Direct(ViewImagePart, "", false, None)
    ensures Typed(e, "plan_update") || Typed(e, "plan_delta") ==> RouteOf(e) == Direct(PlanPart, "", false, None)
  {
  }

  predicate IsApproval(t: string) {
    || t == "exec_approval_request" || t == "apply_patch_approval_request" || t == "elicitation_request"
    || t == "request_permissions" || t == "request_user_input"
  }

  /** The titled types, and the names that every JavaScript object answers to. */
  predicate IsTitled(t: string) {
    || t == "session_configured" || t == "task_started" || t == "turn_started" || t == "task_complete"
    || t == "turn_complete" || t == "turn_aborted" || t == "thread_name_updated" || t == "background_event"
    || t == "error" || t == "warning" || t == "stream_error" || t == "stream_info" || t == "token_count"
    || t == "turn_diff" || t == "model_reroute" || t == "context_compacted" || t == "thread_rolled_back"
    || t == "deprecation_notice" || t == "undo_started" || t == "undo_completed" || t == "guardian_assessment"
    || t == "mcp_startup_update" || t == "mcp_startup_complete" || t == "get_history_entry_response"
    || t == "mcp_list_tools_response" || t == "list_skills_response" || t == "realtime_conversation_started"
    || t == "realtime_conversation_realtime" || t == "realtime_conversation_closed" || t == "realtime_conversation_sdp"
    || t == "realtime_conversation_list_voices_response" || t == "skills_update_available" || t == "raw_response_item"
    || t == "item_started" || t == "item_completed" || t == "hook_started" || t == "hook_completed"
    || t == "agent_reasoning_section_break" || t == "conversation_path_response" || t == "review_output"
    || t == "shutdown_complete" || t == "entered_review_mode" || t == "exited_review_mode"
    || t == "constructor" || t == "hasOwnProperty" || t == "isPrototypeOf" || t == "propertyIsEnumerable"
    || t == "toLocaleString" || t == "toString" || t == "valueOf" || t == "__proto__" || t == "__defineGetter__"
    || t == "__defineSetter__" || t == "__lookupGetter__" || t == "__lookupSetter__"
  }

  /** The types that the switch names, the tools' opening and closing types last. */
  predicate IsSwitched(t: string) {
    || t == "user_message" || t == "agent_message" || t == "agent_reasoning" || t == "agent_reasoning_raw_content"
    || t == "agent_message_delta" || t == "agent_message_content_delta" || t == "agent_reasoning_delta"
    || t == "reasoning_content_delta" || t == "agent_reasoning_raw_content_delta" || t == "reasoning_raw_content_delta"
    || t == "agent_reasoning_section_break" || t == "view_image_tool_call" || t == "plan_update" || t == "plan_delta"
    || t == "exec_command_output_delta" || t == "terminal_interaction"
    || t == "exec_command_begin" || t == "exec_command_end" || t == "mcp_tool_call_begin" || t == "mcp_tool_call_end"
    || t == "web_search_begin" || t == "web_search_end" || t == "image_generation_begin" || t == "image_generation_end"
    || t == "patch_apply_begin" || t == "patch_apply_end"
    || t == "dynamic_tool_call_request" || t == "dynamic_tool_call_response"
    || t == "collab_agent_spawn_begin" || t == "collab_agent_spawn_end"
    || t == "collab_agent_interaction_begin" || t == "collab_agent_interaction_end"
    || t == "collab_waiting_begin" || t == "collab_waiting_end"
    || t == "collab_close_begin" || t == "collab_close_end" || t == "collab_resume_begin" || t == "collab_resume_end"
  }

  lemma NotSwitched(e: EventRecord, t: string)
    requires !IsSwitched(t)
    ensures NotNamed(e, t) && ToolSlot(t) == None
  {
    SwitchedNames(e, t);
    SwitchedDeltas(t);
    SwitchedTools(t);
  }

  lemma SwitchedNames(e: EventRecord, t: string)
    ensures NamedRoute(e, t) == None || IsSwitched(t)
  {
  }

  lemma SwitchedDeltas(t: string)
    ensures DeltaKind(t) == None || IsSwitched(t)
  {
  }

  lemma SwitchedTools(t: string)
    ensures ToolSlot(t) == None || IsSwitched(t)
  {
  }

  lemma Approvals(t: string)
    ensures IsApprovalType(t) <==> IsApproval(t)
  {
  }

  lemma Titled(t: string)
    ensures IsLifecycleType(t) <==> IsTitled(t)
  {
  }

  /** After the switch: approvals, then titled types, then methods, then what is unknown. */
  lemma FallbacksInOrder(e: EventRecord, t: string)
    requires Typed(e, t) && t != "" && !IsSwitched(t)
    ensures RouteOf(e) == Direct(
      if IsApproval(t) then ApprovalPart
      else if IsTitled(t) then LifecyclePart
      else if e.category != "codex_event" then McpMethodPart
      else UnknownPart, "", false, None)
  {
    NotSwitched(e, t);
    Approvals(t);
    Titled(t);
  }

  // ----- what it means for the items

  /** Only the tool's map has a bucket, under this id. */
  ghost predicate OneBucketOnly(es: seq<Routed>, tool: ToolKind, id: string) {
    && (forall t :: BucketIds(es, t) == if t == tool then [id] else [])
    && (forall s :: StreamKeys(es, s) == [])
    && DirectItems(es) == []
  }

  lemma {:induction false} OneToolHome(es: seq<Routed>, tool: ToolKind, id: string, tools: seq<ToolKind>)
    requires OneBucketOnly(es, tool, id)
    requires NoneTwice(tools)
    ensures ToolHomes(es, tools) == if tool in tools then [InBucket(tool, id)] else []
  {
    if tools != [] {
      var front, last := tools[..|tools| - 1], tools[|tools| - 1];
      FrontNoneTwice(tools);
      OneToolHome(es, tool, id, front);
      LastToolHome(es, tool, id, last);
    }
  }

  ghost predicate NoneTwice(tools: seq<ToolKind>) {
    forall i, j :: 0 <= i < j < |tools| ==> tools[i] != tools[j]
  }

  lemma FrontNoneTwice(tools: seq<ToolKind>)
    requires NoneTwice(tools) && tools != []
    ensures var front, last := tools[..|tools| - 1], tools[|tools| - 1];
      NoneTwice(front) && last !in front && forall x :: x in tools <==> x in front || x == last
  {
    assert tools == tools[..|tools| - 1] + [tools[|tools| - 1]];
  }

  lemma LastToolHome(es: seq<Routed>, tool: ToolKind, id: string, last: ToolKind)
    requires OneBucketOnly(es, tool, id)
    ensures BucketHomes(last, BucketIds(es, last)) == if last == tool then [InBucket(tool, id)] else []
  {
  }

  lemma OneBucketItem(es: seq<Routed>, tool: ToolKind, id: string)
    requires OneBucketOnly(es, tool, id)
    ensures ProjectItems(es) == BucketItem(tool, BucketOf(es, tool, id))
  {
    OneToolHome(es, tool, id, TOOLS);
    EveryToolIsListed(tool);
    OnlyTheseHomes(es, InBucket(tool, id));
    FlatMapAppend(ShownAt(es), [Alone], [InBucket(tool, id)]);
    OneHome(es, Alone);
    OneHome(es, InBucket(tool, id));
  }

  lemma OnlyTheseHomes(es: seq<Routed>, h: Home)
    requires ToolHomes(es, TOOLS) == [h] && StreamKeys(es, Messages) == [] && StreamKeys(es, Reasonings) == []
    ensures Homes(es) == [Alone] + [h]
  {
  }

  lemma OneHome(es: seq<Routed>, h: Home)
    ensures FlatMap(ShownAt(es), [h]) == ItemsAt(es, h)
  {
    FlatMapSnoc(ShownAt(es), [h], 0);
    assert [h][..0] == [] && [h][..1] == [h];
  }

  lemma TwoInOneBucket(one: Routed, two: Routed, tool: ToolKind, id: string, first: Slot, second: Slot)
    requires one.route == ToBucket(tool, id, first) && two.route == ToBucket(tool, id, second)
    ensures OneBucketOnly([one, two], tool, id)
    ensures forall slot :: SlotEvents([one, two], tool, id, slot)
                        == (if slot == first then [one.event] else []) + (if slot == second then [two.event] else [])
  {
    TwoEvents(one, two);
    forall t ensures BucketIds([one, two], t) == if t == tool then [id] else [] {
      BucketIdsSnoc([], one, t);
      BucketIdsSnoc([one], two, t);
    }
    forall s ensures StreamKeys([one, two], s) == [] {
      StreamKeysSnoc([], one, s);
      StreamKeysSnoc([one], two, s);
    }
    DirectStep([], one);
    DirectStep([one], two);
    forall slot ensures SlotEvents([one, two], tool, id, slot)
                     == (if slot == first then [one.event] else []) + (if slot == second then [two.event] else []) {
      TwoSlotEvents(one, two, tool, id, slot);
    }
  }

  lemma TwoEvents<T>(one: T, two: T)
    ensures [] + [one] == [one] && [one] + [two] == [one, two]
  {
  }

  lemma TwoSlotEvents(one: Routed, two: Routed, tool: ToolKind, id: string, slot: Slot)
    ensures SlotEvents([one, two], tool, id, slot)
         == (if FillsSlot(one, tool, id, slot) then [one.event] else []) + (if FillsSlot(two, tool, id, slot) then [two.event] else [])
  {
    TwoEvents(one, two);
    SlotEventsSnoc([], one, tool, id, slot);
    SlotEventsSnoc([one], two, tool, id, slot);
  }

  /**
   A call of two events is one item that lists the opening event, then the closing one, at the
   time of the opening one, whichever came first.
   */
  lemma TwoEventCall(tool: ToolKind, begin: string, end: string, e: EventRecord, m: Json, f: EventRecord, n: Json, id: string)
    requires OpensAndCloses(tool, begin, end) && Typed(e, begin) && Typed(f, end)
    requires IsMessage(e.payload, m) && IsCallId(e, m, id) && IsMessage(f.payload, n) && IsCallId(f, n, id)
    ensures var item := AssistantItem(e.timestamp, MAX_SAFE_INTEGER, Part(ToolPart(tool), "", [e.eventId, f.eventId]), false);
      ProjectItems(RouteAll([e, f])) == [item] && ProjectItems(RouteAll([f, e])) == [item]
  {
    CallsReachTheirBuckets(e, m, id, tool, begin, end);
    CallsReachTheirBuckets(f, n, id, tool, begin, end);
    var x, y := Routed(e, RouteOf(e)), Routed(f, RouteOf(f));
    assert RouteAll([e, f]) == [x, y] && RouteAll([f, e]) == [y, x];
    BeginAndEnd(x, y, tool, id);
  }

  lemma BeginAndEnd(x: Routed, y: Routed, tool: ToolKind, id: string)
    requires x.route == ToBucket(tool, id, Begin) && y.route == ToBucket(tool, id, End)
    ensures var item := AssistantItem(x.event.timestamp, MAX_SAFE_INTEGER,
                                      Part(ToolPart(tool), "", [x.event.eventId, y.event.eventId]), false);
      ProjectItems([x, y]) == [item] && ProjectItems([y, x]) == [item]
  {
    TwoInOneBucket(x, y, tool, id, Begin, End);
    TwoInOneBucket(y, x, tool, id, End, Begin);
    OneBucketItem([x, y], tool, id);
    OneBucketItem([y, x], tool, id);
    PairItem(tool, BucketOf([x, y], tool, id), x.event, y.event);
    PairItem(tool, BucketOf([y, x], tool, id), x.event, y.event);
  }

  lemma PairItem(tool: ToolKind, b: Bucket, e: EventRecord, f: EventRecord)
    requires b == Bucket(Some(e), [], [], Some(f))
    ensures BucketItem(tool, b)
         == [AssistantItem(e.timestamp, MAX_SAFE_INTEGER, Part(ToolPart(tool), "", [e.eventId, f.eventId]), false)]
  {
    assert IdOf(b.begin) + EventIds(b.outputs) + EventIds(b.interactions) + IdOf(b.end) == [e.eventId, f.eventId];
  }

  /** An event with a part of its own, alone, is that one item, at its time and position; so is a user message. */
  lemma SinglePart(e: EventRecord, kind: PartKind, text: string, closes: bool, ends: Option<(StreamKind, string)>)
    ensures RouteOf(e) == Direct(kind, text, closes, ends) ==>
      ProjectItems(RouteAll([e])) == [AssistantItem(e.timestamp, 0, Part(kind, text, [e.eventId]), closes)]
    ensures RouteOf(e) == User ==>
      ProjectItems(RouteAll([e])) == [UserItem(e.timestamp, 0, Message("user-" + e.eventId, UserRole, e.timestamp, UserParts(e)))]
  {
    var r := Routed(e, RouteOf(e));
    assert RouteAll([e]) == [r];
    if r.route.Direct? || r.route.User? {
      AloneInPass(r);
    }
  }

  lemma AloneInPass(r: Routed)
    requires r.route.Direct? || r.route.User?
    ensures ProjectItems([r]) == DirectItem(r, 0)
  {
    assert [] + [r] == [r];
    forall t ensures BucketIds([r], t) == [] {
      BucketIdsSnoc([], r, t);
    }
    forall s ensures StreamKeys([r], s) == [] {
      StreamKeysSnoc([], r, s);
    }
    DirectStep([], r);
    assert [] + DirectItem(r, 0) == DirectItem(r, 0);
    NoToolHomes([r], TOOLS);
    assert Homes([r]) == [Alone];
    OneHome([r], Alone);
  }

  lemma {:induction false} NoToolHomes(es: seq<Routed>, tools: seq<ToolKind>)
    requires forall t :: BucketIds(es, t) == []
    ensures ToolHomes(es, tools) == []
  {
    if tools != [] {
      NoToolHomes(es, tools[..|tools| - 1]);
      assert BucketIds(es, tools[|tools| - 1]) == [];
    }
  }

  /** A stream is shown as text if its first delta is plain, else as reasoning of that kind. */
  lemma StreamKinds()
    ensures StreamPartKind(PlainText) == TextPart
    ensures StreamPartKind(Reasoning) == ReasoningPart(Reasoning) && StreamPartKind(RawContent) == ReasoningPart(RawContent)
  {
  }

  /** The list under the key holds a string. */
  ghost predicate ListsString(m: Json, key: string) {
    m.Object? && key in m.fields && m.fields[key].Array?
    && exists k :: 0 <= k < |m.fields[key].items| && m.fields[key].items[k].Text?
  }

  ghost predicate ListsAnything(m: Json, key: string) {
    m.Object? && key in m.fields && m.fields[key].Array? && m.fields[key].items != []
  }

  /** A user message: its text unless blank, its inputs if any, and the text after all if there is nothing else. */
  lemma UserMessageParts(e: EventRecord, m: Json, text: string)
    requires IsMessage(e.payload, m) && IsText(m, "message", text)
    ensures var blank := forall c :: c in text ==> IsSpace(c);
      var inputs := ListsString(m, "images") || ListsString(m, "local_images") || ListsAnything(m, "text_elements");
      var words, others := Part(TextPart, text, [e.eventId]), Part(UnknownPart, "", [e.eventId]);
      UserParts(e) == if blank then (if inputs then [others] else [words]) else (if inputs then [words, others] else [words])
  {
    MessageIsMsgOf(e, m);
    StringsListed(m, "images");
    StringsListed(m, "local_images");
    assert ListsAnything(m, "text_elements") <==> List(m, "text_elements") != [];
  }

  /** White space, by code point. */
  lemma SpacesAre(c: char)
    ensures var n := c as int;
      IsSpace(c) <==> (
        || 9 <= n <= 13 || n == 32 || n == 0xA0 || n == 0x1680 || 0x2000 <= n <= 0x200A
        || n == 0x2028 || n == 0x2029 || n == 0x202F || n == 0x205F || n == 0x3000 || n == 0xFEFF)
  {
  }

  lemma StringsListed(m: Json, key: string)
    ensures HasStrings(List(m, key)) <==> ListsString(m, key)
  {
  }
}
