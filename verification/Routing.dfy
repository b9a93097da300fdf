/** Where projectReadonlyAssistantThread sends each event. */
module Routing {
  import opened Sequences
  import opened Events

  datatype ToolKind =
    | Exec | McpTool | WebSearch | ImageGeneration | Patch | DynamicTool
    | CollabSpawn | CollabInteraction | CollabWait | CollabClose | CollabResume

  datatype StreamKind = Messages | Reasonings

  datatype Slot = Begin | Output | Interaction | End

  datatype Variant = PlainText | Reasoning | RawContent

  datatype PartKind =
    | TextPart | ReasoningPart(variant: Variant) | LifecyclePart | PlanPart | ApprovalPart
    | ToolPart(tool: ToolKind) | ViewImagePart | McpMethodPart | UnknownPart

  datatype Route =
    /** Not shown at all. */
    | Ignored
    | User
    /** A part of its own; it may end a stream, and it may close the assistant message. */
    | Direct(kind: PartKind, text: string, closes: bool, ends: Option<(StreamKind, string)>)
    | ToBucket(tool: ToolKind, id: string, slot: Slot)
    | Chunk(stream: StreamKind, key: string, variant: Variant, chunk: string)

  /** null, strings and numbers read as an empty record. */
  function AsRecord(value: Option<Json>): Json {
    if value.Some? && (value.value.Object? || value.value.Array?) then value.value else Object(map[])
  }

  function Get(record: Json, key: string): Option<Json> {
    if record.Object? && key in record.fields then Some(record.fields[key]) else None
  }

  predicate HasKeys(record: Json) {
    match record
    case Object(fields) => fields != map[]
    case Array(items) => items != []
    case _ => false
  }

  /** A string field, if it is there and not empty. */
  function Str(record: Json, key: string): Option<string> {
    match Get(record, key)
    case Some(Text(s)) => if s == "" then None else Some(s)
    case _ => None
  }

  function List(record: Json, key: string): seq<Json> {
    match Get(record, key)
    case Some(Array(items)) => items
    case _ => []
  }

  function MsgOf(event: EventRecord): Json {
    var payload := AsRecord(Some(event.payload));
    var params := AsRecord(Get(payload, "params"));
    match Get(params, "msg")
    case Some(Object(fields)) => Object(fields)
    case Some(Array(items)) => Array(items)
    case _ => if HasKeys(params) then params else payload
  }

  function OrElse<T>(first: Option<T>, fallback: T): T {
    if first.Some? then first.value else fallback
  }

  function BucketId(event: EventRecord): string {
    OrElse(Str(MsgOf(event), "call_id"), OrElse(event.commandCallId, OrElse(event.toolCallId, event.eventId)))
  }

  function StreamBucketId(event: EventRecord): string {
    OrElse(event.turnId, OrElse(event.requestId, event.eventId))
  }

  function ChunkOf(event: EventRecord): string {
    OrElse(Str(MsgOf(event), "delta"), OrElse(Str(MsgOf(event), "text"), ""))
  }

  function ToolSlot(eventType: string): Option<(ToolKind, Slot)> {
    match eventType
    case "exec_command_begin" => Some((Exec, Begin))
    case "exec_command_output_delta" => Some((Exec, Output))
    case "terminal_interaction" => Some((Exec, Interaction))
    case "exec_command_end" => Some((Exec, End))
    case "mcp_tool_call_begin" => Some((McpTool, Begin))
    case "mcp_tool_call_end" => Some((McpTool, End))
    case "web_search_begin" => Some((WebSearch, Begin))
    case "web_search_end" => Some((WebSearch, End))
    case "image_generation_begin" => Some((ImageGeneration, Begin))
    case "image_generation_end" => Some((ImageGeneration, End))
    case "patch_apply_begin" => Some((Patch, Begin))
    case "patch_apply_end" => Some((Patch, End))
    case "dynamic_tool_call_request" => Some((DynamicTool, Begin))
    case "dynamic_tool_call_response" => Some((DynamicTool, End))
    case "collab_agent_spawn_begin" => Some((CollabSpawn, Begin))
    case "collab_agent_spawn_end" => Some((CollabSpawn, End))
    case "collab_agent_interaction_begin" => Some((CollabInteraction, Begin))
    case "collab_agent_interaction_end" => Some((CollabInteraction, End))
    case "collab_waiting_begin" => Some((CollabWait, Begin))
    case "collab_waiting_end" => Some((CollabWait, End))
    case "collab_close_begin" => Some((CollabClose, Begin))
    case "collab_close_end" => Some((CollabClose, End))
    case "collab_resume_begin" => Some((CollabResume, Begin))
    case "collab_resume_end" => Some((CollabResume, End))
    case _ => None
  }

  function DeltaKind(eventType: string): Option<(StreamKind, Variant)> {
    match eventType
    case "agent_message_delta" => Some((Messages, PlainText))
    case "agent_message_content_delta" => Some((Messages, PlainText))
    case "agent_reasoning_delta" => Some((Reasonings, Reasoning))
    case "reasoning_content_delta" => Some((Reasonings, Reasoning))
    case "agent_reasoning_raw_content_delta" => Some((Reasonings, RawContent))
    case "reasoning_raw_content_delta" => Some((Reasonings, RawContent))
    case _ => None
  }

  predicate IsApprovalType(eventType: string) {
    eventType in {
      "exec_approval_request", "apply_patch_approval_request", "elicitation_request",
      "request_permissions", "request_user_input"
    }
  }

  /** The keys of the title table, and the names every JavaScript object answers to. */
  predicate IsLifecycleType(eventType: string) {
    eventType in {
      "session_configured", "task_started", "turn_started", "task_complete", "turn_complete", "turn_aborted",
      "thread_name_updated", "background_event", "error", "warning", "stream_error", "stream_info", "token_count",
      "turn_diff", "model_reroute", "context_compacted", "thread_rolled_back", "deprecation_notice", "undo_started",
      "undo_completed", "guardian_assessment", "mcp_startup_update", "mcp_startup_complete",
      "get_history_entry_response", "mcp_list_tools_response", "list_skills_response",
      "realtime_conversation_started", "realtime_conversation_realtime", "realtime_conversation_closed",
      "realtime_conversation_sdp", "realtime_conversation_list_voices_response", "skills_update_available",
      "raw_response_item", "item_started", "item_completed", "hook_started", "hook_completed",
      "agent_reasoning_section_break", "conversation_path_response", "review_output", "shutdown_complete",
      "entered_review_mode", "exited_review_mode",
      "constructor", "hasOwnProperty", "isPrototypeOf", "propertyIsEnumerable", "toLocaleString", "toString", "valueOf",
      "__proto__", "__defineGetter__", "__defineSetter__", "__lookupGetter__", "__lookupSetter__"
    }
  }

  function Plain(kind: PartKind): Route {
    Direct(kind, "", false, None)
  }

  /** The event types the switch names that are neither deltas nor buckets. */
  function NamedRoute(event: EventRecord, eventType: string): Option<Route> {
    var text := OrElse(Str(MsgOf(event), "text"), "");
    match eventType
    case "user_message" => Some(User)
    case "agent_message" =>
      Some(Direct(TextPart, OrElse(Str(MsgOf(event), "message"), ""), true, Some((Messages, StreamBucketId(event)))))
    case "agent_reasoning" =>
      Some(Direct(ReasoningPart(Reasoning), text, false, Some((Reasonings, StreamBucketId(event)))))
    case "agent_reasoning_raw_content" =>
      Some(Direct(ReasoningPart(RawContent), text, false, Some((Reasonings, StreamBucketId(event)))))
    case "agent_reasoning_section_break" => Some(Plain(LifecyclePart))
    case "view_image_tool_call" => Some(Plain(ViewImagePart))
    case "plan_update" => Some(Plain(PlanPart))
    case "plan_delta" => Some(Plain(PlanPart))
    case _ => None
  }

  /** What follows the switch. */
  function FallbackKind(event: EventRecord, eventType: string): (kind: PartKind)
    ensures !kind.ToolPart?
  {
    if IsApprovalType(eventType) then ApprovalPart
    else if IsLifecycleType(eventType) then LifecyclePart
    else if event.category != "codex_event" then McpMethodPart
    else UnknownPart
  }

  function RouteOfType(event: EventRecord, eventType: string): Route {
    var named, delta, tool := NamedRoute(event, eventType), DeltaKind(eventType), ToolSlot(eventType);
    if named.Some? then named.value
    else if delta.Some? then Chunk(delta.value.0, StreamBucketId(event), delta.value.1, ChunkOf(event))
    else if tool.Some? then ToBucket(tool.value.0, BucketId(event), tool.value.1)
    else Plain(FallbackKind(event, eventType))
  }

  function RouteOf(event: EventRecord): Route {
    if event.category == "raw_frame" || event.category == "response" then Ignored
    else
      match event.eventType
      case None => Ignored
      case Some(t) => if t == "" then Ignored else RouteOfType(event, t)
  }

  lemma NamedRoutes(event: EventRecord, eventType: string)
    ensures var r := NamedRoute(event, eventType);
      r.Some? ==> r.value != Ignored && (r.value.Direct? ==> !r.value.kind.ToolPart?)
  {
  }

  lemma TypedRoutes(event: EventRecord, eventType: string)
    ensures var r := RouteOfType(event, eventType); r != Ignored && (r.Direct? ==> !r.kind.ToolPart?)
  {
    NamedRoutes(event, eventType);
  }

  /** Only raw frames, responses and events without a type are left out. */
  lemma IgnoredIff(event: EventRecord)
    ensures RouteOf(event) == Ignored <==>
      event.category in {"raw_frame", "response"} || event.eventType in {None, Some("")}
  {
    if event.eventType.Some? {
      TypedRoutes(event, event.eventType.value);
    }
  }

  /** Direct routes never claim to be a tool bucket. */
  lemma DirectIsNoBucket(event: EventRecord)
    ensures RouteOf(event).Direct? ==> !RouteOf(event).kind.ToolPart?
  {
    if event.eventType.Some? {
      TypedRoutes(event, event.eventType.value);
    }
  }

  /** White space as String.prototype.trim sees it. */
  predicate IsSpace(c: char) {
    || '\t' <= c <= '\r' || c in {' ', '\U{00A0}', '\U{1680}', '\U{2028}', '\U{2029}', '\U{202F}', '\U{205F}', '\U{3000}', '\U{FEFF}'}
    || '\U{2000}' <= c <= '\U{200A}'
  }

  predicate IsBlank(s: string) {
    forall c :: c in s ==> IsSpace(c)
  }

  predicate HasStrings(values: seq<Json>) {
    exists k :: 0 <= k < |values| && values[k].Text?
  }
}
