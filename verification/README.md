# One event, from ingest to screen: a Dafny model

The hub stores every event of a Codex session, publishes it to live subscribers, and serves the
stored history page by page. The dashboard opens a live stream, loads the history behind it,
merges the two, and turns the merged events into a conversation. This project models that
pipeline and proves what a user of the dashboard relies on: no event is lost on the way except
where a full channel drops it, the list shown is the one a single merge would give, every event
of the conversation stands in one place, and the derived tables mean what the event history says.

## How the model is laid out

One module per file.

- `Sequences`, `StableSort`: filters, and a stable sort that is determined by its input's ties.
- `Events`: event records, the client's order, ids. `localeCompare` is any total preorder on
  strings (`Collator`), so distinct strings may tie.
- `SessionMerge`, `LiveView`, `SessionHistory`, `HistoryHook`: `mergeSessionEvents`, one run of the
  effect with its buffer and handoff, the hook with its cache over thread switches, and the hook as
  an object whose methods each perform one step of that model.
- `Cursor`, `EventStore`, `Backfill`: the page cursor, keyset pages, and the paging loop over a
  table that stands still or grows between requests.
- `Ring`, `BrokerRuns`, `HubBroker`: the replay ring as a window on an unbounded log, the broker as
  a step relation with overtaking sends, and the broker, its channels and the stream handler as
  objects.
- `Pipeline`, `EndToEnd`, `Deliveries`, `Reconnects`, `ReconnectLosses`, `Scenarios`: insert,
  publish, send, connect, disconnect, page, deliver and merge as steps of one system, its invariant,
  what follows for every interleaving, exactly what is lost when connections break, and concrete
  runs.
- `DerivedTables`, `RowsInWords`, `HubIngest`, `IngestStep`, `TitleSummary`: the `sessions` and
  `mcp_calls` rows as folds of the accepted history and in terms of the events' own fields, the store
  and the ingest handler as state-changing code and as a step of the pipeline, and the title taken
  from a user message.
- `Routing`, `RoutingFacts`, `Projection`, `ProjectionPass`, `Conservation`, `BucketRule`, `Placement`,
  `MessageFold`, `ThreadProjection`, `Conversation`: where each event is sent, what every bucket and
  stream holds, the single pass with its maps, the account of ids, what a bucket shows, the order of
  the items, the fold into messages, the ids of those messages, and the way from ingest to them.

Code that updates state is a class or a method, proved against a function of its input or old
state; the theorems are then about that function. State machines are a `Step` datatype, `Enabled`
and `Next`, and runs over a sequence of steps.

## Where a wish is false of the code

Each comes with the exact condition under which it does hold.

- Events dropped on a full channel are not always recovered on reconnect, although
  `internal/hub/broker.go:64-65` says so. `BrokerRuns.DropThenDeliveryIsNotRecovered` is a run in
  which the 33rd event finds the channel full, the 34th is delivered, and resuming skips the 33rd.
  `BrokerRuns.DroppedEventComesBackIff`: a drop comes back exactly if it came after the last frame
  taken and that frame is still in the ring.
- Two connections of one client are seamless exactly when nothing was dropped before what their
  handlers took and the last frame was still in the ring on reconnect
  (`BrokerRuns.ReconnectHasNoGap`).
- The hook calls `stream` before it starts the load, but `subscribeEvents` does not wait for the
  response (`web/src/lib/sse.ts:29`), so the store may answer the first page before the broker has
  seen the stream request. `Scenarios.PagingFirstCanLose` is such a run; an event is neither shown
  nor dropped. That the subscription comes first is therefore a hypothesis of
  `EndToEnd.NothingIsLost` which the program does not enforce. `EndToEnd.MissingIff` says, without
  it and for any number of connections, exactly which stored events a quiet client does not show.
- Reconnecting does not always catch up. A client that has neither a frame nor a cache has nothing
  to resume after (`Scenarios.ResumeWithoutFrameCanLose`). A client without a frame resumes after
  its cache's last event, which the hub may have published later than an event the client misses
  (`Scenarios.CacheCursorCanLose`). Where publishes overlap, an event overtaken by the client's last
  frame is lost (`Scenarios.OvertakingCanLose`). Where they do not,
  `ReconnectLosses.MissingAfterReconnectsIff` says exactly which stored events of the thread a quiet
  client misses after any number of broken connections, if it subscribed before its first page.
  With overlapping publishes there is only `EndToEnd.MissingIff`, which for all connections but the
  last refers to what they handled.
- `onEvent` does not look at `cancelled`. If a stream delivered after its unsubscribe function ran,
  a live event would file one thread's list under another
  (`SessionHistory.LateLiveEventWouldCrossThreads`, a run of the hook); it leaves the cache alone
  exactly while the handoff is not complete (`SessionHistory.LiveEventKeepsCacheIff`). The other
  theorems about the hook assume that a stream delivers nothing after that.
- Merging does not commute: two records that tie stay in the order in which they came
  (`SessionMerge.TiedIdsDoNotCommute`). `SessionMerge.MergeCommutesIff` gives the exact condition;
  merging is associative and idempotent always.
- The fold is a homomorphism exactly at closed boundaries: `MessageFold.FoldAppendsIffClosed`.
- A title taken from a message is cut after 80 bytes, which can be inside a character. It is
  well-formed text exactly under the condition of `TitleSummary.TitleIsTextIff`;
  `TitleSummary.CutsInsideACharacter` shows the failing family.

## Model

| member | source | states |
|---|---|---|
| SessionMerge.MergeSessionEvents | web/src/lib/session-history.ts:57-68 | the nested loops over the insertion-ordered Map and the sort give the specification `Merge` of the concatenated collections, by timestamp and at one timestamp by id |
| SessionMerge.AddCollection | web/src/lib/session-history.ts:60-65 | the inner loop keeps the Map equal to the first record of each id seen so far, in order of first appearance |
| SessionMerge.MergeMeetsItsPromise | web/src/lib/session-history.ts:36-68 | of two neighbours in the merge the first one's timestamp compares less, or equal and its id not greater; ids are distinct, exactly the input's, and each has its first record |
| SessionMerge.MergeIsAssociative | web/src/lib/session-history.ts:57-68 | merging in two rounds gives the same list whichever round is inner |
| SessionMerge.MergeIsIdempotent | web/src/lib/session-history.ts:57-68 | a merged list, and a list merged with itself, do not change |
| SessionMerge.MergeAbsorbsLeft | web/src/lib/session-history.ts:201 | merging an already merged left part again changes nothing, winner per id included |
| SessionMerge.MergeAbsorbsRight | web/src/lib/session-history.ts:86-86 | the load's own merge inside the handoff's merge changes nothing |
| SessionMerge.MergeIgnoresKnown | web/src/lib/session-history.ts:226 | events whose ids are all present add nothing |
| SessionMerge.MergeCommutesIff | web/src/lib/session-history.ts:36-68 | the order of two collections does not matter exactly if they keep the same record for every id both name, and in every class of ties one goes on where the other ends |
| SessionMerge.TiedIdsDoNotCommute | web/src/lib/session-history.ts:36-68 | two records with different ids that compare equal are listed in the order in which they came, in either order |
| SessionMerge.SomeMergesDoNotCommute | web/src/lib/session-history.ts:36-41 | there are a collation and two collections with distinct ids whose merge depends on their order |
| SessionMerge.MergeCommutes | web/src/lib/session-history.ts:36-68 | in particular, with one record per id and no ties between ids, the order of collections does not matter |
| SessionMerge.SameMembersMergeAlike | web/src/lib/session-history.ts:36-68 | under the same condition the merge depends only on the set of records |
| StableSort.SortIsStable | web/src/lib/session-history.ts:67 | sorting sorts and keeps every class of ties in input order |
| StableSort.SortIsUnique | web/src/lib/session-history.ts:67 | a sorted list is determined by the order inside its classes of ties |
| LiveView.LiveViewRefinesOneShotMerge | web/src/lib/session-history.ts:191-240 | after any callbacks the effect shows the one-shot merge of cache, all pages and all live events; before the handoff, of the cache and the live events up to the last parse error |
| LiveView.HandoffIsOneMerge | web/src/lib/session-history.ts:196-205 | the load's merge with a part of the buffer, merged with the whole buffer, is one merge |
| LiveView.ParseErrorCatchesUp | web/src/lib/session-history.ts:231-239 | merging the whole buffer again changes nothing after the handoff and catches up before it |
| LiveView.ShownIdsOnlyGrow | web/src/lib/session-history.ts:191-240 | no callback takes an id off the screen |
| SessionHistory.EveryRunIsConsistent | web/src/lib/session-history.ts:97-248 | over every run of switches, remounts, live events, errors and loads: each cache entry is the last list committed for its thread, the screen shows it, refreshKey counts the commits that changed their thread's id sequence |
| SessionHistory.StatusShown | web/src/lib/session-history.ts:196-239 | a load that succeeds or a live event after the handoff shows ready, a failed load or a parse error the error status |
| SessionHistory.LeftThreadIsInert | web/src/lib/session-history.ts:196-247 | a load, failure or parse error of a left thread changes nothing at all |
| SessionHistory.OpenThreadShowsOneShotMerge | web/src/lib/session-history.ts:143-248 | from a switch on, whatever earlier effects do, the screen is the one-shot merge of the thread's cache, pages and live events |
| SessionHistory.LateLiveEventWouldCrossThreads | web/src/lib/session-history.ts:221-230 | after a run that opens two threads, a delivery to the left effect puts the other thread's event under the left thread |
| SessionHistory.LiveEventKeepsCacheIff | web/src/lib/session-history.ts:221-230 | a live event reaching an effect leaves the cache alone, whatever the event, exactly if the effect's handoff is not complete |
| HistoryHook.HistoryHook.CommitEvents | web/src/lib/session-history.ts:163-189 | the updater's assignments are the model's UpdateEvents on the old state |
| HistoryHook.HistoryHook.RunEffect | web/src/lib/session-history.ts:147-161 | cleanup of the old effect and start of the new one are the model's Enter |
| HistoryHook.HistoryHook.OnEvent | web/src/lib/session-history.ts:221-230 | the callback is the model's step for a live event |
| HistoryHook.HistoryHook.OnParseError | web/src/lib/session-history.ts:231-239 | the callback is the model's step for a parse error |
| HistoryHook.HistoryHook.BackfillLoaded | web/src/lib/session-history.ts:196-205 | the continuation is the model's step for a finished load |
| HistoryHook.HistoryHook.BackfillFailed | web/src/lib/session-history.ts:206-215 | the continuation is the model's step for a failed load |
| HistoryHook.HistoryHook.SameIds | web/src/lib/session-history.ts:47-51 | true exactly for equal id sequences |
| Cursor.CursorRoundTrip | internal/store/sqlite/store.go:65-89 | parsing a formatted cursor gives back the pair for every int64 and every non-empty id, bars in the id included |
| Cursor.FormatIsInjective | internal/store/sqlite/store.go:65-70 | different pairs have different cursors |
| Cursor.ParsedCursorsAreProper | internal/store/sqlite/store.go:76-89 | whatever is accepted is the start, or an int64 and a non-empty id that format and parse to themselves |
| Cursor.DecimalNotation | internal/store/sqlite/store.go:69 | times are written in decimal, a minus sign first |
| Cursor.NumbersAccepted | internal/store/sqlite/store.go:84 | a plus sign and leading zeros are accepted, other characters refused |
| EventStore.AppendKeepsValid | internal/store/sqlite/store.go:495-514 | an insert is refused exactly for an id already present, and keeps ids distinct |
| EventStore.ListSessionEventsPage | internal/store/sqlite/store.go:524-559 | the fetch of limit + 1 rows and the loop answer min(limit, rest) of the rows beyond the cursor, 100 for a limit not positive, and a next cursor exactly if more remain |
| EventStore.TextLeIsByCharacter | internal/store/query/events.sql:16-18 | ids are ordered character by character: one is a prefix of the other, or the first difference decides |
| EventStore.FetchedIsPrefix | internal/store/query/events.sql:7-19 | filter by keyset, then order and limit, is a prefix of what follows the cursor in the ordered history |
| EventStore.HistoryAscends | internal/store/query/events.sql:7-19 | the ordered history ascends by occurred_at, at one time strictly by id, and holds exactly the rows of a non-empty thread id |
| EventStore.LoadAllPages | web/src/lib/session-history.ts:77-84 | over an unchanging table the loop ends for every limit, returns exactly the thread's rows in key order, each once, in max(1, ceil(n / limit)) requests (with 100 for a limit not positive) |
| Backfill.PagingUnderInserts | web/src/lib/session-history.ts:77-84 | with arbitrary inserts between requests no id is returned twice, and at the end every row stored before the first request was returned exactly once |
| Backfill.RequestKeepsProgress | internal/store/sqlite/store.go:524-559 | one request keeps the paging invariant; the position only moves forward, and a page with a next cursor is not empty |
| Backfill.CursorsIncrease | internal/store/query/events.sql:12-19 | from request to request the cursor strictly increases |
| Backfill.PagingEnds | web/src/lib/session-history.ts:77-84 | under inserts, too, the loop ends, at the latest with the request whose number times the limit reaches what the thread has by then |
| Backfill.LoadPages | web/src/lib/session-history.ts:79-81 | the client's load asks for 500 rows a page |
| Backfill.LoadEnds | web/src/lib/session-history.ts:77-84 | for the client's load that number is 500 |
| Backfill.LoadSessionHistory | web/src/lib/session-history.ts:70-87 | each request answered from the table of its moment, the load returns the merge of all pages and the buffer, or is still running when the tables end |
| Ring.PushRefinesLog | internal/hub/broker.go:50-53 | append and reslice keep the ring the last min(n, cap) events of the unbounded log |
| Ring.ReplayFromLog | internal/hub/broker.go:76-88 | replay from log position i is the whole rest of the log while i is in the window, else nothing |
| Ring.ResumeIsSeamless | internal/hub/broker.go:72-96 | a received piece of the log and the replay after its last event are the log without gap or duplicate exactly if fewer than cap events followed |
| BrokerRuns.EveryRunIsAccounted | internal/hub/broker.go:48-96 | over every interleaving: attempted and pending sends are the log since the subscription, deliveries are what was taken and queued, and a send fails exactly if 32 delivered events were not yet taken |
| BrokerRuns.ExactlyOnceHandoff | internal/hub/broker.go:48-96 | for a cursor in the ring, replay, taken, queued, dropped and pending together are the log after the cursor, each event once |
| BrokerRuns.SerialRunsKeepOrder | internal/hub/broker.go:60-67 | if publishes do not overlap, every subscriber is sent the log in order |
| BrokerRuns.FramesAreContiguousIff | internal/hub/http/sse.go:33-57 | the frames of a connection are a contiguous piece of the log exactly without drops before what was taken |
| BrokerRuns.ReconnectHasNoGap | internal/hub/http/sse.go:29-57 | two connections join without gap or duplicate exactly if neither had a drop before what was taken and the last frame of the first was still in the ring |
| BrokerRuns.DroppedEventComesBackIff | internal/hub/broker.go:60-67 | an event dropped on one connection is in the replay of the next exactly if it was published after the first one's last frame and before the resume, and that frame is still in the ring |
| BrokerRuns.DropThenDeliveryIsNotRecovered | internal/hub/broker.go:64-65 | a serial run in which an event finds the channel full, the next is delivered, and the resuming client has the first on neither connection |
| HubBroker.Channel.TrySend | internal/hub/broker.go:61-66 | a send appends if fewer than 32 events wait, else changes nothing, and says which |
| HubBroker.Broker.Publish | internal/hub/broker.go:48-68 | the ring stays the window on the log, and every subscriber's channel is offered the event |
| HubBroker.Broker.Subscribe | internal/hub/broker.go:72-96 | the loop returns everything in the window after the given event, and registers an empty channel |
| HubBroker.EventStream.constructor | internal/hub/http/sse.go:29-42 | the header wins over the query parameter, and the whole replay is written first |
| HubBroker.EventStream.Pump | internal/hub/http/sse.go:44-57 | written and queued together do not change: events go out in channel order, one a turn |
| Pipeline.StepKeepsInv | internal/hub/http/ingest.go:72-95 | every step of every actor keeps the pipeline's invariant, whatever order of subscription and paging the run allows |
| Pipeline.ResumesAfterNewest | web/src/lib/session-history.ts:53-55 | a client resumes after the last frame it handled, else after the newest event of its cache, else after nothing |
| EndToEnd.NothingIsLost | web/src/lib/session-history.ts:191-242 | in every interleaving on one connection, subscribed first, once the load is merged, nothing is pending and the stream is drained, every stored event of the thread is shown or was dropped on a full channel |
| EndToEnd.MissingIff | web/src/lib/session-history.ts:191-242 | for any order of subscription and paging, any number of connections and any overlap, a quiet client misses a stored event exactly if cache, pages and earlier connections did not have it, and the last connection dropped it, or it was published before that connection and is not in its replay |
| Reconnects.NothingIsLostAcrossReconnects | web/src/lib/sse.ts:24-52 | over any number of broken connections, subscribed first and with serial publishes, a quiet client shows every stored event of the thread that was not dropped for good and not lost on a resume: published after the last frame handled by then when that frame had left the ring or there was none, or not after the cursor that came from the cache |
| ReconnectLosses.LossesAreFinal | web/src/lib/session-history.ts:191-242 | at any moment after the handoff, an event dropped for good or lost on a resume is on screen only if the cache or a page had it |
| ReconnectLosses.MissingAfterReconnectsIff | web/src/lib/sse.ts:24-52 | so such a client misses a stored event of the thread exactly if neither cache nor pages had it and it was lost on a resume, or dropped on a connection that is the last or on which a newer frame was handled |
| ReconnectLosses.StaysLost | internal/hub/broker.go:72-89 | what a connection neither replays nor was sent, the next one does not offer either |
| Deliveries.DeliveriesAscend | internal/hub/broker.go:60-67 | with serial publishes, deliveries happen in log order |
| Reconnects.NextConnection | internal/hub/broker.go:72-96 | an event due on a connection is handled or dropped for good there, or due on the next, or lost on that resume |
| Reconnects.HandledUpTo | internal/hub/http/sse.go:36-56 | up to the last frame handled, whatever a connection offered was handled or dropped |
| Scenarios.LateEventIsShown | internal/hub/http/ingest.go:72-95 | a quiet end is reached: an event stored after the last page was read comes through the stream and is shown, with nothing dropped |
| EndToEnd.DropsNeedFullChannel | internal/hub/broker.go:61-66 | at any moment of any run, a dropped event found exactly 32 delivered events not yet taken |
| EndToEnd.NothingIsInvented | web/src/lib/session-history.ts:191-242 | at every moment of any run everything shown was ingested or cached |
| Scenarios.PagingFirstCanLose | web/src/lib/session-history.ts:218-242 | if a page may be answered before the broker has seen the stream request, some run ends quiet with a stored event neither shown nor dropped |
| Scenarios.ResumeWithoutFrameCanLose | internal/hub/http/sse.go:29-33 | a client without frame and cache that reconnects can end quiet with a stored event neither shown nor dropped |
| Scenarios.CacheCursorCanLose | web/src/lib/session-history.ts:155-156 | a client that resumes after its cache's last event, published meanwhile, can end quiet without an event published before that one, nothing dropped |
| Scenarios.OvertakingCanLose | internal/hub/broker.go:58-67 | when publishes overlap, a client that reconnects after the later event can end quiet without the earlier one, nothing dropped |
| DerivedTables.SessionRowMeaning | internal/hub/http/ingest.go:137-201 | after any history: title is the last non-empty rename, else the first non-empty fallback; model, cwd and approval are the last non-empty configured values; source and last-seen the last event's, first-seen the first one's |
| RowsInWords.SessionRowExistsIff | internal/hub/http/ingest.go:142 | a session row exists exactly if some event had this session id and a source key |
| RowsInWords.SessionSeen | internal/store/query/sessions.sql:1-11 | source and last-seen are the last such event's, first-seen the first one's |
| RowsInWords.LastRenameWins | internal/hub/http/ingest.go:188-191 | the title is that of the last thread_name_updated with a name |
| RowsInWords.FirstFallbackElse | internal/hub/http/ingest.go:192-199 | without one, it is the first session_configured name or user_message summary that is not empty |
| RowsInWords.NoTitleElse | internal/hub/http/ingest.go:186-201 | without any of these there is no title |
| RowsInWords.LastConfiguredWins | internal/hub/http/ingest.go:175-180 | model, cwd and approval policy are each the last non-empty value of a session_configured |
| RowsInWords.NothingConfigured | internal/hub/http/ingest.go:175-180 | each is null while none gave it |
| DerivedTables.CallRowMeaning | internal/hub/http/ingest.go:153-172 | a call row exists exactly after a valid tools/call with its id; tool, owner and start are the first one's; it is completed exactly by a later response or error, with the last one's time and status |
| RowsInWords.CallRowExistsIff | internal/hub/http/ingest.go:153-154 | a call row exists exactly if some upstream_to_codex tools/call had this request id, a tool name, a proxy and a source key |
| RowsInWords.CallStartsWith | internal/hub/http/ingest.go:155-162 | tool, owner and start are the first such event's, the start its own time or else the clock |
| RowsInWords.CallIsCompletedIff | internal/hub/http/ingest.go:165-172 | it is completed exactly if a codex_to_upstream response or error with this id came after it |
| RowsInWords.CallEndsWith | internal/hub/http/ingest.go:167-171 | then the status is error if the last such event's category is error, else ok, and the time is that event's own or else the clock |
| RowsInWords.CallBelongsTo | internal/store/query/mcp_calls.sql:6-7 | the session is the last one that a starting event named |
| DerivedTables.CompletedStaysCompleted | internal/store/query/mcp_calls.sql:6-9 | nothing reopens a completed call |
| DerivedTables.SessionStep | internal/store/query/sessions.sql:1-11 | one event changes a row by COALESCE, rename and fill-if-empty, and no other session's row |
| DerivedTables.CallStep | internal/store/query/mcp_calls.sql:1-14 | one event starts, updates or completes the call of its request id, and no other |
| HubIngest.Store.UpsertSessionRow | internal/store/sqlite/store.go:414-425 | insert or update of one row, empty strings never overwriting |
| HubIngest.Store.SetSessionTitleAlways | internal/store/sqlite/store.go:391-399 | the new title of an existing row; nothing for an empty id, title or missing row |
| HubIngest.Store.SetSessionTitleIfEmpty | internal/store/sqlite/store.go:404-412 | the same, only where the row has no title |
| HubIngest.Store.UpsertMCPCall | internal/store/sqlite/store.go:292-306 | on conflict only nulls are filled: tool, start and owner stay |
| HubIngest.Store.CompleteMCPCall | internal/store/sqlite/store.go:329-338 | sets time and status of an existing row only |
| HubIngest.Store.AppendRow | internal/store/sqlite/store.go:495-514 | appends, or refuses a repeated id and changes nothing |
| HubIngest.Store.WriteTitle | internal/hub/http/ingest.go:186-201 | dispatches to the title rule of the event's type |
| HubIngest.Store.DerivePersistentRows | internal/hub/http/ingest.go:137-173 | both tables move as one step of the fold |
| HubIngest.Store.DerivedRowsMean | internal/hub/http/ingest.go:137-173 | in every valid store each row has the meaning that the accepted history gives it |
| HubIngest.EventsHandler | internal/hub/http/ingest.go:42-98 | append, derive, publish: a repeated id changes nothing; any other event is stored, derived and offered to every subscriber, and row and published record carry one id, the body's fields, the event's time or else the clock, and the body's category (the stored one inferred if empty) |
| HubIngest.InferredCategory | internal/hub/http/query.go:225-258 | the inferred category, type by type |
| IngestStep.AcceptedBodyIsAStep | internal/hub/http/ingest.go:72-95 | what the handler appends and publishes meets the guard of the pipeline's insert |
| TitleSummary.TitleIsTheWords | internal/hub/http/ingest.go:203-214 | the title is the bytes of the words joined, if these are at most 80, else the first 80 of them and an ellipsis |
| TitleSummary.SingleSpaces | internal/hub/http/ingest.go:208 | one space between two words and none at either end |
| TitleSummary.Utf8StandsFor | internal/hub/http/ingest.go:209-213 | the bytes of a character stand for its code point, one to four by its size |
| TitleSummary.JoinedKeepsWords | internal/hub/http/ingest.go:203-208 | the joined text has exactly the message's words, and joining again changes nothing |
| TitleSummary.FieldsHoldEverything | internal/hub/http/ingest.go:208 | the words hold every character that is no space, in order |
| TitleSummary.BlankIffNoTitle | internal/hub/http/ingest.go:203-214 | a message gives no title exactly if it is blank; no title exceeds 83 bytes |
| TitleSummary.TitleIsTextIff | internal/hub/http/ingest.go:209-213 | the title is well-formed text exactly if it fits or no character straddles byte 80 |
| TitleSummary.CutsInsideACharacter | internal/hub/http/ingest.go:213 | 79 letters and a character of several bytes give a title that is not text |
| Routing.IgnoredIff | web/src/lib/assistant-projection.ts:251-254 | an event is ignored exactly if it is a raw frame, a response, or has no type |
| RoutingFacts.CallsReachTheirBuckets | web/src/lib/assistant-projection.ts:311-416 | each of the eleven tools' opening and closing types reaches its map in that slot, under call_id of the message, else command_call_id, tool_call_id, event_id |
| RoutingFacts.OutputReachesItsBucket | web/src/lib/assistant-projection.ts:314-319 | command output and terminal interactions reach the command's bucket |
| RoutingFacts.DeltasReachTheirStreams | web/src/lib/assistant-projection.ts:289-300 | each of the six delta types reaches its stream with its variant and text, under turn_id, else request_id, else event_id |
| RoutingFacts.CompleteTextsEndTheirStreams | web/src/lib/assistant-projection.ts:260-288 | the complete messages: part, text, whether they close the message, and the stream they end |
| RoutingFacts.NamedParts | web/src/lib/assistant-projection.ts:257-386 | the other types that the switch names |
| RoutingFacts.FallbacksInOrder | web/src/lib/assistant-projection.ts:421-460 | every other type: approvals, then titled types, then methods, then unknown |
| RoutingFacts.TwoEventCall | web/src/lib/assistant-projection.ts:679-733 | a call of two events is one item that lists the opening event, then the closing one, at the opening one's time, in either order of arrival |
| RoutingFacts.SinglePart | web/src/lib/assistant-projection.ts:612-625 | an event with a part of its own is one item at its time and position |
| RoutingFacts.UserMessageParts | web/src/lib/assistant-projection.ts:561-610 | a user message's parts: its text unless blank, its inputs if any, the text after all if there is nothing else |
| RoutingFacts.StreamKinds | web/src/lib/assistant-projection.ts:926-938 | text for plain streams, else reasoning of the stream's variant |
| Routing.DirectIsNoBucket | web/src/lib/assistant-projection.ts:256-460 | no event projected by itself is a tool bucket |
| ProjectionPass.Dispatch | web/src/lib/assistant-projection.ts:251-461 | one turn of the switch keeps every map equal to what the events so far make of it |
| ProjectionPass.Distribute | web/src/lib/assistant-projection.ts:235-461 | the loop over the events fills every map as specified |
| ProjectionPass.EmitBuckets | web/src/lib/assistant-projection.ts:463-517 | emission of one tool's map, in order of first use |
| ProjectionPass.EmitStreams | web/src/lib/assistant-projection.ts:518-527 | emission of one stream map |
| ProjectionPass.ProjectItemsInOnePass | web/src/lib/assistant-projection.ts:235-527 | the pass over mutable maps gives the declarative list of items |
| ProjectionPass.StreamStep | web/src/lib/assistant-projection.ts:941-974 | appending a chunk and terminating a stream keep the map equal to the declarative streams |
| ProjectionPass.BucketStep | web/src/lib/assistant-projection.ts:985-996 | filling a slot keeps the map equal to the declarative buckets |
| Conservation.StreamRule | web/src/lib/assistant-projection.ts:916-974 | a stream is shown exactly if some delta has text and no ending event follows any delta; then with the first delta's time, position and variant, all deltas' text in order and all their ids |
| Conservation.ProjectionConserves | web/src/lib/assistant-projection.ts:251-527 | the ids of all items, with multiplicity, are the ids of the shown events: nothing else is lost, nothing is invented; every part of a user message lists exactly its event |
| BucketRule.BucketStandsAtAnchor | web/src/lib/assistant-projection.ts:679-682 | a bucket some event fills gives one item, at the time of its last begin, else first output, else first interaction, else last end |
| BucketRule.BucketListsItsEvents | web/src/lib/assistant-projection.ts:728-733 | the item lists exactly the bucket's events that no later one overwrites: begin, outputs, interactions, end, each in input order |
| Placement.EveryEventAtMostOnce | web/src/lib/assistant-projection.ts:251-529 | with distinct ids every shown event is listed by exactly one item, once; every other by none; no item lists anything else; every part of a user message lists exactly its event |
| Placement.SortedItemsInTimeOrder | web/src/lib/assistant-projection.ts:529 | for any input, items are ordered by timestamp, at one time by position |
| Placement.ItemsAreWellPlaced | web/src/lib/assistant-projection.ts:463-529 | for input sorted by timestamp, direct items and streams keep input order and carry their event's time; each bucket stands at its anchor's time after every other item with that time, and buckets whose times compare equal keep the order of emission |
| MessageFold.FoldItemsIntoMessages | web/src/lib/assistant-projection.ts:643-677 | the loop with its open message gives the specification `Fold` |
| MessageFold.FoldIsLossless | web/src/lib/assistant-projection.ts:643-677 | taking the messages apart gives back the items in order, and no assistant message is empty |
| MessageFold.AssistantsStartWithTheirFirst | web/src/lib/assistant-projection.ts:661-668 | an assistant message is named and dated after the item of its first part |
| MessageFold.FoldAppendsIffClosed | web/src/lib/assistant-projection.ts:643-677 | folding two pieces separately gives the fold of the whole exactly at a closed boundary |
| MessageFold.SplitsOnlyWhereItMust | web/src/lib/assistant-projection.ts:652-673 | neighbouring items land in different messages exactly if one is a user message or the left one closes its message |
| ThreadProjection.ProjectReadonlyAssistantThread | web/src/lib/assistant-projection.ts:231-534 | pass, sort and fold together give the specified messages |
| ThreadProjection.MessagesHoldTheItems | web/src/lib/assistant-projection.ts:529-534 | the messages of a thread hold the sorted items, all and in order |
| ThreadProjection.MessageIdsAreDistinct | web/src/lib/assistant-projection.ts:599-664 | with distinct event ids no two messages share an id |
| ThreadProjection.MergedHistoryHasDistinctMessages | web/src/lib/session-history.ts:57-68 | so it is for every list the merge produces |
| ThreadProjection.MergedHistoryIsWellPlaced | web/src/lib/session-history.ts:36-68 | a merged list satisfies the placement theorem |
| Conversation.ScreenBecomesConversation | web/src/lib/assistant-projection.ts:231-534 | in any run, after the handoff, each event on screen is listed by exactly one item, once, or by none because it is ignored, overwritten or a delta of a stream not shown; and the messages hold all items in order |
| Conversation.StoredEventIsInConversation | internal/hub/http/ingest.go:42-98 | from ingest to conversation: on one connection, subscribed first, every stored event of the thread that was not dropped gets there, once the system is quiet |
| Conversation.StoredEventIsInConversationIff | internal/hub/http/ingest.go:42-98 | over any number of connections, with serial publishes, a stored event gets there exactly if cache or pages had it or it was neither lost on a resume nor dropped for good |

## Left out

Assumptions of the theorems.

- `web/src/lib/session-history.ts:163-189`: each call of `updateEvents` is one atomic step. React may
  defer the updater; scheduling, StrictMode and several mounted hooks are not modelled.
- A stream delivers nothing once its unsubscribe function has run, no page is answered before the
  broker has seen the stream request, publishes do not overlap: each theorem that needs one of these
  says so, and the counterexamples above show that it does.
- A client that reconnects sends the id of the last frame it handled (section 9.2.4 of the WHATWG
  HTML Standard), which is what the fetch-event-source package is for; that package is not part of
  this model.
- The hub does not restart: its ring and its table live through the run.
- `thread_id` does not restrict the stream (`internal/hub/http/sse.go:29-33`), so what is shown is
  bounded by all ingested events, not by the thread's own.
- Sends go to channels that are still open: the race between the sends of Publish and an
  unsubscribe that closes the channel is not modelled. Order claims need publishes that do not
  overlap; claims about sets and multisets do not.
- `localeCompare` is an arbitrary total preorder; RFC3339Nano drops trailing zeros, so nothing is
  claimed about the client's order agreeing with the store's.
- `parseTimestampMs`, `unixMillisToISO` and the clock are parameters; the ingest handler reads the
  clock once per event.
- An append that fails for a reason other than a repeated id, and store calls in
  `derivePersistentRows` that fail (their errors are ignored by the code), are not modelled. Neither
  is a crash of the hub between insert and publish.
- Integers: `occurred_at` and the cursor are 64 bits wide; page limits, ring sizes and positions are
  unbounded. `Number.MAX_SAFE_INTEGER` is a hypothesis of the placement theorem.
- Text is a sequence of Unicode scalar values, compared code point by code point, which is the byte
  order of well-formed UTF-8. Only `TitleSummary` counts bytes.

Parts of the repository.

- HTTP routing, JSON decoding, SQLite and its migrations: tables are sequences or maps, queries their
  SQL meaning.
- The fields `direction`, `proxy_instance_id` and `source_key` of an event record, which the modelled
  client code does not read.
- The contents of parts other than text and event ids (titles, status, arguments, durations, images,
  the thread header): single-branch readings. The eleven tool maps and two stream maps of the
  projection are one map from the kind of tool to an insertion-ordered map.
- `derivePersistentRows` receives the summary of a user message as a field of the event; what that
  summary is, and when it is empty, is the subject of `TitleSummary`.
- Write errors in `streamHandler`, and frames the server could not serialise.
- `BackfillSessionsFromEvents` and everything under `internal/proxy`: tables start empty, and events
  arrive as bodies of the ingest endpoint.
- The `mcp_calls` key is the request id alone, so nothing is claimed about isolation between proxies.
