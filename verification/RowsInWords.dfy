/**
 What the derived rows hold, stated on the fields of the accepted events and their positions in the
 history.
 */
module RowsInWords {
  import opened Sequences
  import opened DerivedTables

  // ----- first and last

  lemma {:induction false} CollectNothing<T>(f: Accepted -> Option<T>, history: seq<Accepted>)
    ensures Collect(f, history) == [] <==> forall i :: 0 <= i < |history| ==> f(history[i]) == None
  {
    if history != [] {
      var n := |history| - 1;
      CollectNothing(f, history[..n]);
      CollectStep(f, history);
      if forall i :: 0 <= i < n ==> f(history[..n][i]) == None {
        assert forall i :: 0 <= i < n ==> f(history[i]) == f(history[..n][i]);
      } else {
        var i :| 0 <= i < n && f(history[..n][i]) != None;
        assert f(history[i]) != None;
      }
    }
  }

  lemma {:induction false} CollectFirst<T>(f: Accepted -> Option<T>, history: seq<Accepted>, k: nat)
    requires k < |history| && f(history[k]).Some? && forall i :: 0 <= i < k ==> f(history[i]) == None
    ensures First(Collect(f, history)) == f(history[k])
  {
    var n := |history| - 1;
    CollectStep(f, history);
    if k < n {
      CollectFirst(f, history[..n], k);
    } else {
      CollectNothing(f, history[..n]);
    }
  }

  lemma {:induction false} CollectLast<T>(f: Accepted -> Option<T>, history: seq<Accepted>, k: nat)
    requires k < |history| && f(history[k]).Some? && forall i :: k < i < |history| ==> f(history[i]) == None
    ensures Last(Collect(f, history)) == f(history[k])
  {
    var n := |history| - 1;
    CollectStep(f, history);
    if k < n {
      CollectLast(f, history[..n], k);
    }
  }

  // ----- calls

  /** A tools/call with this request id, a tool name and an owner. */
  predicate IsCallStart(a: Accepted, id: string) {
    && a.requestId == id && id != "" && a.direction == "upstream_to_codex" && a.eventType == "tools/call"
    && a.parsed.name != "" && a.proxyInstanceId != "" && a.sourceKey != ""
  }

  /** A response or an error with this request id. */
  predicate IsCallEnd(a: Accepted, id: string) {
    a.requestId == id && id != "" && a.direction == "codex_to_upstream" && (a.category == "response" || a.category == "error")
  }

  predicate IsFirstStart(history: seq<Accepted>, id: string, k: nat) {
    k < |history| && IsCallStart(history[k], id) && forall i :: 0 <= i < k ==> !IsCallStart(history[i], id)
  }

  /** The last end after the first start. */
  predicate IsLastEnd(history: seq<Accepted>, id: string, first: nat, k: nat) {
    first < k < |history| && IsCallEnd(history[k], id) && forall i :: k < i < |history| ==> !IsCallEnd(history[i], id)
  }

  /** The event's own time, or the clock if it has none. */
  predicate IsTimeOf(a: Accepted, time: int) {
    (a.occurredAt != 0 && time == a.occurredAt) || (a.occurredAt == 0 && time == a.now)
  }

  lemma StartsAndEnds(a: Accepted, id: string)
    ensures Start(id)(a) == if IsCallStart(a, id) then Some(a) else None
    ensures End(id)(a) == if IsCallEnd(a, id) then Some(a) else None
  {
  }

  lemma {:induction false} AfterFirstStart(history: seq<Accepted>, id: string, first: nat)
    requires IsFirstStart(history, id, first)
    ensures AfterStart(history, id) == history[first + 1..]
  {
    var n := |history| - 1;
    var front := history[..n];
    StartsUpTo(history, id, first, n);
    if first < n {
      AfterFirstStart(front, id, first);
      assert history[first + 1..] == front[first + 1..] + [history[n]];
    }
  }

  lemma StartsUpTo(history: seq<Accepted>, id: string, first: nat, n: nat)
    requires IsFirstStart(history, id, first) && n <= |history|
    ensures Collect(Start(id), history[..n]) == [] <==> n <= first
  {
    CollectNothing(Start(id), history[..n]);
    forall i | 0 <= i < |history| ensures Start(id)(history[i]) == if IsCallStart(history[i], id) then Some(history[i]) else None {
      StartsAndEnds(history[i], id);
    }
    if first < n {
      assert history[..n][first] == history[first];
    }
  }

  /** A row exists exactly if some event started the call. */
  lemma CallRowExistsIff(history: seq<Accepted>, id: string)
    ensures id in DeriveAll(history).calls <==> exists k :: 0 <= k < |history| && IsCallStart(history[k], id)
  {
    CallRowMeaning(history, id);
    CollectNothing(Start(id), history);
    forall i | 0 <= i < |history| ensures Start(id)(history[i]) == if IsCallStart(history[i], id) then Some(history[i]) else None {
      StartsAndEnds(history[i], id);
    }
  }

  lemma CallRowAt(history: seq<Accepted>, id: string, first: nat)
    requires IsFirstStart(history, id, first)
    ensures var end, a := Last(Collect(End(id), history[first + 1..])), history[first];
      Lookup(DeriveAll(history).calls, id) == Some(CallRow(
        a.proxyInstanceId, a.sourceKey, Last(Collect(StartSession(id), history)), a.parsed.name, TimeOf(a),
        if end.Some? then NullInt64(TimeOf(end.value)) else None,
        if end.Some? then Some(StatusOf(end.value)) else None))
  {
    CallRowMeaning(history, id);
    FirstStartIsFirst(history, id, first);
    AfterFirstStart(history, id, first);
  }

  /** Owner, tool and start are the first starting event's. */
  lemma CallStartsWith(history: seq<Accepted>, id: string, first: nat)
    requires IsFirstStart(history, id, first)
    ensures id in DeriveAll(history).calls
    ensures var row, a := DeriveAll(history).calls[id], history[first];
      && row.toolName == a.parsed.name && row.proxyInstanceId == a.proxyInstanceId && row.sourceKey == a.sourceKey
      && IsTimeOf(a, row.startedAt)
  {
    CallRowAt(history, id, first);
  }

  /** A started call is completed exactly if an ending event came later. */
  lemma CallIsCompletedIff(history: seq<Accepted>, id: string, first: nat)
    requires IsFirstStart(history, id, first)
    ensures id in DeriveAll(history).calls
    ensures DeriveAll(history).calls[id].completionStatus.Some?
       <==> exists k: nat :: first < k < |history| && IsCallEnd(history[k], id)
  {
    CallRowAt(history, id, first);
    EndsAfter(history, id, first);
  }

  /**
   Then the status is "error" if the last ending event's category is "error", else "ok", and the
   time is that event's (a time of 0, which only a clock at 0 gives, is stored as null).
   */
  lemma CallEndsWith(history: seq<Accepted>, id: string, first: nat, k: nat)
    requires IsFirstStart(history, id, first) && IsLastEnd(history, id, first, k)
    ensures id in DeriveAll(history).calls
    ensures var row, a := DeriveAll(history).calls[id], history[k];
      && row.completionStatus == Some(if a.category == "error" then "error" else "ok")
      && (row.completedAt.Some? ==> IsTimeOf(a, row.completedAt.value))
      && (row.completedAt.None? ==> IsTimeOf(a, 0))
  {
    CallRowAt(history, id, first);
    LastEndIsLast(history, id, first, k);
  }

  lemma FirstStartIsFirst(history: seq<Accepted>, id: string, first: nat)
    requires IsFirstStart(history, id, first)
    ensures First(Collect(Start(id), history)) == Some(history[first])
  {
    forall i | 0 <= i <= first ensures Start(id)(history[i]) == if i == first then Some(history[i]) else None {
      StartsAndEnds(history[i], id);
    }
    CollectFirst(Start(id), history, first);
  }

  lemma EndsAfter(history: seq<Accepted>, id: string, first: nat)
    requires first < |history|
    ensures Collect(End(id), history[first + 1..]) != [] <==> exists k: nat :: first < k < |history| && IsCallEnd(history[k], id)
  {
    var rest := history[first + 1..];
    CollectNothing(End(id), rest);
    forall i | 0 <= i < |rest| ensures (End(id)(rest[i]) == None) == !IsCallEnd(history[first + 1 + i], id) {
      StartsAndEnds(rest[i], id);
    }
    if k: nat :| first < k < |history| && IsCallEnd(history[k], id) {
      assert rest[k - first - 1] == history[k];
    }
  }

  lemma LastEndIsLast(history: seq<Accepted>, id: string, first: nat, k: nat)
    requires IsLastEnd(history, id, first, k)
    ensures Last(Collect(End(id), history[first + 1..])) == Some(history[k])
  {
    var rest := history[first + 1..];
    forall i | k - first - 1 <= i < |rest|
      ensures End(id)(rest[i]) == if i == k - first - 1 then Some(history[k]) else None {
      StartsAndEnds(rest[i], id);
      assert rest[i] == history[first + 1 + i];
    }
    CollectLast(End(id), rest, k - first - 1);
  }

  /** The call belongs to the last session that one of its starting events named. */
  lemma CallBelongsTo(history: seq<Accepted>, id: string, k: nat)
    requires k < |history| && IsCallStart(history[k], id) && history[k].sessionId != ""
    requires forall i :: k < i < |history| ==> !(IsCallStart(history[i], id) && history[i].sessionId != "")
    ensures id in DeriveAll(history).calls && DeriveAll(history).calls[id].sessionId == Some(history[k].sessionId)
  {
    CallRowMeaning(history, id);
    CallRowExistsIff(history, id);
    forall i | k <= i < |history|
      ensures StartSession(id)(history[i]) == if i == k then Some(history[k].sessionId) else None {
      StartingSession(history[i], id);
    }
    CollectLast(StartSession(id), history, k);
  }

  lemma StartingSession(a: Accepted, id: string)
    ensures StartSession(id)(a) == if IsCallStart(a, id) && a.sessionId != "" then Some(a.sessionId) else None
  {
  }

  // ----- sessions

  /** The event names the session and its source. */
  predicate IsOfSession(a: Accepted, id: string) {
    a.sessionId == id && id != "" && a.sourceKey != ""
  }

  predicate IsRename(a: Accepted, id: string) {
    IsOfSession(a, id) && a.eventType == "thread_name_updated" && a.parsed.threadName != ""
  }

  /** A configured name, or the summary of a user message. */
  predicate IsFallback(a: Accepted, id: string, title: string) {
    IsOfSession(a, id) && title != ""
    && ((a.eventType == "session_configured" && title == a.parsed.threadName) || (a.eventType == "user_message" && title == a.summary))
  }

  predicate Configures(a: Accepted, id: string, value: string) {
    IsOfSession(a, id) && a.eventType == "session_configured" && value != ""
  }

  /** The configured fields, by name. */
  lemma ConfiguredFields(p: Parsed)
    ensures MODEL(p) == p.model && CWD(p) == p.cwd && APPROVAL(p) == p.approvalPolicy
  {
  }

  lemma Renames(a: Accepted, id: string)
    ensures Rename(id)(a) == if IsRename(a, id) then Some(a.parsed.threadName) else None
  {
  }

  predicate IsFirstMention(history: seq<Accepted>, id: string, k: nat) {
    k < |history| && IsOfSession(history[k], id) && forall i :: 0 <= i < k ==> !IsOfSession(history[i], id)
  }

  predicate IsLastMention(history: seq<Accepted>, id: string, k: nat) {
    k < |history| && IsOfSession(history[k], id) && forall i :: k < i < |history| ==> !IsOfSession(history[i], id)
  }

  lemma Mentions(history: seq<Accepted>, id: string)
    ensures forall i :: 0 <= i < |history| ==>
      Mention(id)(history[i]) == if IsOfSession(history[i], id) then Some(history[i]) else None
  {
  }

  /** A row exists exactly if some event named the session with a source. */
  lemma SessionRowExistsIff(history: seq<Accepted>, id: string)
    ensures id in DeriveAll(history).sessions <==> exists k :: 0 <= k < |history| && IsOfSession(history[k], id)
  {
    SessionRowMeaning(history, id);
    CollectNothing(Mention(id), history);
    Mentions(history, id);
  }

  /** Source and last-seen are the last such event's, first-seen the first one's. */
  lemma SessionSeen(history: seq<Accepted>, id: string, first: nat, last: nat)
    requires IsFirstMention(history, id, first) && IsLastMention(history, id, last)
    ensures id in DeriveAll(history).sessions
    ensures var row := DeriveAll(history).sessions[id];
      row.firstSeenAt == history[first].now && row.lastSeenAt == history[last].now && row.sourceKey == history[last].sourceKey
  {
    SessionRowMeaning(history, id);
    Mentions(history, id);
    CollectFirst(Mention(id), history, first);
    CollectLast(Mention(id), history, last);
  }

  /** The title is the last non-empty rename, if there is one. */
  lemma LastRenameWins(history: seq<Accepted>, id: string, k: nat)
    requires k < |history| && IsRename(history[k], id) && forall i :: k < i < |history| ==> !IsRename(history[i], id)
    ensures id in DeriveAll(history).sessions && DeriveAll(history).sessions[id].title == Some(history[k].parsed.threadName)
  {
    SessionRowMeaning(history, id);
    SessionRowExistsIff(history, id);
    forall i | k <= i < |history| ensures Rename(id)(history[i]) == if i == k then Some(history[k].parsed.threadName) else None {
      Renames(history[i], id);
    }
    CollectLast(Rename(id), history, k);
  }

  /** Else it is the first non-empty fallback. */
  lemma FirstFallbackElse(history: seq<Accepted>, id: string, k: nat, title: string)
    requires forall i :: 0 <= i < |history| ==> !IsRename(history[i], id)
    requires k < |history| && IsFallback(history[k], id, title)
    requires forall i, other :: 0 <= i < k ==> !IsFallback(history[i], id, other)
    ensures id in DeriveAll(history).sessions && DeriveAll(history).sessions[id].title == Some(title)
  {
    SessionRowMeaning(history, id);
    SessionRowExistsIff(history, id);
    NoRename(history, id);
    FirstFallbackIsFirst(history, id, k, title);
  }

  /** Else there is none. */
  lemma NoTitleElse(history: seq<Accepted>, id: string)
    requires id in DeriveAll(history).sessions
    requires forall i :: 0 <= i < |history| ==> !IsRename(history[i], id)
    requires forall i, title :: 0 <= i < |history| ==> !IsFallback(history[i], id, title)
    ensures DeriveAll(history).sessions[id].title == None
  {
    SessionRowMeaning(history, id);
    NoRename(history, id);
    NoFallback(history, id);
  }

  lemma FallbackTitle(a: Accepted, id: string)
    ensures Fallback(id)(a).Some? ==> IsFallback(a, id, Fallback(id)(a).value)
    ensures forall title :: IsFallback(a, id, title) ==> Fallback(id)(a) == Some(title)
  {
  }

  lemma NoRename(history: seq<Accepted>, id: string)
    requires forall i :: 0 <= i < |history| ==> !IsRename(history[i], id)
    ensures Collect(Rename(id), history) == []
  {
    CollectNothing(Rename(id), history);
    forall i | 0 <= i < |history| ensures Rename(id)(history[i]) == None {
      Renames(history[i], id);
    }
  }

  lemma NoFallback(history: seq<Accepted>, id: string)
    requires forall i, title :: 0 <= i < |history| ==> !IsFallback(history[i], id, title)
    ensures Collect(Fallback(id), history) == []
  {
    CollectNothing(Fallback(id), history);
    forall i | 0 <= i < |history| ensures Fallback(id)(history[i]) == None {
      FallbackTitle(history[i], id);
    }
  }

  lemma FirstFallbackIsFirst(history: seq<Accepted>, id: string, k: nat, title: string)
    requires k < |history| && IsFallback(history[k], id, title)
    requires forall i, other :: 0 <= i < k ==> !IsFallback(history[i], id, other)
    ensures First(Collect(Fallback(id), history)) == Some(title)
  {
    FallbackTitle(history[k], id);
    assert Fallback(id)(history[k]) == Some(title);
    forall i | 0 <= i < k ensures Fallback(id)(history[i]) == None {
      FallbackTitle(history[i], id);
    }
    CollectFirst(Fallback(id), history, k);
  }

  /** The last event that configures the field with something. */
  predicate IsLastConfigured(history: seq<Accepted>, id: string, field: Parsed -> string, k: nat) {
    k < |history| && Configures(history[k], id, field(history[k].parsed))
    && forall i :: k < i < |history| ==> !Configures(history[i], id, field(history[i].parsed))
  }

  predicate IsNeverConfigured(history: seq<Accepted>, id: string, field: Parsed -> string) {
    forall i :: 0 <= i < |history| ==> !Configures(history[i], id, field(history[i].parsed))
  }

  lemma ConfiguredValue(a: Accepted, id: string, field: Parsed -> string)
    ensures Configured(id, field)(a) == if Configures(a, id, field(a.parsed)) then Some(field(a.parsed)) else None
  {
  }

  lemma LastConfigured(history: seq<Accepted>, id: string, field: Parsed -> string, k: nat)
    requires IsLastConfigured(history, id, field, k)
    ensures Last(Collect(Configured(id, field), history)) == Some(field(history[k].parsed))
  {
    forall i | k <= i < |history|
      ensures Configured(id, field)(history[i]) == if i == k then Some(field(history[k].parsed)) else None {
      ConfiguredValue(history[i], id, field);
    }
    CollectLast(Configured(id, field), history, k);
  }

  lemma NeverConfigured(history: seq<Accepted>, id: string, field: Parsed -> string)
    requires IsNeverConfigured(history, id, field)
    ensures Last(Collect(Configured(id, field), history)) == None
  {
    CollectNothing(Configured(id, field), history);
    forall i | 0 <= i < |history| ensures Configured(id, field)(history[i]) == None {
      ConfiguredValue(history[i], id, field);
    }
  }

  /** Model, directory and approval policy are each the last non-empty configured value. */
  lemma LastConfiguredWins(history: seq<Accepted>, id: string, k: nat)
    requires id in DeriveAll(history).sessions
    ensures var row := DeriveAll(history).sessions[id];
      && (IsLastConfigured(history, id, MODEL, k) ==> row.model == Some(history[k].parsed.model))
      && (IsLastConfigured(history, id, CWD, k) ==> row.cwd == Some(history[k].parsed.cwd))
      && (IsLastConfigured(history, id, APPROVAL, k) ==> row.approvalPolicy == Some(history[k].parsed.approvalPolicy))
  {
    SessionRowMeaning(history, id);
    if IsLastConfigured(history, id, MODEL, k) {
      LastConfigured(history, id, MODEL, k);
    }
    if IsLastConfigured(history, id, CWD, k) {
      LastConfigured(history, id, CWD, k);
    }
    if IsLastConfigured(history, id, APPROVAL, k) {
      LastConfigured(history, id, APPROVAL, k);
    }
  }

  /** Each is null while nothing configured it. */
  lemma NothingConfigured(history: seq<Accepted>, id: string)
    requires id in DeriveAll(history).sessions
    ensures var row := DeriveAll(history).sessions[id];
      && (IsNeverConfigured(history, id, MODEL) ==> row.model == None)
      && (IsNeverConfigured(history, id, CWD) ==> row.cwd == None)
      && (IsNeverConfigured(history, id, APPROVAL) ==> row.approvalPolicy == None)
  {
    SessionRowMeaning(history, id);
    if IsNeverConfigured(history, id, MODEL) {
      NeverConfigured(history, id, MODEL);
    }
    if IsNeverConfigured(history, id, CWD) {
      NeverConfigured(history, id, CWD);
    }
    if IsNeverConfigured(history, id, APPROVAL) {
      NeverConfigured(history, id, APPROVAL);
    }
  }
}
