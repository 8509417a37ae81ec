/** What the derived status says about a trace, told from its events as they are listed. */
module StatusTheorems {
  import opened Prelude
  import opened Text
  import opened AgentStatus
  import opened TraceParser
  import opened EventStore
  import opened IngestionService
  import opened IngestionTheorems

  // ---------- The latest event of a kind ----------

  type Kind = TraceEvent -> bool

  predicate AnyEvent(e: TraceEvent) {
    true
  }

  predicate IsPlan(e: TraceEvent) {
    e.eventType == Plan
  }

  predicate NamesTool(e: TraceEvent) {
    e.eventType == ToolCall && e.toolRef.Some? && e.toolRef.value != ""
  }

  /** The event at `k` is of the kind, none of the kind is later, and none as late is listed behind it. */
  predicate IsLatest(events: seq<TraceEvent>, k: nat, kind: Kind) {
    && k < |events| && kind(events[k])
    && (forall i :: 0 <= i <= k && kind(events[i]) ==> events[i].ms <= events[k].ms)
    && (forall i :: k < i < |events| && kind(events[i]) ==> events[i].ms < events[k].ms)
  }

  predicate HasNone(events: seq<TraceEvent>, kind: Kind) {
    forall e <- events :: !kind(e)
  }

  /** Where the latest event of the kind is, if there is one. */
  predicate Found(events: seq<TraceEvent>, k: Option<nat>, kind: Kind) {
    if k.Some? then IsLatest(events, k.value, kind) else HasNone(events, kind)
  }

  function LastWith(events: seq<TraceEvent>, kind: Kind): Option<TraceEvent> {
    if events == [] then None
    else if kind(events[|events| - 1]) then Some(events[|events| - 1])
    else LastWith(events[..|events| - 1], kind)
  }

  lemma LastWithOneMore(front: seq<TraceEvent>, last: TraceEvent, kind: Kind)
    ensures LastWith(front + [last], kind) == if kind(last) then Some(last) else LastWith(front, kind)
  {
    assert (front + [last])[..|front + [last]| - 1] == front;
  }

  lemma {:induction false} LastWithIsMember(events: seq<TraceEvent>, kind: Kind)
    ensures LastWith(events, kind).Some? ==> LastWith(events, kind).value in events
  {
    if events != [] {
      var front, last := PopEvent(events);
      LastWithIsMember(front, kind);
    }
  }

  /** Of a kind, whichever is later is the last after insertion, the inserted one if as late. */
  function Later(found: Option<TraceEvent>, e: TraceEvent, kind: Kind): Option<TraceEvent> {
    if kind(e) && (found.None? || found.value.ms <= e.ms) then Some(e) else found
  }

  lemma {:induction false} LastWithInsert(sorted: seq<TraceEvent>, e: TraceEvent, kind: Kind)
    requires Sorted(sorted)
    ensures LastWith(Insert(sorted, e), kind) == Later(LastWith(sorted, kind), e, kind)
  {
    if sorted == [] {
      LastWithOneMore([], e, kind);
      assert [] + [e] == [e];
    } else {
      var front, last := PopEvent(sorted);
      LastWithIsMember(sorted, kind);
      LastWithOneMore(front, last, kind);
      if last.ms <= e.ms {
        LastWithOneMore(sorted, e, kind);
      } else {
        LastWithInsert(front, e, kind);
        LastWithOneMore(Insert(front, e), last, kind);
      }
    }
  }

  lemma FoundOneMore(front: seq<TraceEvent>, last: TraceEvent, kind: Kind, j: Option<nat>) returns (k: Option<nat>)
    requires Found(front, j, kind)
    ensures Found(front + [last], k, kind)
    ensures var was := if j.Some? then Some(front[j.value]) else None;
            (if k.Some? then Some((front + [last])[k.value]) else None) == Later(was, last, kind)
  {
    var events := front + [last];
    assert forall i :: 0 <= i < |front| ==> events[i] == front[i];
    assert events[|front|] == last;
    if kind(last) && (j.None? || front[j.value].ms <= last.ms) {
      k := Some(|front|);
      assert j.None? ==> forall i :: 0 <= i < |front| ==> front[i] in front;
    } else {
      k := j;
    }
  }

  /** The last event of a kind in time order is the latest one listed. */
  lemma {:induction false} FindLatest(events: seq<TraceEvent>, kind: Kind) returns (k: Option<nat>)
    ensures Found(events, k, kind)
    ensures LastWith(SortByTime(events), kind) == if k.Some? then Some(events[k.value]) else None
  {
    if events == [] {
      k := None;
    } else {
      var front, last := PopEvent(events);
      var j := FindLatest(front, kind);
      SortSorts(front);
      LastWithInsert(SortByTime(front), last, kind);
      k := FoundOneMore(front, last, kind, j);
    }
  }

  lemma LatestIsUnique(events: seq<TraceEvent>, j: Option<nat>, k: Option<nat>, kind: Kind)
    requires Found(events, j, kind) && Found(events, k, kind)
    ensures j == k
  {
    assert j.Some? ==> events[j.value] in events;
    assert k.Some? ==> events[k.value] in events;
  }

  lemma LastWithFound(events: seq<TraceEvent>, k: Option<nat>, kind: Kind)
    requires Found(events, k, kind)
    ensures LastWith(SortByTime(events), kind) == if k.Some? then Some(events[k.value]) else None
  {
    var j := FindLatest(events, kind);
    LatestIsUnique(events, j, k, kind);
  }

  // ---------- The status ----------

  /** How many of the listed events are of a type. */
  function HowMany(events: seq<TraceEvent>, t: EventType): nat {
    |Where(events, t)|
  }

  lemma {:induction false} CountIsHowMany(events: seq<TraceEvent>, t: EventType)
    ensures CountType(events, t) == HowMany(events, t)
  {
    if events != [] {
      var front, last := PopEvent(events);
      CountIsHowMany(front, t);
      OneMoreCounted(front, last, t);
    }
  }

  function Where(events: seq<TraceEvent>, t: EventType): set<nat> {
    set i: nat | i < |events| && events[i].eventType == t
  }

  lemma OneMoreCounted(front: seq<TraceEvent>, last: TraceEvent, t: EventType)
    ensures HowMany(front + [last], t) == HowMany(front, t) + if last.eventType == t then 1 else 0
  {
    var events, before := front + [last], Where(front, t);
    assert forall i :: 0 <= i < |front| ==> events[i] == front[i];
    assert events[|front|] == last;
    assert Where(events, t) == if last.eventType == t then before + {|front|} else before;
  }

  /** More approvals were asked for than answered. */
  predicate AwaitsApproval(events: seq<TraceEvent>) {
    HowMany(events, ApprovalRequested) > HowMany(events, ApprovalResponse)
  }

  /** The status is decided by the latest event, open approvals and the time since. */
  predicate Tells(status: Status, events: seq<TraceEvent>, k: nat, nowMs: int, stalenessMs: int)
    requires k < |events|
  {
    var t, since := events[k].eventType, nowMs - events[k].ms;
    && (status == Failed <==> t == Error)
    && (status == Blocked <==> t != Error && AwaitsApproval(events))
    && (status == Completed <==> t == SessionEnd && !AwaitsApproval(events))
    && (status == Idle <==> t != Error && t != SessionEnd && !AwaitsApproval(events) && since > stalenessMs)
    && (status == Running <==> t != Error && t != SessionEnd && !AwaitsApproval(events) && since <= stalenessMs)
  }

  /** The time between the earliest and the latest event. */
  ghost predicate Spans(events: seq<TraceEvent>, duration: nat) {
    && (forall i, j :: 0 <= i < |events| && 0 <= j < |events| ==> events[i].ms - events[j].ms <= duration)
    && (exists i, j :: 0 <= i < |events| && 0 <= j < |events| && events[i].ms - events[j].ms == duration)
  }

  lemma LatestOverall(events: seq<TraceEvent>, k: nat)
    requires IsLatest(events, k, AnyEvent)
    ensures Latest(events) == events[k]
  {
    LastWithFound(events, Some(k), AnyEvent);
  }

  lemma SortedSpan(events: seq<TraceEvent>)
    requires events != []
    ensures var ordered := SortByTime(events);
            && ordered[0].ms <= ordered[|ordered| - 1].ms
            && Spans(events, ordered[|ordered| - 1].ms - ordered[0].ms)
  {
    var ordered := SortByTime(events);
    SortSorts(events);
    SameContents(ordered, events);
    assert ordered[0] in events && ordered[|ordered| - 1] in events;
    var i :| 0 <= i < |events| && events[i] == ordered[|ordered| - 1];
    var j :| 0 <= j < |events| && events[j] == ordered[0];
    forall a | 0 <= a < |events| ensures ordered[0].ms <= events[a].ms <= ordered[|ordered| - 1].ms {
      assert events[a] in ordered;
    }
    assert events[i].ms - events[j].ms == ordered[|ordered| - 1].ms - ordered[0].ms;
  }

  lemma CountsTell(events: seq<TraceEvent>, nowMs: int, stalenessMs: int)
    ensures var d := DeriveStatus(events, nowMs, stalenessMs);
            && d.errorCount == HowMany(events, Error) && d.toolCalls == HowMany(events, ToolCall)
            && d.approvalsPending == (if AwaitsApproval(events)
                                      then HowMany(events, ApprovalRequested) - HowMany(events, ApprovalResponse) else 0)
  {
    CountsIgnoreArrivalOrder(events, events, nowMs, stalenessMs);
    CountIsHowMany(events, Error);
    CountIsHowMany(events, ToolCall);
    CountIsHowMany(events, ApprovalRequested);
    CountIsHowMany(events, ApprovalResponse);
  }

  lemma StatusFollowsLatest(events: seq<TraceEvent>, nowMs: int, stalenessMs: int)
    requires events != []
    ensures var d, last := DeriveStatus(events, nowMs, stalenessMs), Latest(events);
            && d.lastEventAt == Some(last.timestamp)
            && d.status == (if last.eventType == Error then Failed
                            else if d.approvalsPending > 0 then Blocked
                            else if last.eventType == SessionEnd then Completed
                            else if nowMs - last.ms > stalenessMs then Idle else Running)
  {
  }

  lemma DurationSpans(events: seq<TraceEvent>, nowMs: int, stalenessMs: int)
    requires events != []
    ensures Spans(events, DeriveStatus(events, nowMs, stalenessMs).runDurationMs)
  {
    SortedSpan(events);
  }

  /** What the status, its time, the counts and the duration say about the listed events. */
  lemma StatusTells(events: seq<TraceEvent>, k: nat, nowMs: int, stalenessMs: int)
    requires IsLatest(events, k, AnyEvent)
    ensures var d := DeriveStatus(events, nowMs, stalenessMs);
            && Tells(d.status, events, k, nowMs, stalenessMs)
            && d.lastEventAt == Some(events[k].timestamp)
            && d.errorCount == HowMany(events, Error) && d.toolCalls == HowMany(events, ToolCall)
            && d.approvalsPending == (if AwaitsApproval(events)
                                      then HowMany(events, ApprovalRequested) - HowMany(events, ApprovalResponse) else 0)
            && Spans(events, d.runDurationMs)
  {
    LatestOverall(events, k);
    StatusFollowsLatest(events, nowMs, stalenessMs);
    DurationSpans(events, nowMs, stalenessMs);
    CountsTell(events, nowMs, stalenessMs);
  }

  lemma NothingTells(nowMs: int, stalenessMs: int)
    ensures DeriveStatus([], nowMs, stalenessMs) == Derived(Idle, None, None, 0, 0, 0, 0)
  {
  }

  // ---------- The current task ----------

  /** Something other than whitespace is in the text. */
  predicate HasInk(text: string) {
    exists c <- text :: c != ' ' && !('\t' <= c <= '\r')
  }

  /** A plan's text: its task, or its goal when it has no task at all. */
  function PlanText(e: TraceEvent): Option<string> {
    match e.data
    case None => None
    case Some(PlanData(Text(task), _)) => Some(task)
    case Some(PlanData(Absent, Text(goal))) => Some(goal)
    case Some(_) => None
  }

  lemma TrimKeepsInk(text: string)
    ensures Trim(text) != [] <==> HasInk(text)
  {
    var front, back := TrimParts(text);
    if Trim(text) != [] {
      assert Trim(text)[0] in text && !IsSpace(Trim(text)[0]);
    } else {
      assert text == front + back;
      assert forall c <- text :: c in front || c in back;
    }
  }

  lemma {:induction false} LatestPlanIsLast(events: seq<TraceEvent>)
    ensures LatestPlan(events) == LastWith(events, IsPlan)
  {
    if events != [] {
      LatestPlanIsLast(events[..|events| - 1]);
    }
  }

  lemma {:induction false} LatestToolIsLast(events: seq<TraceEvent>)
    ensures LatestTool(events)
            == if LastWith(events, NamesTool).Some? then LastWith(events, NamesTool).value.toolRef else None
  {
    if events != [] {
      LatestToolIsLast(events[..|events| - 1]);
    }
  }

  /** The text of this plan, unless it is blank, and else what this tool call names. */
  function TaskOf(events: seq<TraceEvent>, plan: Option<nat>, tool: Option<nat>): Option<string>
    requires (plan.Some? ==> plan.value < |events|) && (tool.Some? ==> tool.value < |events|)
  {
    var text := if plan.Some? then PlanText(events[plan.value]) else None;
    if text.Some? && HasInk(text.value) then text
    else if tool.Some? then events[tool.value].toolRef
    else None
  }

  lemma PlanTextIsTask(plan: Option<TraceEvent>)
    ensures var text := if plan.Some? then PlanText(plan.value) else None;
            var task := PlanTask(plan);
            (task.Text? && Trim(task.text) != [] <==> text.Some? && HasInk(text.value))
            && (text.Some? && HasInk(text.value) ==> text == Some(task.text))
  {
    if plan.Some? && PlanText(plan.value).Some? {
      TrimKeepsInk(PlanText(plan.value).value);
    }
  }

  /** The current task is the text of the latest plan, unless that is blank, and else the tool named last. */
  lemma TaskTells(events: seq<TraceEvent>, plan: Option<nat>, tool: Option<nat>, nowMs: int, stalenessMs: int)
    requires Found(events, plan, IsPlan) && Found(events, tool, NamesTool)
    ensures DeriveStatus(events, nowMs, stalenessMs).currentTask == TaskOf(events, plan, tool)
  {
    if events != [] {
      var ordered := SortByTime(events);
      LatestPlanIsLast(ordered);
      LatestToolIsLast(ordered);
      LastWithFound(events, plan, IsPlan);
      LastWithFound(events, tool, NamesTool);
      PlanTextIsTask(LatestPlan(ordered));
    }
  }

  // ---------- The snapshot ----------

  /** The latest event, the latest plan and the latest call that names a tool. */
  datatype Landmarks = Landmarks(last: nat, plan: Option<nat>, tool: Option<nat>)

  predicate Marks(events: seq<TraceEvent>, m: Landmarks) {
    IsLatest(events, m.last, AnyEvent) && Found(events, m.plan, IsPlan) && Found(events, m.tool, NamesTool)
  }

  /** The snapshot is that of the agent and tells of these events. */
  ghost predicate Shows(s: Snapshot, cfg: Config, agentId: string, events: seq<TraceEvent>, m: Landmarks, now: int)
    requires Marks(events, m)
  {
    && s.agentId == s.workspacePath == agentId && s.displayName == cfg.nameOf(agentId)
    && Tells(s.status, events, m.last, now, cfg.stalenessMs) && s.lastEventAt == Some(events[m.last].timestamp)
    && s.currentTask == TaskOf(events, m.plan, m.tool)
    && s.errorCount == HowMany(events, Error) && s.toolCalls == HowMany(events, ToolCall)
    && s.approvalsPending == (if AwaitsApproval(events)
                              then HowMany(events, ApprovalRequested) - HowMany(events, ApprovalResponse) else 0)
    && Spans(events, s.runDurationMs)
  }

  lemma SnapshotShows(cfg: Config, agentId: string, events: seq<TraceEvent>, m: Landmarks, now: int)
    requires Marks(events, m)
    ensures Shows(SnapshotOf(cfg, agentId, events, now), cfg, agentId, events, m, now)
  {
    StatusTells(events, m.last, now, cfg.stalenessMs);
    TaskTells(events, m.plan, m.tool, now, cfg.stalenessMs);
  }

  /** From any database: the snapshot tells of what was read back before the last batch with events, and of that. */
  lemma SnapshotShowsWindow(cfg: Config, db: Db, batches: seq<Batch>, agentId: string, m: Landmarks)
    requires Consistent(db) && LastBrought(cfg, batches, agentId) != []
    requires Marks(LastN(EventsAfter(cfg, StoredEvents(db, agentId), Earlier(cfg, batches, agentId)), 1000)
                   + LastBrought(cfg, batches, agentId), m)
    ensures var window := LastN(EventsAfter(cfg, StoredEvents(db, agentId), Earlier(cfg, batches, agentId)), 1000)
                          + LastBrought(cfg, batches, agentId);
            var snapshot := StoredSnapshot(RunFrom(cfg, db, batches), agentId);
            snapshot.Some? && Shows(snapshot.value, cfg, agentId, window, m, LastNow(cfg, batches, agentId))
  {
    SnapshotFrom(cfg, db, batches, agentId);
    SnapshotShows(cfg, agentId, LastN(EventsAfter(cfg, StoredEvents(db, agentId), Earlier(cfg, batches, agentId)), 1000)
                                + LastBrought(cfg, batches, agentId), m, LastNow(cfg, batches, agentId));
  }

  /**
    * While an agent's trace fits, the stored snapshot tells of that whole trace, however it came in: its latest
    * event, its open approvals and the time since decide the status, its counts and span are those of the trace.
    */
  lemma SnapshotShowsTrace(cfg: Config, batches: seq<Batch>, agentId: string, m: Landmarks)
    requires Fits(cfg, |Earlier(cfg, batches, agentId)|) && Marks(TraceFor(cfg, batches, agentId), m)
    ensures var trace := TraceFor(cfg, batches, agentId);
            var snapshot := StoredSnapshot(Run(cfg, batches), agentId);
            snapshot.Some? && Shows(snapshot.value, cfg, agentId, trace, m, LastNow(cfg, batches, agentId))
  {
    SnapshotIsOneShotStatus(cfg, batches, agentId);
    SnapshotShows(cfg, agentId, TraceFor(cfg, batches, agentId), m, LastNow(cfg, batches, agentId));
  }

  // ---------- The rows ----------

  /** A row repeats its event's own fields and sums it up in a few words. */
  predicate TellsOf(row: NewEvent, e: TraceEvent) {
    && row.rawEvent == e && row.runId == e.runId && row.eventType == e.eventType && row.timestamp == e.timestamp
    && (e.eventType == Error && e.error.Some? && e.error.value != "" ==> row.summary == e.error.value)
    && (e.eventType == ToolCall && e.toolRef.Some? && e.toolRef.value != "" ==>
          row.summary == "tool_call:" + e.toolRef.value)
    && (e.eventType == ApprovalRequested ==> row.summary == "approval requested")
    && (e.eventType == Plan ==> row.summary == "plan")
    && (e.eventType.OtherType? ==> row.summary == e.eventType.name)
  }

  predicate AllTell(rows: seq<Row>) {
    forall row <- rows :: TellsOf(row.event, row.event.rawEvent)
  }

  lemma {:induction false} RetentionKeepsTelling(rows: seq<Row>, agents: seq<string>, limit: nat)
    requires AllTell(rows)
    ensures AllTell(RetainedEach(rows, agents, limit))
  {
    if agents != [] {
      var front, last := Pop(agents);
      RetentionKeepsTelling(rows, front, limit);
      var before := RetainedEach(rows, front, limit);
      DeletedIsSubsequence(before, last, Ids(LastN(RowsOf(before, last), limit)));
    }
  }

  lemma NewRowsTell(nextId: nat, agentId: string, events: seq<TraceEvent>)
    ensures AllTell(Inserted(nextId, ToStoredEvents(agentId, events)))
  {
    forall row <- Inserted(nextId, ToStoredEvents(agentId, events)) ensures TellsOf(row.event, row.event.rawEvent) {
      var i :| 0 <= i < |events| && row == Row(nextId + i, ToStored(agentId, events[i]));
    }
  }

  lemma IngestingTells(cfg: Config, db: Db, agentId: string, lines: seq<string>, now: int)
    requires AllTell(db.rows)
    ensures AllTell(Ingested(cfg, db, agentId, lines, now).rows)
  {
    var stored := ToStoredEvents(agentId, EventsOf(cfg.decode, lines));
    NewRowsTell(db.nextId, agentId, EventsOf(cfg.decode, lines));
    RetentionKeepsTelling(db.rows + Inserted(db.nextId, stored), Touched(stored), cfg.retention);
  }

  /** Whatever was ingested, every stored row tells of the event it holds. */
  lemma {:induction false} RowsTell(cfg: Config, db: Db, batches: seq<Batch>)
    requires AllTell(db.rows)
    ensures AllTell(RunFrom(cfg, db, batches).rows)
  {
    if batches != [] {
      var front, last := Pop(batches);
      RowsTell(cfg, db, front);
      IngestingTells(cfg, RunFrom(cfg, db, front), last.agentId, last.lines, last.now);
    }
  }

  lemma NewestById(mine: seq<Row>, nextId: nat, limit: nat)
    requires Increasing(mine, nextId)
    ensures var listed := Reversed(LastN(mine, limit));
            && (forall i, j :: 0 <= i < j < |listed| ==> listed[i].id > listed[j].id)
            && (forall row <- listed :: row in mine)
            && (forall row <- mine :: row in listed || (|listed| == limit && forall other <- listed :: row.id < other.id))
  {
    var listed := Reversed(LastN(mine, limit));
    var older := |mine| - |listed|;
    assert forall i :: 0 <= i < |listed| ==> listed[i] == mine[|mine| - 1 - i];
    forall i | 0 <= i < |mine|
      ensures mine[i] in listed || (|listed| == limit && forall other <- listed :: mine[i].id < other.id)
    {
      if older <= i {
        assert listed[|mine| - 1 - i] == mine[i];
      }
    }
  }

  /** Recent events are listed newest first, and none of the agent's that is left out is newer. */
  lemma ListedNewestFirst(rows: seq<Row>, nextId: nat, agentId: string, limit: nat)
    requires Increasing(rows, nextId)
    ensures var listed := Reversed(LastN(RowsOf(rows, agentId), limit));
            && (forall i, j :: 0 <= i < j < |listed| ==> listed[i].id > listed[j].id)
            && (forall row <- listed :: row in rows && row.event.agentId == agentId)
            && (forall row <- rows :: row.event.agentId == agentId ==>
                  row in listed || (|listed| == limit && forall other <- listed :: row.id < other.id))
  {
    RowsOfIncreasing(rows, agentId, nextId);
    RowsOfMembers(rows, agentId);
    NewestById(RowsOf(rows, agentId), nextId, limit);
  }
}
