/** Turning batches of trace lines into stored events and a snapshot of each agent. */
module IngestionService {
  import opened Prelude
  import opened AgentStatus
  import opened TraceParser
  import opened EventStore

  /** How many stored events the service reads back before deriving a status. */
  const WINDOW := 1000

  /** What a running service is set up with; path handling and line decoding are left arbitrary. */
  datatype Config = Config(decode: Decoder, retention: nat, stalenessMs: int, nameOf: string -> string)

  /** The database and the counters of a service. */
  datatype Db = Db(rows: seq<Row>, nextId: nat, agents: map<string, Snapshot>, stats: ParserStats)

  const EMPTY := Db([], 1, map[], NO_STATS)

  function TypeName(t: EventType): string {
    match t
    case Plan => "plan"
    case ToolCall => "tool_call"
    case ApprovalRequested => "approval_requested"
    case ApprovalResponse => "approval_response"
    case Error => "error"
    case SessionEnd => "session_end"
    case OtherType(name) => name
  }

  function Summarize(event: TraceEvent): string {
    if event.eventType == Error && event.error.Some? && event.error.value != [] then event.error.value
    else if event.eventType == ToolCall && event.toolRef.Some? && event.toolRef.value != []
      then "tool_call:" + event.toolRef.value
    else if event.eventType == ApprovalRequested then "approval requested"
    else TypeName(event.eventType)
  }

  function ToStored(agentId: string, e: TraceEvent): NewEvent {
    NewEvent(agentId, e.runId, e.eventType, e.timestamp, Summarize(e), e)
  }

  function ToStoredEvents(agentId: string, events: seq<TraceEvent>): seq<NewEvent> {
    seq(|events|, i requires 0 <= i < |events| => ToStored(agentId, events[i]))
  }

  /** The events in a run of rows; what was stored decodes back to itself. */
  function RawEvents(rows: seq<Row>): seq<TraceEvent> {
    seq(|rows|, i requires 0 <= i < |rows| => rows[i].event.rawEvent)
  }

  function SnapshotOf(cfg: Config, agentId: string, events: seq<TraceEvent>, now: int): Snapshot {
    var d := DeriveStatus(events, now, cfg.stalenessMs);
    Snapshot(agentId, agentId, cfg.nameOf(agentId), d.status, d.currentTask, d.lastEventAt,
             d.errorCount, d.approvalsPending, d.toolCalls, d.runDurationMs)
  }

  function Ingested(cfg: Config, db: Db, agentId: string, lines: seq<string>, now: int): Db {
    var events := EventsOf(cfg.decode, lines);
    var db := db.(stats := MergeStats(db.stats, StatsOf(cfg.decode, lines)));
    if events == [] then db
    else
      var existing := RawEvents(LastN(RowsOf(db.rows, agentId), WINDOW));
      var stored := ToStoredEvents(agentId, events);
      db.(rows := RetainedEach(db.rows + Inserted(db.nextId, stored), Touched(stored), cfg.retention),
          nextId := db.nextId + |stored|,
          agents := db.agents[agentId := SnapshotOf(cfg, agentId, existing + events, now)])
  }

  class IngestionService {
    const store: SQLiteStore
    const cfg: Config
    const workspaceOf: string -> string
    var cumulativeParserStats: ParserStats

    ghost predicate Valid()
      reads this, store
    {
      store.Valid() && store.retentionPerAgent == cfg.retention
    }

    ghost function Model(): Db
      reads this, store
    {
      Db(store.rows, store.nextId, store.agents, cumulativeParserStats)
    }

    constructor (store: SQLiteStore, cfg: Config, workspaceOf: string -> string)
      requires store.Valid() && store.retentionPerAgent == cfg.retention
      ensures Valid() && Model() == Db(store.rows, store.nextId, store.agents, NO_STATS)
      ensures this.store == store && this.cfg == cfg && this.workspaceOf == workspaceOf
    {
      this.store := store;
      this.cfg := cfg;
      this.workspaceOf := workspaceOf;
      cumulativeParserStats := NO_STATS;
    }

    method IngestLines(filePath: string, lines: seq<string>, now: int)
      requires Valid()
      modifies this, store
      ensures Valid()
      ensures Model() == Ingested(cfg, old(Model()), workspaceOf(filePath), lines, now)
    {
      var parsed := ParseTraceLines(cfg.decode, lines);
      cumulativeParserStats := MergeStats(cumulativeParserStats, parsed.stats);
      if |parsed.events| == 0 {
        return;
      }
      var agentId := workspaceOf(filePath);
      var recent := store.ListRecentEvents(agentId, WINDOW);
      ReadBack(store.rows, agentId);
      var existingRawEvents := Reversed(RawEvents(recent));
      var combined := existingRawEvents + parsed.events;
      store.UpsertAgent(SnapshotOf(cfg, agentId, combined, now));
      store.AppendEvents(ToStoredEvents(agentId, parsed.events));
    }
  }

  lemma ReadBack(rows: seq<Row>, agentId: string)
    ensures var recent := LastN(RowsOf(rows, agentId), WINDOW);
            Reversed(RawEvents(Reversed(recent))) == RawEvents(recent)
  {
  }

  // ---------- One batch, seen by one agent ----------

  function StoredEvents(db: Db, agentId: string): seq<TraceEvent> {
    RawEvents(RowsOf(db.rows, agentId))
  }

  function StoredSnapshot(db: Db, agentId: string): Option<Snapshot> {
    if agentId in db.agents then Some(db.agents[agentId]) else None
  }

  predicate Consistent(db: Db) {
    Increasing(db.rows, db.nextId)
  }

  lemma {:induction false} TouchedByOne(agentId: string, events: seq<TraceEvent>)
    requires events != []
    ensures Touched(ToStoredEvents(agentId, events)) == [agentId]
  {
    var front, last := Pop(events);
    var stored := ToStoredEvents(agentId, events);
    assert stored[..|stored| - 1] == ToStoredEvents(agentId, front);
    if front != [] {
      TouchedByOne(agentId, front);
    }
  }

  lemma {:induction false} InsertedRowsOf(nextId: nat, agentId: string, events: seq<TraceEvent>, other: string)
    ensures var added := Inserted(nextId, ToStoredEvents(agentId, events));
            RowsOf(added, other) == if other == agentId then added else []
  {
    if events != [] {
      var front, last := Pop(events);
      InsertedRowsOf(nextId, agentId, front, other);
      var all, fewer := Inserted(nextId, ToStoredEvents(agentId, events)), Inserted(nextId, ToStoredEvents(agentId, front));
      assert all[..|all| - 1] == fewer;
    }
  }

  lemma InsertedIncreasing(rows: seq<Row>, nextId: nat, stored: seq<NewEvent>)
    requires Increasing(rows, nextId)
    ensures Increasing(rows + Inserted(nextId, stored), nextId + |stored|)
  {
  }

  lemma RawOfLastN(rows: seq<Row>, n: nat)
    ensures RawEvents(LastN(rows, n)) == LastN(RawEvents(rows), n)
  {
  }

  lemma RawAppend(a: seq<Row>, b: seq<Row>)
    ensures RawEvents(a + b) == RawEvents(a) + RawEvents(b)
  {
  }

  lemma RawInserted(nextId: nat, agentId: string, events: seq<TraceEvent>)
    ensures RawEvents(Inserted(nextId, ToStoredEvents(agentId, events))) == events
  {
  }

  lemma RowsWithBatch(rows: seq<Row>, nextId: nat, agentId: string, events: seq<TraceEvent>, other: string)
    ensures RawEvents(RowsOf(rows + Inserted(nextId, ToStoredEvents(agentId, events)), other))
            == RawEvents(RowsOf(rows, other)) + if other == agentId then events else []
  {
    var added := Inserted(nextId, ToStoredEvents(agentId, events));
    RowsOfAppend(rows, added, other);
    InsertedRowsOf(nextId, agentId, events, other);
    RawAppend(RowsOf(rows, other), RowsOf(added, other));
    RawInserted(nextId, agentId, events);
  }

  lemma RowsAfterBatch(rows: seq<Row>, nextId: nat, limit: nat, agentId: string, events: seq<TraceEvent>, other: string)
    requires Increasing(rows, nextId) && events != []
    ensures var stored := ToStoredEvents(agentId, events);
            var rows' := RetainedEach(rows + Inserted(nextId, stored), Touched(stored), limit);
            && Increasing(rows', nextId + |stored|)
            && RawEvents(RowsOf(rows', other))
               == if other == agentId then LastN(RawEvents(RowsOf(rows, other)) + events, limit)
                  else RawEvents(RowsOf(rows, other))
  {
    var stored := ToStoredEvents(agentId, events);
    var all := rows + Inserted(nextId, stored);
    TouchedByOne(agentId, events);
    InsertedIncreasing(rows, nextId, stored);
    RetentionOfEach(all, Touched(stored), limit, nextId + |stored|, other);
    RowsWithBatch(rows, nextId, agentId, events, other);
    RawOfLastN(RowsOf(all, other), limit);
  }

  /** The agent's events once a batch has brought `events`. */
  function EventsAfter(cfg: Config, stored: seq<TraceEvent>, events: seq<TraceEvent>): seq<TraceEvent> {
    if events == [] then stored else LastN(stored + events, cfg.retention)
  }

  /** The agent's snapshot once a batch has brought `events`: derived from what was read back. */
  function SnapshotAfter(cfg: Config, agentId: string, stored: seq<TraceEvent>, snapshot: Option<Snapshot>,
                         events: seq<TraceEvent>, now: int): Option<Snapshot> {
    if events == [] then snapshot else Some(SnapshotOf(cfg, agentId, LastN(stored, WINDOW) + events, now))
  }

  lemma BatchRows(cfg: Config, db: Db, agentId: string, lines: seq<string>, now: int, other: string)
    requires Consistent(db)
    ensures var db' := Ingested(cfg, db, agentId, lines, now);
            && Consistent(db')
            && StoredEvents(db', other)
               == EventsAfter(cfg, StoredEvents(db, other), if other == agentId then EventsOf(cfg.decode, lines) else [])
  {
    var events := EventsOf(cfg.decode, lines);
    if events != [] {
      RowsAfterBatch(db.rows, db.nextId, cfg.retention, agentId, events, other);
    }
  }

  lemma BatchSnapshot(cfg: Config, db: Db, agentId: string, lines: seq<string>, now: int, other: string)
    ensures StoredSnapshot(Ingested(cfg, db, agentId, lines, now), other)
            == SnapshotAfter(cfg, other, StoredEvents(db, other), StoredSnapshot(db, other),
                             if other == agentId then EventsOf(cfg.decode, lines) else [], now)
  {
    RawOfLastN(RowsOf(db.rows, agentId), WINDOW);
  }
}
