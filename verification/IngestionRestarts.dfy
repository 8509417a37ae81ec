/** Processes one after the other on the same database file: a new one reads every trace file from its start. */
module IngestionRestarts {
  import opened Prelude
  import opened AgentStatus
  import opened TraceParser
  import opened EventStore
  import opened IngestionService
  import opened IngestionTheorems
  import TraceTailer

  /** A process that opens the database keeps rows and snapshots; its counters, and its tailer, start anew. */
  function Reopened(db: Db): Db {
    db.(stats := NO_STATS)
  }

  /** Processes one after the other, each given by the batches it ingested. */
  function Processes(cfg: Config, procs: seq<seq<Batch>>): Db {
    if procs == [] then EMPTY
    else RunFrom(cfg, Reopened(Processes(cfg, procs[..|procs| - 1])), procs[|procs| - 1])
  }

  /** An agent's events over all processes, as often as they were delivered. */
  function AllDelivered(cfg: Config, procs: seq<seq<Batch>>, agentId: string): seq<TraceEvent> {
    if procs == [] then []
    else AllDelivered(cfg, procs[..|procs| - 1], agentId) + TraceFor(cfg, procs[|procs| - 1], agentId)
  }

  /** One more process on the database the others left. */
  function AfterRestart(cfg: Config, procs: seq<seq<Batch>>, batches: seq<Batch>): Db {
    RunFrom(cfg, Reopened(Processes(cfg, procs)), batches)
  }

  lemma ReopenedKeeps(db: Db, agentId: string)
    ensures Consistent(Reopened(db)) == Consistent(db)
    ensures StoredEvents(Reopened(db), agentId) == StoredEvents(db, agentId)
    ensures StoredSnapshot(Reopened(db), agentId) == StoredSnapshot(db, agentId)
  {
  }

  lemma NewestOfBoth<T>(a: seq<T>, b: seq<T>, n: nat)
    ensures LastN(a + b, n) == LastN(a, if |b| < n then n - |b| else 0) + LastN(b, n)
  {
  }

  lemma NewestOfLaterIff<T>(a: seq<T>, b: seq<T>, n: nat)
    ensures LastN(a + b, n) == LastN(b, n) <==> a == [] || n <= |b|
  {
    if a == [] {
      EmptyIsUnit(b);
    } else if n > |b| {
      assert |LastN(a + b, n)| > |LastN(b, n)|;
    }
  }

  lemma EventsAfterNewest(cfg: Config, a: seq<TraceEvent>, b: seq<TraceEvent>)
    ensures EventsAfter(cfg, LastN(a, cfg.retention), b) == LastN(a + b, cfg.retention)
  {
    LastNAppend(a, b, cfg.retention);
    EmptyIsUnit(a);
  }

  /** After any processes, each agent's rows are the newest of all events delivered for it. */
  lemma {:induction false} RowsOfProcesses(cfg: Config, procs: seq<seq<Batch>>, agentId: string)
    ensures Consistent(Processes(cfg, procs))
    ensures StoredEvents(Processes(cfg, procs), agentId) == LastN(AllDelivered(cfg, procs, agentId), cfg.retention)
  {
    if procs == [] {
      EmptyHoldsNothing(agentId);
    } else {
      var front, last := Pop(procs);
      RowsOfProcesses(cfg, front, agentId);
      ReopenedKeeps(Processes(cfg, front), agentId);
      StoredRowsFrom(cfg, Reopened(Processes(cfg, front)), last, agentId);
      EventsAfterNewest(cfg, AllDelivered(cfg, front, agentId), TraceFor(cfg, last, agentId));
    }
  }

  /**
    * A new process stores what it reads behind what is there. The rows are then those of the new process on its
    * own if and only if nothing was there or the new events fill the retention limit by themselves.
    */
  lemma RestartedRowsIff(cfg: Config, procs: seq<seq<Batch>>, batches: seq<Batch>, agentId: string)
    ensures var stored, again := AllDelivered(cfg, procs, agentId), TraceFor(cfg, batches, agentId);
            var rows := StoredEvents(AfterRestart(cfg, procs, batches), agentId);
            && rows == LastN(stored + again, cfg.retention)
            && (rows == LastN(again, cfg.retention) <==> stored == [] || cfg.retention <= |again|)
  {
    var db, stored, again := Processes(cfg, procs), AllDelivered(cfg, procs, agentId), TraceFor(cfg, batches, agentId);
    RowsOfProcesses(cfg, procs, agentId);
    ReopenedKeeps(db, agentId);
    StoredRowsFrom(cfg, Reopened(db), batches, agentId);
    EventsAfterNewest(cfg, stored, again);
    NewestOfLaterIff(stored, again, cfg.retention);
  }

  // ---------- Snapshots ----------

  /** How many events are read back at most. */
  function Limit(cfg: Config): nat {
    if cfg.retention < WINDOW then cfg.retention else WINDOW
  }

  lemma ReadBackIsNewest(cfg: Config, events: seq<TraceEvent>)
    ensures ReadBackOf(cfg, events) == LastN(events, Limit(cfg))
  {
  }

  /** Events of earlier processes that are read back together with those the new process has read. */
  function Repeated(cfg: Config, stored: seq<TraceEvent>, earlier: seq<TraceEvent>): seq<TraceEvent> {
    LastN(stored, if |earlier| < Limit(cfg) then Limit(cfg) - |earlier| else 0)
  }

  lemma RestartedReadBack(cfg: Config, stored: seq<TraceEvent>, earlier: seq<TraceEvent>)
    ensures ReadBackOf(cfg, stored + earlier) == Repeated(cfg, stored, earlier) + ReadBackOf(cfg, earlier)
    ensures earlier == Dropped(cfg, earlier) + ReadBackOf(cfg, earlier)
    ensures Repeated(cfg, stored, earlier) == [] || Dropped(cfg, earlier) == []
  {
    ReadBackIsNewest(cfg, stored + earlier);
    ReadBackIsNewest(cfg, earlier);
    NewestOfBoth(stored, earlier, Limit(cfg));
  }

  /** A new process derives the snapshot from repeated old events, its own earlier ones and its last batch. */
  lemma RestartedSnapshot(cfg: Config, procs: seq<seq<Batch>>, batches: seq<Batch>, agentId: string)
    requires LastBrought(cfg, batches, agentId) != []
    ensures var earlier, brought := Earlier(cfg, batches, agentId), LastBrought(cfg, batches, agentId);
            StoredSnapshot(AfterRestart(cfg, procs, batches), agentId)
            == Some(SnapshotOf(cfg, agentId,
                               Repeated(cfg, AllDelivered(cfg, procs, agentId), earlier)
                               + (ReadBackOf(cfg, earlier) + brought),
                               LastNow(cfg, batches, agentId)))
  {
    var db, stored := Processes(cfg, procs), AllDelivered(cfg, procs, agentId);
    var earlier := Earlier(cfg, batches, agentId);
    RowsOfProcesses(cfg, procs, agentId);
    ReopenedKeeps(db, agentId);
    SnapshotFrom(cfg, Reopened(db), batches, agentId);
    EventsAfterNewest(cfg, stored, earlier);
    RestartedReadBack(cfg, stored, earlier);
    Regroup(Repeated(cfg, stored, earlier), ReadBackOf(cfg, earlier), LastBrought(cfg, batches, agentId));
  }

  /** After a restart, repeated events of earlier processes and dropped ones decide whether the counts are right. */
  lemma RestartedCountsIff(cfg: Config, procs: seq<seq<Batch>>, batches: seq<Batch>, agentId: string)
    requires TraceFor(cfg, batches, agentId) != []
    ensures var trace := TraceFor(cfg, batches, agentId);
            var snapshot := StoredSnapshot(AfterRestart(cfg, procs, batches), agentId);
            var earlier := Earlier(cfg, batches, agentId);
            && snapshot.Some?
            && RightCountsIff(snapshot.value, trace, Repeated(cfg, AllDelivered(cfg, procs, agentId), earlier),
                              Dropped(cfg, earlier))
  {
    var earlier, brought := Earlier(cfg, batches, agentId), LastBrought(cfg, batches, agentId);
    var repeated, dropped := Repeated(cfg, AllDelivered(cfg, procs, agentId), earlier), Dropped(cfg, earlier);
    var kept, now := ReadBackOf(cfg, earlier) + brought, LastNow(cfg, batches, agentId);
    TraceEndsWithLast(cfg, batches, agentId);
    RestartedSnapshot(cfg, procs, batches, agentId);
    RestartedReadBack(cfg, AllDelivered(cfg, procs, agentId), earlier);
    SnapshotCounts(cfg, agentId, repeated + kept, now);
    Regroup(dropped, ReadBackOf(cfg, earlier), brought);
    WindowCounts(SnapshotOf(cfg, agentId, repeated + kept, now), repeated, dropped, kept);
  }

  // ---------- One file, read by two processes ----------

  lemma TraceOfFile(cfg: Config, arrivals: seq<Arrival>, workspaceOf: string -> string, file: string)
    requires forall a <- arrivals :: workspaceOf(a.file) == workspaceOf(file) ==> a.file == file
    requires TraceTailer.GrowsOrRestarts(ReadsOf(arrivals), file)
    ensures TraceFor(cfg, BatchesOf(arrivals, workspaceOf), workspaceOf(file)) == FileEvents(cfg, ReadsOf(arrivals), file)
  {
    LinesAreDelivered(arrivals, workspaceOf, file);
    TraceTailer.TailingDeliversEverything(ReadsOf(arrivals), file);
  }

  /**
    * A second process that finds a trace file as the first one left it stores its events again. The rows change
    * unless there are none or they already fill the retention limit.
    */
  lemma RereadingChangesRowsIff(cfg: Config, first: seq<Arrival>, second: seq<Arrival>,
                                workspaceOf: string -> string, file: string)
    requires forall a <- first + second :: workspaceOf(a.file) == workspaceOf(file) ==> a.file == file
    requires TraceTailer.GrowsOrRestarts(ReadsOf(first), file) && TraceTailer.GrowsOrRestarts(ReadsOf(second), file)
    requires FileEvents(cfg, ReadsOf(first), file) == FileEvents(cfg, ReadsOf(second), file)
    ensures var trace := FileEvents(cfg, ReadsOf(first), file);
            var before := StoredEvents(Processes(cfg, [BatchesOf(first, workspaceOf)]), workspaceOf(file));
            var after := StoredEvents(AfterRestart(cfg, [BatchesOf(first, workspaceOf)], BatchesOf(second, workspaceOf)),
                                      workspaceOf(file));
            && before == LastN(trace, cfg.retention) && after == LastN(trace + trace, cfg.retention)
            && (after == before <==> trace == [] || cfg.retention <= |trace|)
  {
    var batches, agentId := BatchesOf(first, workspaceOf), workspaceOf(file);
    assert forall a <- first :: a in first + second;
    assert forall a <- second :: a in first + second;
    TraceOfFile(cfg, first, workspaceOf, file);
    TraceOfFile(cfg, second, workspaceOf, file);
    assert [batches][..0] == [];
    EmptyIsUnit(TraceFor(cfg, batches, agentId));
    assert AllDelivered(cfg, [batches], agentId) == TraceFor(cfg, batches, agentId);
    RowsOfProcesses(cfg, [batches], agentId);
    RestartedRowsIff(cfg, [batches], BatchesOf(second, workspaceOf), agentId);
  }
}
