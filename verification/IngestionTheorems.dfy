/** Ingesting a trace in any batches, while its files grow, against computing from the whole trace at once. */
module IngestionTheorems {
  import opened Prelude
  import opened AgentStatus
  import opened TraceParser
  import opened EventStore
  import opened IngestionService
  import TraceTailer

  datatype Batch = Batch(agentId: string, lines: seq<string>, now: int)

  /** A service at work on a database that may hold what earlier processes stored. */
  function RunFrom(cfg: Config, db: Db, batches: seq<Batch>): Db {
    if batches == [] then db
    else
      var last := batches[|batches| - 1];
      Ingested(cfg, RunFrom(cfg, db, batches[..|batches| - 1]), last.agentId, last.lines, last.now)
  }

  /** The first process ever. */
  function Run(cfg: Config, batches: seq<Batch>): Db {
    RunFrom(cfg, EMPTY, batches)
  }

  /** All lines an agent's batches brought, in order. */
  function LinesFor(batches: seq<Batch>, agentId: string): seq<string> {
    if batches == [] then []
    else
      var last := batches[|batches| - 1];
      LinesFor(batches[..|batches| - 1], agentId) + if last.agentId == agentId then last.lines else []
  }

  function TraceFor(cfg: Config, batches: seq<Batch>, agentId: string): seq<TraceEvent> {
    EventsOf(cfg.decode, LinesFor(batches, agentId))
  }

  /** When the agent's last batch with an event came in. */
  function LastNow(cfg: Config, batches: seq<Batch>, agentId: string): int {
    if batches == [] then 0
    else
      var last := batches[|batches| - 1];
      if last.agentId == agentId && EventsOf(cfg.decode, last.lines) != [] then last.now
      else LastNow(cfg, batches[..|batches| - 1], agentId)
  }

  /** The stored rows and the read-back window both still hold this many events. */
  predicate Fits(cfg: Config, n: nat) {
    n <= cfg.retention && n <= WINDOW
  }

  /** The events a batch brings an agent. */
  function Brought(cfg: Config, batch: Batch, agentId: string): seq<TraceEvent> {
    if batch.agentId == agentId then EventsOf(cfg.decode, batch.lines) else []
  }

  lemma TraceStep(cfg: Config, front: seq<Batch>, last: Batch, agentId: string)
    ensures TraceFor(cfg, front + [last], agentId) == TraceFor(cfg, front, agentId) + Brought(cfg, last, agentId)
  {
    assert (front + [last])[..|front + [last]| - 1] == front;
    if last.agentId == agentId {
      ParseAppend(cfg.decode, LinesFor(front, agentId), last.lines);
    } else {
      assert LinesFor(front, agentId) + [] == LinesFor(front, agentId);
    }
  }

  lemma RunStep(cfg: Config, db: Db, front: seq<Batch>, last: Batch, agentId: string)
    requires Consistent(RunFrom(cfg, db, front))
    ensures Consistent(RunFrom(cfg, db, front + [last]))
    ensures var brought := Brought(cfg, last, agentId);
            && StoredEvents(RunFrom(cfg, db, front + [last]), agentId)
               == EventsAfter(cfg, StoredEvents(RunFrom(cfg, db, front), agentId), brought)
            && StoredSnapshot(RunFrom(cfg, db, front + [last]), agentId)
               == SnapshotAfter(cfg, agentId, StoredEvents(RunFrom(cfg, db, front), agentId),
                                StoredSnapshot(RunFrom(cfg, db, front), agentId), brought, last.now)
  {
    assert (front + [last])[..|front + [last]| - 1] == front;
    BatchRows(cfg, RunFrom(cfg, db, front), last.agentId, last.lines, last.now, agentId);
    BatchSnapshot(cfg, RunFrom(cfg, db, front), last.agentId, last.lines, last.now, agentId);
  }

  lemma EventsAfterBoth(cfg: Config, stored: seq<TraceEvent>, a: seq<TraceEvent>, b: seq<TraceEvent>)
    ensures EventsAfter(cfg, EventsAfter(cfg, stored, a), b) == EventsAfter(cfg, stored, a + b)
  {
    if a == [] {
      EmptyIsUnit(b);
    } else if b == [] {
      EmptyIsUnit(a);
    } else {
      LastNAppend(stored + a, b, cfg.retention);
      Regroup(stored, a, b);
    }
  }

  /** From any database, the batches of a process add their events to each agent's rows and the newest stay. */
  lemma {:induction false} StoredRowsFrom(cfg: Config, db: Db, batches: seq<Batch>, agentId: string)
    requires Consistent(db)
    ensures Consistent(RunFrom(cfg, db, batches))
    ensures StoredEvents(RunFrom(cfg, db, batches), agentId)
            == EventsAfter(cfg, StoredEvents(db, agentId), TraceFor(cfg, batches, agentId))
  {
    if batches != [] {
      var front, last := Pop(batches);
      StoredRowsFrom(cfg, db, front, agentId);
      RunStep(cfg, db, front, last, agentId);
      TraceStep(cfg, front, last, agentId);
      EventsAfterBoth(cfg, StoredEvents(db, agentId), TraceFor(cfg, front, agentId), Brought(cfg, last, agentId));
    }
  }

  lemma EmptyHoldsNothing(agentId: string)
    ensures Consistent(EMPTY) && StoredEvents(EMPTY, agentId) == [] && StoredSnapshot(EMPTY, agentId) == None
  {
  }

  lemma AfterNothing(cfg: Config, events: seq<TraceEvent>)
    ensures EventsAfter(cfg, [], events) == LastN(events, cfg.retention)
  {
    EmptyIsUnit(events);
  }

  /** In the first process, the stored rows of each agent are the newest events of its whole trace. */
  lemma StoredRowsAreNewest(cfg: Config, batches: seq<Batch>, agentId: string)
    ensures Consistent(Run(cfg, batches))
    ensures StoredEvents(Run(cfg, batches), agentId) == LastN(TraceFor(cfg, batches, agentId), cfg.retention)
  {
    EmptyHoldsNothing(agentId);
    StoredRowsFrom(cfg, EMPTY, batches, agentId);
    AfterNothing(cfg, TraceFor(cfg, batches, agentId));
  }

  /** What a batch is combined with: the newest stored events, within the window. */
  function ReadBackOf(cfg: Config, before: seq<TraceEvent>): seq<TraceEvent> {
    LastN(LastN(before, cfg.retention), WINDOW)
  }

  /** The agent's trace before its last batch with an event. */
  function Earlier(cfg: Config, batches: seq<Batch>, agentId: string): seq<TraceEvent> {
    if batches == [] then []
    else
      var front := batches[..|batches| - 1];
      if Brought(cfg, batches[|batches| - 1], agentId) != [] then TraceFor(cfg, front, agentId)
      else Earlier(cfg, front, agentId)
  }

  /** The events of the agent's last batch with an event. */
  function LastBrought(cfg: Config, batches: seq<Batch>, agentId: string): seq<TraceEvent> {
    if batches == [] then []
    else
      var brought := Brought(cfg, batches[|batches| - 1], agentId);
      if brought != [] then brought else LastBrought(cfg, batches[..|batches| - 1], agentId)
  }

  lemma {:induction false} TraceEndsWithLast(cfg: Config, batches: seq<Batch>, agentId: string)
    ensures TraceFor(cfg, batches, agentId) == Earlier(cfg, batches, agentId) + LastBrought(cfg, batches, agentId)
    ensures LastBrought(cfg, batches, agentId) == [] ==> Earlier(cfg, batches, agentId) == []
  {
    if batches != [] {
      var front, last := Pop(batches);
      TraceStep(cfg, front, last, agentId);
      TraceEndsWithLast(cfg, front, agentId);
      EmptyIsUnit(TraceFor(cfg, front, agentId));
    }
  }

  /** The snapshot is always derived from what was read back before the last batch with events, and that batch. */
  lemma {:induction false} SnapshotFrom(cfg: Config, db: Db, batches: seq<Batch>, agentId: string)
    requires Consistent(db)
    ensures var earlier, brought := Earlier(cfg, batches, agentId), LastBrought(cfg, batches, agentId);
            StoredSnapshot(RunFrom(cfg, db, batches), agentId)
            == if brought == [] then StoredSnapshot(db, agentId)
               else Some(SnapshotOf(cfg, agentId,
                                    LastN(EventsAfter(cfg, StoredEvents(db, agentId), earlier), WINDOW) + brought,
                                    LastNow(cfg, batches, agentId)))
  {
    if batches != [] {
      var front, last := Pop(batches);
      StoredRowsFrom(cfg, db, front, agentId);
      RunStep(cfg, db, front, last, agentId);
      SnapshotFrom(cfg, db, front, agentId);
    }
  }

  lemma SnapshotIsOfWindow(cfg: Config, batches: seq<Batch>, agentId: string)
    ensures var earlier, brought := Earlier(cfg, batches, agentId), LastBrought(cfg, batches, agentId);
            && TraceFor(cfg, batches, agentId) == earlier + brought
            && (brought == [] ==> earlier == [])
            && StoredSnapshot(Run(cfg, batches), agentId)
               == if brought == [] then None
                  else Some(SnapshotOf(cfg, agentId, ReadBackOf(cfg, earlier) + brought, LastNow(cfg, batches, agentId)))
  {
    EmptyHoldsNothing(agentId);
    TraceEndsWithLast(cfg, batches, agentId);
    SnapshotFrom(cfg, EMPTY, batches, agentId);
    AfterNothing(cfg, Earlier(cfg, batches, agentId));
  }

  /** Nothing is missing from what is read back exactly while the earlier trace fits. */
  lemma ReadBackIsWholeTraceIffFits(cfg: Config, before: seq<TraceEvent>)
    ensures ReadBackOf(cfg, before) == before <==> Fits(cfg, |before|)
    ensures before == Dropped(cfg, before) + ReadBackOf(cfg, before)
  {
    if !Fits(cfg, |before|) {
      assert |ReadBackOf(cfg, before)| < |before|;
    }
  }

  /** The old events that are not read back. */
  function Dropped(cfg: Config, before: seq<TraceEvent>): seq<TraceEvent> {
    before[..|before| - |ReadBackOf(cfg, before)|]
  }

  /** While the trace before the last batch with events fits, the snapshot is the status of the whole trace. */
  lemma SnapshotIsOneShotStatus(cfg: Config, batches: seq<Batch>, agentId: string)
    requires Fits(cfg, |Earlier(cfg, batches, agentId)|)
    ensures var trace := TraceFor(cfg, batches, agentId);
            StoredSnapshot(Run(cfg, batches), agentId)
            == if trace == [] then None else Some(SnapshotOf(cfg, agentId, trace, LastNow(cfg, batches, agentId)))
  {
    SnapshotIsOfWindow(cfg, batches, agentId);
    ReadBackIsWholeTraceIffFits(cfg, Earlier(cfg, batches, agentId));
  }

  function Requests(events: seq<TraceEvent>): nat {
    CountType(events, ApprovalRequested)
  }

  function Responses(events: seq<TraceEvent>): nat {
    CountType(events, ApprovalResponse)
  }

  /** The counts a snapshot shows are those of the events it was derived from. */
  predicate Counts(s: Snapshot, events: seq<TraceEvent>) {
    && s.errorCount == CountType(events, Error) && s.toolCalls == CountType(events, ToolCall)
    && s.approvalsPending == Pending(Requests(events), Responses(events))
  }

  lemma SnapshotCounts(cfg: Config, agentId: string, events: seq<TraceEvent>, now: int)
    ensures Counts(SnapshotOf(cfg, agentId, events, now), events)
  {
    CountsIgnoreArrivalOrder(events, events, now, cfg.stalenessMs);
  }

  lemma CountsAppend(a: seq<TraceEvent>, b: seq<TraceEvent>)
    ensures forall t :: t in {Error, ToolCall, ApprovalRequested, ApprovalResponse} ==>
              CountType(a + b, t) == CountType(a, t) + CountType(b, t)
  {
    AgentStatus.CountAppend(a, b, Error);
    AgentStatus.CountAppend(a, b, ToolCall);
    AgentStatus.CountAppend(a, b, ApprovalRequested);
    AgentStatus.CountAppend(a, b, ApprovalResponse);
  }

  /**
    * Exactly when a snapshot's counts are those of a trace: error and tool-call counts, if no such event is
    * counted that is not in it, nor left out; pending approvals, if requests and responses beyond it or left out
    * cancel, or if none are pending either way.
    */
  predicate RightCountsIff(s: Snapshot, trace: seq<TraceEvent>, repeated: seq<TraceEvent>, dropped: seq<TraceEvent>) {
    && (s.errorCount == CountType(trace, Error) <==> CountType(repeated, Error) == 0 && CountType(dropped, Error) == 0)
    && (s.toolCalls == CountType(trace, ToolCall)
        <==> CountType(repeated, ToolCall) == 0 && CountType(dropped, ToolCall) == 0)
    && (s.approvalsPending == Pending(Requests(trace), Responses(trace))
        <==> Requests(repeated) + Responses(dropped) == Responses(repeated) + Requests(dropped)
             || (s.approvalsPending == 0 && Requests(trace) <= Responses(trace)))
  }

  lemma WindowCounts(s: Snapshot, repeated: seq<TraceEvent>, dropped: seq<TraceEvent>, kept: seq<TraceEvent>)
    requires Counts(s, repeated + kept) && (repeated == [] || dropped == [])
    ensures RightCountsIff(s, dropped + kept, repeated, dropped)
  {
    CountsAppend(repeated, kept);
    CountsAppend(dropped, kept);
  }

  /** Beyond that, dropped events decide whether the counts are right. */
  lemma SnapshotCountsAllIff(cfg: Config, batches: seq<Batch>, agentId: string)
    requires TraceFor(cfg, batches, agentId) != []
    ensures var trace := TraceFor(cfg, batches, agentId);
            var snapshot := StoredSnapshot(Run(cfg, batches), agentId);
            snapshot.Some? && RightCountsIff(snapshot.value, trace, [], Dropped(cfg, Earlier(cfg, batches, agentId)))
  {
    var earlier, brought := Earlier(cfg, batches, agentId), LastBrought(cfg, batches, agentId);
    var window, dropped := ReadBackOf(cfg, earlier) + brought, Dropped(cfg, earlier);
    SnapshotIsOfWindow(cfg, batches, agentId);
    ReadBackIsWholeTraceIffFits(cfg, earlier);
    SnapshotCounts(cfg, agentId, window, LastNow(cfg, batches, agentId));
    Regroup(dropped, ReadBackOf(cfg, earlier), brought);
    EmptyIsUnit(window);
    WindowCounts(SnapshotOf(cfg, agentId, window, LastNow(cfg, batches, agentId)), [], dropped, window);
  }

  /** How the line stream was cut into batches makes no difference to rows, nor to a trace that fits. */
  lemma BatchingIsInvisible(cfg: Config, p: seq<Batch>, q: seq<Batch>, agentId: string)
    requires LinesFor(p, agentId) == LinesFor(q, agentId)
    ensures StoredEvents(Run(cfg, p), agentId) == StoredEvents(Run(cfg, q), agentId)
    ensures Fits(cfg, |Earlier(cfg, p, agentId)|) && Fits(cfg, |Earlier(cfg, q, agentId)|)
            && LastNow(cfg, p, agentId) == LastNow(cfg, q, agentId) ==>
              StoredSnapshot(Run(cfg, p), agentId) == StoredSnapshot(Run(cfg, q), agentId)
  {
    StoredRowsAreNewest(cfg, p, agentId);
    StoredRowsAreNewest(cfg, q, agentId);
    if Fits(cfg, |Earlier(cfg, p, agentId)|) && Fits(cfg, |Earlier(cfg, q, agentId)|) {
      SnapshotIsOneShotStatus(cfg, p, agentId);
      SnapshotIsOneShotStatus(cfg, q, agentId);
    }
  }

  function AllLines(batches: seq<Batch>): seq<string> {
    if batches == [] then [] else AllLines(batches[..|batches| - 1]) + batches[|batches| - 1].lines
  }

  /** The service's counters are those of one parse over every line it was ever given. */
  lemma {:induction false} CountersAreOneParse(cfg: Config, batches: seq<Batch>)
    ensures Run(cfg, batches).stats == StatsOf(cfg.decode, AllLines(batches))
  {
    if batches != [] {
      var front, last := Pop(batches);
      CountersAreOneParse(cfg, front);
      ParseAppend(cfg.decode, AllLines(front), last.lines);
    }
  }

  // ---------- From growing files to the dashboard ----------

  /** The watcher found a file to hold `data`; its new lines are handed to the service. */
  datatype Arrival = Arrival(file: string, data: string, now: int)

  function ReadsOf(arrivals: seq<Arrival>): seq<TraceTailer.Read> {
    seq(|arrivals|, i requires 0 <= i < |arrivals| => TraceTailer.Read(arrivals[i].file, arrivals[i].data))
  }

  function BatchOf(before: seq<Arrival>, a: Arrival, workspaceOf: string -> string): Batch {
    var tail := TraceTailer.TailIn(TraceTailer.Tails(ReadsOf(before)), a.file);
    Batch(workspaceOf(a.file), TraceTailer.ReadTail(tail, a.data).lines, a.now)
  }

  function BatchesOf(arrivals: seq<Arrival>, workspaceOf: string -> string): seq<Batch> {
    if arrivals == [] then []
    else
      var before := arrivals[..|arrivals| - 1];
      BatchesOf(before, workspaceOf) + [BatchOf(before, arrivals[|arrivals| - 1], workspaceOf)]
  }

  lemma {:induction false} LinesAreDelivered(arrivals: seq<Arrival>, workspaceOf: string -> string, file: string)
    requires forall a <- arrivals :: workspaceOf(a.file) == workspaceOf(file) ==> a.file == file
    ensures LinesFor(BatchesOf(arrivals, workspaceOf), workspaceOf(file))
            == TraceTailer.Delivered(ReadsOf(arrivals), file)
  {
    if arrivals != [] {
      var front, last := Pop(arrivals);
      LinesAreDelivered(front, workspaceOf, file);
      assert last in arrivals;
      var earlier := BatchesOf(front, workspaceOf);
      var batch := BatchOf(front, last, workspaceOf);
      assert (earlier + [batch])[..|earlier + [batch]| - 1] == earlier;
      assert ReadsOf(arrivals)[..|arrivals| - 1] == ReadsOf(front);
    }
  }

  lemma EarlierIsPart(cfg: Config, batches: seq<Batch>, agentId: string)
    ensures Fits(cfg, |TraceFor(cfg, batches, agentId)|) ==> Fits(cfg, |Earlier(cfg, batches, agentId)|)
  {
    SnapshotIsOfWindow(cfg, batches, agentId);
  }

  /**
    * End to end, one file: an agent whose only trace file grows or starts over, read at any moments and among
    * the files of other agents, ends with the newest events of everything the file held, and, while those
    * events fit, with the status derived from them in one go.
    */
  lemma DashboardMatchesFinalFile(
      cfg: Config, arrivals: seq<Arrival>, workspaceOf: string -> string, file: string)
    requires forall a <- arrivals :: workspaceOf(a.file) == workspaceOf(file) ==> a.file == file
    requires TraceTailer.GrowsOrRestarts(ReadsOf(arrivals), file)
    ensures var agentId := workspaceOf(file);
            var batches := BatchesOf(arrivals, workspaceOf);
            var trace := FileEvents(cfg, ReadsOf(arrivals), file);
            && StoredEvents(Run(cfg, batches), agentId) == LastN(trace, cfg.retention)
            && (Fits(cfg, |trace|) && trace != [] ==>
                  StoredSnapshot(Run(cfg, batches), agentId)
                  == Some(SnapshotOf(cfg, agentId, trace, LastNow(cfg, batches, agentId))))
  {
    var agentId, batches := workspaceOf(file), BatchesOf(arrivals, workspaceOf);
    LinesAreDelivered(arrivals, workspaceOf, file);
    TraceTailer.TailingDeliversEverything(ReadsOf(arrivals), file);
    StoredRowsAreNewest(cfg, batches, agentId);
    EarlierIsPart(cfg, batches, agentId);
    if Fits(cfg, |Earlier(cfg, batches, agentId)|) {
      SnapshotIsOneShotStatus(cfg, batches, agentId);
    }
  }

  // ---------- Several files of one agent ----------

  /** The events a file ever held; of a file that only grows, those of its final content. */
  function FileEvents(cfg: Config, history: seq<TraceTailer.Read>, file: string): seq<TraceEvent> {
    EventsOf(cfg.decode, TraceTailer.EverHeld(history, file))
  }

  /** The events of several files, one file after the other. */
  function AllFileEvents(cfg: Config, history: seq<TraceTailer.Read>, files: seq<string>): seq<TraceEvent> {
    if files == [] then []
    else AllFileEvents(cfg, history, files[..|files| - 1]) + FileEvents(cfg, history, files[|files| - 1])
  }

  /** What the reads delivered for several files. */
  function Gathered(cfg: Config, history: seq<TraceTailer.Read>, files: seq<string>): multiset<TraceEvent> {
    if files == [] then multiset{}
    else
      Gathered(cfg, history, files[..|files| - 1])
      + multiset(EventsOf(cfg.decode, TraceTailer.Delivered(history, files[|files| - 1])))
  }

  lemma {:induction false} NothingGathered(cfg: Config, files: seq<string>)
    ensures Gathered(cfg, [], files) == multiset{}
  {
    if files != [] {
      NothingGathered(cfg, files[..|files| - 1]);
    }
  }

  /** The events one more read brings. */
  function NewEvents(cfg: Config, history: seq<TraceTailer.Read>, r: TraceTailer.Read): seq<TraceEvent> {
    EventsOf(cfg.decode, TraceTailer.ReadTail(TraceTailer.TailIn(TraceTailer.Tails(history), r.file), r.data).lines)
  }

  lemma DeliveredOneMore(cfg: Config, history: seq<TraceTailer.Read>, r: TraceTailer.Read, file: string)
    ensures multiset(EventsOf(cfg.decode, TraceTailer.Delivered(history + [r], file)))
            == multiset(EventsOf(cfg.decode, TraceTailer.Delivered(history, file)))
               + if r.file == file then multiset(NewEvents(cfg, history, r)) else multiset{}
  {
    assert (history + [r])[..|history + [r]| - 1] == history;
    if r.file == file {
      ParseAppend(cfg.decode, TraceTailer.Delivered(history, file),
                  TraceTailer.ReadTail(TraceTailer.TailIn(TraceTailer.Tails(history), r.file), r.data).lines);
    } else {
      EmptyIsUnit(TraceTailer.Delivered(history, file));
    }
  }

  lemma {:induction false} GatheredOneMore(
      cfg: Config, history: seq<TraceTailer.Read>, r: TraceTailer.Read, files: seq<string>)
    requires Distinct(files)
    ensures Gathered(cfg, history + [r], files)
            == Gathered(cfg, history, files) + if r.file in files then multiset(NewEvents(cfg, history, r)) else multiset{}
  {
    if files != [] {
      var front, last := Pop(files);
      assert last !in front;
      GatheredOneMore(cfg, history, r, front);
      DeliveredOneMore(cfg, history, r, last);
    }
  }

  predicate FilesOf(files: seq<string>, arrivals: seq<Arrival>, workspaceOf: string -> string, agentId: string) {
    && (forall f <- files :: workspaceOf(f) == agentId)
    && (forall a <- arrivals :: workspaceOf(a.file) == agentId ==> a.file in files)
  }

  lemma ArrivalIsGathered(cfg: Config, before: seq<Arrival>, a: Arrival, workspaceOf: string -> string,
                          agentId: string, files: seq<string>)
    requires Distinct(files) && (a.file in files <==> workspaceOf(a.file) == agentId)
    requires multiset(TraceFor(cfg, BatchesOf(before, workspaceOf), agentId)) == Gathered(cfg, ReadsOf(before), files)
    ensures multiset(TraceFor(cfg, BatchesOf(before, workspaceOf) + [BatchOf(before, a, workspaceOf)], agentId))
            == Gathered(cfg, ReadsOf(before) + [TraceTailer.Read(a.file, a.data)], files)
  {
    GatheredOneMore(cfg, ReadsOf(before), TraceTailer.Read(a.file, a.data), files);
    TraceStep(cfg, BatchesOf(before, workspaceOf), BatchOf(before, a, workspaceOf), agentId);
  }

  lemma ArrivalsOneMore(before: seq<Arrival>, a: Arrival, workspaceOf: string -> string)
    ensures ReadsOf(before + [a]) == ReadsOf(before) + [TraceTailer.Read(a.file, a.data)]
    ensures BatchesOf(before + [a], workspaceOf) == BatchesOf(before, workspaceOf) + [BatchOf(before, a, workspaceOf)]
  {
    assert (before + [a])[..|before + [a]| - 1] == before;
  }

  lemma {:induction false} TraceIsGathered(
      cfg: Config, arrivals: seq<Arrival>, workspaceOf: string -> string, agentId: string, files: seq<string>)
    requires Distinct(files) && FilesOf(files, arrivals, workspaceOf, agentId)
    ensures multiset(TraceFor(cfg, BatchesOf(arrivals, workspaceOf), agentId)) == Gathered(cfg, ReadsOf(arrivals), files)
  {
    if arrivals == [] {
      NothingGathered(cfg, files);
      assert ReadsOf(arrivals) == [];
    } else {
      var front, last := Pop(arrivals);
      assert last in arrivals && forall a <- front :: a in arrivals;
      TraceIsGathered(cfg, front, workspaceOf, agentId, files);
      ArrivalIsGathered(cfg, front, last, workspaceOf, agentId, files);
      ArrivalsOneMore(front, last, workspaceOf);
    }
  }

  lemma {:induction false} GatheredIsEverHeld(cfg: Config, history: seq<TraceTailer.Read>, files: seq<string>)
    requires forall f <- files :: TraceTailer.GrowsOrRestarts(history, f)
    ensures Gathered(cfg, history, files) == multiset(AllFileEvents(cfg, history, files))
  {
    if files != [] {
      var front, last := Pop(files);
      assert last in files && forall f <- front :: f in files;
      GatheredIsEverHeld(cfg, history, front);
      TraceTailer.TailingDeliversEverything(history, last);
    }
  }

  /**
    * End to end, any number of files: an agent whose trace files grow or start over, one file for each run, read
    * at any moments and in any order, has exactly the events those files held. While they fit, its rows are these
    * events, its counts are theirs, and with distinct times its whole status is the one derived from them, in
    * whatever order `events` lists them.
    */
  lemma DashboardMatchesFinalFiles(cfg: Config, arrivals: seq<Arrival>, workspaceOf: string -> string, agentId: string,
                                   files: seq<string>, events: seq<TraceEvent>)
    requires Distinct(files) && FilesOf(files, arrivals, workspaceOf, agentId)
    requires forall f <- files :: TraceTailer.GrowsOrRestarts(ReadsOf(arrivals), f)
    requires multiset(events) == multiset(AllFileEvents(cfg, ReadsOf(arrivals), files))
    ensures var batches := BatchesOf(arrivals, workspaceOf);
            var snapshot := StoredSnapshot(Run(cfg, batches), agentId);
            && multiset(TraceFor(cfg, batches, agentId)) == multiset(events)
            && StoredEvents(Run(cfg, batches), agentId) == LastN(TraceFor(cfg, batches, agentId), cfg.retention)
            && (events == [] ==> snapshot == None)
            && (Fits(cfg, |events|) && events != [] ==>
                  && multiset(StoredEvents(Run(cfg, batches), agentId)) == multiset(events)
                  && snapshot.Some?
                  && SameCounts(snapshot.value, SnapshotOf(cfg, agentId, events, LastNow(cfg, batches, agentId))))
            && (Fits(cfg, |events|) && events != [] && DistinctTimes(events) ==>
                  snapshot == Some(SnapshotOf(cfg, agentId, events, LastNow(cfg, batches, agentId))))
  {
    var batches := BatchesOf(arrivals, workspaceOf);
    var trace, now := TraceFor(cfg, batches, agentId), LastNow(cfg, batches, agentId);
    TraceIsGathered(cfg, arrivals, workspaceOf, agentId, files);
    GatheredIsEverHeld(cfg, ReadsOf(arrivals), files);
    StoredRowsAreNewest(cfg, batches, agentId);
    SameContents(trace, events);
    SnapshotIsOfWindow(cfg, batches, agentId);
    if Fits(cfg, |events|) {
      EarlierIsPart(cfg, batches, agentId);
      SnapshotIsOneShotStatus(cfg, batches, agentId);
      CountsIgnoreArrivalOrder(trace, events, now, cfg.stalenessMs);
      if DistinctTimes(events) {
        StatusIgnoresArrivalOrder(events, trace, now, cfg.stalenessMs);
      }
    }
  }

  predicate SameCounts(a: Snapshot, b: Snapshot) {
    a.errorCount == b.errorCount && a.toolCalls == b.toolCalls && a.approvalsPending == b.approvalsPending
  }
}
