/** The tables behind the dashboard: one snapshot row for each agent, and the newest events of each agent. */
module EventStore {
  import opened Prelude
  import opened AgentStatus

  datatype Snapshot = Snapshot(
    agentId: string, workspacePath: string, displayName: string, status: Status, currentTask: Option<string>,
    lastEventAt: Option<string>, errorCount: nat, approvalsPending: nat, toolCalls: nat, runDurationMs: nat)

  /** An event to be stored: the row without the id that the table assigns. */
  datatype NewEvent = NewEvent(
    agentId: string, runId: string, eventType: EventType, timestamp: string, summary: string, rawEvent: TraceEvent)

  datatype Row = Row(id: nat, event: NewEvent)

  /** Events of one agent, oldest first. */
  function RowsOf(rows: seq<Row>, agentId: string): seq<Row> {
    if rows == [] then []
    else RowsOf(rows[..|rows| - 1], agentId)
         + if rows[|rows| - 1].event.agentId == agentId then [rows[|rows| - 1]] else []
  }

  /** Rows without those of the agent whose id is not in `keep`. */
  function Deleted(rows: seq<Row>, agentId: string, keep: set<nat>): seq<Row> {
    if rows == [] then []
    else
      var last := rows[|rows| - 1];
      Deleted(rows[..|rows| - 1], agentId, keep)
      + if last.event.agentId == agentId && last.id !in keep then [] else [last]
  }

  function Ids(rows: seq<Row>): set<nat> {
    set row | row in rows :: row.id
  }

  /** The agent cut down to its newest `limit` rows, everything else as it was. */
  function Retained(rows: seq<Row>, agentId: string, limit: nat): seq<Row> {
    Deleted(rows, agentId, Ids(LastN(RowsOf(rows, agentId), limit)))
  }

  /** Ids grow along the table, as an autoincrement key makes them. */
  predicate Increasing(rows: seq<Row>, nextId: nat) {
    && (forall i, j :: 0 <= i < j < |rows| ==> rows[i].id < rows[j].id)
    && (forall row <- rows :: row.id < nextId)
  }

  function Inserted(nextId: nat, events: seq<NewEvent>): seq<Row> {
    seq(|events|, i requires 0 <= i < |events| => Row(nextId + i, events[i]))
  }

  /** Retention applied for each agent in turn. */
  function RetainedEach(rows: seq<Row>, agents: seq<string>, limit: nat): seq<Row> {
    if agents == [] then rows
    else Retained(RetainedEach(rows, agents[..|agents| - 1], limit), agents[|agents| - 1], limit)
  }

  /** Agents in the order of their first event. */
  function Touched(events: seq<NewEvent>): seq<string> {
    if events == [] then []
    else
      var before, agentId := Touched(events[..|events| - 1]), events[|events| - 1].agentId;
      if agentId in before then before else before + [agentId]
  }

  function Reversed<T>(s: seq<T>): seq<T> {
    seq(|s|, i requires 0 <= i < |s| => s[|s| - 1 - i])
  }

  class SQLiteStore {
    var rows: seq<Row>
    var nextId: nat
    var agents: map<string, Snapshot>
    const retentionPerAgent: nat

    ghost predicate Valid()
      reads this
    {
      Increasing(rows, nextId)
    }

    constructor (retentionPerAgent: nat)
      ensures Valid() && rows == [] && agents == map[] && this.retentionPerAgent == retentionPerAgent
    {
      rows := [];
      nextId := 1;
      agents := map[];
      this.retentionPerAgent := retentionPerAgent;
    }

    method UpsertAgent(snapshot: Snapshot)
      modifies this`agents
      ensures agents == old(agents)[snapshot.agentId := snapshot]
    {
      agents := agents[snapshot.agentId := snapshot];
    }

    method AppendEvents(events: seq<NewEvent>)
      requires Valid()
      modifies this`rows, this`nextId
      ensures Valid()
      ensures rows == RetainedEach(old(rows) + Inserted(old(nextId), events), Touched(events), retentionPerAgent)
      ensures nextId == old(nextId) + |events|
    {
      var touchedAgents := InsertAll(events);
      ghost var all := rows;
      var i := 0;
      while i < |touchedAgents|
        invariant 0 <= i <= |touchedAgents|
        invariant Valid()
        invariant rows == RetainedEach(all, touchedAgents[..i], retentionPerAgent)
        invariant nextId == old(nextId) + |events|
      {
        RetainNext(all, touchedAgents, i, retentionPerAgent);
        DeleteOld(touchedAgents[i]);
        i := i + 1;
      }
      assert touchedAgents[..|touchedAgents|] == touchedAgents;
    }

    /** INSERT of each event under the next id, noting whose events they are. */
    method InsertAll(events: seq<NewEvent>) returns (touchedAgents: seq<string>)
      requires Valid()
      modifies this`rows, this`nextId
      ensures Valid() && touchedAgents == Touched(events)
      ensures rows == old(rows) + Inserted(old(nextId), events) && nextId == old(nextId) + |events|
    {
      touchedAgents := [];
      var i := 0;
      while i < |events|
        invariant 0 <= i <= |events|
        invariant Valid() && nextId == old(nextId) + i
        invariant rows == old(rows) + Inserted(old(nextId), events[..i])
        invariant touchedAgents == Touched(events[..i])
      {
        assert events[..i + 1][..i] == events[..i];
        if events[i].agentId !in touchedAgents {
          touchedAgents := touchedAgents + [events[i].agentId];
        }
        InsertNext(old(rows), old(nextId), events, i);
        rows := rows + [Row(nextId, events[i])];
        nextId := nextId + 1;
        i := i + 1;
      }
      assert events[..|events|] == events;
    }

    /** DELETE of the agent's rows whose id is not among the newest ones. */
    method DeleteOld(agentId: string)
      requires Valid()
      modifies this`rows
      ensures Valid() && rows == Retained(old(rows), agentId, retentionPerAgent)
    {
      var newest := SelectNewest(agentId, retentionPerAgent);
      var keep := set row | row in newest :: row.id;
      SameIds(newest, LastN(RowsOf(rows, agentId), retentionPerAgent));
      var kept: seq<Row> := [];
      var i := 0;
      while i < |rows|
        invariant 0 <= i <= |rows|
        invariant rows == old(rows)
        invariant kept == Deleted(rows[..i], agentId, keep)
      {
        assert rows[..i + 1][..i] == rows[..i];
        if !(rows[i].event.agentId == agentId && rows[i].id !in keep) {
          kept := kept + [rows[i]];
        }
        i := i + 1;
      }
      assert rows[..|rows|] == rows;
      DeletedIsIncreasing(rows, agentId, keep, nextId);
      rows := kept;
    }

    /** SELECT of the agent's rows in descending id order, up to a limit. */
    method SelectNewest(agentId: string, limit: nat) returns (newest: seq<Row>)
      requires Valid()
      ensures newest == Reversed(LastN(RowsOf(rows, agentId), limit))
    {
      newest := [];
      var i := |rows|;
      assert rows[..i] == rows;
      while i > 0 && |newest| < limit
        invariant 0 <= i <= |rows| && |newest| <= limit
        invariant RowsOf(rows, agentId) == RowsOf(rows[..i], agentId) + Reversed(newest)
      {
        i := i - 1;
        assert rows[..i + 1][..i] == rows[..i];
        if rows[i].event.agentId == agentId {
          assert Reversed(newest + [rows[i]]) == [rows[i]] + Reversed(newest);
          newest := newest + [rows[i]];
        }
      }
      assert Reversed(Reversed(newest)) == newest;
      assert LastN(RowsOf(rows, agentId), limit) == Reversed(newest);
    }

    /** Newest first, as the query returns them. */
    method ListRecentEvents(agentId: string, limit: nat) returns (events: seq<Row>)
      requires Valid()
      ensures events == Reversed(LastN(RowsOf(rows, agentId), limit))
    {
      events := SelectNewest(agentId, limit);
    }
  }

  lemma InsertNext(rows: seq<Row>, nextId: nat, events: seq<NewEvent>, i: nat)
    requires i < |events|
    ensures rows + Inserted(nextId, events[..i]) + [Row(nextId + i, events[i])]
            == rows + Inserted(nextId, events[..i + 1])
  {
    assert Inserted(nextId, events[..i]) + [Row(nextId + i, events[i])] == Inserted(nextId, events[..i + 1]);
  }

  lemma RetainNext(rows: seq<Row>, agents: seq<string>, i: nat, limit: nat)
    requires i < |agents|
    ensures RetainedEach(rows, agents[..i + 1], limit) == Retained(RetainedEach(rows, agents[..i], limit), agents[i], limit)
  {
    assert agents[..i + 1][..i] == agents[..i];
  }

  lemma SameIds(p: seq<Row>, q: seq<Row>)
    requires p == Reversed(q)
    ensures Ids(p) == Ids(q)
  {
    assert forall i :: 0 <= i < |q| ==> q[i] == p[|q| - 1 - i];
    assert forall row <- q :: row in p;
    assert forall row <- p :: row in q;
  }

  // ---------- What retention keeps ----------

  lemma {:induction false} DeletedIsSubsequence(rows: seq<Row>, agentId: string, keep: set<nat>)
    ensures forall row <- Deleted(rows, agentId, keep) :: row in rows
  {
    if rows != [] {
      var front, last := PopRow(rows);
      DeletedIsSubsequence(front, agentId, keep);
    }
  }

  lemma PopRow(rows: seq<Row>) returns (front: seq<Row>, last: Row)
    requires rows != []
    ensures front == rows[..|rows| - 1] && last == rows[|rows| - 1]
    ensures rows == front + [last] && |front| < |rows|
    ensures forall n :: Increasing(rows, n) ==> Increasing(front, last.id) && last.id < n
  {
    front, last := rows[..|rows| - 1], rows[|rows| - 1];
  }

  lemma PushRow(front: seq<Row>, last: Row, nextId: nat)
    requires Increasing(front, last.id) && last.id < nextId
    ensures Increasing(front + [last], nextId)
  {
  }

  lemma {:induction false} DeletedIsIncreasing(rows: seq<Row>, agentId: string, keep: set<nat>, nextId: nat)
    requires Increasing(rows, nextId)
    ensures Increasing(Deleted(rows, agentId, keep), nextId)
  {
    if rows != [] {
      var front, last := PopRow(rows);
      DeletedIsIncreasing(front, agentId, keep, last.id);
      if !(last.event.agentId == agentId && last.id !in keep) {
        PushRow(Deleted(front, agentId, keep), last, nextId);
      }
    }
  }

  lemma {:induction false} RowsOfAppend(a: seq<Row>, b: seq<Row>, agentId: string)
    ensures RowsOf(a + b, agentId) == RowsOf(a, agentId) + RowsOf(b, agentId)
  {
    if b == [] {
      assert a + b == a;
    } else {
      var front, last := PopRow(b);
      assert (a + b)[..|a + b| - 1] == a + front;
      RowsOfAppend(a, front, agentId);
    }
  }

  lemma {:induction false} RowsOfMembers(rows: seq<Row>, agentId: string)
    ensures forall row :: row in RowsOf(rows, agentId) <==> row in rows && row.event.agentId == agentId
  {
    if rows != [] {
      var front, last := PopRow(rows);
      RowsOfMembers(front, agentId);
    }
  }

  /** Deletion by id leaves other agents alone and filters this one. */
  lemma {:induction false} DeletedRowsOf(rows: seq<Row>, agentId: string, keep: set<nat>, other: string)
    ensures other != agentId ==> RowsOf(Deleted(rows, agentId, keep), other) == RowsOf(rows, other)
    ensures RowsOf(Deleted(rows, agentId, keep), agentId) == Deleted(RowsOf(rows, agentId), agentId, keep)
  {
    if rows != [] {
      var front, last := PopRow(rows);
      DeletedRowsOf(front, agentId, keep, other);
      var kept := if last.event.agentId == agentId && last.id !in keep then [] else [last];
      RowsOfAppend(Deleted(front, agentId, keep), kept, other);
      RowsOfAppend(Deleted(front, agentId, keep), kept, agentId);
      RowsOfOne(last, other);
      RowsOfOne(last, agentId);
      DeletedOneMore(RowsOf(front, agentId), last, agentId, keep);
      if last.event.agentId == agentId {
        assert RowsOf(rows, agentId) == RowsOf(front, agentId) + [last];
      } else {
        assert RowsOf(rows, agentId) == RowsOf(front, agentId);
      }
    }
  }

  lemma DeletedOneMore(front: seq<Row>, last: Row, agentId: string, keep: set<nat>)
    ensures Deleted(front + [last], agentId, keep)
            == Deleted(front, agentId, keep) + if last.event.agentId == agentId && last.id !in keep then [] else [last]
  {
    assert (front + [last])[..|front + [last]| - 1] == front;
  }

  lemma RowsOfOne(row: Row, agentId: string)
    ensures RowsOf([row], agentId) == if row.event.agentId == agentId then [row] else []
    ensures RowsOf([], agentId) == []
  {
    assert [row][..0] == [];
  }

  /** Within one agent, keeping the ids of the newest rows keeps exactly the newest rows. */
  lemma {:induction false} DeletedKeepsWindow(mine: seq<Row>, agentId: string, limit: nat, keep: set<nat>, nextId: nat)
    requires Increasing(mine, nextId) && forall row <- mine :: row.event.agentId == agentId
    requires forall row <- mine :: row.id in keep <==> row in LastN(mine, limit)
    ensures Deleted(mine, agentId, keep) == LastN(mine, limit)
  {
    if mine != [] {
      var front, last := PopRow(mine);
      if limit == 0 {
        DeletedKeepsWindow(front, agentId, 0, keep, last.id);
      } else {
        WindowStep(front, last, limit);
        forall row <- front ensures row.id in keep <==> row in LastN(front, limit - 1) {
          assert row in mine && row != last;
        }
        DeletedKeepsWindow(front, agentId, limit - 1, keep, last.id);
        assert last in LastN(mine, limit);
      }
    }
  }

  lemma WindowStep(front: seq<Row>, last: Row, limit: nat)
    requires limit > 0
    ensures LastN(front + [last], limit) == LastN(front, limit - 1) + [last]
  {
  }

  lemma {:induction false} RowsOfIncreasing(rows: seq<Row>, agentId: string, nextId: nat)
    requires Increasing(rows, nextId)
    ensures Increasing(RowsOf(rows, agentId), nextId)
  {
    if rows != [] {
      var front, last := PopRow(rows);
      RowsOfIncreasing(front, agentId, last.id);
      if last.event.agentId == agentId {
        PushRow(RowsOf(front, agentId), last, nextId);
      }
    }
  }

  lemma WindowIds(mine: seq<Row>, limit: nat, nextId: nat)
    requires Increasing(mine, nextId)
    ensures forall row <- mine :: row.id in Ids(LastN(mine, limit)) <==> row in LastN(mine, limit)
  {
    forall row <- mine | row.id in Ids(LastN(mine, limit)) ensures row in LastN(mine, limit) {
      var other :| other in LastN(mine, limit) && other.id == row.id;
      assert other in mine;
      var i :| 0 <= i < |mine| && mine[i] == row;
      var j :| 0 <= j < |mine| && mine[j] == other;
      assert i == j;
    }
  }

  /** Retention leaves an agent its newest rows, in order, and every other agent all of its rows. */
  lemma RetentionKeepsNewest(rows: seq<Row>, agentId: string, limit: nat, nextId: nat, other: string)
    requires Increasing(rows, nextId)
    ensures Increasing(Retained(rows, agentId, limit), nextId)
    ensures RowsOf(Retained(rows, agentId, limit), other)
            == if other == agentId then LastN(RowsOf(rows, agentId), limit) else RowsOf(rows, other)
  {
    var mine := RowsOf(rows, agentId);
    var keep := Ids(LastN(mine, limit));
    DeletedIsIncreasing(rows, agentId, keep, nextId);
    DeletedRowsOf(rows, agentId, keep, other);
    RowsOfMembers(rows, agentId);
    RowsOfIncreasing(rows, agentId, nextId);
    WindowIds(mine, limit, nextId);
    DeletedKeepsWindow(mine, agentId, limit, keep, nextId);
  }

  lemma {:induction false} RetentionOfEach(rows: seq<Row>, agents: seq<string>, limit: nat, nextId: nat, other: string)
    requires Increasing(rows, nextId)
    ensures Increasing(RetainedEach(rows, agents, limit), nextId)
    ensures RowsOf(RetainedEach(rows, agents, limit), other)
            == if other in agents then LastN(RowsOf(rows, other), limit) else RowsOf(rows, other)
  {
    if agents != [] {
      var front, agentId := agents[..|agents| - 1], agents[|agents| - 1];
      RetentionOfEach(rows, front, limit, nextId, other);
      RetentionKeepsNewest(RetainedEach(rows, front, limit), agentId, limit, nextId, other);
      assert other in agents <==> other in front || other == agentId;
    }
  }
}
