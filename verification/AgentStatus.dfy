/** The status of an agent, derived from the events of its trace. */
module AgentStatus {
  import opened Prelude
  import opened Text

  datatype EventType =
    | Plan
    | ToolCall
    | ApprovalRequested
    | ApprovalResponse
    | Error
    | SessionEnd
    | OtherType(name: string)

  /** A property of an event's data record: missing or null, text, or any other value. */
  datatype Value = Absent | Text(text: string) | Other

  datatype PlanData = PlanData(task: Value, goal: Value)

  /** `timestamp` is the event's own text, `ms` the instant it denotes. */
  datatype TraceEvent = TraceEvent(
    runId: string, eventType: EventType, timestamp: string, ms: int,
    toolRef: Option<string>, error: Option<string>, data: Option<PlanData>)

  datatype Status = Idle | Running | Blocked | Failed | Completed

  datatype Derived = Derived(
    status: Status, currentTask: Option<string>, lastEventAt: Option<string>,
    errorCount: nat, approvalsPending: nat, toolCalls: nat, runDurationMs: nat)

  /** Insertion after every event that is not later, as a stable sort does. */
  function Insert(sorted: seq<TraceEvent>, e: TraceEvent): seq<TraceEvent> {
    if sorted == [] || sorted[|sorted| - 1].ms <= e.ms then sorted + [e]
    else Insert(sorted[..|sorted| - 1], e) + [sorted[|sorted| - 1]]
  }

  function SortByTime(events: seq<TraceEvent>): (r: seq<TraceEvent>)
    ensures |r| == |events|
  {
    if events == [] then []
    else
      InsertLength(SortByTime(events[..|events| - 1]), events[|events| - 1]);
      Insert(SortByTime(events[..|events| - 1]), events[|events| - 1])
  }

  lemma InsertLength(sorted: seq<TraceEvent>, e: TraceEvent)
    ensures |Insert(sorted, e)| == |sorted| + 1
  {
  }

  function CountType(events: seq<TraceEvent>, t: EventType): nat {
    if events == [] then 0
    else CountType(events[..|events| - 1], t) + if events[|events| - 1].eventType == t then 1 else 0
  }

  /** The tool named by the last tool call that names one. */
  function LatestTool(events: seq<TraceEvent>): Option<string> {
    if events == [] then None
    else
      var last := events[|events| - 1];
      if last.eventType == ToolCall && last.toolRef.Some? && last.toolRef.value != [] then last.toolRef
      else LatestTool(events[..|events| - 1])
  }

  function LatestPlan(events: seq<TraceEvent>): Option<TraceEvent> {
    if events == [] then None
    else if events[|events| - 1].eventType == Plan then Some(events[|events| - 1])
    else LatestPlan(events[..|events| - 1])
  }

  function PlanTask(plan: Option<TraceEvent>): Value {
    if plan.None? || plan.value.data.None? then Absent
    else if plan.value.data.value.task != Absent then plan.value.data.value.task
    else plan.value.data.value.goal
  }

  function Pending(requests: nat, responses: nat): nat {
    if requests > responses then requests - responses else 0
  }

  function DeriveStatus(events: seq<TraceEvent>, nowMs: int, stalenessMs: int): Derived {
    if events == [] then Derived(Idle, None, None, 0, 0, 0, 0)
    else FromOrdered(SortByTime(events), nowMs, stalenessMs)
  }

  function FromOrdered(ordered: seq<TraceEvent>, nowMs: int, stalenessMs: int): Derived
    requires ordered != []
  {
    var first, last := ordered[0], ordered[|ordered| - 1];
    var approvalsPending := Pending(CountType(ordered, ApprovalRequested), CountType(ordered, ApprovalResponse));
    var planTask := PlanTask(LatestPlan(ordered));
    var currentTask := if planTask.Text? && Trim(planTask.text) != [] then Some(planTask.text) else LatestTool(ordered);
    var runDurationMs := if last.ms > first.ms then last.ms - first.ms else 0;
    var status :=
      if last.eventType == Error then Failed
      else if approvalsPending > 0 then Blocked
      else if last.eventType == SessionEnd then Completed
      else if nowMs - last.ms > stalenessMs then Idle
      else Running;
    Derived(status, currentTask, Some(last.timestamp), CountType(ordered, Error), approvalsPending,
            CountType(ordered, ToolCall), runDurationMs)
  }

  // ---------- Order of arrival ----------

  predicate Sorted(events: seq<TraceEvent>) {
    forall i, j :: 0 <= i < j < |events| ==> events[i].ms <= events[j].ms
  }

  predicate DistinctTimes(events: seq<TraceEvent>) {
    forall i, j :: 0 <= i < j < |events| ==> events[i].ms != events[j].ms
  }

  /** Taking off the last event. */
  lemma PopEvent(events: seq<TraceEvent>) returns (front: seq<TraceEvent>, last: TraceEvent)
    requires events != []
    ensures front == events[..|events| - 1] && last == events[|events| - 1]
    ensures |front| == |events| - 1 && events == front + [last]
    ensures multiset(events) == multiset(front) + multiset{last}
    ensures Sorted(events) ==> Sorted(front) && forall e <- front :: e.ms <= last.ms
  {
    front, last := events[..|events| - 1], events[|events| - 1];
    assert events == front + [last];
  }

  lemma Push(front: seq<TraceEvent>, last: TraceEvent)
    ensures multiset(front + [last]) == multiset(front) + multiset{last}
    ensures Sorted(front) && (forall e <- front :: e.ms <= last.ms) ==> Sorted(front + [last])
  {
  }

  lemma {:induction false} InsertSorts(sorted: seq<TraceEvent>, e: TraceEvent)
    requires Sorted(sorted)
    ensures Sorted(Insert(sorted, e))
    ensures multiset(Insert(sorted, e)) == multiset(sorted) + multiset{e}
  {
    if sorted == [] {
    } else {
      var front, last := PopEvent(sorted);
      if last.ms <= e.ms {
        Push(sorted, e);
      } else {
        InsertSorts(front, e);
        var inserted := Insert(front, e);
        SameContents(inserted, front + [e]);
        Push(inserted, last);
      }
    }
  }

  lemma SameContents(p: seq<TraceEvent>, q: seq<TraceEvent>)
    requires multiset(p) == multiset(q)
    ensures |p| == |q| && forall e :: e in p <==> e in q
  {
    assert |p| == |multiset(p)| && |q| == |multiset(q)|;
    assert forall e :: e in p <==> e in multiset(p);
    assert forall e :: e in q <==> e in multiset(q);
  }

  lemma {:induction false} SortSorts(events: seq<TraceEvent>)
    ensures Sorted(SortByTime(events)) && multiset(SortByTime(events)) == multiset(events)
  {
    if events != [] {
      var front, last := PopEvent(events);
      SortSorts(front);
      InsertSorts(SortByTime(front), last);
    }
  }

  /** Pairwise distinct times, said of the contents. */
  ghost predicate TimesApart(contents: multiset<TraceEvent>) {
    && (forall x :: contents[x] <= 1)
    && (forall x, y :: x in contents && y in contents && x != y ==> x.ms != y.ms)
  }

  lemma DistinctTimesOfContents(p: seq<TraceEvent>)
    requires DistinctTimes(p)
    ensures TimesApart(multiset(p))
  {
    forall x ensures multiset(p)[x] <= 1 {
      AtMostOnce(p, x);
    }
    assert forall x :: x in multiset(p) ==> x in p;
  }

  lemma {:induction false} AtMostOnce(p: seq<TraceEvent>, x: TraceEvent)
    requires DistinctTimes(p)
    ensures multiset(p)[x] <= 1
  {
    if p != [] {
      var front, last := PopEvent(p);
      AtMostOnce(front, x);
      if last == x {
        assert x !in front;
        assert x !in multiset(front);
      }
    }
  }

  lemma SameLast(p: seq<TraceEvent>, q: seq<TraceEvent>, a: TraceEvent, b: TraceEvent)
    requires Sorted(p + [a]) && Sorted(q + [b])
    requires TimesApart(multiset(p + [a])) && multiset(p + [a]) == multiset(q + [b])
    ensures a == b
  {
    SameContents(p + [a], q + [b]);
    assert a in p + [a] && b in q + [b];
    assert a in q + [b] && b in p + [a];
    assert forall i :: 0 <= i < |p + [a]| ==> (p + [a])[i].ms <= a.ms;
    assert forall i :: 0 <= i < |q + [b]| ==> (q + [b])[i].ms <= b.ms;
    assert a.ms == b.ms;
    assert a in multiset(p + [a]) && b in multiset(p + [a]);
  }

  lemma TimesApartFront(front: multiset<TraceEvent>, x: TraceEvent)
    requires TimesApart(front + multiset{x})
    ensures TimesApart(front)
  {
    forall e ensures front[e] <= 1 {
      assert (front + multiset{x})[e] <= 1;
    }
    assert forall e <- front :: e in front + multiset{x};
  }

  /** Sequences sorted by pairwise distinct times are determined by what they contain. */
  lemma {:induction false} SortedIsUnique(p: seq<TraceEvent>, q: seq<TraceEvent>)
    requires Sorted(p) && Sorted(q) && TimesApart(multiset(p)) && multiset(p) == multiset(q)
    ensures p == q
  {
    SameContents(p, q);
    if p != [] {
      var pf, a := PopEvent(p);
      var qf, b := PopEvent(q);
      SameLast(pf, qf, a, b);
      TimesApartFront(multiset(pf), a);
      CancelOne(multiset(pf), multiset(qf), a);
      SortedIsUnique(pf, qf);
    }
  }

  lemma CancelOne(x: multiset<TraceEvent>, y: multiset<TraceEvent>, e: TraceEvent)
    requires x + multiset{e} == y + multiset{e}
    ensures x == y
  {
    assert x == (x + multiset{e}) - multiset{e};
    assert y == (y + multiset{e}) - multiset{e};
  }

  /** With pairwise distinct times the derived status depends on the set of events alone. */
  lemma StatusIgnoresArrivalOrder(p: seq<TraceEvent>, q: seq<TraceEvent>, nowMs: int, stalenessMs: int)
    requires multiset(p) == multiset(q) && DistinctTimes(p)
    ensures DeriveStatus(p, nowMs, stalenessMs) == DeriveStatus(q, nowMs, stalenessMs)
  {
    SortSorts(p);
    SortSorts(q);
    DistinctTimesOfContents(p);
    SortedIsUnique(SortByTime(p), SortByTime(q));
  }

  lemma {:induction false} CountOfMultiset(p: seq<TraceEvent>, q: seq<TraceEvent>, t: EventType)
    requires multiset(p) == multiset(q)
    ensures CountType(p, t) == CountType(q, t)
  {
    SameContents(p, q);
    if p != [] {
      var front, last := PopEvent(p);
      assert last in p;
      var k :| 0 <= k < |q| && q[k] == last;
      var rest := RemoveAt(q, k, t);
      CancelOne(multiset(front), multiset(rest), last);
      CountOfMultiset(front, rest, t);
    }
  }

  lemma RemoveAt(q: seq<TraceEvent>, k: nat, t: EventType) returns (rest: seq<TraceEvent>)
    requires k < |q|
    ensures |rest| == |q| - 1 && multiset(rest) + multiset{q[k]} == multiset(q)
    ensures CountType(q, t) == CountType(rest, t) + if q[k].eventType == t then 1 else 0
  {
    var front, back := q[..k], q[k + 1..];
    rest := front + back;
    assert q == front + [q[k]] + back;
    assert multiset(q) == multiset(front) + multiset{q[k]} + multiset(back);
    CountAppend(front + [q[k]], back, t);
    CountAppend(front, [q[k]], t);
    CountAppend(front, back, t);
    assert [q[k]][..0] == [];
  }

  lemma {:induction false} CountAppend(a: seq<TraceEvent>, b: seq<TraceEvent>, t: EventType)
    ensures CountType(a + b, t) == CountType(a, t) + CountType(b, t)
  {
    if b == [] {
      assert a + b == a;
    } else {
      assert (a + b)[..|a + b| - 1] == a + b[..|b| - 1];
      CountAppend(a, b[..|b| - 1], t);
    }
  }

  /** The counts never depend on the order of arrival, even when times coincide. */
  lemma CountsIgnoreArrivalOrder(p: seq<TraceEvent>, q: seq<TraceEvent>, nowMs: int, stalenessMs: int)
    requires multiset(p) == multiset(q)
    ensures var a, b := DeriveStatus(p, nowMs, stalenessMs), DeriveStatus(q, nowMs, stalenessMs);
            a.errorCount == b.errorCount && a.toolCalls == b.toolCalls && a.approvalsPending == b.approvalsPending
    ensures DeriveStatus(p, nowMs, stalenessMs).errorCount == CountType(p, Error)
    ensures DeriveStatus(p, nowMs, stalenessMs).toolCalls == CountType(p, ToolCall)
    ensures DeriveStatus(p, nowMs, stalenessMs).approvalsPending
            == Pending(CountType(p, ApprovalRequested), CountType(p, ApprovalResponse))
  {
    assert |p| == |multiset(p)| && |q| == |multiset(q)|;
    SortSorts(p);
    SortSorts(q);
    CountTypesOf(SortByTime(p), p);
    CountTypesOf(SortByTime(q), p);
  }

  lemma CountTypesOf(p: seq<TraceEvent>, q: seq<TraceEvent>)
    requires multiset(p) == multiset(q)
    ensures CountType(p, Error) == CountType(q, Error) && CountType(p, ToolCall) == CountType(q, ToolCall)
    ensures CountType(p, ApprovalRequested) == CountType(q, ApprovalRequested)
    ensures CountType(p, ApprovalResponse) == CountType(q, ApprovalResponse)
  {
    CountOfMultiset(p, q, Error);
    CountOfMultiset(p, q, ToolCall);
    CountOfMultiset(p, q, ApprovalRequested);
    CountOfMultiset(p, q, ApprovalResponse);
  }

  lemma LastAfterInsert(sorted: seq<TraceEvent>, e: TraceEvent)
    ensures var r := Insert(sorted, e);
            r != [] && r[|r| - 1] == if sorted == [] || sorted[|sorted| - 1].ms <= e.ms then e else sorted[|sorted| - 1]
  {
  }

  /** The event that decides the status: the last one in time order. */
  function Latest(events: seq<TraceEvent>): TraceEvent
    requires events != []
  {
    SortByTime(events)[|events| - 1]
  }

  lemma LatestStep(front: seq<TraceEvent>, last: TraceEvent)
    ensures Latest(front + [last]) == if front == [] || Latest(front).ms <= last.ms then last else Latest(front)
  {
    var events := front + [last];
    assert events[..|events| - 1] == front;
    LastAfterInsert(SortByTime(front), last);
  }

  /**
    * Which event decides when times coincide: the one listed last among those with the latest time.
    * Reading two simultaneous events in the other order can therefore change the status.
    */
  lemma {:induction false} LatestListedEventDecides(events: seq<TraceEvent>) returns (k: nat)
    requires events != []
    ensures k < |events| && Latest(events) == events[k]
    ensures forall i :: 0 <= i <= k ==> events[i].ms <= events[k].ms
    ensures forall i :: k < i < |events| ==> events[i].ms < events[k].ms
  {
    var front, last := PopEvent(events);
    LatestStep(front, last);
    k := |front|;
    if front != [] {
      var j := LatestListedEventDecides(front);
      assert forall i :: 0 <= i < |front| ==> events[i] == front[i];
      if front[j].ms > last.ms {
        k := j;
      }
    }
  }
}
