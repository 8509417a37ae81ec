/**
  * The cron service as an interleaved state machine. Each check loop collects due jobs under the lock,
  * then executes them one by one: a lookup, the callback with no lock held, and a locked update. Any API
  * call, and any step of another loop, may fall between two of those steps.
  */
module CronProtocol {
  import opened Prelude
  import opened CronService

  datatype Execution = Execution(id: string, start: Millis)

  /** One check loop: ids collected and not yet executed, and the execution whose callback is running. */
  datatype Runner = Runner(queue: seq<string>, busy: Option<Execution>)

  datatype Event = Event(id: string, time: Millis)

  /**
    * `schedules` records the schedule each issued id was created with; `collected` and `fired` are the
    * history of collections and of callback invocations.
    */
  datatype World = World(
    store: Store, clock: Millis, runners: seq<Runner>,
    schedules: map<string, Schedule>, collected: seq<Event>, fired: seq<Event>)

  /** A crash ends the process with all its loops; another one then opens the store file. */
  datatype Step =
    | Tick(to: Millis)
    | Start
    | Stop
    | Crash
    | Collect(r: nat)
    | Begin(r: nat)
    | End(r: nat, error: Option<string>)
    | Add(id: string, name: string, schedule: Schedule, payload: string)
    | Update(job: Job)
    | Remove(id: string)
    | Enable(id: string, enabled: bool)

  const IDLE := Runner([], None)

  /** The empty store of a first start. */
  const BLANK := World(Store([], [], false), 0, [], map[], [], [])

  /** The clock never goes back, new ids are fresh, and a loop runs one thing at a time. */
  predicate Enabled(w: World, step: Step) {
    match step
    case Tick(to) => w.clock <= to
    case Collect(r) => r < |w.runners| && w.runners[r] == IDLE
    case Begin(r) => r < |w.runners| && w.runners[r].queue != [] && w.runners[r].busy.None?
    case End(r, _) => r < |w.runners| && w.runners[r].busy.Some?
    case Add(id, _, _, _) => id !in w.schedules
    case _ => true
  }

  function Stamp(ids: seq<string>, time: Millis): seq<Event> {
    seq(|ids|, i requires 0 <= i < |ids| => Event(ids[i], time))
  }

  function NextStore(g: Gronx, w: World, step: Step): Store
    requires Enabled(w, step)
  {
    match step
    case Start => StartStore(g, w.store, w.clock)
    case Stop => w.store.(running := false)
    case Crash => Store(w.store.disk, w.store.disk, false)
    case Collect(_) => CollectStore(w.store, w.clock).0
    case End(r, error) =>
      var run := w.runners[r].busy.value;
      FinishStore(g, w.store, run.id, run.start, error, w.clock)
    case Add(id, name, schedule, payload) =>
      Saved(w.store.jobs + [NewJob(g, id, name, schedule, payload, w.clock)], w.store.running)
    case Update(job) => UpdateStore(w.store, job, w.clock)
    case Remove(id) => RemoveStore(w.store, id)
    case Enable(id, enabled) => EnableStore(g, w.store, id, enabled, w.clock)
    case _ => w.store
  }

  /**
    * Starting adds a loop; a process that ends takes all loops with it; the callback of a collected id runs
    * only if its job can still be found.
    */
  function NextRunners(w: World, step: Step): seq<Runner>
    requires Enabled(w, step)
  {
    match step
    case Start => if w.store.running then w.runners else w.runners + [IDLE]
    case Crash => []
    case Collect(r) => w.runners[r := Runner(CollectStore(w.store, w.clock).1, None)]
    case Begin(r) =>
      var id, rest := w.runners[r].queue[0], w.runners[r].queue[1..];
      w.runners[r := Runner(rest, if Lookup(w.store.jobs, id).Some? then Some(Execution(id, w.clock)) else None)]
    case End(r, _) => w.runners[r := w.runners[r].(busy := None)]
    case _ => w.runners
  }

  function NextCollected(w: World, step: Step): seq<Event>
    requires Enabled(w, step)
  {
    if step.Collect? then w.collected + Stamp(CollectStore(w.store, w.clock).1, w.clock) else w.collected
  }

  function NextFired(w: World, step: Step): seq<Event>
    requires Enabled(w, step)
  {
    if step.Begin? && Lookup(w.store.jobs, w.runners[step.r].queue[0]).Some?
    then w.fired + [Event(w.runners[step.r].queue[0], w.clock)]
    else w.fired
  }

  function Next(g: Gronx, w: World, step: Step): World
    requires Enabled(w, step)
  {
    World(NextStore(g, w, step),
          if step.Tick? then step.to else w.clock,
          NextRunners(w, step),
          if step.Add? then w.schedules[step.id := step.schedule] else w.schedules,
          NextCollected(w, step),
          NextFired(w, step))
  }

  /** Every step of the sequence can be taken in turn. */
  predicate Runs(g: Gronx, w: World, steps: seq<Step>)
    decreases steps
  {
    steps == [] || (Enabled(w, steps[0]) && Runs(g, Next(g, w, steps[0]), steps[1..]))
  }

  function After(g: Gronx, w: World, steps: seq<Step>): World
    requires Runs(g, w, steps)
    decreases steps
  {
    if steps == [] then w else After(g, Next(g, w, steps[0]), steps[1..])
  }

  /** An edit through UpdateJob that leaves the stored schedule, switch and next run as they are. */
  predicate Gentle(w: World, step: Step) {
    step.Update? ==>
      var stored := Lookup(w.store.jobs, step.job.id);
      stored.Some? ==>
        && step.job.schedule == stored.value.schedule
        && step.job.enabled == stored.value.enabled
        && step.job.next == stored.value.next
  }

  predicate GentleRun(g: Gronx, w: World, steps: seq<Step>)
    requires Runs(g, w, steps)
    decreases steps
  {
    steps == [] || (Gentle(w, steps[0]) && GentleRun(g, Next(g, w, steps[0]), steps[1..]))
  }

  // ---------- One job's view of the world ----------

  /** When the events of one job happened, in order. */
  function Times(log: seq<Event>, id: string): seq<Millis> {
    if log == [] then []
    else
      var last := log[|log| - 1];
      Times(log[..|log| - 1], id) + if last.id == id then [last.time] else []
  }

  /** How often an id is collected and not yet executed, over all loops. */
  function Waiting(runners: seq<Runner>, id: string): nat {
    if runners == [] then 0
    else
      var last := runners[|runners| - 1];
      Waiting(runners[..|runners| - 1], id) + multiset(last.queue)[id]
  }

  predicate IsRunning(runner: Runner, id: string) {
    runner.busy.Some? && runner.busy.value.id == id
  }

  /** How many loops are running the callback of an id. */
  function Executing(runners: seq<Runner>, id: string): nat {
    if runners == [] then 0
    else
      var last := runners[|runners| - 1];
      Executing(runners[..|runners| - 1], id) + if IsRunning(last, id) then 1 else 0
  }

  datatype View = View(
    clock: Millis, running: bool, job: Option<Job>, schedule: Option<Schedule>,
    collections: seq<Millis>, firings: seq<Millis>, waiting: int, executing: int)

  function ViewOf(w: World, id: string): View {
    View(w.clock, w.store.running, Lookup(w.store.jobs, id),
         if id in w.schedules then Some(w.schedules[id]) else None,
         Times(w.collected, id), Times(w.fired, id), Waiting(w.runners, id), Executing(w.runners, id))
  }

  /** What a step means to one job. */
  datatype Change =
    | Unchanged
    | Ticked(to: Millis)
    | Restarted
    | Stopped
    | Crashed
    | Collected
    | Fired
    | Missed
    | Ended(start: Millis, error: Option<string>)
    | Created(id: string, name: string, schedule: Schedule, payload: string)
    | Edited(edit: Job)
    | Dropped
    | Toggled(enabled: bool)

  function Classify(w: World, step: Step, id: string): Change
    requires Enabled(w, step)
  {
    var stored := Lookup(w.store.jobs, id);
    match step
    case Tick(to) => Ticked(to)
    case Start => if w.store.running then Unchanged else Restarted
    case Stop => Stopped
    case Crash => Crashed
    case Collect(_) =>
      if w.store.running && stored.Some? && Due(stored.value, w.clock) then Collected else Unchanged
    case Begin(r) =>
      if w.runners[r].queue[0] != id then Unchanged else if stored.Some? then Fired else Missed
    case End(r, error) =>
      var run := w.runners[r].busy.value;
      if run.id == id then Ended(run.start, error) else Unchanged
    case Add(x, name, schedule, payload) => if x == id then Created(x, name, schedule, payload) else Unchanged
    case Update(edit) => if edit.id == id && stored.Some? then Edited(edit) else Unchanged
    case Remove(x) => if x == id then Dropped else Unchanged
    case Enable(x, enabled) => if x == id then Toggled(enabled) else Unchanged
  }

  /** The job after a change, from the job before it. */
  function JobAfter(g: Gronx, stored: Option<Job>, clock: Millis, c: Change): Option<Job> {
    if c.Created? then Some(NewJob(g, c.id, c.name, c.schedule, c.payload, clock))
    else if stored.None? then None
    else
      match c
      case Restarted => Some(Recompute(g, stored.value, clock))
      case Collected => Some(stored.value.(next := None))
      case Ended(start, error) => Finished(g, stored.value, start, error, clock)
      case Edited(edit) => Some(edit.(updatedAt := clock))
      case Dropped => None
      case Toggled(enabled) => Some(Switched(g, stored.value, enabled, clock))
      case _ => stored
  }

  /** Reference semantics: one job on its own, without the store around it. */
  function Apply(g: Gronx, v: View, c: Change): View {
    var v := v.(job := JobAfter(g, v.job, v.clock, c));
    match c
    case Ticked(to) => v.(clock := to)
    case Restarted => v.(running := true)
    case Stopped => v.(running := false)
    case Crashed => v.(running := false, waiting := 0, executing := 0)
    case Collected => v.(collections := v.collections + [v.clock], waiting := v.waiting + 1)
    case Fired => v.(firings := v.firings + [v.clock], waiting := v.waiting - 1, executing := v.executing + 1)
    case Missed => v.(waiting := v.waiting - 1)
    case Ended(_, _) => v.(executing := v.executing - 1)
    case Created(_, _, schedule, _) => v.(schedule := Some(schedule))
    case _ => v
  }

  // ---------- The store seen one job at a time ----------

  ghost predicate UniqueIds(jobs: seq<Job>) {
    forall i, j :: 0 <= i < j < |jobs| ==> jobs[i].id != jobs[j].id
  }

  /** A loop holds no id twice. */
  ghost predicate WellQueued(runner: Runner) {
    Distinct(runner.queue) && (runner.busy.Some? ==> runner.busy.value.id !in runner.queue)
  }

  /** What holds of store and loops in every reachable world, whatever the edits. */
  ghost predicate Coherent(w: World) {
    && UniqueIds(w.store.jobs)
    && (forall runner <- w.runners :: WellQueued(runner))
    && w.store.disk == w.store.jobs
    && (forall id :: Lookup(w.store.jobs, id).Some? ==> id in w.schedules)
  }

  lemma LookupUnique(jobs: seq<Job>, k: nat)
    requires UniqueIds(jobs) && k < |jobs|
    ensures Lookup(jobs, jobs[k].id) == Some(jobs[k]) && IndexOf(jobs, jobs[k].id) == k
  {
  }

  lemma {:induction false} WithoutKeepsOthers(jobs: seq<Job>, id: string)
    requires UniqueIds(jobs)
    ensures var rest := Without(jobs, id);
            && UniqueIds(rest)
            && (forall job :: job in rest <==> job in jobs && job.id != id)
  {
    if jobs != [] {
      var prefix, last := jobs[..|jobs| - 1], jobs[|jobs| - 1];
      WithoutKeepsOthers(prefix, id);
      assert jobs == prefix + [last];
      var rest := Without(prefix, id);
      forall i | 0 <= i < |rest| ensures rest[i].id != last.id {
        assert rest[i] in prefix;
      }
    }
  }

  lemma LookupMember(jobs: seq<Job>, job: Job)
    requires UniqueIds(jobs)
    ensures Lookup(jobs, job.id) == Some(job) <==> job in jobs
  {
    if job in jobs {
      var k :| 0 <= k < |jobs| && jobs[k] == job;
      LookupUnique(jobs, k);
    }
  }

  lemma LookupWithout(jobs: seq<Job>, id: string, x: string)
    requires UniqueIds(jobs)
    ensures UniqueIds(Without(jobs, id))
    ensures Lookup(Without(jobs, id), x) == if x == id then None else Lookup(jobs, x)
  {
    var rest := Without(jobs, id);
    WithoutKeepsOthers(jobs, id);
    if Lookup(rest, x).Some? {
      LookupMember(jobs, Lookup(rest, x).value);
    }
    if x != id && Lookup(jobs, x).Some? {
      LookupMember(rest, Lookup(jobs, x).value);
    }
  }

  /** Rewriting records in place without touching ids keeps every lookup in place. */
  lemma LookupPointwise(jobs: seq<Job>, jobs': seq<Job>, x: string)
    requires |jobs| == |jobs'| && forall i :: 0 <= i < |jobs| ==> jobs'[i].id == jobs[i].id
    ensures IndexOf(jobs', x) == IndexOf(jobs, x)
    ensures UniqueIds(jobs) ==> UniqueIds(jobs')
  {
  }

  lemma {:induction false} DueIdsAreDue(jobs: seq<Job>, now: Millis)
    requires UniqueIds(jobs)
    ensures Distinct(DueIds(jobs, now))
    ensures forall id :: id in DueIds(jobs, now) <==> Lookup(jobs, id).Some? && Due(Lookup(jobs, id).value, now)
  {
    if jobs != [] {
      var prefix, last := jobs[..|jobs| - 1], jobs[|jobs| - 1];
      DueIdsAreDue(prefix, now);
      LookupUnique(jobs, |jobs| - 1);
      forall id ensures Lookup(jobs, id) == if id == last.id then Some(last) else Lookup(prefix, id) {
        LookupAppend(prefix, last, id);
      }
      assert Lookup(prefix, last.id).None?;
    }
  }

  lemma LookupAppend(jobs: seq<Job>, last: Job, id: string)
    ensures jobs + [last] == (jobs + [last])[..|jobs|] + [last]
    ensures Lookup(jobs + [last], id) ==
            if Lookup(jobs, id).Some? then Lookup(jobs, id) else if id == last.id then Some(last) else None
  {
    var all := jobs + [last];
    var k, k' := IndexOf(jobs, id), IndexOf(all, id);
    assert forall i :: 0 <= i < |jobs| ==> all[i] == jobs[i];
    assert all[|jobs|] == last;
    if k < k' {
      assert all[k].id != id;
    }
  }

  lemma ReplacePerJob(jobs: seq<Job>, k: nat, job: Job, id: string)
    requires UniqueIds(jobs) && k < |jobs| && job.id == jobs[k].id
    ensures UniqueIds(jobs[k := job])
    ensures Lookup(jobs[k := job], id) == if id == job.id then Some(job) else Lookup(jobs, id)
  {
    LookupPointwise(jobs, jobs[k := job], id);
    LookupUnique(jobs, k);
  }

  lemma FinishPerJob(g: Gronx, s: Store, run: Execution, error: Option<string>, now: Millis, id: string)
    requires UniqueIds(s.jobs) && s.disk == s.jobs
    ensures var s' := FinishStore(g, s, run.id, run.start, error, now);
            && UniqueIds(s'.jobs) && s'.disk == s'.jobs
            && Lookup(s'.jobs, id) ==
               if id == run.id && Lookup(s.jobs, id).Some?
               then Finished(g, Lookup(s.jobs, id).value, run.start, error, now) else Lookup(s.jobs, id)
  {
    var k := IndexOf(s.jobs, run.id);
    if k < |s.jobs| {
      match Finished(g, s.jobs[k], run.start, error, now)
      case None => LookupWithout(s.jobs, run.id, id);
      case Some(job) => ReplacePerJob(s.jobs, k, job, id);
    }
  }

  lemma RewritePerJob(g: Gronx, s: Store, now: Millis, id: string)
    requires UniqueIds(s.jobs) && s.disk == s.jobs
    ensures var started := StartStore(g, s, now).jobs;
            && UniqueIds(started)
            && Lookup(started, id) ==
               if s.running || Lookup(s.jobs, id).None? then Lookup(s.jobs, id)
               else Some(Recompute(g, Lookup(s.jobs, id).value, now))
    ensures var collected := CollectStore(s, now).0.jobs;
            && UniqueIds(collected)
            && Lookup(collected, id) ==
               if s.running && Lookup(s.jobs, id).Some? && Due(Lookup(s.jobs, id).value, now)
               then Some(Lookup(s.jobs, id).value.(next := None)) else Lookup(s.jobs, id)
  {
    DueIdsAreDue(s.jobs, now);
    LookupPointwise(s.jobs, StartStore(g, s, now).jobs, id);
    LookupPointwise(s.jobs, CollectStore(s, now).0.jobs, id);
  }

  lemma AppendPerJob(jobs: seq<Job>, job: Job, id: string)
    requires UniqueIds(jobs) && Lookup(jobs, job.id).None?
    ensures UniqueIds(jobs + [job])
    ensures Lookup(jobs + [job], id) == if id == job.id then Some(job) else Lookup(jobs, id)
  {
    LookupAppend(jobs, job, id);
  }

  lemma UpdatePerJob(s: Store, edit: Job, now: Millis, id: string)
    requires UniqueIds(s.jobs) && s.disk == s.jobs
    ensures var updated := UpdateStore(s, edit, now);
            && UniqueIds(updated.jobs) && updated.disk == updated.jobs
            && Lookup(updated.jobs, id) ==
               if id == edit.id && Lookup(s.jobs, id).Some? then Some(edit.(updatedAt := now)) else Lookup(s.jobs, id)
  {
    var k := IndexOf(s.jobs, edit.id);
    if k < |s.jobs| {
      ReplacePerJob(s.jobs, k, edit.(updatedAt := now), id);
    }
  }

  lemma EnablePerJob(g: Gronx, s: Store, x: string, enabled: bool, now: Millis, id: string)
    requires UniqueIds(s.jobs) && s.disk == s.jobs
    ensures var switched := EnableStore(g, s, x, enabled, now);
            && UniqueIds(switched.jobs) && switched.disk == switched.jobs
            && Lookup(switched.jobs, id) ==
               if id == x && Lookup(s.jobs, id).Some?
               then Some(Switched(g, Lookup(s.jobs, id).value, enabled, now)) else Lookup(s.jobs, id)
  {
    var k := IndexOf(s.jobs, x);
    if k < |s.jobs| {
      ReplacePerJob(s.jobs, k, Switched(g, s.jobs[k], enabled, now), id);
    }
  }

  lemma StepChangesJob(g: Gronx, w: World, step: Step, id: string)
    requires Coherent(w) && Enabled(w, step)
    ensures UniqueIds(NextStore(g, w, step).jobs)
    ensures NextStore(g, w, step).disk == NextStore(g, w, step).jobs
    ensures Lookup(NextStore(g, w, step).jobs, id)
            == JobAfter(g, Lookup(w.store.jobs, id), w.clock, Classify(w, step, id))
  {
    if step.Start? || step.Collect? || step.End? {
      LoopChangesJob(g, w, step, id);
    } else if step.Update? || step.Enable? {
      EditChangesJob(g, w, step, id);
    } else if step.Remove? || step.Add? {
      MembershipPerJob(g, w, step, id);
    }
  }

  lemma LoopChangesJob(g: Gronx, w: World, step: Step, id: string)
    requires Coherent(w) && Enabled(w, step)
    requires step.Start? || step.Collect? || step.End?
    ensures UniqueIds(NextStore(g, w, step).jobs)
    ensures NextStore(g, w, step).disk == NextStore(g, w, step).jobs
    ensures Lookup(NextStore(g, w, step).jobs, id)
            == JobAfter(g, Lookup(w.store.jobs, id), w.clock, Classify(w, step, id))
  {
    if step.End? {
      FinishPerJob(g, w.store, w.runners[step.r].busy.value, step.error, w.clock, id);
    } else {
      RewritePerJob(g, w.store, w.clock, id);
    }
  }

  lemma EditChangesJob(g: Gronx, w: World, step: Step, id: string)
    requires Coherent(w) && Enabled(w, step)
    requires step.Update? || step.Enable?
    ensures UniqueIds(NextStore(g, w, step).jobs)
    ensures NextStore(g, w, step).disk == NextStore(g, w, step).jobs
    ensures Lookup(NextStore(g, w, step).jobs, id)
            == JobAfter(g, Lookup(w.store.jobs, id), w.clock, Classify(w, step, id))
  {
    if step.Update? {
      UpdatePerJob(w.store, step.job, w.clock, id);
    } else {
      EnablePerJob(g, w.store, step.id, step.enabled, w.clock, id);
    }
  }

  lemma MembershipPerJob(g: Gronx, w: World, step: Step, id: string)
    requires Coherent(w) && Enabled(w, step)
    requires step.Remove? || step.Add?
    ensures UniqueIds(NextStore(g, w, step).jobs)
    ensures NextStore(g, w, step).disk == NextStore(g, w, step).jobs
    ensures Lookup(NextStore(g, w, step).jobs, id)
            == JobAfter(g, Lookup(w.store.jobs, id), w.clock, Classify(w, step, id))
  {
    if step.Remove? {
      LookupWithout(w.store.jobs, step.id, id);
    } else {
      AppendPerJob(w.store.jobs, NewJob(g, step.id, step.name, step.schedule, step.payload, w.clock), id);
    }
  }

  lemma LoopsStayWellQueued(w: World, step: Step)
    requires Coherent(w) && Enabled(w, step)
    ensures forall runner <- NextRunners(w, step) :: WellQueued(runner)
  {
    var after := NextRunners(w, step);
    if step.Collect? {
      DueIdsAreDue(w.store.jobs, w.clock);
    }
    forall i | 0 <= i < |after| ensures WellQueued(after[i]) {
      if i < |w.runners| {
        assert w.runners[i] in w.runners;
      }
    }
  }

  lemma StepKeepsCoherent(g: Gronx, w: World, step: Step)
    requires Coherent(w) && Enabled(w, step)
    ensures Coherent(Next(g, w, step))
  {
    var w' := Next(g, w, step);
    forall id ensures UniqueIds(w'.store.jobs) && w'.store.disk == w'.store.jobs
                      && (Lookup(w'.store.jobs, id).Some? ==> id in w'.schedules)
    {
      StepChangesJob(g, w, step, id);
    }
    StepChangesJob(g, w, step, "");
    LoopsStayWellQueued(w, step);
  }

  // ---------- Histories and backlogs ----------

  lemma {:induction false} TimesAppend(a: seq<Event>, b: seq<Event>, id: string)
    ensures Times(a + b, id) == Times(a, id) + Times(b, id)
  {
    if b == [] {
      assert a + b == a;
    } else {
      assert (a + b)[..|a + b| - 1] == a + b[..|b| - 1];
      TimesAppend(a, b[..|b| - 1], id);
    }
  }

  lemma TimesOne(e: Event, id: string)
    ensures Times([e], id) == if e.id == id then [e.time] else []
  {
    assert [e][..0] == [];
  }

  lemma {:induction false} TimesStamp(ids: seq<string>, time: Millis, id: string)
    requires Distinct(ids)
    ensures Times(Stamp(ids, time), id) == if id in ids then [time] else []
    ensures multiset(ids)[id] == if id in ids then 1 else 0
  {
    if ids != [] {
      var n := |ids| - 1;
      var prefix := ids[..n];
      assert ids == prefix + [ids[n]];
      assert ids[n] !in prefix;
      TimesStamp(prefix, time, id);
      assert Stamp(ids, time)[..n] == Stamp(prefix, time);
      assert Stamp(ids, time)[n] == Event(ids[n], time);
    }
  }

  lemma {:induction false} WaitingReplace(runners: seq<Runner>, r: nat, x: Runner, id: string)
    requires r < |runners|
    ensures Waiting(runners[r := x], id) + multiset(runners[r].queue)[id]
            == Waiting(runners, id) + multiset(x.queue)[id]
  {
    var n := |runners| - 1;
    if r == n {
      assert runners[r := x][..n] == runners[..n];
    } else {
      assert runners[r := x][..n] == runners[..n][r := x];
      WaitingReplace(runners[..n], r, x, id);
    }
  }

  lemma {:induction false} ExecutingReplace(runners: seq<Runner>, r: nat, x: Runner, id: string)
    requires r < |runners|
    ensures Executing(runners[r := x], id) + (if IsRunning(runners[r], id) then 1 else 0)
            == Executing(runners, id) + (if IsRunning(x, id) then 1 else 0)
  {
    var n := |runners| - 1;
    if r == n {
      assert runners[r := x][..n] == runners[..n];
    } else {
      assert runners[r := x][..n] == runners[..n][r := x];
      ExecutingReplace(runners[..n], r, x, id);
    }
  }

  lemma StepMovesHistory(w: World, step: Step, id: string)
    requires Coherent(w) && Enabled(w, step)
    ensures var c := Classify(w, step, id);
            && Times(NextCollected(w, step), id)
               == Times(w.collected, id) + (if c == Collected then [w.clock] else [])
            && Times(NextFired(w, step), id) == Times(w.fired, id) + (if c == Fired then [w.clock] else [])
  {
    match step
    case Collect(r) =>
      var due := CollectStore(w.store, w.clock).1;
      DueIdsAreDue(w.store.jobs, w.clock);
      TimesAppend(w.collected, Stamp(due, w.clock), id);
      TimesStamp(due, w.clock, id);
    case Begin(r) =>
      var event := Event(w.runners[r].queue[0], w.clock);
      TimesAppend(w.fired, [event], id);
      TimesOne(event, id);
    case _ =>
  }

  predicate BacklogMoved(before: seq<Runner>, after: seq<Runner>, c: Change, id: string) {
    if c == Crashed then Waiting(after, id) == 0 && Executing(after, id) == 0 else
    && Waiting(after, id) + (if c == Fired || c == Missed then 1 else 0)
       == Waiting(before, id) + (if c == Collected then 1 else 0)
    && Executing(after, id) + (if c.Ended? then 1 else 0)
       == Executing(before, id) + (if c == Fired then 1 else 0)
  }

  lemma CollectMovesBacklog(w: World, step: Step, id: string)
    requires Coherent(w) && Enabled(w, step) && step.Collect?
    ensures BacklogMoved(w.runners, NextRunners(w, step), Classify(w, step, id), id)
  {
    var due := CollectStore(w.store, w.clock).1;
    DueIdsAreDue(w.store.jobs, w.clock);
    TimesStamp(due, w.clock, id);
    WaitingReplace(w.runners, step.r, Runner(due, None), id);
    ExecutingReplace(w.runners, step.r, Runner(due, None), id);
  }

  lemma BeginMovesBacklog(w: World, step: Step, id: string)
    requires Coherent(w) && Enabled(w, step) && step.Begin?
    ensures BacklogMoved(w.runners, NextRunners(w, step), Classify(w, step, id), id)
  {
    var queue := w.runners[step.r].queue;
    assert queue == [queue[0]] + queue[1..];
    var found := Lookup(w.store.jobs, queue[0]).Some?;
    var runner := Runner(queue[1..], if found then Some(Execution(queue[0], w.clock)) else None);
    WaitingReplace(w.runners, step.r, runner, id);
    ExecutingReplace(w.runners, step.r, runner, id);
  }

  lemma EndMovesBacklog(w: World, step: Step, id: string)
    requires Coherent(w) && Enabled(w, step) && step.End?
    ensures BacklogMoved(w.runners, NextRunners(w, step), Classify(w, step, id), id)
  {
    var runner := w.runners[step.r].(busy := None);
    WaitingReplace(w.runners, step.r, runner, id);
    ExecutingReplace(w.runners, step.r, runner, id);
  }

  lemma NewLoopIsIdle(runners: seq<Runner>, id: string)
    ensures Waiting(runners + [IDLE], id) == Waiting(runners, id)
    ensures Executing(runners + [IDLE], id) == Executing(runners, id)
  {
    assert (runners + [IDLE])[..|runners|] == runners;
  }

  lemma StepMovesBacklog(w: World, step: Step, id: string)
    requires Coherent(w) && Enabled(w, step)
    ensures BacklogMoved(w.runners, NextRunners(w, step), Classify(w, step, id), id)
  {
    match step
    case Collect(_) => CollectMovesBacklog(w, step, id);
    case Begin(_) => BeginMovesBacklog(w, step, id);
    case End(_, _) => EndMovesBacklog(w, step, id);
    case Start => NewLoopIsIdle(w.runners, id);
    case _ =>
  }

  lemma StepMovesClock(g: Gronx, w: World, step: Step, id: string)
    requires Coherent(w) && Enabled(w, step)
    ensures var c := Classify(w, step, id);
            && Next(g, w, step).clock == (if c.Ticked? then c.to else w.clock)
            && NextStore(g, w, step).running == (c == Restarted || (c != Stopped && c != Crashed && w.store.running))
            && (if c.Created? then id in Next(g, w, step).schedules && Next(g, w, step).schedules[id] == c.schedule
                else id in w.schedules <==> id in Next(g, w, step).schedules)
            && (!c.Created? && id in w.schedules ==> Next(g, w, step).schedules[id] == w.schedules[id])
  {
  }

  /** The interleaved machine, seen by any one job, is that job's own machine. */
  lemma StepProjects(g: Gronx, w: World, step: Step, id: string)
    requires Coherent(w) && Enabled(w, step)
    ensures Coherent(Next(g, w, step))
    ensures ViewOf(Next(g, w, step), id) == Apply(g, ViewOf(w, id), Classify(w, step, id))
  {
    StepKeepsCoherent(g, w, step);
    StepChangesJob(g, w, step, id);
    StepMovesHistory(w, step, id);
    StepMovesBacklog(w, step, id);
    StepMovesClock(g, w, step, id);
    Assemble(g, ViewOf(w, id), Classify(w, step, id), ViewOf(Next(g, w, step), id));
  }

  lemma Assemble(g: Gronx, v: View, c: Change, v': View)
    requires v'.job == JobAfter(g, v.job, v.clock, c)
    requires v'.collections == v.collections + (if c == Collected then [v.clock] else [])
    requires v'.firings == v.firings + (if c == Fired then [v.clock] else [])
    requires if c == Crashed then v'.waiting == 0 && v'.executing == 0 else
             && v'.waiting + (if c == Fired || c == Missed then 1 else 0) == v.waiting + (if c == Collected then 1 else 0)
             && v'.executing + (if c.Ended? then 1 else 0) == v.executing + (if c == Fired then 1 else 0)
    requires v'.clock == if c.Ticked? then c.to else v.clock
    requires v'.running == (c == Restarted || (c != Stopped && c != Crashed && v.running))
    requires v'.schedule == if c.Created? then Some(c.schedule) else v.schedule
    ensures v' == Apply(g, v, c)
  {
  }
}
