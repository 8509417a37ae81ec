/** Where the promises of the cron protocol end: the exact conditions, and runs that show each of them met. */
module CronLimits {
  import opened Prelude
  import opened CronService
  import opened CronProtocol
  import opened CronTheorems

  // ---------- Letting one loop work ----------

  /** The loop has collected the id and not yet finished its execution. */
  predicate Holds(runner: Runner, id: string) {
    id in runner.queue || IsRunning(runner, id)
  }

  /** Every step is one of this loop working off what it collected. */
  predicate LoopSteps(steps: seq<Step>, r: nat) {
    forall step <- steps :: (step.Begin? || step.End?) && step.r == r
  }

  lemma RunsCons(g: Gronx, w: World, step: Step, rest: seq<Step>)
    requires Enabled(w, step) && Runs(g, Next(g, w, step), rest)
    ensures Runs(g, w, [step] + rest) && After(g, w, [step] + rest) == After(g, Next(g, w, step), rest)
  {
    assert ([step] + rest)[1..] == rest;
  }

  lemma RunsThen(g: Gronx, w: World, steps: seq<Step>, step: Step)
    requires Runs(g, w, steps) && Enabled(After(g, w, steps), step)
    ensures Runs(g, w, steps + [step]) && After(g, w, steps + [step]) == Next(g, After(g, w, steps), step)
  {
    RunsCons(g, After(g, w, steps), step, []);
    RunsAppend(g, w, steps, [step]);
  }

  predicate NoUpdates(steps: seq<Step>) {
    forall step <- steps :: !step.Update?
  }

  lemma {:induction false} RunsAppend(g: Gronx, w: World, a: seq<Step>, b: seq<Step>)
    requires Runs(g, w, a) && Runs(g, After(g, w, a), b)
    ensures Runs(g, w, a + b) && After(g, w, a + b) == After(g, After(g, w, a), b)
    decreases a
  {
    if a == [] {
      assert a + b == b;
    } else {
      RunsAppend(g, Next(g, w, a[0]), a[1..], b);
      assert (a + b)[1..] == a[1..] + b;
    }
  }

  lemma {:induction false} WithoutUpdatesIsGentle(g: Gronx, w: World, steps: seq<Step>)
    requires Runs(g, w, steps) && NoUpdates(steps)
    ensures GentleRun(g, w, steps)
    decreases steps
  {
    if steps != [] {
      assert steps[0] in steps && forall step <- steps[1..] :: step in steps;
      WithoutUpdatesIsGentle(g, Next(g, w, steps[0]), steps[1..]);
    }
  }

  /** No other loop has changed. */
  predicate OthersKept(w: World, w': World, r: nat) {
    |w'.runners| == |w.runners| && forall i :: 0 <= i < |w.runners| && i != r ==> w'.runners[i] == w.runners[i]
  }

  /** A loop can work off the first `k` ids it has queued; a job that is not among them sees nothing of it. */
  lemma {:induction false} Work(g: Gronx, w: World, r: nat, k: nat, id: string) returns (steps: seq<Step>)
    requires Coherent(w) && r < |w.runners| && k <= |w.runners[r].queue|
    requires !IsRunning(w.runners[r], id) && forall i :: 0 <= i < k ==> w.runners[r].queue[i] != id
    ensures Runs(g, w, steps) && LoopSteps(steps, r)
    ensures var w' := After(g, w, steps);
            && Coherent(w') && ViewOf(w', id) == ViewOf(w, id)
            && OthersKept(w, w', r) && w'.runners[r] == Runner(w.runners[r].queue[k..], None)
    decreases k, w.runners[r].busy.Some?, 0
  {
    var queue := w.runners[r].queue;
    if w.runners[r].busy.Some? {
      steps := WorkOn(g, w, End(r, None), r, k, id);
    } else if k > 0 {
      assert queue[1..][k - 1..] == queue[k..];
      steps := WorkOn(g, w, Begin(r), r, k - 1, id);
    } else {
      steps := [];
    }
  }

  lemma {:induction false} WorkOn(g: Gronx, w: World, step: Step, r: nat, k: nat, id: string) returns (steps: seq<Step>)
    requires Coherent(w) && Enabled(w, step) && (step.Begin? || step.End?) && step.r == r
    requires Classify(w, step, id) == Unchanged
    requires var runner := NextRunners(w, step)[r];
             && k <= |runner.queue| && !IsRunning(runner, id) && forall i :: 0 <= i < k ==> runner.queue[i] != id
    ensures Runs(g, w, steps) && LoopSteps(steps, r)
    ensures var w' := After(g, w, steps);
            && Coherent(w') && ViewOf(w', id) == ViewOf(w, id)
            && OthersKept(w, w', r) && w'.runners[r] == Runner(NextRunners(w, step)[r].queue[k..], None)
    decreases k, NextRunners(w, step)[r].busy.Some?, 1
  {
    StepProjects(g, w, step, id);
    var rest := Work(g, Next(g, w, step), r, k, id);
    RunsCons(g, w, step, rest);
    steps := [step] + rest;
  }

  /** The loop has begun the job's callback, with nothing else changed for it or for other loops. */
  predicate FiredBy(w: World, w': World, r: nat, id: string) {
    && Times(w'.fired, id) == Times(w.fired, id) + [w.clock] && Times(w'.collected, id) == Times(w.collected, id)
    && w'.clock == w.clock && Lookup(w'.store.jobs, id) == Lookup(w.store.jobs, id)
    && OthersKept(w, w', r) && r < |w'.runners| && IsRunning(w'.runners[r], id)
  }

  lemma BeginFires(g: Gronx, w: World, r: nat, id: string)
    requires Coherent(w) && Enabled(w, Begin(r)) && w.runners[r].queue[0] == id && Lookup(w.store.jobs, id).Some?
    ensures var w' := Next(g, w, Begin(r)); Coherent(w') && FiredBy(w, w', r, id)
  {
    StepProjects(g, w, Begin(r), id);
  }

  lemma FiredByLater(w: World, ready: World, w': World, r: nat, id: string)
    requires SeenAlike(w, ready, id) && OthersKept(w, ready, r) && FiredBy(ready, w', r, id)
    ensures FiredBy(w, w', r, id)
  {
  }

  /** A queued job that is still stored comes to be executed. */
  lemma QueuedJobFires(g: Gronx, w: World, r: nat, id: string) returns (steps: seq<Step>)
    requires Coherent(w) && r < |w.runners| && id in w.runners[r].queue && Lookup(w.store.jobs, id).Some?
    ensures Runs(g, w, steps) && LoopSteps(steps, r)
    ensures var w' := After(g, w, steps); Coherent(w') && FiredBy(w, w', r, id)
  {
    assert w.runners[r] in w.runners;
    var k :| 0 <= k < |w.runners[r].queue| && w.runners[r].queue[k] == id;
    var before := Work(g, w, r, k, id);
    var ready := After(g, w, before);
    SameView(ready, w, id);
    BeginFires(g, ready, r, id);
    RunsThen(g, w, before, Begin(r));
    steps := before + [Begin(r)];
    FiredByLater(w, ready, After(g, w, steps), r, id);
  }

  /** A job queued by two loops fires twice. */
  lemma QueuedTwiceFiresTwice(g: Gronx, w: World, r: nat, other: nat, id: string) returns (steps: seq<Step>)
    requires Coherent(w) && Lookup(w.store.jobs, id).Some? && r != other
    requires r < |w.runners| && id in w.runners[r].queue && other < |w.runners| && id in w.runners[other].queue
    ensures Runs(g, w, steps) && NoUpdates(steps)
    ensures var w' := After(g, w, steps);
            && Times(w'.fired, id) == Times(w.fired, id) + [w.clock] + [w.clock]
            && Times(w'.collected, id) == Times(w.collected, id)
  {
    var first := QueuedJobFires(g, w, r, id);
    var second := QueuedJobFires(g, After(g, w, first), other, id);
    RunsAppend(g, w, first, second);
    steps := first + second;
  }

  /** What two worlds agree on when one job sees them alike. */
  predicate SeenAlike(w: World, w': World, id: string) {
    && w.store.running == w'.store.running && w.clock == w'.clock
    && Lookup(w.store.jobs, id) == Lookup(w'.store.jobs, id)
    && Times(w.collected, id) == Times(w'.collected, id) && Times(w.fired, id) == Times(w'.fired, id)
  }

  lemma SameView(w: World, w': World, id: string)
    requires ViewOf(w, id) == ViewOf(w', id)
    ensures SeenAlike(w, w', id) && SeenAlike(w', w, id)
  {
  }

  lemma {:induction false} WaitingSomewhere(runners: seq<Runner>, id: string) returns (r: nat)
    requires Waiting(runners, id) > 0
    ensures r < |runners| && id in runners[r].queue
  {
    var n := |runners| - 1;
    if id in runners[n].queue {
      r := n;
    } else {
      assert id !in multiset(runners[n].queue);
      r := WaitingSomewhere(runners[..n], id);
    }
  }

  lemma {:induction false} ExecutingSomewhere(runners: seq<Runner>, id: string) returns (r: nat)
    requires Executing(runners, id) > 0
    ensures r < |runners| && IsRunning(runners[r], id)
  {
    var n := |runners| - 1;
    if IsRunning(runners[n], id) {
      r := n;
    } else {
      r := ExecutingSomewhere(runners[..n], id);
    }
  }

  // ---------- Disabling a job that has been collected ----------

  predicate NobodyReenables(steps: seq<Step>, id: string) {
    forall step <- steps :: !Reenables(step, id)
  }

  predicate RunsSwitchedOff(g: Gronx, w: World, steps: seq<Step>, id: string) {
    Runs(g, w, steps) && NobodyReenables(steps, id)
  }

  predicate OffAndNotQueued(v: View) {
    SwitchedOff(v) && v.waiting == 0
  }

  lemma ChangeKeepsOffAndNotQueued(g: Gronx, v: View, c: Change)
    requires Allowed(v, c) && OffAndNotQueued(v) && c != Toggled(true) && (c.Edited? ==> !c.edit.enabled)
    ensures OffAndNotQueued(Apply(g, v, c)) && Apply(g, v, c).firings == v.firings
  {
  }

  lemma {:induction false} NotQueuedNeverFires(g: Gronx, w: World, steps: seq<Step>, id: string)
    requires Coherent(w) && RunsSwitchedOff(g, w, steps, id) && OffAndNotQueued(ViewOf(w, id))
    ensures Times(After(g, w, steps).fired, id) == Times(w.fired, id)
    decreases steps
  {
    if steps != [] {
      assert steps[0] in steps && forall step <- steps[1..] :: step in steps;
      StepProjects(g, w, steps[0], id);
      StepIsAllowed(w, steps[0], id);
      ChangeKeepsOffAndNotQueued(g, ViewOf(w, id), Classify(w, steps[0], id));
      NotQueuedNeverFires(g, Next(g, w, steps[0]), steps[1..], id);
    }
  }

  /**
    * A job that is switched off, and that nobody switches on again, never fires in any continuation if and
    * only if no loop has it queued: disabling does not recall a job once collected.
    */
  lemma DisabledJobStaysSilentIff(g: Gronx, w: World, id: string)
    requires Coherent(w) && Lookup(w.store.jobs, id).Some? && !Lookup(w.store.jobs, id).value.enabled
    ensures (forall steps :: RunsSwitchedOff(g, w, steps, id) ==> Times(After(g, w, steps).fired, id) == Times(w.fired, id))
            <==> Waiting(w.runners, id) == 0
  {
    if Waiting(w.runners, id) == 0 {
      forall steps | RunsSwitchedOff(g, w, steps, id)
        ensures Times(After(g, w, steps).fired, id) == Times(w.fired, id)
      {
        NotQueuedNeverFires(g, w, steps, id);
      }
    } else {
      var r := WaitingSomewhere(w.runners, id);
      var steps := QueuedJobFires(g, w, r, id);
      assert RunsSwitchedOff(g, w, steps, id);
      assert |Times(After(g, w, steps).fired, id)| == |Times(w.fired, id)| + 1;
    }
  }

  predicate GentleSwitchedOff(g: Gronx, w: World, steps: seq<Step>, id: string) {
    RunsSwitchedOff(g, w, steps, id) && GentleRun(g, w, steps)
  }

  predicate Unscheduled(w: World, id: string) {
    var stored := Lookup(w.store.jobs, id);
    stored.Some? ==> !stored.value.enabled && stored.value.next.None?
  }

  predicate Retired(v: View) {
    && v.schedule.Some? && v.waiting == 0 && v.executing == 0
    && (v.job.Some? ==> !v.job.value.enabled && v.job.value.next.None?)
  }

  lemma ChangeKeepsRetired(g: Gronx, v: View, c: Change)
    requires Allowed(v, c) && GentleChange(v, c) && Retired(v) && c != Toggled(true)
    ensures Retired(Apply(g, v, c))
  {
  }

  lemma {:induction false} RetiredStaysUnscheduled(g: Gronx, w: World, steps: seq<Step>, id: string)
    requires Coherent(w) && GentleSwitchedOff(g, w, steps, id) && Retired(ViewOf(w, id))
    ensures Unscheduled(After(g, w, steps), id)
    decreases steps
  {
    if steps != [] {
      assert steps[0] in steps && forall step <- steps[1..] :: step in steps;
      StepProjects(g, w, steps[0], id);
      StepIsAllowed(w, steps[0], id);
      ChangeKeepsRetired(g, ViewOf(w, id), Classify(w, steps[0], id));
      RetiredStaysUnscheduled(g, Next(g, w, steps[0]), steps[1..], id);
    }
  }

  /** The end of an execution schedules a repeating job, switched off or not. */
  lemma EndReschedules(g: Gronx, w: World, r: nat, id: string)
    requires Coherent(w) && r < |w.runners| && IsRunning(w.runners[r], id)
    requires Lookup(w.store.jobs, id).Some? && PositiveInterval(Lookup(w.store.jobs, id).value.schedule)
    ensures !Unscheduled(Next(g, w, End(r, None)), id)
  {
    StepChangesJob(g, w, End(r, None), id);
  }

  lemma LoopStepsSwitchNothing(g: Gronx, w: World, steps: seq<Step>, r: nat, id: string)
    requires Runs(g, w, steps) && LoopSteps(steps, r)
    ensures GentleSwitchedOff(g, w, steps, id)
  {
    WithoutUpdatesIsGentle(g, w, steps);
  }

  lemma BusyJobIsRescheduled(g: Gronx, w: World, id: string) returns (steps: seq<Step>)
    requires Coherent(w) && Lookup(w.store.jobs, id).Some?
    requires PositiveInterval(Lookup(w.store.jobs, id).value.schedule)
    requires Waiting(w.runners, id) + Executing(w.runners, id) > 0
    ensures GentleSwitchedOff(g, w, steps, id) && !Unscheduled(After(g, w, steps), id)
  {
    var r: nat, before: seq<Step> := 0, [];
    if Executing(w.runners, id) > 0 {
      r := ExecutingSomewhere(w.runners, id);
    } else {
      r := WaitingSomewhere(w.runners, id);
      before := QueuedJobFires(g, w, r, id);
    }
    EndReschedules(g, After(g, w, before), r, id);
    RunsThen(g, w, before, End(r, None));
    steps := before + [End(r, None)];
    LoopStepsSwitchNothing(g, w, steps, r, id);
  }

  /**
    * A repeating job that is switched off with no next run stays so in every continuation without new
    * schedules if and only if no loop has it queued or is running it: the end of a run writes a next run.
    */
  lemma DisabledJobStaysUnscheduledIff(g: Gronx, w: World, id: string)
    requires Coherent(w) && Lookup(w.store.jobs, id).Some? && Unscheduled(w, id)
    requires PositiveInterval(Lookup(w.store.jobs, id).value.schedule)
    ensures (forall steps :: GentleSwitchedOff(g, w, steps, id) ==> Unscheduled(After(g, w, steps), id))
            <==> Waiting(w.runners, id) + Executing(w.runners, id) == 0
  {
    if Waiting(w.runners, id) + Executing(w.runners, id) == 0 {
      forall steps | GentleSwitchedOff(g, w, steps, id) ensures Unscheduled(After(g, w, steps), id) {
        RetiredStaysUnscheduled(g, w, steps, id);
      }
    } else {
      var steps := BusyJobIsRescheduled(g, w, id);
    }
  }

  // ---------- Overwriting a job that has been collected ----------

  /** The machine right after UpdateJob wrote `edit`, which may be a copy read long before. */
  function Overwritten(g: Gronx, w: World, edit: Job): World {
    Next(g, w, Update(edit))
  }

  predicate GentleRuns(g: Gronx, w: World, steps: seq<Step>) {
    Runs(g, w, steps) && GentleRun(g, w, steps)
  }

  /** A one-shot job that has been collected once, whatever its record now says. */
  predicate Spent(v: View) {
    && FiresAreCollected(v) && ScheduleKept(v) && Spaced(v) && NotStranded(v)
    && v.schedule.Some? && v.schedule.value.kind == At && |v.collections| == 1
    && v.schedule.value.at.Some? && v.schedule.value.at.value <= v.clock
    && forall t <- v.firings :: v.schedule.value.at.value <= t
  }

  /** The record would be collected when its time comes. */
  predicate Live(v: View) {
    v.job.Some? && v.job.value.enabled && v.job.value.next.Some?
  }

  /** No loop of a running service is free of the id. */
  predicate KeptAway(w: World, id: string) {
    w.store.running ==> forall runner <- w.runners :: Holds(runner, id)
  }

  lemma ChangeKeepsSpent(g: Gronx, v: View, c: Change)
    requires Spent(v) && Allowed(v, c) && GentleChange(v, c) && c != Collected
    ensures Spent(Apply(g, v, c))
    ensures Live(Apply(g, v, c)) ==> Live(v)
    ensures Live(Apply(g, v, c)) ==> c != Restarted && c != Dropped && !c.Ended? && !c.Toggled?
  {
  }

  /** While it is live and kept away, a spent job cannot be collected; whatever frees a loop ends its life. */
  lemma StepKeepsAway(g: Gronx, w: World, step: Step, id: string)
    requires Coherent(w) && Enabled(w, step) && Gentle(w, step)
    requires Spent(ViewOf(w, id)) && Live(ViewOf(w, id)) && KeptAway(w, id)
    ensures var w' := Next(g, w, step);
            && Coherent(w') && Spent(ViewOf(w', id))
            && (Live(ViewOf(w', id)) ==> KeptAway(w', id))
  {
    var c := Classify(w, step, id);
    StepProjects(g, w, step, id);
    StepIsAllowed(w, step, id);
    if step.Collect? {
      assert w.runners[step.r] in w.runners;
    }
    ChangeKeepsSpent(g, ViewOf(w, id), c);
    if Live(ViewOf(Next(g, w, step), id)) {
      LiveStaysAway(g, w, step, id);
    }
  }

  lemma LiveStaysAway(g: Gronx, w: World, step: Step, id: string)
    requires Coherent(w) && Enabled(w, step) && KeptAway(w, id) && Lookup(w.store.jobs, id).Some?
    requires var c := Classify(w, step, id); c != Restarted && !c.Ended?
    ensures KeptAway(Next(g, w, step), id)
  {
    var after := NextRunners(w, step);
    if w.store.running && Next(g, w, step).store.running {
      forall i | 0 <= i < |after| ensures Holds(after[i], id) {
        assert w.runners[i] in w.runners;
      }
    }
  }

  lemma {:induction false} KeptAwayIsCollectedOnce(g: Gronx, w: World, steps: seq<Step>, id: string)
    requires Coherent(w) && GentleRuns(g, w, steps) && Spent(ViewOf(w, id))
    requires Live(ViewOf(w, id)) ==> KeptAway(w, id)
    ensures |Times(After(g, w, steps).fired, id)| <= |Times(After(g, w, steps).collected, id)| <= 1
    decreases steps
  {
    if !Live(ViewOf(w, id)) {
      RunKeepsInvariant(g, w, steps, id);
    } else if steps != [] {
      StepKeepsAway(g, w, steps[0], id);
      KeptAwayIsCollectedOnce(g, Next(g, w, steps[0]), steps[1..], id);
    }
  }

  /** The loop has collected the id once more, with nothing else changed for it or for other loops. */
  predicate CollectedBy(w: World, w': World, r: nat, id: string) {
    && |Times(w'.collected, id)| == |Times(w.collected, id)| + 1 && Times(w'.fired, id) == Times(w.fired, id)
    && Lookup(w'.store.jobs, id).Some?
    && OthersKept(w, w', r) && r < |w'.runners| && id in w'.runners[r].queue
  }

  /** An idle loop of a running service waits for a live job's time and collects it. */
  lemma IdleLoopCollects(g: Gronx, w: World, r: nat, id: string) returns (steps: seq<Step>)
    requires Coherent(w) && Live(ViewOf(w, id)) && w.store.running
    requires r < |w.runners| && w.runners[r] == IDLE
    ensures Runs(g, w, steps) && NoUpdates(steps)
    ensures var w' := After(g, w, steps); Coherent(w') && CollectedBy(w, w', r, id)
  {
    var at := Lookup(w.store.jobs, id).value.next.value;
    var tick := Tick(if at > w.clock then at else w.clock);
    StepProjects(g, w, tick, id);
    CollectingDueJob(g, Next(g, w, tick), r, id);
    RunsCons(g, Next(g, w, tick), Collect(r), []);
    RunsCons(g, w, tick, [Collect(r)]);
    steps := [tick] + [Collect(r)];
  }

  lemma CollectedByLater(w: World, idle: World, w': World, r: nat, id: string)
    requires SeenAlike(w, idle, id) && OthersKept(w, idle, r) && CollectedBy(idle, w', r, id)
    ensures CollectedBy(w, w', r, id)
  {
  }

  /** A loop that does not hold a live job can work off what it has and then collect it. */
  lemma FreeLoopCollects(g: Gronx, w: World, r: nat, id: string) returns (steps: seq<Step>)
    requires Coherent(w) && Live(ViewOf(w, id)) && w.store.running
    requires r < |w.runners| && !Holds(w.runners[r], id)
    ensures Runs(g, w, steps) && NoUpdates(steps)
    ensures var w' := After(g, w, steps); Coherent(w') && CollectedBy(w, w', r, id)
  {
    var work := Work(g, w, r, |w.runners[r].queue|, id);
    var idle := After(g, w, work);
    SameView(idle, w, id);
    var collect := IdleLoopCollects(g, idle, r, id);
    RunsAppend(g, w, work, collect);
    steps := work + collect;
    CollectedByLater(w, idle, After(g, w, steps), r, id);
  }

  lemma CollectingDueJob(g: Gronx, w: World, r: nat, id: string)
    requires Coherent(w) && w.store.running && r < |w.runners| && w.runners[r] == IDLE
    requires Lookup(w.store.jobs, id).Some? && Due(Lookup(w.store.jobs, id).value, w.clock)
    ensures Enabled(w, Collect(r))
    ensures var w' := Next(g, w, Collect(r)); Coherent(w') && CollectedBy(w, w', r, id)
  {
    CollectedForJob(g, w, r, id);
    DueJobIsQueued(w, r, id);
  }

  lemma CollectedForJob(g: Gronx, w: World, r: nat, id: string)
    requires Coherent(w) && w.store.running && Enabled(w, Collect(r))
    requires Lookup(w.store.jobs, id).Some? && Due(Lookup(w.store.jobs, id).value, w.clock)
    ensures var w' := Next(g, w, Collect(r));
            && Coherent(w') && Lookup(w'.store.jobs, id).Some?
            && |Times(w'.collected, id)| == |Times(w.collected, id)| + 1 && Times(w'.fired, id) == Times(w.fired, id)
  {
    StepProjects(g, w, Collect(r), id);
    CollectedView(g, w, Next(g, w, Collect(r)), id);
  }

  lemma CollectedView(g: Gronx, w: World, w': World, id: string)
    requires Lookup(w.store.jobs, id).Some? && ViewOf(w', id) == Apply(g, ViewOf(w, id), Collected)
    ensures Lookup(w'.store.jobs, id).Some?
    ensures |Times(w'.collected, id)| == |Times(w.collected, id)| + 1 && Times(w'.fired, id) == Times(w.fired, id)
  {
  }

  lemma DueJobIsQueued(w: World, r: nat, id: string)
    requires Coherent(w) && w.store.running && Enabled(w, Collect(r))
    requires Lookup(w.store.jobs, id).Some? && Due(Lookup(w.store.jobs, id).value, w.clock)
    ensures var after := NextRunners(w, Collect(r));
            && |after| == |w.runners| && id in after[r].queue
            && forall i :: 0 <= i < |after| && i != r ==> after[i] == w.runners[i]
  {
    DueIdsAreDue(w.store.jobs, w.clock);
  }

  lemma OverwritingKeepsSpent(g: Gronx, v: View, edit: Job)
    requires Invariant(v) && v.job.Some? && v.job.value.schedule.kind == At && |v.collections| == 1
    requires edit.schedule == v.job.value.schedule
    ensures Spent(Apply(g, v, Edited(edit)))
    ensures Live(Apply(g, v, Edited(edit))) <==> edit.enabled && edit.next.Some?
  {
  }

  /** The record written back is live, and some loop of a running service is free to collect it. */
  predicate Refires(w: World, edit: Job) {
    && edit.enabled && edit.next.Some?
    && w.store.running && exists runner <- w.runners :: !Holds(runner, edit.id)
  }

  lemma OverwritingKeepsLoops(g: Gronx, w: World, edit: Job)
    requires Coherent(w) && Lookup(w.store.jobs, edit.id).Some? && edit.enabled && edit.next.Some?
    ensures var w', id := Overwritten(g, w, edit), edit.id;
            && Coherent(w') && Live(ViewOf(w', id)) && w'.runners == w.runners && w'.store.running == w.store.running
            && w'.collected == w.collected && w'.fired == w.fired
  {
    StepProjects(g, w, Update(edit), edit.id);
  }

  lemma RefiringLoopCollects(g: Gronx, w: World, edit: Job, r: nat) returns (more: seq<Step>)
    requires Coherent(w) && w.store.running && r < |w.runners| && !Holds(w.runners[r], edit.id)
    requires Lookup(w.store.jobs, edit.id).Some? && edit.enabled && edit.next.Some?
    ensures GentleRuns(g, Overwritten(g, w, edit), more) && NoUpdates(more)
    ensures var w' := After(g, Overwritten(g, w, edit), more); Coherent(w') && CollectedBy(w, w', r, edit.id)
  {
    OverwritingKeepsLoops(g, w, edit);
    more := FreeLoopCollects(g, Overwritten(g, w, edit), r, edit.id);
    WithoutUpdatesIsGentle(g, Overwritten(g, w, edit), more);
  }

  /**
    * UpdateJob writes the whole record, next run included. After it overwrites a one-shot job that has been
    * collected, leaving the schedule, the job stays collected at most once in every continuation unless the
    * written record is switched on with a next run, the service runs, and some loop neither has the job queued
    * nor is executing it. A caller that edits a copy taken before the collection meets the first condition. A
    * loop from before a stop counts as free: with a tick and the stop both pending its select may take the tick,
    * and its check then finds the service started again.
    */
  lemma StaleUpdateRecollectsIff(g: Gronx, w: World, edit: Job)
    requires CollectedOnce(w, edit)
    ensures (forall steps :: GentleRuns(g, Overwritten(g, w, edit), steps) ==>
               |Times(After(g, Overwritten(g, w, edit), steps).collected, edit.id)| <= 1)
            <==> !Refires(w, edit)
  {
    var w', id := Overwritten(g, w, edit), edit.id;
    StepProjects(g, w, Update(edit), id);
    OverwritingKeepsSpent(g, ViewOf(w, id), edit);
    if Refires(w, edit) {
      var r :| 0 <= r < |w.runners| && !Holds(w.runners[r], id);
      var steps := RefiringLoopCollects(g, w, edit, r);
    } else {
      forall steps | GentleRuns(g, w', steps)
        ensures |Times(After(g, w', steps).collected, id)| <= 1
      {
        KeptAwayIsCollectedOnce(g, w', steps, id);
      }
    }
  }

  /** A one-shot job that has been collected once, and a record that keeps its schedule. */
  ghost predicate CollectedOnce(w: World, edit: Job) {
    var stored := Lookup(w.store.jobs, edit.id);
    && Coherent(w) && Invariant(ViewOf(w, edit.id)) && |Times(w.collected, edit.id)| == 1
    && stored.Some? && stored.value.schedule.kind == At && edit.schedule == stored.value.schedule
  }

  // ---------- Firing twice ----------

  /** A collection that never led to a firing, and no longer can: the process ended before. */
  predicate Lost(v: View) {
    && v.schedule.Some? && v.schedule.value.kind == At && ScheduleKept(v) && 0 <= v.waiting
    && v.schedule.value.at.Some? && v.schedule.value.at.value <= v.clock
    && 1 <= |v.collections| <= 2 && |v.firings| + v.waiting <= |v.collections| - 1
    && (Live(v) ==> |v.collections| == 1)
  }

  lemma ChangeKeepsLost(g: Gronx, v: View, c: Change)
    requires Lost(v) && Allowed(v, c) && GentleChange(v, c)
    ensures Lost(Apply(g, v, c))
  {
  }

  lemma {:induction false} LostFiresOnce(g: Gronx, w: World, steps: seq<Step>, id: string)
    requires Coherent(w) && GentleRuns(g, w, steps) && Lost(ViewOf(w, id))
    ensures |Times(After(g, w, steps).fired, id)| <= 1
    decreases steps
  {
    if steps != [] {
      StepProjects(g, w, steps[0], id);
      StepIsAllowed(w, steps[0], id);
      ChangeKeepsLost(g, ViewOf(w, id), Classify(w, steps[0], id));
      LostFiresOnce(g, Next(g, w, steps[0]), steps[1..], id);
    }
  }

  /** The one collection so far was neither fired nor is it queued any more. */
  predicate CollectionLost(w: World, id: string) {
    Times(w.fired, id) == [] && Waiting(w.runners, id) == 0
  }

  /** The free loop collects and begins the job; a loop that still has it queued then begins it too. */
  lemma RefiringLoopFiresTwice(g: Gronx, w: World, edit: Job, r: nat) returns (more: seq<Step>)
    requires Coherent(w) && w.store.running && r < |w.runners| && !Holds(w.runners[r], edit.id)
    requires Lookup(w.store.jobs, edit.id).Some? && edit.enabled && edit.next.Some?
    requires !CollectionLost(w, edit.id)
    ensures GentleRuns(g, Overwritten(g, w, edit), more)
    ensures var w' := After(g, Overwritten(g, w, edit), more);
            |Times(w'.fired, edit.id)| >= 2 && |Times(w'.collected, edit.id)| == |Times(w.collected, edit.id)| + 1
  {
    var w1, id := Overwritten(g, w, edit), edit.id;
    var first := RefiringLoopCollects(g, w, edit, r);
    var w2 := After(g, w1, first);
    var rest: seq<Step>;
    if Times(w.fired, id) == [] {
      var other := WaitingSomewhere(w.runners, id);
      rest := QueuedTwiceFiresTwice(g, w2, r, other, id);
    } else {
      rest := QueuedJobFires(g, w2, r, id);
    }
    RunsAppend(g, w1, first, rest);
    more := first + rest;
    WithoutUpdatesIsGentle(g, w1, more);
  }

  lemma OverwrittenIsLost(g: Gronx, v: View, edit: Job)
    requires Invariant(v) && v.job.Some? && v.job.value.schedule.kind == At && |v.collections| == 1
    requires edit.schedule == v.job.value.schedule && v.firings == [] && v.waiting == 0
    ensures Lost(Apply(g, v, Edited(edit)))
  {
  }

  /**
    * The promise that a one-shot job fires at most once survives such an overwrite in every continuation if and
    * only if the record cannot be collected again, or the first collection was lost with its process.
    */
  lemma StaleUpdateFiresOnceIff(g: Gronx, w: World, edit: Job)
    requires CollectedOnce(w, edit)
    ensures (forall steps :: GentleRuns(g, Overwritten(g, w, edit), steps) ==>
               |Times(After(g, Overwritten(g, w, edit), steps).fired, edit.id)| <= 1)
            <==> !Refires(w, edit) || CollectionLost(w, edit.id)
  {
    var w', id := Overwritten(g, w, edit), edit.id;
    StepProjects(g, w, Update(edit), id);
    OverwritingKeepsSpent(g, ViewOf(w, id), edit);
    if !Refires(w, edit) {
      forall steps | GentleRuns(g, w', steps) ensures |Times(After(g, w', steps).fired, id)| <= 1 {
        KeptAwayIsCollectedOnce(g, w', steps, id);
      }
    } else if CollectionLost(w, id) {
      OverwrittenIsLost(g, ViewOf(w, id), edit);
      forall steps | GentleRuns(g, w', steps) ensures |Times(After(g, w', steps).fired, id)| <= 1 {
        LostFiresOnce(g, w', steps, id);
      }
    } else {
      var r :| 0 <= r < |w.runners| && !Holds(w.runners[r], id);
      var steps := RefiringLoopFiresTwice(g, w, edit, r);
    }
  }

  // ---------- Runs from an empty store that meet the conditions ----------

  const AT_FIVE := Schedule(At, Some(5), None, "")
  const EVERY_FIVE := Schedule(Every, None, Some(5), "")

  /** The world of a running service that holds the first job only. */
  function FirstAdded(g: Gronx, schedule: Schedule, clock: Millis): World {
    var job := NewJob(g, "a", "", schedule, "", 0);
    World(Saved([job], true), clock, [IDLE], map["a" := schedule], [], [])
  }

  /** The world right after the first job of an empty store has been collected at time five. */
  function FirstCollected(g: Gronx, schedule: Schedule): World {
    var job := NewJob(g, "a", "", schedule, "", 0).(next := None);
    World(Saved([job], true), 5, [Runner(["a"], None)], map["a" := schedule], [Event("a", 5)], [])
  }

  lemma BlankIsInitial()
    ensures Initial(BLANK)
  {
  }

  lemma Extended(g: Gronx, steps: seq<Step>, w: World, step: Step, w': World) returns (steps': seq<Step>)
    requires Runs(g, BLANK, steps) && After(g, BLANK, steps) == w && Enabled(w, step) && Next(g, w, step) == w'
    ensures steps' == steps + [step] && Runs(g, BLANK, steps') && After(g, BLANK, steps') == w'
  {
    RunsThen(g, BLANK, steps, step);
    steps' := steps + [step];
  }

  lemma CollectingFirst(g: Gronx, schedule: Schedule)
    requires schedule == AT_FIVE || schedule == EVERY_FIVE
    ensures Next(g, FirstAdded(g, schedule, 5), Collect(0)) == FirstCollected(g, schedule)
  {
    var job := NewJob(g, "a", "", schedule, "", 0);
    assert [job][..0] == [];
    assert DueIds([job], 5) == ["a"];
    assert ClearAll([job], {"a"}) == [job.(next := None)];
    assert (set id | id in ["a"]) == {"a"};
    assert Stamp(["a"], 5) == [Event("a", 5)];
  }

  lemma ReachingAddition(g: Gronx, schedule: Schedule) returns (steps: seq<Step>)
    ensures Runs(g, BLANK, steps) && After(g, BLANK, steps) == FirstAdded(g, schedule, 0)
    ensures forall step <- steps :: !step.Update?
  {
    var started := World(Saved([], true), 0, [IDLE], map[], [], []);
    steps := Extended(g, [], BLANK, Start, started);
    steps := Extended(g, steps, started, Add("a", "", schedule, ""), FirstAdded(g, schedule, 0));
  }

  lemma ReachingCollection(g: Gronx, schedule: Schedule) returns (steps: seq<Step>)
    requires schedule == AT_FIVE || schedule == EVERY_FIVE
    ensures Runs(g, BLANK, steps) && After(g, BLANK, steps) == FirstCollected(g, schedule)
    ensures forall step <- steps :: !step.Update?
  {
    steps := ReachingAddition(g, schedule);
    steps := Extended(g, steps, FirstAdded(g, schedule, 0), Tick(5), FirstAdded(g, schedule, 5));
    CollectingFirst(g, schedule);
    steps := Extended(g, steps, FirstAdded(g, schedule, 5), Collect(0), FirstCollected(g, schedule));
  }

  /** A repeating job, disabled between its collection and its execution. */
  lemma DisabledWhileQueued(g: Gronx) returns (steps: seq<Step>)
    ensures Initial(BLANK) && Runs(g, BLANK, steps) && GentleRun(g, BLANK, steps)
    ensures var w := After(g, BLANK, steps);
            && Coherent(w) && Lookup(w.store.jobs, "a").Some? && Unscheduled(w, "a")
            && PositiveInterval(Lookup(w.store.jobs, "a").value.schedule)
            && Waiting(w.runners, "a") > 0
  {
    var w := FirstCollected(g, EVERY_FIVE);
    steps := ReachingCollection(g, EVERY_FIVE);
    BlankIsInitial();
    InitialInvariant(BLANK, "a");
    steps := Extended(g, steps, w, Enable("a", false), Next(g, w, Enable("a", false)));
    WithoutUpdatesIsGentle(g, BLANK, steps);
    RunKeepsInvariant(g, BLANK, steps, "a");
    HeadIsWaiting(w.runners, 0);
  }

  /** The service is stopped and started while its first loop still has the one-shot job queued. */
  lemma RestartedWhileQueued(g: Gronx) returns (steps: seq<Step>, w: World)
    ensures Runs(g, BLANK, steps) && After(g, BLANK, steps) == w && forall step <- steps :: !step.Update?
    ensures w == FirstCollected(g, AT_FIVE).(runners := [Runner(["a"], None), IDLE])
  {
    var collected := FirstCollected(g, AT_FIVE);
    var stopped := collected.(store := collected.store.(running := false));
    w := collected.(runners := [Runner(["a"], None), IDLE]);
    steps := ReachingCollection(g, AT_FIVE);
    steps := Extended(g, steps, collected, Stop, stopped);
    assert RecomputeAll(g, stopped.store.disk, 5) == stopped.store.jobs;
    assert [Runner(["a"], None)] + [IDLE] == w.runners;
    steps := Extended(g, steps, stopped, Start, w);
  }

  lemma FreshLoopIsFree(g: Gronx, w: World)
    requires w == FirstCollected(g, AT_FIVE).(runners := [Runner(["a"], None), IDLE])
    ensures var copy := NewJob(g, "a", "", AT_FIVE, "", 0);
            && Refires(w, copy) && |Times(w.collected, "a")| == 1 && Lookup(w.store.jobs, "a").Some?
            && |w.runners| == 2 && !Holds(w.runners[1], "a") && !CollectionLost(w, "a")
  {
    TimesOne(Event("a", 5), "a");
    assert w.runners[1] == IDLE && w.runners[1] in w.runners;
    HeadIsWaiting(w.runners, 0);
  }

  /** Writing back the record that AddJob returned has the job collected by the new loop and fired by both. */
  lemma StaleCopyFiresTwice(g: Gronx) returns (steps: seq<Step>, w: World, more: seq<Step>)
    ensures var copy := NewJob(g, "a", "", AT_FIVE, "", 0);
            && Initial(BLANK) && Runs(g, BLANK, steps) && After(g, BLANK, steps) == w
            && Refires(w, copy) && GentleRuns(g, Overwritten(g, w, copy), more)
            && |Times(After(g, Overwritten(g, w, copy), more).collected, "a")| == 2
            && |Times(After(g, Overwritten(g, w, copy), more).fired, "a")| >= 2
  {
    steps, w := RestartedWhileQueued(g);
    BlankIsInitial();
    InitialInvariant(BLANK, "a");
    WithoutUpdatesIsGentle(g, BLANK, steps);
    RunKeepsInvariant(g, BLANK, steps, "a");
    FreshLoopIsFree(g, w);
    more := RefiringLoopFiresTwice(g, w, NewJob(g, "a", "", AT_FIVE, "", 0), 1);
  }
}
