/** What every interleaving of the cron protocol keeps, crashes and restarts of the process included. */
module CronTheorems {
  import opened Prelude
  import opened CronService
  import opened CronProtocol

  // ---------- Which changes one job can see ----------

  predicate Allowed(v: View, c: Change) {
    && (c.Ticked? ==> v.clock <= c.to)
    && (c.Created? ==> v.schedule.None?)
    && (c.Collected? ==> v.running && v.job.Some? && Due(v.job.value, v.clock))
    && (c.Fired? || c.Edited? ==> v.job.Some?)
    && (c.Missed? ==> v.job.None?)
    && (c.Fired? || c.Missed? ==> v.waiting > 0)
    && (c.Ended? ==> v.executing > 0)
  }

  /** The change through UpdateJob, if any, leaves schedule, switch and next run as stored. */
  predicate GentleChange(v: View, c: Change) {
    c.Edited? && v.job.Some? ==>
      && c.edit.schedule == v.job.value.schedule
      && c.edit.enabled == v.job.value.enabled
      && c.edit.next == v.job.value.next
  }

  lemma {:induction false} HeadIsWaiting(runners: seq<Runner>, r: nat)
    requires r < |runners| && runners[r].queue != []
    ensures Waiting(runners, runners[r].queue[0]) > 0
  {
    if r < |runners| - 1 {
      HeadIsWaiting(runners[..|runners| - 1], r);
    }
  }

  lemma {:induction false} BusyIsExecuting(runners: seq<Runner>, r: nat)
    requires r < |runners| && runners[r].busy.Some?
    ensures Executing(runners, runners[r].busy.value.id) > 0
  {
    if r < |runners| - 1 {
      BusyIsExecuting(runners[..|runners| - 1], r);
    }
  }

  lemma StepIsAllowed(w: World, step: Step, id: string)
    requires Coherent(w) && Enabled(w, step)
    ensures Allowed(ViewOf(w, id), Classify(w, step, id))
    ensures Gentle(w, step) ==> GentleChange(ViewOf(w, id), Classify(w, step, id))
  {
    if step.Begin? {
      HeadIsWaiting(w.runners, step.r);
    } else if step.End? {
      BusyIsExecuting(w.runners, step.r);
    }
  }

  // ---------- Invariants of one job ----------

  /** Each firing and each id still queued stems from its own collection. */
  predicate FiresAreCollected(v: View) {
    |v.firings| + v.waiting <= |v.collections|
  }

  predicate ScheduleKept(v: View) {
    && (v.schedule.None? ==> v.collections == [] && v.job.None?)
    && (v.job.Some? ==> v.schedule == Some(v.job.value.schedule))
  }

  /** A one-shot job can be collected only while its next run is its own time, and then never again. */
  predicate OneShot(v: View) {
    v.schedule.Some? && v.schedule.value.kind == At ==>
      var at := v.schedule.value.at;
      && |v.collections| <= 1
      && (v.collections != [] ==> at.Some? && at.value <= v.clock)
      && (forall t <- v.firings :: at.Some? && at.value <= t)
      && (v.job.Some? && v.job.value.enabled && v.job.value.next.Some? ==>
            v.job.value.next == at && v.collections == [])
  }

  /** The job repeats with a positive interval that can be added to the clock without overflow. */
  predicate Repeating(v: View) {
    && v.schedule.Some? && v.schedule.value.kind == Every
    && v.schedule.value.every.Some? && 0 < v.schedule.value.every.value
    && v.clock + v.schedule.value.every.value <= MAX_INT64
  }

  /** Collections of a repeating job lie at least one interval apart, the pending one included. */
  predicate Spaced(v: View) {
    && (forall t <- v.collections :: t <= v.clock)
    && (Repeating(v) ==>
          var every := v.schedule.value.every.value;
          && (forall i, j :: 0 <= i < j < |v.collections| ==> v.collections[j] - v.collections[i] >= every)
          && (v.job.Some? && v.job.value.next.Some? ==>
                forall t <- v.collections :: v.job.value.next.value - t >= every))
  }

  predicate PositiveInterval(s: Schedule) {
    s.kind == Every && s.every.Some? && s.every.value > 0
  }

  /** An enabled repeating job has a next run, or an execution under way that will set one. */
  predicate Armed(v: View) {
    v.job.Some? && v.job.value.enabled && PositiveInterval(v.job.value.schedule) ==>
      v.job.value.next.Some? || v.waiting + v.executing > 0
  }

  predicate NotStranded(v: View) {
    0 <= v.waiting && 0 <= v.executing && (v.running ==> Armed(v))
  }

  predicate Invariant(v: View) {
    FiresAreCollected(v) && ScheduleKept(v) && OneShot(v) && Spaced(v) && NotStranded(v)
  }

  /**
    * A service just constructed over a store file that an earlier service wrote, possibly while it was
    * running callbacks: next runs may have been cleared.
    */
  ghost predicate Initial(w: World) {
    && Coherent(w) && !w.store.running
    && w.runners == [] && w.collected == [] && w.fired == []
    && (forall id :: Lookup(w.store.jobs, id).Some? ==> FreshlyLoaded(Lookup(w.store.jobs, id).value, w.schedules[id]))
  }

  predicate FreshlyLoaded(job: Job, s: Schedule) {
    && job.schedule == s
    && (job.enabled && s.kind == At && job.next.Some? ==> job.next == s.at)
  }

  lemma InitialInvariant(w: World, id: string)
    requires Initial(w)
    ensures Invariant(ViewOf(w, id))
  {
  }

  // ---------- One change ----------

  lemma ChangeKeepsAccount(g: Gronx, v: View, c: Change)
    requires FiresAreCollected(v) && ScheduleKept(v) && Allowed(v, c) && GentleChange(v, c) && 0 <= v.waiting
    ensures FiresAreCollected(Apply(g, v, c)) && ScheduleKept(Apply(g, v, c))
  {
  }

  lemma ChangeKeepsOneShot(g: Gronx, v: View, c: Change)
    requires Invariant(v) && Allowed(v, c) && GentleChange(v, c)
    ensures OneShot(Apply(g, v, c))
  {
  }

  lemma CollectingKeepsSpaced(g: Gronx, v: View)
    requires Invariant(v) && Allowed(v, Collected)
    ensures Spaced(Apply(g, v, Collected))
  {
    var times := Apply(g, v, Collected).collections;
    forall i, j | 0 <= i < j < |times| && Repeating(v)
      ensures times[j] - times[i] >= v.schedule.value.every.value
    {
      assert v.collections[i] in v.collections;
    }
  }

  lemma ChangeKeepsSpaced(g: Gronx, v: View, c: Change)
    requires Invariant(v) && Allowed(v, c) && GentleChange(v, c)
    ensures Spaced(Apply(g, v, c))
  {
    if c == Collected {
      CollectingKeepsSpaced(g, v);
    } else {
      assert Apply(g, v, c).collections == v.collections;
    }
  }

  lemma ChangeKeepsNotStranded(g: Gronx, v: View, c: Change)
    requires Invariant(v) && Allowed(v, c) && GentleChange(v, c)
    requires Apply(g, v, c).waiting >= 0 && Apply(g, v, c).executing >= 0
    ensures NotStranded(Apply(g, v, c))
  {
  }

  lemma ChangeKeepsArmed(g: Gronx, v: View, c: Change)
    requires Invariant(v) && Allowed(v, c) && GentleChange(v, c) && Armed(v) && c != Crashed
    ensures Armed(Apply(g, v, c))
  {
  }

  lemma StepKeepsInvariant(g: Gronx, w: World, step: Step, id: string)
    requires Coherent(w) && Enabled(w, step) && Gentle(w, step) && Invariant(ViewOf(w, id))
    ensures Coherent(Next(g, w, step)) && Invariant(ViewOf(Next(g, w, step), id))
    ensures ViewOf(w, id).schedule.Some? ==> ViewOf(Next(g, w, step), id).schedule == ViewOf(w, id).schedule
    ensures Armed(ViewOf(w, id)) && step != Crash ==> Armed(ViewOf(Next(g, w, step), id))
  {
    var v, c := ViewOf(w, id), Classify(w, step, id);
    StepProjects(g, w, step, id);
    StepIsAllowed(w, step, id);
    ChangeKeepsAccount(g, v, c);
    ChangeKeepsOneShot(g, v, c);
    ChangeKeepsSpaced(g, v, c);
    ChangeKeepsNotStranded(g, v, c);
    if Armed(v) && c != Crashed {
      ChangeKeepsArmed(g, v, c);
    }
  }

  lemma {:induction false} RunKeepsInvariant(g: Gronx, w: World, steps: seq<Step>, id: string)
    requires Coherent(w) && Invariant(ViewOf(w, id)) && Runs(g, w, steps) && GentleRun(g, w, steps)
    ensures Coherent(After(g, w, steps)) && Invariant(ViewOf(After(g, w, steps), id))
    ensures ViewOf(w, id).schedule.Some? ==> ViewOf(After(g, w, steps), id).schedule == ViewOf(w, id).schedule
    decreases steps
  {
    if steps != [] {
      StepKeepsInvariant(g, w, steps[0], id);
      RunKeepsInvariant(g, Next(g, w, steps[0]), steps[1..], id);
    }
  }

  // ---------- Whole runs ----------

  /** In every interleaving, crashes included, a one-shot job fires at most once, and never before its time. */
  lemma AtJobFiresAtMostOnce(g: Gronx, w: World, steps: seq<Step>, id: string)
    requires Initial(w) && Runs(g, w, steps) && GentleRun(g, w, steps)
    requires id in After(g, w, steps).schedules && After(g, w, steps).schedules[id].kind == At
    ensures var w' := After(g, w, steps);
            && |Times(w'.fired, id)| <= 1
            && forall t <- Times(w'.fired, id) :: w'.schedules[id].at.Some? && w'.schedules[id].at.value <= t
  {
    InitialInvariant(w, id);
    RunKeepsInvariant(g, w, steps, id);
  }

  /**
    * However long callbacks take, and however often the process ends and starts again, collections of a
    * repeating job stay at least one interval apart.
    */
  lemma EveryJobKeepsItsDistance(g: Gronx, w: World, steps: seq<Step>, id: string)
    requires Initial(w) && Runs(g, w, steps) && GentleRun(g, w, steps)
    requires Repeating(ViewOf(After(g, w, steps), id))
    ensures var w' := After(g, w, steps);
            var times := Times(w'.collected, id);
            forall i, j :: 0 <= i < j < |times| ==> times[j] - times[i] >= w'.schedules[id].every.value
  {
    InitialInvariant(w, id);
    RunKeepsInvariant(g, w, steps, id);
  }

  /**
    * No interleaving loses a repeating job: while the service runs and no execution of the job is under
    * way, it has a next run.
    */
  lemma EveryJobIsNeverStranded(g: Gronx, w: World, steps: seq<Step>, id: string)
    requires Initial(w) && Runs(g, w, steps) && GentleRun(g, w, steps)
    ensures var w' := After(g, w, steps);
            var stored := Lookup(w'.store.jobs, id);
            w'.store.running && stored.Some? && stored.value.enabled && PositiveInterval(stored.value.schedule)
            && Waiting(w'.runners, id) + Executing(w'.runners, id) == 0
            ==> stored.value.next.Some?
  {
    InitialInvariant(w, id);
    RunKeepsInvariant(g, w, steps, id);
  }

  /** Only the end of a process can leave a repeating job without a next run; a stopped service does not. */
  lemma {:induction false} ArmedUntilCrash(g: Gronx, w: World, steps: seq<Step>, id: string)
    requires Coherent(w) && Invariant(ViewOf(w, id)) && Runs(g, w, steps) && GentleRun(g, w, steps)
    requires Armed(ViewOf(w, id)) && Crash !in steps
    ensures Armed(ViewOf(After(g, w, steps), id))
    decreases steps
  {
    if steps != [] {
      assert steps[0] in steps && forall step <- steps[1..] :: step in steps;
      StepKeepsInvariant(g, w, steps[0], id);
      ArmedUntilCrash(g, Next(g, w, steps[0]), steps[1..], id);
    }
  }

  predicate Gone(v: View) {
    v.schedule.Some? && v.job.None?
  }

  lemma StepKeepsGone(g: Gronx, w: World, step: Step, id: string)
    requires Coherent(w) && Enabled(w, step) && Gone(ViewOf(w, id))
    ensures Coherent(Next(g, w, step)) && Gone(ViewOf(Next(g, w, step), id))
    ensures Times(Next(g, w, step).collected, id) == Times(w.collected, id)
    ensures Times(Next(g, w, step).fired, id) == Times(w.fired, id)
  {
    var v, c := ViewOf(w, id), Classify(w, step, id);
    StepProjects(g, w, step, id);
    StepIsAllowed(w, step, id);
    assert Gone(Apply(g, v, c)) && Apply(g, v, c).collections == v.collections && Apply(g, v, c).firings == v.firings;
  }

  /** Once removed, a job is never stored, collected or fired again, even if it was queued at the time. */
  lemma {:induction false} RemovedJobNeverReturns(g: Gronx, w: World, steps: seq<Step>, id: string)
    requires Coherent(w) && Runs(g, w, steps) && Gone(ViewOf(w, id))
    ensures var w' := After(g, w, steps);
            && UniqueIds(w'.store.jobs) && Lookup(w'.store.jobs, id).None?
            && Times(w'.collected, id) == Times(w.collected, id)
            && Times(w'.fired, id) == Times(w.fired, id)
    decreases steps
  {
    if steps != [] {
      StepKeepsGone(g, w, steps[0], id);
      RemovedJobNeverReturns(g, Next(g, w, steps[0]), steps[1..], id);
    }
  }

  predicate Reenables(step: Step, id: string) {
    || (step.Enable? && step.id == id && step.enabled)
    || (step.Update? && step.job.id == id && step.job.enabled)
  }

  predicate SwitchedOff(v: View) {
    v.schedule.Some? && (v.job.Some? ==> !v.job.value.enabled)
  }

  lemma StepKeepsSwitchedOff(g: Gronx, w: World, step: Step, id: string)
    requires Coherent(w) && Enabled(w, step) && SwitchedOff(ViewOf(w, id)) && !Reenables(step, id)
    ensures Coherent(Next(g, w, step)) && SwitchedOff(ViewOf(Next(g, w, step), id))
    ensures Times(Next(g, w, step).collected, id) == Times(w.collected, id)
  {
    var v, c := ViewOf(w, id), Classify(w, step, id);
    StepProjects(g, w, step, id);
    StepIsAllowed(w, step, id);
    assert c != Toggled(true) && (c.Edited? ==> !c.edit.enabled);
    ChangeKeepsSwitchedOff(g, v, c);
  }

  lemma ChangeKeepsSwitchedOff(g: Gronx, v: View, c: Change)
    requires Allowed(v, c) && SwitchedOff(v) && c != Toggled(true) && (c.Edited? ==> !c.edit.enabled)
    ensures SwitchedOff(Apply(g, v, c)) && Apply(g, v, c).collections == v.collections
  {
  }

  /** A disabled job is not collected again until some call switches it back on. */
  lemma {:induction false} DisabledJobIsNotCollected(g: Gronx, w: World, steps: seq<Step>, id: string)
    requires Coherent(w) && Runs(g, w, steps) && SwitchedOff(ViewOf(w, id))
    requires forall step <- steps :: !Reenables(step, id)
    ensures Times(After(g, w, steps).collected, id) == Times(w.collected, id)
    decreases steps
  {
    if steps != [] {
      assert steps[0] in steps && forall step <- steps[1..] :: step in steps;
      StepKeepsSwitchedOff(g, w, steps[0], id);
      DisabledJobIsNotCollected(g, Next(g, w, steps[0]), steps[1..], id);
    }
  }
}
