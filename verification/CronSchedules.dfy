/** What schedules make of jobs: the next run each call writes, cron ticks, and one-shot jobs that come too late. */
module CronSchedules {
  import opened Prelude
  import opened CronService
  import opened CronProtocol
  import opened CronTheorems
  import opened CronLimits

  // ---------- The next run that is written ----------

  /** What a schedule asks for at a moment: its own time if still ahead, one interval later, or the library's tick. */
  predicate AsksFor(g: Gronx, s: Schedule, now: Millis, next: Option<Millis>) {
    && (s.kind == At ==> (next.Some? <==> s.at.Some? && now < s.at.value) && (next.Some? ==> next == s.at))
    && (s.kind == Every ==> (next.Some? <==> s.every.Some? && 0 < s.every.value))
    && (s.kind == Every && next.Some? ==>
          if s.every.value <= 0x7FFF_FFFF_FFFF_FFFF - now then next.value - now == s.every.value else next.value <= now)
    && (s.kind == Cron && s.expr != "" ==> next == g(s.expr, now))
    && (s.kind == Unknown || (s.kind == Cron && s.expr == "") ==> next.None?)
  }

  /** The steps that schedule a job: adding it, switching it on, starting the service, ending a repeated execution. */
  predicate Reschedules(w: World, step: Step, id: string)
    requires Enabled(w, step)
  {
    var stored := Lookup(w.store.jobs, id);
    match step
    case Add(x, _, _, _) => x == id
    case Enable(x, enabled) => x == id && enabled && stored.Some?
    case Start => !w.store.running && stored.Some? && stored.value.enabled
    case End(r, _) => w.runners[r].busy.value.id == id && stored.Some? && stored.value.schedule.kind != At
    case _ => false
  }

  lemma NextRunIsAskedFor(g: Gronx, s: Schedule, now: Millis)
    ensures AsksFor(g, s, now, ComputeNextRun(g, s, now))
  {
    if PositiveInterval(s) {
      EveryIntervalExactUnlessOverflow(g, s, now);
    }
  }

  lemma ReschedulingComputes(g: Gronx, w: World, step: Step, id: string)
    requires Coherent(w) && Enabled(w, step) && Reschedules(w, step, id)
    ensures var stored := Lookup(Next(g, w, step).store.jobs, id);
            && stored.Some? && stored.value.next == ComputeNextRun(g, stored.value.schedule, w.clock)
            && (step.Add? ==> stored.value.schedule == step.schedule)
            && (!step.Add? ==> stored.value.schedule == Lookup(w.store.jobs, id).value.schedule)
    ensures Next(g, w, step).store.disk == Next(g, w, step).store.jobs
  {
    StepChangesJob(g, w, step, id);
  }

  /** Each of these writes the next run that the job's schedule asks for, in memory and on disk. */
  lemma ReschedulingWritesNextRun(g: Gronx, w: World, step: Step, id: string)
    requires Coherent(w) && Enabled(w, step) && Reschedules(w, step, id)
    ensures var stored := Lookup(Next(g, w, step).store.jobs, id);
            && stored.Some? && AsksFor(g, stored.value.schedule, w.clock, stored.value.next)
            && (step.Add? ==> stored.value.schedule == step.schedule)
            && (!step.Add? ==> stored.value.schedule == Lookup(w.store.jobs, id).value.schedule)
    ensures Next(g, w, step).store.disk == Next(g, w, step).store.jobs
  {
    ReschedulingComputes(g, w, step, id);
    NextRunIsAskedFor(g, Lookup(Next(g, w, step).store.jobs, id).value.schedule, w.clock);
  }

  /** A check collects a job if and only if the service runs and the job is on with a next run no later than now. */
  lemma CheckCollectsIff(g: Gronx, w: World, r: nat, id: string)
    requires Coherent(w) && Enabled(w, Collect(r))
    ensures var stored, w' := Lookup(w.store.jobs, id), Next(g, w, Collect(r));
            && (Times(w'.collected, id) != Times(w.collected, id)
                <==> w.store.running && stored.Some? && stored.value.enabled
                     && stored.value.next.Some? && stored.value.next.value <= w.clock)
            && (Times(w'.collected, id) != Times(w.collected, id) ==>
                  Times(w'.collected, id) == Times(w.collected, id) + [w.clock])
  {
    StepMovesHistory(w, Collect(r), id);
  }

  // ---------- The record ----------

  /** The end of an execution records its start, its outcome and the error text. */
  lemma EndRecordsOutcome(g: Gronx, w: World, r: nat, error: Option<string>, id: string)
    requires Coherent(w) && Enabled(w, End(r, error)) && w.runners[r].busy.value.id == id
    ensures var before, after := Lookup(w.store.jobs, id), Lookup(Next(g, w, End(r, error)).store.jobs, id);
            && (after.Some? <==> before.Some? && (before.value.schedule.kind == At ==> !before.value.deleteAfterRun))
            && (after.Some? ==>
                  && after.value.lastRun == Some(w.runners[r].busy.value.start) && after.value.updatedAt == w.clock
                  && (after.value.lastStatus == "error" <==> error.Some?)
                  && (after.value.lastStatus == "ok" <==> error.None?)
                  && after.value.lastError == (if error.Some? then error.value else "")
                  && (after.value.enabled <==> before.value.enabled && before.value.schedule.kind != At)
                  && (before.value.schedule.kind == At ==> after.value.next.None?))
  {
    StepChangesJob(g, w, End(r, error), id);
  }

  /** Switching a job sets its switch and, when off, clears its next run; how it last ran stays. */
  lemma SwitchingSetsSwitch(g: Gronx, w: World, step: Step)
    requires Coherent(w) && Enabled(w, step) && step.Enable?
    ensures var before, after := Lookup(w.store.jobs, step.id), Lookup(Next(g, w, step).store.jobs, step.id);
            && (after.Some? <==> before.Some?)
            && (after.Some? ==>
                  && after.value.enabled == step.enabled && after.value.updatedAt == w.clock
                  && (!step.enabled ==> after.value.next.None?) && SameOutcome(after.value, before.value))
  {
    StepChangesJob(g, w, step, step.id);
  }

  predicate SameOutcome(a: Job, b: Job) {
    a.lastRun == b.lastRun && a.lastStatus == b.lastStatus && a.lastError == b.lastError
  }

  /** But for updates and the end of its own execution, no step changes how a job last ran. */
  lemma OutcomeIsKept(g: Gronx, w: World, step: Step, id: string)
    requires Coherent(w) && Enabled(w, step) && !step.Update? && Lookup(w.store.jobs, id).Some?
    requires step.End? ==> w.runners[step.r].busy.value.id != id
    ensures var stored := Lookup(Next(g, w, step).store.jobs, id);
            stored.Some? ==> SameOutcome(stored.value, Lookup(w.store.jobs, id).value)
  {
    StepChangesJob(g, w, step, id);
  }

  /** What a job is, as opposed to what has become of it. */
  predicate SameJob(a: Job, b: Job) {
    && a.id == b.id && a.name == b.name && a.schedule == b.schedule && a.payload == b.payload
    && a.createdAt == b.createdAt && a.deleteAfterRun == b.deleteAfterRun
  }

  /** A new job is what the caller asked for, switched on, created now, and deleted after a single run if one-shot. */
  lemma AddStoresJob(g: Gronx, w: World, step: Step)
    requires Coherent(w) && Enabled(w, step) && step.Add?
    ensures var stored := Lookup(Next(g, w, step).store.jobs, step.id);
            && stored.Some? && stored.value.enabled && stored.value.lastRun.None?
            && stored.value.lastStatus == "" && stored.value.lastError == ""
            && stored.value.id == step.id && stored.value.name == step.name && stored.value.payload == step.payload
            && stored.value.schedule == step.schedule && stored.value.createdAt == stored.value.updatedAt == w.clock
            && (stored.value.deleteAfterRun <==> step.schedule.kind == At)
  {
    StepChangesJob(g, w, step, step.id);
  }

  lemma ChangeKeepsIdentity(g: Gronx, stored: Option<Job>, clock: Millis, c: Change)
    requires !c.Edited? && !c.Created? && stored.Some?
    ensures JobAfter(g, stored, clock, c).Some? ==> SameJob(JobAfter(g, stored, clock, c).value, stored.value)
  {
  }

  lemma StepKeepsIdentity(g: Gronx, w: World, step: Step, id: string)
    requires Coherent(w) && Enabled(w, step) && !step.Update? && Lookup(w.store.jobs, id).Some?
    ensures Coherent(Next(g, w, step)) && id in Next(g, w, step).schedules
    ensures var stored := Lookup(Next(g, w, step).store.jobs, id);
            stored.Some? ==> SameJob(stored.value, Lookup(w.store.jobs, id).value)
  {
    var stored, c := Lookup(w.store.jobs, id), Classify(w, step, id);
    StepKeepsCoherent(g, w, step);
    StepChangesJob(g, w, step, id);
    ChangeKeepsIdentity(g, stored, w.clock, c);
  }

  lemma AbsentIsGone(w: World, id: string)
    requires id in w.schedules && Lookup(w.store.jobs, id).None?
    ensures Gone(ViewOf(w, id))
  {
  }

  /** Through any steps but updates a job that stays stored stays what it is. */
  lemma {:induction false} JobKeepsIdentity(g: Gronx, w: World, steps: seq<Step>, id: string)
    requires Coherent(w) && Runs(g, w, steps) && NoUpdates(steps) && Lookup(w.store.jobs, id).Some?
    ensures var stored := Lookup(After(g, w, steps).store.jobs, id);
            stored.Some? ==> SameJob(stored.value, Lookup(w.store.jobs, id).value)
    decreases steps
  {
    if steps != [] {
      assert steps[0] in steps && forall step <- steps[1..] :: step in steps;
      StepKeepsIdentity(g, w, steps[0], id);
      var w1 := Next(g, w, steps[0]);
      if Lookup(w1.store.jobs, id).Some? {
        JobKeepsIdentity(g, w1, steps[1..], id);
      } else {
        AbsentIsGone(w1, id);
        RemovedJobNeverReturns(g, w1, steps[1..], id);
      }
    }
  }

  /** A start known from before, or a moment at which the job fired. */
  predicate Known(lastRun: Option<Millis>, fired: seq<Millis>, known: Option<Millis>) {
    lastRun == known || (lastRun.Some? && lastRun.value in fired)
  }

  predicate StartsFired(runners: seq<Runner>, fired: seq<Millis>, id: string) {
    forall runner <- runners :: IsRunning(runner, id) ==> runner.busy.value.start in fired
  }

  /** The recorded last run is the one known at first, or a moment at which the job fired; so is a running start. */
  predicate RecordsFirings(w: World, id: string, known: Option<Millis>) {
    var stored, fired := Lookup(w.store.jobs, id), Times(w.fired, id);
    (stored.Some? ==> Known(stored.value.lastRun, fired, known)) && StartsFired(w.runners, fired, id)
  }

  lemma StepKeepsStartsFired(w: World, step: Step, id: string)
    requires Coherent(w) && Enabled(w, step) && StartsFired(w.runners, Times(w.fired, id), id)
    ensures StartsFired(NextRunners(w, step), Times(NextFired(w, step), id), id)
  {
    var after, fired := NextRunners(w, step), Times(NextFired(w, step), id);
    StepMovesHistory(w, step, id);
    forall i | 0 <= i < |after| && IsRunning(after[i], id) ensures after[i].busy.value.start in fired {
      if i < |w.runners| {
        assert w.runners[i] in w.runners;
      }
    }
  }

  lemma ChangeRecordsLastRun(g: Gronx, stored: Option<Job>, clock: Millis, c: Change)
    requires !c.Edited? && stored.Some? && JobAfter(g, stored, clock, c).Some? && !c.Created?
    ensures JobAfter(g, stored, clock, c).value.lastRun == if c.Ended? then Some(c.start) else stored.value.lastRun
  {
  }

  lemma StepRecordsFirings(g: Gronx, w: World, step: Step, id: string, known: Option<Millis>)
    requires Coherent(w) && Enabled(w, step) && !step.Update? && id in w.schedules && RecordsFirings(w, id, known)
    ensures RecordsFirings(Next(g, w, step), id, known)
  {
    var stored, c := Lookup(w.store.jobs, id), Classify(w, step, id);
    StepKeepsStartsFired(w, step, id);
    StepMovesHistory(w, step, id);
    StepChangesJob(g, w, step, id);
    if stored.Some? && JobAfter(g, stored, w.clock, c).Some? {
      ChangeRecordsLastRun(g, stored, w.clock, c);
      if c.Ended? {
        assert w.runners[step.r] in w.runners;
      }
    }
  }

  /** A job's record never shows a last run at which it did not fire. */
  lemma {:induction false} LastRunIsAFiring(g: Gronx, w: World, steps: seq<Step>, id: string, known: Option<Millis>)
    requires Coherent(w) && Runs(g, w, steps) && NoUpdates(steps) && id in w.schedules && RecordsFirings(w, id, known)
    ensures RecordsFirings(After(g, w, steps), id, known)
    decreases steps
  {
    if steps != [] {
      assert steps[0] in steps && forall step <- steps[1..] :: step in steps;
      StepKeepsCoherent(g, w, steps[0]);
      StepRecordsFirings(g, w, steps[0], id, known);
      LastRunIsAFiring(g, Next(g, w, steps[0]), steps[1..], id, known);
    }
  }

  // ---------- Cron jobs ----------

  /** The library finds a tick of this cron schedule after any moment. */
  ghost predicate Ticks(g: Gronx, s: Schedule) {
    s.kind == Cron && s.expr != "" && forall t: Millis :: g(s.expr, t).Some?
  }

  /** While the service runs, an enabled cron job has a next run or an execution under way that will set one. */
  ghost predicate CronArmed(g: Gronx, v: View) {
    && 0 <= v.waiting && 0 <= v.executing
    && (v.running && v.job.Some? && v.job.value.enabled && Ticks(g, v.job.value.schedule) ==>
          v.job.value.next.Some? || v.waiting + v.executing > 0)
  }

  lemma ChangeKeepsCronArmed(g: Gronx, v: View, c: Change)
    requires CronArmed(g, v) && Allowed(v, c) && GentleChange(v, c)
    ensures CronArmed(g, Apply(g, v, c))
  {
  }

  lemma {:induction false} RunKeepsCronArmed(g: Gronx, w: World, steps: seq<Step>, id: string)
    requires Coherent(w) && GentleRuns(g, w, steps) && CronArmed(g, ViewOf(w, id))
    ensures CronArmed(g, ViewOf(After(g, w, steps), id))
    decreases steps
  {
    if steps != [] {
      StepProjects(g, w, steps[0], id);
      StepIsAllowed(w, steps[0], id);
      ChangeKeepsCronArmed(g, ViewOf(w, id), Classify(w, steps[0], id));
      RunKeepsCronArmed(g, Next(g, w, steps[0]), steps[1..], id);
    }
  }

  /** No interleaving loses a cron job: while the service runs and no execution is under way, it has a next run. */
  lemma CronJobIsNeverStranded(g: Gronx, w: World, steps: seq<Step>, id: string)
    requires Initial(w) && GentleRuns(g, w, steps)
    ensures var w' := After(g, w, steps);
            var stored := Lookup(w'.store.jobs, id);
            w'.store.running && stored.Some? && stored.value.enabled && Ticks(g, stored.value.schedule)
            && Waiting(w'.runners, id) + Executing(w'.runners, id) == 0
            ==> stored.value.next.Some?
  {
    RunKeepsCronArmed(g, w, steps, id);
  }

  /** Asked at `since` or later and no later than `to`, the library gave a tick that had come by `to`. */
  ghost predicate TickCame(g: Gronx, expr: string, since: Option<Millis>, to: Millis) {
    exists u: Millis :: u <= to && (since.Some? ==> since.value <= u) && g(expr, u).Some? && g(expr, u).value <= to
  }

  function TimeBefore(times: seq<Millis>, j: nat): Option<Millis>
    requires j <= |times|
  {
    if j == 0 then None else Some(times[j - 1])
  }

  /** Asked at `since` or later and no later than `now`, the library answered `next`. */
  ghost predicate Answered(g: Gronx, expr: string, since: Option<Millis>, now: Millis, next: Option<Millis>) {
    exists u: Millis :: u <= now && (since.Some? ==> since.value <= u) && g(expr, u) == next
  }

  ghost predicate EachHadItsTick(g: Gronx, expr: string, times: seq<Millis>) {
    forall j {:trigger TimeBefore(times, j)} :: 0 <= j < |times| ==> TickCame(g, expr, TimeBefore(times, j), times[j])
  }

  /** Each collection had its tick, asked for after the one before; so will the next run of a running service. */
  ghost predicate FollowsTicks(g: Gronx, v: View) {
    v.schedule.Some? && v.schedule.value.kind == Cron ==>
      var expr, times := v.schedule.value.expr, v.collections;
      && EachHadItsTick(g, expr, times)
      && (v.running && Live(v) ==> Answered(g, expr, TimeBefore(times, |times|), v.clock, v.job.value.next))
  }

  lemma AnsweredTickCame(g: Gronx, expr: string, since: Option<Millis>, now: Millis, next: Option<Millis>)
    requires Answered(g, expr, since, now, next) && next.Some? && next.value <= now
    ensures TickCame(g, expr, since, now)
  {
  }

  lemma PushTime(times: seq<Millis>, now: Millis)
    ensures forall j :: 0 <= j <= |times| ==> TimeBefore(times + [now], j) == TimeBefore(times, j)
    ensures forall j :: 0 <= j < |times| ==> (times + [now])[j] == times[j]
  {
  }

  lemma OneMoreHadItsTick(g: Gronx, expr: string, times: seq<Millis>, now: Millis, next: Option<Millis>)
    requires EachHadItsTick(g, expr, times) && Answered(g, expr, TimeBefore(times, |times|), now, next)
    requires next.Some? && next.value <= now
    ensures EachHadItsTick(g, expr, times + [now])
  {
    AnsweredTickCame(g, expr, TimeBefore(times, |times|), now, next);
    PushTime(times, now);
  }

  lemma CollectingFollowsTicks(g: Gronx, v: View)
    requires FollowsTicks(g, v) && Allowed(v, Collected)
    ensures FollowsTicks(g, Apply(g, v, Collected))
  {
    if v.schedule.Some? && v.schedule.value.kind == Cron {
      OneMoreHadItsTick(g, v.schedule.value.expr, v.collections, v.clock, v.job.value.next);
    }
  }

  lemma LastIsPast(v: View)
    requires forall t <- v.collections :: t <= v.clock
    ensures var last := TimeBefore(v.collections, |v.collections|); last.Some? ==> last.value <= v.clock
  {
    var times := v.collections;
    assert times != [] ==> times[|times| - 1] in times;
  }

  lemma AnsweredStill(g: Gronx, expr: string, since: Option<Millis>, now: Millis, later: Millis, next: Option<Millis>)
    requires Answered(g, expr, since, now, next) && now <= later
    ensures Answered(g, expr, since, later, next)
  {
    var u: Millis :| u <= now && (since.Some? ==> since.value <= u) && g(expr, u) == next;
    assert u <= later;
  }

  /** A change other than a collection leaves a live cron job's next run alone, or has the library asked now. */
  lemma NextRunIsAnswered(g: Gronx, v: View, c: Change)
    requires Allowed(v, c) && GentleChange(v, c) && c != Collected && ScheduleKept(v)
    requires Apply(g, v, c).schedule.Some? && Apply(g, v, c).schedule.value.kind == Cron
    requires Apply(g, v, c).running && Live(Apply(g, v, c))
    ensures var v' := Apply(g, v, c);
            || (v.running && Live(v) && v'.schedule == v.schedule && v'.job.value.next == v.job.value.next)
            || g(v'.schedule.value.expr, v.clock) == v'.job.value.next
  {
  }

  lemma ChangeFollowsTicks(g: Gronx, v: View, c: Change)
    requires FollowsTicks(g, v) && Allowed(v, c) && GentleChange(v, c) && c != Collected
    requires ScheduleKept(v) && forall t <- v.collections :: t <= v.clock
    ensures FollowsTicks(g, Apply(g, v, c))
  {
    var v' := Apply(g, v, c);
    assert v'.collections == v.collections;
    if v'.schedule.Some? && v'.schedule.value.kind == Cron && v'.running && Live(v') {
      var expr, last := v'.schedule.value.expr, TimeBefore(v.collections, |v.collections|);
      NextRunIsAnswered(g, v, c);
      LastIsPast(v);
      if g(expr, v.clock) == v'.job.value.next {
        assert Answered(g, expr, last, v.clock, v'.job.value.next);
      }
      AnsweredStill(g, expr, last, v.clock, v'.clock, v'.job.value.next);
    }
  }

  lemma {:induction false} RunFollowsTicks(g: Gronx, w: World, steps: seq<Step>, id: string)
    requires Coherent(w) && GentleRuns(g, w, steps) && Invariant(ViewOf(w, id)) && FollowsTicks(g, ViewOf(w, id))
    ensures FollowsTicks(g, ViewOf(After(g, w, steps), id))
    decreases steps
  {
    if steps != [] {
      var c := Classify(w, steps[0], id);
      StepKeepsInvariant(g, w, steps[0], id);
      StepProjects(g, w, steps[0], id);
      StepIsAllowed(w, steps[0], id);
      if c == Collected {
        CollectingFollowsTicks(g, ViewOf(w, id));
      } else {
        ChangeFollowsTicks(g, ViewOf(w, id), c);
      }
      RunFollowsTicks(g, Next(g, w, steps[0]), steps[1..], id);
    }
  }

  /**
    * However callbacks, calls, crashes and restarts interleave: each collection of a cron job comes at or after a
    * tick that the library gave for a moment no earlier than the collection before it.
    */
  lemma CronJobFollowsItsTicks(g: Gronx, w: World, steps: seq<Step>, id: string)
    requires Initial(w) && GentleRuns(g, w, steps)
    requires id in After(g, w, steps).schedules && After(g, w, steps).schedules[id].kind == Cron
    ensures var w' := After(g, w, steps);
            var times := Times(w'.collected, id);
            forall j {:trigger TimeBefore(times, j)} :: 0 <= j < |times| ==>
              TickCame(g, w'.schedules[id].expr, TimeBefore(times, j), times[j])
  {
    InitialInvariant(w, id);
    RunFollowsTicks(g, w, steps, id);
  }

  // ---------- One-shot jobs ----------

  /** While the service runs, an enabled one-shot job whose time lies ahead is scheduled for it. */
  predicate AtArmed(v: View) {
    v.running && v.job.Some? && v.job.value.enabled && v.job.value.schedule.kind == At ==>
      var at := v.job.value.schedule.at;
      at.Some? && v.clock < at.value ==> v.job.value.next == at
  }

  lemma {:induction false} RunKeepsAtArmed(g: Gronx, w: World, steps: seq<Step>, id: string)
    requires Coherent(w) && GentleRuns(g, w, steps) && Invariant(ViewOf(w, id)) && AtArmed(ViewOf(w, id))
    ensures AtArmed(ViewOf(After(g, w, steps), id))
    decreases steps
  {
    if steps != [] {
      StepKeepsInvariant(g, w, steps[0], id);
      StepProjects(g, w, steps[0], id);
      StepIsAllowed(w, steps[0], id);
      ChangeKeepsAtArmed(g, ViewOf(w, id), Classify(w, steps[0], id));
      RunKeepsAtArmed(g, Next(g, w, steps[0]), steps[1..], id);
    }
  }

  lemma ChangeKeepsAtArmed(g: Gronx, v: View, c: Change)
    requires Invariant(v) && Allowed(v, c) && GentleChange(v, c) && AtArmed(v)
    ensures AtArmed(Apply(g, v, c))
  {
  }

  /** No interleaving loses a one-shot job before its time. */
  lemma AtJobIsScheduled(g: Gronx, w: World, steps: seq<Step>, id: string)
    requires Initial(w) && GentleRuns(g, w, steps)
    ensures var w' := After(g, w, steps);
            var stored := Lookup(w'.store.jobs, id);
            w'.store.running && stored.Some? && stored.value.enabled && stored.value.schedule.kind == At
            && stored.value.schedule.at.Some? && w'.clock < stored.value.schedule.at.value
            ==> stored.value.next == stored.value.schedule.at
  {
    InitialInvariant(w, id);
    RunKeepsAtArmed(g, w, steps, id);
  }

  /** The time has passed, no loop has the job queued, and a running service has no next run for it. */
  predicate TooLate(v: View) {
    && v.schedule.Some? && v.schedule.value.kind == At && ScheduleKept(v) && v.waiting == 0
    && (v.schedule.value.at.Some? ==> v.schedule.value.at.value <= v.clock)
    && (v.running ==> !Live(v))
  }

  lemma ChangeKeepsTooLate(g: Gronx, v: View, c: Change)
    requires TooLate(v) && Allowed(v, c) && GentleChange(v, c)
    ensures TooLate(Apply(g, v, c)) && Apply(g, v, c).firings == v.firings
  {
  }

  lemma {:induction false} TooLateNeverFires(g: Gronx, w: World, steps: seq<Step>, id: string)
    requires Coherent(w) && GentleRuns(g, w, steps) && TooLate(ViewOf(w, id))
    ensures Times(After(g, w, steps).fired, id) == Times(w.fired, id)
    decreases steps
  {
    if steps != [] {
      StepProjects(g, w, steps[0], id);
      StepIsAllowed(w, steps[0], id);
      ChangeKeepsTooLate(g, ViewOf(w, id), Classify(w, steps[0], id));
      TooLateNeverFires(g, Next(g, w, steps[0]), steps[1..], id);
    }
  }

  /** A process has ended, its loops with it, and left an enabled one-shot job in the store. */
  ghost predicate LeftBehind(w: World, id: string) {
    var stored := Lookup(w.store.jobs, id);
    && Coherent(w) && Invariant(ViewOf(w, id)) && !w.store.running && w.runners == []
    && stored.Some? && stored.value.enabled && stored.value.schedule.kind == At && stored.value.schedule.at.Some?
  }

  lemma StartingArms(g: Gronx, w: World, id: string)
    requires LeftBehind(w, id) && w.clock < Lookup(w.store.jobs, id).value.schedule.at.value
    ensures var started := Next(g, w, Start);
            && Coherent(started) && Live(ViewOf(started, id)) && started.store.running
            && started.runners == [IDLE] && started.fired == w.fired
  {
    StepProjects(g, w, Start, id);
  }

  lemma StartedJobFires(g: Gronx, w: World, id: string) returns (steps: seq<Step>)
    requires LeftBehind(w, id) && w.clock < Lookup(w.store.jobs, id).value.schedule.at.value
    ensures GentleRuns(g, w, steps) && |Times(After(g, w, steps).fired, id)| == |Times(w.fired, id)| + 1
  {
    StartingArms(g, w, id);
    var later := LiveJobFires(g, Next(g, w, Start), id);
    RunsCons(g, w, Start, later);
    steps := [Start] + later;
    WithoutUpdatesIsGentle(g, w, steps);
  }

  /** An idle loop of a running service comes to collect and fire a live job. */
  lemma LiveJobFires(g: Gronx, w: World, id: string) returns (steps: seq<Step>)
    requires Coherent(w) && Live(ViewOf(w, id)) && w.store.running && w.runners == [IDLE]
    ensures Runs(g, w, steps) && NoUpdates(steps)
    ensures |Times(After(g, w, steps).fired, id)| == |Times(w.fired, id)| + 1
  {
    var collect := IdleLoopCollects(g, w, 0, id);
    var fire := QueuedJobFires(g, After(g, w, collect), 0, id);
    RunsAppend(g, w, collect, fire);
    steps := collect + fire;
  }

  /**
    * A one-shot job left in the store by a process that ended can still fire if and only if its time lies ahead:
    * starting recomputes next runs, and a time that passed while no service ran is dropped, though never served.
    */
  lemma LeftBehindFiresIff(g: Gronx, w: World, id: string)
    requires LeftBehind(w, id)
    ensures (exists steps :: GentleRuns(g, w, steps) && Times(After(g, w, steps).fired, id) != Times(w.fired, id))
            <==> w.clock < Lookup(w.store.jobs, id).value.schedule.at.value
  {
    if w.clock < Lookup(w.store.jobs, id).value.schedule.at.value {
      var steps := StartedJobFires(g, w, id);
    } else {
      forall steps | GentleRuns(g, w, steps) ensures Times(After(g, w, steps).fired, id) == Times(w.fired, id) {
        TooLateNeverFires(g, w, steps, id);
      }
    }
  }
}
