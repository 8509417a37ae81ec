/** How far apart the firings of a repeating job lie: an interval while there is one loop, nothing with two. */
module CronSpacing {
  import opened Prelude
  import opened CronService
  import opened CronProtocol
  import opened CronTheorems
  import opened CronLimits

  /** At no moment of the run is there more than one loop, as when no stop is followed by a start. */
  predicate OneLoop(g: Gronx, w: World, steps: seq<Step>)
    requires Runs(g, w, steps)
    decreases steps
  {
    |w.runners| <= 1 && (steps == [] || OneLoop(g, Next(g, w, steps[0]), steps[1..]))
  }

  /**
    * Firings lie an interval apart; a queued execution is already one behind the last firing, and so is the
    * next run of a running service when no execution is under way.
    */
  predicate FiringsSpaced(v: View) {
    && 0 <= v.waiting <= 1 && 0 <= v.executing && (forall t <- v.firings :: t <= v.clock)
    && (Repeating(v) ==>
          var every := v.schedule.value.every.value;
          && (forall i, j :: 0 <= i < j < |v.firings| ==> v.firings[j] - v.firings[i] >= every)
          && (v.waiting > 0 ==> forall t <- v.firings :: v.clock - t >= every)
          && (v.running && v.executing == 0 && Live(v) ==>
                forall t <- v.firings :: v.job.value.next.value - t >= every))
  }

  lemma OnlyIdleLoopCollects(w: World, step: Step, id: string)
    requires Enabled(w, step) && step.Collect? && |w.runners| <= 1
    ensures Waiting(w.runners, id) == 0 && Executing(w.runners, id) == 0
  {
    assert w.runners[..0] == [];
  }

  lemma FiringKeepsSpaced(g: Gronx, v: View)
    requires FiringsSpaced(v) && Allowed(v, Fired)
    ensures FiringsSpaced(Apply(g, v, Fired))
  {
    var times := Apply(g, v, Fired).firings;
    forall i, j | 0 <= i < j < |times| && Repeating(v) ensures times[j] - times[i] >= v.schedule.value.every.value {
      assert v.firings[i] in v.firings;
    }
  }

  lemma CollectingKeepsFiringsSpaced(g: Gronx, v: View)
    requires Invariant(v) && FiringsSpaced(v) && Allowed(v, Collected) && v.waiting == 0 && v.executing == 0
    ensures FiringsSpaced(Apply(g, v, Collected))
  {
  }

  lemma OtherChangeKeepsFiringsSpaced(g: Gronx, v: View, c: Change)
    requires Invariant(v) && FiringsSpaced(v) && Allowed(v, c) && GentleChange(v, c) && c != Fired && c != Collected
    ensures FiringsSpaced(Apply(g, v, c))
  {
  }

  lemma ChangeKeepsFiringsSpaced(g: Gronx, v: View, c: Change)
    requires Invariant(v) && FiringsSpaced(v) && Allowed(v, c) && GentleChange(v, c)
    requires c == Collected ==> v.waiting == 0 && v.executing == 0
    ensures FiringsSpaced(Apply(g, v, c))
  {
    if c == Fired {
      FiringKeepsSpaced(g, v);
    } else if c == Collected {
      CollectingKeepsFiringsSpaced(g, v);
    } else {
      OtherChangeKeepsFiringsSpaced(g, v, c);
    }
  }

  lemma {:induction false} RunKeepsFiringsSpaced(g: Gronx, w: World, steps: seq<Step>, id: string)
    requires Coherent(w) && GentleRuns(g, w, steps) && OneLoop(g, w, steps)
    requires Invariant(ViewOf(w, id)) && FiringsSpaced(ViewOf(w, id))
    ensures FiringsSpaced(ViewOf(After(g, w, steps), id))
    decreases steps
  {
    if steps != [] {
      StepKeepsInvariant(g, w, steps[0], id);
      StepProjects(g, w, steps[0], id);
      StepIsAllowed(w, steps[0], id);
      if steps[0].Collect? {
        OnlyIdleLoopCollects(w, steps[0], id);
      }
      ChangeKeepsFiringsSpaced(g, ViewOf(w, id), Classify(w, steps[0], id));
      RunKeepsFiringsSpaced(g, Next(g, w, steps[0]), steps[1..], id);
    }
  }

  /** With one loop at a time, firings of a repeating job lie at least one interval apart, however late each comes. */
  lemma EveryJobFiresAtADistance(g: Gronx, w: World, steps: seq<Step>, id: string)
    requires Initial(w) && GentleRuns(g, w, steps) && OneLoop(g, w, steps)
    requires Repeating(ViewOf(After(g, w, steps), id))
    ensures var w' := After(g, w, steps);
            var times := Times(w'.fired, id);
            forall i, j :: 0 <= i < j < |times| ==> times[j] - times[i] >= w'.schedules[id].every.value
  {
    InitialInvariant(w, id);
    RunKeepsFiringsSpaced(g, w, steps, id);
  }

  // ---------- Two loops ----------

  /** The service is stopped and started while its first loop still has the repeating job queued. */
  lemma RestartedRepeating(g: Gronx) returns (steps: seq<Step>, w: World)
    ensures Runs(g, BLANK, steps) && After(g, BLANK, steps) == w && NoUpdates(steps)
    ensures w.runners == [Runner(["a"], None), IDLE] && w.store.running
    ensures Lookup(w.store.jobs, "a").Some? && Live(ViewOf(w, "a")) && Times(w.fired, "a") == []
  {
    var collected := FirstCollected(g, EVERY_FIVE);
    steps := ReachingCollection(g, EVERY_FIVE);
    var stopped := Next(g, collected, Stop);
    steps := Extended(g, steps, collected, Stop, stopped);
    w := Next(g, stopped, Start);
    steps := Extended(g, steps, stopped, Start, w);
    assert [Runner(["a"], None)] + [IDLE] == w.runners;
  }

  /** With two loops two firings of a job can fall on the same instant: the old loop was late. */
  lemma EveryJobFiresTogether(g: Gronx) returns (steps: seq<Step>)
    ensures Initial(BLANK) && GentleRuns(g, BLANK, steps)
    ensures var times := Times(After(g, BLANK, steps).fired, "a"); |times| == 2 && times[0] == times[1]
  {
    var before, w := RestartedRepeating(g);
    BlankIsInitial();
    InitialInvariant(BLANK, "a");
    WithoutUpdatesIsGentle(g, BLANK, before);
    RunKeepsInvariant(g, BLANK, before, "a");
    var collect := FreeLoopCollects(g, w, 1, "a");
    var fire := QueuedTwiceFiresTwice(g, After(g, w, collect), 1, 0, "a");
    RunsAppend(g, w, collect, fire);
    RunsAppend(g, BLANK, before, collect + fire);
    steps := before + (collect + fire);
    WithoutUpdatesIsGentle(g, BLANK, steps);
  }
}
