/** The cron job store and the critical sections that change it, one method for each lock region. */
module CronService {
  import opened Prelude

  const MAX_INT64: int := 0x7FFF_FFFF_FFFF_FFFF

  /** Times and intervals are 64-bit signed milliseconds. */
  type Millis = x: int | -0x8000_0000_0000_0000 <= x <= MAX_INT64

  /** 64-bit two's-complement result of an addition. */
  function Wrap64(x: int): (r: Millis)
    ensures -0x8000_0000_0000_0000 <= x <= MAX_INT64 ==> r == x
  {
    var m := x % 0x1_0000_0000_0000_0000;
    if m > MAX_INT64 then m - 0x1_0000_0000_0000_0000 else m
  }

  /** The cron-expression library, left arbitrary: the tick after a time, or a parse failure. */
  type Gronx = (string, Millis) -> Option<Millis>

  datatype Kind = At | Every | Cron | Unknown

  datatype Schedule = Schedule(kind: Kind, at: Option<Millis>, every: Option<Millis>, expr: string)

  datatype Job = Job(
    id: string, name: string, enabled: bool, schedule: Schedule, payload: string,
    next: Option<Millis>, lastRun: Option<Millis>, lastStatus: string, lastError: string,
    createdAt: Millis, updatedAt: Millis, deleteAfterRun: bool)

  /** What the service remembers: jobs in memory, jobs in the store file, and whether a loop may collect. */
  datatype Store = Store(jobs: seq<Job>, disk: seq<Job>, running: bool)

  function Saved(jobs: seq<Job>, running: bool): Store {
    Store(jobs, jobs, running)
  }

  function ComputeNextRun(gronx: Gronx, s: Schedule, now: Millis): Option<Millis> {
    match s.kind
    case At => if s.at.Some? && s.at.value > now then s.at else None
    case Every => if s.every.None? || s.every.value <= 0 then None else Some(Wrap64(now + s.every.value))
    case Cron => if s.expr == "" then None else gronx(s.expr, now)
    case Unknown => None
  }

  predicate Due(job: Job, now: Millis) {
    job.enabled && job.next.Some? && job.next.value <= now
  }

  function DueIds(jobs: seq<Job>, now: Millis): seq<string> {
    if jobs == [] then []
    else
      var last := jobs[|jobs| - 1];
      DueIds(jobs[..|jobs| - 1], now) + if Due(last, now) then [last.id] else []
  }

  function ClearNext(job: Job, due: set<string>): Job {
    if job.id in due then job.(next := None) else job
  }

  function ClearAll(jobs: seq<Job>, due: set<string>): seq<Job> {
    seq(|jobs|, i requires 0 <= i < |jobs| => ClearNext(jobs[i], due))
  }

  function Recompute(gronx: Gronx, job: Job, now: Millis): Job {
    if job.enabled then job.(next := ComputeNextRun(gronx, job.schedule, now)) else job
  }

  function RecomputeAll(gronx: Gronx, jobs: seq<Job>, now: Millis): seq<Job> {
    seq(|jobs|, i requires 0 <= i < |jobs| => Recompute(gronx, jobs[i], now))
  }

  /** Position of the first job with this id, or the number of jobs. */
  function IndexOf(jobs: seq<Job>, id: string): (k: nat)
    ensures k <= |jobs|
    ensures k < |jobs| ==> jobs[k].id == id
    ensures forall i :: 0 <= i < k ==> jobs[i].id != id
  {
    if jobs == [] || jobs[0].id == id then 0 else 1 + IndexOf(jobs[1..], id)
  }

  function Lookup(jobs: seq<Job>, id: string): Option<Job> {
    var k := IndexOf(jobs, id);
    if k < |jobs| then Some(jobs[k]) else None
  }

  function Without(jobs: seq<Job>, id: string): seq<Job> {
    if jobs == [] then []
    else
      var last := jobs[|jobs| - 1];
      Without(jobs[..|jobs| - 1], id) + if last.id != id then [last] else []
  }

  function StartStore(gronx: Gronx, s: Store, now: Millis): Store {
    if s.running then s else Saved(RecomputeAll(gronx, s.disk, now), true)
  }

  function CollectStore(s: Store, now: Millis): (Store, seq<string>) {
    if !s.running then (s, [])
    else
      var due := DueIds(s.jobs, now);
      (Saved(ClearAll(s.jobs, set id | id in due), true), due)
  }

  /** The record written when a callback ends; None when the job is deleted after its single run. */
  function Finished(gronx: Gronx, job: Job, start: Millis, error: Option<string>, now: Millis): Option<Job> {
    var ended := job.(
      lastRun := Some(start), updatedAt := now,
      lastStatus := if error.Some? then "error" else "ok",
      lastError := if error.Some? then error.value else "");
    if job.schedule.kind != At then Some(ended.(next := ComputeNextRun(gronx, job.schedule, now)))
    else if job.deleteAfterRun then None
    else Some(ended.(enabled := false, next := None))
  }

  function FinishStore(gronx: Gronx, s: Store, id: string, start: Millis, error: Option<string>, now: Millis): Store {
    var k := IndexOf(s.jobs, id);
    if k == |s.jobs| then s
    else
      match Finished(gronx, s.jobs[k], start, error, now)
      case None => Saved(Without(s.jobs, id), s.running)
      case Some(job) => Saved(s.jobs[k := job], s.running)
  }

  function NewJob(gronx: Gronx, id: string, name: string, schedule: Schedule, payload: string, now: Millis): Job {
    Job(id, name, true, schedule, payload, ComputeNextRun(gronx, schedule, now),
        None, "", "", now, now, schedule.kind == At)
  }

  function RemoveStore(s: Store, id: string): Store {
    if IndexOf(s.jobs, id) == |s.jobs| then s else Saved(Without(s.jobs, id), s.running)
  }

  function Switched(gronx: Gronx, job: Job, enabled: bool, now: Millis): Job {
    job.(enabled := enabled, updatedAt := now,
         next := if enabled then ComputeNextRun(gronx, job.schedule, now) else None)
  }

  function EnableStore(gronx: Gronx, s: Store, id: string, enabled: bool, now: Millis): Store {
    var k := IndexOf(s.jobs, id);
    if k == |s.jobs| then s else Saved(s.jobs[k := Switched(gronx, s.jobs[k], enabled, now)], s.running)
  }

  function UpdateStore(s: Store, job: Job, now: Millis): Store {
    var k := IndexOf(s.jobs, job.id);
    if k == |s.jobs| then s else Saved(s.jobs[k := job.(updatedAt := now)], s.running)
  }

  class CronService {
    var jobs: seq<Job>
    var disk: seq<Job>
    var running: bool
    const gronx: Gronx

    ghost function Model(): Store
      reads this
    {
      Store(jobs, disk, running)
    }

    /** Loads whatever the store file holds. */
    constructor (disk: seq<Job>, gronx: Gronx)
      ensures Model() == Store(disk, disk, false) && this.gronx == gronx
    {
      this.jobs := disk;
      this.disk := disk;
      this.running := false;
      this.gronx := gronx;
    }

    method Start(now: Millis)
      modifies this
      ensures Model() == StartStore(gronx, old(Model()), now)
    {
      if running {
        return;
      }
      jobs := disk;
      RecomputeNextRuns(now);
      disk := jobs;
      running := true;
    }

    method Stop()
      modifies this
      ensures Model() == old(Model()).(running := false)
    {
      running := false;
    }

    method RecomputeNextRuns(now: Millis)
      modifies this`jobs
      ensures jobs == RecomputeAll(gronx, old(jobs), now)
    {
      var i := 0;
      while i < |jobs|
        invariant 0 <= i <= |jobs| == |old(jobs)|
        invariant forall k :: 0 <= k < i ==> jobs[k] == Recompute(gronx, old(jobs)[k], now)
        invariant forall k :: i <= k < |jobs| ==> jobs[k] == old(jobs)[k]
      {
        var job := jobs[i];
        if job.enabled {
          jobs := jobs[i := job.(next := ComputeNextRun(gronx, job.schedule, now))];
        }
        i := i + 1;
      }
    }

    /** The locked part of a check: collect due ids, then clear their next run before unlocking. */
    method CheckJobs(now: Millis) returns (due: seq<string>)
      modifies this
      ensures (Model(), due) == CollectStore(old(Model()), now)
    {
      due := [];
      if !running {
        return;
      }
      var i := 0;
      while i < |jobs|
        invariant 0 <= i <= |jobs|
        invariant jobs == old(jobs) && disk == old(disk) && running
        invariant due == DueIds(jobs[..i], now)
      {
        assert jobs[..i + 1][..i] == jobs[..i];
        if Due(jobs[i], now) {
          due := due + [jobs[i].id];
        }
        i := i + 1;
      }
      assert jobs[..|jobs|] == jobs;
      i := 0;
      while i < |jobs|
        invariant 0 <= i <= |jobs| == |old(jobs)|
        invariant running && due == DueIds(old(jobs), now)
        invariant forall k :: 0 <= k < i ==> jobs[k] == ClearNext(old(jobs)[k], set id | id in due)
        invariant forall k :: i <= k < |jobs| ==> jobs[k] == old(jobs)[k]
      {
        if jobs[i].id in due {
          jobs := jobs[i := jobs[i].(next := None)];
        }
        i := i + 1;
      }
      assert jobs == ClearAll(old(jobs), set id | id in due);
      disk := jobs;
    }

    method FindJob(id: string) returns (k: nat)
      ensures k == IndexOf(jobs, id)
    {
      k := 0;
      while k < |jobs| && jobs[k].id != id
        invariant 0 <= k <= |jobs|
        invariant forall i :: 0 <= i < k ==> jobs[i].id != id
      {
        k := k + 1;
      }
    }

    /** First half of an execution: copy the job under the read lock, if it still exists. */
    method BeginExecution(id: string) returns (job: Option<Job>)
      ensures job == Lookup(jobs, id)
    {
      var k := FindJob(id);
      job := if k < |jobs| then Some(jobs[k]) else None;
    }

    /** Second half of an execution: record the outcome and schedule the next run. */
    method EndExecution(id: string, start: Millis, error: Option<string>, now: Millis)
      modifies this
      ensures Model() == FinishStore(gronx, old(Model()), id, start, error, now)
    {
      var k := FindJob(id);
      if k == |jobs| {
        return;
      }
      var job := jobs[k].(lastRun := Some(start), updatedAt := now);
      if error.Some? {
        job := job.(lastStatus := "error", lastError := error.value);
      } else {
        job := job.(lastStatus := "ok", lastError := "");
      }
      if job.schedule.kind == At {
        if job.deleteAfterRun {
          var _ := RemoveJob(job.id);
        } else {
          jobs := jobs[k := job.(enabled := false, next := None)];
        }
      } else {
        jobs := jobs[k := job.(next := ComputeNextRun(gronx, job.schedule, now))];
      }
      disk := jobs;
    }

    method AddJob(id: string, name: string, schedule: Schedule, payload: string, now: Millis) returns (job: Job)
      modifies this
      ensures job == NewJob(gronx, id, name, schedule, payload, now)
      ensures Model() == Saved(old(jobs) + [job], old(running))
    {
      var next := ComputeNextRun(gronx, schedule, now);
      job := Job(id, name, true, schedule, payload, next, None, "", "", now, now, schedule.kind == At);
      jobs := jobs + [job];
      disk := jobs;
    }

    method UpdateJob(job: Job, now: Millis) returns (found: bool)
      modifies this
      ensures Model() == UpdateStore(old(Model()), job, now)
      ensures found == old(Lookup(jobs, job.id)).Some?
    {
      var k := FindJob(job.id);
      if k == |jobs| {
        return false;
      }
      jobs := jobs[k := job.(updatedAt := now)];
      disk := jobs;
      return true;
    }

    method RemoveJob(id: string) returns (removed: bool)
      modifies this
      ensures Model() == RemoveStore(old(Model()), id)
      ensures removed == old(Lookup(jobs, id)).Some?
    {
      var kept: seq<Job> := [];
      var i := 0;
      while i < |jobs|
        invariant 0 <= i <= |jobs|
        invariant jobs == old(jobs) && disk == old(disk) && running == old(running)
        invariant kept == Without(jobs[..i], id)
      {
        assert jobs[..i + 1][..i] == jobs[..i];
        if jobs[i].id != id {
          kept := kept + [jobs[i]];
        }
        i := i + 1;
      }
      assert jobs[..|jobs|] == jobs;
      WithoutShrinks(jobs, id);
      removed := |kept| < |jobs|;
      jobs := kept;
      if removed {
        disk := jobs;
      }
    }

    method EnableJob(id: string, enabled: bool, now: Millis) returns (job: Option<Job>)
      modifies this
      ensures Model() == EnableStore(gronx, old(Model()), id, enabled, now)
      ensures job == Lookup(jobs, id)
    {
      var k := FindJob(id);
      if k == |jobs| {
        return None;
      }
      var changed := jobs[k].(enabled := enabled, updatedAt := now);
      if enabled {
        changed := changed.(next := ComputeNextRun(gronx, changed.schedule, now));
      } else {
        changed := changed.(next := None);
      }
      ghost var before := jobs;
      jobs := jobs[k := changed];
      IndexOfUnchanged(before, k, changed, id);
      disk := jobs;
      return Some(changed);
    }
  }

  lemma {:induction false} WithoutShrinks(jobs: seq<Job>, id: string)
    ensures |Without(jobs, id)| <= |jobs|
    ensures |Without(jobs, id)| == |jobs| <==> IndexOf(jobs, id) == |jobs|
    ensures IndexOf(jobs, id) == |jobs| ==> Without(jobs, id) == jobs
  {
    if jobs != [] {
      var prefix := jobs[..|jobs| - 1];
      WithoutShrinks(prefix, id);
      assert jobs == prefix + [jobs[|jobs| - 1]];
      if IndexOf(prefix, id) < |prefix| {
        assert jobs[IndexOf(prefix, id)].id == id;
      }
    }
  }

  lemma IndexOfUnchanged(jobs: seq<Job>, k: nat, job: Job, id: string)
    requires k < |jobs| && jobs[k].id == job.id
    ensures IndexOf(jobs[k := job], id) == IndexOf(jobs, id)
  {
    assert forall i :: 0 <= i < |jobs| ==> jobs[k := job][i].id == jobs[i].id;
  }

  /**
    * The next run of a repeating job is exactly one interval away unless the sum exceeds 64 bits;
    * past that bound it wraps below the clock and the job is due at once.
    */
  lemma EveryIntervalExactUnlessOverflow(gronx: Gronx, s: Schedule, now: Millis)
    requires s.kind == Every && s.every.Some? && s.every.value > 0
    ensures var next := ComputeNextRun(gronx, s, now);
            && next.Some?
            && (next == Some(now + s.every.value) <==> now + s.every.value <= MAX_INT64)
            && (next.value <= now <==> now + s.every.value > MAX_INT64)
  {
    var sum := now + s.every.value;
    if sum > MAX_INT64 {
      assert sum % 0x1_0000_0000_0000_0000 == sum;
    }
  }
}
