/**
 The scheduler's own loops as code, each run by one thread at a time: submission, the slot claim,
 the preemption scan, and one worker's run of a job.
 */
module Scheduler {
  import opened Jobs
  import opened StableQueue
  import opened MlfqSpec
  import opened LevelQueue
  import opened JobQueue
  import opened Protocol
  import opened Slices

  /** A slot of the table as the preemption scan finds it. */
  datatype View = View(hit: bool, status: Status, count: int)

  function HitsIn(views: seq<View>, n: nat): nat
    requires n <= |views|
  {
    if n == 0 then 0 else HitsIn(views, n - 1) + if views[n - 1].hit then 1 else 0
  }

  lemma HitsStart(views: seq<View>)
    ensures HitsIn(views, 0) == 0
  {
  }

  lemma HitsNext(views: seq<View>, n: nat)
    requires n < |views|
    ensures HitsIn(views, n + 1) == HitsIn(views, n) + if views[n].hit then 1 else 0
  {
  }

  function Least(a: nat, b: nat): nat {
    if a < b then a else b
  }

  /** The ticks of a run: until the burst is done, the quantum is used up, a request lands, or the
      scheduler stops, whichever comes first. */
  function TicksOfRun(burst: int, elapsed: int, level: int, slice: int, hitAt: nat, downAt: nat): nat {
    Least(Least(RemainingTicks(burst, elapsed), TicksLeftInSlice(level, slice)), Least(hitAt, downAt))
  }

  /** A fresh slice in which no request lands and nobody stops the scheduler is one step of the progress
      function. */
  lemma UndisturbedRun(x: JobInfo, p: Progress, hitAt: nat, downAt: nat)
    requires p.level < MLFQ_LEVELS && hitAt > Quantum(p.level) && downAt > Quantum(p.level)
    ensures var t, p' := TicksOfRun(x.burst, p.elapsed, p.level, 0, hitAt, downAt), AfterRun(x, p);
            && t < hitAt && t < downAt && p'.elapsed == p.elapsed + t
            && (p'.elapsed < x.burst ==> p'.level == LevelAfter(p.level, QuantumExpired(p.level, t)))
            && (p'.elapsed >= x.burst ==> p'.level == p.level)
  {
  }

  class Scheduler {
    const queue: MLFQJobQueue
    const activeJobs: array<Job?>
    const allJobs: array<Job?>
    var allJobsCount: nat
    var totalSubmitted: int
    var totalPreemptions: int

    constructor ()
      ensures Built() && queue.Valid() && queue.Lists() == [[], [], []] && queue.Nodes() == {}
      ensures fresh(queue) && fresh(activeJobs) && fresh(allJobs)
      ensures forall l | 0 <= l < MLFQ_LEVELS :: fresh(queue.levels[l])
      ensures allJobsCount == 0 && totalSubmitted == totalPreemptions == 0
      ensures forall k | 0 <= k < MAX_CONCURRENT :: activeJobs[k] == null
    {
      queue := new MLFQJobQueue();
      activeJobs := new Job?[MAX_CONCURRENT](_ => null);
      allJobs := new Job?[MAX_JOBS](_ => null);
      allJobsCount, totalSubmitted, totalPreemptions := 0, 0, 0;
    }

    ghost predicate Built()
      reads this
    {
      activeJobs.Length == MAX_CONCURRENT && allJobs.Length == MAX_JOBS && allJobsCount <= MAX_JOBS && activeJobs != allJobs
    }

    ghost function Held(): (held: Slots)
      requires activeJobs.Length == MAX_CONCURRENT
      reads activeJobs
      ensures forall k | 0 <= k < MAX_CONCURRENT :: held[k] <==> activeJobs[k] != null
    {
      [activeJobs[0] != null, activeJobs[1] != null, activeJobs[2] != null, activeJobs[3] != null]
    }

    /** A job beyond MAX_JOBS is queued all the same; only the table of all jobs does not show it. */
    method SubmitJob(job: Job)
      requires Built() && queue.Valid()
      modifies this, allJobs, queue.levels[0], queue.levels[0].repr
      modifies job`mlfqLevel, job`ticksThisSlice, job`agingTicks, job`status
      ensures Built() && queue.Valid()
      ensures forall n | n in queue.Nodes() :: n in old(queue.Nodes()) || fresh(n)
      ensures totalSubmitted == old(totalSubmitted) + 1
      ensures allJobs[..allJobsCount] ==
                old(if allJobsCount < MAX_JOBS then allJobs[..allJobsCount] + [job] else allJobs[..allJobsCount])
      ensures queue.Lists() == old(queue.Lists())[0 := Insert(JobKey, old(queue.Lists())[0], job)]
      ensures job.mlfqLevel == job.ticksThisSlice == job.agingTicks == 0 && job.status == Ready
    {
      hide Insert, SingleLevelQueue.Valid;
      if allJobsCount < MAX_JOBS {
        allJobs[allJobsCount] := job;
        allJobsCount := allJobsCount + 1;
      }
      totalSubmitted := totalSubmitted + 1;
      queue.PushNew(job);
    }

    /** What it means for the table that a slot is the nearest free one. */
    lemma NearestMeans(held: Slots, start: nat, slot: nat)
      requires Built() && held == Held() && start < MAX_CONCURRENT && NearestFree(held, start, slot)
      ensures slot < MAX_CONCURRENT && (activeJobs[start] == null ==> slot == start)
      ensures forall k | 0 <= k < MAX_CONCURRENT && activeJobs[k] == null ::
                && activeJobs[slot] == null
                && (slot - start + MAX_CONCURRENT) % MAX_CONCURRENT <= (k - start + MAX_CONCURRENT) % MAX_CONCURRENT
      ensures activeJobs[slot] != null ==> slot == start
    {
    }

    /** The locked section of workerFunc that claims a slot, starting from `start`. */
    method Claim(job: Job, start: nat) returns (slot: nat)
      requires Built() && start < MAX_CONCURRENT
      modifies activeJobs
      ensures slot == old(FindSlot(Held(), start, 0))
      ensures forall k | 0 <= k < MAX_CONCURRENT :: activeJobs[k] == if k == slot then job else old(activeJobs[k])
      ensures slot < MAX_CONCURRENT && (old(activeJobs[start]) == null ==> slot == start)
      ensures forall k | 0 <= k < MAX_CONCURRENT && old(activeJobs[k]) == null ::
                && old(activeJobs[slot]) == null
                && (slot - start + MAX_CONCURRENT) % MAX_CONCURRENT <= (k - start + MAX_CONCURRENT) % MAX_CONCURRENT
      ensures old(activeJobs[slot]) != null ==> slot == start
    {
      hide FindSlot, NearestFree;
      slot := start;
      ghost var held := Held();
      FindSlotNearest(held, start);
      NearestMeans(held, start, FindSlot(held, start, 0));
      var i := 0;
      while i < MAX_CONCURRENT
        invariant 0 <= i <= MAX_CONCURRENT && slot == start
        invariant forall k | 0 <= k < MAX_CONCURRENT :: activeJobs[k] == old(activeJobs[k])
        invariant FindSlot(held, start, 0) == FindSlot(held, start, i)
      {
        FindSlotNext(held, start, i);
        if activeJobs[(slot + i) % MAX_CONCURRENT] == null {
          slot := (slot + i) % MAX_CONCURRENT;
          break;
        }
        i := i + 1;
      }
      FindSlotNext(held, start, i);
      activeJobs[slot] := job;
    }

    /** The scan hits the job of this slot: it is Running and a better candidate is queued. */
    ghost predicate Hit(k: nat)
      requires activeJobs.Length == MAX_CONCURRENT && k < MAX_CONCURRENT && |queue.levels| == MLFQ_LEVELS
      reads activeJobs, queue.levels, At(k)
    {
      var j := activeJobs[k];
      j != null && j.status == Running && Better(JobKey, queue.Lists(), j.mlfqLevel, j.info.priority.Value())
    }

    /** What the scan finds at a slot. */
    ghost function ViewAt(k: nat): View
      requires activeJobs.Length == MAX_CONCURRENT && k < MAX_CONCURRENT && |queue.levels| == MLFQ_LEVELS
      reads activeJobs, queue.levels, At(k)
    {
      var j := activeJobs[k];
      View(Hit(k), if j == null then Waiting else j.status, if j == null then 0 else j.preemptionCount)
    }

    ghost function Views(): (v: seq<View>)
      requires activeJobs.Length == MAX_CONCURRENT && |queue.levels| == MLFQ_LEVELS
      reads activeJobs, queue.levels, activeJobs[..]
      ensures |v| == MAX_CONCURRENT && forall k | 0 <= k < MAX_CONCURRENT :: v[k] == ViewAt(k)
    {
      [ViewAt(0), ViewAt(1), ViewAt(2), ViewAt(3)]
    }

    /** What the scan leaves at a slot, given what it found: a hit job is Preempted and counted once,
        any other job is as it was. */
    ghost predicate Scanned(k: nat, v: View)
      requires activeJobs.Length == MAX_CONCURRENT && k < MAX_CONCURRENT
      reads activeJobs, At(k)
    {
      var j := activeJobs[k];
      j != null ==>
        && j.status == (if v.hit then Preempted else v.status)
        && j.preemptionCount == v.count + if v.hit then 1 else 0
    }

    method RequestPreemption(target: Job) returns (won: bool)
      modifies this`totalPreemptions, target`status, target`preemptionCount
      ensures won <==> old(target.status) == Running
      ensures target.status == if won then Preempted else old(target.status)
      ensures target.preemptionCount == old(target.preemptionCount) + if won then 1 else 0
      ensures totalPreemptions == old(totalPreemptions) + if won then 1 else 0
    {
      if target.status == Running {
        target.status := Preempted;
        totalPreemptions := totalPreemptions + 1;
        target.preemptionCount := target.preemptionCount + 1;
        return true;
      }
      return false;
    }

    ghost predicate DistinctTable()
      requires activeJobs.Length == MAX_CONCURRENT
      reads activeJobs
    {
      forall j, k | 0 <= j < k < MAX_CONCURRENT && activeJobs[j] != null :: activeJobs[j] != activeJobs[k]
    }

    ghost function At(slot: nat): set<Job>
      requires activeJobs.Length == MAX_CONCURRENT && slot < MAX_CONCURRENT
      reads activeJobs
    {
      var j := activeJobs[slot];
      if j == null then {} else {j}
    }

    lemma SlotsApart(slot: nat)
      requires activeJobs.Length == MAX_CONCURRENT && DistinctTable() && slot < MAX_CONCURRENT
      ensures forall k | 0 <= k < MAX_CONCURRENT && k != slot :: At(k) !! At(slot)
    {
    }

    /** One slot of the scan. */
    method CheckSlot(slot: nat)
      requires Built() && queue.Valid() && slot < MAX_CONCURRENT
      requires activeJobs[slot] != null ==> 0 <= activeJobs[slot].mlfqLevel < MLFQ_LEVELS
      modifies this`totalPreemptions, At(slot)`status, At(slot)`preemptionCount
      ensures queue.Valid() && Scanned(slot, old(ViewAt(slot)))
      ensures totalPreemptions == old(totalPreemptions) + if old(Hit(slot)) then 1 else 0
    {
      hide Better, SingleLevelQueue.Valid;
      var j := activeJobs[slot];
      if j == null {
        return;
      }
      if j.status != Running {
        return;
      }
      var better := queue.HasBetterCandidate(j.mlfqLevel, j.info.priority.Value());
      if better {
        var won := RequestPreemption(j);
      }
    }

    /** The preemption scan: exactly the running jobs that some queued job beats are hit, once each. */
    method CheckPreemptions()
      requires Built() && queue.Valid() && DistinctTable()
      requires forall k | 0 <= k < MAX_CONCURRENT && activeJobs[k] != null :: 0 <= activeJobs[k].mlfqLevel < MLFQ_LEVELS
      modifies this`totalPreemptions, activeJobs[..]`status, activeJobs[..]`preemptionCount
      ensures queue.Valid()
      ensures forall k | 0 <= k < MAX_CONCURRENT :: Scanned(k, old(Views())[k])
      ensures totalPreemptions == old(totalPreemptions) + HitsIn(old(Views()), MAX_CONCURRENT)
      ensures forall k | 0 <= k < MAX_CONCURRENT && activeJobs[k] != null ::
                var j := activeJobs[k];
                if old(j.status) == Running && old(Outranked(queue.Lists(), j.mlfqLevel, j.info.priority)) then
                  j.status == Preempted && j.preemptionCount == old(j.preemptionCount) + 1
                else
                  j.status == old(j.status) && j.preemptionCount == old(j.preemptionCount)
    {
      hide Outranked, Hit, Scanned, ViewAt, Views, DistinctTable, HitsIn, MLFQJobQueue.Valid;
      queue.LevelsBuilt();
      ghost var views := Views();
      HitsStart(views);
      forall k | 0 <= k < MAX_CONCURRENT && activeJobs[k] != null
        ensures var j, v := activeJobs[k], views[k];
                && v.status == j.status && v.count == j.preemptionCount
                && (v.hit <==> j.status == Running && Outranked(queue.Lists(), j.mlfqLevel, j.info.priority))
      {
        ViewIs(k);
      }
      var slot := 0;
      while slot < MAX_CONCURRENT
        invariant 0 <= slot <= MAX_CONCURRENT && queue.Valid()
        invariant forall k | 0 <= k < slot :: Scanned(k, views[k])
        invariant forall k | slot <= k < MAX_CONCURRENT :: ViewAt(k) == views[k]
        invariant totalPreemptions == old(totalPreemptions) + HitsIn(views, slot)
      {
        SlotsApart(slot);
        InTable(slot);
        HitsNext(views, slot);
        ViewHit(slot);
        CheckSlot(slot);
        slot := slot + 1;
      }
      forall k | 0 <= k < MAX_CONCURRENT && activeJobs[k] != null
        ensures activeJobs[k].status == (if views[k].hit then Preempted else views[k].status)
        ensures activeJobs[k].preemptionCount == views[k].count + (if views[k].hit then 1 else 0)
      {
        ScannedIs(k, views[k]);
      }
    }

    /** A view is what the fields say, and a hit is meant for a running job that some queued job
        outranks at its level or from a better one. */
    lemma ViewIs(k: nat)
      requires activeJobs.Length == MAX_CONCURRENT && k < MAX_CONCURRENT && |queue.levels| == MLFQ_LEVELS
      requires activeJobs[k] != null
      ensures var j, v := activeJobs[k], ViewAt(k);
              && v.status == j.status && v.count == j.preemptionCount
              && (v.hit <==> j.status == Running && Outranked(queue.Lists(), j.mlfqLevel, j.info.priority))
    {
      hide Outranked, Better;
      BetterIsOutranked(queue.Lists(), activeJobs[k].mlfqLevel, activeJobs[k].info.priority);
    }

    lemma ScannedIs(k: nat, v: View)
      requires activeJobs.Length == MAX_CONCURRENT && k < MAX_CONCURRENT && Scanned(k, v) && activeJobs[k] != null
      ensures activeJobs[k].status == if v.hit then Preempted else v.status
      ensures activeJobs[k].preemptionCount == v.count + if v.hit then 1 else 0
    {
    }

    lemma InTable(slot: nat)
      requires activeJobs.Length == MAX_CONCURRENT && slot < MAX_CONCURRENT
      ensures forall j | j in At(slot) :: j in activeJobs[..]
    {
    }

    lemma ViewHit(slot: nat)
      requires activeJobs.Length == MAX_CONCURRENT && slot < MAX_CONCURRENT && |queue.levels| == MLFQ_LEVELS
      ensures ViewAt(slot).hit == Hit(slot)
    {
    }

    // -------------------------------------------------------------- one run of a job

    /** The loop stops in time, and never without a reason: it executes at most hitAt and at most downAt
        ticks, none beyond the burst or the quantum, and it has executed as many as one of these allows. */
    predicate StopsRight(job: Job, elapsed: int, slice: int, hitAt: nat, downAt: nat)
      reads job
    {
      var t := job.elapsedTicks - elapsed;
      && 0 <= t <= hitAt && t <= downAt && job.ticksThisSlice == slice + t
      && (t > 0 ==> job.elapsedTicks <= job.info.burst && job.ticksThisSlice <= Quantum(job.mlfqLevel))
      && (t == hitAt || t == downAt || job.elapsedTicks >= job.info.burst || job.ticksThisSlice >= Quantum(job.mlfqLevel))
    }

    /** The tick loop of workerFunc. Two things can come in from other threads, and the caller says
        when, counted in ticks of this run: a preemption request lands before the loop test that
        follows tick number hitAt, and the running flag is down from the test after tick number downAt. */
    method RunSlice(job: Job, hitAt: nat, downAt: nat) returns (wasPreempted: bool)
      requires job.status == Running
      modifies this`totalPreemptions
      modifies job`elapsedTicks, job`ticksThisSlice, job`status, job`preemptionCount
      ensures var t := TicksOfRun(job.info.burst, old(job.elapsedTicks), job.mlfqLevel, old(job.ticksThisSlice), hitAt, downAt);
              && job.elapsedTicks == old(job.elapsedTicks) + t
              && job.ticksThisSlice == old(job.ticksThisSlice) + t
              && wasPreempted == (job.elapsedTicks < job.info.burst && t < downAt)
              && job.status == (if wasPreempted || t == hitAt then Preempted else Running)
              && job.preemptionCount == old(job.preemptionCount) + (if t == hitAt then 1 else 0)
      ensures StopsRight(job, old(job.elapsedTicks), old(job.ticksThisSlice), hitAt, downAt)
    {
      wasPreempted := false;
      ghost var burst, elapsed, level, slice := job.info.burst, job.elapsedTicks, job.mlfqLevel, job.ticksThisSlice;
      var ticks := 0;
      if ticks == hitAt {
        var won := RequestPreemption(job);
      }
      while job.elapsedTicks < job.info.burst && ticks < downAt
        invariant 0 <= ticks <= downAt && ticks <= hitAt && !wasPreempted
        invariant ticks <= RemainingTicks(burst, elapsed) && ticks <= TicksLeftInSlice(level, slice)
        invariant job.elapsedTicks == elapsed + ticks && job.ticksThisSlice == slice + ticks
        invariant job.status == if ticks == hitAt then Preempted else Running
        invariant job.preemptionCount == old(job.preemptionCount) + if ticks == hitAt then 1 else 0
        decreases job.info.burst - job.elapsedTicks
      {
        if job.status == Preempted {
          wasPreempted := true;
          break;
        }
        if job.Expired() {
          job.status := Preempted;
          wasPreempted := true;
          break;
        }
        job.elapsedTicks := job.elapsedTicks + 1;
        job.ticksThisSlice := job.ticksThisSlice + 1;
        ticks := ticks + 1;
        if ticks == hitAt {
          var won := RequestPreemption(job);
        }
      }
    }

    /** The end of a run, after the slot is cleared and the budgets are given back. */
    method Finish(job: Job, wasPreempted: bool)
      requires queue.Valid() && 0 <= job.mlfqLevel < MLFQ_LEVELS
      modifies queue.levels, queue.Nodes()
      modifies job`ticksThisSlice, job`agingTicks, job`mlfqLevel, job`status
      ensures queue.Valid() && forall n | n in queue.Nodes() :: n in old(queue.Nodes()) || fresh(n)
      ensures if job.elapsedTicks >= job.info.burst then
                job.status == Completed && job.mlfqLevel == old(job.mlfqLevel) && queue.Lists() == old(queue.Lists())
              else if wasPreempted then
                && (old(job.ticksThisSlice) < Quantum(old(job.mlfqLevel)) ==> job.mlfqLevel == old(job.mlfqLevel))
                && (old(job.ticksThisSlice) >= Quantum(old(job.mlfqLevel)) ==>
                      job.mlfqLevel == if old(job.mlfqLevel) == 2 then 2 else old(job.mlfqLevel) + 1)
                && job.ticksThisSlice == job.agingTicks == 0
                && job.status == Ready && 0 <= job.mlfqLevel < MLFQ_LEVELS
                && queue.Lists() == old(queue.Lists())[job.mlfqLevel := Insert(JobKey, old(queue.Lists())[job.mlfqLevel], job)]
              else
                && job.status == old(job.status) && job.mlfqLevel == old(job.mlfqLevel)
                && queue.Lists() == old(queue.Lists())
    {
      hide Insert, SingleLevelQueue.Valid;
      if job.elapsedTicks >= job.info.burst {
        job.status := Completed;
      } else if wasPreempted {
        var demote := job.Expired();
        queue.RequeuePreempted(job, demote);
      }
    }

    /** A whole run: a finished job is Completed and in no list; a job that was preempted, or used its
        quantum up, is Ready and queued, one level down exactly if the quantum is used up; a job caught
        by the shutdown is left as it is. */
    method RunJob(job: Job, hitAt: nat, downAt: nat)
      requires Built() && queue.Valid() && 0 <= job.mlfqLevel < MLFQ_LEVELS
      modifies this`totalPreemptions, queue.levels, queue.Nodes()
      modifies job`elapsedTicks, job`ticksThisSlice, job`agingTicks, job`mlfqLevel, job`status, job`preemptionCount
      ensures queue.Valid() && forall n | n in queue.Nodes() :: n in old(queue.Nodes()) || fresh(n)
      ensures var level := old(job.mlfqLevel);
              var t := TicksOfRun(job.info.burst, old(job.elapsedTicks), level, old(job.ticksThisSlice), hitAt, downAt);
              && job.elapsedTicks == old(job.elapsedTicks) + t
              && job.preemptionCount == old(job.preemptionCount) + (if t == hitAt then 1 else 0)
              && (if job.elapsedTicks >= job.info.burst then
                    job.status == Completed && job.mlfqLevel == level && queue.Lists() == old(queue.Lists())
                  else if t < downAt then
                    && (old(job.ticksThisSlice) + t < Quantum(level) ==> job.mlfqLevel == level)
                    && (old(job.ticksThisSlice) + t >= Quantum(level) ==> job.mlfqLevel == if level == 2 then 2 else level + 1)
                    && job.ticksThisSlice == job.agingTicks == 0
                    && job.status == Ready && 0 <= job.mlfqLevel < MLFQ_LEVELS
                    && queue.Lists() == old(queue.Lists())[job.mlfqLevel := Insert(JobKey, old(queue.Lists())[job.mlfqLevel], job)]
                  else
                    && job.status == (if t == hitAt then Preempted else Running)
                    && job.mlfqLevel == level && queue.Lists() == old(queue.Lists()))
    {
      hide Insert, SingleLevelQueue.Valid, TicksOfRun;
      queue.LevelsBuilt();
      job.status := Running;
      var wasPreempted := RunSlice(job, hitAt, downAt);
      Finish(job, wasPreempted);
    }
  }
}
