/**
 The properties of the protocol, stated over every execution: b is the sequence of states, steps
 the sequence of steps between them.
 */
module Theorems {
  import opened Jobs
  import opened StableQueue
  import opened MlfqSpec
  import opened Protocol
  import opened WorkerTally
  import opened Accounting
  import opened Ownership
  import opened JobRecords
  import opened RunInvariant
  import opened Safety
  import opened Sweeps
  import opened Counters

  // ---------------------------------------------------------------- slots and ownership

  /** The wrap-around scan of a worker that was granted its budget ends on a free entry, so the claim
      changes that entry only and overwrites no other job. */
  lemma ClaimNeverOverwrites(b: seq<State>, steps: seq<Step>, k: nat)
    requires Execution(b, steps) && k < |steps| && steps[k].Work?
    requires steps[k].i < |b[k].workers| && b[k].workers[steps[k].i].pc == Granted
    ensures var i := steps[k].i;
            && i < |b[k + 1].workers|
            && 0 <= b[k + 1].workers[i].slot < MAX_CONCURRENT
            && b[k].active[b[k + 1].workers[i].slot].Empty?
            && b[k + 1].active == b[k].active[b[k + 1].workers[i].slot := Held(b[k].workers[i].job, i)]
  {
    hide Safe, Enabled, FindSlot, StartSlot;
    ReachableSafe(b, steps, k);
    ClaimIsFree(b[k], steps[k].i, steps[k].hint);
  }

  /** The claim starts at the worker's own hint if it has one, else at the second, else at slot 0. It takes
      that slot if it is free, and in general no free slot is nearer to it, going up and around. */
  lemma ClaimTakesNearest(b: seq<State>, steps: seq<Step>, k: nat)
    requires Execution(b, steps) && k < |steps| && steps[k].Work?
    requires steps[k].i < |b[k].workers| && b[k].workers[steps[k].i].pc == Granted
    ensures steps[k].i < |b[k + 1].workers|
    ensures var own, again, slot := b[k].workers[steps[k].i].slot, steps[k].hint, b[k + 1].workers[steps[k].i].slot;
            var start := if own >= 0 then own else if again >= 0 then again else 0;
            && 0 <= start < MAX_CONCURRENT && 0 <= slot < MAX_CONCURRENT
            && (b[k].active[start].Empty? ==> slot == start)
            && forall e | 0 <= e < MAX_CONCURRENT && b[k].active[e].Empty? ::
                 (slot - start + MAX_CONCURRENT) % MAX_CONCURRENT <= (e - start + MAX_CONCURRENT) % MAX_CONCURRENT
  {
    hide Enabled, FindSlot;
    ClaimIs(b[k], steps[k].i, steps[k].hint);
  }

  lemma ClaimIs(s: State, i: nat, hint: int)
    requires Enabled(s, Work(i, hint)) && s.workers[i].pc == Granted
    ensures i < |DoWork(s, i, hint).workers|
    ensures var own, slot := s.workers[i].slot, DoWork(s, i, hint).workers[i].slot;
            var start := if own >= 0 then own else if hint >= 0 then hint else 0;
            && 0 <= start < MAX_CONCURRENT && 0 <= slot < MAX_CONCURRENT
            && (s.active[start].Empty? ==> slot == start)
            && forall e | 0 <= e < MAX_CONCURRENT && s.active[e].Empty? ::
                 (slot - start + MAX_CONCURRENT) % MAX_CONCURRENT <= (e - start + MAX_CONCURRENT) % MAX_CONCURRENT
  {
    hide DoWork, FindSlot, Occupancy;
    var own := s.workers[i].slot;
    var start := if own >= 0 then own else if hint >= 0 then hint else 0;
    ClaimedSlot(s, i, hint);
    FindSlotNearest(Occupancy(s.active), start);
    EmptyIsFree(s.active);
  }

  lemma ClaimedSlot(s: State, i: nat, hint: int)
    requires Enabled(s, Work(i, hint)) && s.workers[i].pc == Granted
    ensures i < |DoWork(s, i, hint).workers|
    ensures DoWork(s, i, hint).workers[i].slot == FindSlot(Occupancy(s.active), StartSlot(s.workers[i].slot, hint), 0)
  {
    hide AroundStep, FindSlot, StartSlot, Occupancy, RunStarted;
  }

  lemma EmptyIsFree(t: Table)
    ensures forall e | 0 <= e < MAX_CONCURRENT :: Occupancy(t)[e] <==> !t[e].Empty?
  {
  }

  /** Before its claim a worker has the hint that the dispatcher gave it, with the job in hand, when it
      was spawned at step j. */
  lemma {:induction false} HintIsKept(b: seq<State>, steps: seq<Step>, k: nat, i: nat) returns (j: nat)
    requires Execution(b, steps) && k < |b| && i < |b[k].workers| && BeforeRun(b[k].workers[i].pc)
    ensures j < k && |b[j].workers| == i && steps[j].Dispatch?
    ensures b[j].dispatcher == Hand(b[k].workers[i].job) && b[k].workers[i].slot == steps[j].hint
    decreases k
  {
    hide Apply, Enabled, BeforeRun;
    assert k > 0 by {
      NoWorkersAtFirst();
    }
    StepKeepsHint(b[k - 1], steps[k - 1], i);
    if i < |b[k - 1].workers| {
      j := HintIsKept(b, steps, k - 1, i);
    } else {
      j := k - 1;
    }
  }

  lemma NoWorkersAtFirst()
    ensures Init().workers == []
  {
  }

  lemma StepKeepsHint(s: State, step: Step, i: nat)
    requires Enabled(s, step) && i < |Apply(s, step).workers| && BeforeRun(Apply(s, step).workers[i].pc)
    ensures var w := Apply(s, step).workers[i];
            if i < |s.workers| then BeforeRun(s.workers[i].pc) && s.workers[i].job == w.job && s.workers[i].slot == w.slot
            else i == |s.workers| && step.Dispatch? && s.dispatcher == Hand(w.job) && w.slot == step.hint
  {
    hide DoWork, DoDispatch, Insert;
    match step {
      case Work(j, hint) =>
        WorkFrames(s, j, hint);
        if j == i {
          WorkKeepsHint(s, i, hint);
        }
      case Dispatch(sweep, hint) =>
        DispatchFrames(s, sweep, hint);
        if s.dispatcher.Hand? {
          DispatchSpawns(s, sweep, hint);
        }
      case Age => AgeFrames(s);
      case _ =>
    }
  }

  lemma WorkKeepsHint(s: State, i: nat, hint: int)
    requires Enabled(s, Work(i, hint))
    ensures i < |DoWork(s, i, hint).workers|
    ensures BeforeRun(DoWork(s, i, hint).workers[i].pc) ==>
              BeforeRun(s.workers[i].pc) && DoWork(s, i, hint).workers[i].slot == s.workers[i].slot
  {
    if HoldsSlotOrClaims(s.workers[i].pc) {
      RunIsNotBefore(s, i, hint);
    } else {
      hide DoWork;
      AroundKeepsHint(s, i, hint);
    }
  }

  lemma RunIsNotBefore(s: State, i: nat, hint: int)
    requires Enabled(s, Work(i, hint)) && HoldsSlotOrClaims(s.workers[i].pc)
    ensures i < |DoWork(s, i, hint).workers| && !BeforeRun(DoWork(s, i, hint).workers[i].pc)
  {
    hide AroundStep, FindSlot, StartSlot, QuantumExpired;
  }

  lemma AroundKeepsHint(s: State, i: nat, hint: int)
    requires Enabled(s, Work(i, hint)) && !HoldsSlotOrClaims(s.workers[i].pc)
    ensures i < |DoWork(s, i, hint).workers|
    ensures BeforeRun(DoWork(s, i, hint).workers[i].pc) ==>
              BeforeRun(s.workers[i].pc) && DoWork(s, i, hint).workers[i].slot == s.workers[i].slot
  {
    hide RunStep, Fits, Released, Insert, Requeued;
  }

  lemma ClaimIsFree(s: State, i: nat, hint: int)
    requires Enabled(s, Work(i, hint)) && s.workers[i].pc == Granted && Safe(s)
    ensures var s' := DoWork(s, i, hint);
            && i < |s'.workers| && 0 <= s'.workers[i].slot < MAX_CONCURRENT
            && s.active[s'.workers[i].slot].Empty?
            && s'.active == s.active[s'.workers[i].slot := Held(s.workers[i].job, i)]
  {
    hide Owned, Recorded, FindSlot, StartSlot, Balanced, RunStarted;
    SafeWorkers(s);
    ClaimFindsEmpty(s, i, hint);
  }

  /** Two workers never own the same job, and two workers in a run never share a slot. */
  lemma WorkersDoNotShare(b: seq<State>, steps: seq<Step>, k: nat, i: nat, j: nat)
    requires Execution(b, steps) && k < |b| && i < j < |b[k].workers|
    ensures var w, v := b[k].workers[i], b[k].workers[j];
            && (Owns(w.pc) && Owns(v.pc) ==> w.job != v.job)
            && (HoldsSlot(w.pc) && HoldsSlot(v.pc) ==> w.slot != v.slot)
  {
    hide Execution, Owned, Balanced, Recorded;
    ReachableSafe(b, steps, k);
    if Owns(b[k].workers[i].pc) {
      NotElsewhere(b[k], i);
    }
  }

  /** Conservation: a job that was handed in is in exactly one place, any other job in none. */
  lemma ExactlyOnePlace(b: seq<State>, steps: seq<Step>, k: nat, x: JobInfo)
    requires Execution(b, steps) && k < |b|
    ensures Copies(b[k], x) == One(x in b[k].jobs)
  {
    hide Execution, Copies;
    ReachableSafe(b, steps, k);
  }

  lemma {:induction false} ReachableCounts(b: seq<State>, steps: seq<Step>, k: nat)
    requires Execution(b, steps) && k < |b|
    ensures Counts(b[k])
  {
    hide Counts, Apply, Enabled, Init, Owned, Accounts, Recorded;
    if k == 0 {
      InitCounts();
    } else {
      ReachableCounts(b, steps, k - 1);
      ReachableSafe(b, steps, k - 1);
      StepKeepsCounts(b[k - 1], steps[k - 1]);
    }
  }

  /** total_submitted is at all times the sum over the places. */
  lemma SubmittedAddsUp(b: seq<State>, steps: seq<Step>, k: nat)
    requires Execution(b, steps) && k < |b|
    ensures var s, t := b[k], Total(b[k].workers);
            s.totalSubmitted ==
              |s.counted| + |Flat(s.queues)| + One(s.dispatcher.Hand?) + |BufferOf(s.aging)| + |t.jobs|
              + s.totalCompleted + t.completing + s.totalFailed + t.failing + |s.abandoned|
    ensures var s, t := b[k], Total(b[k].workers);
            && s.totalSubmitted + |s.registered| == |s.jobs.Keys|
            && s.totalCompleted + t.completing == |s.completed| && s.totalFailed + t.failing == |s.failed|
    ensures |b[k].tracked| == if |b[k].jobs.Keys| < MAX_JOBS then |b[k].jobs.Keys| else MAX_JOBS
  {
    hide Execution, Owned, Accounts, Recorded, Total, Flat;
    ReachableSafe(b, steps, k);
    ReachableCounts(b, steps, k);
    SubmittedIsSumOverPlaces(b[k]);
  }

  /** The jobs in the order of their registration. */
  function RegisteredBy(steps: seq<Step>): seq<JobInfo> {
    if steps == [] then []
    else
      var last := steps[|steps| - 1];
      RegisteredBy(steps[..|steps| - 1]) + (if last.Register? then [last.x] else [])
  }

  lemma StepTracks(s: State, step: Step)
    requires Enabled(s, step)
    ensures Apply(s, step).tracked == if step.Register? && |s.tracked| < MAX_JOBS then s.tracked + [step.x] else s.tracked
  {
    hide DoWork, DoDispatch, Insert;
    match step {
      case Work(i, hint) => WorkFrames(s, i, hint);
      case Dispatch(sweep, hint) => DispatchFrames(s, sweep, hint);
      case Age => AgeFrames(s);
      case _ =>
    }
  }

  /** all_jobs_ holds the first MAX_JOBS jobs registered, in that order. */
  lemma {:induction false} TrackedAreFirst(b: seq<State>, steps: seq<Step>, k: nat)
    requires Execution(b, steps) && k < |b|
    ensures var all := RegisteredBy(steps[..k]);
            b[k].tracked == all[..if |all| < MAX_JOBS then |all| else MAX_JOBS]
  {
    hide Apply, Enabled;
    if k > 0 {
      TrackedAreFirst(b, steps, k - 1);
      StepTracks(b[k - 1], steps[k - 1]);
      assert steps[..k][..k - 1] == steps[..k - 1] && steps[..k][k - 1] == steps[k - 1];
    }
  }

  // ---------------------------------------------------------------- resources

  /** The semaphore and the budgets are exact, the limits hold, and the clamps of release are idle. */
  lemma ResourcesExact(b: seq<State>, steps: seq<Step>, k: nat)
    requires Execution(b, steps) && k < |b|
    ensures var s, t := b[k], Total(b[k].workers);
            && s.permits >= 0 && s.permits + t.permits == MAX_CONCURRENT
            && s.usedCpu == t.cpu && 0 <= s.usedCpu <= TOTAL_CPU
            && s.usedMemory == t.memory && 0 <= s.usedMemory <= TOTAL_MEMORY
            && s.activeCount == t.active <= MAX_CONCURRENT
            && Occupied(s.active) == t.slots
    ensures forall i | 0 <= i < |b[k].workers| && b[k].workers[i].pc == Releasing ::
              var s, x := b[k], b[k].workers[i].job;
              && Released(s.usedCpu, x.cpu) == s.usedCpu - x.cpu
              && Released(s.usedMemory, x.memory) == s.usedMemory - x.memory
              && Released(s.activeCount, 1) == s.activeCount - 1
  {
    hide Execution, Owned, Linked, Recorded, Total, Released;
    ReachableSafe(b, steps, k);
    var s := b[k];
    SafeWorkers(s);
    TotalBounds(s.workers);
    forall i | 0 <= i < |s.workers| && s.workers[i].pc == Releasing
      ensures Released(s.usedCpu, s.workers[i].job.cpu) == s.usedCpu - s.workers[i].job.cpu
      ensures Released(s.usedMemory, s.workers[i].job.memory) == s.usedMemory - s.workers[i].job.memory
      ensures Released(s.activeCount, 1) == s.activeCount - 1
    {
      ReleaseIsExact(s, i);
    }
  }

  // ---------------------------------------------------------------- runs

  /** Runs started <= 1 + preemption_count + floor(elapsed_ticks / 2), for every job at every moment. */
  lemma DispatchBound(b: seq<State>, steps: seq<Step>, k: nat, x: JobInfo)
    requires Execution(b, steps) && k < |b| && x in b[k].jobs
    ensures b[k].jobs[x].runs <= 1 + b[k].jobs[x].preemptions + b[k].jobs[x].elapsed / 2
  {
    hide Execution, Owned, Accounts;
    ReachableSafe(b, steps, k);
    assert RecordOk(b[k], x);
  }

  /** In a run at most one preemption request wins, at most one tick follows the win, the slice
      counts the ticks of this run alone, and it never exceeds the quantum of the level. */
  lemma OneWinOneLateTick(b: seq<State>, steps: seq<Step>, k: nat, i: nat)
    requires Execution(b, steps) && k < |b| && i < |b[k].workers| && HoldsSlot(b[k].workers[i].pc)
    ensures b[k].workers[i].job in b[k].jobs
    ensures var r := b[k].jobs[b[k].workers[i].job];
            && r.wins <= 1 && r.late <= r.wins
            && r.slice == r.runTicks <= (if r.level == 0 then 2 else if r.level == 1 then 4 else 8)
            && (r.wins == 1 ==> r.status == Preempted)
  {
    hide Execution, Owned, Accounts;
    ReachableSafe(b, steps, k);
    OwnerIsSubmitted(b[k], i);
    assert RecordOk(b[k], b[k].workers[i].job);
  }

  /** A request can win only against a job whose worker is in its run and has not been hit yet. */
  lemma WinNeedsRun(b: seq<State>, steps: seq<Step>, k: nat)
    requires Execution(b, steps) && k < |steps| && steps[k].Dispatch?
    requires b[k].dispatcher.Cas? && b[k + 1].dispatcher.CountWin?
    ensures var x := b[k].dispatcher.job;
            && x in b[k].jobs && x in b[k + 1].jobs
            && b[k].jobs[x].wins == 0 && b[k + 1].jobs[x].wins == 1
            && (exists i: nat :: i < |b[k].workers| && HoldsSlot(b[k].workers[i].pc) && b[k].workers[i].job == x)
  {
    hide Safe, Owned, Accounts, Recorded;
    ReachableSafe(b, steps, k);
    WinAgainst(b[k], steps[k].sweep, steps[k].hint);
  }

  lemma WinAgainst(s: State, sweep: bool, hint: int)
    requires Enabled(s, Dispatch(sweep, hint)) && Safe(s) && s.dispatcher.Cas?
    requires DoDispatch(s, sweep, hint).dispatcher.CountWin?
    ensures var x, s' := s.dispatcher.job, DoDispatch(s, sweep, hint);
            && x in s.jobs && x in s'.jobs && s.jobs[x].wins == 0 && s'.jobs[x].wins == 1
            && (exists i: nat :: i < |s.workers| && HoldsSlot(s.workers[i].pc) && s.workers[i].job == x)
  {
    hide Owned, Accounts, Recorded;
    var i := Occupant(s, s.dispatcher.slot, s.dispatcher.job);
  }

  /** Where a job is queued, its fields say so; where it is finished, its ticks add up. */
  lemma PlacesAgree(b: seq<State>, steps: seq<Step>, k: nat, x: JobInfo)
    requires Execution(b, steps) && k < |b| && x in b[k].jobs
    ensures var s, r := b[k], b[k].jobs[x];
            && (forall l | 0 <= l < MLFQ_LEVELS && x in s.queues[l] :: r.level == l && r.slice == 0 && r.status == Ready)
            && 0 <= r.level < MLFQ_LEVELS && 0 <= r.elapsed <= Demand(x.burst)
            && (x in s.completed ==> r.status == Completed && r.elapsed == Demand(x.burst))
            && (x in s.failed ==> r.status == Failed)
            && (x in s.abandoned ==> !s.running && r.elapsed < x.burst)
  {
    hide Execution, Owned, Accounts;
    ReachableSafe(b, steps, k);
    assert RecordOk(b[k], x);
  }

  /** On requeue a job is demoted exactly if this run used its whole quantum, whoever preempted it. */
  lemma DemotedIffQuantumUsed(b: seq<State>, steps: seq<Step>, k: nat)
    requires Execution(b, steps) && k < |steps| && steps[k].Work? && steps[k].i < |b[k].workers|
    requires var w := b[k].workers[steps[k].i];
             w.pc == Deciding && w.preempted && w.job in b[k].jobs && b[k].jobs[w.job].elapsed < w.job.burst
    ensures var x := b[k].workers[steps[k].i].job;
            && x in b[k + 1].jobs
            && var r, r' := b[k].jobs[x], b[k + 1].jobs[x];
            && 0 <= r'.level < MLFQ_LEVELS && x in b[k + 1].queues[r'.level]
            && r.runTicks <= Quantum(r.level)
            && (r.runTicks < Quantum(r.level) ==> r'.level == r.level)
            && (r.runTicks == Quantum(r.level) ==> r'.level == if r.level == 2 then 2 else r.level + 1)
            && r'.slice == 0 && r'.aging == 0 && r'.status == Ready
  {
    hide Safe, Enabled;
    ReachableSafe(b, steps, k);
    RequeueLevel(b[k], steps[k].i, steps[k].hint);
  }

  lemma RequeueLevel(s: State, i: nat, hint: int)
    requires Enabled(s, Work(i, hint)) && s.workers[i].pc == Deciding && s.workers[i].preempted
    requires s.jobs[s.workers[i].job].elapsed < s.workers[i].job.burst && Safe(s)
    ensures var x, s' := s.workers[i].job, DoWork(s, i, hint);
            && x in s'.jobs
            && var r, r' := s.jobs[x], s'.jobs[x];
            && 0 <= r'.level < MLFQ_LEVELS && x in s'.queues[r'.level]
            && r.runTicks <= Quantum(r.level)
            && (r.runTicks < Quantum(r.level) ==> r'.level == r.level)
            && (r.runTicks == Quantum(r.level) ==> r'.level == if r.level == 2 then 2 else r.level + 1)
            && r'.slice == 0 && r'.aging == 0 && r'.status == Ready
  {
    hide Owned, Accounts, Insert, Complete;
    var x := s.workers[i].job;
    assert RecordOk(s, x);
    InsertMembers(s.queues[Requeued(s.jobs[x]).level], x, x);
  }

  /** How a worker leaves its job: a finished job is completed; an unfinished one is requeued if it was
      preempted in this run, by a request or by its quantum, and is abandoned otherwise, which happens
      only after the scheduler was stopped. */
  ghost predicate Leaves(s: State, s': State, w: Worker) {
    && w.job in s.jobs && w.job in s'.jobs
    && var x, r, r' := w.job, s.jobs[w.job], s'.jobs[w.job];
    if r.elapsed >= x.burst then
      && r'.status == Completed && s'.completed == s.completed + {x}
      && s'.abandoned == s.abandoned && s'.queues == s.queues
    else if w.preempted then
      && (r.wins == 1 || r.runTicks == Quantum(r.level))
      && 0 <= r'.level < MLFQ_LEVELS && s'.completed == s.completed && s'.abandoned == s.abandoned
      && multiset(s'.queues[r'.level]) == multiset(s.queues[r'.level]) + multiset{x}
      && (forall l | 0 <= l < MLFQ_LEVELS && l != r'.level :: s'.queues[l] == s.queues[l])
    else
      && !s.running && r' == r
      && s'.abandoned == s.abandoned + {x} && s'.completed == s.completed && s'.queues == s.queues
  }

  lemma RunEnds(b: seq<State>, steps: seq<Step>, k: nat)
    requires Execution(b, steps) && k < |steps| && steps[k].Work?
    requires steps[k].i < |b[k].workers| && b[k].workers[steps[k].i].pc == Deciding
    ensures Leaves(b[k], b[k + 1], b[k].workers[steps[k].i])
  {
    hide DoWork, Safe, Leaves;
    ReachableSafe(b, steps, k);
    EndIs(b[k], steps[k].i, steps[k].hint);
    DecideLeaves(b[k], steps[k].i);
  }

  lemma DecideLeaves(s: State, i: nat)
    requires HasWorker(s, i) && 0 <= s.jobs[s.workers[i].job].level < MLFQ_LEVELS
    requires s.workers[i].pc == Deciding && Safe(s)
    ensures Leaves(s, Decide(s, i), s.workers[i])
  {
    hide Owned, Accounts, Insert;
    assert RecordOk(s, s.workers[i].job);
  }

  // ---------------------------------------------------------------- status changes

  predicate StatusMove(a: Status, b: Status) {
    || a == b
    || (a == Waiting && b == Ready)
    || (a == Ready && (b == Running || b == Failed))
    || (a == Running && (b == Preempted || b == Completed))
    || (a == Preempted && (b == Ready || b == Completed))
  }

  lemma RunStatus(s: State, i: nat, hint: int)
    requires Enabled(s, Work(i, hint)) && HoldsSlotOrClaims(s.workers[i].pc)
    requires WorkerOk(s.workers[i], s.jobs[s.workers[i].job], Pending(s.dispatcher, s.workers[i].job), s.running)
    ensures var x := s.workers[i].job;
            x in DoWork(s, i, hint).jobs && StatusMove(s.jobs[x].status, DoWork(s, i, hint).jobs[x].status)
  {
  }

  lemma AroundRunStatus(s: State, i: nat, hint: int)
    requires Enabled(s, Work(i, hint)) && !HoldsSlotOrClaims(s.workers[i].pc)
    requires Owns(s.workers[i].pc) ==>
               WorkerOk(s.workers[i], s.jobs[s.workers[i].job], Pending(s.dispatcher, s.workers[i].job), s.running)
    ensures var x := s.workers[i].job;
            x in DoWork(s, i, hint).jobs && StatusMove(s.jobs[x].status, DoWork(s, i, hint).jobs[x].status)
  {
    hide RunStep, Insert, Fits, Released;
  }

  lemma WorkStatus(s: State, i: nat, hint: int, x: JobInfo)
    requires Enabled(s, Work(i, hint)) && Recorded(s) && x in s.jobs
    ensures x in DoWork(s, i, hint).jobs && StatusMove(s.jobs[x].status, DoWork(s, i, hint).jobs[x].status)
  {
    hide DoWork, WorkerOk;
    WorkFrames(s, i, hint);
    assert RecordOk(s, s.workers[i].job);
    if x == s.workers[i].job {
      if HoldsSlotOrClaims(s.workers[i].pc) {
        RunStatus(s, i, hint);
      } else {
        AroundRunStatus(s, i, hint);
      }
    }
  }

  lemma OtherStatus(s: State, step: Step, x: JobInfo)
    requires Enabled(s, step) && Recorded(s) && x in s.jobs && !step.Work?
    ensures x in Apply(s, step).jobs && StatusMove(s.jobs[x].status, Apply(s, step).jobs[x].status)
  {
    hide Insert, Taken, Kept, AgeFlags, ScanSlot, ProbeLevel, ProbeHead;
    if step.Dispatch? {
      DispatchFrames(s, step.sweep, step.hint);
      if s.dispatcher.Scan? || s.dispatcher.Probe? || s.dispatcher.ProbeTop? {
        ScanQuiet(s, step.sweep, step.hint);
      }
    }
    assert RecordOk(s, x);
    hide RecordOk;
  }

  /** Every step changes every status along the graph, whichever thread takes it. */
  lemma StatusGraph(b: seq<State>, steps: seq<Step>, k: nat, x: JobInfo)
    requires Execution(b, steps) && k < |steps| && x in b[k].jobs
    ensures x in b[k + 1].jobs && StatusMove(b[k].jobs[x].status, b[k + 1].jobs[x].status)
  {
    hide Enabled, DoWork, DoDispatch, DoAge, DoRegister, Owned, Accounts, Recorded;
    ReachableSafe(b, steps, k);
    if steps[k].Work? {
      WorkStatus(b[k], steps[k].i, steps[k].hint, x);
    } else {
      OtherStatus(b[k], steps[k], x);
    }
  }

  /** Completed and Failed are final. */
  lemma {:induction false} FinalStatusStays(b: seq<State>, steps: seq<Step>, from: nat, to: nat, x: JobInfo)
    requires Execution(b, steps) && from <= to < |b| && x in b[from].jobs
    requires b[from].jobs[x].status == Completed || b[from].jobs[x].status == Failed
    ensures x in b[to].jobs && b[to].jobs[x].status == b[from].jobs[x].status
  {
    hide Apply, Enabled;
    if from < to {
      FinalStatusStays(b, steps, from, to - 1, x);
      StatusGraph(b, steps, to - 1, x);
    }
  }

  /** The level of a job is the same before and after any step taken while a worker runs it. */
  lemma LevelFixedDuringRun(b: seq<State>, steps: seq<Step>, k: nat, i: nat)
    requires Execution(b, steps) && k < |steps| && i < |b[k].workers| && HoldsSlot(b[k].workers[i].pc)
    ensures var x := b[k].workers[i].job;
            x in b[k].jobs && x in b[k + 1].jobs && b[k + 1].jobs[x].level == b[k].jobs[x].level
  {
    hide Apply, Enabled, Owned, Accounts, Recorded;
    ReachableSafe(b, steps, k);
    StepKeepsLevel(b[k], steps[k], i);
  }

  // ---------------------------------------------------------------- waiting

  lemma {:induction false} ReachableMarks(b: seq<State>, steps: seq<Step>, k: nat)
    requires Execution(b, steps) && k < |b|
    ensures AllMarked(b[k])
  {
    hide AllMarked, Apply, Enabled, Owned, Accounts, Recorded;
    if k == 0 {
      assert AllMarked(Init()) by {
        InitMarked();
      }
    } else {
      ReachableMarks(b, steps, k - 1);
      ReachableSafe(b, steps, k - 1);
      StepKeepsMarks(b[k - 1], steps[k - 1]);
    }
  }

  lemma InitMarked()
    ensures AllMarked(Init())
  {
  }

  /** A job has waited at most as many ticks as sweeps were begun since it was submitted, and has
      aged at most as much as it has waited. */
  lemma WaitWithinSweeps(b: seq<State>, steps: seq<Step>, k: nat, x: JobInfo)
    requires Execution(b, steps) && k < |b| && x in b[k].jobs
    ensures b[k].jobs[x].wait <= b[k].sweeps - b[k].jobs[x].born
    ensures 0 <= b[k].jobs[x].aging <= b[k].jobs[x].wait
  {
    hide Execution;
    ReachableMarks(b, steps, k);
    assert Marked(b[k], x);
  }

  /** Between two moments, wait_ticks grows by at most the number of sweeps begun, plus one for a
      sweep that is under way at the first moment and has not reached the job. */
  lemma {:induction false} SweepsTickOnce(b: seq<State>, steps: seq<Step>, from: nat, to: nat, x: JobInfo)
    requires Execution(b, steps) && from <= to < |b| && x in b[from].jobs
    ensures x in b[to].jobs
    ensures b[to].jobs[x].wait - b[from].jobs[x].wait
            <= b[to].sweeps - b[from].sweeps + One(MidSweep(b[from].dispatcher) && NotYet(b[from], b[from].jobs[x]))
    ensures Slack(b[to], x) <= Slack(b[from], x)
  {
    hide Apply, Enabled;
    if from < to {
      SweepsTickOnce(b, steps, from, to - 1, x);
      ReachableMarks(b, steps, to - 1);
      assert Marked(b[to - 1], x);
      hide Marked;
      StepKeepsSlack(b[to - 1], steps[to - 1], x);
    }
  }
}
