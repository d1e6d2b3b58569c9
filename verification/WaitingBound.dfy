/**
 The promise of the aging thread in the protocol itself: sweeps and passes take one level's lock at a
 time, jobs are pushed, popped and preempted between any two of their steps, and the job that waits
 may be in the aging thread's buffer for a while.
 */
module WaitingBound {
  import opened Jobs
  import opened StableQueue
  import opened MlfqSpec
  import opened Protocol
  import opened WorkerTally
  import opened Accounting
  import opened Ownership
  import opened JobRecords
  import opened RunInvariant
  import opened Safety
  import opened Sweeps
  import opened Theorems

  /** Queued, or drained by the aging thread and not pushed again yet. */
  predicate InLine(s: State, x: JobInfo) {
    x in s.queues[0] || x in s.queues[1] || x in s.queues[2] || x in BufferOf(s.aging)
  }

  /** The dispatcher's sweep reaches level l. */
  predicate SweepsLevel(s: State, step: Step, l: int) {
    step.Dispatch? && s.dispatcher.Sweep? && s.dispatcher.lvl == l
  }

  function SweepSteps(b: seq<State>, steps: seq<Step>, lo: nat, hi: nat, l: int): nat
    requires |b| == |steps| + 1 && lo <= hi <= |steps|
  {
    if lo == hi then 0 else SweepSteps(b, steps, lo, hi - 1, l) + One(SweepsLevel(b[hi - 1], steps[hi - 1], l))
  }

  predicate QueuedAt(s: State, l: int, x: JobInfo) {
    0 <= l < MLFQ_LEVELS && x in s.queues[l]
  }

  // ---------------------------------------------------------------- one step

  /** A job that is in line before and after a step goes down no level; and if it is then queued at
      its old level, it was queued there before, has kept its age, and has aged if it was swept. */
  ghost predicate Keeps(s: State, step: Step, s': State, x: JobInfo)
    requires x in s.jobs
  {
    && x in s'.jobs && s'.jobs[x].level <= s.jobs[x].level
    && (s'.jobs[x].level == s.jobs[x].level && QueuedAt(s', s.jobs[x].level, x) ==>
          && QueuedAt(s, s.jobs[x].level, x)
          && s'.jobs[x].aging >= s.jobs[x].aging + One(SweepsLevel(s, step, s.jobs[x].level)))
  }

  /** A job in line belongs to no worker and no submitter. */
  lemma InLineAlone(s: State, x: JobInfo)
    requires Owned(s) && InLine(s, x)
    ensures x in s.jobs && x !in s.counted && x !in s.registered
    ensures forall k | 0 <= k < |s.workers| && Owns(s.workers[k].pc) :: s.workers[k].job != x
  {
    hide Total, Owned;
    CountedOnce(s, x);
    assert InQueues(s.queues, x) + multiset(BufferOf(s.aging))[x] >= 1 by {
      hide Total;
      assert x in s.queues[0] ==> x in multiset(s.queues[0]);
      assert x in s.queues[1] ==> x in multiset(s.queues[1]);
      assert x in s.queues[2] ==> x in multiset(s.queues[2]);
      assert x in BufferOf(s.aging) ==> x in multiset(BufferOf(s.aging));
    }
    forall k | 0 <= k < |s.workers| && Owns(s.workers[k].pc) ensures s.workers[k].job != x {
      JobsOfStep(s.workers, k, s.workers[k].(pc := Exited), x);
    }
  }

  lemma WorkKeeps(s: State, i: nat, hint: int, x: JobInfo)
    requires Enabled(s, Work(i, hint)) && Owned(s) && InLine(s, x)
    ensures x in s.jobs && Keeps(s, Work(i, hint), DoWork(s, i, hint), x)
  {
    hide DoWork, Owned, InLine;
    InLineAlone(s, x);
    WorkFrames(s, i, hint);
    WorkerQueues(s, i, hint, x);
    if s.workers[i].job == x {
      BystanderKeeps(s, i, hint);
    }
  }

  /** A worker without a job in hand writes no record. */
  lemma BystanderKeeps(s: State, i: nat, hint: int)
    requires Enabled(s, Work(i, hint)) && !Owns(s.workers[i].pc)
    ensures DoWork(s, i, hint).jobs == s.jobs
  {
    hide RunStep, CheckBudget, MarkFailed, ReleaseBudget, Decide;
  }

  lemma DispatchKeeps(s: State, sweep: bool, hint: int, x: JobInfo)
    requires Enabled(s, Dispatch(sweep, hint)) && x in s.jobs && QueuedRight(s, x)
    ensures Keeps(s, Dispatch(sweep, hint), DoDispatch(s, sweep, hint), x)
  {
    hide Keeps, SweepLevel, TryPreempt, CountPreemption, ScanSlot, ProbeLevel, ProbeHead, PopLevel, Spawn;
    var d, step := s.dispatcher, Dispatch(sweep, hint);
    if d.Sweep? {
      SweepKeeps(s, step, d.lvl, x);
    } else if d.PopFrom? {
      PopKeeps(s, step, d.lvl, x);
    } else {
      hide DoDispatch;
      DispatchFrames(s, sweep, hint);
      DispatchLeaves(s, sweep, hint, x);
      StillKeeps(s, step, DoDispatch(s, sweep, hint), x);
    }
  }

  /** Where the job is queued, its record says so. */
  predicate QueuedRight(s: State, x: JobInfo) {
    x in s.jobs && forall l | 0 <= l < MLFQ_LEVELS && x in s.queues[l] :: s.jobs[x].level == l
  }

  lemma SweepKeeps(s: State, step: Step, lvl: nat, x: JobInfo)
    requires step.Dispatch? && s.dispatcher == Sweep(lvl) && lvl < MLFQ_LEVELS && x in s.jobs
    ensures Keeps(s, step, SweepLevel(s, lvl), x)
  {
  }

  lemma PopKeeps(s: State, step: Step, lvl: nat, x: JobInfo)
    requires step.Dispatch? && s.dispatcher == PopFrom(lvl) && lvl < MLFQ_LEVELS && x in s.jobs
    ensures Keeps(s, step, PopLevel(s, lvl), x)
  {
  }

  lemma DispatchLeaves(s: State, sweep: bool, hint: int, x: JobInfo)
    requires DispatcherReady(s) && !s.dispatcher.Sweep? && !s.dispatcher.PopFrom? && x in s.jobs
    ensures var s' := DoDispatch(s, sweep, hint);
            x in s'.jobs && s'.jobs[x].level == s.jobs[x].level && s'.jobs[x].aging == s.jobs[x].aging
  {
    hide SweepLevel, PopLevel;
  }

  lemma StillKeeps(s: State, step: Step, s': State, x: JobInfo)
    requires x in s.jobs && x in s'.jobs && s'.queues == s.queues && !s.dispatcher.Sweep?
    requires s'.jobs[x].level == s.jobs[x].level && s'.jobs[x].aging == s.jobs[x].aging
    ensures Keeps(s, step, s', x)
  {
  }

  lemma AgeKeeps(s: State, x: JobInfo)
    requires Enabled(s, Age) && Owned(s) && Recorded(s) && AgingOk(s) && InLine(s, x)
    ensures x in s.jobs && Keeps(s, Age, DoAge(s), x)
  {
    hide Owned, Recorded, DrainLevel, PromoteHead, Keeps, InLine;
    InLineAlone(s, x);
    if s.aging.DrainFrom? {
      DrainKeeps(s, s.aging.lvl, x);
    } else if s.aging.Promote? && s.aging.buf != [] {
      if x == s.aging.buf[0] {
        HeadLevel(s);
      }
      PromoteKeeps(s, s.aging.lvl, s.aging.buf, x);
    } else {
      AgeLeaves(s);
      QuietKeeps(s, Age, DoAge(s), x);
    }
  }

  lemma AgeLeaves(s: State)
    requires AgingReady(s) && !s.aging.DrainFrom? && BufferOf(s.aging) == []
    ensures DoAge(s).queues == s.queues && DoAge(s).jobs == s.jobs
  {
  }

  lemma QuietKeeps(s: State, step: Step, s': State, x: JobInfo)
    requires x in s.jobs && s'.queues == s.queues && s'.jobs == s.jobs && !step.Dispatch?
    ensures Keeps(s, step, s', x)
  {
  }

  lemma DrainKeeps(s: State, lvl: nat, x: JobInfo)
    requires lvl < MLFQ_LEVELS && x in s.jobs
    ensures Keeps(s, Age, DrainLevel(s, lvl), x)
  {
    hide Taken, Kept, AgeFlags, StillQueued;
    DrainMembers(s.queues[lvl], AgeFlags(s.jobs, s.queues[lvl]));
  }

  lemma HeadLevel(s: State)
    requires Owned(s) && Recorded(s) && s.aging.Promote? && s.aging.buf != []
    ensures s.aging.buf[0] in s.jobs && s.jobs[s.aging.buf[0]].level == s.aging.lvl
  {
    hide Owned;
    BufferedNotElsewhere(s);
    assert RecordOk(s, s.aging.buf[0]);
  }

  lemma PromoteKeeps(s: State, lvl: nat, buf: seq<JobInfo>, x: JobInfo)
    requires 1 <= lvl < MLFQ_LEVELS && buf != [] && buf[0] in s.jobs && x in s.jobs
    requires x == buf[0] ==> s.jobs[x].level == lvl
    ensures Keeps(s, Age, PromoteHead(s, lvl, buf), x)
  {
    hide Insert;
    InsertMembers(s.queues[lvl - 1], buf[0], x);
  }

  lemma SubmitKeeps(s: State, step: Step, x: JobInfo)
    requires Enabled(s, step) && Owned(s) && InLine(s, x)
    requires step.Register? || step.Count? || step.PushNew? || step.Stop?
    ensures x in s.jobs && Keeps(s, step, Apply(s, step), x)
  {
    hide Owned, InLine, Insert;
    InLineAlone(s, x);
    if step.PushNew? {
      InsertMembers(s.queues[0], step.x, x);
    }
  }

  lemma StepKeepsLine(s: State, step: Step, x: JobInfo)
    requires Enabled(s, step) && Safe(s) && InLine(s, x)
    ensures x in s.jobs && Keeps(s, step, Apply(s, step), x)
  {
    hide Owned, Accounts, Recorded, Keeps, InLine, DoWork, DoDispatch, DoAge, DoRegister;
    InLineAlone(s, x);
    match step {
      case Work(i, hint) => WorkKeeps(s, i, hint, x);
      case Dispatch(sweep, hint) =>
        LineRight(s, x);
        DispatchKeeps(s, sweep, hint, x);
      case Age => AgeKeeps(s, x);
      case _ => SubmitKeeps(s, step, x);
    }
  }

  lemma LineRight(s: State, x: JobInfo)
    requires Recorded(s) && x in s.jobs
    ensures QueuedRight(s, x) && 0 <= s.jobs[x].level < MLFQ_LEVELS
  {
    assert RecordOk(s, x);
  }

  // ---------------------------------------------------------------- stretches of an execution

  /** The job is in line at every moment of the stretch. */
  ghost predicate Waits(b: seq<State>, lo: nat, hi: nat, x: JobInfo)
    requires lo <= hi < |b|
  {
    forall k | lo <= k <= hi :: InLine(b[k], x)
  }

  lemma WaiterIsSubmitted(b: seq<State>, steps: seq<Step>, k: nat, x: JobInfo)
    requires Execution(b, steps) && k < |b| && InLine(b[k], x)
    ensures x in b[k].jobs && 0 <= b[k].jobs[x].level < MLFQ_LEVELS && QueuedRight(b[k], x)
    ensures b[k].jobs[x].aging >= 0
  {
    hide Execution, Owned, Accounts, Recorded, InLine, QueuedRight;
    ReachableSafe(b, steps, k);
    InLineAlone(b[k], x);
    LineRight(b[k], x);
    WaitWithinSweeps(b, steps, k, x);
  }

  lemma {:induction false} NeverDown(b: seq<State>, steps: seq<Step>, lo: nat, hi: nat, x: JobInfo)
    requires Execution(b, steps) && lo <= hi < |b| && Waits(b, lo, hi, x)
    ensures x in b[lo].jobs && x in b[hi].jobs && b[hi].jobs[x].level <= b[lo].jobs[x].level
  {
    hide Apply, Enabled, Safe, InLine, SweepsLevel;
    WaiterIsSubmitted(b, steps, lo, x);
    if lo < hi {
      NeverDown(b, steps, lo, hi - 1, x);
      ReachableSafe(b, steps, hi - 1);
      StepKeepsLine(b[hi - 1], steps[hi - 1], x);
    }
  }

  /** A job that waits, and is queued at the end at the level it had at the beginning, was queued there
      all the time, and has aged with every sweep that reached the level. */
  lemma {:induction false} StaysAndAges(b: seq<State>, steps: seq<Step>, lo: nat, hi: nat, l: int, x: JobInfo)
    requires Execution(b, steps) && lo <= hi < |b| && Waits(b, lo, hi, x)
    requires x in b[lo].jobs && b[lo].jobs[x].level == l
    requires x in b[hi].jobs && b[hi].jobs[x].level == l && QueuedAt(b[hi], l, x)
    ensures forall k | lo <= k <= hi :: x in b[k].jobs && b[k].jobs[x].level == l && QueuedAt(b[k], l, x)
    ensures b[hi].jobs[x].aging >= b[lo].jobs[x].aging + SweepSteps(b, steps, lo, hi, l)
  {
    hide Apply, Enabled, Safe, InLine, QueuedAt, SweepsLevel;
    if lo < hi {
      NeverDown(b, steps, lo, hi - 1, x);
      ReachableSafe(b, steps, hi - 1);
      StepKeepsLine(b[hi - 1], steps[hi - 1], x);
      StaysAndAges(b, steps, lo, hi - 1, l, x);
    }
  }

  /** The drain of level l finds at most 64 aged jobs there. */
  predicate DrainsAll(s: State, step: Step, l: int) {
    && step == Age && 1 <= l < MLFQ_LEVELS && s.aging == DrainFrom(l)
    && OldIn(s.jobs, s.queues[l]) <= AGED_BUF
  }

  /** How many jobs of the list have reached the aging threshold. */
  function OldIn(jobs: map<JobInfo, JobRec>, q: seq<JobInfo>): nat {
    if q == [] then 0
    else One(q[0] in jobs && jobs[q[0]].aging >= AGING_THRESHOLD) + OldIn(jobs, q[1..])
  }

  lemma {:induction false} OldAreAged(jobs: map<JobInfo, JobRec>, q: seq<JobInfo>)
    ensures |Aged(q, AgeFlags(jobs, q))| == OldIn(jobs, q)
  {
    if q != [] {
      OldAreAged(jobs, q[1..]);
      assert AgeFlags(jobs, q)[1..] == AgeFlags(jobs, q[1..]);
    }
  }

  lemma AgedIsDrained(s: State, step: Step, l: int, x: JobInfo)
    requires Enabled(s, step) && DrainsAll(s, step, l)
    requires QueuedAt(s, l, x) && x in s.jobs && s.jobs[x].aging >= AGING_THRESHOLD
    ensures x in BufferOf(Apply(s, step).aging)
  {
    hide Taken, Kept, Aged;
    var q, flags := s.queues[l], AgeFlags(s.jobs, s.queues[l]);
    var i :| 0 <= i < |q| && q[i] == x;
    AgedHolds(q, flags, i);
    OldAreAged(s.jobs, q);
    DrainTakesFirstAged(q, flags, AGED_BUF);
  }

  /** Level l is swept 15 times, and after that drained with at most 64 aged jobs in it; at the end the
      buffer of the aging thread is empty again. Any other steps may come in between. */
  ghost predicate LevelPass(b: seq<State>, steps: seq<Step>, lo: nat, mid: nat, at: nat, hi: nat, l: int) {
    && |b| == |steps| + 1 && lo <= mid <= at < hi <= |steps|
    && SweepSteps(b, steps, lo, mid, l) >= AGING_THRESHOLD
    && DrainsAll(b[at], steps[at], l)
    && BufferOf(b[hi].aging) == []
  }

  lemma PassClimbs(b: seq<State>, steps: seq<Step>, lo: nat, mid: nat, at: nat, hi: nat, x: JobInfo)
    requires Execution(b, steps) && lo <= hi < |b| && Waits(b, lo, hi, x) && x in b[lo].jobs
    requires LevelPass(b, steps, lo, mid, at, hi, b[lo].jobs[x].level)
    ensures x in b[hi].jobs && b[hi].jobs[x].level < b[lo].jobs[x].level
  {
    hide Apply, Enabled, Safe, QueuedAt, DrainsAll, SweepSteps, QueuedRight;
    var l := b[lo].jobs[x].level;
    NeverDown(b, steps, lo, hi, x);
    if b[hi].jobs[x].level == l {
      AtLevel(b, steps, hi, x);
      StaysAndAges(b, steps, lo, hi, l, x);
      StaysAndAges(b, steps, lo, mid, l, x);
      StaysAndAges(b, steps, mid, at, l, x);
      WaiterIsSubmitted(b, steps, lo, x);
      AgedIsDrained(b[at], steps[at], l, x);
      NotBothPlaces(b, steps, at + 1, l, x);
      assert false;
    }
  }

  lemma AtLevel(b: seq<State>, steps: seq<Step>, k: nat, x: JobInfo)
    requires Execution(b, steps) && k < |b| && InLine(b[k], x) && BufferOf(b[k].aging) == []
    ensures x in b[k].jobs && QueuedAt(b[k], b[k].jobs[x].level, x)
  {
    hide Execution;
    WaiterIsSubmitted(b, steps, k, x);
  }

  lemma NotBothPlaces(b: seq<State>, steps: seq<Step>, k: nat, l: int, x: JobInfo)
    requires Execution(b, steps) && k < |b| && QueuedAt(b[k], l, x)
    ensures x !in BufferOf(b[k].aging)
  {
    hide Execution, Owned, Accounts, Recorded;
    ReachableSafe(b, steps, k);
    QueuedNotElsewhere(b[k], l, x);
  }

  /** From one cut to the next the job is at the top, or there is such a pass over its level. */
  ghost predicate Stretch(b: seq<State>, steps: seq<Step>, lo: nat, hi: nat, x: JobInfo)
    requires lo <= hi < |b|
  {
    && x in b[lo].jobs
    && (b[lo].jobs[x].level == 0 || exists mid, at :: LevelPass(b, steps, lo, mid, at, hi, b[lo].jobs[x].level))
  }

  ghost predicate Stretches(b: seq<State>, steps: seq<Step>, cuts: seq<nat>, x: JobInfo) {
    && cuts != []
    && (forall i | 0 <= i < |cuts| :: cuts[i] < |b|)
    && (forall i, k {:trigger cuts[i], cuts[k]} | 0 <= i < k < |cuts| && k == i + 1 ::
          cuts[i] <= cuts[k] && Stretch(b, steps, cuts[i], cuts[k], x))
  }

  /** The anti-starvation bound for the protocol: a job that waits from the first cut on, through k
      stretches and up to any later moment, is then at most at level max(0, l - k). */
  lemma {:induction false} WaitingClimbs(b: seq<State>, steps: seq<Step>, cuts: seq<nat>, hi: nat, x: JobInfo)
    requires Execution(b, steps) && Stretches(b, steps, cuts, x)
    requires cuts[0] <= cuts[|cuts| - 1] <= hi < |b| && Waits(b, cuts[0], hi, x)
    ensures x in b[cuts[0]].jobs && x in b[hi].jobs
    ensures var l, k := b[cuts[0]].jobs[x].level, |cuts| - 1;
            b[hi].jobs[x].level <= if l < k then 0 else l - k
  {
    hide Execution, InLine, Stretch, Safe;
    var n := |cuts| - 1;
    if n == 0 {
      NeverDown(b, steps, cuts[0], hi, x);
    } else {
      CutsRise(b, steps, cuts, x, n - 1);
      assert Stretches(b, steps, cuts[..n], x);
      WaitingClimbs(b, steps, cuts[..n], cuts[n - 1], x);
      StretchClimbs(b, steps, cuts[n - 1], cuts[n], x);
      NeverDown(b, steps, cuts[n], hi, x);
    }
  }

  lemma {:induction false} CutsRise(b: seq<State>, steps: seq<Step>, cuts: seq<nat>, x: JobInfo, i: nat)
    requires Stretches(b, steps, cuts, x) && i < |cuts|
    ensures cuts[0] <= cuts[i]
  {
    if i > 0 {
      CutsRise(b, steps, cuts, x, i - 1);
      assert cuts[i - 1] <= cuts[i];
    }
  }

  lemma StretchClimbs(b: seq<State>, steps: seq<Step>, lo: nat, hi: nat, x: JobInfo)
    requires Execution(b, steps) && lo <= hi < |b| && Waits(b, lo, hi, x) && Stretch(b, steps, lo, hi, x)
    ensures x in b[lo].jobs && x in b[hi].jobs
    ensures b[hi].jobs[x].level <= if b[lo].jobs[x].level < 1 then 0 else b[lo].jobs[x].level - 1
  {
    hide Execution, InLine, LevelPass, Waits;
    NeverDown(b, steps, lo, hi, x);
    if b[lo].jobs[x].level != 0 {
      var mid, at :| LevelPass(b, steps, lo, mid, at, hi, b[lo].jobs[x].level);
      PassClimbs(b, steps, lo, mid, at, hi, x);
    }
  }
}
