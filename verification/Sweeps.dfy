/**
 The wait sweep locks one level at a time while jobs are promoted, submitted and requeued around
 it. It still reaches no job twice: it goes up the levels, promotion goes down, and the thread that
 sweeps is the only one that pops.
 */
module Sweeps {
  import opened Jobs
  import opened StableQueue
  import opened Protocol
  import opened WorkerTally
  import opened Ownership
  import opened JobRecords
  import opened RunInvariant

  /** A sweep is under way that has already passed at least one level. */
  predicate MidSweep(d: Dispatcher) {
    d.Sweep? && d.lvl >= 1
  }

  /** The current sweep has still to reach, or can no longer reach, this job: it has not ticked it. */
  predicate NotYet(s: State, r: JobRec) {
    r.ticked < s.sweeps
  }

  ghost predicate Marked(s: State, x: JobInfo)
    requires x in s.jobs
  {
    var r := s.jobs[x];
    && r.born <= r.ticked <= s.sweeps
    && r.born + r.wait <= r.ticked
    && 0 <= r.aging <= r.wait
    && (MidSweep(s.dispatcher) ==>
          && (forall m | s.dispatcher.lvl <= m < MLFQ_LEVELS && x in s.queues[m] :: NotYet(s, r))
          && (x in BufferOf(s.aging) && BufferLevel(s.aging) >= s.dispatcher.lvl ==> NotYet(s, r))
          && (forall i | 0 <= i < |s.workers| && Owns(s.workers[i].pc) && s.workers[i].job == x :: NotYet(s, r)))
  }

  ghost predicate AllMarked(s: State) {
    forall x | x in s.jobs :: Marked(s, x)
  }

  predicate SameMarks(r: JobRec, r': JobRec) {
    r'.wait == r.wait && r'.born == r.born && r'.ticked == r.ticked && (r'.aging == r.aging || r'.aging == 0)
  }

  /** The step neither sweeps nor brings y nearer to the sweep. */
  ghost predicate Unmoved(s: State, s': State, y: JobInfo)
    requires y in s.jobs
  {
    && y in s'.jobs && SameMarks(s.jobs[y], s'.jobs[y]) && s'.sweeps == s.sweeps
    && (MidSweep(s'.dispatcher) ==> s'.dispatcher == s.dispatcher)
    && (forall m | 1 <= m < MLFQ_LEVELS && y in s'.queues[m] && MidSweep(s.dispatcher) && s.dispatcher.lvl <= m ::
          y in s.queues[m] || OwnedBy(s, y) || (y in BufferOf(s.aging) && BufferLevel(s.aging) >= m))
    && (y in BufferOf(s'.aging) ==>
          || (y in BufferOf(s.aging) && BufferLevel(s'.aging) == BufferLevel(s.aging))
          || (1 <= BufferLevel(s'.aging) < MLFQ_LEVELS && y in s.queues[BufferLevel(s'.aging)]))
    && (forall k | 0 <= k < |s'.workers| && Owns(s'.workers[k].pc) && s'.workers[k].job == y && MidSweep(s.dispatcher) ::
          OwnedBy(s, y))
  }

  ghost predicate OwnedBy(s: State, y: JobInfo) {
    exists i :: 0 <= i < |s.workers| && Owns(s.workers[i].pc) && s.workers[i].job == y
  }

  lemma UnmovedMarked(s: State, s': State, y: JobInfo)
    requires y in s.jobs && Marked(s, y) && Unmoved(s, s', y)
    ensures Marked(s', y)
  {
  }

  lemma WorkUnmoved(s: State, i: nat, hint: int, y: JobInfo)
    requires Enabled(s, Work(i, hint)) && y in s.jobs
    ensures Unmoved(s, DoWork(s, i, hint), y)
  {
    var s' := DoWork(s, i, hint);
    WorkFrames(s, i, hint);
    WorkerMarks(s, i, hint);
    WorkerQueues(s, i, hint, y);
    WorkerPlaces(s, i, hint, y);
    hide DoWork;
  }

  lemma WorkerMarks(s: State, i: nat, hint: int)
    requires Enabled(s, Work(i, hint))
    ensures var x := s.workers[i].job;
            x in s.jobs && x in DoWork(s, i, hint).jobs && SameMarks(s.jobs[x], DoWork(s, i, hint).jobs[x])
  {
    hide DoWork, SameMarks, Decide;
    EndIs(s, i, hint);
    if HoldsSlotOrClaims(s.workers[i].pc) {
      RunMarks(s, i, hint);
    } else if s.workers[i].pc == Deciding {
      DecideMarks(s, i);
    } else {
      AroundRunMarks(s, i, hint);
    }
  }

  lemma RunMarks(s: State, i: nat, hint: int)
    requires Enabled(s, Work(i, hint)) && HoldsSlotOrClaims(s.workers[i].pc)
    ensures var x := s.workers[i].job;
            x in s.jobs && x in DoWork(s, i, hint).jobs && SameMarks(s.jobs[x], DoWork(s, i, hint).jobs[x])
  {
    hide AroundStep, FindSlot, StartSlot, QuantumExpired;
  }

  lemma DecideMarks(s: State, i: nat)
    requires HasWorker(s, i) && 0 <= s.jobs[s.workers[i].job].level < MLFQ_LEVELS
    ensures var x := s.workers[i].job;
            x in Decide(s, i).jobs && SameMarks(s.jobs[x], Decide(s, i).jobs[x])
  {
    hide Insert, LevelAfter, QuantumExpired;
  }

  lemma AroundRunMarks(s: State, i: nat, hint: int)
    requires Enabled(s, Work(i, hint)) && !HoldsSlotOrClaims(s.workers[i].pc) && s.workers[i].pc != Deciding
    ensures var x := s.workers[i].job;
            x in s.jobs && x in DoWork(s, i, hint).jobs && SameMarks(s.jobs[x], DoWork(s, i, hint).jobs[x])
  {
    hide RunStep, Decide, Fits, Released;
  }

  lemma WorkerQueues(s: State, i: nat, hint: int, y: JobInfo)
    requires Enabled(s, Work(i, hint))
    ensures forall m | 0 <= m < MLFQ_LEVELS && y in DoWork(s, i, hint).queues[m] :: y in s.queues[m] || OwnedBy(s, y)
  {
  }

  lemma WorkerPlaces(s: State, i: nat, hint: int, y: JobInfo)
    requires Enabled(s, Work(i, hint))
    ensures forall k | 0 <= k < |DoWork(s, i, hint).workers| && Owns(DoWork(s, i, hint).workers[k].pc)
                       && DoWork(s, i, hint).workers[k].job == y :: OwnedBy(s, y)
  {
    NeverRegains(s, i, hint);
    WorkFrames(s, i, hint);
    hide DoWork;
    var s' := DoWork(s, i, hint);
    forall k | 0 <= k < |s'.workers| && Owns(s'.workers[k].pc) && s'.workers[k].job == y ensures OwnedBy(s, y) {
      assert Owns(s.workers[k].pc) && s.workers[k].job == y;
    }
  }

  lemma NeverRegains(s: State, i: nat, hint: int)
    requires Enabled(s, Work(i, hint))
    ensures i < |DoWork(s, i, hint).workers| && (Owns(DoWork(s, i, hint).workers[i].pc) ==> Owns(s.workers[i].pc))
  {
    hide RunStep, CheckBudget, MarkFailed, ReleaseBudget, Decide;
    WorkFrames(s, i, hint);
  }

  lemma WorkMarked(s: State, i: nat, hint: int)
    requires Enabled(s, Work(i, hint)) && AllMarked(s)
    ensures AllMarked(DoWork(s, i, hint))
  {
    hide DoWork, Marked, Unmoved;
    WorkFrames(s, i, hint);
    var s' := DoWork(s, i, hint);
    forall y | y in s'.jobs ensures Marked(s', y) {
      WorkUnmoved(s, i, hint, y);
      UnmovedMarked(s, s', y);
    }
  }

  lemma SubmitMarked(s: State, step: Step)
    requires Enabled(s, step) && AllMarked(s) && Owned(s)
    requires step.Register? || step.Count? || step.PushNew? || step.Stop?
    ensures AllMarked(Apply(s, step))
  {
    hide Insert, Owned;
    var s' := Apply(s, step);
    if step.Register? {
      NowhereYet(s, step.x);
    }
    forall y | y in s'.jobs ensures Marked(s', y) {
      if step.Register? && y == step.x {
      } else {
        assert Marked(s, y);
        hide Marked;
        UnmovedMarked(s, s', y);
      }
    }
  }

  lemma AgeUnmoved(s: State, y: JobInfo)
    requires Enabled(s, Age) && AgingOk(s) && y in s.jobs
    ensures Unmoved(s, DoAge(s), y)
  {
    hide Insert, Taken, Kept, AgeFlags;
    if s.aging.DrainFrom? {
      DrainMembers(s.queues[s.aging.lvl], AgeFlags(s.jobs, s.queues[s.aging.lvl]));
    } else if s.aging.Promote? && s.aging.buf != [] {
      InsertMembers(s.queues[s.aging.lvl - 1], s.aging.buf[0], y);
    }
  }

  lemma AgeMarked(s: State)
    requires Enabled(s, Age) && AllMarked(s) && AgingOk(s)
    ensures AllMarked(DoAge(s))
  {
    hide DoAge, Marked, Unmoved;
    AgeFrames(s);
    var s' := DoAge(s);
    forall y | y in s'.jobs ensures Marked(s', y) {
      AgeUnmoved(s, y);
      UnmovedMarked(s, s', y);
    }
  }

  /** A queued job is in no other place. */
  lemma QueuedNotElsewhere(s: State, l: nat, x: JobInfo)
    requires Owned(s) && l < MLFQ_LEVELS && x in s.queues[l]
    ensures x in s.jobs && (forall m | 0 <= m < MLFQ_LEVELS && m != l :: x !in s.queues[m])
    ensures x !in BufferOf(s.aging)
    ensures forall k | 0 <= k < |s.workers| && Owns(s.workers[k].pc) :: s.workers[k].job != x
  {
    hide Total, Owned;
    CountedOnce(s, x);
    assert x in multiset(s.queues[l]);
    forall k | 0 <= k < |s.workers| && Owns(s.workers[k].pc) ensures s.workers[k].job != x {
      JobsOfStep(s.workers, k, s.workers[k].(pc := Exited), x);
    }
    forall m | 0 <= m < MLFQ_LEVELS && m != l ensures x !in s.queues[m] {
      assert x !in multiset(s.queues[m]);
    }
    assert x !in multiset(BufferOf(s.aging));
  }

  lemma SweepMarked(s: State, lvl: nat)
    requires AllMarked(s) && Owned(s) && s.dispatcher == Sweep(lvl) && lvl < MLFQ_LEVELS
    ensures AllMarked(SweepLevel(s, lvl))
  {
    hide Owned;
    var s' := SweepLevel(s, lvl);
    forall y | y in s'.jobs ensures Marked(s', y) {
      assert Marked(s, y);
      if y in s.queues[lvl] {
        QueuedNotElsewhere(s, lvl, y);
      }
    }
  }

  lemma DispatchMarked(s: State, sweep: bool, hint: int)
    requires DispatcherReady(s) && AllMarked(s) && Owned(s)
    ensures AllMarked(DoDispatch(s, sweep, hint))
  {
    hide Owned, Marked, SweepLevel;
    if s.dispatcher.Sweep? {
      SweepMarked(s, s.dispatcher.lvl);
    } else {
      OtherDispatchMarked(s, sweep, hint);
    }
  }

  lemma OtherDispatchMarked(s: State, sweep: bool, hint: int)
    requires DispatcherReady(s) && AllMarked(s) && !s.dispatcher.Sweep?
    ensures AllMarked(DoDispatch(s, sweep, hint))
  {
    hide Marked, SweepLevel;
    var s' := DoDispatch(s, sweep, hint);
    DispatchFrames(s, sweep, hint);
    forall y | y in s'.jobs ensures Marked(s', y) {
      UnmovedMarked(s, s', y);
    }
  }

  lemma StepKeepsMarks(s: State, step: Step)
    requires Enabled(s, step) && Owned(s) && AgingOk(s) && AllMarked(s)
    ensures AllMarked(Apply(s, step))
  {
    hide Owned, AllMarked, DoDispatch, DoAge, DoWork, DoRegister;
    match step {
      case Dispatch(sweep, hint) => DispatchMarked(s, sweep, hint);
      case Age => AgeMarked(s);
      case Work(i, hint) => WorkMarked(s, i, hint);
      case _ => SubmitMarked(s, step);
    }
  }

  // ---------------------------------------------------------------- at most once per sweep

  /** What a job has waited, less the sweeps begun; one more while the sweep under way may still come. */
  function Slack(s: State, x: JobInfo): int
    requires x in s.jobs
  {
    s.jobs[x].wait + One(MidSweep(s.dispatcher) && NotYet(s, s.jobs[x])) - s.sweeps
  }

  predicate Sweeping(s: State, step: Step) {
    step.Dispatch? && s.dispatcher.Sweep?
  }

  lemma OnlySweepsTick(s: State, step: Step, x: JobInfo)
    requires Enabled(s, step) && x in s.jobs && !Sweeping(s, step)
    ensures var s' := Apply(s, step);
            && x in s'.jobs && SameMarks(s.jobs[x], s'.jobs[x]) && s'.sweeps == s.sweeps
            && (MidSweep(s'.dispatcher) ==> s'.dispatcher == s.dispatcher)
  {
    hide Insert, DoWork, DoDispatch, DoAge, SameMarks;
    match step {
      case Work(i, hint) =>
        WorkFrames(s, i, hint);
        WorkerMarks(s, i, hint);
        NoMark(s.jobs[x]);
      case Dispatch(sweep, hint) => DispatchMarks(s, sweep, hint, x);
      case Age => AgeMarks(s, x);
      case _ => SubmitMarks(s, step, x);
    }
  }

  lemma NoMark(r: JobRec)
    ensures SameMarks(r, r)
  {
  }

  lemma DispatchMarks(s: State, sweep: bool, hint: int, x: JobInfo)
    requires DispatcherReady(s) && !s.dispatcher.Sweep? && x in s.jobs
    ensures var s' := DoDispatch(s, sweep, hint);
            && x in s'.jobs && SameMarks(s.jobs[x], s'.jobs[x]) && s'.sweeps == s.sweeps
            && !MidSweep(s'.dispatcher)
  {
    hide SweepLevel;
  }

  lemma AgeMarks(s: State, x: JobInfo)
    requires AgingReady(s) && x in s.jobs
    ensures var s' := DoAge(s);
            && x in s'.jobs && SameMarks(s.jobs[x], s'.jobs[x]) && s'.sweeps == s.sweeps
            && s'.dispatcher == s.dispatcher
  {
    hide Insert, Taken, Kept, AgeFlags, StillQueued;
  }

  lemma SubmitMarks(s: State, step: Step, x: JobInfo)
    requires Enabled(s, step) && x in s.jobs && !step.Work? && !step.Dispatch? && step != Age
    ensures var s' := Apply(s, step);
            && x in s'.jobs && SameMarks(s.jobs[x], s'.jobs[x]) && s'.sweeps == s.sweeps
            && s'.dispatcher == s.dispatcher
  {
    hide Insert;
  }

  lemma SweepTicksOnce(s: State, lvl: nat, x: JobInfo)
    requires s.dispatcher == Sweep(lvl) && lvl < MLFQ_LEVELS && x in s.jobs && Marked(s, x)
    ensures x in SweepLevel(s, lvl).jobs && Slack(SweepLevel(s, lvl), x) <= Slack(s, x)
  {
  }

  lemma StepKeepsSlack(s: State, step: Step, x: JobInfo)
    requires Enabled(s, step) && x in s.jobs && Marked(s, x)
    ensures x in Apply(s, step).jobs && Slack(Apply(s, step), x) <= Slack(s, x)
  {
    if Sweeping(s, step) {
      hide SweepLevel, Marked;
      SweepTicksOnce(s, s.dispatcher.lvl, x);
    } else {
      hide Apply;
      OnlySweepsTick(s, step, x);
    }
  }
}
