/**
 The inductive invariant of the protocol, and what it says about every reachable state and every
 step between two states.
 */
module Safety {
  import opened Jobs
  import opened StableQueue
  import opened Protocol
  import opened WorkerTally
  import opened Accounting
  import opened Ownership
  import opened JobRecords
  import opened RunInvariant

  ghost predicate Safe(s: State) {
    Owned(s) && Accounts(s) && Recorded(s) && ScanOk(s) && AgingOk(s)
  }

  lemma SafeWorkers(s: State)
    requires Owned(s)
    ensures NonNegative(s.workers)
  {
  }

  // ---------------------------------------------------------------- the level is fixed during a run

  lemma WorkKeepsLevel(s: State, i: nat, hint: int, k: nat)
    requires Enabled(s, Work(i, hint)) && Owned(s) && k < |s.workers| && HoldsSlot(s.workers[k].pc)
    ensures var x := s.workers[k].job;
            x in s.jobs && x in DoWork(s, i, hint).jobs && DoWork(s, i, hint).jobs[x].level == s.jobs[x].level
  {
    hide Owned;
    NotElsewhere(s, k);
    if i == k {
      hide AroundStep, ClaimSlot, ClearSlot;
    } else if Owns(s.workers[i].pc) {
      hide DoWork;
      WorkFrames(s, i, hint);
    } else {
      hide RunStep, CheckBudget, MarkFailed, ReleaseBudget, Decide;
    }
  }

  lemma DispatchKeepsLevel(s: State, sweep: bool, hint: int, x: JobInfo)
    requires DispatcherReady(s) && x in s.jobs
    ensures x in DoDispatch(s, sweep, hint).jobs && DoDispatch(s, sweep, hint).jobs[x].level == s.jobs[x].level
  {
  }

  lemma AgeKeepsLevel(s: State, k: nat)
    requires AgingReady(s) && Owned(s) && k < |s.workers| && HoldsSlot(s.workers[k].pc)
    ensures var x := s.workers[k].job;
            x in s.jobs && x in DoAge(s).jobs && DoAge(s).jobs[x].level == s.jobs[x].level
  {
    hide Owned, DoAge;
    NotElsewhere(s, k);
    AgeFrames(s);
  }

  lemma SubmitKeepsLevel(s: State, step: Step, k: nat)
    requires Enabled(s, step) && Owned(s) && k < |s.workers| && HoldsSlot(s.workers[k].pc)
    requires step.Register? || step.Count? || step.PushNew? || step.Stop?
    ensures var x := s.workers[k].job;
            x in s.jobs && x in Apply(s, step).jobs && Apply(s, step).jobs[x].level == s.jobs[x].level
  {
    hide Owned, Insert;
    NotElsewhere(s, k);
  }

  /** Whatever any thread does, the level of a job does not change while a worker runs it. */
  lemma StepKeepsLevel(s: State, step: Step, k: nat)
    requires Enabled(s, step) && Owned(s) && k < |s.workers| && HoldsSlot(s.workers[k].pc)
    ensures var x := s.workers[k].job;
            x in s.jobs && x in Apply(s, step).jobs && Apply(s, step).jobs[x].level == s.jobs[x].level
  {
    hide Owned, DoDispatch, DoAge, DoWork, DoRegister;
    NotElsewhere(s, k);
    match step {
      case Dispatch(sweep, hint) => DispatchKeepsLevel(s, sweep, hint, s.workers[k].job);
      case Age => AgeKeepsLevel(s, k);
      case Work(i, hint) => WorkKeepsLevel(s, i, hint, k);
      case _ => SubmitKeepsLevel(s, step, k);
    }
  }

  // ---------------------------------------------------------------- the scan's references

  /** While the dispatcher scans, the table stands still. */
  lemma TableStandsStill(s: State, step: Step)
    requires Enabled(s, step) && Locked(s.dispatcher)
    ensures Apply(s, step).active == s.active
    ensures forall x | x in s.jobs :: x in Apply(s, step).jobs
  {
    hide Insert, Taken, Kept, AgeFlags;
    match step {
      case Work(i, hint) =>
        WorkFrames(s, i, hint);
        hide AroundStep, RunStep;
        assert s.workers[i].pc != Clearing && s.workers[i].pc != Granted;
        StillTable(s, i, hint);
      case Dispatch(sweep, hint) => DispatchFrames(s, sweep, hint);
      case _ =>
    }
  }

  lemma StillTable(s: State, i: nat, hint: int)
    requires Enabled(s, Work(i, hint)) && s.workers[i].pc != Clearing && s.workers[i].pc != Granted
    ensures DoWork(s, i, hint).active == s.active
  {
  }

  lemma OthersKeepScan(s: State, step: Step)
    requires Enabled(s, step) && Safe(s) && !step.Dispatch?
    requires Apply(s, step).dispatcher == s.dispatcher
    ensures ScanOk(Apply(s, step))
  {
    hide Owned, Balanced, Recorded, Apply, Enabled;
    var d := s.dispatcher;
    if d.Probe? || d.ProbeTop? || d.Cas? || d.CountWin? {
      TableStandsStill(s, step);
      StepKeepsLevel(s, step, s.active[d.slot].worker);
    }
  }

  lemma DispatchScan(s: State, sweep: bool, hint: int)
    requires DispatcherReady(s) && Recorded(s) && ScanOk(s)
    ensures ScanOk(DoDispatch(s, sweep, hint))
  {
    hide Recorded, ScanOk, DoDispatch;
    if Locked(s.dispatcher) {
      if s.dispatcher.Scan? && s.dispatcher.slot < MAX_CONCURRENT && s.active[s.dispatcher.slot].Held? {
        LevelInRange(s, s.active[s.dispatcher.slot].job);
      }
      LockedScan(s, sweep, hint);
    } else {
      OutsideScan(s, sweep, hint);
    }
  }

  lemma LockedScan(s: State, sweep: bool, hint: int)
    requires DispatcherReady(s) && ScanOk(s) && Locked(s.dispatcher)
    requires s.dispatcher.Scan? && s.dispatcher.slot < MAX_CONCURRENT && s.active[s.dispatcher.slot].Held? ==>
               0 <= s.jobs[s.active[s.dispatcher.slot].job].level < MLFQ_LEVELS
    ensures ScanOk(DoDispatch(s, sweep, hint))
  {
    hide PopLevel, Spawn, SweepLevel;
  }

  lemma OutsideScan(s: State, sweep: bool, hint: int)
    requires DispatcherReady(s) && ScanOk(s) && !Locked(s.dispatcher)
    ensures ScanOk(DoDispatch(s, sweep, hint))
  {
    hide ProbeLevel, ProbeHead, ScanSlot, TryPreempt, CountPreemption, TickAll;
  }

  // ---------------------------------------------------------------- the invariant

  lemma InitSafe()
    ensures Safe(Init())
  {
    hide Owned, Accounts, Recorded;
    InitOwned();
    InitAccounts();
    InitRecorded();
  }

  lemma DispatchAccounts(s: State, sweep: bool, hint: int)
    requires DispatcherReady(s) && Accounts(s) && -1 <= hint < MAX_CONCURRENT
    ensures Accounts(DoDispatch(s, sweep, hint))
  {
    hide Accounts, DoDispatch, Spawn;
    if s.dispatcher.Hand? {
      DispatchSpawns(s, sweep, hint);
      SpawnAccounts(s, s.dispatcher.job, hint);
    } else {
      DispatchFrames(s, sweep, hint);
      SameWorkersAccounts(s, DoDispatch(s, sweep, hint));
    }
  }

  lemma DispatchSafe(s: State, sweep: bool, hint: int)
    requires Enabled(s, Dispatch(sweep, hint)) && Safe(s)
    ensures Safe(DoDispatch(s, sweep, hint))
  {
    hide Owned, Accounts, Recorded, ScanOk, DoDispatch;
    DispatchOwned(s, sweep, hint);
    DispatchAccounts(s, sweep, hint);
    DispatchRecorded(s, sweep, hint);
    DispatchScan(s, sweep, hint);
    DispatchFrames(s, sweep, hint);
  }

  lemma WorkSafe(s: State, i: nat, hint: int)
    requires Enabled(s, Work(i, hint)) && Safe(s)
    ensures Safe(DoWork(s, i, hint))
  {
    hide Owned, Accounts, Recorded, ScanOk, DoWork;
    SafeWorkers(s);
    WorkOwned(s, i, hint);
    WorkAccounts(s, i, hint);
    WorkRecorded(s, i, hint);
    WorkFrames(s, i, hint);
    OthersKeepScan(s, Work(i, hint));
  }

  lemma AgeSafe(s: State)
    requires Enabled(s, Age) && Safe(s)
    ensures Safe(DoAge(s))
  {
    hide Owned, Accounts, Recorded, ScanOk, DrainLevel, PromoteHead;
    AgeOwned(s);
    AgeRecorded(s);
    AgeFrames(s);
    SameWorkersAccounts(s, DoAge(s));
    OthersKeepScan(s, Age);
    NextLevel(s);
  }

  lemma NextLevel(s: State)
    requires AgingReady(s) && AgingOk(s)
    ensures AgingOk(DoAge(s))
  {
  }

  lemma SubmitSafe(s: State, step: Step)
    requires Enabled(s, step) && Safe(s)
    requires step.Register? || step.Count? || step.PushNew? || step.Stop?
    ensures Safe(Apply(s, step))
  {
    hide Owned, Accounts, Recorded, ScanOk, Insert;
    SubmitOwned(s, step);
    SubmitRecorded(s, step);
    SameWorkersAccounts(s, Apply(s, step));
    OthersKeepScan(s, step);
  }

  lemma StepKeepsSafe(s: State, step: Step)
    requires Enabled(s, step) && Safe(s)
    ensures Safe(Apply(s, step))
  {
    hide Safe, DoDispatch, DoAge, DoWork, DoRegister;
    match step {
      case Dispatch(sweep, hint) => DispatchSafe(s, sweep, hint);
      case Age => AgeSafe(s);
      case Work(i, hint) => WorkSafe(s, i, hint);
      case _ => SubmitSafe(s, step);
    }
  }

  /** In every execution, of any number of submitters and workers, every state is safe. */
  lemma {:induction false} ReachableSafe(b: seq<State>, steps: seq<Step>, k: nat)
    requires Execution(b, steps) && k < |b|
    ensures Safe(b[k])
  {
    hide Safe, Apply, Enabled, Init;
    if k == 0 {
      InitSafe();
    } else {
      ReachableSafe(b, steps, k - 1);
      StepKeepsSafe(b[k - 1], steps[k - 1]);
    }
  }
}
