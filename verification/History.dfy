/**
 The history variables of the protocol say what they claim: in every execution they count the steps
 that they stand for. So the theorems about runs, requests and ticks are about steps.
 */
module History {
  import opened Jobs
  import opened StableQueue
  import opened Protocol
  import opened WorkerTally
  import opened Accounting
  import opened Ownership
  import opened JobRecords
  import opened RunInvariant
  import opened RunPlan
  import opened Safety
  import opened Theorems

  predicate WorkerAt(s: State, step: Step, pc: Pc, x: JobInfo) {
    step.Work? && step.i < |s.workers| && s.workers[step.i].pc == pc && s.workers[step.i].job == x
  }

  /** A compare-exchange of the dispatcher that finds the job Running. */
  predicate Wins(s: State, step: Step, x: JobInfo) {
    step.Dispatch? && s.dispatcher.Cas? && s.dispatcher.job == x && x in s.jobs && s.jobs[x].status == Running
  }

  predicate StartsSweep(s: State, step: Step) {
    step.Dispatch? && s.dispatcher == Sweep(0)
  }

  /** The aging thread pushes the job one level up. */
  predicate Promotes(s: State, step: Step, x: JobInfo) {
    step == Age && s.aging.Promote? && s.aging.buf != [] && s.aging.buf[0] == x
  }

  datatype Events = Events(claims: nat, ticks: nat, wins: nat, promotions: nat, sweeps: nat)

  /** What happened to a job in the first k steps. */
  function Happened(b: seq<State>, steps: seq<Step>, k: nat, x: JobInfo): Events
    requires |b| == |steps| + 1 && k <= |steps|
  {
    if k == 0 then Events(0, 0, 0, 0, 0)
    else
      var e, s, step := Happened(b, steps, k - 1, x), b[k - 1], steps[k - 1];
      Events(e.claims + One(WorkerAt(s, step, Granted, x)), e.ticks + One(WorkerAt(s, step, Ticking, x)),
             e.wins + One(Wins(s, step, x)), e.promotions + One(Promotes(s, step, x)), e.sweeps + One(StartsSweep(s, step)))
  }

  /** One step's share of the counts. */
  ghost predicate Grows(s: State, step: Step, s': State, x: JobInfo)
    requires x in s.jobs
  {
    && x in s'.jobs
    && s'.jobs[x].runs == s.jobs[x].runs + One(WorkerAt(s, step, Granted, x))
    && s'.jobs[x].elapsed == s.jobs[x].elapsed + One(WorkerAt(s, step, Ticking, x))
    && s'.jobs[x].preemptions + Pending(s'.dispatcher, x)
       == s.jobs[x].preemptions + Pending(s.dispatcher, x) + One(Wins(s, step, x))
    && s'.jobs[x].disturbed == (s.jobs[x].disturbed || Wins(s, step, x) || Promotes(s, step, x))
    && (!WorkerAt(s, step, Granted, x) ==>
          && s'.jobs[x].wins == s.jobs[x].wins + One(Wins(s, step, x))
          && s'.jobs[x].late == s.jobs[x].late + One(WorkerAt(s, step, Ticking, x) && s.jobs[x].wins > 0))
  }

  lemma RunGrows(s: State, i: nat, hint: int)
    requires Enabled(s, Work(i, hint)) && HoldsSlotOrClaims(s.workers[i].pc)
    ensures Grows(s, Work(i, hint), DoWork(s, i, hint), s.workers[i].job)
  {
    hide AroundStep, FindSlot, StartSlot, QuantumExpired;
  }

  lemma FailGrows(s: State, i: nat, hint: int)
    requires Enabled(s, Work(i, hint)) && s.workers[i].pc == Failing
    ensures Grows(s, Work(i, hint), MarkFailed(s, i), s.workers[i].job)
  {
  }

  lemma DecideGrows(s: State, i: nat, hint: int)
    requires Enabled(s, Work(i, hint)) && s.workers[i].pc == Deciding
    ensures Grows(s, Work(i, hint), Decide(s, i), s.workers[i].job)
  {
    hide Insert, LevelAfter, QuantumExpired;
  }

  lemma AroundRunGrows(s: State, i: nat, hint: int)
    requires Enabled(s, Work(i, hint)) && !HoldsSlotOrClaims(s.workers[i].pc)
    requires s.workers[i].pc != Failing && s.workers[i].pc != Deciding
    ensures Grows(s, Work(i, hint), DoWork(s, i, hint), s.workers[i].job)
  {
    hide RunStep, MarkFailed, Decide, Fits, Released;
  }

  lemma WorkGrows(s: State, i: nat, hint: int, x: JobInfo)
    requires Enabled(s, Work(i, hint)) && x in s.jobs
    ensures Grows(s, Work(i, hint), DoWork(s, i, hint), x)
  {
    if x != s.workers[i].job {
      hide DoWork;
      WorkFrames(s, i, hint);
    } else {
      hide DoWork, Grows;
      EndIs(s, i, hint);
      if HoldsSlotOrClaims(s.workers[i].pc) {
        RunGrows(s, i, hint);
      } else if s.workers[i].pc == Failing {
        FailGrows(s, i, hint);
      } else if s.workers[i].pc == Deciding {
        DecideGrows(s, i, hint);
      } else {
        AroundRunGrows(s, i, hint);
      }
    }
  }

  lemma SweepGrows(s: State, step: Step, lvl: nat, x: JobInfo)
    requires step.Dispatch? && s.dispatcher == Sweep(lvl) && lvl < MLFQ_LEVELS && x in s.jobs
    ensures Grows(s, step, SweepLevel(s, lvl), x)
  {
  }

  lemma PreemptGrows(s: State, step: Step, slot: nat, y: JobInfo, x: JobInfo)
    requires step.Dispatch? && s.dispatcher == Cas(slot, y) && y in s.jobs && x in s.jobs
    ensures Grows(s, step, TryPreempt(s, slot, y), x)
  {
  }

  lemma CountWinGrows(s: State, step: Step, slot: nat, y: JobInfo, x: JobInfo)
    requires step.Dispatch? && s.dispatcher == CountWin(slot, y) && y in s.jobs && x in s.jobs
    ensures Grows(s, step, CountPreemption(s, slot, y), x)
  {
  }

  /** A step of the dispatcher that writes no job record and handles no request. */
  lemma StillGrows(s: State, step: Step, s': State, x: JobInfo)
    requires step.Dispatch? && x in s.jobs && s'.jobs == s.jobs
    requires !s.dispatcher.Cas? && !s.dispatcher.CountWin? && !s'.dispatcher.CountWin?
    ensures Grows(s, step, s', x)
  {
  }

  lemma StillDispatch(s: State, sweep: bool, hint: int)
    requires DispatcherReady(s)
    requires !s.dispatcher.Sweep? && !s.dispatcher.Cas? && !s.dispatcher.CountWin?
    ensures var s' := DoDispatch(s, sweep, hint);
            s'.jobs == s.jobs && !s'.dispatcher.CountWin?
  {
    hide SweepLevel, TryPreempt, CountPreemption;
  }

  lemma DispatchGrows(s: State, sweep: bool, hint: int, x: JobInfo)
    requires Enabled(s, Dispatch(sweep, hint)) && x in s.jobs
    ensures Grows(s, Dispatch(sweep, hint), DoDispatch(s, sweep, hint), x)
  {
    hide Grows, SweepLevel, TryPreempt, CountPreemption, ScanSlot, ProbeLevel, ProbeHead, PopLevel, Spawn;
    var step := Dispatch(sweep, hint);
    var d := s.dispatcher;
    if d.Sweep? {
      SweepGrows(s, step, d.lvl, x);
    } else if d.Cas? {
      PreemptGrows(s, step, d.slot, d.job, x);
    } else if d.CountWin? {
      CountWinGrows(s, step, d.slot, d.job, x);
    } else {
      hide DoDispatch;
      StillDispatch(s, sweep, hint);
      StillGrows(s, step, DoDispatch(s, sweep, hint), x);
    }
  }

  lemma AgeGrows(s: State, x: JobInfo)
    requires Enabled(s, Age) && x in s.jobs
    ensures Grows(s, Age, DoAge(s), x)
  {
    hide Insert, Taken, Kept, AgeFlags;
  }

  lemma StepGrows(s: State, step: Step, x: JobInfo)
    requires Enabled(s, step) && x in s.jobs
    ensures Grows(s, step, Apply(s, step), x)
  {
    hide DoWork, DoDispatch, DoAge, Insert;
    match step {
      case Work(i, hint) =>
        WorkGrows(s, i, hint, x);
      case Dispatch(sweep, hint) =>
        DispatchGrows(s, sweep, hint, x);
      case Age =>
        AgeGrows(s, x);
      case _ =>
    }
  }

  lemma StepSweeps(s: State, step: Step)
    requires Enabled(s, step)
    ensures Apply(s, step).sweeps == s.sweeps + One(StartsSweep(s, step))
    ensures forall x | x in s.jobs :: x in Apply(s, step).jobs
  {
    hide DoWork, DoAge, DoDispatch, Insert;
    match step {
      case Work(i, hint) => WorkFrames(s, i, hint);
      case Age => AgeFrames(s);
      case Dispatch(sweep, hint) =>
        DispatchFrames(s, sweep, hint);
        DispatchSweeps(s, sweep, hint);
      case _ =>
    }
  }

  lemma DispatchSweeps(s: State, sweep: bool, hint: int)
    requires DispatcherReady(s)
    ensures DoDispatch(s, sweep, hint).sweeps == s.sweeps + One(s.dispatcher == Sweep(0))
  {
    hide TickAll;
  }

  /** A job not yet handed in takes no part in any step but its own registration. */
  lemma NewcomerGrows(s: State, step: Step, x: JobInfo)
    requires Enabled(s, step) && x !in s.jobs
    ensures !WorkerAt(s, step, Granted, x) && !WorkerAt(s, step, Ticking, x)
    ensures !Wins(s, step, x) && !Promotes(s, step, x)
    ensures x in Apply(s, step).jobs ==>
              step == Register(x) && Apply(s, step).jobs[x] == NewJob(s.sweeps) && Apply(s, step).dispatcher == s.dispatcher
  {
    hide DoWork, DoDispatch, DoAge, Insert;
    match step {
      case Work(i, hint) => WorkFrames(s, i, hint);
      case Dispatch(sweep, hint) => DispatchFrames(s, sweep, hint);
      case Age => AgeFrames(s);
      case _ =>
    }
  }

  /** In every execution, for every job: runs counts the slot claims of its workers, elapsed_ticks the
      ticks they executed, preemption_count the preemption requests won, except one that the
      dispatcher has still to count, and sweeps the wait sweeps begun. A job is disturbed exactly if a
      request was won against it or it was promoted. */
  lemma {:induction false} CountsAreSteps(b: seq<State>, steps: seq<Step>, k: nat, x: JobInfo)
    requires Execution(b, steps) && k < |b|
    ensures var s, e := b[k], Happened(b, steps, k, x);
            && s.sweeps == e.sweeps
            && (x !in s.jobs ==> e.claims == e.ticks == e.wins == e.promotions == 0)
            && (x in s.jobs ==>
                  && s.jobs[x].runs == e.claims && s.jobs[x].elapsed == e.ticks
                  && s.jobs[x].preemptions + Pending(s.dispatcher, x) == e.wins
                  && (s.jobs[x].disturbed <==> e.wins > 0 || e.promotions > 0))
  {
    hide Apply, Enabled, WorkerAt, Wins, Promotes, StartsSweep, Init, Safe;
    if k == 0 {
      NothingYet(x);
    } else {
      CountsAreSteps(b, steps, k - 1, x);
      var s, step := b[k - 1], steps[k - 1];
      StepSweeps(s, step);
      if x in s.jobs {
        StepGrows(s, step, x);
      } else {
        NewcomerGrows(s, step, x);
        ReachableSafe(b, steps, k - 1);
        NotPending(s, x);
      }
    }
  }

  lemma NotPending(s: State, x: JobInfo)
    requires Safe(s) && x !in s.jobs
    ensures Pending(s.dispatcher, x) == 0
  {
    hide Owned, Accounts, Recorded;
  }

  lemma NothingYet(x: JobInfo)
    ensures x !in Init().jobs && Init().sweeps == 0
  {
  }

  // ---------------------------------------------------------------- one request and one tick per run

  /** From a won request on, as long as no new run of the job starts, the request stays won, and the
      ticks executed are those that the record counts as late. */
  lemma {:induction false} SinceWin(b: seq<State>, steps: seq<Step>, j: nat, k: nat, x: JobInfo)
    requires Execution(b, steps) && j < k < |b| && Wins(b[j], steps[j], x)
    requires Happened(b, steps, k, x).claims == Happened(b, steps, j, x).claims
    ensures x in b[j].jobs && x in b[k].jobs
    ensures b[k].jobs[x].wins >= 1 && b[k].jobs[x].late <= 1
    ensures Happened(b, steps, k, x).ticks - Happened(b, steps, j, x).ticks <= b[k].jobs[x].late
  {
    hide Apply, Enabled, WorkerAt, Promotes, StartsSweep, Init;
    var s, step := b[k - 1], steps[k - 1];
    if j + 1 == k {
      StepGrows(s, step, x);
      NoLateBefore(b, steps, j, x);
      WinIsNoTick(s, step, x);
    } else {
      ClaimsOnlyGrow(b, steps, j, k - 1, x);
      SinceWin(b, steps, j, k - 1, x);
      StepGrows(s, step, x);
      if WorkerAt(s, step, Ticking, x) {
        LateAfterTick(b, steps, k, x);
      }
    }
  }

  lemma {:induction false} ClaimsOnlyGrow(b: seq<State>, steps: seq<Step>, j: nat, k: nat, x: JobInfo)
    requires |b| == |steps| + 1 && j <= k <= |steps|
    ensures Happened(b, steps, j, x).claims <= Happened(b, steps, k, x).claims
  {
    if j < k {
      ClaimsOnlyGrow(b, steps, j, k - 1, x);
    }
  }

  lemma WinIsNoTick(s: State, step: Step, x: JobInfo)
    requires Wins(s, step, x)
    ensures !WorkerAt(s, step, Ticking, x) && !WorkerAt(s, step, Granted, x)
  {
  }

  lemma NoLateBefore(b: seq<State>, steps: seq<Step>, j: nat, x: JobInfo)
    requires Execution(b, steps) && j < |steps| && Wins(b[j], steps[j], x)
    ensures x in b[j].jobs && b[j].jobs[x].wins == 0 && b[j].jobs[x].late == 0
  {
    hide Safe;
    ReachableSafe(b, steps, j);
    WinFindsFreshRun(b[j], steps[j], x);
  }

  lemma WinFindsFreshRun(s: State, step: Step, x: JobInfo)
    requires Safe(s) && Wins(s, step, x)
    ensures s.jobs[x].wins == 0 && s.jobs[x].late == 0
  {
    hide Owned, Accounts, Recorded;
    var i := Occupant(s, s.dispatcher.slot, x);
  }

  lemma LateAfterTick(b: seq<State>, steps: seq<Step>, k: nat, x: JobInfo)
    requires Execution(b, steps) && 0 < k < |b| && WorkerAt(b[k - 1], steps[k - 1], Ticking, x)
    ensures x in b[k].jobs && b[k].jobs[x].late <= 1
  {
    hide Execution, Safe, WorkerAt;
    ReachableSafe(b, steps, k);
    TickStays(b, steps, k, x);
    assert RecordOk(b[k], x) by {
      SafeRecord(b[k], x);
    }
  }

  lemma SafeRecord(s: State, x: JobInfo)
    requires Safe(s) && x in s.jobs
    ensures RecordOk(s, x)
  {
    hide Owned, Accounts, RecordOk;
  }

  lemma TickStays(b: seq<State>, steps: seq<Step>, k: nat, x: JobInfo)
    requires Execution(b, steps) && 0 < k < |b| && WorkerAt(b[k - 1], steps[k - 1], Ticking, x)
    ensures x in b[k].jobs
    ensures exists i :: 0 <= i < |b[k].workers| && b[k].workers[i].pc == LoopTest && b[k].workers[i].job == x
  {
    hide AroundStep, TestLoop, TestStatus, TestQuantum, ClaimSlot, ClearSlot, MarkRunning, TickedOnce;
    var i := steps[k - 1].i;
    assert b[k].workers[i].pc == LoopTest && b[k].workers[i].job == x;
  }

  /** After a preemption request has won, at most one tick is executed until the job's next run. */
  lemma OneTickAfterWin(b: seq<State>, steps: seq<Step>, j: nat, k: nat, x: JobInfo)
    requires Execution(b, steps) && j < k < |b| && Wins(b[j], steps[j], x)
    requires Happened(b, steps, k, x).claims == Happened(b, steps, j, x).claims
    ensures Happened(b, steps, k, x).ticks <= Happened(b, steps, j, x).ticks + 1
  {
    hide Execution, Wins, Happened;
    SinceWin(b, steps, j, k, x);
  }

  /** Between two requests won against a job, a run of it starts. */
  lemma OneWinPerRun(b: seq<State>, steps: seq<Step>, j: nat, k: nat, x: JobInfo)
    requires Execution(b, steps) && j < k < |steps| && Wins(b[j], steps[j], x) && Wins(b[k], steps[k], x)
    ensures Happened(b, steps, k, x).claims > Happened(b, steps, j, x).claims
  {
    hide Apply, Enabled, Init, Wins, Happened;
    ClaimsOnlyGrow(b, steps, j, k, x);
    if Happened(b, steps, k, x).claims == Happened(b, steps, j, x).claims {
      SinceWin(b, steps, j, k, x);
      NoLateBefore(b, steps, k, x);
      assert false;
    }
  }

  /** The dispatch bound in steps: the slot claims of a job's workers are at most 1 + its won requests
      + half of the ticks they have executed; a request won and not yet counted only adds room. */
  lemma ClaimBound(b: seq<State>, steps: seq<Step>, k: nat, x: JobInfo)
    requires Execution(b, steps) && k < |b|
    ensures var e := Happened(b, steps, k, x);
            e.claims <= 1 + e.wins + e.ticks / 2
  {
    hide Execution, Safe, Happened;
    CountsAreSteps(b, steps, k, x);
    if x in b[k].jobs {
      ReachableSafe(b, steps, k);
      SafeRecord(b[k], x);
      hide RecordOk;
      assert Basic(x, b[k].jobs[x]) by {
        RecordBasic(b[k], x);
      }
    }
  }

  lemma RecordBasic(s: State, x: JobInfo)
    requires x in s.jobs && RecordOk(s, x)
    ensures Basic(x, s.jobs[x])
  {
  }

  /** The closed form, in every interleaving: a completed job against which no request was won and
      which was never promoted has had exactly 1 run if its burst is at most 2, 2 if it is at most 6,
      else 2 + ceil((burst - 6) / 8), and ends at level 0, 1 or 2. */
  lemma UndisturbedRuns(b: seq<State>, steps: seq<Step>, k: nat, x: JobInfo)
    requires Execution(b, steps) && k < |b| && x in b[k].completed
    requires Happened(b, steps, k, x).wins == 0 && Happened(b, steps, k, x).promotions == 0
    ensures var e, n := Happened(b, steps, k, x), Demand(x.burst);
            && x in b[k].jobs && e.ticks == n
            && e.claims == RunsFor(n) && b[k].jobs[x].level == LevelFor(n)
  {
    hide Execution, Safe, Happened, Runs, LastLevel;
    ReachableSafe(b, steps, k);
    CompletedRecord(b[k], x);
    CountsAreSteps(b, steps, k, x);
    ClosedForm(Demand(x.burst));
  }

  lemma CompletedRecord(s: State, x: JobInfo)
    requires Safe(s) && x in s.completed
    ensures x in s.jobs && Finished(x, s.jobs[x]) && s.jobs[x].elapsed == Demand(x.burst)
  {
    hide Total, Accounts, Finished;
    CountedOnce(s, x);
    assert RecordOk(s, x);
  }

  /** Since its submission a job has waited at most as many ticks as wait sweeps were begun. */
  lemma WaitSinceSubmission(b: seq<State>, steps: seq<Step>, j: nat, k: nat, x: JobInfo)
    requires Execution(b, steps) && j < k < |b| && steps[j] == Register(x)
    ensures x in b[k].jobs
    ensures b[k].jobs[x].wait <= Happened(b, steps, k, x).sweeps - Happened(b, steps, j, x).sweeps
  {
    hide DoDispatch, DoWork, DoAge, Happened;
    assert b[j + 1] == DoRegister(b[j], x);
    CountsAreSteps(b, steps, j, x);
    CountsAreSteps(b, steps, k, x);
    SweepsTickOnce(b, steps, j + 1, k, x);
  }
}
