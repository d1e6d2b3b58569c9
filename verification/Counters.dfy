/**
 The statistics counters, and the sum over all places that total_submitted stands for.
 */
module Counters {
  import opened Jobs
  import opened StableQueue
  import opened MlfqSpec
  import opened Protocol
  import opened WorkerTally
  import opened Ownership

  /** Each counter lags behind by exactly the threads that have not yet added their one. */
  ghost predicate Counts(s: State) {
    && s.totalSubmitted + |s.registered| == |s.jobs.Keys|
    && s.totalCompleted + Total(s.workers).completing == |s.completed|
    && s.totalFailed + Total(s.workers).failing == |s.failed|
    && |s.tracked| == (if |s.jobs.Keys| < MAX_JOBS then |s.jobs.Keys| else MAX_JOBS)
  }

  lemma InitCounts()
    ensures Counts(Init())
  {
  }

  lemma SubmitCounts(s: State, step: Step)
    requires Enabled(s, step) && Owned(s) && Counts(s)
    requires step.Register? || step.Count? || step.PushNew? || step.Stop?
    ensures Counts(Apply(s, step))
  {
    hide Owned, Total, Insert;
    match step {
      case Register(x) => RegisterCounts(s, x);
      case PushNew(x) => assert Apply(s, step).jobs.Keys == s.jobs.Keys;
      case _ =>
    }
  }

  lemma RegisterCounts(s: State, x: JobInfo)
    requires Enabled(s, Register(x)) && Owned(s) && Counts(s)
    ensures Counts(DoRegister(s, x))
  {
    hide Owned, Total;
    NotRegistered(s, x);
    assert DoRegister(s, x).jobs.Keys == s.jobs.Keys + {x};
  }

  lemma NotRegistered(s: State, x: JobInfo)
    requires Owned(s) && x !in s.jobs
    ensures x !in s.registered
  {
  }

  ghost predicate Terminates(s: State, s': State, i: nat)
    requires HasWorker(s, i)
  {
    var x, pc := s.workers[i].job, s.workers[i].pc;
    && i < |s'.workers|
    && s'.completed == (if s'.workers[i].pc == CompletePending then s.completed + {x} else s.completed)
    && s'.failed == (if pc == Failing then s.failed + {x} else s.failed)
    && (s'.workers[i].pc == CompletePending ==> pc == Deciding)
    && (s'.workers[i].pc == FailPending <==> pc == Failing)
    && s'.totalCompleted == s.totalCompleted + One(pc == CompletePending)
    && s'.totalFailed == s.totalFailed + One(pc == FailPending)
  }

  lemma TerminalWork(s: State, i: nat, hint: int)
    requires Enabled(s, Work(i, hint))
    ensures Terminates(s, DoWork(s, i, hint), i)
  {
    hide Terminates;
    if HoldsSlotOrClaims(s.workers[i].pc) {
      TerminalInRun(s, i, hint);
    } else if s.workers[i].pc == Failing || s.workers[i].pc == Deciding {
      TerminalAtEnd(s, i, hint);
    } else {
      TerminalAroundRun(s, i, hint);
    }
  }

  lemma TerminalInRun(s: State, i: nat, hint: int)
    requires Enabled(s, Work(i, hint)) && HoldsSlotOrClaims(s.workers[i].pc)
    ensures Terminates(s, DoWork(s, i, hint), i)
  {
    hide AroundStep, FindSlot, StartSlot, RunStarted, TickedOnce, QuantumExpired;
  }

  lemma TerminalAtEnd(s: State, i: nat, hint: int)
    requires Enabled(s, Work(i, hint)) && (s.workers[i].pc == Failing || s.workers[i].pc == Deciding)
    ensures Terminates(s, DoWork(s, i, hint), i)
  {
    hide RunStep, CheckBudget, ReleaseBudget, Insert, Requeued;
  }

  lemma TerminalAroundRun(s: State, i: nat, hint: int)
    requires Enabled(s, Work(i, hint)) && !HoldsSlotOrClaims(s.workers[i].pc)
    requires s.workers[i].pc != Failing && s.workers[i].pc != Deciding
    ensures Terminates(s, DoWork(s, i, hint), i)
  {
  }

  lemma PendingOfStep(ws: seq<Worker>, i: nat, w: Worker)
    requires i < |ws|
    ensures Total(ws[i := w]).completing + One(ws[i].pc == CompletePending)
            == Total(ws).completing + One(w.pc == CompletePending)
    ensures Total(ws[i := w]).failing + One(ws[i].pc == FailPending) == Total(ws).failing + One(w.pc == FailPending)
  {
    TotalOfStep(ws, i, w);
  }

  lemma WorkCounts(s: State, i: nat, hint: int)
    requires Enabled(s, Work(i, hint)) && Owned(s) && Counts(s)
    ensures Counts(DoWork(s, i, hint))
  {
    hide Owned, Total, DoWork;
    var s' := DoWork(s, i, hint);
    WorkFrames(s, i, hint);
    TerminalWork(s, i, hint);
    PendingOfStep(s.workers, i, s'.workers[i]);
    if Owns(s.workers[i].pc) {
      NotElsewhere(s, i);
    }
  }

  lemma DispatchCounts(s: State, sweep: bool, hint: int)
    requires DispatcherReady(s) && Counts(s)
    ensures Counts(DoDispatch(s, sweep, hint))
  {
    hide Total, DoDispatch, Spawn;
    DispatchFrames(s, sweep, hint);
    if s.dispatcher.Hand? {
      DispatchSpawns(s, sweep, hint);
      SpawnCounts(s, s.dispatcher.job, hint);
    }
  }

  lemma SpawnCounts(s: State, x: JobInfo, hint: int)
    requires Counts(s)
    ensures Counts(Spawn(s, x, hint))
  {
  }

  lemma StepKeepsCounts(s: State, step: Step)
    requires Enabled(s, step) && Owned(s) && Counts(s)
    ensures Counts(Apply(s, step))
  {
    hide Owned, Counts, DoDispatch, DoAge, DoWork, DoRegister;
    match step {
      case Dispatch(sweep, hint) => DispatchCounts(s, sweep, hint);
      case Age =>
        AgeFrames(s);
        SameCounts(s, DoAge(s));
      case Work(i, hint) => WorkCounts(s, i, hint);
      case _ => SubmitCounts(s, step);
    }
  }

  lemma SameCounts(s: State, s': State)
    requires Counts(s) && s'.jobs.Keys == s.jobs.Keys && s'.workers == s.workers && s'.tracked == s.tracked
    requires s'.registered == s.registered && s'.completed == s.completed && s'.failed == s.failed
    requires s'.totalSubmitted == s.totalSubmitted && s'.totalCompleted == s.totalCompleted && s'.totalFailed == s.totalFailed
    ensures Counts(s')
  {
  }

  // ---------------------------------------------------------------- the sum over places

  /** Every submitted job is in exactly one place, counted over the places as a whole. */
  lemma PlacesAddUp(s: State)
    requires Owned(s)
    ensures |s.jobs.Keys| == |Flat(s.queues)| + One(s.dispatcher.Hand?) + |BufferOf(s.aging)| + |Total(s.workers).jobs|
                           + |s.registered| + |s.counted| + |s.completed| + |s.failed| + |s.abandoned|
  {
    hide Total;
    var all := multiset(Flat(s.queues)) + HandOf(s.dispatcher) + multiset(BufferOf(s.aging)) + Total(s.workers).jobs
             + multiset(s.registered) + multiset(s.counted)
             + multiset(s.completed) + multiset(s.failed) + multiset(s.abandoned);
    forall x: JobInfo ensures all[x] == multiset(s.jobs.Keys)[x] {
      CountedOnce(s, x);
      FlatCounts(s.queues);
    }
    assert all == multiset(s.jobs.Keys);
    assert |multiset(s.jobs.Keys)| == |s.jobs.Keys|;
    assert |HandOf(s.dispatcher)| == One(s.dispatcher.Hand?);
    assert |multiset(s.registered)| == |s.registered| && |multiset(s.counted)| == |s.counted|;
    assert |multiset(s.completed)| == |s.completed| && |multiset(s.failed)| == |s.failed|;
    assert |multiset(s.abandoned)| == |s.abandoned|;
  }

  /** total_submitted is the number of jobs in all places past the submission counter; completed and
      failed jobs appear through their counters plus the workers whose count is still pending. */
  lemma SubmittedIsSumOverPlaces(s: State)
    requires Owned(s) && Counts(s)
    ensures s.totalSubmitted ==
              |s.counted| + |Flat(s.queues)| + One(s.dispatcher.Hand?) + |BufferOf(s.aging)| + |Total(s.workers).jobs|
              + s.totalCompleted + Total(s.workers).completing + s.totalFailed + Total(s.workers).failing + |s.abandoned|
  {
    hide Owned, Total;
    PlacesAddUp(s);
  }
}
