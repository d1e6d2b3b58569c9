/**
 Every step keeps every job's record in agreement with where the job is.
 */
module RunInvariant {
  import opened Jobs
  import opened StableQueue
  import opened MlfqSpec
  import opened Protocol
  import opened WorkerTally
  import opened Accounting
  import opened Ownership
  import opened JobRecords
  import opened RunPlan

  // ---------------------------------------------------------------- workers

  ghost predicate NextOk(s: State, s': State, i: nat)
    requires HasWorker(s, i)
  {
    NextPhaseOk(s, s', i) && NextOnCourse(s, s', i)
  }

  ghost predicate NextPhaseOk(s: State, s': State, i: nat)
    requires HasWorker(s, i)
  {
    var x := s.workers[i].job;
    && x in s'.jobs && i < |s'.workers|
    && Basic(x, s'.jobs[x]) && PhaseOk(s'.workers[i], s'.jobs[x], Pending(s.dispatcher, x), s.running)
  }

  ghost predicate NextOnCourse(s: State, s': State, i: nat)
    requires HasWorker(s, i)
  {
    var x := s.workers[i].job;
    x in s'.jobs && i < |s'.workers| && OnCourse(x, s'.jobs[x], !BeforeRun(s'.workers[i].pc))
  }

  /** What the record of its job says about one worker. */
  ghost predicate OwnOk(s: State, i: nat)
    requires HasWorker(s, i)
  {
    var w, r := s.workers[i], s.jobs[s.workers[i].job];
    Basic(w.job, r) && PhaseOk(w, r, Pending(s.dispatcher, w.job), s.running)
  }

  lemma OwnerIsOk(s: State, i: nat)
    requires HasWorker(s, i) && RecordOk(s, s.workers[i].job) && Owns(s.workers[i].pc)
    ensures OwnOk(s, i) && OnCourse(s.workers[i].job, s.jobs[s.workers[i].job], !BeforeRun(s.workers[i].pc))
  {
    hide PhaseOk, Basic, Queueable, OnCourse;
  }

  lemma BeforeRunNext(s: State, i: nat, hint: int)
    requires Enabled(s, Work(i, hint)) && OwnOk(s, i)
    requires BeforeRun(s.workers[i].pc) && s.workers[i].pc != Failing
    ensures NextPhaseOk(s, DoWork(s, i, hint), i)
  {
  }

  lemma LoopNext(s: State, i: nat, hint: int)
    requires Enabled(s, Work(i, hint)) && OwnOk(s, i)
    requires InLoop(s.workers[i].pc) && s.workers[i].pc != Ticking
    ensures NextPhaseOk(s, DoWork(s, i, hint), i)
  {
    hide AroundStep, ClaimSlot, MarkRunning, ExecuteTick, ClearSlot;
  }

  lemma RunningNext(s: State, i: nat, hint: int)
    requires Enabled(s, Work(i, hint)) && OwnOk(s, i)
    requires s.workers[i].pc == Claimed || s.workers[i].pc == Ticking
    ensures NextPhaseOk(s, DoWork(s, i, hint), i)
  {
  }

  lemma AfterLoopNext(s: State, i: nat, hint: int)
    requires Enabled(s, Work(i, hint)) && OwnOk(s, i)
    requires s.workers[i].pc == Clearing || s.workers[i].pc == Releasing || s.workers[i].pc == Posting
    ensures NextPhaseOk(s, DoWork(s, i, hint), i)
  {
    hide CheckBudget, MarkFailed, ClaimSlot, MarkRunning, TestLoop, TestStatus, TestQuantum, ExecuteTick, Decide, Released;
  }

  /** A claim starts the next run of the plan, a tick moves from the rest to the slice. */
  lemma RunOnCourse(s: State, i: nat, hint: int)
    requires Enabled(s, Work(i, hint)) && HoldsSlotOrClaims(s.workers[i].pc)
    requires s.workers[i].pc == Granted ==> s.jobs[s.workers[i].job].slice == 0
    requires s.workers[i].pc == Ticking ==>
               0 <= s.jobs[s.workers[i].job].slice && s.jobs[s.workers[i].job].elapsed < s.workers[i].job.burst
    requires OnCourse(s.workers[i].job, s.jobs[s.workers[i].job], !BeforeRun(s.workers[i].pc))
    ensures NextOnCourse(s, DoWork(s, i, hint), i)
  {
    hide AroundStep, FindSlot, StartSlot, QuantumExpired, OnCourse, RunStarted, TickedOnce;
    var x, r := s.workers[i].job, s.jobs[s.workers[i].job];
    if s.workers[i].pc == Granted {
      ClaimOnCourse(x, r);
    } else if s.workers[i].pc == Ticking {
      TickOnCourse(x, r);
    } else {
      StatusPlaysNoPart(x, r, Running);
      StatusPlaysNoPart(x, r, Preempted);
    }
  }

  lemma ClaimOnCourse(x: JobInfo, r: JobRec)
    requires OnCourse(x, r, false) && r.slice == 0
    ensures OnCourse(x, RunStarted(r), true)
  {
    hide Runs, LastLevel;
  }

  lemma TickOnCourse(x: JobInfo, r: JobRec)
    requires OnCourse(x, r, true) && r.slice >= 0 && r.elapsed < x.burst
    ensures OnCourse(x, TickedOnce(r), true)
  {
    hide Runs, LastLevel;
    assert RemainingTicks(x.burst, r.elapsed + 1) + (r.slice + 1) == RemainingTicks(x.burst, r.elapsed) + r.slice;
  }

  lemma StatusPlaysNoPart(x: JobInfo, r: JobRec, status: Status)
    requires OnCourse(x, r, true)
    ensures OnCourse(x, r.(status := status), true)
  {
    hide Planned;
  }

  lemma AroundRunOnCourse(s: State, i: nat, hint: int)
    requires Enabled(s, Work(i, hint)) && !HoldsSlotOrClaims(s.workers[i].pc)
    requires Owns(s.workers[i].pc) && s.workers[i].pc != Failing && s.workers[i].pc != Deciding
    requires OnCourse(s.workers[i].job, s.jobs[s.workers[i].job], !BeforeRun(s.workers[i].pc))
    ensures NextOnCourse(s, DoWork(s, i, hint), i)
  {
    hide RunStep, MarkFailed, Decide, Fits, Released, OnCourse;
  }

  lemma OwnerOnCourse(s: State, i: nat, hint: int)
    requires Enabled(s, Work(i, hint)) && OwnOk(s, i)
    requires Owns(s.workers[i].pc) && s.workers[i].pc != Failing && s.workers[i].pc != Deciding
    requires OnCourse(s.workers[i].job, s.jobs[s.workers[i].job], !BeforeRun(s.workers[i].pc))
    ensures NextOnCourse(s, DoWork(s, i, hint), i)
  {
    hide DoWork, NextOnCourse, OnCourse;
    if HoldsSlotOrClaims(s.workers[i].pc) {
      RunOnCourse(s, i, hint);
    } else {
      AroundRunOnCourse(s, i, hint);
    }
  }

  lemma OwnerNext(s: State, i: nat, hint: int)
    requires Enabled(s, Work(i, hint)) && RecordOk(s, s.workers[i].job)
    requires Owns(s.workers[i].pc) && s.workers[i].pc != Failing && s.workers[i].pc != Deciding
    ensures NextOk(s, DoWork(s, i, hint), i)
  {
    hide NextPhaseOk, NextOnCourse, DoWork, RecordOk, OwnOk, OnCourse;
    OwnerIsOk(s, i);
    OwnerOnCourse(s, i, hint);
    var pc := s.workers[i].pc;
    if BeforeRun(pc) {
      BeforeRunNext(s, i, hint);
    } else if pc == Claimed || pc == Ticking {
      RunningNext(s, i, hint);
    } else if InLoop(pc) {
      LoopNext(s, i, hint);
    } else {
      AfterLoopNext(s, i, hint);
    }
  }

  /** A worker step brings no other job anywhere new. */
  ghost predicate Spreads(s: State, s': State, x: JobInfo) {
    && (forall l, y | 0 <= l < MLFQ_LEVELS && y in s'.queues[l] && y != x :: y in s.queues[l])
    && (forall y | y in s'.completed && y != x :: y in s.completed)
    && (forall y | y in s'.failed && y != x :: y in s.failed)
    && (forall y | y in s'.abandoned && y != x :: y in s.abandoned)
  }

  lemma OthersOk(s: State, s': State, i: nat, y: JobInfo)
    requires Recorded(s) && WorkFrame(s, s', i) && Spreads(s, s', s.workers[i].job)
    requires y in s.jobs && y != s.workers[i].job
    ensures y in s'.jobs && RecordOk(s', y)
  {
  }

  lemma OwnerOk(s: State, s': State, i: nat)
    requires Owned(s) && WorkFrame(s, s', i) && SamePlaces(s, s') && NextOk(s, s', i) && Owns(s.workers[i].pc)
    ensures RecordOk(s', s.workers[i].job)
  {
    hide Owned, PhaseOk, OnCourse, Basic, Between;
    NotElsewhere(s, i);
  }

  /** A worker that no longer owns its job only counts, or has exited. */
  lemma BystanderWork(s: State, i: nat, hint: int)
    requires Enabled(s, Work(i, hint)) && Recorded(s) && !Owns(s.workers[i].pc)
    ensures Recorded(DoWork(s, i, hint))
  {
  }

  lemma OwnerWork(s: State, i: nat, hint: int)
    requires Enabled(s, Work(i, hint)) && Owned(s) && Recorded(s)
    requires Owns(s.workers[i].pc) && s.workers[i].pc != Failing && s.workers[i].pc != Deciding
    ensures Recorded(DoWork(s, i, hint))
  {
    hide Owned, RecordOk, DoWork, NextOk;
    var s' := DoWork(s, i, hint);
    WorkFrames(s, i, hint);
    OwnerNext(s, i, hint);
    forall y | y in s'.jobs ensures RecordOk(s', y) {
      if y == s.workers[i].job {
        OwnerOk(s, s', i);
      } else {
        OthersOk(s, s', i, y);
      }
    }
  }

  lemma FailWork(s: State, i: nat)
    requires Owned(s) && Recorded(s) && HasWorker(s, i) && s.workers[i].pc == Failing
    ensures RecordOk(MarkFailed(s, i), s.workers[i].job)
    ensures Spreads(s, MarkFailed(s, i), s.workers[i].job)
  {
    hide Owned;
    NotElsewhere(s, i);
    assert RecordOk(s, s.workers[i].job);
  }

  lemma CompleteWork(s: State, i: nat)
    requires Owned(s) && Recorded(s) && HasWorker(s, i) && s.workers[i].pc == Deciding
    requires s.jobs[s.workers[i].job].elapsed >= s.workers[i].job.burst
    ensures RecordOk(Complete(s, i), s.workers[i].job)
    ensures Spreads(s, Complete(s, i), s.workers[i].job)
  {
    hide Owned;
    NotElsewhere(s, i);
    assert RecordOk(s, s.workers[i].job);
  }

  /** A job that is requeued undisturbed has used a full quantum, and goes one level down. */
  lemma RequeuedOnCourse(w: Worker, r: JobRec, pend: nat, running: bool)
    requires w.pc == Deciding && w.preempted && Basic(w.job, r) && WorkerOk(w, r, pend, running)
    requires r.elapsed < w.job.burst
    ensures OnCourse(w.job, Requeued(r), false)
  {
    hide Runs, LastLevel;
    FullQuantum(RemainingTicks(w.job.burst, r.elapsed), r.level);
  }

  /** A requeued job has room for another run: either a counted request or a full quantum paid for it. */
  lemma RequeueWork(s: State, i: nat)
    requires Owned(s) && Recorded(s) && HasWorker(s, i) && s.workers[i].pc == Deciding && s.workers[i].preempted
    requires s.jobs[s.workers[i].job].elapsed < s.workers[i].job.burst
    requires 0 <= s.jobs[s.workers[i].job].level < MLFQ_LEVELS
    ensures RecordOk(Requeue(s, i), s.workers[i].job)
    ensures Spreads(s, Requeue(s, i), s.workers[i].job)
  {
    hide Owned, Insert, OnCourse;
    var x := s.workers[i].job;
    NotElsewhere(s, i);
    assert RecordOk(s, x);
    RequeuedOnCourse(s.workers[i], s.jobs[x], Pending(s.dispatcher, x), s.running);
    var l := Requeued(s.jobs[x]).level;
    forall y ensures y in Insert(InfoKey, s.queues[l], x) <==> y == x || y in s.queues[l] {
      InsertMembers(s.queues[l], x, y);
    }
  }

  lemma AbandonWork(s: State, i: nat)
    requires Owned(s) && Recorded(s) && HasWorker(s, i) && s.workers[i].pc == Deciding && !s.workers[i].preempted
    requires s.jobs[s.workers[i].job].elapsed < s.workers[i].job.burst
    ensures var s' := SetPc(s.(abandoned := s.abandoned + {s.workers[i].job}), i, Exited);
            RecordOk(s', s.workers[i].job) && Spreads(s, s', s.workers[i].job)
  {
    hide Owned;
    NotElsewhere(s, i);
    assert RecordOk(s, s.workers[i].job);
  }

  lemma EndOfWork(s: State, i: nat, hint: int)
    requires Enabled(s, Work(i, hint)) && Owned(s) && Recorded(s)
    requires s.workers[i].pc == Failing || s.workers[i].pc == Deciding
    ensures var s' := DoWork(s, i, hint);
            s.workers[i].job in s'.jobs && RecordOk(s', s.workers[i].job) && Spreads(s, s', s.workers[i].job)
  {
    hide Owned, Recorded, RecordOk, Spreads, MarkFailed, Complete, Requeue, SetPc;
    WorkFrames(s, i, hint);
    var x := s.workers[i].job;
    if s.workers[i].pc == Failing {
      FailWork(s, i);
    } else if s.jobs[x].elapsed >= x.burst {
      CompleteWork(s, i);
    } else if s.workers[i].preempted {
      RequeueWork(s, i);
    } else {
      AbandonWork(s, i);
    }
  }

  lemma WorkRecorded(s: State, i: nat, hint: int)
    requires Enabled(s, Work(i, hint)) && Owned(s) && Recorded(s)
    ensures Recorded(DoWork(s, i, hint))
  {
    hide Owned, RecordOk, DoWork, Spreads;
    if !Owns(s.workers[i].pc) {
      BystanderWork(s, i, hint);
    } else if s.workers[i].pc != Failing && s.workers[i].pc != Deciding {
      OwnerWork(s, i, hint);
    } else {
      var s' := DoWork(s, i, hint);
      WorkFrames(s, i, hint);
      EndOfWork(s, i, hint);
      forall y | y in s'.jobs && y != s.workers[i].job ensures RecordOk(s', y) {
        OthersOk(s, s', i, y);
      }
    }
  }

  // ---------------------------------------------------------------- the dispatcher

  /** Where the dispatcher's own references point. */
  ghost predicate ScanOk(s: State) {
    match s.dispatcher
    case Sweep(lvl) => lvl < MLFQ_LEVELS
    case Scan(slot) => slot <= MAX_CONCURRENT
    case Probe(slot, x, level, lvl) => Occupies(s, slot, x) && level == s.jobs[x].level && lvl <= level
    case ProbeTop(slot, x, level) => Occupies(s, slot, x) && level == s.jobs[x].level
    case Cas(slot, x) => Occupies(s, slot, x)
    case CountWin(slot, x) => Occupies(s, slot, x)
    case PopFrom(lvl) => lvl < MLFQ_LEVELS
    case _ => true
  }

  ghost predicate Occupies(s: State, slot: nat, x: JobInfo) {
    slot < MAX_CONCURRENT && s.active[slot].Held? && s.active[slot].job == x && x in s.jobs
  }

  /** The worker behind an entry of the table. */
  lemma Occupant(s: State, slot: nat, x: JobInfo) returns (k: nat)
    requires Accounts(s) && Recorded(s) && Occupies(s, slot, x)
    ensures k < |s.workers| && HoldsSlot(s.workers[k].pc) && s.workers[k].job == x
    ensures WorkerOk(s.workers[k], s.jobs[x], Pending(s.dispatcher, x), s.running)
  {
    hide Balanced, WorkerOk;
    k := s.active[slot].worker;
    assert RecordOk(s, x);
  }

  lemma QuietStep(s: State, s': State)
    requires Recorded(s) && s'.jobs == s.jobs && s'.queues == s.queues && s'.workers == s.workers
    requires s'.registered == s.registered && s'.counted == s.counted && (s'.running ==> s.running)
    requires s'.completed == s.completed && s'.failed == s.failed && s'.abandoned == s.abandoned
    requires BufferOf(s'.aging) == BufferOf(s.aging) && BufferLevel(s'.aging) == BufferLevel(s.aging)
    requires HandOf(s'.dispatcher) == HandOf(s.dispatcher)
    requires s.dispatcher.CountWin? || s'.dispatcher.CountWin? ==> s'.dispatcher == s.dispatcher
    ensures Recorded(s')
  {
  }

  lemma SweepRecorded(s: State, lvl: nat)
    requires Recorded(s) && s.dispatcher == Sweep(lvl) && lvl < MLFQ_LEVELS
    ensures Recorded(SweepLevel(s, lvl))
  {
    hide RecordOk;
    var s' := SweepLevel(s, lvl);
    forall y | y in s'.jobs ensures RecordOk(s', y) {
      UntouchedOk(s, s', y);
    }
  }

  lemma PopRecorded(s: State, lvl: nat)
    requires Recorded(s) && s.dispatcher == PopFrom(lvl) && lvl < MLFQ_LEVELS
    requires forall x | x in s.queues[lvl] :: x in s.jobs
    ensures Recorded(PopLevel(s, lvl))
  {
    var s' := PopLevel(s, lvl);
    forall y | y in s'.jobs ensures RecordOk(s', y) {
      assert RecordOk(s, y);
      hide Basic, Between, WorkerOk;
    }
  }

  lemma SpawnRecorded(s: State, hint: int)
    requires Owned(s) && Recorded(s) && s.dispatcher.Hand?
    ensures Recorded(Spawn(s, s.dispatcher.job, hint))
  {
    hide Owned, Basic, Between;
    var s' := Spawn(s, s.dispatcher.job, hint);
    forall y | y in s'.jobs ensures RecordOk(s', y) {
      assert RecordOk(s, y);
    }
  }

  /** Only a job that still holds its slot can be hit, and a job in a run is hit at most once. */
  lemma PreemptRecorded(s: State, slot: nat, x: JobInfo)
    requires Owned(s) && Accounts(s) && Recorded(s) && ScanOk(s) && s.dispatcher == Cas(slot, x)
    ensures x in s.jobs && Recorded(TryPreempt(s, slot, x))
  {
    hide Owned, Accounts, RecordOk;
    var s' := TryPreempt(s, slot, x);
    forall y | y in s'.jobs ensures RecordOk(s', y) {
      if y == x {
        PreemptedOk(s, slot, x);
      } else {
        UntouchedOk(s, s', y);
      }
    }
  }

  lemma PreemptedOk(s: State, slot: nat, x: JobInfo)
    requires Owned(s) && Accounts(s) && Recorded(s) && ScanOk(s) && s.dispatcher == Cas(slot, x)
    ensures x in s.jobs && RecordOk(TryPreempt(s, slot, x), x)
  {
    hide Owned, Accounts;
    var k := Occupant(s, slot, x);
    NotElsewhere(s, k);
    assert RecordOk(s, x);
  }

  lemma CountRecorded(s: State, slot: nat, x: JobInfo)
    requires Owned(s) && Accounts(s) && Recorded(s) && ScanOk(s) && s.dispatcher == CountWin(slot, x)
    ensures x in s.jobs && Recorded(CountPreemption(s, slot, x))
  {
    hide Owned, Accounts, RecordOk;
    var s' := CountPreemption(s, slot, x);
    forall y | y in s'.jobs ensures RecordOk(s', y) {
      if y == x {
        CountedOk(s, slot, x);
      } else {
        UntouchedOk(s, s', y);
      }
    }
  }

  lemma CountedOk(s: State, slot: nat, x: JobInfo)
    requires Owned(s) && Accounts(s) && Recorded(s) && ScanOk(s) && s.dispatcher == CountWin(slot, x)
    ensures x in s.jobs && RecordOk(CountPreemption(s, slot, x), x)
  {
    hide Owned, Accounts;
    var k := Occupant(s, slot, x);
    NotElsewhere(s, k);
    assert RecordOk(s, x);
  }

  /** The dispatcher's next action is always defined, and keeps the records. */
  lemma DispatchIsReady(s: State)
    requires Owned(s) && Accounts(s) && Recorded(s) && ScanOk(s)
    ensures DispatcherReady(s)
  {
  }

  lemma OwnerIsSubmitted(s: State, i: nat)
    requires Owned(s) && i < |s.workers|
    ensures s.workers[i].job in s.jobs
  {
  }

  lemma QueuedAreSubmitted(s: State, l: nat, x: JobInfo)
    requires Owned(s) && l < MLFQ_LEVELS && x in s.queues[l]
    ensures x in s.jobs
  {
  }

  lemma ScanQuiet(s: State, sweep: bool, hint: int)
    requires DispatcherReady(s)
    requires s.dispatcher.Top? || s.dispatcher.Scan? || s.dispatcher.Probe? || s.dispatcher.ProbeTop? || s.dispatcher.Stopped?
    ensures var s' := DoDispatch(s, sweep, hint);
            s'.jobs == s.jobs && !s'.dispatcher.CountWin? && !s'.dispatcher.Hand?
  {
  }

  lemma DispatchRecorded(s: State, sweep: bool, hint: int)
    requires Owned(s) && Accounts(s) && Recorded(s) && ScanOk(s) && DispatcherReady(s)
    ensures Recorded(DoDispatch(s, sweep, hint))
  {
    hide Owned, Accounts, Recorded, ScanOk, SweepLevel, TryPreempt, CountPreemption, PopLevel, Spawn, ScanSlot, ProbeLevel, ProbeHead;
    match s.dispatcher {
      case Sweep(lvl) => SweepRecorded(s, lvl);
      case Cas(slot, x) => PreemptRecorded(s, slot, x);
      case CountWin(slot, x) => CountRecorded(s, slot, x);
      case PopFrom(lvl) =>
        forall x | x in s.queues[lvl] ensures x in s.jobs {
          QueuedAreSubmitted(s, lvl, x);
        }
        PopRecorded(s, lvl);
      case Hand(x) => SpawnRecorded(s, hint);
      case _ =>
        DispatchFrames(s, sweep, hint);
        ScanQuiet(s, sweep, hint);
        QuietStep(s, DoDispatch(s, sweep, hint));
    }
  }

  // ---------------------------------------------------------------- aging and submission

  lemma DrainRecorded(s: State, lvl: nat)
    requires Recorded(s) && s.aging == DrainFrom(lvl) && 1 <= lvl < MLFQ_LEVELS
    ensures Recorded(DrainLevel(s, lvl))
  {
    hide Taken, Kept, AgeFlags, Basic, Between, WorkerOk;
    var s' := DrainLevel(s, lvl);
    var q, flags := s.queues[lvl], AgeFlags(s.jobs, s.queues[lvl]);
    DrainMembers(q, flags);
    forall y | y in s'.jobs ensures RecordOk(s', y) {
      assert RecordOk(s, y);
    }
  }

  lemma DrainMembers(q: seq<JobInfo>, flags: seq<bool>)
    requires |flags| == |q|
    ensures forall y | y in Taken(q, flags, AGED_BUF) :: y in q
    ensures forall y | y in Kept(q, flags, AGED_BUF) :: y in q
  {
    DrainSplits(q, flags, AGED_BUF);
    TakenAreMembers(q, flags, AGED_BUF);
    forall y | y in Kept(q, flags, AGED_BUF) ensures y in q {
      assert y in multiset(Kept(q, flags, AGED_BUF)) && y in multiset(q);
    }
  }

  /** A job in the aging thread's buffer is nowhere else, and only once in the buffer. */
  lemma BufferedNotElsewhere(s: State)
    requires Owned(s) && s.aging.Promote? && s.aging.buf != []
    ensures var x := s.aging.buf[0];
            && x in s.jobs && x !in s.aging.buf[1..] && (forall l | 0 <= l < MLFQ_LEVELS :: x !in s.queues[l])
            && (s.dispatcher.Hand? ==> s.dispatcher.job != x)
            && x !in s.registered && x !in s.counted && x !in s.completed && x !in s.failed && x !in s.abandoned
            && (forall k | 0 <= k < |s.workers| && Owns(s.workers[k].pc) :: s.workers[k].job != x)
  {
    hide Total, Owned;
    var x := s.aging.buf[0];
    CountedOnce(s, x);
    HeadCounts(s.aging.buf, x);
    forall k | 0 <= k < |s.workers| && Owns(s.workers[k].pc) ensures s.workers[k].job != x {
      JobsOfStep(s.workers, k, s.workers[k].(pc := Exited), x);
    }
    forall l | 0 <= l < MLFQ_LEVELS ensures x !in s.queues[l] {
      assert x !in multiset(s.queues[l]);
    }
    assert x !in multiset(s.aging.buf[1..]);
  }

  lemma PromoteRecorded(s: State, lvl: nat, buf: seq<JobInfo>)
    requires Owned(s) && Recorded(s) && s.aging == Promote(lvl, buf) && 1 <= lvl < MLFQ_LEVELS
    requires buf != [] && buf[0] in s.jobs
    ensures Recorded(PromoteHead(s, lvl, buf))
  {
    hide Owned, Insert, WorkerOk;
    var x, s' := buf[0], PromoteHead(s, lvl, buf);
    BufferedNotElsewhere(s);
    forall y | y in s'.jobs ensures RecordOk(s', y) {
      InsertMembers(s.queues[lvl - 1], x, y);
      assert RecordOk(s, y);
    }
  }

  ghost predicate AgingOk(s: State) {
    match s.aging
    case DrainFrom(lvl) => 1 <= lvl < MLFQ_LEVELS
    case Promote(lvl, _) => 1 <= lvl < MLFQ_LEVELS
    case _ => true
  }

  lemma AgingIsReady(s: State)
    requires Owned(s) && AgingOk(s)
    ensures AgingReady(s)
  {
    hide Owned;
    if s.aging.Promote? && s.aging.buf != [] {
      BufferedNotElsewhere(s);
    }
  }

  lemma AgeRecorded(s: State)
    requires Owned(s) && Recorded(s) && AgingReady(s)
    ensures Recorded(DoAge(s))
  {
    hide Owned, Recorded, DrainLevel, PromoteHead;
    if s.aging.DrainFrom? {
      DrainRecorded(s, s.aging.lvl);
    } else if s.aging.Promote? && s.aging.buf != [] {
      PromoteRecorded(s, s.aging.lvl, s.aging.buf);
    } else if s.aging.Promote? {
      EmptyBuffer(s, DoAge(s));
    } else {
      QuietStep(s, DoAge(s));
    }
  }

  lemma EmptyBuffer(s: State, s': State)
    requires Recorded(s) && s.aging.Promote? && s.aging.buf == [] && s' == s.(aging := s'.aging) && !s'.aging.Promote?
    ensures Recorded(s')
  {
  }

  /** A job still with its submitter is nowhere else. */
  lemma SubmittedNotElsewhere(s: State, x: JobInfo)
    requires Owned(s) && x in s.counted
    ensures && x in s.jobs && (forall l | 0 <= l < MLFQ_LEVELS :: x !in s.queues[l])
            && (s.dispatcher.Hand? ==> s.dispatcher.job != x) && x !in BufferOf(s.aging)
            && x !in s.registered && x !in s.completed && x !in s.failed && x !in s.abandoned
            && (forall k | 0 <= k < |s.workers| && Owns(s.workers[k].pc) :: s.workers[k].job != x)
  {
    hide Total, Owned;
    CountedOnce(s, x);
    forall k | 0 <= k < |s.workers| && Owns(s.workers[k].pc) ensures s.workers[k].job != x {
      JobsOfStep(s.workers, k, s.workers[k].(pc := Exited), x);
    }
    forall l | 0 <= l < MLFQ_LEVELS ensures x !in s.queues[l] {
      assert x !in multiset(s.queues[l]);
    }
    assert x !in multiset(BufferOf(s.aging));
  }

  /** A job not yet handed in is nowhere. */
  lemma NowhereYet(s: State, x: JobInfo)
    requires Owned(s) && x !in s.jobs
    ensures && (forall l | 0 <= l < MLFQ_LEVELS :: x !in s.queues[l])
            && (s.dispatcher.Hand? ==> s.dispatcher.job != x) && x !in BufferOf(s.aging)
            && x !in s.completed && x !in s.failed && x !in s.abandoned
            && (forall k | 0 <= k < |s.workers| :: s.workers[k].job != x)
  {
  }

  lemma SubmittedOk(s: State, step: Step)
    requires Owned(s) && Recorded(s) && Enabled(s, step) && (step.Register? || step.PushNew?)
    ensures step.x in Apply(s, step).jobs && RecordOk(Apply(s, step), step.x)
  {
    hide Owned, Insert;
    if step.Register? {
      NowhereYet(s, step.x);
    } else {
      SubmittedNotElsewhere(s, step.x);
      InsertMembers(s.queues[0], step.x, step.x);
      assert RecordOk(s, step.x);
    }
  }

  lemma SubmitRecorded(s: State, step: Step)
    requires Owned(s) && Recorded(s) && Enabled(s, step)
    requires step.Register? || step.Count? || step.PushNew? || step.Stop?
    ensures Recorded(Apply(s, step))
  {
    hide Owned, Insert, WorkerOk;
    var s' := Apply(s, step);
    hide RecordOk;
    forall y | y in s'.jobs ensures RecordOk(s', y) {
      if (step.Register? || step.PushNew?) && y == step.x {
        SubmittedOk(s, step);
      } else {
        if step.PushNew? {
          InsertMembers(s.queues[0], step.x, y);
        }
        UntouchedOk(s, s', y);
      }
    }
  }
}
