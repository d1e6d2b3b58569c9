/**
 What the sweeps and the aging thread do to each single job, in every execution: which jobs a drain
 takes and which it leaves, where a promotion puts a job, and what the two wait counters count.
 */
module Promotion {
  import opened Jobs
  import opened StableQueue
  import opened MlfqSpec
  import opened Protocol
  import opened WorkerTally
  import opened Accounting
  import opened Ownership
  import opened JobRecords
  import opened RunInvariant
  import opened Safety
  import opened Sweeps
  import opened Rounds

  // ---------------------------------------------------------------- drains

  lemma {:induction false} TakenOrFull<T>(s: seq<T>, aged: seq<bool>, cap: nat, i: nat)
    requires |s| == |aged| && i < |s| && aged[i]
    ensures s[i] in Taken(s, aged, cap) || (|Taken(s, aged, cap)| == cap && forall y | y in Taken(s, aged, cap) :: y in s[..i])
  {
    if cap > 0 && i > 0 {
      TakenOrFull(s[1..], aged[1..], if aged[0] then cap - 1 else cap, i - 1);
      assert s[..i] == [s[0]] + s[1..][..i - 1];
    }
  }

  lemma BufferMoves(s: State, step: Step)
    requires Enabled(s, step) && AgingOk(s)
    ensures forall x | x in BufferOf(Apply(s, step).aging) ::
              || x in BufferOf(s.aging)
              || (step == Age && s.aging.DrainFrom? && x in Taken(s.queues[s.aging.lvl], AgeFlags(s.jobs, s.queues[s.aging.lvl]), AGED_BUF))
    ensures step == Age && s.aging.DrainFrom? ==>
              var q := s.queues[s.aging.lvl];
              && Apply(s, step).aging == Promote(s.aging.lvl, Taken(q, AgeFlags(s.jobs, q), AGED_BUF))
              && Apply(s, step).queues[s.aging.lvl] == Kept(q, AgeFlags(s.jobs, q), AGED_BUF)
  {
    hide DoWork, DoDispatch, Taken, Kept, AgeFlags, Insert, StillQueued;
    match step {
      case Work(i, hint) => WorkFrames(s, i, hint);
      case Dispatch(sweep, hint) => DispatchFrames(s, sweep, hint);
      case _ =>
    }
  }

  lemma FlagIs(jobs: map<JobInfo, JobRec>, q: seq<JobInfo>, i: nat)
    requires i < |q|
    ensures AgeFlags(jobs, q)[i] <==> q[i] in jobs && jobs[q[i]].aging >= AGING_THRESHOLD
  {
  }

  /** A job comes into the aging thread's buffer only from the level that is drained, and only at an age
      of 15 or more. */
  lemma DrainTakesOldOnly(b: seq<State>, steps: seq<Step>, k: nat, x: JobInfo)
    requires Execution(b, steps) && k < |steps|
    requires x in BufferOf(b[k + 1].aging) && x !in BufferOf(b[k].aging)
    ensures steps[k] == Age && b[k].aging.DrainFrom? && 1 <= b[k].aging.lvl < MLFQ_LEVELS
    ensures x in b[k].queues[b[k].aging.lvl] && x in b[k].jobs && b[k].jobs[x].aging >= 15
  {
    hide Apply, Enabled, Safe, Taken, AgeFlags;
    ReachableSafe(b, steps, k);
    SafeScan(b[k]);
    BufferMoves(b[k], steps[k]);
    var q := b[k].queues[b[k].aging.lvl];
    DrainOnlyAged(q, AgeFlags(b[k].jobs, q), AGED_BUF, x);
    var i :| 0 <= i < |q| && q[i] == x && AgeFlags(b[k].jobs, q)[i];
    FlagIs(b[k].jobs, q, i);
  }

  /** A drain takes at most 64 jobs; it leaves a job of age 15 or more where it is only when it has
      taken 64, all from places in front of that job. */
  lemma DrainLeavesOnlyBehind(b: seq<State>, steps: seq<Step>, k: nat, i: nat)
    requires Execution(b, steps) && k < |steps| && steps[k] == Age && b[k].aging.DrainFrom? && 1 <= b[k].aging.lvl < MLFQ_LEVELS
    requires i < |b[k].queues[b[k].aging.lvl]|
    requires var x := b[k].queues[b[k].aging.lvl][i];
             x in b[k].jobs && b[k].jobs[x].aging >= 15
    ensures var q, l, out := b[k].queues[b[k].aging.lvl], b[k].aging.lvl, BufferOf(b[k + 1].aging);
            && |out| <= 64
            && ((q[i] in out && q[i] !in b[k + 1].queues[l]) || (|out| == 64 && forall y | y in out :: y in q[..i]))
  {
    hide Apply, Enabled, Safe, Taken, Kept, AgeFlags;
    ReachableSafe(b, steps, k);
    ReachableSafe(b, steps, k + 1);
    SafeScan(b[k]);
    BufferMoves(b[k], steps[k]);
    var q, l := b[k].queues[b[k].aging.lvl], b[k].aging.lvl;
    FlagIs(b[k].jobs, q, i);
    TakenOrFull(q, AgeFlags(b[k].jobs, q), AGED_BUF, i);
    DrainTakesFirstAged(q, AgeFlags(b[k].jobs, q), AGED_BUF);
    if q[i] in b[k + 1].queues[l] {
      NotInBuffer(b[k + 1], l, q[i]);
    }
  }

  lemma NotInBuffer(s: State, l: nat, x: JobInfo)
    requires Safe(s) && l < MLFQ_LEVELS && x in s.queues[l]
    ensures x in s.jobs && x !in BufferOf(s.aging)
    ensures forall m | 0 <= m < MLFQ_LEVELS && m != l :: x !in s.queues[m]
    ensures forall i | 0 <= i < |s.workers| && Owns(s.workers[i].pc) :: s.workers[i].job != x
  {
    hide Owned, Accounts, Recorded;
    QueuedNotElsewhere(s, l, x);
  }

  /** The aging thread pushes what it has drained job by job, in the order of the buffer: each goes one
      level up, with a fresh slice and age 0. */
  lemma PromotesOneLevel(b: seq<State>, steps: seq<Step>, k: nat)
    requires Execution(b, steps) && k < |steps| && steps[k] == Age && b[k].aging.Promote? && b[k].aging.buf != []
    ensures var x, l := b[k].aging.buf[0], b[k].aging.lvl;
            && 1 <= l < MLFQ_LEVELS && x in b[k].jobs && x in b[k + 1].jobs
            && b[k].jobs[x].level == l && b[k + 1].jobs[x].level == l - 1
            && b[k + 1].jobs[x].slice == 0 && b[k + 1].jobs[x].aging == 0
            && b[k + 1].aging == Promote(l, b[k].aging.buf[1..])
            && multiset(b[k + 1].queues[l - 1]) == multiset(b[k].queues[l - 1]) + multiset{x}
  {
    hide Apply, Enabled, Safe;
    ReachableSafe(b, steps, k);
    BufferedLevel(b[k]);
    PromoteIs(b, steps, k);
  }

  lemma BufferedLevel(s: State)
    requires Safe(s) && s.aging.Promote? && s.aging.buf != []
    ensures 1 <= s.aging.lvl < MLFQ_LEVELS && s.aging.buf[0] in s.jobs && s.jobs[s.aging.buf[0]].level == s.aging.lvl
  {
    hide Owned, Accounts;
    BufferedNotElsewhere(s);
    assert RecordOk(s, s.aging.buf[0]);
  }

  lemma PromoteIs(b: seq<State>, steps: seq<Step>, k: nat)
    requires Execution(b, steps) && k < |steps| && steps[k] == Age && b[k].aging.Promote? && b[k].aging.buf != []
    requires 1 <= b[k].aging.lvl < MLFQ_LEVELS && b[k].aging.buf[0] in b[k].jobs
    ensures var x, l := b[k].aging.buf[0], b[k].aging.lvl;
            && x in b[k + 1].jobs && b[k + 1].jobs[x].level == l - 1
            && b[k + 1].jobs[x].slice == 0 && b[k + 1].jobs[x].aging == 0
            && b[k + 1].aging == Promote(l, b[k].aging.buf[1..])
            && multiset(b[k + 1].queues[l - 1]) == multiset(b[k].queues[l - 1]) + multiset{x}
  {
    hide DoWork, DoDispatch, DrainLevel;
  }

  // ---------------------------------------------------------------- what the wait counters count

  predicate InLevels(s: State, x: JobInfo) {
    x in s.queues[0] || x in s.queues[1] || x in s.queues[2]
  }

  /** The dispatcher's sweep takes the lock of a level in which the job is queued. */
  predicate Meets(s: State, step: Step, x: JobInfo) {
    step.Dispatch? && s.dispatcher.Sweep? && s.dispatcher.lvl < MLFQ_LEVELS && x in s.queues[s.dispatcher.lvl]
  }

  function Met(b: seq<State>, steps: seq<Step>, k: nat, x: JobInfo): nat
    requires |b| == |steps| + 1 && k <= |steps|
  {
    if k == 0 then 0 else Met(b, steps, k - 1, x) + One(Meets(b[k - 1], steps[k - 1], x))
  }

  /** The same since the job last came into a level. */
  function MetSinceEntry(b: seq<State>, steps: seq<Step>, k: nat, x: JobInfo): nat
    requires |b| == |steps| + 1 && k <= |steps|
  {
    if k == 0 || (!InLevels(b[k - 1], x) && InLevels(b[k], x)) then 0
    else MetSinceEntry(b, steps, k - 1, x) + One(Meets(b[k - 1], steps[k - 1], x))
  }

  lemma SweepTicks(s: State, step: Step, x: JobInfo)
    requires Enabled(s, step) && Sweeping(s, step) && x in s.jobs
    ensures var s' := Apply(s, step);
            && x in s'.jobs && s'.queues == s.queues
            && s'.jobs[x].wait == s.jobs[x].wait + One(Meets(s, step, x))
            && s'.jobs[x].aging == s.jobs[x].aging + One(Meets(s, step, x))
  {
    hide DoWork, DoAge;
  }

  lemma StepWaits(s: State, step: Step, x: JobInfo)
    requires Enabled(s, step) && x in s.jobs
    ensures x in Apply(s, step).jobs && Apply(s, step).jobs[x].wait == s.jobs[x].wait + One(Meets(s, step, x))
  {
    hide Apply, Enabled;
    if Sweeping(s, step) {
      SweepTicks(s, step, x);
    } else {
      OnlySweepsTick(s, step, x);
    }
  }

  /** wait_ticks counts the sweep actions that found the job in the level whose lock they held. */
  lemma {:induction false} WaitCountsSweeps(b: seq<State>, steps: seq<Step>, k: nat, x: JobInfo)
    requires Execution(b, steps) && k < |b|
    ensures if x in b[k].jobs then b[k].jobs[x].wait == Met(b, steps, k, x) else Met(b, steps, k, x) == 0
  {
    hide Apply, Enabled, Safe, Meets;
    if k > 0 {
      WaitCountsSweeps(b, steps, k - 1, x);
      if x in b[k - 1].jobs {
        StepWaits(b[k - 1], steps[k - 1], x);
      } else {
        ReachableSafe(b, steps, k - 1);
        NewWaits(b[k - 1], steps[k - 1], x);
      }
    }
  }

  lemma NewWaits(s: State, step: Step, x: JobInfo)
    requires Enabled(s, step) && Safe(s) && x !in s.jobs
    ensures !Meets(s, step, x) && !InLevels(s, x)
    ensures x in Apply(s, step).jobs ==> Apply(s, step).jobs[x].wait == 0
  {
    hide DoWork, DoDispatch, DoAge, Accounts, Recorded;
    NowhereYet(s, x);
    match step {
      case Work(i, hint) => WorkFrames(s, i, hint);
      case Dispatch(sweep, hint) => DispatchFrames(s, sweep, hint);
      case Age => AgeFrames(s);
      case _ =>
    }
  }

  /** A job that comes into a level comes at age 0; while it stays, only sweeps change its age. */
  lemma StepAges(s: State, step: Step, x: JobInfo)
    requires Enabled(s, step) && Safe(s) && InLevels(Apply(s, step), x)
    ensures x in Apply(s, step).jobs
    ensures !InLevels(s, x) ==> Apply(s, step).jobs[x].aging == 0
    ensures InLevels(s, x) ==>
              x in s.jobs && Apply(s, step).jobs[x].aging == s.jobs[x].aging + One(Meets(s, step, x))
  {
    hide Apply, Enabled, Safe, InLevels;
    if InLevels(s, x) {
      StayerAges(s, step, x);
    } else {
      EntrantAges(s, step, x);
    }
  }

  lemma StayerAges(s: State, step: Step, x: JobInfo)
    requires Enabled(s, step) && Safe(s) && InLevels(s, x)
    ensures x in s.jobs && x in Apply(s, step).jobs
    ensures Apply(s, step).jobs[x].aging == s.jobs[x].aging + One(Meets(s, step, x))
  {
    hide DoWork, DoDispatch, DoAge, Safe, Meets;
    var l: nat :| l < MLFQ_LEVELS && x in s.queues[l];
    NotInBuffer(s, l, x);
    if Sweeping(s, step) {
      SweepTicks(s, step, x);
    } else {
      NoMeeting(s, step, x);
      match step {
        case Work(i, hint) => WorkLeavesAge(s, i, hint, x);
        case Dispatch(sweep, hint) => DispatchLeavesAge(s, sweep, hint, x);
        case Age => AgeFrames(s);
        case PushNew(y) => WaiterIsNotCounted(s, l, x);
        case _ =>
      }
    }
  }

  lemma NoMeeting(s: State, step: Step, x: JobInfo)
    requires !Sweeping(s, step)
    ensures !Meets(s, step, x)
  {
  }

  lemma WaiterIsNotCounted(s: State, l: nat, x: JobInfo)
    requires Safe(s) && l < MLFQ_LEVELS && x in s.queues[l]
    ensures x !in s.counted
  {
    hide Accounts, Recorded, Total;
    if x in s.counted {
      SubmittedNotElsewhere(s, x);
    }
  }

  lemma WorkLeavesAge(s: State, i: nat, hint: int, x: JobInfo)
    requires Enabled(s, Work(i, hint)) && x in s.jobs && (Owns(s.workers[i].pc) ==> s.workers[i].job != x)
    ensures x in DoWork(s, i, hint).jobs && DoWork(s, i, hint).jobs[x].aging == s.jobs[x].aging
  {
    if Owns(s.workers[i].pc) {
      hide DoWork;
      WorkFrames(s, i, hint);
    } else {
      hide RunStep, CheckBudget, MarkFailed, ReleaseBudget, Decide;
    }
  }

  lemma DispatchLeavesAge(s: State, sweep: bool, hint: int, x: JobInfo)
    requires DispatcherReady(s) && !s.dispatcher.Sweep? && x in s.jobs
    ensures x in DoDispatch(s, sweep, hint).jobs && DoDispatch(s, sweep, hint).jobs[x].aging == s.jobs[x].aging
  {
    hide SweepLevel;
  }

  lemma EntrantAges(s: State, step: Step, x: JobInfo)
    requires Enabled(s, step) && Safe(s) && !InLevels(s, x) && InLevels(Apply(s, step), x)
    ensures x in Apply(s, step).jobs && Apply(s, step).jobs[x].aging == 0
  {
    hide DoWork, DoDispatch, DoAge, Safe, Insert;
    match step {
      case Work(i, hint) => RequeuedIsYoung(s, i, hint, x);
      case Dispatch(sweep, hint) => DispatchAddsNone(s, sweep, hint, x);
      case Age =>
        SafeScan(s);
        PromotedIsYoung(s, x);
      case PushNew(y) => InsertMembers(s.queues[0], y, x);
      case _ =>
    }
  }

  lemma RequeuedIsYoung(s: State, i: nat, hint: int, x: JobInfo)
    requires Enabled(s, Work(i, hint)) && !InLevels(s, x) && InLevels(DoWork(s, i, hint), x)
    ensures x in DoWork(s, i, hint).jobs && DoWork(s, i, hint).jobs[x].aging == 0
  {
    hide DoWork, Decide, InLevels;
    if s.workers[i].pc == Deciding {
      EndIs(s, i, hint);
      DecidedIsYoung(s, i, x);
    } else {
      OnlyDecideQueues(s, i, hint);
      SameLevels(s, DoWork(s, i, hint), x);
    }
  }

  lemma SameLevels(s: State, s': State, x: JobInfo)
    requires s'.queues == s.queues
    ensures InLevels(s', x) == InLevels(s, x)
  {
  }

  lemma DecidedIsYoung(s: State, i: nat, x: JobInfo)
    requires HasWorker(s, i) && 0 <= s.jobs[s.workers[i].job].level < MLFQ_LEVELS
    requires !InLevels(s, x) && InLevels(Decide(s, i), x)
    ensures x in Decide(s, i).jobs && Decide(s, i).jobs[x].aging == 0
  {
    hide Insert;
    InsertMembers(s.queues[Requeued(s.jobs[s.workers[i].job]).level], s.workers[i].job, x);
  }

  lemma DispatchAddsNone(s: State, sweep: bool, hint: int, x: JobInfo)
    requires DispatcherReady(s)
    ensures InLevels(DoDispatch(s, sweep, hint), x) ==> InLevels(s, x)
  {
    hide TickAll, ProbeLevel, ProbeHead, ScanSlot, TryPreempt;
    DispatchFrames(s, sweep, hint);
  }

  lemma PromotedIsYoung(s: State, x: JobInfo)
    requires AgingReady(s) && !InLevels(s, x) && InLevels(DoAge(s), x)
    ensures x in DoAge(s).jobs && DoAge(s).jobs[x].aging == 0
  {
    hide Insert, Taken, Kept, AgeFlags, StillQueued;
    if s.aging.DrainFrom? {
      DrainMembers(s.queues[s.aging.lvl], AgeFlags(s.jobs, s.queues[s.aging.lvl]));
    } else if s.aging.Promote? && s.aging.buf != [] {
      InsertMembers(s.queues[s.aging.lvl - 1], s.aging.buf[0], x);
    }
  }

  /** The age of a queued job counts the sweep actions that met it since it last came into a level, by
      submission, requeue or promotion. */
  lemma {:induction false} AgeCountsSweeps(b: seq<State>, steps: seq<Step>, k: nat, x: JobInfo)
    requires Execution(b, steps) && k < |b| && InLevels(b[k], x)
    ensures x in b[k].jobs && b[k].jobs[x].aging == MetSinceEntry(b, steps, k, x)
  {
    hide Apply, Enabled, Safe, Meets, InLevels;
    if k == 0 {
      EmptyAtFirst(x);
    } else {
      ReachableSafe(b, steps, k - 1);
      StepAges(b[k - 1], steps[k - 1], x);
      if InLevels(b[k - 1], x) {
        AgeCountsSweeps(b, steps, k - 1, x);
      }
    }
  }

  lemma EmptyAtFirst(x: JobInfo)
    ensures !InLevels(Init(), x)
  {
  }
}
