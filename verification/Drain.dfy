/**
 The drain as heap code: the dispatcher's loop without new submissions, with one worker at a time,
 over the linked lists. It refines the machine on values: the lists, the job fields and the budgets
 after every round are what one cycle of the machine says.
 */
module Drain {
  import opened Jobs
  import opened RunPlan
  import opened StableQueue
  import opened MlfqSpec
  import opened LevelQueue
  import opened JobQueue
  import opened Protocol
  import opened Slices
  import Budgets = ResourceManager
  import Core = Scheduler

  function Infos(js: seq<Job>): (r: seq<JobInfo>)
    ensures |r| == |js|
    ensures forall i | 0 <= i < |js| :: r[i] == js[i].info
  {
    seq(|js|, i requires 0 <= i < |js| => js[i].info)
  }

  function InfoLists(qs: Queues<Job>): (r: Queues<JobInfo>)
    ensures forall l | 0 <= l < MLFQ_LEVELS :: r[l] == Infos(qs[l])
  {
    var r := [Infos(qs[0]), Infos(qs[1]), Infos(qs[2])];
    assert |r| == MLFQ_LEVELS;
    r
  }

  lemma {:induction false} InsertAtInfos(js: seq<Job>, j: Job)
    ensures InsertAt(JobKey, js, j) == InsertAt(InfoKey, Infos(js), j.info)
  {
    if js != [] {
      InsertAtInfos(js[1..], j);
      assert Infos(js)[1..] == Infos(js[1..]);
    }
  }

  lemma InsertInfos(js: seq<Job>, j: Job)
    ensures Infos(Insert(JobKey, js, j)) == Insert(InfoKey, Infos(js), j.info)
  {
    InsertAtInfos(js, j);
    hide InsertAt;
    var p := InsertAt(JobKey, js, j);
    assert Infos(js[..p]) == Infos(js)[..p] && Infos(js[p..]) == Infos(js)[p..];
  }

  lemma PoppedInfos(qs: Queues<Job>)
    ensures Front(InfoLists(qs)) == Front(qs)
    ensures InfoLists(Popped(qs)) == Popped(InfoLists(qs))
  {
    var l := Front(qs);
    assert forall k | 0 <= k < MLFQ_LEVELS :: qs[k] == [] <==> Infos(qs[k]) == [];
    if l < MLFQ_LEVELS {
      assert Infos(qs[l][1..]) == Infos(qs[l])[1..];
    }
  }

  lemma InsertedInfos(qs: Queues<Job>, l: nat, j: Job)
    requires l < MLFQ_LEVELS
    ensures InfoLists(qs[l := Insert(JobKey, qs[l], j)]) == InfoLists(qs)[l := Insert(InfoKey, InfoLists(qs)[l], j.info)]
  {
    hide Insert;
    InsertInfos(qs[l], j);
  }

  predicate QueuedIn(qs: Queues<JobInfo>, x: JobInfo) {
    x in qs[0] || x in qs[1] || x in qs[2]
  }

  predicate FieldsMatch(x: JobInfo, status: Status, elapsed: int, level: int, slice: int, m: Machine) {
    && (QueuedIn(m.qs, x) ==>
          x in m.book && elapsed == m.book[x].elapsed && level == m.book[x].level && slice == 0)
    && (x in m.done ==> x in m.book && status == Completed && elapsed == m.book[x].elapsed)
    && (x in m.failed ==> status == Failed)
  }

  /** The fields of a job are what the machine records for it. */
  ghost predicate Agrees(j: Job, m: Machine)
    reads j
  {
    FieldsMatch(j.info, j.status, j.elapsedTicks, j.mlfqLevel, j.ticksThisSlice, m)
  }

  /** The queue holds jobs of the set only, in the machine's order, and no two jobs are alike. */
  ghost predicate Tracks(q: MLFQJobQueue, m: Machine, all: set<Job>)
    reads q.levels, if |q.levels| == MLFQ_LEVELS then q.Nodes() else {}, all
  {
    && q.Valid() && InfoLists(q.Lists()) == m.qs
    && (forall l, j | 0 <= l < MLFQ_LEVELS && j in q.Lists()[l] :: j in all)
    && (forall j, k | j in all && k in all && j != k :: j.info != k.info)
    && (forall j | j in all :: Agrees(j, m))
  }

  ghost predicate BudgetsIdle(r: Budgets.ResourceManager)
    reads r
  {
    r.permits == MAX_CONCURRENT && r.usedCpu == 0 && r.usedMemory == 0 && r.activeJobs == 0
  }

  /** No worker has a slot: the table is empty and no slot is shown as busy. */
  ghost predicate NoWorker(s: Core.Scheduler, r: Budgets.ResourceManager)
    reads s.activeJobs, r.busy
  {
    && s.activeJobs.Length == MAX_CONCURRENT && r.busy.Length == MAX_CONCURRENT
    && forall k | 0 <= k < MAX_CONCURRENT :: s.activeJobs[k] == null && !r.busy[k]
  }

  /** The job has this slot, and no other job has any. */
  ghost predicate OneWorker(s: Core.Scheduler, r: Budgets.ResourceManager, job: Job, slot: nat)
    reads s.activeJobs, r.busy
  {
    && s.activeJobs.Length == MAX_CONCURRENT && r.busy.Length == MAX_CONCURRENT && slot < MAX_CONCURRENT
    && forall k | 0 <= k < MAX_CONCURRENT ::
         s.activeJobs[k] == (if k == slot then job else null) && r.busy[k] == (k == slot)
  }

  function Head(m: Machine): JobInfo
    requires Front(m.qs) < MLFQ_LEVELS
  {
    m.qs[Front(m.qs)][0]
  }

  lemma PoppedQueued(qs: Queues<JobInfo>, y: JobInfo)
    ensures QueuedIn(Popped(qs), y) ==> QueuedIn(qs, y)
  {
  }

  lemma InsertedQueued(qs: Queues<JobInfo>, l: nat, x: JobInfo, y: JobInfo)
    requires l < MLFQ_LEVELS && QueuedIn(qs[l := Insert(InfoKey, qs[l], x)], y)
    ensures QueuedIn(qs, y) || y == x
  {
    hide Insert;
    if y in Insert(InfoKey, qs[l], x) {
      assert y in multiset(Insert(InfoKey, qs[l], x));
    }
  }

  /** A cycle concerns no job but the head. */
  lemma CycleOthers(m: Machine, y: JobInfo)
    requires HeadKnown(m) && y != Head(m)
    ensures var m' := Cycle(m);
            && (QueuedIn(m'.qs, y) ==> QueuedIn(m.qs, y))
            && (y in m.book <==> y in m'.book) && (y in m.book ==> m'.book[y] == m.book[y])
            && (y in m'.done <==> y in m.done) && (y in m'.failed <==> y in m.failed)
  {
    hide Insert, Popped, AfterRun, QueuedIn;
    var x := Head(m);
    var p := AfterRun(x, m.book[x]);
    AfterRunLevel(x, m.book[x]);
    PoppedQueued(m.qs, y);
    if QueuedIn(Popped(m.qs)[p.level := Insert(InfoKey, Popped(m.qs)[p.level], x)], y) {
      InsertedQueued(Popped(m.qs), p.level, x, y);
    }
  }

  lemma AfterRunLevel(x: JobInfo, p: Progress)
    requires p.level < MLFQ_LEVELS
    ensures AfterRun(x, p).level < MLFQ_LEVELS
  {
  }

  /** Where a cycle leaves the head. */
  lemma CycleHead(m: Machine, start: Book, ids: set<JobInfo>)
    requires MachineOk(m, start, ids) && Front(m.qs) < MLFQ_LEVELS
    ensures HeadKnown(m) && !QueuedIn(Popped(m.qs), Head(m)) && Head(m) !in m.done && Head(m) !in m.failed
    ensures m.book[Head(m)].elapsed <= Demand(Head(m).burst)
  {
    hide Popped, MachineOk;
    HeadQueuedOnce(m, start, ids);
  }

  lemma OthersAgree(m: Machine, j: Job)
    requires HeadKnown(m) && j.info != Head(m) && Agrees(j, m)
    ensures Agrees(j, Cycle(m))
  {
    hide Cycle, QueuedIn;
    CycleOthers(m, j.info);
  }

  /** The popped job is the machine's head. */
  lemma PoppedIsHead(qs: Queues<Job>, m: Machine, all: set<Job>)
    requires InfoLists(qs) == m.qs && Front(qs) < MLFQ_LEVELS
    ensures Front(m.qs) == Front(qs) && qs[Front(qs)][0].info == Head(m)
    ensures InfoLists(Popped(qs)) == Popped(m.qs)
  {
    PoppedInfos(qs);
  }

  /** What one whole run means for the machine. */
  lemma RunIsCycle(m: Machine, x: JobInfo, level: int, elapsed: int, hitAt: nat, downAt: nat)
    requires HeadKnown(m) && x == Head(m) && Feasible(x)
    requires level == m.book[x].level && elapsed == m.book[x].elapsed
    requires hitAt > Quantum(level) && downAt > Quantum(level)
    ensures var t, p := Core.TicksOfRun(x.burst, elapsed, level, 0, hitAt, downAt), AfterRun(x, m.book[x]);
            && t < hitAt && t < downAt && p.elapsed == elapsed + t
            && (elapsed + t >= x.burst ==>
                  p.level == level && Cycle(m) == m.(qs := Popped(m.qs), book := m.book[x := p], done := m.done + {x}))
            && (elapsed + t < x.burst ==>
                  && p.level == LevelAfter(level, QuantumExpired(level, t)) && p.level < MLFQ_LEVELS
                  && Cycle(m) == m.(qs := Popped(m.qs)[p.level := Insert(InfoKey, Popped(m.qs)[p.level], x)],
                                    book := m.book[x := p]))
  {
    hide Insert, Popped, AfterRun, Core.TicksOfRun;
    Core.UndisturbedRun(x, m.book[x], hitAt, downAt);
    AfterRunLevel(x, m.book[x]);
  }

  lemma DenialIsCycle(m: Machine)
    requires HeadKnown(m) && !Feasible(Head(m))
    ensures Cycle(m) == m.(qs := Popped(m.qs), failed := m.failed + {Head(m)})
  {
  }

  lemma FailedAgrees(j: Job, m: Machine)
    requires HeadKnown(m) && j.info == Head(m) && !QueuedIn(Popped(m.qs), j.info) && j.info !in m.done
    requires !Feasible(j.info) && j.status == Failed
    ensures Agrees(j, Cycle(m))
  {
    hide QueuedIn, Popped;
    DenialIsCycle(m);
  }

  lemma DoneAgrees(j: Job, m: Machine)
    requires HeadKnown(m) && j.info == Head(m) && !QueuedIn(Popped(m.qs), j.info) && j.info !in m.failed
    requires Feasible(j.info) && j.status == Completed
    requires j.elapsedTicks == AfterRun(j.info, m.book[j.info]).elapsed >= j.info.burst
    ensures Agrees(j, Cycle(m))
  {
    hide QueuedIn, Popped, AfterRun;
  }

  lemma BackAgrees(j: Job, m: Machine)
    requires HeadKnown(m) && j.info == Head(m) && j.info !in m.done && j.info !in m.failed
    requires Feasible(j.info) && j.ticksThisSlice == 0
    requires j.elapsedTicks == AfterRun(j.info, m.book[j.info]).elapsed < j.info.burst
    requires j.mlfqLevel == AfterRun(j.info, m.book[j.info]).level
    ensures Agrees(j, Cycle(m))
  {
    hide QueuedIn, Popped, AfterRun, Insert;
    AfterRunLevel(j.info, m.book[j.info]);
  }

  /** The worker holds the budgets, and no other worker does. */
  ghost predicate BudgetsTaken(r: Budgets.ResourceManager, x: JobInfo)
    reads r
  {
    r.permits == MAX_CONCURRENT - 1 && r.usedCpu == x.cpu && r.usedMemory == x.memory && r.activeJobs == 1
  }

  /** The job after the tick loop: its ticks are those of the progress function, and the flag and the
      used-up quantum say whether it is finished. */
  ghost predicate AfterLoop(job: Job, wasPreempted: bool, m: Machine)
    reads job
    requires HeadKnown(m)
  {
    var x, p := job.info, AfterRun(Head(m), m.book[Head(m)]);
    && x == Head(m) && Feasible(x) && x !in m.done && x !in m.failed && !QueuedIn(Popped(m.qs), x)
    && job.mlfqLevel == m.book[x].level && job.elapsedTicks == p.elapsed
    && wasPreempted == (p.elapsed < x.burst)
    && (wasPreempted ==> p.level == LevelAfter(job.mlfqLevel, job.Expired()))
  }

  /** The worker finds itself a slot, starting from the one that the dispatcher saw, and enters its job. */
  method TakeSlot(s: Core.Scheduler, resources: Budgets.ResourceManager, job: Job, seen: int) returns (slot: nat)
    requires s.Built() && NoWorker(s, resources) && seen < MAX_CONCURRENT
    modifies s.activeJobs, resources.busy
    ensures s.Built() && OneWorker(s, resources, job, slot)
  {
    var start := seen;
    if start < 0 {
      start := resources.GetFreeWorkerSlot();
      if start < 0 {
        start := 0;
      }
    }
    slot := s.Claim(job, start);
    resources.SetWorkerBusy(slot, true);
  }

  method LeaveSlot(s: Core.Scheduler, resources: Budgets.ResourceManager, job: Job, slot: nat)
    requires OneWorker(s, resources, job, slot)
    modifies s.activeJobs, resources.busy
    ensures NoWorker(s, resources)
  {
    s.activeJobs[slot] := null;
    resources.SetWorkerBusy(slot, false);
  }

  /** The run of a worker that was granted the budgets, up to their release. */
  method RunGranted(s: Core.Scheduler, resources: Budgets.ResourceManager, job: Job, seen: int, ghost m: Machine)
    returns (wasPreempted: bool)
    requires s.Built() && BudgetsTaken(resources, job.info) && NoWorker(s, resources) && seen < MAX_CONCURRENT
    requires HeadKnown(m) && job.info == Head(m) && Feasible(job.info) && !QueuedIn(Popped(m.qs), job.info)
    requires job.info !in m.done && job.info !in m.failed
    requires job.elapsedTicks == m.book[Head(m)].elapsed && job.mlfqLevel == m.book[Head(m)].level
    requires job.ticksThisSlice == 0
    modifies s`totalPreemptions, s.activeJobs, resources, resources.busy, job
    ensures BudgetsIdle(resources) && NoWorker(s, resources) && AfterLoop(job, wasPreempted, m)
  {
    hide Insert, Popped, AfterRun, Cycle, QueuedIn, Core.TicksOfRun, OneWorker, NoWorker;
    var enough := Quantum(job.mlfqLevel) + 1;
    RunIsCycle(m, job.info, job.mlfqLevel, job.elapsedTicks, enough, enough);
    var slot := TakeSlot(s, resources, job, seen);
    job.status := Running;
    wasPreempted := s.RunSlice(job, enough, enough);
    LeaveSlot(s, resources, job, slot);
    resources.Release(job.info.cpu, job.info.memory);
  }

  lemma LoopIsCycle(job: Job, wasPreempted: bool, m: Machine)
    requires HeadKnown(m) && AfterLoop(job, wasPreempted, m)
    ensures 0 <= job.mlfqLevel < MLFQ_LEVELS && wasPreempted == (job.elapsedTicks < job.info.burst)
    ensures !wasPreempted ==> Cycle(m).qs == Popped(m.qs)
    ensures var l := LevelAfter(job.mlfqLevel, job.Expired());
            wasPreempted ==>
              && 0 <= l < MLFQ_LEVELS && l == AfterRun(job.info, m.book[job.info]).level
              && Cycle(m).qs == Popped(m.qs)[l := Insert(InfoKey, Popped(m.qs)[l], job.info)]
  {
    hide Insert, Popped, AfterRun, QueuedIn;
    AfterRunLevel(job.info, m.book[job.info]);
  }

  /** The end of that run. */
  method LeaveGranted(s: Core.Scheduler, job: Job, wasPreempted: bool, ghost m: Machine)
    requires s.queue.Valid() && HeadKnown(m) && AfterLoop(job, wasPreempted, m)
    requires InfoLists(s.queue.Lists()) == Popped(m.qs)
    modifies s.queue.levels, s.queue.Nodes(), job
    ensures s.queue.Valid() && (forall n | n in s.queue.Nodes() :: n in old(s.queue.Nodes()) || fresh(n))
    ensures InfoLists(s.queue.Lists()) == Cycle(m).qs && Agrees(job, Cycle(m))
    ensures forall l, j | 0 <= l < MLFQ_LEVELS && j in s.queue.Lists()[l] :: j in old(s.queue.Lists())[l] || j == job
  {
    hide Insert, Popped, AfterRun, Cycle, Agrees, QueuedIn, Infos, InfoLists, SingleLevelQueue.Valid;
    ghost var qs := s.queue.Lists();
    LoopIsCycle(job, wasPreempted, m);
    s.Finish(job, wasPreempted);
    if wasPreempted {
      InsertedInfos(qs, job.mlfqLevel, job);
      InsertedMembers(qs[job.mlfqLevel], job);
      BackAgrees(job, m);
    } else {
      DoneAgrees(job, m);
    }
  }

  /** The worker of the popped job, alone on the machine. */
  method Serve(s: Core.Scheduler, resources: Budgets.ResourceManager, job: Job, seen: int, ghost m: Machine)
    requires s.Built() && s.queue.Valid() && BudgetsIdle(resources) && NoWorker(s, resources) && seen < MAX_CONCURRENT
    requires HeadKnown(m) && job.info == Head(m)
    requires InfoLists(s.queue.Lists()) == Popped(m.qs) && !QueuedIn(Popped(m.qs), job.info)
    requires job.info !in m.done && job.info !in m.failed
    requires job.elapsedTicks == m.book[Head(m)].elapsed && job.mlfqLevel == m.book[Head(m)].level
    requires job.ticksThisSlice == 0
    modifies s`totalPreemptions, s.activeJobs, s.queue.levels, s.queue.Nodes(), resources, resources.busy, job
    ensures s.queue.Valid() && (forall n | n in s.queue.Nodes() :: n in old(s.queue.Nodes()) || fresh(n))
    ensures BudgetsIdle(resources) && NoWorker(s, resources)
    ensures InfoLists(s.queue.Lists()) == Cycle(m).qs && Agrees(job, Cycle(m))
    ensures forall l, j | 0 <= l < MLFQ_LEVELS && j in s.queue.Lists()[l] :: j in old(s.queue.Lists())[l] || j == job
  {
    hide Popped, AfterRun, Cycle, Agrees, QueuedIn, SingleLevelQueue.Valid, NoWorker;
    var ok := resources.Acquire(job.info.cpu, job.info.memory);
    if ok {
      var wasPreempted := RunGranted(s, resources, job, seen, m);
      LeaveGranted(s, job, wasPreempted, m);
    } else {
      DenialIsCycle(m);
      job.status := Failed;
      FailedAgrees(job, m);
    }
  }

  lemma InsertedMembers(js: seq<Job>, j: Job)
    ensures forall k | k in Insert(JobKey, js, j) :: k in js || k == j
  {
    forall k | k in Insert(JobKey, js, j) ensures k in js || k == j {
      assert k in multiset(Insert(JobKey, js, j));
    }
  }

  lemma TracksQueue(q: MLFQJobQueue, m: Machine, all: set<Job>)
    requires Tracks(q, m, all)
    ensures q.Valid() && InfoLists(q.Lists()) == m.qs
    ensures forall l, j | 0 <= l < MLFQ_LEVELS && j in q.Lists()[l] :: j in all
    ensures forall j | j in all :: Agrees(j, m)
    ensures forall j, k | j in all && k in all && j != k :: j.info != k.info
  {
  }

  lemma HeadIsQueued(m: Machine)
    requires Front(m.qs) < MLFQ_LEVELS
    ensures QueuedIn(m.qs, Head(m))
  {
  }

  /** The sweep of every fourth cycle: every queued job waits one tick longer. */
  method TickIfDue(q: MLFQJobQueue, cycle: nat)
    requires q.Valid()
    modifies (set j | j in Flat(q.Lists()))`waitTicks, (set j | j in Flat(q.Lists()))`agingTicks
    ensures q.Valid()
    ensures forall j | j in Flat(q.Lists()) ::
              && j.waitTicks == old(j.waitTicks) + (if cycle % 4 == 0 then multiset(Flat(q.Lists()))[j] else 0)
              && j.agingTicks == old(j.agingTicks) + (if cycle % 4 == 0 then multiset(Flat(q.Lists()))[j] else 0)
  {
    hide MLFQJobQueue.Valid, Flat;
    q.LevelsBuilt();
    if cycle % 4 == 0 {
      q.TickWaiting();
    }
  }

  /** It changes nothing that the machine records. */
  method SweepIfDue(q: MLFQJobQueue, cycle: nat, ghost m: Machine, ghost all: set<Job>)
    requires Tracks(q, m, all)
    modifies all`waitTicks, all`agingTicks
    ensures Tracks(q, m, all)
  {
    hide SingleLevelQueue.Valid, MLFQJobQueue.Valid, InfoLists, FieldsMatch, Flat;
    q.LevelsBuilt();
    InAll(q.Lists(), all);
    TickIfDue(q, cycle);
  }

  lemma InAll(qs: Queues<Job>, all: set<Job>)
    requires forall l, j | 0 <= l < MLFQ_LEVELS && j in qs[l] :: j in all
    ensures forall j | j in Flat(qs) :: j in all
  {
  }

  /** Between two runs the scan finds an empty table. */
  method Look(s: Core.Scheduler, resources: Budgets.ResourceManager)
    requires s.Built() && s.queue.Valid() && NoWorker(s, resources)
    modifies s`totalPreemptions
    ensures s.Built() && s.totalPreemptions == old(s.totalPreemptions)
  {
    hide SingleLevelQueue.Valid, MLFQJobQueue.Valid;
    s.queue.LevelsBuilt();
    NoHits(s.Views());
    s.CheckPreemptions();
  }

  lemma {:induction false} NoHits(views: seq<Core.View>, n: nat := |views|)
    requires n <= |views| && forall k | 0 <= k < |views| :: !views[k].hit
    ensures Core.HitsIn(views, n) == 0
  {
    if n > 0 {
      NoHits(views, n - 1);
    }
  }

  /** What the pop hands to the dispatcher is the head that the machine knows. */
  ghost predicate Handed(q: MLFQJobQueue, job: Job, m: Machine, all: set<Job>)
    reads q.levels, if |q.levels| == MLFQ_LEVELS then q.Nodes() else {}, all, job
  {
    && job in all && HeadKnown(m) && job.info == Head(m)
    && q.Valid() && InfoLists(q.Lists()) == Popped(m.qs) && !QueuedIn(Popped(m.qs), job.info)
    && job.info !in m.done && job.info !in m.failed
    && job.elapsedTicks == m.book[Head(m)].elapsed && job.mlfqLevel == m.book[Head(m)].level
    && job.ticksThisSlice == 0
    && (forall l, j | 0 <= l < MLFQ_LEVELS && j in q.Lists()[l] :: j in all)
  }

  method PopHead(q: MLFQJobQueue, ghost m: Machine, ghost start: Book, ghost ids: set<JobInfo>, ghost all: set<Job>)
    returns (job: Job?)
    requires Tracks(q, m, all) && MachineOk(m, start, ids)
    modifies q.levels
    ensures q.Valid() && q.Nodes() == old(q.Nodes())
    ensures job == null <==> Front(m.qs) == MLFQ_LEVELS
    ensures if job == null then Tracks(q, m, all) else Front(m.qs) < MLFQ_LEVELS && Handed(q, job, m, all)
  {
    hide Popped, Front, Agrees, MachineOk, QueuedIn, SingleLevelQueue.Valid, MLFQJobQueue.Valid;
    TracksQueue(q, m, all);
    ghost var qs := q.Lists();
    PoppedInfos(qs);
    PoppedMembers(qs);
    job := q.TryPop();
    if job == null {
      NothingPopped(qs);
    } else {
      PoppedIsHead(qs, m, all);
      CycleHead(m, start, ids);
      HeadIsQueued(m);
      HeadAgrees(job, m);
    }
  }

  lemma HandedHead(q: MLFQJobQueue, job: Job, m: Machine, all: set<Job>)
    requires Handed(q, job, m, all)
    ensures job in all && HeadKnown(m)
  {
  }

  /** The worker of the job that the pop handed over. */
  method WorkOn(s: Core.Scheduler, resources: Budgets.ResourceManager, job: Job, ghost m: Machine, ghost all: set<Job>)
    requires s.Built() && BudgetsIdle(resources) && NoWorker(s, resources) && Handed(s.queue, job, m, all)
    requires forall j | j in all :: Agrees(j, m)
    requires forall j, k | j in all && k in all && j != k :: j.info != k.info
    modifies s`totalPreemptions, s.activeJobs, s.queue.levels, s.queue.Nodes(), resources, resources.busy, job
    ensures s.Built() && BudgetsIdle(resources) && NoWorker(s, resources) && Tracks(s.queue, Cycle(m), all)
    ensures forall n | n in s.queue.Nodes() :: n in old(s.queue.Nodes()) || fresh(n)
  {
    hide Popped, Front, Cycle, Agrees, QueuedIn, NoWorker, BudgetsIdle, SingleLevelQueue.Valid, MLFQJobQueue.Valid;
    SlotsBuilt(s, resources);
    var seen := resources.GetFreeWorkerSlot();
    Serve(s, resources, job, seen, m);
    forall j | j in all && j != job ensures Agrees(j, Cycle(m)) {
      OthersAgree(m, j);
    }
  }

  lemma SlotsBuilt(s: Core.Scheduler, resources: Budgets.ResourceManager)
    requires NoWorker(s, resources)
    ensures resources.busy.Length == MAX_CONCURRENT
  {
  }

  /** One round of the dispatcher: the sweep of every fourth cycle, the scan, a pop, and the worker of
      the popped job. */
  method Round(s: Core.Scheduler, resources: Budgets.ResourceManager, cycle: nat,
               ghost m: Machine, ghost start: Book, ghost ids: set<JobInfo>, ghost all: set<Job>)
    returns (more: bool, ghost m': Machine)
    requires s.Built() && BudgetsIdle(resources) && NoWorker(s, resources)
    requires Tracks(s.queue, m, all) && MachineOk(m, start, ids)
    modifies s`totalPreemptions, s.activeJobs, s.queue.levels, s.queue.Nodes(), resources, resources.busy, all
    ensures more == (Front(m.qs) < MLFQ_LEVELS) && (more ==> HeadKnown(m))
    ensures m' == if more then Cycle(m) else m
    ensures s.Built() && BudgetsIdle(resources) && NoWorker(s, resources) && Tracks(s.queue, m', all)
    ensures forall n | n in s.queue.Nodes() :: n in old(s.queue.Nodes()) || fresh(n)
  {
    hide Front, Cycle, Agrees, Tracks, Handed, MachineOk, NoWorker, BudgetsIdle, MLFQJobQueue.Valid, SingleLevelQueue.Valid, InfoLists;
    SweepIfDue(s.queue, cycle, m, all);
    TracksQueue(s.queue, m, all);
    Look(s, resources);
    FrontBound(m.qs);
    var job := PopHead(s.queue, m, start, ids, all);
    if job == null {
      return false, m;
    }
    HandedHead(s.queue, job, m, all);
    WorkOn(s, resources, job, m, all);
    return true, Cycle(m);
  }

  lemma PoppedMembers(qs: Queues<Job>)
    ensures forall l, j | 0 <= l < MLFQ_LEVELS && j in Popped(qs)[l] :: j in qs[l]
    ensures Front(qs) < MLFQ_LEVELS ==> qs[Front(qs)] != [] && qs[Front(qs)][0] in qs[Front(qs)]
  {
  }

  lemma NothingPopped(qs: Queues<Job>)
    ensures Front(qs) == MLFQ_LEVELS ==> Popped(qs) == qs
  {
  }

  lemma HeadAgrees(j: Job, m: Machine)
    requires Agrees(j, m) && QueuedIn(m.qs, j.info)
    ensures j.info in m.book && j.elapsedTicks == m.book[j.info].elapsed && j.mlfqLevel == m.book[j.info].level
    ensures j.ticksThisSlice == 0
  {
  }

  /** The dispatcher's loop over the linked lists without new submissions, one worker at a time. It
      ends with an empty queue and idle budgets. Every job that fits the machine is Completed with
      exactly its burst executed, in as many runs as the plan says, which for a fresh job are those of
      the closed form; every other job is Failed. */
  method DrainLists(s: Core.Scheduler, resources: Budgets.ResourceManager, ghost start: Book, ghost all: set<Job>)
    returns (ghost m: Machine)
    requires s.Built() && s.queue.Valid() && BudgetsIdle(resources) && NoWorker(s, resources)
    requires Tracks(s.queue, Machine(InfoLists(s.queue.Lists()), start, {}, {}), all)
    requires MachineOk(Machine(InfoLists(s.queue.Lists()), start, {}, {}), start, set j | j in all :: j.info)
    modifies s`totalPreemptions, s.activeJobs, s.queue.levels, s.queue.Nodes(), resources, resources.busy, all
    ensures s.Built() && s.queue.Valid() && Flat(s.queue.Lists()) == []
    ensures forall n | n in s.queue.Nodes() :: n in old(s.queue.Nodes()) || fresh(n)
    ensures BudgetsIdle(resources) && NoWorker(s, resources)
    ensures forall j | j in all :: j.info in start && j.info in m.book
    ensures forall j | j in all && Feasible(j.info) ::
              && j.status == Completed && j.elapsedTicks == Demand(j.info.burst)
              && m.book[j.info].runs == RunsInAll(j.info, start[j.info])
              && (start[j.info] == Progress(0, 0, 0) ==> m.book[j.info].runs == RunsFor(Demand(j.info.burst)))
    ensures forall j | j in all && !Feasible(j.info) :: j.status == Failed
  {
    hide Cycle, Front, Size, MachineOk, Tracks, Agrees, BudgetsIdle, NoWorker, Feasible, RunsInAll, RunsFor, Demand, MLFQJobQueue.Nodes;
    s.queue.LevelsBuilt();
    ghost var ids := set j | j in all :: j.info;
    m := Machine(InfoLists(s.queue.Lists()), start, {}, {});
    var cycle, more := 0, true;
    while more
      invariant s.Built() && BudgetsIdle(resources) && NoWorker(s, resources)
      invariant Tracks(s.queue, m, all) && MachineOk(m, start, ids)
      invariant forall n | n in s.queue.Nodes() :: n in old(s.queue.Nodes()) || fresh(n)
      invariant !more ==> Front(m.qs) == MLFQ_LEVELS
      decreases more, Size(m.qs, m.book)
    {
      ghost var before := m;
      FrontBound(m.qs);
      cycle := cycle + 1;
      more, m := Round(s, resources, cycle, m, start, ids, all);
      if more {
        CycleShrinks(before, start, ids);
        CycleKeeps(before, start, ids);
      }
    }
    FinalState(s.queue, m, start, all);
  }

  lemma FinalState(q: MLFQJobQueue, m: Machine, start: Book, all: set<Job>)
    requires Tracks(q, m, all) && MachineOk(m, start, set j | j in all :: j.info) && Front(m.qs) == MLFQ_LEVELS
    ensures q.Valid() && Flat(q.Lists()) == []
    ensures forall j | j in all :: j.info in start && j.info in m.book
    ensures forall j | j in all && Feasible(j.info) ::
              && j.status == Completed && j.elapsedTicks == Demand(j.info.burst)
              && m.book[j.info].runs == RunsInAll(j.info, start[j.info])
              && (start[j.info] == Progress(0, 0, 0) ==> m.book[j.info].runs == RunsFor(Demand(j.info.burst)))
    ensures forall j | j in all && !Feasible(j.info) :: j.status == Failed
  {
    hide Tracks, Agrees, MachineOk, Front, Feasible, RunsInAll, RunsFor, Demand, MLFQJobQueue.Valid;
    ghost var ids := set j | j in all :: j.info;
    AllDone(m, start, ids);
    TracksQueue(q, m, all);
    EmptyInfos(q.Lists());
    forall j | j in all
      ensures j.info in start && j.info in m.book
      ensures Feasible(j.info) ==>
                && j.status == Completed && j.elapsedTicks == Demand(j.info.burst)
                && m.book[j.info].runs == RunsInAll(j.info, start[j.info])
                && (start[j.info] == Progress(0, 0, 0) ==> m.book[j.info].runs == RunsFor(Demand(j.info.burst)))
      ensures !Feasible(j.info) ==> j.status == Failed
    {
      assert j.info in ids;
      EndAgrees(j, m);
      FreshRuns(j.info);
    }
  }

  lemma FrontBound(qs: Queues<JobInfo>)
    ensures Front(qs) <= MLFQ_LEVELS
  {
  }

  lemma EmptyInfos(qs: Queues<Job>)
    ensures Flat(InfoLists(qs)) == [] ==> Flat(qs) == []
  {
    assert |Flat(InfoLists(qs))| == |Flat(qs)|;
  }

  lemma EndAgrees(j: Job, m: Machine)
    requires Agrees(j, m)
    ensures j.info in m.done ==> j.info in m.book && j.status == Completed && j.elapsedTicks == m.book[j.info].elapsed
    ensures j.info in m.failed ==> j.status == Failed
  {
  }
}
