/**
 The drain of a whole queue when no job is submitted and the runs are executed one at a time.
 */
module Slices {
  import opened Jobs
  import opened StableQueue
  import opened MlfqSpec
  import opened Protocol
  import opened WorkerTally
  import opened Ownership
  import opened RunPlan

  /** The ticks of one undisturbed run of a job with this many ticks still to go. */
  function RunTicks(remaining: nat, level: int): (t: nat)
    ensures t <= remaining && t <= Quantum(level)
    ensures t == remaining || t == Quantum(level)
  {
    if remaining <= Quantum(level) then remaining else Quantum(level)
  }

  // ---------------------------------------------------------------- draining a queue

  datatype Progress = Progress(elapsed: nat, level: nat, runs: nat)

  type Book = map<JobInfo, Progress>

  function Left(x: JobInfo, p: Progress): nat {
    RemainingTicks(x.burst, p.elapsed)
  }

  /** Alone on the machine, a job is granted its budget exactly if it fits at all. */
  predicate Feasible(x: JobInfo) {
    Fits(0, 0, x.cpu, x.memory)
  }

  /** After one undisturbed run: the ticks are added, and an unfinished job goes one level down. */
  function AfterRun(x: JobInfo, p: Progress): (p': Progress)
    ensures p.level < MLFQ_LEVELS ==> p'.level < MLFQ_LEVELS
  {
    var t := RunTicks(Left(x, p), p.level);
    Progress(p.elapsed + t, if t < Left(x, p) then LevelAfter(p.level, true) else p.level, p.runs + 1)
  }

  lemma RunUsesUpOne(x: JobInfo, p: Progress)
    requires p.elapsed <= Demand(x.burst) && p.level < MLFQ_LEVELS
    ensures var p' := AfterRun(x, p);
            && p'.elapsed <= Demand(x.burst) && p'.level < MLFQ_LEVELS
            && (p'.elapsed >= x.burst ==> p'.elapsed == Demand(x.burst) && p'.runs == p.runs + Runs(Left(x, p), p.level))
            && (p'.elapsed < x.burst ==>
                  && Left(x, p') < Left(x, p)
                  && p'.runs + Runs(Left(x, p'), p'.level) == p.runs + Runs(Left(x, p), p.level))
  {
  }

  /** The termination measure: ticks still to run, plus the number of queued jobs. */
  function Measure(q: seq<JobInfo>, book: Book): nat {
    if q == [] then 0
    else (if q[0] in book then Left(q[0], book[q[0]]) else 0) + 1 + Measure(q[1..], book)
  }

  lemma {:induction false} MeasureConcat(a: seq<JobInfo>, b: seq<JobInfo>, book: Book)
    ensures Measure(a + b, book) == Measure(a, book) + Measure(b, book)
  {
    if a == [] {
      assert a + b == b;
    } else {
      MeasureConcat(a[1..], b, book);
      assert (a + b)[1..] == a[1..] + b;
    }
  }

  lemma {:induction false} MeasureElsewhere(q: seq<JobInfo>, book: Book, x: JobInfo, p: Progress)
    requires x !in q
    ensures Measure(q, book[x := p]) == Measure(q, book)
  {
    if q != [] {
      MeasureElsewhere(q[1..], book, x, p);
    }
  }

  lemma MeasureOfInsert(q: seq<JobInfo>, book: Book, x: JobInfo)
    requires x in book
    ensures Measure(Insert(InfoKey, q, x), book) == Measure(q, book) + Left(x, book[x]) + 1
  {
    var k := InsertAt(InfoKey, q, x);
    MeasureConcat(q[..k] + [x], q[k..], book);
    MeasureConcat(q[..k], [x], book);
    MeasureConcat(q[..k], q[k..], book);
    assert q == q[..k] + q[k..];
  }

  function Size(qs: Queues<JobInfo>, book: Book): nat {
    Measure(qs[0], book) + Measure(qs[1], book) + Measure(qs[2], book)
  }

  /** The scheduler when runs are executed one at a time. */
  datatype Machine = Machine(qs: Queues<JobInfo>, book: Book, done: set<JobInfo>, failed: set<JobInfo>)

  predicate HeadKnown(m: Machine) {
    && Front(m.qs) < MLFQ_LEVELS
    && var x := m.qs[Front(m.qs)][0];
    x in m.book && m.book[x].level < MLFQ_LEVELS
  }

  /** One cycle of the dispatcher and its one worker: pop, acquire, run, release, complete or requeue. */
  function Cycle(m: Machine): Machine
    requires HeadKnown(m)
  {
    var x := m.qs[Front(m.qs)][0];
    var qs := Popped(m.qs);
    if !Feasible(x) then m.(qs := qs, failed := m.failed + {x})
    else
      var p := AfterRun(x, m.book[x]);
      if p.elapsed >= x.burst then m.(qs := qs, book := m.book[x := p], done := m.done + {x})
      else m.(qs := qs[p.level := Insert(InfoKey, qs[p.level], x)], book := m.book[x := p])
  }

  /** The runs that a job will have had when it completes. */
  function RunsInAll(x: JobInfo, p: Progress): nat {
    p.runs + Runs(Left(x, p), p.level)
  }

  /** `all` are the jobs queued at the start, `start` their progress then. */
  ghost predicate JobOk(m: Machine, start: Book, all: set<JobInfo>, x: JobInfo) {
    && InQueues(m.qs, x) + One(x in m.done) + One(x in m.failed) == One(x in all)
    && (x in all ==> x in start && x in m.book)
    && (forall l | 0 <= l < MLFQ_LEVELS && x in m.qs[l] ::
          && x in m.book && x in start && m.book[x].level == l && m.book[x].elapsed <= Demand(x.burst)
          && RunsInAll(x, m.book[x]) == RunsInAll(x, start[x]))
    && (x in m.done ==>
          && x in m.book && x in start && Feasible(x)
          && m.book[x].elapsed == Demand(x.burst) && m.book[x].runs == RunsInAll(x, start[x]))
    && (x in m.failed ==> !Feasible(x))
  }

  ghost predicate MachineOk(m: Machine, start: Book, all: set<JobInfo>) {
    forall x: JobInfo :: JobOk(m, start, all, x)
  }

  /** For a job that starts fresh these are the runs of the closed form. */
  lemma FreshRuns(x: JobInfo)
    ensures RunsInAll(x, Progress(0, 0, 0)) == RunsFor(Demand(x.burst))
  {
    ClosedForm(Demand(x.burst));
  }

  lemma QueuedOnce(m: Machine, start: Book, all: set<JobInfo>, l: nat, x: JobInfo)
    requires JobOk(m, start, all, x) && l < MLFQ_LEVELS && x in m.qs[l]
    ensures x in all && x !in m.done && x !in m.failed && multiset(m.qs[l])[x] == 1
    ensures forall k | 0 <= k < MLFQ_LEVELS && k != l :: x !in m.qs[k]
  {
  }

  lemma HeadQueuedOnce(m: Machine, start: Book, all: set<JobInfo>)
    requires MachineOk(m, start, all) && Front(m.qs) < MLFQ_LEVELS
    ensures var x := m.qs[Front(m.qs)][0];
            && x in m.book && x in start && x in all && x !in m.done && x !in m.failed
            && (forall k | 0 <= k < MLFQ_LEVELS :: x !in Popped(m.qs)[k])
            && m.book[x].level == Front(m.qs) && m.book[x].elapsed <= Demand(x.burst)
            && RunsInAll(x, m.book[x]) == RunsInAll(x, start[x])
  {
    var l := Front(m.qs);
    var x := m.qs[l][0];
    assert JobOk(m, start, all, x);
    QueuedOnce(m, start, all, l, x);
    HeadCounts(m.qs[l], x);
    assert x !in multiset(m.qs[l][1..]);
  }

  lemma CycleKeepsJob(m: Machine, start: Book, all: set<JobInfo>, y: JobInfo)
    requires MachineOk(m, start, all) && HeadKnown(m)
    ensures JobOk(Cycle(m), start, all, y)
  {
    hide Insert, InQueues, Popped, Runs, Front, MachineOk;
    HeadQueuedOnce(m, start, all);
    var x := m.qs[Front(m.qs)][0];
    var p := AfterRun(x, m.book[x]);
    RunUsesUpOne(x, m.book[x]);
    hide AfterRun;
    assert JobOk(m, start, all, y) by {
      MachineJob(m, start, all, y);
    }
    PopCounts(m.qs, y);
    InsertCounts(Popped(m.qs), p.level, x, y);
  }

  lemma MachineJob(m: Machine, start: Book, all: set<JobInfo>, y: JobInfo)
    requires MachineOk(m, start, all)
    ensures JobOk(m, start, all, y)
  {
  }

  lemma PoppedSize(qs: Queues<JobInfo>, book: Book)
    requires Front(qs) < MLFQ_LEVELS && qs[Front(qs)][0] in book
    ensures Size(qs, book) == Size(Popped(qs), book) + Left(qs[Front(qs)][0], book[qs[Front(qs)][0]]) + 1
  {
  }

  lemma SizeElsewhere(qs: Queues<JobInfo>, book: Book, x: JobInfo, p: Progress)
    requires forall l | 0 <= l < MLFQ_LEVELS :: x !in qs[l]
    ensures Size(qs, book[x := p]) == Size(qs, book)
  {
    MeasureElsewhere(qs[0], book, x, p);
    MeasureElsewhere(qs[1], book, x, p);
    MeasureElsewhere(qs[2], book, x, p);
  }

  lemma SizeOfInsert(qs: Queues<JobInfo>, book: Book, l: nat, x: JobInfo)
    requires l < MLFQ_LEVELS && x in book
    ensures Size(qs[l := Insert(InfoKey, qs[l], x)], book) == Size(qs, book) + Left(x, book[x]) + 1
  {
    hide Insert, Measure;
    MeasureOfInsert(qs[l], book, x);
  }

  /** Every cycle uses up some of the measure: a tick at least, or a place in the queue. */
  lemma CycleShrinks(m: Machine, start: Book, all: set<JobInfo>)
    requires MachineOk(m, start, all) && HeadKnown(m)
    ensures Size(Cycle(m).qs, Cycle(m).book) < Size(m.qs, m.book)
  {
    hide Insert, Popped, Size, Front, MachineOk, Runs;
    HeadQueuedOnce(m, start, all);
    var x := m.qs[Front(m.qs)][0];
    var p := AfterRun(x, m.book[x]);
    RunUsesUpOne(x, m.book[x]);
    hide AfterRun;
    PoppedSize(m.qs, m.book);
    SizeElsewhere(Popped(m.qs), m.book, x, p);
    SizeOfInsert(Popped(m.qs), m.book[x := p], p.level, x);
  }

  /** The dispatcher loop without new submissions, one run at a time. It ends; every job that fits
      the machine completes, after exactly the runs that an undisturbed job needs, and every other
      job fails. */
  method DrainAll(qs: Queues<JobInfo>, start: Book, all: set<JobInfo>) returns (m: Machine)
    requires MachineOk(Machine(qs, start, {}, {}), start, all)
    ensures Flat(m.qs) == []
    ensures m.done + m.failed == all && m.done !! m.failed
    ensures forall x | x in all :: x in start && x in m.book && (x in m.done <==> Feasible(x))
    ensures forall x | x in m.done :: m.book[x].elapsed == Demand(x.burst) && m.book[x].runs == RunsInAll(x, start[x])
    ensures forall x | x in m.done && start[x] == Progress(0, 0, 0) :: m.book[x].runs == RunsFor(Demand(x.burst))
  {
    hide JobOk, Cycle, Popped, Size, MachineOk;
    m := Machine(qs, start, {}, {});
    while Front(m.qs) < MLFQ_LEVELS
      invariant MachineOk(m, start, all)
      decreases Size(m.qs, m.book)
    {
      HeadQueuedOnce(m, start, all);
      CycleShrinks(m, start, all);
      CycleKeeps(m, start, all);
      m := Cycle(m);
    }
    AllDone(m, start, all);
    forall x | x in m.done && start[x] == Progress(0, 0, 0) ensures m.book[x].runs == RunsFor(Demand(x.burst)) {
      FreshRuns(x);
    }
  }

  lemma CycleKeeps(m: Machine, start: Book, all: set<JobInfo>)
    requires MachineOk(m, start, all) && HeadKnown(m)
    ensures MachineOk(Cycle(m), start, all)
  {
    hide JobOk, Cycle;
    forall y: JobInfo ensures JobOk(Cycle(m), start, all, y) {
      CycleKeepsJob(m, start, all, y);
    }
  }

  lemma AllDone(m: Machine, start: Book, all: set<JobInfo>)
    requires MachineOk(m, start, all) && Front(m.qs) == MLFQ_LEVELS
    ensures Flat(m.qs) == [] && m.done + m.failed == all && m.done !! m.failed
    ensures forall x | x in all :: x in start && x in m.book && (x in m.done <==> Feasible(x))
    ensures forall x | x in m.done :: m.book[x].elapsed == Demand(x.burst) && m.book[x].runs == RunsInAll(x, start[x])
  {
    forall x: JobInfo
      ensures One(x in m.done) + One(x in m.failed) == One(x in all)
      ensures x in all ==> x in start && x in m.book && (x in m.done <==> Feasible(x))
      ensures x in m.done ==> m.book[x].elapsed == Demand(x.burst) && m.book[x].runs == RunsInAll(x, start[x])
    {
      assert JobOk(m, start, all, x);
      assert multiset(m.qs[0])[x] == multiset(m.qs[1])[x] == multiset(m.qs[2])[x] == 0;
    }
  }
}
