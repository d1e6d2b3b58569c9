/**
 What the fields of a job say in each place it can be, and how a run goes: slice and quantum,
 preemption requests, and the bound on the number of runs.
 */
module JobRecords {
  import opened Jobs
  import opened StableQueue
  import opened Protocol
  import opened WorkerTally
  import opened RunPlan

  /** Won preemption requests that the dispatcher has not yet counted. */
  function Pending(d: Dispatcher, x: JobInfo): nat {
    One(d.CountWin? && d.job == x)
  }

  /** Holds everywhere. The last clause is runs <= 1 + preemptions + floor(elapsed / 2). */
  predicate Basic(x: JobInfo, r: JobRec) {
    && 0 <= r.elapsed <= Demand(x.burst)
    && 0 <= r.level < MLFQ_LEVELS
    && 0 <= r.slice <= Quantum(r.level)
    && 0 <= r.preemptions
    && 2 * (r.runs - 1 - r.preemptions) <= r.elapsed
  }

  /** Holds outside runs: there is room for one more run under the bound. */
  predicate Between(r: JobRec) {
    r.slice == 0 && 2 * (r.runs - r.preemptions) <= r.elapsed
  }

  /** A job that nothing has disturbed keeps to the plan for its burst: the runs it has had and those
      that the plan foresees for the rest add up. In a run, the slice belongs to the rest. */
  predicate OnCourse(x: JobInfo, r: JobRec, inRun: bool) {
    || r.disturbed
    || var left := RemainingTicks(x.burst, r.elapsed);
       if inRun then r.runs >= 1 && r.slice >= 0 && Planned(x, r.runs - 1, left + r.slice, r.level)
       else Planned(x, r.runs, left, r.level)
  }

  predicate Planned(x: JobInfo, had: nat, left: nat, level: int) {
    && had + Runs(left, level) == Runs(Demand(x.burst), 0)
    && LastLevel(left, level) == LastLevel(Demand(x.burst), 0)
  }

  predicate Finished(x: JobInfo, r: JobRec) {
    r.disturbed || (r.runs == Runs(Demand(x.burst), 0) && r.level == LastLevel(Demand(x.burst), 0))
  }

  /** A run has been started and the job is not yet marked Running. */
  predicate Started(r: JobRec) {
    && r.status == Ready && r.slice == r.runTicks == r.wins == r.late == 0
    && 1 <= r.runs && 2 * (r.runs - 1 - r.preemptions) <= r.elapsed
  }

  /** The part of a run that does not depend on where the worker stands. */
  predicate RunCounts(r: JobRec, pend: nat) {
    && (r.status == Running || r.status == Preempted)
    && r.slice == r.runTicks && r.slice <= r.elapsed
    && pend <= r.wins <= 1 && r.late <= r.wins
    && (r.wins == 1 ==> r.status == Preempted && r.disturbed)
    && 1 <= r.runs && 2 * (r.runs - 1 - (r.preemptions + pend - r.wins)) <= r.elapsed - r.slice
  }

  predicate InLoop(pc: Pc) {
    pc == LoopTest || pc == StatusTest || pc == QuantumTest || pc == Ticking
  }

  predicate BeforeRun(pc: Pc) {
    pc == Spawned || pc == Waited || pc == Denied || pc == Failing || pc == Granted
  }

  /** Inside the loop, Preempted means a won request; once the request has been missed at the
      status test, at most the tick under way is still executed. */
  predicate LoopOk(w: Worker, r: JobRec) {
    && !w.preempted
    && (r.status == Preempted ==> r.wins == 1)
    && (w.pc != LoopTest ==> r.elapsed < w.job.burst)
    && (w.pc == QuantumTest || w.pc == Ticking ==> r.late == 0)
    && (w.pc == Ticking ==> r.slice < Quantum(r.level))
  }

  /** After the loop, the flag tells a preemption or a used-up quantum; without the flag the job is
      finished or the scheduler was stopped. */
  predicate AfterLoopOk(w: Worker, r: JobRec, pend: nat, running: bool) {
    && (w.preempted ==> r.status == Preempted && (r.wins == 1 || r.slice == Quantum(r.level)))
    && (!w.preempted && r.elapsed < w.job.burst ==> !running)
    && (w.pc != Clearing ==> pend == 0)
  }

  predicate PhaseOk(w: Worker, r: JobRec, pend: nat, running: bool) {
    if BeforeRun(w.pc) then r.status == Ready && Between(r) && !w.preempted && pend == 0
    else if w.pc == Claimed then Started(r) && !w.preempted && pend == 0
    else if InLoop(w.pc) then RunCounts(r, pend) && LoopOk(w, r)
    else RunCounts(r, pend) && AfterLoopOk(w, r, pend, running)
  }

  predicate WorkerOk(w: Worker, r: JobRec, pend: nat, running: bool) {
    PhaseOk(w, r, pend, running) && OnCourse(w.job, r, !BeforeRun(w.pc))
  }

  predicate Queueable(x: JobInfo, r: JobRec, l: int) {
    r.status == Ready && Between(r) && r.level == l && OnCourse(x, r, false)
  }

  function BufferLevel(a: Aging): int {
    if a.Promote? then a.lvl else 0
  }

  /** The record of a job agrees with each place that holds it. */
  ghost predicate RecordOk(s: State, x: JobInfo)
    requires x in s.jobs
  {
    var r := s.jobs[x];
    && Basic(x, r)
    && (x in s.registered || x in s.counted ==> r.status == Waiting && Between(r) && r.level == 0 && OnCourse(x, r, false))
    && (forall l | 0 <= l < MLFQ_LEVELS && x in s.queues[l] :: Queueable(x, r, l))
    && (s.dispatcher.Hand? && s.dispatcher.job == x ==> Queueable(x, r, r.level))
    && (x in BufferOf(s.aging) ==> Queueable(x, r, BufferLevel(s.aging)))
    && (x in s.completed ==> r.status == Completed && r.elapsed == Demand(x.burst) && Finished(x, r))
    && (x in s.failed ==> r.status == Failed)
    && (x in s.abandoned ==> (r.status == Running || r.status == Preempted) && r.elapsed < x.burst && !s.running)
    && (forall i | 0 <= i < |s.workers| && Owns(s.workers[i].pc) && s.workers[i].job == x ::
          WorkerOk(s.workers[i], r, Pending(s.dispatcher, x), s.running))
  }

  ghost predicate Recorded(s: State) {
    forall x | x in s.jobs :: RecordOk(s, x)
  }

  lemma LevelInRange(s: State, x: JobInfo)
    requires Recorded(s) && x in s.jobs
    ensures 0 <= s.jobs[x].level < MLFQ_LEVELS
  {
  }

  lemma InitRecorded()
    ensures Recorded(Init())
  {
  }

  // ---------------------------------------------------------------- jobs that a step does not touch

  /** Waiting counters and sweep marks play no part here. */
  predicate SameRun(r: JobRec, r': JobRec) {
    r'.(wait := r.wait, aging := r.aging, ticked := r.ticked) == r
  }

  /** The step brings y to no new place. */
  ghost predicate Untouched(s: State, s': State, y: JobInfo)
    requires y in s.jobs
  {
    && y in s'.jobs && SameRun(s.jobs[y], s'.jobs[y])
    && (y in s'.registered || y in s'.counted ==> y in s.registered || y in s.counted)
    && (forall l | 0 <= l < MLFQ_LEVELS && y in s'.queues[l] :: y in s.queues[l])
    && (s'.dispatcher.Hand? && s'.dispatcher.job == y ==> s.dispatcher.Hand? && s.dispatcher.job == y)
    && (y in BufferOf(s'.aging) ==> y in BufferOf(s.aging) && BufferLevel(s'.aging) == BufferLevel(s.aging))
    && (y in s'.completed ==> y in s.completed) && (y in s'.failed ==> y in s.failed)
    && (y in s'.abandoned ==> y in s.abandoned)
    && (forall k | 0 <= k < |s'.workers| && Owns(s'.workers[k].pc) && s'.workers[k].job == y ::
          k < |s.workers| && s.workers[k] == s'.workers[k])
    && Pending(s'.dispatcher, y) == Pending(s.dispatcher, y)
    && (s'.running ==> s.running)
  }

  lemma UntouchedOk(s: State, s': State, y: JobInfo)
    requires y in s.jobs && RecordOk(s, y) && Untouched(s, s', y)
    ensures RecordOk(s', y)
  {
    hide Total, Basic, Between, OnCourse, Finished, Queueable, WorkerOk;
    SameVerdicts(y, s.jobs[y], s'.jobs[y]);
    forall k | 0 <= k < |s'.workers| && Owns(s'.workers[k].pc) && s'.workers[k].job == y
      ensures WorkerOk(s'.workers[k], s'.jobs[y], Pending(s'.dispatcher, y), s'.running)
    {
      SameWorkerVerdict(s.workers[k], s.jobs[y], s'.jobs[y], Pending(s.dispatcher, y), s.running, s'.running);
    }
  }

  lemma SameVerdicts(x: JobInfo, r: JobRec, r': JobRec)
    requires SameRun(r, r')
    ensures r'.status == r.status && r'.elapsed == r.elapsed && r'.level == r.level
    ensures Basic(x, r') == Basic(x, r) && Between(r') == Between(r) && Finished(x, r') == Finished(x, r)
    ensures OnCourse(x, r', false) == OnCourse(x, r, false)
    ensures forall l: int :: Queueable(x, r', l) == Queueable(x, r, l)
  {
    hide Planned;
  }

  lemma SameWorkerVerdict(w: Worker, r: JobRec, r': JobRec, pend: nat, running: bool, running': bool)
    requires SameRun(r, r') && WorkerOk(w, r, pend, running) && (running' ==> running)
    ensures WorkerOk(w, r', pend, running')
  {
    hide Planned;
  }

  lemma InsertMembers(q: seq<JobInfo>, x: JobInfo, y: JobInfo)
    ensures y in Insert(InfoKey, q, x) <==> y == x || y in q
  {
  }
}
