/**
 A whole session on a fresh scheduler, one worker at a time: jobs are handed in, and the queue is drained.
 */
module Session {
  import opened Jobs
  import opened RunPlan
  import opened StableQueue
  import opened MlfqSpec
  import opened LevelQueue
  import opened JobQueue
  import opened Slices
  import opened Drain
  import Core = Scheduler
  import Budgets = ResourceManager

  function FreshBook(infos: seq<JobInfo>): Book {
    map x | x in infos :: Progress(0, 0, 0)
  }

  predicate Different(infos: seq<JobInfo>) {
    forall i, k | 0 <= i < k < |infos| :: infos[i] != infos[k]
  }

  /** The job is as its constructor and its submission left it. */
  ghost predicate AtStart(j: Job)
    reads j
  {
    j.elapsedTicks == j.mlfqLevel == j.ticksThisSlice == 0
  }

  lemma {:induction false} OnceEach(infos: seq<JobInfo>, x: JobInfo)
    requires Different(infos)
    ensures multiset(infos)[x] == if x in infos then 1 else 0
  {
    if infos != [] {
      assert infos == [infos[0]] + infos[1..];
      OnceEach(infos[1..], x);
    }
  }

  /** Distinct fresh jobs at level 0, in any order, are a start for the machine. */
  lemma FreshStart(qs: Queues<JobInfo>, infos: seq<JobInfo>, ids: set<JobInfo>)
    requires Different(infos) && ids == set x | x in infos
    requires multiset(qs[0]) == multiset(infos) && qs[1] == qs[2] == []
    ensures MachineOk(Machine(qs, FreshBook(infos), {}, {}), FreshBook(infos), ids)
  {
    var m := Machine(qs, FreshBook(infos), {}, {});
    forall x: JobInfo ensures JobOk(m, FreshBook(infos), ids, x) {
      OnceEach(infos, x);
      assert x in qs[0] <==> x in multiset(qs[0]);
    }
  }

  /** The level's jobs are the ones handed in so far. */
  ghost predicate HandedIn(js: seq<Job>, jobs: seq<Job>, infos: seq<JobInfo>)
    reads jobs
  {
    && |jobs| <= |infos| && (forall k | 0 <= k < |jobs| :: jobs[k].info == infos[k] && AtStart(jobs[k]))
    && (forall j | j in js :: j in jobs) && multiset(Infos(js)) == multiset(infos[..|jobs|])
  }

  lemma HandedInNext(js: seq<Job>, jobs: seq<Job>, infos: seq<JobInfo>, job: Job)
    requires HandedIn(js, jobs, infos) && |jobs| < |infos| && job.info == infos[|jobs|] && AtStart(job)
    ensures HandedIn(Insert(JobKey, js, job), jobs + [job], infos)
  {
    hide Insert, Infos;
    InsertInfos(js, job);
    InsertedMembers(js, job);
    assert infos[..|jobs| + 1] == infos[..|jobs|] + [job.info];
  }

  lemma NoneHandedIn(infos: seq<JobInfo>)
    ensures HandedIn([], [], infos)
  {
  }

  /** Hands in new jobs with these attributes. */
  method SubmitAll(s: Core.Scheduler, infos: seq<JobInfo>) returns (jobs: seq<Job>)
    requires s.Built() && s.queue.Valid() && s.queue.Lists() == [[], [], []]
    modifies s, s.allJobs, s.queue.levels, s.queue.Nodes()
    ensures s.Built() && s.queue.Valid() && s.totalSubmitted == old(s.totalSubmitted) + |infos|
    ensures forall n | n in s.queue.Nodes() :: n in old(s.queue.Nodes()) || fresh(n)
    ensures |jobs| == |infos| && forall k | 0 <= k < |jobs| :: fresh(jobs[k])
    ensures HandedIn(s.queue.Lists()[0], jobs, infos) && s.queue.Lists()[1] == s.queue.Lists()[2] == []
  {
    hide Insert, SingleLevelQueue.Valid, HandedIn;
    NoneHandedIn(infos);
    jobs := [];
    while |jobs| < |infos|
      invariant s.Built() && s.queue.Valid() && |jobs| <= |infos| && s.totalSubmitted == old(s.totalSubmitted) + |jobs|
      invariant forall n | n in s.queue.Nodes() :: n in old(s.queue.Nodes()) || fresh(n)
      invariant forall k | 0 <= k < |jobs| :: fresh(jobs[k])
      invariant HandedIn(s.queue.Lists()[0], jobs, infos) && s.queue.Lists()[1] == s.queue.Lists()[2] == []
    {
      var job := new Job(infos[|jobs|]);
      ghost var js := s.queue.Lists()[0];
      s.SubmitJob(job);
      HandedInNext(js, jobs, infos, job);
      jobs := jobs + [job];
    }
  }

  /** What was handed in is a start for the drain. */
  lemma ReadyToDrain(q: MLFQJobQueue, jobs: seq<Job>, infos: seq<JobInfo>, all: set<Job>)
    requires q.Valid() && Different(infos) && |jobs| == |infos| && all == set j | j in jobs
    requires HandedIn(q.Lists()[0], jobs, infos) && q.Lists()[1] == q.Lists()[2] == []
    ensures var m := Machine(InfoLists(q.Lists()), FreshBook(infos), {}, {});
            Tracks(q, m, all) && MachineOk(m, FreshBook(infos), set j | j in all :: j.info)
  {
    hide MachineOk, SingleLevelQueue.Valid;
    var ids := set j | j in all :: j.info;
    assert forall k | 0 <= k < |infos| :: jobs[k] in all && jobs[k].info == infos[k];
    assert ids == set x | x in infos;
    assert infos[..|jobs|] == infos;
    FreshStart(InfoLists(q.Lists()), infos, ids);
  }

  /** A scheduler as the drain takes it over: built, idle, and with these jobs queued at level 0. */
  method Prepare(infos: seq<JobInfo>, ghost start: Book)
    returns (s: Core.Scheduler, resources: Budgets.ResourceManager, jobs: seq<Job>, ghost all: set<Job>)
    requires Different(infos) && start == FreshBook(infos)
    ensures s.Built() && s.queue.Valid() && BudgetsIdle(resources) && NoWorker(s, resources)
    ensures fresh(s) && fresh(s.activeJobs) && fresh(s.queue.levels) && fresh(s.queue.Nodes())
    ensures fresh(resources) && fresh(resources.busy) && fresh(all)
    ensures Tracks(s.queue, Machine(InfoLists(s.queue.Lists()), start, {}, {}), all)
    ensures MachineOk(Machine(InfoLists(s.queue.Lists()), start, {}, {}), start, set j | j in all :: j.info)
    ensures |jobs| == |infos| && forall k | 0 <= k < |infos| :: jobs[k] in all && jobs[k].info == infos[k]
  {
    hide Tracks, MachineOk, MLFQJobQueue.Valid, InfoLists;
    s := new Core.Scheduler();
    resources := new Budgets.ResourceManager();
    jobs := SubmitAll(s, infos);
    all := set j | j in jobs;
    ReadyToDrain(s.queue, jobs, infos, all);
    s.queue.LevelsBuilt();
  }

  /** The whole session: new jobs, distinct in some attribute, are handed in to a new scheduler, and the
      queue is drained. Every job that fits the machine is Completed with exactly its burst executed, in
      the runs of the closed form; every other job is Failed. */
  method RunAll(infos: seq<JobInfo>) returns (jobs: seq<Job>, ghost m: Machine)
    requires Different(infos)
    ensures |jobs| == |infos| && forall k | 0 <= k < |infos| :: jobs[k].info == infos[k] && infos[k] in m.book
    ensures forall k | 0 <= k < |infos| ::
              if Feasible(infos[k]) then
                && jobs[k].status == Completed && jobs[k].elapsedTicks == Demand(infos[k].burst)
                && m.book[infos[k]].runs == RunsFor(Demand(infos[k].burst))
              else
                jobs[k].status == Failed
  {
    hide *;
    ghost var start := FreshBook(infos);
    ghost var all;
    var s, resources;
    s, resources, jobs, all := Prepare(infos, start);
    s.queue.LevelsBuilt();
    m := DrainLists(s, resources, start, all);
    FreshIn(infos);
  }

  lemma FreshIn(infos: seq<JobInfo>)
    ensures forall k | 0 <= k < |infos| :: infos[k] in FreshBook(infos) && FreshBook(infos)[infos[k]] == Progress(0, 0, 0)
  {
  }
}
