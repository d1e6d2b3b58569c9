/**
 The three-level queue as heap code. Its abstract value is Lists(), the job lists by level.
 */
module JobQueue {
  import opened Jobs
  import opened StableQueue
  import opened MlfqSpec
  import opened LevelQueue

  /** The age tests of a list whose jobs in `gone` have started over. */
  function TestsWithout(js: seq<Job>, tests: seq<bool>, gone: set<Job>): (r: seq<bool>)
    requires |tests| == |js|
    ensures |r| == |js|
    ensures forall i | 0 <= i < |js| :: r[i] <==> tests[i] && js[i] !in gone
  {
    seq(|js|, i requires 0 <= i < |js| => tests[i] && js[i] !in gone)
  }

  ghost predicate AllReset(js: set<Job>, level: int)
    reads js
  {
    forall j | j in js :: j.ResetAt(level)
  }

  /** The jobs that a drain with these tests takes. */
  ghost function DueOf(js: seq<Job>, tests: seq<bool>): set<Job>
    requires |tests| == |js|
  {
    set j | j in Taken(js, tests, AGED_BUF)
  }

  /** The job is in the first level that is not empty; no job of that level has a higher priority, and
      of those with the same priority it was submitted first. */
  ghost predicate FirstInLine(qs: Queues<Job>, job: Job) {
    exists l | 0 <= l < MLFQ_LEVELS ::
      && (forall k | 0 <= k < l :: qs[k] == []) && job in qs[l]
      && (forall j | j in qs[l] :: !Outranks(j.info.priority, job.info.priority))
      && (forall j | j in qs[l] && j.info.priority == job.info.priority :: job.info.submitTime <= j.info.submitTime)
  }

  lemma FrontIsFirst(qs: Queues<Job>)
    requires AllSorted(JobKey, qs)
    ensures Front(qs) < MLFQ_LEVELS ==> FirstInLine(qs, qs[Front(qs)][0])
  {
    if Front(qs) < MLFQ_LEVELS {
      HeadIsFirst(qs[Front(qs)]);
    }
  }

  /** Some queued job is at a better level than this one, or at this level with a higher priority. */
  ghost predicate Outranked(qs: Queues<Job>, level: int, p: Priority) {
    exists l, j | 0 <= l < MLFQ_LEVELS && j in qs[l] :: l < level || (l == level && Outranks(j.info.priority, p))
  }

  lemma BetterIsOutranked(qs: Queues<Job>, level: int, p: Priority)
    ensures Better(JobKey, qs, level, p.Value()) <==> Outranked(qs, level, p)
  {
    if l, i :| 0 <= l < MLFQ_LEVELS && 0 <= i < |qs[l]| && Beats(l, JobKey(qs[l][i]).priority, level, p.Value()) {
      ValueOrders(qs[l][i].info.priority, p);
      assert qs[l][i] in qs[l];
    }
    if l, j :| 0 <= l < MLFQ_LEVELS && j in qs[l] && (l < level || (l == level && Outranks(j.info.priority, p))) {
      ValueOrders(j.info.priority, p);
      var i :| 0 <= i < |qs[l]| && qs[l][i] == j;
      assert Beats(l, JobKey(qs[l][i]).priority, level, p.Value());
    }
  }

  class MLFQJobQueue {
    const levels: seq<SingleLevelQueue>

    ghost function Lists(): (qs: Queues<Job>)
      requires |levels| == MLFQ_LEVELS
      reads levels
      ensures forall l | 0 <= l < MLFQ_LEVELS :: qs[l] == levels[l].jobs
    {
      var qs := [levels[0].jobs, levels[1].jobs, levels[2].jobs];
      assert |qs| == 3;
      qs
    }

    ghost function Nodes(): set<QueueNode>
      requires |levels| == MLFQ_LEVELS
      reads levels
    {
      levels[0].repr + levels[1].repr + levels[2].repr
    }

    /** Three well-formed lists that share nothing. */
    ghost predicate Valid()
      reads levels, if |levels| == MLFQ_LEVELS then Nodes() else {}
    {
      && |levels| == MLFQ_LEVELS
      && levels[0] != levels[1] && levels[0] != levels[2] && levels[1] != levels[2]
      && levels[0].repr !! levels[1].repr && levels[0].repr !! levels[2].repr && levels[1].repr !! levels[2].repr
      && levels[0].Valid() && levels[1].Valid() && levels[2].Valid()
    }

    /** The jobs of a level that an aging pass over that level promotes now. */
    ghost function Due(lvl: nat): seq<Job>
      requires |levels| == MLFQ_LEVELS && 1 <= lvl < MLFQ_LEVELS
      reads levels, levels[lvl].jobs
    {
      Taken(levels[lvl].jobs, AgeTests(levels[lvl].jobs), AGED_BUF)
    }

    ghost function DueSet(lvl: nat): set<Job>
      requires |levels| == MLFQ_LEVELS && 1 <= lvl < MLFQ_LEVELS
      reads levels, levels[lvl].jobs
    {
      DueOf(levels[lvl].jobs, AgeTests(levels[lvl].jobs))
    }

    constructor ()
      ensures Valid() && Lists() == [[], [], []] && Nodes() == {}
      ensures forall l | 0 <= l < MLFQ_LEVELS :: fresh(levels[l])
    {
      var l0 := new SingleLevelQueue();
      var l1 := new SingleLevelQueue();
      var l2 := new SingleLevelQueue();
      levels := [l0, l1, l2];
    }

    /** The push of one level, seen from the whole queue. */
    method PushAt(job: Job, l: nat)
      requires Valid() && l < MLFQ_LEVELS
      modifies levels[l], levels[l].repr
      ensures Valid() && fresh(levels[l].repr - old(levels[l].repr))
      ensures Lists() == old(Lists())[l := Insert(JobKey, old(Lists())[l], job)]
    {
      hide SingleLevelQueue.Valid, Insert;
      levels[l].Push(job);
    }

    method PushNew(job: Job)
      requires Valid()
      modifies levels[0], levels[0].repr
      modifies job`mlfqLevel, job`ticksThisSlice, job`agingTicks, job`status
      ensures Valid() && forall n | n in Nodes() :: n in old(Nodes()) || fresh(n)
      ensures job.mlfqLevel == job.ticksThisSlice == job.agingTicks == 0 && job.status == Ready
      ensures Lists() == old(Lists())[0 := Insert(JobKey, old(Lists())[0], job)]
    {
      hide Insert, SingleLevelQueue.Valid;
      job.mlfqLevel := 0;
      job.ticksThisSlice := 0;
      job.agingTicks := 0;
      job.status := Ready;
      PushAt(job, 0);
    }

    method RequeuePreempted(job: Job, demote: bool)
      requires Valid() && 0 <= job.mlfqLevel < MLFQ_LEVELS
      modifies levels, Nodes()
      modifies job`mlfqLevel, job`ticksThisSlice, job`agingTicks, job`status
      ensures Valid() && forall n | n in Nodes() :: n in old(Nodes()) || fresh(n)
      ensures !demote ==> job.mlfqLevel == old(job.mlfqLevel)
      ensures demote ==> job.mlfqLevel == if old(job.mlfqLevel) == 2 then 2 else old(job.mlfqLevel) + 1
      ensures job.ticksThisSlice == job.agingTicks == 0 && job.status == Ready
      ensures Lists() == old(Lists())[job.mlfqLevel := Insert(JobKey, old(Lists())[job.mlfqLevel], job)]
    {
      hide Insert, SingleLevelQueue.Valid;
      if demote {
        var newLevel := job.mlfqLevel + 1;
        if newLevel >= MLFQ_LEVELS {
          newLevel := MLFQ_LEVELS - 1;
        }
        job.mlfqLevel := newLevel;
      }
      job.ticksThisSlice := 0;
      job.agingTicks := 0;
      job.status := Ready;
      PushAt(job, job.mlfqLevel);
    }

    method TryPop() returns (job: Job?)
      requires Valid()
      modifies levels
      ensures Valid() && Nodes() == old(Nodes())
      ensures Lists() == Popped(old(Lists()))
      ensures var f := Front(old(Lists()));
              if f == MLFQ_LEVELS then job == null else job == old(Lists())[f][0]
      ensures job == null <==> old(Lists()) == [[], [], []]
      ensures job != null ==> FirstInLine(old(Lists()), job)
    {
      hide SingleLevelQueue.Linked, Sorted, FirstInLine;
      FrontIsFirst(Lists());
      var lvl := 0;
      while lvl < MLFQ_LEVELS
        invariant 0 <= lvl <= MLFQ_LEVELS && Valid() && Nodes() == old(Nodes()) && Lists() == old(Lists())
        invariant forall k | 0 <= k < lvl :: Lists()[k] == []
      {
        job := levels[lvl].TryPop();
        if job != null {
          return;
        }
        lvl := lvl + 1;
      }
      job := null;
    }

    method HasBetterCandidate(runningLevel: int, runningPrio: int) returns (b: bool)
      requires Valid() && 0 <= runningLevel <= MLFQ_LEVELS
      ensures b <==> Better(JobKey, Lists(), runningLevel, runningPrio)
      ensures forall p: Priority | p.Value() == runningPrio :: b <==> Outranked(Lists(), runningLevel, p)
    {
      hide Better, Outranked, Sorted, SingleLevelQueue.Linked;
      forall p: Priority | p.Value() == runningPrio
        ensures Better(JobKey, Lists(), runningLevel, runningPrio) <==> Outranked(Lists(), runningLevel, p)
      {
        BetterIsOutranked(Lists(), runningLevel, p);
      }
      HeadTestIsEnough(JobKey, Lists(), runningLevel, runningPrio);
      var lvl := 0;
      while lvl < runningLevel
        invariant 0 <= lvl <= runningLevel
        invariant forall k | 0 <= k < lvl :: Lists()[k] == []
      {
        var e := levels[lvl].Empty();
        if !e {
          return true;
        }
        lvl := lvl + 1;
      }
      if runningLevel < MLFQ_LEVELS {
        var e := levels[runningLevel].Empty();
        if !e {
          var p := levels[runningLevel].TopPriority();
          if p > runningPrio {
            return true;
          }
        }
      }
      return false;
    }

    method Promote(job: Job, l: nat)
      requires Valid() && l < MLFQ_LEVELS
      modifies levels[l], levels[l].repr, job`mlfqLevel, job`ticksThisSlice, job`agingTicks
      ensures Valid() && fresh(levels[l].repr - old(levels[l].repr))
      ensures Lists() == old(Lists())[l := Insert(JobKey, old(Lists())[l], job)]
      ensures job.ResetAt(l)
    {
      hide Insert, SingleLevelQueue.Valid;
      job.mlfqLevel := l;
      job.ticksThisSlice := 0;
      job.agingTicks := 0;
      PushAt(job, l);
    }

    lemma LevelsBuilt()
      requires Valid()
      ensures |levels| == MLFQ_LEVELS
      ensures forall k, m | 0 <= k < m < MLFQ_LEVELS :: levels[k] != levels[m]
    {
    }

    /** The inner loop of the aging pass: every drained job is reset and pushed at level `l`. */
    method PushDrained(aged: array<Job?>, count: nat, l: nat, ghost up: seq<Job>, ghost due: set<Job>)
      requires Valid() && l < MLFQ_LEVELS && count == |up| <= aged.Length && aged[..count] == up
      requires forall j | j in up :: j in due
      modifies levels[l], levels[l].repr
      modifies due`mlfqLevel, due`ticksThisSlice, due`agingTicks
      ensures Valid() && fresh(levels[l].repr - old(levels[l].repr))
      ensures Lists() == old(Lists())[l := InsertAll(JobKey, old(Lists())[l], up)]
      ensures forall j | j in up :: j.ResetAt(l)
    {
      hide *;
      LevelsBuilt();
      ghost var qs: Queues<Job> := Lists();
      InsertAllNone(JobKey, qs[l]);
      var i := 0;
      while i < count
        invariant 0 <= i <= count
        invariant Valid() && fresh(levels[l].repr - old(levels[l].repr))
        invariant levels[l].jobs == InsertAll(JobKey, qs[l], up[..i])
        invariant forall j | j in up[..i] :: j.ResetAt(l)
      {
        InsertAllNext(JobKey, qs[l], up, i);
        Promote(aged[..count][i], l);
        i := i + 1;
      }
      assert up[..count] == up;
    }

    /** What the age test will say about level 2 once level 1 has been promoted: a job that is queued
        at both levels has then started over. */
    ghost function SecondTests(): (r: seq<bool>)
      requires |levels| == MLFQ_LEVELS
      reads levels, levels[1].jobs, levels[2].jobs
      ensures |r| == |levels[2].jobs|
      ensures forall i | 0 <= i < |r| ::
                r[i] <==> levels[2].jobs[i].agingTicks >= AGING_THRESHOLD && levels[2].jobs[i] !in DueSet(1)
    {
      TestsWithout(levels[2].jobs, AgeTests(levels[2].jobs), DueSet(1))
    }

    ghost function SecondDue(): seq<Job>
      requires |levels| == MLFQ_LEVELS
      reads levels, levels[1].jobs, levels[2].jobs
    {
      Taken(levels[2].jobs, SecondTests(), AGED_BUF)
    }

    ghost function SecondDueSet(): set<Job>
      requires |levels| == MLFQ_LEVELS
      reads levels, levels[1].jobs, levels[2].jobs
    {
      DueOf(levels[2].jobs, SecondTests())
    }

    /** One round of the aging loop: drain a level, then push what was drained one level up. */
    method DrainAndPush(lvl: nat, aged: array<Job?>, ghost due: set<Job>) returns (count: nat)
      requires Valid() && 1 <= lvl < MLFQ_LEVELS && aged.Length == AGED_BUF && due == DueSet(lvl)
      modifies levels[lvl - 1], levels[lvl - 1].repr, levels[lvl], levels[lvl].repr, aged
      modifies due`mlfqLevel, due`ticksThisSlice, due`agingTicks
      ensures Valid() && forall n | n in Nodes() :: n in old(Nodes()) || fresh(n)
      ensures Lists() == old(MoveUp(JobKey, Lists(), lvl, AgeTests(levels[lvl].jobs)))
      ensures count == |old(Due(lvl))|
      ensures AllReset(due, lvl - 1)
    {
      hide Kept, Taken, InsertAll, Insert, AgeTests, SingleLevelQueue.Valid;
      ghost var qs, tests := Lists(), AgeTests(levels[lvl].jobs);
      ghost var up := Due(lvl);
      TakenAreMembers(qs[lvl], tests, AGED_BUF);
      count := levels[lvl].DrainAged(aged, AGED_BUF);
      assert Lists() == qs[lvl := Kept(qs[lvl], tests, AGED_BUF)];
      PushDrained(aged, count, lvl - 1, up, due);
    }

    /** The same round, which leaves the jobs promoted before it alone, and what the first one means
        for the age tests of level 2. */
    method PromoteFrom(lvl: nat, aged: array<Job?>, ghost due: set<Job>, ghost done: set<Job>) returns (count: nat)
      requires Valid() && 1 <= lvl < MLFQ_LEVELS && aged.Length == AGED_BUF && due == DueSet(lvl)
      requires done !! due && AllReset(done, 0)
      modifies levels[lvl - 1], levels[lvl - 1].repr, levels[lvl], levels[lvl].repr, aged
      modifies due`mlfqLevel, due`ticksThisSlice, due`agingTicks
      ensures Valid() && forall n | n in Nodes() :: n in old(Nodes()) || fresh(n)
      ensures Lists() == old(MoveUp(JobKey, Lists(), lvl, AgeTests(levels[lvl].jobs)))
      ensures count == |old(Due(lvl))|
      ensures AllReset(due, lvl - 1)
      ensures AllReset(done, 0)
      ensures lvl == 1 ==> levels[2].jobs == old(levels[2].jobs) && AgeTests(levels[2].jobs) == old(SecondTests())
    {
      hide MoveUp, Valid, Nodes, AgeTests, Taken, Due, SecondTests;
      LevelsBuilt();
      count := DrainAndPush(lvl, aged, due);
    }

    /** The lists that one atomic aging pass leaves. */
    ghost function ListsAfterPass(): Queues<Job>
      requires |levels| == MLFQ_LEVELS
      reads levels, levels[1].jobs, levels[2].jobs
    {
      AgePass(JobKey, Lists(), AgeTests(levels[1].jobs), SecondTests())
    }

    method RunAging() returns (promoted: nat)
      requires Valid()
      modifies levels, Nodes()
      modifies DueSet(1)`mlfqLevel, DueSet(1)`ticksThisSlice, DueSet(1)`agingTicks
      modifies SecondDueSet()`mlfqLevel, SecondDueSet()`ticksThisSlice, SecondDueSet()`agingTicks
      ensures Valid() && fresh(Nodes() - old(Nodes()))
      ensures Lists() == old(ListsAfterPass())
      ensures promoted == |old(Due(1))| + |old(SecondDue())|
      ensures forall j | j in old(DueSet(1)) :: j.mlfqLevel == 0 && j.ticksThisSlice == 0 && j.agingTicks == 0
      ensures forall j | j in old(SecondDueSet()) :: j.mlfqLevel == 1 && j.ticksThisSlice == 0 && j.agingTicks == 0
    {
      hide Lists, Nodes, Due, DueSet, SecondDue, SecondDueSet, SecondTests, DueOf, AllReset, AgeTests, Taken, Kept;
      hide MoveUp, AgePass, Insert, InsertAll, Valid, SingleLevelQueue.Valid;
      LevelsBuilt();
      SecondDueApart();
      NoneReset();
      DueIs(1);
      ghost var qs, t1, t2 := Lists(), AgeTests(levels[1].jobs), SecondTests();
      SecondDueIs();
      ghost var was := Nodes();
      ghost var n1, n2, due1, due2 := |Due(1)|, |SecondDue()|, DueSet(1), SecondDueSet();
      PassIs(qs, t1, t2);
      var aged := new Job?[AGED_BUF](_ => null);
      promoted := 0;
      var lvl := 1;
      while lvl < MLFQ_LEVELS
        invariant 1 <= lvl <= MLFQ_LEVELS
        invariant Valid() && forall n | n in Nodes() :: n in was || fresh(n)
        invariant lvl == 1 ==> promoted == 0 && Lists() == qs && AgeTests(levels[1].jobs) == t1 && SecondTests() == t2
        invariant lvl == 2 ==> promoted == n1 && Lists() == MoveUp(JobKey, qs, 1, t1)
        invariant lvl == 2 ==> AgeTests(levels[2].jobs) == t2 && DueSet(2) == due2 && |Due(2)| == n2
        invariant lvl == 3 ==> promoted == n1 + n2 && Lists() == AgePass(JobKey, qs, t1, t2)
        invariant lvl >= 2 ==> AllReset(due1, 0)
        invariant lvl >= 3 ==> AllReset(due2, 1)
      {
        ReprIsPart(lvl - 1);
        ReprIsPart(lvl);
        DueIs(lvl);
        var count := PromoteFrom(lvl, aged, if lvl == 1 then due1 else due2, if lvl == 1 then {} else due1);
        promoted := promoted + count;
        lvl := lvl + 1;
        if lvl == 2 {
          DueIs(2);
        }
      }
      ResetFields(due1, 0);
      ResetFields(due2, 1);
    }

    lemma ResetFields(js: set<Job>, level: int)
      requires AllReset(js, level)
      ensures forall j | j in js :: j.mlfqLevel == level && j.ticksThisSlice == 0 && j.agingTicks == 0
    {
    }

    lemma DueIs(lvl: nat)
      requires |levels| == MLFQ_LEVELS && 1 <= lvl < MLFQ_LEVELS
      ensures Due(lvl) == Taken(levels[lvl].jobs, AgeTests(levels[lvl].jobs), AGED_BUF)
      ensures DueSet(lvl) == DueOf(levels[lvl].jobs, AgeTests(levels[lvl].jobs))
    {
    }

    lemma SecondDueIs()
      requires |levels| == MLFQ_LEVELS
      ensures SecondDue() == Taken(levels[2].jobs, SecondTests(), AGED_BUF)
      ensures SecondDueSet() == DueOf(levels[2].jobs, SecondTests())
    {
    }

    lemma PassIs(qs: Queues<Job>, t1: seq<bool>, t2: seq<bool>)
      requires |t1| == |qs[1]| && |t2| == |qs[2]|
      ensures |MoveUp(JobKey, qs, 1, t1)[2]| == |t2|
      ensures AgePass(JobKey, qs, t1, t2) == MoveUp(JobKey, MoveUp(JobKey, qs, 1, t1), 2, t2)
    {
    }

    lemma ReprIsPart(l: nat)
      requires Valid() && l < MLFQ_LEVELS
      ensures |levels| == MLFQ_LEVELS && levels[l].repr <= Nodes()
    {
    }

    lemma NoneReset()
      ensures AllReset({}, 0)
    {
    }

    /** The second round promotes no job that the first one has promoted. */
    lemma SecondDueApart()
      requires |levels| == MLFQ_LEVELS
      ensures DueSet(1) !! SecondDueSet()
    {
      forall j | j in SecondDue() ensures j !in DueSet(1) {
        DrainOnlyAged(levels[2].jobs, SecondTests(), AGED_BUF, j);
      }
    }

    method Size() returns (total: nat)
      requires Valid()
      ensures total == |Flat(Lists())|
    {
      hide FlatTo;
      FlatToAll(Lists());
      total := 0;
      var l := 0;
      while l < MLFQ_LEVELS
        invariant 0 <= l <= MLFQ_LEVELS && total == |FlatTo(Lists(), l)|
      {
        FlatToNext(Lists(), l);
        total := total + levels[l].size;
        l := l + 1;
      }
    }

    /** One sweep: every queued job waits one tick longer. */
    method TickWaiting()
      requires Valid()
      modifies (set j | j in Flat(Lists()))`waitTicks, (set j | j in Flat(Lists()))`agingTicks
      ensures Valid()
      ensures forall j | j in Flat(Lists()) ::
                && j.waitTicks == old(j.waitTicks) + multiset(Flat(Lists()))[j]
                && j.agingTicks == old(j.agingTicks) + multiset(Flat(Lists()))[j]
    {
      hide FlatTo, SingleLevelQueue.Valid;
      LevelsBuilt();
      ghost var qs: Queues<Job> := Lists();
      FlatToAll<Job>(qs);
      var l := 0;
      while l < MLFQ_LEVELS
        invariant 0 <= l <= MLFQ_LEVELS && Valid()
        invariant forall j: Job | j in Flat(qs) ::
                    && j.waitTicks == old(j.waitTicks) + multiset(FlatTo<Job>(qs, l))[j]
                    && j.agingTicks == old(j.agingTicks) + multiset(FlatTo<Job>(qs, l))[j]
      {
        FlatToNext<Job>(qs, l);
        LevelIsValid(l);
        levels[l].TickWaiting();
        l := l + 1;
      }
    }

    lemma LevelIsValid(l: nat)
      requires Valid() && l < MLFQ_LEVELS
      ensures levels[l].Valid()
    {
    }

    /** The first jobs in the order in which pops would return them. */
    method Snapshot(buf: array<Job?>, maxCount: int) returns (total: int)
      requires Valid() && maxCount <= buf.Length
      modifies buf
      ensures total == if |Flat(Lists())| < maxCount then |Flat(Lists())| else if maxCount < 0 then 0 else maxCount
      ensures buf[..total] == Flat(Lists())[..total]
    {
      hide FlatTo, SingleLevelQueue.Valid;
      LevelsBuilt();
      ghost var qs: Queues<Job> := Lists();
      FlatToAll<Job>(qs);
      total := 0;
      var l := 0;
      while l < MLFQ_LEVELS
        invariant 0 <= l <= MLFQ_LEVELS && Valid()
        invariant total == if |FlatTo<Job>(qs, l)| < maxCount then |FlatTo<Job>(qs, l)| else if maxCount < 0 then 0 else maxCount
        invariant buf[..total] == FlatTo<Job>(qs, l)[..total]
      {
        FlatToNext<Job>(qs, l);
        LevelIsValid(l);
        var got := levels[l].Snapshot(buf, total, maxCount - total);
        TakeOn<Job>(FlatTo<Job>(qs, l), qs[l], total, got, maxCount);
        assert buf[..total + got] == buf[..total] + buf[total..total + got];
        total := total + got;
        l := l + 1;
        if total >= maxCount {
          break;
        }
      }
      FlatToPrefix(qs, l);
    }
  }
}
