/**
 Which jobs fail. A job fails exactly if the budget check of one of its workers denies it; the check
 counts what the workers granted before still hold. So whether a job can fail depends on the jobs
 submitted beside it, and the condition is exact.
 */
module Denial {
  import opened Jobs
  import opened StableQueue
  import opened Protocol
  import opened WorkerTally
  import opened Accounting
  import opened Ownership
  import opened JobRecords
  import opened Safety
  import opened Reaching
  import opened History

  // ---------------------------------------------------------------- what granted workers hold

  function CpuOf(js: seq<JobInfo>): int {
    if js == [] then 0 else CpuOf(js[..|js| - 1]) + js[|js| - 1].cpu
  }

  function MemoryOf(js: seq<JobInfo>): int {
    if js == [] then 0 else MemoryOf(js[..|js| - 1]) + js[|js| - 1].memory
  }

  /** The jobs of the workers that were granted their budgets and have not released them. */
  function Holders(ws: seq<Worker>): seq<JobInfo> {
    if ws == [] then []
    else
      var w := ws[|ws| - 1];
      Holders(ws[..|ws| - 1]) + if HoldsBudget(w.pc) then [w.job] else []
  }

  lemma SumsAppend(js: seq<JobInfo>, x: JobInfo)
    ensures CpuOf(js + [x]) == CpuOf(js) + x.cpu && MemoryOf(js + [x]) == MemoryOf(js) + x.memory
  {
    assert (js + [x])[..|js|] == js;
  }

  lemma {:induction false} HoldersAddUp(ws: seq<Worker>)
    ensures CpuOf(Holders(ws)) == Total(ws).cpu && MemoryOf(Holders(ws)) == Total(ws).memory
    ensures |Holders(ws)| == Total(ws).active
  {
    hide Holders, Total, CpuOf, MemoryOf;
    if ws == [] {
      NoHolders();
    } else {
      HoldersAddUp(ws[..|ws| - 1]);
      LastHolder(ws);
      LastTotals(ws);
    }
  }

  lemma NoHolders()
    ensures Holders([]) == [] && CpuOf([]) == MemoryOf([]) == 0
    ensures Total([]).cpu == Total([]).memory == Total([]).active == 0
  {
  }

  lemma LastHolder(ws: seq<Worker>)
    requires ws != []
    ensures var w, front := ws[|ws| - 1], Holders(ws[..|ws| - 1]);
            && CpuOf(Holders(ws)) == CpuOf(front) + (if HoldsBudget(w.pc) then w.job.cpu else 0)
            && MemoryOf(Holders(ws)) == MemoryOf(front) + (if HoldsBudget(w.pc) then w.job.memory else 0)
            && |Holders(ws)| == |front| + One(HoldsBudget(w.pc))
  {
    hide CpuOf, MemoryOf, HoldsBudget;
    var w, front := ws[|ws| - 1], Holders(ws[..|ws| - 1]);
    if HoldsBudget(w.pc) {
      SumsAppend(front, w.job);
      assert Holders(ws) == front + [w.job];
    } else {
      assert Holders(ws) == front;
    }
  }

  lemma LastTotals(ws: seq<Worker>)
    requires ws != []
    ensures var w, t := ws[|ws| - 1], Total(ws[..|ws| - 1]);
            && Total(ws).cpu == t.cpu + (if HoldsBudget(w.pc) then w.job.cpu else 0)
            && Total(ws).memory == t.memory + (if HoldsBudget(w.pc) then w.job.memory else 0)
            && Total(ws).active == t.active + One(HoldsBudget(w.pc))
  {
  }

  // ---------------------------------------------------------------- the budget check

  /** Jobs that can hold budgets together, at most three of them, and leave too little for x. */
  ghost predicate Crowds(g: seq<JobInfo>, x: JobInfo) {
    && |g| < MAX_CONCURRENT && Distinct(g) && x !in g
    && Fits(0, 0, CpuOf(g), MemoryOf(g))
    && !Fits(CpuOf(g), MemoryOf(g), x.cpu, x.memory)
  }

  /** What a worker finds that checks the budgets: at most three other jobs hold any, each of them once. */
  lemma CheckFinds(s: State, i: nat)
    requires Safe(s) && i < |s.workers| && s.workers[i].pc == Waited
    ensures var g := Holders(s.workers);
            && |g| < MAX_CONCURRENT && Distinct(g) && s.workers[i].job !in g
            && (forall y | y in g :: y in s.jobs)
            && s.usedCpu == CpuOf(g) && s.usedMemory == MemoryOf(g) && Fits(0, 0, CpuOf(g), MemoryOf(g))
  {
    hide Owned, Linked, Recorded, Total, Holders, CpuOf, MemoryOf;
    var g, x := Holders(s.workers), s.workers[i].job;
    HoldersAddUp(s.workers);
    SafeWorkers(s);
    PermitInHand(s, i);
    forall y | y in g ensures y in s.jobs && multiset(g)[y] <= 1 {
      CountedOnce(s, y);
      assert y in multiset(g);
      HoldersWithin(s.workers, y);
      HandsOnce(s, y);
    }
    DistinctByCount(g);
    if x in g {
      assert x in multiset(g);
      AskerHoldsNothing(s, i);
      assert false;
    }
  }

  lemma HandsOnce(s: State, y: JobInfo)
    requires Copies(s, y) == One(y in s.jobs)
    ensures Total(s.workers).jobs[y] <= One(y in s.jobs)
  {
    hide Total;
  }

  /** A worker with a permit and no budget leaves three permits for the others. */
  lemma PermitInHand(s: State, i: nat)
    requires Balanced(s) && NonNegative(s.workers) && i < |s.workers| && s.workers[i].pc == Waited
    ensures Total(s.workers).active < MAX_CONCURRENT
  {
    hide Total, Others;
    ShareOfTotal(s.workers, i);
  }

  /** The job of a worker that still asks is not among the granted ones. */
  lemma AskerHoldsNothing(s: State, i: nat)
    requires Owned(s) && i < |s.workers| && s.workers[i].pc == Waited
    ensures multiset(Holders(s.workers))[s.workers[i].job] == 0
  {
    hide Owned;
    var x := s.workers[i].job;
    CountedOnce(s, x);
    HandsOnce(s, x);
    AskerCounted(s.workers, i);
  }

  lemma {:induction false} AskerCounted(ws: seq<Worker>, i: nat)
    requires i < |ws| && ws[i].pc == Waited
    ensures multiset(Holders(ws))[ws[i].job] < Total(ws).jobs[ws[i].job]
  {
    hide Holders, Total;
    var front, x := ws[..|ws| - 1], ws[i].job;
    LastCounts(ws, x);
    HoldersWithin(front, x);
    if i < |front| {
      AskerCounted(front, i);
    }
  }

  lemma {:induction false} HoldersWithin(ws: seq<Worker>, x: JobInfo)
    ensures multiset(Holders(ws))[x] <= Total(ws).jobs[x]
  {
    if ws == [] {
      NoHolders();
    } else {
      hide Holders, Total;
      HoldersWithin(ws[..|ws| - 1], x);
      LastCounts(ws, x);
    }
  }

  /** The last worker's share in the two counts. */
  lemma LastCounts(ws: seq<Worker>, x: JobInfo)
    requires ws != []
    ensures var w, front := ws[|ws| - 1], ws[..|ws| - 1];
            && multiset(Holders(ws))[x] == multiset(Holders(front))[x] + One(HoldsBudget(w.pc) && w.job == x)
            && Total(ws).jobs[x] == Total(front).jobs[x] + One(Owns(w.pc) && w.job == x)
  {
  }

  /** Denied or granted: a worker is denied exactly if its job's demand and what the granted jobs hold
      exceed a budget. */
  lemma DeniedIff(b: seq<State>, steps: seq<Step>, k: nat, x: JobInfo)
    requires Execution(b, steps) && k < |steps| && WorkerAt(b[k], steps[k], Waited, x)
    ensures var g, i := Holders(b[k].workers), steps[k].i;
            && i < |b[k + 1].workers|
            && b[k + 1].workers[i].pc == (if Crowds(g, x) then Denied else Granted)
            && (Crowds(g, x) <==> CpuOf(g) + x.cpu > 100 || MemoryOf(g) + x.memory > 4096)
            && (forall y | y in g :: y in b[k].jobs)
  {
    hide Safe, Holders, CpuOf, MemoryOf, Enabled;
    ReachableSafe(b, steps, k);
    CheckFinds(b[k], steps[k].i);
    CheckDecides(b[k], steps[k].i, steps[k].hint);
  }

  lemma CheckDecides(s: State, i: nat, hint: int)
    requires Enabled(s, Work(i, hint)) && s.workers[i].pc == Waited
    ensures var s', x := DoWork(s, i, hint), s.workers[i].job;
            && i < |s'.workers|
            && s'.workers[i].pc == if Fits(s.usedCpu, s.usedMemory, x.cpu, x.memory) then Granted else Denied
  {
  }

  // ---------------------------------------------------------------- failed jobs were denied

  /** A budget check of a worker of x that denies it. */
  predicate Denies(s: State, step: Step, x: JobInfo) {
    WorkerAt(s, step, Waited, x) && !Fits(s.usedCpu, s.usedMemory, x.cpu, x.memory)
  }

  predicate OnItsWayOut(w: Worker, x: JobInfo) {
    (w.pc == Denied || w.pc == Failing) && w.job == x
  }

  /** Marked FAILED, or with a worker that is about to mark it. */
  ghost predicate Refused(s: State, x: JobInfo) {
    x in s.failed || exists i :: 0 <= i < |s.workers| && OnItsWayOut(s.workers[i], x)
  }

  lemma WorkRefuses(s: State, i: nat, hint: int, x: JobInfo)
    requires Enabled(s, Work(i, hint))
    ensures Refused(DoWork(s, i, hint), x) <==> Refused(s, x) || Denies(s, Work(i, hint), x)
  {
    hide DoWork, Fits;
    var s' := DoWork(s, i, hint);
    WorkFrames(s, i, hint);
    WayOut(s, i, hint, x);
    forall k | 0 <= k < |s.workers| && k != i ensures s'.workers[k] == s.workers[k] {
    }
    if Refused(s, x) && x !in s'.failed {
      var k :| 0 <= k < |s.workers| && OnItsWayOut(s.workers[k], x);
      assert OnItsWayOut(s'.workers[k], x);
    }
    if Refused(s', x) && x !in s'.failed {
      var k :| 0 <= k < |s'.workers| && OnItsWayOut(s'.workers[k], x);
      assert k != i ==> OnItsWayOut(s.workers[k], x);
    }
  }

  /** One worker's own way: denied, about to be marked, marked. */
  lemma WayOut(s: State, i: nat, hint: int, x: JobInfo)
    requires Enabled(s, Work(i, hint))
    ensures var s', w := DoWork(s, i, hint), s.workers[i];
            && i < |s'.workers|
            && (x in s'.failed <==> x in s.failed || (w.pc == Failing && w.job == x))
            && (OnItsWayOut(s'.workers[i], x) <==>
                  (w.pc == Denied && w.job == x) || Denies(s, Work(i, hint), x))
  {
    hide DoWork, Decide, Fits;
    EndIs(s, i, hint);
    if HoldsSlotOrClaims(s.workers[i].pc) {
      WayOutInRun(s, i, hint, x);
    } else if s.workers[i].pc == Deciding {
      WayOutDecide(s, i);
    } else {
      WayOutAroundRun(s, i, hint, x);
    }
  }

  lemma WayOutAroundRun(s: State, i: nat, hint: int, x: JobInfo)
    requires Enabled(s, Work(i, hint)) && !HoldsSlotOrClaims(s.workers[i].pc) && s.workers[i].pc != Deciding
    ensures var s', w := DoWork(s, i, hint), s.workers[i];
            && i < |s'.workers|
            && (x in s'.failed <==> x in s.failed || (w.pc == Failing && w.job == x))
            && (OnItsWayOut(s'.workers[i], x) <==>
                  (w.pc == Denied && w.job == x) || Denies(s, Work(i, hint), x))
  {
    hide RunStep, Decide, Fits, Released;
  }

  lemma WayOutInRun(s: State, i: nat, hint: int, x: JobInfo)
    requires Enabled(s, Work(i, hint)) && HoldsSlotOrClaims(s.workers[i].pc)
    ensures var s' := DoWork(s, i, hint);
            i < |s'.workers| && s'.failed == s.failed && !OnItsWayOut(s'.workers[i], x)
  {
    hide AroundStep, FindSlot, StartSlot, QuantumExpired, RunStarted, TickedOnce;
  }

  lemma WayOutDecide(s: State, i: nat)
    requires HasWorker(s, i) && 0 <= s.jobs[s.workers[i].job].level < MLFQ_LEVELS
    ensures var s' := Decide(s, i);
            && |s'.workers| == |s.workers| && s'.failed == s.failed
            && (s'.workers[i].pc == Exited || s'.workers[i].pc == CompletePending)
  {
    hide Insert, Requeued;
  }

  lemma StepRefuses(s: State, step: Step, x: JobInfo)
    requires Enabled(s, step)
    ensures Refused(Apply(s, step), x) <==> Refused(s, x) || Denies(s, step, x)
  {
    hide DoWork, DoDispatch, DoAge, Insert, Fits;
    match step {
      case Work(i, hint) => WorkRefuses(s, i, hint, x);
      case Dispatch(sweep, hint) =>
        DispatchFrames(s, sweep, hint);
        if s.dispatcher.Hand? {
          DispatchSpawns(s, sweep, hint);
          SpawnRefuses(s, hint, x);
        }
      case Age => AgeFrames(s);
      case _ =>
    }
  }

  lemma SpawnRefuses(s: State, hint: int, x: JobInfo)
    requires s.dispatcher.Hand?
    ensures Refused(Spawn(s, s.dispatcher.job, hint), x) <==> Refused(s, x)
  {
    var s' := Spawn(s, s.dispatcher.job, hint);
    if i :| 0 <= i < |s.workers| && OnItsWayOut(s.workers[i], x) {
      assert OnItsWayOut(s'.workers[i], x);
    }
  }

  /** How often a budget check has denied x in the first k steps. */
  function Denials(b: seq<State>, steps: seq<Step>, k: nat, x: JobInfo): nat
    requires |b| == |steps| + 1 && k <= |steps|
  {
    if k == 0 then 0 else Denials(b, steps, k - 1, x) + One(Denies(b[k - 1], steps[k - 1], x))
  }

  lemma DenialEndsIt(s: State, step: Step, x: JobInfo)
    requires Safe(s) && Denies(s, step, x)
    ensures !Refused(s, x)
  {
    hide Owned, Accounts, Recorded;
    NotElsewhere(s, step.i);
  }

  /** FAILED, in every execution: a job is refused exactly if a budget check has denied it, and that
      happens to it once at most. */
  lemma {:induction false} FailedIffDenied(b: seq<State>, steps: seq<Step>, k: nat, x: JobInfo)
    requires Execution(b, steps) && k < |b|
    ensures Refused(b[k], x) <==> Denials(b, steps, k, x) == 1
    ensures Denials(b, steps, k, x) <= 1
    ensures x in b[k].failed ==> Denials(b, steps, k, x) == 1
  {
    hide Apply, Enabled, Denies, Safe;
    if k > 0 {
      FailedIffDenied(b, steps, k - 1, x);
      StepRefuses(b[k - 1], steps[k - 1], x);
      ReachableSafe(b, steps, k - 1);
      if Denies(b[k - 1], steps[k - 1], x) {
        DenialEndsIt(b[k - 1], steps[k - 1], x);
      }
    }
  }

  lemma {:induction false} DenialStep(b: seq<State>, steps: seq<Step>, k: nat, x: JobInfo) returns (j: nat)
    requires |b| == |steps| + 1 && k <= |steps| && Denials(b, steps, k, x) > 0
    ensures j < k && Denies(b[j], steps[j], x)
  {
    if Denies(b[k - 1], steps[k - 1], x) {
      j := k - 1;
    } else {
      j := DenialStep(b, steps, k - 1, x);
    }
  }

  lemma {:induction false} JobsStay(b: seq<State>, steps: seq<Step>, j: nat, k: nat)
    requires Execution(b, steps) && j <= k < |b|
    ensures b[j].jobs.Keys <= b[k].jobs.Keys
  {
    hide Apply, Enabled, StartsSweep;
    if j < k {
      JobsStay(b, steps, j, k - 1);
      StepSweeps(b[k - 1], steps[k - 1]);
    }
  }

  // ---------------------------------------------------------------- which sets of jobs are safe

  predicate Among(g: seq<JobInfo>, all: set<JobInfo>) {
    forall y | y in g :: y in all
  }

  /** Some execution in which only jobs of the set are submitted fails x. */
  ghost predicate CanFail(x: JobInfo, all: set<JobInfo>) {
    exists s: State :: FailsIn(s, x, all)
  }

  ghost predicate FailsIn(s: State, x: JobInfo, all: set<JobInfo>) {
    Reachable(s) && s.jobs.Keys <= all && x in s.failed
  }

  lemma FailedWasCrowded(b: seq<State>, steps: seq<Step>, k: nat, x: JobInfo) returns (g: seq<JobInfo>)
    requires Execution(b, steps) && k < |b| && x in b[k].failed
    ensures x in b[k].jobs && Crowds(g, x) && Among(g, b[k].jobs.Keys)
  {
    hide Apply, Enabled, Safe, Holders, CpuOf, MemoryOf, Distinct, Denials;
    FailedIffDenied(b, steps, k, x);
    var j := DenialStep(b, steps, k, x);
    ReachableSafe(b, steps, j);
    CheckFinds(b[j], steps[j].i);
    JobsStay(b, steps, j, k);
    AskerSubmitted(b[j], steps[j].i);
    g := Holders(b[j].workers);
  }

  lemma AskerSubmitted(s: State, i: nat)
    requires Safe(s) && i < |s.workers|
    ensures s.workers[i].job in s.jobs
  {
    hide Accounts, Recorded, Copies;
  }

  /** The jobs of g were admitted one after the other and hold their budgets. */
  ghost predicate Holding(s: State, g: seq<JobInfo>) {
    && Calm(s) && s.permits == MAX_CONCURRENT - |g|
    && s.usedCpu == CpuOf(g) && s.usedMemory == MemoryOf(g)
    && s.jobs.Keys == set y | y in g
  }

  lemma HoldNone()
    ensures Holding(Init(), [])
  {
    CalmInit();
  }

  lemma HoldOne(s: State, g: seq<JobInfo>, x: JobInfo)
    requires Holding(s, g) && |g| + 1 < MAX_CONCURRENT && x !in g && x.cpu >= 0 && x.memory >= 0
    requires Fits(CpuOf(g), MemoryOf(g), x.cpu, x.memory)
    ensures Holding(Admitted(s, x), g + [x])
  {
    hide Calm, Admitted, CpuOf, MemoryOf;
    CalmFits(s, g, x);
    AdmittedIs(s, x);
    SumsAppend(g, x);
  }

  lemma CalmFits(s: State, g: seq<JobInfo>, x: JobInfo)
    requires Holding(s, g) && |g| < MAX_CONCURRENT && x !in g && x.cpu >= 0 && x.memory >= 0
    requires Fits(CpuOf(g), MemoryOf(g), x.cpu, x.memory)
    ensures Calm(Admitted(s, x))
  {
    hide Calm, Admitted, CpuOf, MemoryOf;
    Admit(s, x);
  }

  lemma {:induction false} HoldAll(g: seq<JobInfo>) returns (s: State)
    requires |g| < MAX_CONCURRENT && Distinct(g) && Fits(0, 0, CpuOf(g), MemoryOf(g))
    requires forall y | y in g :: y.cpu >= 0 && y.memory >= 0
    ensures Holding(s, g)
  {
    hide Holding, CpuOf, MemoryOf;
    if g == [] {
      s := Init();
      HoldNone();
    } else {
      var front, x := g[..|g| - 1], g[|g| - 1];
      assert g == front + [x];
      SumsAppend(front, x);
      s := HoldAll(front);
      HoldOne(s, front, x);
      s := Admitted(s, x);
    }
  }

  function PcOf(s: State, i: nat, pc: Pc): State
    requires i < |s.workers|
  {
    s.(workers := s.workers[i := s.workers[i].(pc := pc)])
  }

  lemma Deny(s: State, i: nat)
    requires Reachable(s) && Enabled(s, Work(i, -1)) && s.workers[i].pc == Waited
    requires !Fits(s.usedCpu, s.usedMemory, s.workers[i].job.cpu, s.workers[i].job.memory)
    ensures Reachable(PcOf(s, i, Denied))
  {
    hide Reachable;
    Next(s, Work(i, -1), PcOf(s, i, Denied));
  }

  lemma GiveUp(s: State, i: nat) returns (s': State)
    requires Reachable(s) && Enabled(s, Work(i, -1)) && s.workers[i].pc == Denied
    ensures Reachable(s') && s.workers[i].job in s'.failed && s'.jobs.Keys == s.jobs.Keys
  {
    hide Reachable;
    var t := PcOf(s, i, Failing).(permits := s.permits + 1);
    Next(s, Work(i, -1), t);
    s' := MarkFailed(t, i);
    Next(t, Work(i, -1), s');
  }

  lemma FailLast(s: State, g: seq<JobInfo>, x: JobInfo) returns (s': State)
    requires Holding(s, g) && Crowds(g, x) && x.cpu >= 0 && x.memory >= 0
    ensures Reachable(s') && x in s'.failed && s'.jobs.Keys == (set y | y in g) + {x}
  {
    hide Reachable, CpuOf, MemoryOf, Distinct;
    Ask(s, x);
    var t, i := Asking(s, x), |s.workers|;
    Deny(t, i);
    s' := GiveUp(PcOf(t, i, Denied), i);
  }

  /** Exactly the jobs that can fail: x can be denied if and only if at most three other jobs of the
      set can hold budgets together that leave too little for x. A submitter can check this before any
      job is handed in. It includes the job that fits no machine at all, with no other jobs. */
  lemma CanFailIff(x: JobInfo, all: set<JobInfo>)
    requires forall y | y in all :: y.cpu >= 0 && y.memory >= 0
    ensures CanFail(x, all) <==> x in all && exists g: seq<JobInfo> :: Crowds(g, x) && Among(g, all)
  {
    hide Crowds, Reachable;
    if CanFail(x, all) {
      var s: State :| FailsIn(s, x, all);
      var b: seq<State>, steps: seq<Step> := ExecutionOf(s);
      var g := FailedWasCrowded(b, steps, |steps|, x);
    }
    if x in all && exists g: seq<JobInfo> :: Crowds(g, x) && Among(g, all) {
      var g: seq<JobInfo> :| Crowds(g, x) && Among(g, all);
      CrowdFits(g, x);
      var s := HoldAll(g);
      var s' := FailLast(s, g, x);
      assert FailsIn(s', x, all);
    }
  }

  lemma CrowdFits(g: seq<JobInfo>, x: JobInfo)
    requires Crowds(g, x)
    ensures |g| < MAX_CONCURRENT && Distinct(g) && Fits(0, 0, CpuOf(g), MemoryOf(g))
  {
  }

  lemma ExecutionOf(s: State) returns (b: seq<State>, steps: seq<Step>)
    requires Reachable(s)
    ensures Execution(b, steps) && b[|steps|] == s
  {
    hide Apply, Enabled, Init;
    b, steps :| Execution(b, steps) && b[|steps|] == s;
  }

  // ---------------------------------------------------------------- instances

  lemma {:induction false} SmallAddUp(g: seq<JobInfo>, cpu: nat, memory: nat)
    requires forall y | y in g :: y.cpu <= cpu && y.memory <= memory
    ensures CpuOf(g) <= |g| * cpu && MemoryOf(g) <= |g| * memory
  {
    if g != [] {
      SmallAddUp(g[..|g| - 1], cpu, memory);
    }
  }

  /** The quarter rule: if no submitted job needs more than a quarter of either budget, none fails. */
  lemma QuarterNeverFails(b: seq<State>, steps: seq<Step>, k: nat)
    requires Execution(b, steps) && k < |b|
    requires forall y | y in b[k].jobs :: y.cpu <= TOTAL_CPU / MAX_CONCURRENT && y.memory <= TOTAL_MEMORY / MAX_CONCURRENT
    ensures b[k].failed == {}
  {
    hide Execution, CpuOf, MemoryOf, Distinct;
    if x :| x in b[k].failed {
      var g := FailedWasCrowded(b, steps, k, x);
      SmallAddUp(g, TOTAL_CPU / MAX_CONCURRENT, TOTAL_MEMORY / MAX_CONCURRENT);
      assert false;
    }
  }

  lemma OneCrowds(y: JobInfo, x: JobInfo)
    requires x != y && Fits(0, 0, y.cpu, y.memory) && !Fits(y.cpu, y.memory, x.cpu, x.memory)
    ensures Crowds([y], x) && Among([y], {x, y})
  {
    hide CpuOf, MemoryOf, Holders, Total;
    NoHolders();
    SumsAppend([], y);
    assert [] + [y] == [y];
  }

  /** Of two jobs that fit the machine one by one and not together, either can fail. */
  lemma PairCanFail(x: JobInfo, y: JobInfo)
    requires x != y && x.cpu >= 0 && x.memory >= 0 && y.cpu >= 0 && y.memory >= 0
    requires Fits(0, 0, x.cpu, x.memory) && Fits(0, 0, y.cpu, y.memory) && !Fits(x.cpu, x.memory, y.cpu, y.memory)
    ensures CanFail(x, {x, y}) && CanFail(y, {x, y})
  {
    hide CanFail, Crowds;
    OneCrowds(y, x);
    OneCrowds(x, y);
    CanFailIff(x, {x, y});
    CanFailIff(y, {x, y});
  }

  /** Two jobs of 60 per cent CPU, submitted one after the other: some execution fails the second,
      which would fit an idle machine. */
  lemma FeasibleJobFails()
    ensures var x, y := JobInfo(2, Critical, 60, 64, 10, 1), JobInfo(1, Low, 60, 64, 10, 0);
            Fits(0, 0, x.cpu, x.memory) && CanFail(x, {x, y})
  {
    hide CanFail;
    PairCanFail(JobInfo(2, Critical, 60, 64, 10, 1), JobInfo(1, Low, 60, 64, 10, 0));
  }
}
