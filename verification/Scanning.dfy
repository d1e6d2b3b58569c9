/**
 The preemption scan and the pop in every interleaving: whom a scan must hit, whom it may hit, that it
 does hit somebody, and which job a pop takes.
 */
module Scanning {
  import opened Jobs
  import opened StableQueue
  import opened MlfqSpec
  import opened Protocol
  import opened WorkerTally
  import opened Accounting
  import opened Ownership
  import opened JobRecords
  import opened RunInvariant
  import opened Safety
  import opened Sweeps
  import opened BetterCandidate
  import opened History
  import opened Preemption
  import opened Reaching
  import opened Rounds
  import opened Promotion

  // ---------------------------------------------------------------- a queued job stays where it is

  /** No step moves a job from one level to another: between two levels it is in the buffer. */
  lemma NoJump(s: State, step: Step, l: nat, m: nat, y: JobInfo)
    requires Enabled(s, step) && Safe(s) && l < MLFQ_LEVELS && y in s.queues[l]
    requires m < MLFQ_LEVELS && y in Apply(s, step).queues[m]
    ensures m == l
  {
    hide DoWork, DoDispatch, DoAge, Safe, Insert;
    NotInBuffer(s, l, y);
    match step {
      case Work(i, hint) =>
        SafeOwned(s);
        WorkerQueues(s, i, hint, y);
      case Dispatch(sweep, hint) => DispatchOnlyTakes(s, sweep, hint);
      case Age =>
        SafeScan(s);
        AgeAddsBuffered(s, m, y);
      case PushNew(x) =>
        WaiterIsNotCounted(s, l, y);
        InsertMembers(s.queues[0], x, y);
      case _ =>
    }
  }

  lemma SafeOwned(s: State)
    requires Safe(s)
    ensures Owned(s) && Accounts(s) && Recorded(s) && ScanOk(s)
  {
    hide Owned, Accounts, Recorded, ScanOk;
  }

  lemma DispatchOnlyTakes(s: State, sweep: bool, hint: int)
    requires DispatcherReady(s)
    ensures forall m, y | 0 <= m < MLFQ_LEVELS && y in DoDispatch(s, sweep, hint).queues[m] :: y in s.queues[m]
  {
    hide TickAll, ProbeLevel, ProbeHead, ScanSlot, TryPreempt;
    DispatchFrames(s, sweep, hint);
  }

  lemma AgeAddsBuffered(s: State, m: nat, y: JobInfo)
    requires AgingReady(s) && m < MLFQ_LEVELS && y in DoAge(s).queues[m]
    ensures y in s.queues[m] || y in BufferOf(s.aging)
  {
    hide Insert, Taken, Kept, AgeFlags, StillQueued;
    if s.aging.DrainFrom? {
      DrainMembers(s.queues[s.aging.lvl], AgeFlags(s.jobs, s.queues[s.aging.lvl]));
    } else if s.aging.Promote? && s.aging.buf != [] {
      InsertMembers(s.queues[s.aging.lvl - 1], s.aging.buf[0], y);
    }
  }

  // ---------------------------------------------------------------- whom a scan must hit

  /** The job y, queued at level `at`, should displace x: its level is better, or the same and its
      priority higher. */
  predicate Displaces(s: State, y: JobInfo, at: nat, x: JobInfo) {
    && at < MLFQ_LEVELS && y in s.queues[at] && x in s.jobs
    && (at < s.jobs[x].level || (at == s.jobs[x].level && Outranks(y.priority, x.priority)))
  }

  predicate Displaced(s: State, y: JobInfo, x: JobInfo) {
    Displaces(s, y, 0, x) || Displaces(s, y, 1, x) || Displaces(s, y, 2, x)
  }

  /** The scan has not passed the slot of x, or is at it and will still meet what is queued at `at`. */
  predicate NotPassed(d: Dispatcher, slot: nat, x: JobInfo, at: nat) {
    match d
    case Scan(j) => j <= slot
    case Probe(j, y, level, lvl) => j < slot || (j == slot && y == x && lvl <= at)
    case ProbeTop(j, y, level) => j < slot || (j == slot && y == x && level == at)
    case Cas(j, y) => j < slot || (j == slot && y == x)
    case CountWin(j, _) => j < slot
    case _ => false
  }

  lemma ScanMeets(s: State, sweep: bool, hint: int, slot: nat, x: JobInfo, y: JobInfo, at: nat)
    requires Enabled(s, Dispatch(sweep, hint)) && ScanOk(s) && AllSorted(InfoKey, s.queues)
    requires slot < MAX_CONCURRENT && s.active[slot].Held? && s.active[slot].job == x
    requires Displaces(s, y, at, x) && s.jobs[x].status == Running && NotPassed(s.dispatcher, slot, x, at)
    ensures Wins(s, Dispatch(sweep, hint), x) || NotPassed(Apply(s, Dispatch(sweep, hint)).dispatcher, slot, x, at)
  {
    hide DoWork, DoAge, DoRegister, PopLevel, Spawn, SweepLevel, AllSorted;
    if s.dispatcher.ProbeTop? && s.dispatcher.slot == slot {
      HeadOutranks(s, y, at, x);
    }
  }

  /** The head of a sorted level outranks whatever some job of the level outranks. */
  lemma HeadOutranks(s: State, y: JobInfo, at: nat, x: JobInfo)
    requires AllSorted(InfoKey, s.queues) && at < MLFQ_LEVELS && y in s.queues[at]
    ensures Outranks(y.priority, x.priority) ==> s.queues[at][0].priority.Value() > x.priority.Value()
  {
    var q := s.queues[at];
    var i :| 0 <= i < |q| && q[i] == y;
    assert i > 0 ==> !Before(InfoKey(q[i]), InfoKey(q[0]));
    ValueOrders(y.priority, x.priority);
  }

  lemma StepMeets(s: State, step: Step, slot: nat, x: JobInfo, y: JobInfo, at: nat)
    requires Enabled(s, step) && Safe(s) && HintsOk(s)
    requires slot < MAX_CONCURRENT && s.active[slot].Held? && s.active[slot].job == x
    requires Displaces(s, y, at, x) && s.jobs[x].status == Running && NotPassed(s.dispatcher, slot, x, at)
    ensures Wins(s, step, x) || NotPassed(Apply(s, step).dispatcher, slot, x, at)
  {
    hide Apply, Enabled, Safe, HintsOk, ScanOk, NotPassed, Displaces, Wins;
    if step.Dispatch? {
      SafeOwned(s);
      HintsSorted(s);
      ScanMeets(s, step.sweep, step.hint, slot, x, y, at);
    } else {
      OnlyDispatchMoves(s, step);
    }
  }

  ghost predicate WonWithin(b: seq<State>, steps: seq<Step>, lo: nat, hi: nat, x: JobInfo)
    requires |b| == |steps| + 1 && hi <= |steps|
  {
    exists j | lo <= j < hi :: Wins(b[j], steps[j], x)
  }

  /** One scan, from its first slot to the end, in which x sits in the table, and is Running until a
      request is won against it, while y is queued where it should displace x. */
  ghost predicate ScanOver(b: seq<State>, steps: seq<Step>, lo: nat, hi: nat, slot: nat, x: JobInfo, y: JobInfo) {
    && |b| == |steps| + 1 && lo < hi <= |steps|
    && b[lo].dispatcher == Scan(0) && b[hi].dispatcher == PopFrom(0)
    && (forall k | lo <= k < hi :: Locked(b[k].dispatcher))
    && slot < MAX_CONCURRENT && b[lo].active[slot].Held? && b[lo].active[slot].job == x
    && (forall k | lo <= k < hi :: Displaced(b[k], y, x))
    && (forall k | lo <= k < hi :: x in b[k].jobs && (b[k].jobs[x].status == Running || WonWithin(b, steps, lo, k, x)))
  }

  lemma {:induction false} ScanGetsThere(b: seq<State>, steps: seq<Step>, lo: nat, k: nat, hi: nat, slot: nat,
                                         x: JobInfo, y: JobInfo, at: nat)
    requires Execution(b, steps) && ScanOver(b, steps, lo, hi, slot, x, y) && lo <= k < hi
    requires Displaces(b[lo], y, at, x) && !WonWithin(b, steps, lo, hi, x)
    ensures b[k].active[slot] == b[lo].active[slot] && Displaces(b[k], y, at, x)
    ensures NotPassed(b[k].dispatcher, slot, x, at)
  {
    hide Apply, Enabled, Safe, HintsOk, Displaced, Displaces, Wins, Locked;
    if k == lo {
      StartsBelow(slot, x, at);
    } else {
      ScanGetsThere(b, steps, lo, k - 1, hi, slot, x, y, at);
      var s, step := b[k - 1], steps[k - 1];
      ReachableSafe(b, steps, k - 1);
      ReachableHints(b, steps, k - 1);
      TableStandsStill(s, step);
      StepMeets(s, step, slot, x, y, at);
      assert Displaced(b[k], y, x);
      StillDisplaces(s, step, x, y, at);
    }
  }

  lemma StartsBelow(slot: nat, x: JobInfo, at: nat)
    ensures NotPassed(Scan(0), slot, x, at)
  {
  }

  lemma StillDisplaces(s: State, step: Step, x: JobInfo, y: JobInfo, at: nat)
    requires Enabled(s, step) && Safe(s) && Displaces(s, y, at, x) && Displaced(Apply(s, step), y, x)
    ensures Displaces(Apply(s, step), y, at, x)
  {
    hide Apply, Enabled, Safe, Displaced;
    var m := DisplacedFrom(Apply(s, step), y, x);
    NoJump(s, step, at, m, y);
  }

  lemma DisplacedFrom(s: State, y: JobInfo, x: JobInfo) returns (at: nat)
    requires Displaced(s, y, x)
    ensures Displaces(s, y, at, x)
  {
    at := if Displaces(s, y, 0, x) then 0 else if Displaces(s, y, 1, x) then 1 else 2;
  }

  /** The scan is complete: in whatever interleaving, it wins a request against x. */
  lemma ScanHits(b: seq<State>, steps: seq<Step>, lo: nat, hi: nat, slot: nat, x: JobInfo, y: JobInfo)
    requires Execution(b, steps) && ScanOver(b, steps, lo, hi, slot, x, y)
    ensures WonWithin(b, steps, lo, hi, x)
  {
    hide Apply, Enabled, Safe, HintsOk, Displaced, Displaces, Wins, Locked;
    if !WonWithin(b, steps, lo, hi, x) {
      assert Displaced(b[lo], y, x);
      var at := DisplacedFrom(b[lo], y, x);
      ScanGetsThere(b, steps, lo, hi - 1, hi, slot, x, y, at);
      ReachableSafe(b, steps, hi - 1);
      ReachableHints(b, steps, hi - 1);
      StepMeets(b[hi - 1], steps[hi - 1], slot, x, y, at);
      assert false;
    }
  }

  // ---------------------------------------------------------------- whom a scan may hit

  lemma ProbeSaw(s: State, sweep: bool, hint: int, x: JobInfo) returns (l: nat, y: JobInfo)
    requires Enabled(s, Dispatch(sweep, hint)) && ScanOk(s) && !s.dispatcher.Cas?
    requires DoDispatch(s, sweep, hint).dispatcher.Cas? && DoDispatch(s, sweep, hint).dispatcher.job == x
    ensures Locked(s.dispatcher) && Displaces(s, y, l, x)
    ensures x in DoDispatch(s, sweep, hint).jobs && DoDispatch(s, sweep, hint).jobs[x].level == s.jobs[x].level
  {
    hide TickAll;
    ProbesOnly(s, sweep, hint);
    l := ProbedLevel(s.dispatcher);
    y := s.queues[l][0];
    ValueOrders(y.priority, x.priority);
  }

  lemma {:induction false} CasSince(b: seq<State>, steps: seq<Step>, k: nat, slot: nat, x: JobInfo)
    returns (j: nat, l: nat, y: JobInfo)
    requires Execution(b, steps) && k < |b| && b[k].dispatcher == Cas(slot, x)
    ensures j < k && Locked(b[j].dispatcher) && Displaces(b[j], y, l, x)
    ensures x in b[k].jobs && b[k].jobs[x].level == b[j].jobs[x].level
    ensures forall i | j < i <= k :: b[i].dispatcher == Cas(slot, x)
    decreases k
  {
    hide Apply, Enabled, Safe, Displaces, Locked;
    assert k > 0 by {
      StartsAtTop();
    }
    ReachableSafe(b, steps, k - 1);
    var s, step := b[k - 1], steps[k - 1];
    if s.dispatcher == Cas(slot, x) {
      j, l, y := CasSince(b, steps, k - 1, slot, x);
      TargetStands(s, step, x);
    } else {
      NewTarget(s, step);
      SafeScan(s);
      l, y := ProbedStep(s, step, x);
      j := k - 1;
    }
  }

  lemma ProbedStep(s: State, step: Step, x: JobInfo) returns (l: nat, y: JobInfo)
    requires Enabled(s, step) && step.Dispatch? && ScanOk(s) && !s.dispatcher.Cas?
    requires Apply(s, step).dispatcher.Cas? && Apply(s, step).dispatcher.job == x
    ensures Locked(s.dispatcher) && Displaces(s, y, l, x)
    ensures x in Apply(s, step).jobs && Apply(s, step).jobs[x].level == s.jobs[x].level
  {
    hide ScanOk, DoDispatch;
    l, y := ProbeSaw(s, step.sweep, step.hint, x);
  }

  lemma StartsAtTop()
    ensures Init().dispatcher == Top
  {
  }

  /** The scan is sound: when a request is won against x, then since the dispatcher looked at the levels
      for x it has done nothing else, and it saw there a job that should displace x. */
  lemma HitWasDisplaced(b: seq<State>, steps: seq<Step>, k: nat, x: JobInfo) returns (j: nat, l: nat, y: JobInfo)
    requires Execution(b, steps) && k < |steps| && Wins(b[k], steps[k], x)
    ensures j < k && Locked(b[j].dispatcher) && Displaces(b[j], y, l, x)
    ensures x in b[k].jobs && b[k].jobs[x].level == b[j].jobs[x].level
    ensures forall i | j < i <= k :: b[i].dispatcher == b[k].dispatcher
  {
    hide Apply, Enabled, Init, Displaces, Locked;
    j, l, y := CasSince(b, steps, k, b[k].dispatcher.slot, x);
  }

  // ---------------------------------------------------------------- requests are won

  /** The worker of x, the only one, runs its job in slot 0. */
  function OneRuns(x: JobInfo): State {
    var s := Admitted(Init(), x);
    s.(active := [Held(x, 0), Empty, Empty, Empty], workers := [Worker(x, LoopTest, 0, false)],
       jobs := s.jobs[x := RunStarted(s.jobs[x]).(status := Running)])
  }

  lemma RunOne(x: JobInfo)
    requires x.cpu >= 0 && x.memory >= 0 && Fits(0, 0, x.cpu, x.memory)
    ensures Reachable(OneRuns(x))
  {
    hide Reachable, FindSlot;
    CalmInit();
    Admit(Init(), x);
    var s := Admitted(Init(), x);
    FindSlotNearest([false, false, false, false], 0);
    var t := s.(active := [Held(x, 0), Empty, Empty, Empty], workers := [Worker(x, Claimed, 0, false)],
                jobs := s.jobs[x := RunStarted(s.jobs[x])]);
    assert s.workers == [Worker(x, Granted, -1, false)];
    Next(s, Work(0, -1), t);
    assert t.jobs[x := t.jobs[x].(status := Running)] == OneRuns(x).jobs;
    Next(t, Work(0, -1), OneRuns(x));
  }

  /** The dispatcher has compared and is about to hit x. */
  function AboutToHit(x: JobInfo, y: JobInfo): State {
    Submitted(OneRuns(x), y).(dispatcher := Cas(0, x), hints := {Hint(0, x.priority.Value(), y, 0)})
  }

  lemma ReachHit(x: JobInfo, y: JobInfo)
    requires x != y && x.cpu >= 0 && x.memory >= 0 && y.cpu >= 0 && y.memory >= 0
    requires Fits(0, 0, x.cpu, x.memory) && Outranks(y.priority, x.priority)
    ensures Reachable(AboutToHit(x, y))
  {
    hide Reachable;
    RunOne(x);
    SubmitOne(OneRuns(x), y);
    var s := Submitted(OneRuns(x), y);
    ValueOrders(y.priority, x.priority);
    Next(s, Dispatch(false, -1), s.(dispatcher := Scan(0)));
    Next(s.(dispatcher := Scan(0)), Dispatch(false, -1), s.(dispatcher := Probe(0, x, 0, 0)));
    Next(s.(dispatcher := Probe(0, x, 0, 0)), Dispatch(false, -1), s.(dispatcher := ProbeTop(0, x, 0)));
    Next(s.(dispatcher := ProbeTop(0, x, 0)), Dispatch(false, -1), AboutToHit(x, y));
  }

  /** Requests are won: of any two jobs, of which the one fits the machine and the other outranks it, the
      second can preempt the first. */
  lemma PreemptionHappens(x: JobInfo, y: JobInfo) returns (b: seq<State>, steps: seq<Step>)
    requires x != y && x.cpu >= 0 && x.memory >= 0 && y.cpu >= 0 && y.memory >= 0
    requires Fits(0, 0, x.cpu, x.memory) && Outranks(y.priority, x.priority)
    ensures Execution(b, steps) && steps != [] && Wins(b[|steps| - 1], steps[|steps| - 1], x)
  {
    hide Apply, Init;
    ReachHit(x, y);
    var s, step := AboutToHit(x, y), Dispatch(false, -1);
    assert Enabled(s, step) && Wins(s, step, x);
    hide Enabled, Wins;
    b, steps :| Execution(b, steps) && b[|steps|] == s;
    b, steps := b + [Apply(s, step)], steps + [step];
  }

  // ---------------------------------------------------------------- pops

  lemma PopGoesDown(s: State, step: Step)
    requires Enabled(s, step) && Apply(s, step).dispatcher.PopFrom?
    ensures var d, d' := s.dispatcher, Apply(s, step).dispatcher;
            || d == d'
            || d'.lvl == 0
            || (step.Dispatch? && d.PopFrom? && d.lvl + 1 == d'.lvl && d.lvl < MLFQ_LEVELS && s.queues[d.lvl] == [])
  {
    hide DoWork, DoAge, DoDispatch, DoRegister;
    if step.Dispatch? {
      DispatchGoesDown(s, step.sweep, step.hint);
    } else {
      OnlyDispatchMoves(s, step);
    }
  }

  lemma DispatchGoesDown(s: State, sweep: bool, hint: int)
    requires DispatcherReady(s) && DoDispatch(s, sweep, hint).dispatcher.PopFrom?
    ensures var d, d' := s.dispatcher, DoDispatch(s, sweep, hint).dispatcher;
            d'.lvl == 0 || (d.PopFrom? && d.lvl + 1 == d'.lvl && d.lvl < MLFQ_LEVELS && s.queues[d.lvl] == [])
  {
    hide TickAll;
  }

  /** When the pop has come to a level, it has found each level above it empty. */
  lemma {:induction false} PopSawEmpty(b: seq<State>, steps: seq<Step>, k: nat, l: nat) returns (j: nat)
    requires Execution(b, steps) && k < |b| && b[k].dispatcher.PopFrom? && l < b[k].dispatcher.lvl
    ensures j < k && l < MLFQ_LEVELS && b[j].dispatcher == PopFrom(l) && steps[j].Dispatch? && b[j].queues[l] == []
    ensures forall i | j <= i <= k :: b[i].dispatcher.PopFrom?
    decreases k
  {
    hide Apply, Enabled;
    assert k > 0 by {
      StartsAtTop();
    }
    PopGoesDown(b[k - 1], steps[k - 1]);
    if b[k - 1].dispatcher != b[k].dispatcher && b[k - 1].dispatcher.lvl == l {
      j := k - 1;
    } else {
      j := PopSawEmpty(b, steps, k - 1, l);
    }
  }

  lemma PopIs(s: State, step: Step)
    requires Enabled(s, step) && step.Dispatch? && s.dispatcher.PopFrom? && AllSorted(InfoKey, s.queues)
    ensures s.dispatcher.lvl < MLFQ_LEVELS
    ensures var l, d' := s.dispatcher.lvl, Apply(s, step).dispatcher;
            && (s.queues[l] == [] ==> d' == if l + 1 < MLFQ_LEVELS then PopFrom(l + 1) else Top)
            && (s.queues[l] != [] ==>
                  && d'.Hand? && d'.job in s.queues[l]
                  && (forall y | y in s.queues[l] :: !Outranks(y.priority, d'.job.priority))
                  && (forall y | y in s.queues[l] && y.priority == d'.job.priority :: d'.job.submitTime <= y.submitTime)
                  && Apply(s, step).queues == s.queues[l := s.queues[l][1..]])
  {
    hide AllSorted;
    var l := s.dispatcher.lvl;
    var q := s.queues[l];
    if q != [] {
      HeadIsFirstInfo(q) by {
        assert Sorted(InfoKey, q) by {
          LevelSorted(s, l);
        }
      }
    }
  }

  lemma LevelSorted(s: State, l: nat)
    requires AllSorted(InfoKey, s.queues) && l < MLFQ_LEVELS
    ensures Sorted(InfoKey, s.queues[l])
  {
  }

  lemma HeadIsFirstInfo(q: seq<JobInfo>)
    requires Sorted(InfoKey, q) && q != []
    ensures forall y | y in q :: !Outranks(y.priority, q[0].priority)
    ensures forall y | y in q && y.priority == q[0].priority :: q[0].submitTime <= y.submitTime
  {
    forall y | y in q
      ensures !Outranks(y.priority, q[0].priority)
      ensures y.priority == q[0].priority ==> q[0].submitTime <= y.submitTime
    {
      ValueOrders(y.priority, q[0].priority);
      var i :| 0 <= i < |q| && q[i] == y;
      assert i > 0 ==> !Before(InfoKey(q[i]), InfoKey(q[0]));
    }
  }

  /** The pop under concurrency: it looks at the levels from the top, each under its own lock. It takes
      a job exactly if the level that it looks at is not empty, and then one of the highest priority
      there, of these the one submitted first; it gives up only when it has found every level empty. */
  lemma PopTakesHighest(b: seq<State>, steps: seq<Step>, k: nat)
    requires Execution(b, steps) && k < |steps| && steps[k].Dispatch? && b[k].dispatcher.PopFrom?
    ensures b[k].dispatcher.lvl < MLFQ_LEVELS
    ensures var l, d' := b[k].dispatcher.lvl, b[k + 1].dispatcher;
            && (b[k].queues[l] == [] ==> d' == if l + 1 < MLFQ_LEVELS then PopFrom(l + 1) else Top)
            && (b[k].queues[l] != [] ==>
                  && d'.Hand? && d'.job in b[k].queues[l] && d'.job !in b[k + 1].queues[l]
                  && (forall y | y in b[k].queues[l] :: !Outranks(y.priority, d'.job.priority))
                  && (forall y | y in b[k].queues[l] && y.priority == d'.job.priority :: d'.job.submitTime <= y.submitTime))
    ensures forall l | 0 <= l < b[k].dispatcher.lvl ::
              exists j | 0 <= j < k :: b[j].dispatcher == PopFrom(l) && b[j].queues[l] == []
                                       && forall i | j <= i <= k :: b[i].dispatcher.PopFrom?
  {
    hide Apply, Enabled, Safe, HintsOk;
    ReachableHints(b, steps, k);
    HintsSorted(b[k]);
    PopIs(b[k], steps[k]);
    ReachableSafe(b, steps, k + 1);
    if b[k + 1].dispatcher.Hand? {
      InHandAlone(b[k + 1]);
    }
    forall l | 0 <= l < b[k].dispatcher.lvl
      ensures exists j | 0 <= j < k :: b[j].dispatcher == PopFrom(l) && b[j].queues[l] == []
                                       && forall i | j <= i <= k :: b[i].dispatcher.PopFrom?
    {
      var j := PopSawEmpty(b, steps, k, l);
    }
  }

  lemma InHandAlone(s: State)
    requires Safe(s) && s.dispatcher.Hand?
    ensures forall l | 0 <= l < MLFQ_LEVELS :: s.dispatcher.job !in s.queues[l]
  {
    hide Accounts, Recorded, Total;
    var x := s.dispatcher.job;
    assert Copies(s, x) == One(x in s.jobs);
    forall l | 0 <= l < MLFQ_LEVELS ensures x !in s.queues[l] {
      assert x !in multiset(s.queues[l]);
    }
  }
}
