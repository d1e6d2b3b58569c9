/**
 Progress of the workers, and what is left when the scheduler has been stopped.
 */
module Shutdown {
  import opened Jobs
  import opened StableQueue
  import opened MlfqSpec
  import opened Protocol
  import opened WorkerTally
  import opened Accounting
  import opened Ownership
  import opened JobRecords
  import opened Reaching
  import opened RunInvariant
  import opened Safety

  ghost predicate SomeWorkerCanMove(s: State) {
    exists k: nat :: k < |s.workers| && WorkerReady(s, s.workers[k])
  }

  ghost predicate SomeWorkerLives(s: State) {
    exists k: nat :: k < |s.workers| && s.workers[k].pc != Exited
  }

  // ---------------------------------------------------------------- progress

  lemma {:induction false} HolderExists(ws: seq<Worker>) returns (k: nat)
    requires Total(ws).permits > 0
    ensures k < |ws| && HoldsPermit(ws[k].pc)
  {
    var n := |ws| - 1;
    if HoldsPermit(ws[n].pc) {
      k := n;
    } else {
      k := HolderExists(ws[..n]);
    }
  }

  /** A live worker can move unless it waits for a permit or for active_mutex_. */
  lemma ReadyUnlessWaiting(s: State, i: nat)
    requires Safe(s) && i < |s.workers| && s.workers[i].pc != Exited
    requires s.workers[i].pc == Spawned ==> s.permits > 0
    requires s.workers[i].pc == Granted || s.workers[i].pc == Clearing ==> !Locked(s.dispatcher)
    ensures WorkerReady(s, s.workers[i])
  {
    hide Owned, Balanced, RecordOk;
    OwnerIsSubmitted(s, i);
    LevelInRange(s, s.workers[i].job);
  }

  /** The references that a step follows always point to jobs: a submitter, the aging thread and the
      dispatcher never wait, and a live worker waits for a permit or for active_mutex_ alone. */
  lemma OnlyWaitsBlock(s: State, sweep: bool, hint: int)
    requires Safe(s) && -1 <= hint < MAX_CONCURRENT
    ensures forall x | x in s.registered :: Enabled(s, Count(x))
    ensures forall x | x in s.counted :: Enabled(s, PushNew(x))
    ensures !s.aging.AgingStopped? ==> Enabled(s, Age)
    ensures !s.dispatcher.Stopped? ==> Enabled(s, Dispatch(sweep, hint))
    ensures forall i: nat | i < |s.workers| && s.workers[i].pc != Exited ::
              Enabled(s, Work(i, hint)) <==>
                && (s.workers[i].pc == Spawned ==> s.permits > 0)
                && (WaitsForLock(s.workers[i].pc) ==> !Locked(s.dispatcher))
  {
    hide Owned, Accounts, Recorded, WorkerReady, AgingReady, DispatcherReady;
    DispatchIsReady(s);
    AgingIsReady(s);
    forall x | x in s.counted ensures x in s.jobs {
      SubmittedNotElsewhere(s, x);
    }
    forall i: nat | i < |s.workers| && s.workers[i].pc != Exited
      ensures WorkerReady(s, s.workers[i]) <==>
                && (s.workers[i].pc == Spawned ==> s.permits > 0)
                && (WaitsForLock(s.workers[i].pc) ==> !Locked(s.dispatcher))
    {
      WorkerIsReady(s, i);
    }
  }

  lemma WorkerIsReady(s: State, i: nat)
    requires Safe(s) && i < |s.workers| && s.workers[i].pc != Exited
    ensures WorkerReady(s, s.workers[i]) <==>
              && (s.workers[i].pc == Spawned ==> s.permits > 0)
              && (WaitsForLock(s.workers[i].pc) ==> !Locked(s.dispatcher))
  {
    hide Safe;
    if (s.workers[i].pc == Spawned ==> s.permits > 0) && (WaitsForLock(s.workers[i].pc) ==> !Locked(s.dispatcher)) {
      ReadyUnlessWaiting(s, i);
    }
  }

  predicate WaitsForLock(pc: Pc) {
    pc == Granted || pc == Clearing
  }

  /** No permit left means four holders, and a holder needs no permit: as long as the dispatcher is
      not in its scan, live workers never all wait. */
  lemma WorkersProgress(s: State)
    requires Safe(s) && SomeWorkerLives(s) && !Locked(s.dispatcher)
    ensures SomeWorkerCanMove(s)
  {
    hide Safe, Total, Locked, WorkerReady;
    var i: nat :| i < |s.workers| && s.workers[i].pc != Exited;
    if s.workers[i].pc == Spawned && s.permits <= 0 {
      assert Total(s.workers).permits == MAX_CONCURRENT by {
        AllPermitsOut(s);
      }
      var k := HolderExists(s.workers);
      ReadyUnlessWaiting(s, k);
    } else {
      ReadyUnlessWaiting(s, i);
    }
  }

  lemma AllPermitsOut(s: State)
    requires Safe(s) && s.permits <= 0
    ensures Total(s.workers).permits == MAX_CONCURRENT
  {
    hide Owned, Recorded, Total;
  }

  /** Exactly when all live workers wait: the dispatcher is in its scan, and each of them waits for
      active_mutex_ or finds no permit. */
  lemma AllWaitIff(s: State)
    requires Safe(s) && SomeWorkerLives(s)
    ensures !SomeWorkerCanMove(s) <==>
              && Locked(s.dispatcher)
              && (forall k | 0 <= k < |s.workers| && s.workers[k].pc != Exited ::
                    WaitsForLock(s.workers[k].pc) || (s.workers[k].pc == Spawned && s.permits <= 0))
  {
    hide Safe;
    if !SomeWorkerCanMove(s) {
      if !Locked(s.dispatcher) {
        WorkersProgress(s);
      }
      forall k | 0 <= k < |s.workers| && s.workers[k].pc != Exited
        ensures WaitsForLock(s.workers[k].pc) || (s.workers[k].pc == Spawned && s.permits <= 0)
      {
        if !WaitsForLock(s.workers[k].pc) && (s.workers[k].pc == Spawned ==> s.permits > 0) {
          ReadyUnlessWaiting(s, k);
        }
      }
    }
  }

  /** Workers alone can be stuck: the only worker, granted its budget, waits for active_mutex_ while
      the dispatcher scans. */
  lemma AllCanWait(x: JobInfo) returns (s: State)
    requires 0 <= x.cpu <= TOTAL_CPU && 0 <= x.memory <= TOTAL_MEMORY
    ensures Reachable(s) && SomeWorkerLives(s) && !SomeWorkerCanMove(s)
  {
    hide Reachable, Admitted;
    CalmInit();
    var t := Admitted(Init(), x);
    Admit(Init(), x);
    s := t.(dispatcher := Scan(0));
    Next(t, Dispatch(false, -1), s);
    AdmittedIs(Init(), x);
    assert s.workers[0].pc == Granted;
  }

  /** How many actions the dispatcher can still take before it gives active_mutex_ back. */
  function ScanRank(d: Dispatcher): int {
    match d
    case Scan(slot) => 10 * (MAX_CONCURRENT - slot)
    case Probe(slot, _, _, lvl) => 10 * (MAX_CONCURRENT - slot) - 1 - lvl
    case ProbeTop(slot, _, _) => 10 * (MAX_CONCURRENT - slot) - 4
    case Cas(slot, _) => 10 * (MAX_CONCURRENT - slot) - 5
    case CountWin(slot, _) => 10 * (MAX_CONCURRENT - slot) - 6
    case _ => 0
  }

  /** The scan itself never waits and ends: its rank falls with every action of the dispatcher. */
  lemma ScanEnds(s: State, sweep: bool, hint: int)
    requires Safe(s) && Locked(s.dispatcher) && -1 <= hint < MAX_CONCURRENT
    ensures Enabled(s, Dispatch(sweep, hint))
    ensures var d := DoDispatch(s, sweep, hint).dispatcher;
            Locked(d) ==> 0 <= ScanRank(d) < ScanRank(s.dispatcher)
  {
    hide Owned, Accounts, Recorded;
    DispatchIsReady(s);
  }

  // ---------------------------------------------------------------- from stop on

  /** The actions that the dispatcher can still take once the running flag is down. */
  function DispatcherRank(d: Dispatcher): int {
    match d
    case Stopped => 0
    case Top => 1
    case Hand(_) => 2
    case PopFrom(lvl) => 3 + MLFQ_LEVELS - lvl
    case Sweep(lvl) => 7 + 10 * MAX_CONCURRENT + MLFQ_LEVELS - lvl
    case _ => 7 + ScanRank(d)
  }

  /** The same for the aging thread: its buffer holds at most 64 jobs when a level is drained. */
  function AgingRank(a: Aging): int {
    match a
    case AgingStopped => 0
    case Idle => 1
    case DrainFrom(lvl) => 1 + (MLFQ_LEVELS - lvl) * (AGED_BUF + 6)
    case Promote(lvl, buf) => 2 + (MLFQ_LEVELS - 1 - lvl) * (AGED_BUF + 6) + |buf|
  }

  /** The dispatcher can start one more worker for each of its actions at most. */
  function Remaining(s: State): int {
    Total(s.workers).rank + 16 * DispatcherRank(s.dispatcher) + AgingRank(s.aging)
  }

  /** A step of the scheduler's own threads. */
  predicate Own(step: Step) {
    step.Dispatch? || step == Age || step.Work?
  }

  lemma RanksBounded(s: State)
    requires Safe(s)
    ensures 0 <= DispatcherRank(s.dispatcher) <= 50 && 0 <= AgingRank(s.aging)
  {
    hide Owned, Accounts, Recorded;
    DispatchIsReady(s);
  }

  lemma DispatchLowersRank(s: State, sweep: bool, hint: int)
    requires Enabled(s, Dispatch(sweep, hint)) && !s.running && Safe(s)
    ensures DispatcherRank(DoDispatch(s, sweep, hint).dispatcher) < DispatcherRank(s.dispatcher)
  {
    hide Owned, Accounts, Recorded, DoDispatch, DispatcherRank;
    if Locked(s.dispatcher) {
      ScanLowersRank(s, sweep, hint);
    } else {
      OutsideLowersRank(s, sweep, hint);
    }
  }

  lemma ScanLowersRank(s: State, sweep: bool, hint: int)
    requires Enabled(s, Dispatch(sweep, hint)) && Locked(s.dispatcher) && ScanOk(s)
    ensures DispatcherRank(DoDispatch(s, sweep, hint).dispatcher) < DispatcherRank(s.dispatcher)
  {
    hide PopLevel, Spawn, SweepLevel;
  }

  lemma OutsideLowersRank(s: State, sweep: bool, hint: int)
    requires Enabled(s, Dispatch(sweep, hint)) && !s.running && !Locked(s.dispatcher) && ScanOk(s)
    ensures DispatcherRank(DoDispatch(s, sweep, hint).dispatcher) < DispatcherRank(s.dispatcher)
  {
    hide ProbeLevel, ProbeHead, ScanSlot, TryPreempt, CountPreemption, TickAll;
  }

  lemma DispatchSpawnsOne(s: State, sweep: bool, hint: int)
    requires DispatcherReady(s)
    ensures Total(DoDispatch(s, sweep, hint).workers).rank <= Total(s.workers).rank + 15
  {
    hide Total, DoDispatch, Spawn;
    DispatchFrames(s, sweep, hint);
    if s.dispatcher.Hand? {
      DispatchSpawns(s, sweep, hint);
      SpawnRank(s, s.dispatcher.job, hint);
    }
  }

  lemma SpawnRank(s: State, x: JobInfo, hint: int)
    ensures Total(Spawn(s, x, hint).workers).rank == Total(s.workers).rank + 15
  {
    var w := Worker(x, Spawned, hint, false);
    assert (s.workers + [w])[..|s.workers|] == s.workers;
  }

  lemma AgeLowersRank(s: State)
    requires Enabled(s, Age) && !s.running && Safe(s)
    ensures AgingRank(DoAge(s).aging) < AgingRank(s.aging)
  {
    hide Owned, Accounts, Recorded, Insert, Taken, Kept, Aged, AgeFlags;
    if s.aging.DrainFrom? {
      DrainTakesFirstAged(s.queues[s.aging.lvl], AgeFlags(s.jobs, s.queues[s.aging.lvl]), AGED_BUF);
    }
  }

  /** Once the running flag is down it stays down, and every step of the dispatcher, of the aging
      thread and of a worker uses up rank of its own thread, while no step of any other thread, and no
      submission, gives the dispatcher or the aging thread any back. */
  lemma StoppingStep(s: State, step: Step)
    requires Enabled(s, step) && !s.running && Safe(s)
    ensures var s' := Apply(s, step);
            && !s'.running
            && DispatcherRank(s'.dispatcher) + One(step.Dispatch?) <= DispatcherRank(s.dispatcher)
            && AgingRank(s'.aging) + One(step == Age) <= AgingRank(s.aging)
            && Remaining(s') + One(Own(step)) <= Remaining(s)
  {
    hide Safe, DoDispatch, DoAge, DoWork, DoRegister, Total, Insert, DispatcherRank, AgingRank;
    match step {
      case Dispatch(sweep, hint) =>
        DispatchFrames(s, sweep, hint);
        DispatchLowersRank(s, sweep, hint);
        DispatchSpawnsOne(s, sweep, hint);
      case Age =>
        AgeFrames(s);
        AgeLowersRank(s);
      case Work(i, hint) =>
        WorkFrames(s, i, hint);
        WorkRank(s, i, hint);
        RankOfStep(s.workers, i, DoWork(s, i, hint).workers[i]);
      case _ => SubmitRanks(s, step);
    }
  }

  lemma SubmitRanks(s: State, step: Step)
    requires Enabled(s, step) && !s.running && !Own(step)
    ensures var s' := Apply(s, step);
            !s'.running && s'.dispatcher == s.dispatcher && s'.aging == s.aging && s'.workers == s.workers
  {
    hide Insert;
  }

  datatype Moves = Moves(dispatcher: nat, aging: nat, own: nat)

  function MovesOf(steps: seq<Step>): Moves {
    if steps == [] then Moves(0, 0, 0)
    else
      var m, last := MovesOf(steps[..|steps| - 1]), steps[|steps| - 1];
      Moves(m.dispatcher + One(last.Dispatch?), m.aging + One(last == Age), m.own + One(Own(last)))
  }

  /** From the moment stop() clears the flag, in every execution: the dispatcher takes at most 50 more
      actions, the aging thread and the workers boundedly many, whatever is submitted meanwhile. */
  lemma {:induction false} StopIsBounded(b: seq<State>, steps: seq<Step>, from: nat, to: nat)
    requires Execution(b, steps) && from <= to < |b| && !b[from].running
    ensures var n := MovesOf(steps[from..to]);
            && !b[to].running
            && DispatcherRank(b[to].dispatcher) + n.dispatcher <= DispatcherRank(b[from].dispatcher) <= 50
            && AgingRank(b[to].aging) + n.aging <= AgingRank(b[from].aging)
            && Remaining(b[to]) + n.own <= Remaining(b[from])
  {
    hide Apply, Enabled, Safe, DispatcherRank, AgingRank, Remaining, Own;
    ReachableSafe(b, steps, from);
    RanksBounded(b[from]);
    if from < to {
      StopIsBounded(b, steps, from, to - 1);
      ReachableSafe(b, steps, to - 1);
      StoppingStep(b[to - 1], steps[to - 1]);
      assert steps[from..to][..to - from - 1] == steps[from..to - 1];
    }
  }

  /** The joins return: neither thread is ever blocked, so when the scheduler's own threads can take no
      step any more after stop(), both have ended, every worker has exited, and everything is given back. */
  lemma StoppedIsClean(s: State)
    requires Safe(s) && !s.running && forall step | Own(step) :: !Enabled(s, step)
    ensures s.dispatcher.Stopped? && s.aging.AgingStopped?
    ensures forall i | 0 <= i < |s.workers| :: s.workers[i].pc == Exited
    ensures s.permits == MAX_CONCURRENT && s.usedCpu == 0 && s.usedMemory == 0 && s.activeCount == 0
    ensures forall k | 0 <= k < MAX_CONCURRENT :: s.active[k] == Empty
  {
    hide Safe;
    OnlyWaitsBlock(s, false, -1);
    assert Own(Dispatch(false, -1)) && Own(Age);
    forall k: nat | k < |s.workers| ensures !WorkerReady(s, s.workers[k]) {
      assert Own(Work(k, -1)) ==> !Enabled(s, Work(k, -1));
    }
    RestIsClean(s);
  }

  // ---------------------------------------------------------------- after the dispatcher has left

  ghost predicate Down(s: State) {
    !s.running && s.dispatcher.Stopped?
  }

  lemma WorkRank(s: State, i: nat, hint: int)
    requires Enabled(s, Work(i, hint)) && !s.running
    ensures i < |DoWork(s, i, hint).workers| && Rank(DoWork(s, i, hint).workers[i].pc) < Rank(s.workers[i].pc)
  {
    hide DoWork;
    if HoldsSlotOrClaims(s.workers[i].pc) {
      RunRank(s, i, hint);
    } else {
      AroundRunRank(s, i, hint);
    }
  }

  lemma RunRank(s: State, i: nat, hint: int)
    requires Enabled(s, Work(i, hint)) && !s.running && HoldsSlotOrClaims(s.workers[i].pc)
    ensures i < |DoWork(s, i, hint).workers| && Rank(DoWork(s, i, hint).workers[i].pc) < Rank(s.workers[i].pc)
  {
  }

  lemma AroundRunRank(s: State, i: nat, hint: int)
    requires Enabled(s, Work(i, hint)) && !s.running && !HoldsSlotOrClaims(s.workers[i].pc)
    ensures i < |DoWork(s, i, hint).workers| && Rank(DoWork(s, i, hint).workers[i].pc) < Rank(s.workers[i].pc)
  {
    hide RunStep;
    hide Requeued, Fits, Released;
  }

  lemma RankOfStep(ws: seq<Worker>, i: nat, w: Worker)
    requires i < |ws|
    ensures Total(ws[i := w]).rank + Rank(ws[i].pc) == Total(ws).rank + Rank(w.pc)
  {
    TotalOfStep(ws, i, w);
  }

  /** Once the flag is down and the dispatcher has left, every worker step uses up rank, and nothing
      else that still happens gives any back. */
  lemma DownStep(s: State, step: Step)
    requires Enabled(s, step) && Down(s)
    ensures Down(Apply(s, step))
    ensures Total(Apply(s, step).workers).rank + One(step.Work?) <= Total(s.workers).rank
  {
    hide DoWork, DoAge, Total;
    match step {
      case Work(i, hint) =>
        WorkFrames(s, i, hint);
        WorkRank(s, i, hint);
        RankOfStep(s.workers, i, DoWork(s, i, hint).workers[i]);
      case Age => AgeFrames(s);
      case _ =>
    }
  }

  function WorkSteps(steps: seq<Step>): nat {
    if steps == [] then 0 else WorkSteps(steps[..|steps| - 1]) + One(steps[|steps| - 1].Work?)
  }

  /** The workers take boundedly many steps after the shutdown, in every execution. */
  lemma {:induction false} WorkIsBounded(b: seq<State>, steps: seq<Step>, from: nat, to: nat)
    requires Execution(b, steps) && from <= to < |b| && Down(b[from])
    ensures Down(b[to])
    ensures Total(b[to].workers).rank + WorkSteps(steps[from..to]) <= Total(b[from].workers).rank
  {
    hide Down, Total, Apply, Enabled;
    if from < to {
      WorkIsBounded(b, steps, from, to - 1);
      DownStep(b[to - 1], steps[to - 1]);
      assert steps[from..to][..to - from - 1] == steps[from..to - 1];
    }
  }

  lemma {:induction false} ExitedHoldNothing(ws: seq<Worker>)
    requires forall i | 0 <= i < |ws| :: ws[i].pc == Exited
    ensures Total(ws).permits == Total(ws).active == Total(ws).cpu == Total(ws).memory == Total(ws).slots == 0
  {
    if ws != [] {
      ExitedHoldNothing(ws[..|ws| - 1]);
    }
  }

  /** When no worker can take another step after the shutdown, every worker has exited, all four
      permits are back, the budgets are empty and the table is clear. */
  lemma RestIsClean(s: State)
    requires Safe(s) && Down(s) && !SomeWorkerCanMove(s)
    ensures forall i | 0 <= i < |s.workers| :: s.workers[i].pc == Exited
    ensures s.permits == MAX_CONCURRENT && s.usedCpu == 0 && s.usedMemory == 0 && s.activeCount == 0
    ensures forall k | 0 <= k < MAX_CONCURRENT :: s.active[k] == Empty
  {
    if SomeWorkerLives(s) {
      WorkersProgress(s);
    }
    ExitedHoldNothing(s.workers);
    hide Owned, Recorded;
  }
}
