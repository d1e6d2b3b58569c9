/**
 The dispatcher's cycles and the aging thread's passes leave nothing out: every cycle that is begun
 sweeps every level if it sweeps at all, looks at every slot, and starts a pop at level 0; every pass
 drains both lower levels. Counted in every execution, with what the cycle under way has still to do.
 */
module Rounds {
  import opened Jobs
  import opened Protocol
  import opened WorkerTally
  import opened Accounting
  import opened Ownership
  import opened JobRecords
  import opened RunInvariant
  import opened Safety

  /** The actions that the dispatcher has taken at this point of its loop in the first k steps. */
  function Visits(b: seq<State>, steps: seq<Step>, k: nat, d: Dispatcher): nat
    requires |b| == |steps| + 1 && k <= |steps|
  {
    if k == 0 then 0
    else Visits(b, steps, k - 1, d) + One(steps[k - 1].Dispatch? && b[k - 1].dispatcher == d)
  }

  predicate Begins(s: State, step: Step) {
    step.Dispatch? && s.dispatcher.Top? && s.running
  }

  /** The cycles begun in the first k steps, and those of them that are to sweep. */
  function Begun(b: seq<State>, steps: seq<Step>, k: nat): nat
    requires |b| == |steps| + 1 && k <= |steps|
  {
    if k == 0 then 0 else Begun(b, steps, k - 1) + One(Begins(b[k - 1], steps[k - 1]))
  }

  function BegunToSweep(b: seq<State>, steps: seq<Step>, k: nat): nat
    requires |b| == |steps| + 1 && k <= |steps|
  {
    if k == 0 then 0
    else BegunToSweep(b, steps, k - 1) + One(Begins(b[k - 1], steps[k - 1]) && steps[k - 1].sweep)
  }

  /** What the cycle under way has still before it. */
  predicate LevelAhead(d: Dispatcher, l: nat) {
    d.Sweep? && d.lvl <= l
  }

  predicate SlotAhead(d: Dispatcher, slot: nat) {
    d.Sweep? || d == Scan(slot) || (Locked(d) && d.slot < slot)
  }

  predicate PopAhead(d: Dispatcher) {
    d.Sweep? || Locked(d) || d == PopFrom(0)
  }

  // ---------------------------------------------------------------- one action

  lemma SweepGoesOn(s: State, sweep: bool, hint: int, l: nat)
    requires DispatcherReady(s) && l < MLFQ_LEVELS
    ensures var d, d' := s.dispatcher, DoDispatch(s, sweep, hint).dispatcher;
            One(LevelAhead(d', l)) + One(d == Sweep(l)) == One(LevelAhead(d, l)) + One(d.Top? && s.running && sweep)
  {
    hide TickAll;
  }

  lemma ScanGoesOn(s: State, sweep: bool, hint: int, slot: nat)
    requires DispatcherReady(s) && ScanOk(s) && slot <= MAX_CONCURRENT && Locked(s.dispatcher)
    ensures var d, d' := s.dispatcher, DoDispatch(s, sweep, hint).dispatcher;
            One(SlotAhead(d', slot)) + One(d == Scan(slot)) == One(SlotAhead(d, slot))
    ensures Locked(DoDispatch(s, sweep, hint).dispatcher) || DoDispatch(s, sweep, hint).dispatcher == PopFrom(0)
  {
    hide PopLevel, Spawn, SweepLevel;
  }

  lemma RestGoesOn(s: State, sweep: bool, hint: int, slot: nat)
    requires DispatcherReady(s) && ScanOk(s) && slot <= MAX_CONCURRENT && !Locked(s.dispatcher)
    ensures var d, d' := s.dispatcher, DoDispatch(s, sweep, hint).dispatcher;
            && One(SlotAhead(d', slot)) == One(SlotAhead(d, slot)) + One(d.Top? && s.running)
            && One(PopAhead(d')) + One(d == PopFrom(0)) == One(PopAhead(d)) + One(d.Top? && s.running)
  {
    hide ProbeLevel, ProbeHead, ScanSlot, TryPreempt, CountPreemption, TickAll;
  }

  lemma OnlyDispatchMoves(s: State, step: Step)
    requires Enabled(s, step) && !step.Dispatch?
    ensures Apply(s, step).dispatcher == s.dispatcher
  {
    hide DoWork, DoAge, DoDispatch;
    match step {
      case Work(i, hint) => WorkFrames(s, i, hint);
      case Age => AgeFrames(s);
      case _ =>
    }
  }

  lemma CycleGoesOn(s: State, step: Step, l: nat, slot: nat)
    requires Enabled(s, step) && ScanOk(s) && l < MLFQ_LEVELS && slot <= MAX_CONCURRENT
    ensures var d, d' := s.dispatcher, Apply(s, step).dispatcher;
            && One(LevelAhead(d', l)) + One(step.Dispatch? && d == Sweep(l))
               == One(LevelAhead(d, l)) + One(Begins(s, step) && step.sweep)
            && One(SlotAhead(d', slot)) + One(step.Dispatch? && d == Scan(slot))
               == One(SlotAhead(d, slot)) + One(Begins(s, step))
            && One(PopAhead(d')) + One(step.Dispatch? && d == PopFrom(0)) == One(PopAhead(d)) + One(Begins(s, step))
  {
    hide ScanOk, DoDispatch, DoWork, DoAge, DoRegister;
    if step.Dispatch? {
      SweepGoesOn(s, step.sweep, step.hint, l);
      if Locked(s.dispatcher) {
        ScanGoesOn(s, step.sweep, step.hint, slot);
      } else {
        RestGoesOn(s, step.sweep, step.hint, slot);
      }
    } else {
      OnlyDispatchMoves(s, step);
    }
  }

  // ---------------------------------------------------------------- all cycles

  /** In every execution, for every level and every slot: as many actions of the dispatcher were taken
      there as cycles were begun, less the one that the cycle under way has still to take. The last
      slot number, MAX_CONCURRENT, is the end of the scan. */
  lemma {:induction false} CyclesAreComplete(b: seq<State>, steps: seq<Step>, k: nat, l: nat, slot: nat)
    requires Execution(b, steps) && k < |b| && l < MLFQ_LEVELS && slot <= MAX_CONCURRENT
    ensures Visits(b, steps, k, Sweep(l)) + One(LevelAhead(b[k].dispatcher, l)) == BegunToSweep(b, steps, k)
    ensures Visits(b, steps, k, Scan(slot)) + One(SlotAhead(b[k].dispatcher, slot)) == Begun(b, steps, k)
    ensures Visits(b, steps, k, PopFrom(0)) + One(PopAhead(b[k].dispatcher)) == Begun(b, steps, k)
  {
    hide Apply, Enabled, Begins, LevelAhead, SlotAhead, PopAhead, Safe;
    if k == 0 {
      NothingAhead(l, slot);
    } else {
      CyclesAreComplete(b, steps, k - 1, l, slot);
      ReachableSafe(b, steps, k - 1);
      SafeScan(b[k - 1]);
      CycleGoesOn(b[k - 1], steps[k - 1], l, slot);
    }
  }

  lemma NothingAhead(l: nat, slot: nat)
    ensures !LevelAhead(Init().dispatcher, l) && !SlotAhead(Init().dispatcher, slot) && !PopAhead(Init().dispatcher)
  {
  }

  lemma SafeScan(s: State)
    requires Safe(s)
    ensures ScanOk(s) && AgingOk(s)
  {
    hide Owned, Accounts, Recorded, ScanOk, AgingOk;
  }

  // ---------------------------------------------------------------- passes

  predicate BeginsPass(s: State, step: Step) {
    step == Age && s.aging.Idle? && s.running
  }

  predicate DrainsAt(s: State, step: Step, l: nat) {
    step == Age && s.aging == DrainFrom(l)
  }

  function Passes(b: seq<State>, steps: seq<Step>, k: nat): nat
    requires |b| == |steps| + 1 && k <= |steps|
  {
    if k == 0 then 0 else Passes(b, steps, k - 1) + One(BeginsPass(b[k - 1], steps[k - 1]))
  }

  function DrainSteps(b: seq<State>, steps: seq<Step>, k: nat, l: nat): nat
    requires |b| == |steps| + 1 && k <= |steps|
  {
    if k == 0 then 0 else DrainSteps(b, steps, k - 1, l) + One(DrainsAt(b[k - 1], steps[k - 1], l))
  }

  /** The drain of level l is still ahead of the pass under way. */
  predicate DrainAhead(a: Aging, l: nat) {
    (a.DrainFrom? && a.lvl <= l) || (a.Promote? && a.lvl < l)
  }

  lemma PassGoesOn(s: State, step: Step, l: nat)
    requires Enabled(s, step) && AgingOk(s) && 1 <= l < MLFQ_LEVELS
    ensures One(DrainAhead(Apply(s, step).aging, l)) + One(DrainsAt(s, step, l))
            == One(DrainAhead(s.aging, l)) + One(BeginsPass(s, step))
  {
    hide DoWork, DoDispatch, AgeFlags, StillQueued;
    match step {
      case Work(i, hint) => WorkFrames(s, i, hint);
      case Dispatch(sweep, hint) => DispatchFrames(s, sweep, hint);
      case _ =>
    }
  }

  /** In every execution the aging thread has drained each lower level once for every pass begun, less
      the drain that the pass under way has still to do. */
  lemma {:induction false} PassesAreComplete(b: seq<State>, steps: seq<Step>, k: nat, l: nat)
    requires Execution(b, steps) && k < |b| && 1 <= l < MLFQ_LEVELS
    ensures DrainSteps(b, steps, k, l) + One(DrainAhead(b[k].aging, l)) == Passes(b, steps, k)
  {
    hide Apply, Enabled, Safe, BeginsPass, DrainsAt;
    if k > 0 {
      PassesAreComplete(b, steps, k - 1, l);
      ReachableSafe(b, steps, k - 1);
      SafeScan(b[k - 1]);
      PassGoesOn(b[k - 1], steps[k - 1], l);
    }
  }

  // ---------------------------------------------------------------- the end of the threads

  lemma EndsWhenDown(s: State, step: Step)
    requires Enabled(s, step)
    ensures var s' := Apply(s, step);
            && (s'.running ==> s.running)
            && (s'.dispatcher.Stopped? ==> s.dispatcher.Stopped? || !s.running)
            && (s'.aging.AgingStopped? ==> s.aging.AgingStopped? || !s.running)
            && (s'.running != s.running ==> step.Stop?)
  {
    hide DoWork, TickAll, AgeFlags, StillQueued;
    match step {
      case Work(i, hint) => WorkFrames(s, i, hint);
      case Dispatch(sweep, hint) => DispatchFrames(s, sweep, hint);
      case _ =>
    }
  }

  /** The dispatcher and the aging thread go on until stop() has cleared the flag. */
  lemma {:induction false} ThreadsEndOnlyAfterStop(b: seq<State>, steps: seq<Step>, k: nat)
    requires Execution(b, steps) && k < |b|
    ensures b[k].running <==> Stop !in steps[..k]
    ensures b[k].dispatcher.Stopped? || b[k].aging.AgingStopped? ==> !b[k].running
  {
    hide Apply, Enabled;
    if k > 0 {
      ThreadsEndOnlyAfterStop(b, steps, k - 1);
      EndsWhenDown(b[k - 1], steps[k - 1]);
      if steps[k - 1].Stop? {
        StopStops(b[k - 1], steps[k - 1]);
      }
      assert steps[..k] == steps[..k - 1] + [steps[k - 1]];
    }
  }

  lemma StopStops(s: State, step: Step)
    requires Enabled(s, step) && step.Stop?
    ensures !Apply(s, step).running
  {
  }
}
