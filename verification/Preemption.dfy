/**
 How often a job can be preempted by requests. Each scan hits a job once at most, and then ends in a
 pop that hands over a job that beats it, unless the aging thread took jobs out of a level meanwhile.
 */
module Preemption {
  import opened Jobs
  import opened StableQueue
  import opened MlfqSpec
  import opened Protocol
  import opened WorkerTally
  import opened Accounting
  import opened Ownership
  import opened JobRecords
  import opened RunInvariant
  import opened Safety
  import opened BetterCandidate
  import opened History

  predicate EndsPop(s: State, step: Step, s': State) {
    step.Dispatch? && s.dispatcher.PopFrom? && !s'.dispatcher.PopFrom?
  }

  /** A drain that takes at least one job. */
  predicate Drains(s: State, step: Step, s': State) {
    step == Age && s.aging.DrainFrom? && BufferOf(s'.aging) != []
  }

  /** The end of a pop that hands over a job better than a job of x's priority at this level. */
  predicate HandsBetter(s: State, step: Step, s': State, level: int, x: JobInfo) {
    && EndsPop(s, step, s') && s'.dispatcher.Hand?
    && Beats(s.dispatcher.lvl, s'.dispatcher.job.priority.Value(), level, x.priority.Value())
  }

  /** Since the last pop ended: whether x was hit, at which level, and whether a drain took jobs. In
      all: the pops that followed a hit of x and handed over a better job, and the drains that took jobs. */
  datatype Feud = Feud(hit: bool, level: int, drained: bool, better: nat, drains: nat)

  function NextFeud(f: Feud, s: State, step: Step, s': State, x: JobInfo): Feud {
    if EndsPop(s, step, s') then
      Feud(false, 0, false, f.better + One(f.hit && HandsBetter(s, step, s', f.level, x)), f.drains)
    else if Wins(s, step, x) then f.(hit := true, level := s.jobs[x].level)
    else if Drains(s, step, s') then f.(drained := true, drains := f.drains + 1)
    else f
  }

  function FeudAt(b: seq<State>, steps: seq<Step>, k: nat, x: JobInfo): Feud
    requires |b| == |steps| + 1 && k <= |steps|
  {
    if k == 0 then Feud(false, 0, false, 0, 0)
    else NextFeud(FeudAt(b, steps, k - 1, x), b[k - 1], steps[k - 1], b[k], x)
  }

  /** The dispatcher remembers a queued job that beats a job of x's priority at this level. */
  ghost predicate Seen(s: State, level: int, x: JobInfo) {
    exists h | h in s.hints :: h.level == level && h.priority == x.priority.Value()
  }

  predicate Targets(d: Dispatcher, x: JobInfo) {
    d.Cas? && d.job == x
  }

  ghost predicate FeudOk(s: State, f: Feud, x: JobInfo) {
    && (f.hit ==> Locked(s.dispatcher) || s.dispatcher.PopFrom?)
    && (f.hit && Locked(s.dispatcher) ==> x in s.jobs && s.jobs[x].wins >= 1)
    && (f.hit && !f.drained ==> Seen(s, f.level, x))
    && (Targets(s.dispatcher, x) && !f.drained ==> x in s.jobs && Seen(s, s.jobs[x].level, x))
  }

  // ---------------------------------------------------------------- one step

  lemma SeenStays(s: State, step: Step, level: int, x: JobInfo)
    requires Enabled(s, step) && HintsOk(s) && Seen(s, level, x)
    requires !EndsPop(s, step, Apply(s, step)) && !Drains(s, step, Apply(s, step))
    ensures Seen(Apply(s, step), level, x)
  {
    hide Apply, Enabled, HintsOk, Taken, AgeFlags;
    var h :| h in s.hints && h.level == level && h.priority == x.priority.Value();
    HintStays(s, step, h);
  }

  /** The pop after a hit, when no drain took anything since the scan began. */
  lemma PopHandsBetter(s: State, step: Step, level: int, x: JobInfo)
    requires Enabled(s, step) && HintsOk(s) && Seen(s, level, x) && EndsPop(s, step, Apply(s, step))
    ensures HandsBetter(s, step, Apply(s, step), level, x)
  {
    hide HintsOk;
    var h :| h in s.hints && h.level == level && h.priority == x.priority.Value();
    HeadBeats(s, h);
    PopEnds(s, step.sweep, step.hint);
  }

  /** A probe that turns to the preemption attempt has seen a better job than its target. */
  lemma ProbeSees(s: State, step: Step, x: JobInfo)
    requires Enabled(s, step) && Safe(s) && step.Dispatch? && !s.dispatcher.Cas?
    requires Targets(Apply(s, step).dispatcher, x)
    ensures x in s.jobs && x in Apply(s, step).jobs && Apply(s, step).jobs[x].level == s.jobs[x].level
    ensures Seen(Apply(s, step), s.jobs[x].level, x)
  {
    hide Owned, Accounts, Recorded;
    ProbesOnly(s, step.sweep, step.hint);
    ProbeRemembers(s, step.sweep, step.hint);
  }

  lemma ProbesOnly(s: State, sweep: bool, hint: int)
    requires DispatcherReady(s) && !s.dispatcher.Cas? && DoDispatch(s, sweep, hint).dispatcher.Cas?
    ensures s.dispatcher.Probe? || s.dispatcher.ProbeTop?
    ensures DoDispatch(s, sweep, hint).dispatcher.job == s.dispatcher.job && DoDispatch(s, sweep, hint).jobs == s.jobs
  {
    hide TickAll;
  }

  lemma CasMoves(s: State, sweep: bool, hint: int)
    requires DispatcherReady(s) && s.dispatcher.Cas?
    ensures !DoDispatch(s, sweep, hint).dispatcher.Cas?
  {
  }

  /** While the attempt is pending, the level of its target stands still. */
  lemma TargetStands(s: State, step: Step, x: JobInfo)
    requires Enabled(s, step) && Safe(s) && Targets(s.dispatcher, x)
    ensures x in s.jobs && x in Apply(s, step).jobs && Apply(s, step).jobs[x].level == s.jobs[x].level
  {
    hide Owned, Recorded, Balanced, Apply, Enabled;
    var k := Occupant(s, s.dispatcher.slot, x);
    StepKeepsLevel(s, step, k);
  }

  /** Where the dispatcher goes: it leaves the scan for the pop only. */
  lemma ScanThenPop(s: State, step: Step)
    requires Enabled(s, step)
    ensures var d, d' := s.dispatcher, Apply(s, step).dispatcher;
            && (Locked(d) ==> Locked(d') || d'.PopFrom?)
            && (!step.Dispatch? ==> d' == d)
            && (d.PopFrom? && !EndsPop(s, step, Apply(s, step)) ==> d'.PopFrom?)
  {
    hide DoWork, DoAge, Insert, TickAll;
    match step {
      case Work(i, hint) => WorkFrames(s, i, hint);
      case Age => AgeFrames(s);
      case _ =>
    }
  }

  lemma HitStays(s: State, step: Step, x: JobInfo)
    requires Enabled(s, step) && Locked(s.dispatcher) && x in s.jobs && s.jobs[x].wins >= 1
    ensures x in Apply(s, step).jobs && Apply(s, step).jobs[x].wins >= 1
  {
    hide Apply, Wins;
    NoClaimInScan(s, step, x);
    StepGrows(s, step, x);
  }

  lemma NoClaimInScan(s: State, step: Step, x: JobInfo)
    requires Enabled(s, step) && Locked(s.dispatcher)
    ensures !WorkerAt(s, step, Granted, x)
  {
  }

  lemma WinHits(s: State, step: Step, x: JobInfo)
    requires Enabled(s, step) && Safe(s) && Wins(s, step, x)
    ensures s.jobs[x].wins == 0 && Locked(s.dispatcher)
    ensures var s' := Apply(s, step);
            x in s'.jobs && s'.jobs[x].wins == 1 && s'.dispatcher.CountWin? && Locked(s'.dispatcher)
  {
    hide Safe;
    WinFindsFreshRun(s, step, x);
  }

  lemma StepKeepsFeud(s: State, f: Feud, step: Step, x: JobInfo)
    requires Enabled(s, step) && Safe(s) && HintsOk(s) && FeudOk(s, f, x)
    ensures FeudOk(Apply(s, step), NextFeud(f, s, step, Apply(s, step), x), x)
    ensures var f' := NextFeud(f, s, step, Apply(s, step), x);
            f'.better + f'.drains + One(f'.hit) - One(f'.drained)
            >= f.better + f.drains + One(f.hit) - One(f.drained) + One(Wins(s, step, x))
  {
    hide Apply, Enabled, Safe, HintsOk, Seen, HandsBetter, Locked, Drains;
    var s' := Apply(s, step);
    if EndsPop(s, step, s') {
      PopIsFree(s, step);
      if f.hit && !f.drained {
        PopHandsBetter(s, step, f.level, x);
      }
    } else if Wins(s, step, x) {
      WinHits(s, step, x);
      WinIsNoDrain(s, step, s');
      if !f.drained {
        SeenStays(s, step, s.jobs[x].level, x);
      }
    } else {
      QuietFeud(s, f, step, x);
    }
  }

  lemma PopIsFree(s: State, step: Step)
    requires Enabled(s, step) && EndsPop(s, step, Apply(s, step))
    ensures !Apply(s, step).dispatcher.Cas?
  {
  }

  lemma WinIsNoDrain(s: State, step: Step, s': State)
    requires step.Dispatch?
    ensures !Drains(s, step, s')
  {
  }

  lemma QuietFeud(s: State, f: Feud, step: Step, x: JobInfo)
    requires Enabled(s, step) && Safe(s) && HintsOk(s) && FeudOk(s, f, x)
    requires !EndsPop(s, step, Apply(s, step)) && !Wins(s, step, x)
    ensures FeudOk(Apply(s, step), NextFeud(f, s, step, Apply(s, step), x), x)
  {
    hide Apply, Enabled, Safe, HintsOk, Seen, Locked, Drains, Wins;
    var s', f' := Apply(s, step), NextFeud(f, s, step, Apply(s, step), x);
    ScanThenPop(s, step);
    PopIsNotScan(s.dispatcher);
    PopIsNotScan(s'.dispatcher);
    if f.hit && Locked(s.dispatcher) {
      HitStays(s, step, x);
    }
    if f.hit && !f'.drained {
      SeenStays(s, step, f.level, x);
    }
    if Targets(s'.dispatcher, x) && !f'.drained {
      if Targets(s.dispatcher, x) {
        TargetStands(s, step, x);
        SeenStays(s, step, s.jobs[x].level, x);
      } else {
        NewTarget(s, step);
        ProbeSees(s, step, x);
      }
    }
  }

  lemma PopIsNotScan(d: Dispatcher)
    ensures d.PopFrom? ==> !Locked(d)
  {
  }

  lemma NewTarget(s: State, step: Step)
    requires Enabled(s, step) && Apply(s, step).dispatcher.Cas? && Apply(s, step).dispatcher != s.dispatcher
    ensures step.Dispatch? && !s.dispatcher.Cas?
  {
    hide DoDispatch;
    ScanThenPop(s, step);
    if step.Dispatch? && s.dispatcher.Cas? {
      CasMoves(s, step.sweep, step.hint);
    }
  }

  // ---------------------------------------------------------------- executions

  /** The requests won against a job are at most one more than the pops that handed over a job that
      beats it, each of them the first pop after a hit, and the drains that took jobs out of a level. */
  lemma {:induction false} PreemptionsBounded(b: seq<State>, steps: seq<Step>, k: nat, x: JobInfo)
    requires Execution(b, steps) && k < |b|
    ensures FeudOk(b[k], FeudAt(b, steps, k, x), x)
    ensures var f := FeudAt(b, steps, k, x);
            && Happened(b, steps, k, x).wins + One(f.drained) <= f.better + f.drains + One(f.hit)
            && Happened(b, steps, k, x).wins <= 1 + f.better + f.drains
  {
    hide Apply, Enabled, Safe, HintsOk, Wins, FeudOk, NextFeud, Init;
    if k == 0 {
      NoFeudYet(x);
    } else {
      PreemptionsBounded(b, steps, k - 1, x);
      ReachableSafe(b, steps, k - 1);
      ReachableHints(b, steps, k - 1);
      StepKeepsFeud(b[k - 1], FeudAt(b, steps, k - 1, x), steps[k - 1], x);
    }
  }

  lemma NoFeudYet(x: JobInfo)
    ensures FeudOk(Init(), Feud(false, 0, false, 0, 0), x)
  {
  }
}
