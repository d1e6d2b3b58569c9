/**
 The better-candidate query under concurrency. The query and the pop that follows it each take one
 level's lock at a time; pushes by submitters, workers and the aging thread come in between.
 */
module BetterCandidate {
  import opened Jobs
  import opened StableQueue
  import opened MlfqSpec
  import opened Protocol

  /** The first level that the dispatcher's pop has still to look at. */
  function FirstUnpopped(d: Dispatcher): nat {
    if d.PopFrom? then d.lvl else 0
  }

  ghost predicate HintOk(s: State, h: Hint) {
    && FirstUnpopped(s.dispatcher) <= h.at < MLFQ_LEVELS && h.rival in s.queues[h.at]
    && Beats(h.at, h.rival.priority.Value(), h.level, h.priority)
  }

  ghost predicate HintsOk(s: State) {
    && AllSorted(InfoKey, s.queues)
    && (s.hints != {} ==> Locked(s.dispatcher) || s.dispatcher.PopFrom?)
    && (forall h | h in s.hints :: HintOk(s, h))
  }

  /** Pushes only add. */
  ghost predicate Grown(qs: Queues<JobInfo>, qs': Queues<JobInfo>) {
    forall l, x | 0 <= l < MLFQ_LEVELS && x in qs[l] :: x in qs'[l]
  }

  lemma PushGrows(qs: Queues<JobInfo>, l: nat, x: JobInfo)
    requires l < MLFQ_LEVELS
    ensures Grown(qs, qs[l := Insert(InfoKey, qs[l], x)])
    ensures AllSorted(InfoKey, qs) ==> AllSorted(InfoKey, qs[l := Insert(InfoKey, qs[l], x)])
  {
  }

  lemma GrownHints(s: State, s': State)
    requires HintsOk(s) && Grown(s.queues, s'.queues) && AllSorted(InfoKey, s'.queues)
    requires s'.dispatcher == s.dispatcher && s'.hints == s.hints
    ensures HintsOk(s')
  {
  }

  lemma WorkOnlyPushes(s: State, i: nat, hint: int)
    requires Enabled(s, Work(i, hint)) && AllSorted(InfoKey, s.queues)
    ensures Grown(s.queues, DoWork(s, i, hint).queues) && AllSorted(InfoKey, DoWork(s, i, hint).queues)
  {
    hide Insert, AllSorted;
    var w := s.workers[i];
    if w.pc == Deciding {
      hide Complete, SetPc;
      PushGrows(s.queues, Requeued(s.jobs[w.job]).level, w.job);
      DecideQueues(s, i);
    } else {
      hide DoWork;
      WorkFrames(s, i, hint);
      OnlyDecideQueues(s, i, hint);
    }
  }

  lemma DecideQueues(s: State, i: nat)
    requires HasWorker(s, i) && 0 <= s.jobs[s.workers[i].job].level < MLFQ_LEVELS
    ensures var x := s.workers[i].job;
            var l := Requeued(s.jobs[x]).level;
            || Decide(s, i).queues == s.queues
            || Decide(s, i).queues == s.queues[l := Insert(InfoKey, s.queues[l], x)]
  {
  }

  lemma PopHints(s: State, lvl: nat)
    requires HintsOk(s) && s.dispatcher == PopFrom(lvl) && lvl < MLFQ_LEVELS
    ensures HintsOk(PopLevel(s, lvl))
  {
  }

  lemma ProbeHints(s: State, sweep: bool, hint: int)
    requires DispatcherReady(s) && HintsOk(s) && (s.dispatcher.Probe? || s.dispatcher.ProbeTop?)
    ensures HintsOk(DoDispatch(s, sweep, hint))
  {
  }

  lemma DispatchHints(s: State, sweep: bool, hint: int)
    requires DispatcherReady(s) && HintsOk(s)
    ensures HintsOk(DoDispatch(s, sweep, hint))
  {
    hide HintsOk, PopLevel, ProbeLevel, ProbeHead, SweepLevel, ScanSlot, TryPreempt, CountPreemption, Spawn;
    if s.dispatcher.PopFrom? {
      PopHints(s, s.dispatcher.lvl);
    } else if s.dispatcher.Probe? || s.dispatcher.ProbeTop? {
      ProbeHints(s, sweep, hint);
    } else {
      OtherHints(s, sweep, hint);
    }
  }

  lemma OtherHints(s: State, sweep: bool, hint: int)
    requires DispatcherReady(s) && HintsOk(s)
    requires !s.dispatcher.PopFrom? && !s.dispatcher.Probe? && !s.dispatcher.ProbeTop?
    ensures HintsOk(DoDispatch(s, sweep, hint))
  {
  }

  lemma AgeHints(s: State)
    requires AgingReady(s) && HintsOk(s)
    ensures HintsOk(DoAge(s))
  {
    hide Insert, Sorted, Taken, Kept;
    if s.aging.DrainFrom? {
      KeptKeepsSorted(InfoKey, s.queues[s.aging.lvl], AgeFlags(s.jobs, s.queues[s.aging.lvl]), AGED_BUF);
    } else if s.aging.Promote? && s.aging.buf != [] {
      hide HintsOk;
      assert AllSorted(InfoKey, s.queues) by {
        HintsSorted(s);
      }
      PushGrows(s.queues, s.aging.lvl - 1, s.aging.buf[0]);
      GrownHints(s, DoAge(s));
    } else {
      SameHints(s, DoAge(s));
    }
  }

  lemma HintsSorted(s: State)
    requires HintsOk(s)
    ensures AllSorted(InfoKey, s.queues)
  {
  }

  lemma SameHints(s: State, s': State)
    requires HintsOk(s) && s'.queues == s.queues && s'.dispatcher == s.dispatcher && s'.hints == s.hints
    ensures HintsOk(s')
  {
  }

  lemma StepKeepsHints(s: State, step: Step)
    requires Enabled(s, step) && HintsOk(s)
    ensures HintsOk(Apply(s, step))
  {
    hide HintsOk, DoDispatch, DoAge, DoWork, AllSorted, Insert;
    HintsSorted(s);
    match step {
      case Dispatch(sweep, hint) => DispatchHints(s, sweep, hint);
      case Age => AgeHints(s);
      case Work(i, hint) =>
        WorkFrames(s, i, hint);
        WorkOnlyPushes(s, i, hint);
        GrownHints(s, DoWork(s, i, hint));
      case PushNew(x) =>
        PushGrows(s.queues, 0, x);
        GrownHints(s, Apply(s, step));
      case _ => SameHints(s, Apply(s, step));
    }
  }

  lemma {:induction false} ReachableHints(b: seq<State>, steps: seq<Step>, k: nat)
    requires Execution(b, steps) && k < |b|
    ensures HintsOk(b[k])
  {
    hide Apply, Enabled, HintsOk;
    if k == 0 {
      assert HintsOk(Init()) by {
        InitHints();
      }
    } else {
      ReachableHints(b, steps, k - 1);
      StepKeepsHints(b[k - 1], steps[k - 1]);
    }
  }

  lemma InitHints()
    ensures HintsOk(Init())
  {
  }

  /** If the dispatcher has seen a candidate better than a running job of level l and priority p, and
      the aging thread has not taken it since, the pop that follows does return a job, and that job is
      better than (l, p), whatever was pushed in the meantime. */
  lemma PopReturnsBetter(b: seq<State>, steps: seq<Step>, k: nat, h: Hint)
    requires Execution(b, steps) && k < |b| && h in b[k].hints && b[k].dispatcher.PopFrom?
    ensures var lvl := b[k].dispatcher.lvl;
            && lvl < MLFQ_LEVELS
            && (b[k].queues[lvl] != [] ==> Beats(lvl, b[k].queues[lvl][0].priority.Value(), h.level, h.priority))
            && (lvl + 1 == MLFQ_LEVELS ==> b[k].queues[lvl] != [])
  {
    hide Execution, HintsOk;
    ReachableHints(b, steps, k);
    HeadBeats(b[k], h);
  }

  lemma HeadBeats(s: State, h: Hint)
    requires HintsOk(s) && h in s.hints && s.dispatcher.PopFrom?
    ensures var lvl := s.dispatcher.lvl;
            && lvl < MLFQ_LEVELS
            && (s.queues[lvl] != [] ==> Beats(lvl, s.queues[lvl][0].priority.Value(), h.level, h.priority))
            && (lvl + 1 == MLFQ_LEVELS ==> s.queues[lvl] != [])
  {
  }

  /** The steps that end what the dispatcher has seen: a drain that takes the rival, and the end of
      a pop. */
  predicate Forgets(s: State, step: Step, h: Hint)
    requires Enabled(s, step)
  {
    || (step == Age && s.aging == DrainFrom(h.at) && h.rival in BufferOf(Apply(s, step).aging))
    || (step.Dispatch? && s.dispatcher.PopFrom? && !Apply(s, step).dispatcher.PopFrom?)
  }

  predicate TakesRival(s: State, h: Hint) {
    h.at < MLFQ_LEVELS && h.rival in Taken(s.queues[h.at], AgeFlags(s.jobs, s.queues[h.at]), AGED_BUF)
  }

  lemma HintStays(s: State, step: Step, h: Hint)
    requires Enabled(s, step) && HintsOk(s) && h in s.hints && !Forgets(s, step, h)
    ensures h in Apply(s, step).hints
  {
    hide Insert, Taken, Kept, AgeFlags, AllSorted;
    match step {
      case Work(i, hint) =>
        WorkFrames(s, i, hint);
        hide DoWork;
      case Age =>
        if s.aging.DrainFrom? {
          DrainedAre(s, s.aging.lvl);
          RivalStays(s, s.aging.lvl, h);
        }
      case _ =>
    }
  }

  lemma DrainedAre(s: State, lvl: nat)
    requires lvl < MLFQ_LEVELS
    ensures BufferOf(DrainLevel(s, lvl).aging) == Taken(s.queues[lvl], AgeFlags(s.jobs, s.queues[lvl]), AGED_BUF)
  {
  }

  lemma RivalStays(s: State, lvl: nat, h: Hint)
    requires lvl < MLFQ_LEVELS && HintsOk(s) && h in s.hints && (h.at == lvl ==> !TakesRival(s, h))
    ensures h in DrainLevel(s, lvl).hints
  {
    hide Taken, Kept, AgeFlags, AllSorted;
    assert HintOk(s, h);
    if h.at == lvl {
      var q, flags := s.queues[lvl], AgeFlags(s.jobs, s.queues[lvl]);
      DrainSplits(q, flags, AGED_BUF);
      assert h.rival in multiset(q);
      assert h.rival !in multiset(Taken(q, flags, AGED_BUF));
      assert h.rival in multiset(Kept(q, flags, AGED_BUF));
    }
  }

  lemma {:induction false} HintSurvives(b: seq<State>, steps: seq<Step>, from: nat, to: nat, h: Hint)
    requires Execution(b, steps) && from <= to < |b| && h in b[from].hints
    requires forall j | from <= j < to :: !Forgets(b[j], steps[j], h)
    ensures h in b[to].hints
  {
    hide Forgets, Apply, Enabled, HintsOk;
    if from < to {
      HintSurvives(b, steps, from, to - 1, h);
      ReachableHints(b, steps, to - 1);
      HintStays(b[to - 1], steps[to - 1], h);
    }
  }

  /** The level whose lock a probe takes. */
  function ProbedLevel(d: Dispatcher): nat
    requires d.Probe? || d.ProbeTop?
  {
    if d.Probe? then d.lvl else if d.level < 0 then 0 else d.level
  }

  /** A probe that goes on to the preemption attempt has found a better candidate. */
  lemma ProbeRemembers(s: State, sweep: bool, hint: int)
    requires Enabled(s, Dispatch(sweep, hint)) && (s.dispatcher.Probe? || s.dispatcher.ProbeTop?)
    requires Apply(s, Dispatch(sweep, hint)).dispatcher.Cas?
    ensures var d, at := s.dispatcher, ProbedLevel(s.dispatcher);
            && at < MLFQ_LEVELS && s.queues[at] != []
            && Hint(d.level, d.job.priority.Value(), s.queues[at][0], at) in Apply(s, Dispatch(sweep, hint)).hints
  {
  }

  /** The better-candidate answer is not stale: if it is yes at step k, because of the job `rival`,
      and the aging thread does not take that job before the dispatcher's pop ends with step m, then
      that pop hands over a job that is strictly better than the running job asked about, whatever
      else is pushed, popped or drained in between. */
  lemma YesMeansBetterPop(b: seq<State>, steps: seq<Step>, k: nat, m: nat, rival: JobInfo)
    requires Execution(b, steps) && k < m < |steps|
    requires steps[k].Dispatch? && (b[k].dispatcher.Probe? || b[k].dispatcher.ProbeTop?) && b[k + 1].dispatcher.Cas?
    requires ProbedLevel(b[k].dispatcher) < MLFQ_LEVELS && b[k].queues[ProbedLevel(b[k].dispatcher)] != []
    requires rival == b[k].queues[ProbedLevel(b[k].dispatcher)][0]
    requires var d := b[k].dispatcher;
             forall j | k + 1 <= j < m ::
               !Forgets(b[j], steps[j], Hint(d.level, d.job.priority.Value(), rival, ProbedLevel(d)))
    requires steps[m].Dispatch? && b[m].dispatcher.PopFrom? && !b[m + 1].dispatcher.PopFrom?
    ensures var d := b[k].dispatcher;
            && b[m + 1].dispatcher.Hand?
            && Beats(b[m].dispatcher.lvl, b[m + 1].dispatcher.job.priority.Value(), d.level, d.job.priority.Value())
  {
    var d := b[k].dispatcher;
    var h := Hint(d.level, d.job.priority.Value(), rival, ProbedLevel(d));
    ProbeRemembers(b[k], steps[k].sweep, steps[k].hint);
    hide Forgets;
    HintSurvives(b, steps, k + 1, m, h);
    PopReturnsBetter(b, steps, m, h);
    PopEnds(b[m], steps[m].sweep, steps[m].hint);
  }

  lemma PopEnds(s: State, sweep: bool, hint: int)
    requires Enabled(s, Dispatch(sweep, hint)) && s.dispatcher.PopFrom?
    ensures var s', lvl := Apply(s, Dispatch(sweep, hint)), s.dispatcher.lvl;
            && lvl < MLFQ_LEVELS
            && (s.queues[lvl] != [] ==> s'.dispatcher == Hand(s.queues[lvl][0]))
            && (s.queues[lvl] == [] && lvl + 1 < MLFQ_LEVELS ==> s'.dispatcher.PopFrom?)
  {
  }
}
